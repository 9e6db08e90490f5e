/**
 * The chart-of-accounts service: an account is created from user input
 * that is trimmed and, for the type, lower-cased before it is checked.
 */
module Accounts {
  import opened Wrappers
  import opened Text

  datatype Account = Account(code: string, name: string, accountType: string, isActive: bool)

  /** `AccountService.VALID_TYPES`. */
  const ValidTypes: set<string> := {"asset", "liability", "equity", "income", "expense"}

  /** `find_by_code`: an exact match on the stored code. */
  function FindByCode(accounts: seq<Account>, code: string): (r: Option<Account>)
    ensures r.None? <==> forall i :: 0 <= i < |accounts| ==> accounts[i].code != code
    ensures r.Some? ==> r.value in accounts && r.value.code == code
  {
    if accounts == [] then None
    else if accounts[0].code == code then Some(accounts[0])
    else FindByCode(accounts[1..], code)
  }

  /** The normalised type: `account_type.strip().lower()`. */
  function NormalType(accountType: string): string
  {
    Lower(Strip(accountType))
  }

  /**
   * The outcome of `create_account` on the stored accounts: the checks in
   * source order, all on the normalised inputs, and the account it stores.
   */
  function NewAccount(accounts: seq<Account>, code: string, name: string, accountType: string): (r: Result<Account, string>)
    ensures Strip(code) == "" ==> r == Err("Account code cannot be empty.")
    ensures Strip(code) != "" && Strip(name) == "" ==> r == Err("Account name cannot be empty.")
    ensures Strip(code) != "" && Strip(name) != "" && NormalType(accountType) !in ValidTypes ==>
      r == Err("Invalid account type: " + NormalType(accountType))
    ensures Strip(code) != "" && Strip(name) != "" && NormalType(accountType) in ValidTypes
            && FindByCode(accounts, Strip(code)).Some? ==>
      r == Err("Account with code " + Strip(code) + " already exists.")
    ensures r.Ok? <==>
      Strip(code) != "" && Strip(name) != "" && NormalType(accountType) in ValidTypes
      && FindByCode(accounts, Strip(code)).None?
    ensures r.Ok? ==> r.value == Account(Strip(code), Strip(name), NormalType(accountType), true)
    ensures r.Ok? ==> !Blank(r.value.code) && Trimmed(r.value.code) && Trimmed(r.value.name)
  {
    var c := Strip(code);
    var n := Strip(name);
    var t := NormalType(accountType);
    if c == "" then Err("Account code cannot be empty.")
    else if n == "" then Err("Account name cannot be empty.")
    else if t !in ValidTypes then Err("Invalid account type: " + t)
    else if FindByCode(accounts, c).Some? then Err("Account with code " + c + " already exists.")
    else
      StripEmptyIffBlank(c);
      StripTrimmed(c);
      Ok(Account(c, n, t, true))
  }

  /** Input that differs from a stored code only by surrounding whitespace is a duplicate. */
  lemma PaddedCodeIsDuplicate(accounts: seq<Account>, a: Account, code: string, name: string, accountType: string)
    requires a in accounts && a.code == Strip(code)
    ensures NewAccount(accounts, code, name, accountType).Err?
  {
    var i :| 0 <= i < |accounts| && accounts[i] == a;
    assert FindByCode(accounts, Strip(code)).Some?;
  }

  /** The type test ignores case and surrounding whitespace. */
  lemma TypeCaseIgnored(accounts: seq<Account>, code: string, name: string, t: string, u: string)
    requires Lower(Strip(t)) == Lower(Strip(u))
    ensures NewAccount(accounts, code, name, t) == NewAccount(accounts, code, name, u)
  {
  }

  /** The register behind `AccountService`. */
  class AccountService {
    var accounts: seq<Account>

    constructor (accounts: seq<Account>)
      ensures this.accounts == accounts
    {
      this.accounts := accounts;
    }

    /** The stored codes are unique. */
    predicate CodesUnique()
      reads this
    {
      forall i, j :: 0 <= i < j < |accounts| ==> accounts[i].code != accounts[j].code
    }

    /** `create_account`: on success the new account is added; on failure nothing is stored. */
    method CreateAccount(code: string, name: string, accountType: string) returns (r: Result<(), string>)
      modifies this
      ensures var e := NewAccount(old(accounts), code, name, accountType);
        && (r.Ok? <==> e.Ok?)
        && (e.Err? ==> r == Err(e.error) && accounts == old(accounts))
        && (e.Ok? ==> accounts == old(accounts) + [e.value])
      ensures old(CodesUnique()) ==> CodesUnique()
    {
      var e := NewAccount(accounts, code, name, accountType);
      if e.Err? {
        return Err(e.error);
      }
      if CodesUnique() {
        CreateKeepsCodesUnique(accounts, code, name, accountType);
      }
      accounts := accounts + [e.value];
      r := Ok(());
    }
  }

  /** Adding what `create_account` accepts keeps the codes unique. */
  lemma CreateKeepsCodesUnique(accounts: seq<Account>, code: string, name: string, accountType: string)
    requires forall i, j :: 0 <= i < j < |accounts| ==> accounts[i].code != accounts[j].code
    requires NewAccount(accounts, code, name, accountType).Ok?
    ensures var s := accounts + [NewAccount(accounts, code, name, accountType).value];
      forall i, j :: 0 <= i < j < |s| ==> s[i].code != s[j].code
  {
    var a := NewAccount(accounts, code, name, accountType).value;
    assert FindByCode(accounts, a.code).None?;
    var s := accounts + [a];
    forall i, j | 0 <= i < j < |s| ensures s[i].code != s[j].code {
      if j == |accounts| {
        assert s[i] == accounts[i] && s[j] == a;
      } else {
        assert s[i] == accounts[i] && s[j] == accounts[j];
      }
    }
  }
}

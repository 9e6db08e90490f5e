/**
 * Audit log entries: how a log stores the old and new field values, and
 * which fields it reports as changed. The JSON text is modelled by what it
 * parses to.
 */
module Audit {
  import opened Wrappers

  /**
   * A field value after `json.loads`, compared with Python's `==`. A JSON
   * null and a missing key both read back as `None`, which is `Null` here.
   */
  datatype Value = Null | Val(repr: string)

  type Fields = map<string, Value>

  /**
   * The `changes` column: the text parses to an object whose "old" and
   * "new" members may each be missing, or it does not parse at all.
   */
  datatype Changes = Unparseable | Parsed(oldValues: Option<Fields>, newValues: Option<Fields>)

  /** An audit log; the generated uuid and the clock reading are inputs. */
  datatype AuditLog = AuditLog(
    entityType: string,
    entityId: string,
    action: string,
    user: string,
    changes: Changes,
    timestamp: int,
    id: string)

  /** `values or {}`: a missing map and an empty one are both stored as empty. */
  function OrEmpty(m: Option<Fields>): (r: Fields)
    ensures m.None? ==> r == map[]
    ensures m.Some? ==> r == m.value
  {
    if m.None? then map[] else m.value
  }

  /** `create_log`: both maps are always present in what is stored. */
  function CreateLog(entityType: string, entityId: string, action: string, user: string,
                     oldValues: Option<Fields>, newValues: Option<Fields>, now: int, id: string): (r: AuditLog)
    ensures r.changes == Parsed(Some(OrEmpty(oldValues)), Some(OrEmpty(newValues)))
    ensures r.entityType == entityType && r.entityId == entityId && r.action == action && r.user == user
    ensures r.timestamp == now && r.id == id
  {
    AuditLog(entityType, entityId, action, user,
             Parsed(Some(OrEmpty(oldValues)), Some(OrEmpty(newValues))), now, id)
  }

  /** `get_changes_dict` followed by `.get("old", {})` and `.get("new", {})`. */
  function OldValues(log: AuditLog): Fields
  {
    match log.changes
    case Unparseable => map[]
    case Parsed(o, _) => OrEmpty(o)
  }

  function NewValues(log: AuditLog): Fields
  {
    match log.changes
    case Unparseable => map[]
    case Parsed(_, n) => OrEmpty(n)
  }

  /** What a log made by `create_log` reads back. */
  lemma CreatedLogReadsBack(entityType: string, entityId: string, action: string, user: string,
                            oldValues: Option<Fields>, newValues: Option<Fields>, now: int, id: string)
    ensures var log := CreateLog(entityType, entityId, action, user, oldValues, newValues, now, id);
      OldValues(log) == OrEmpty(oldValues) && NewValues(log) == OrEmpty(newValues)
  {
  }

  /** `d.get(k)`: `None` for a missing key. */
  function Get(m: Fields, k: string): Value
  {
    if k in m then m[k] else Null
  }

  predicate NoDuplicates(s: seq<string>)
  {
    forall i, j :: 0 <= i < j < |s| ==> s[i] != s[j]
  }

  /**
   * An iteration order of `set(old.keys()) | set(new.keys())`: every key of
   * either map exactly once. Python's set order is not specified, so the
   * model takes it as an input.
   */
  ghost predicate EnumeratesKeys(order: seq<string>, before: Fields, after: Fields)
  {
    NoDuplicates(order) && forall k :: k in order <==> k in before || k in after
  }

  /** The loop body of `get_changed_fields` over `keys`: the keys whose two readings differ. */
  function Differing(keys: seq<string>, before: Fields, after: Fields): (r: seq<string>)
    ensures forall k :: k in r <==> k in keys && Get(before, k) != Get(after, k)
    ensures |r| <= |keys|
  {
    if keys == [] then []
    else
      var rest := Differing(keys[..|keys| - 1], before, after);
      var k := keys[|keys| - 1];
      assert keys == keys[..|keys| - 1] + [k];
      if Get(before, k) != Get(after, k) then rest + [k] else rest
  }

  /** Filtering a duplicate-free list keeps it duplicate-free. */
  lemma {:induction false} DifferingNoDuplicates(keys: seq<string>, before: Fields, after: Fields)
    requires NoDuplicates(keys)
    ensures NoDuplicates(Differing(keys, before, after))
  {
    if keys != [] {
      var n := |keys| - 1;
      var k := keys[n];
      assert NoDuplicates(keys[..n]);
      DifferingNoDuplicates(keys[..n], before, after);
      assert k !in keys[..n];
    }
  }

  /** `get_changed_fields` for one iteration order of the key set. */
  function ChangedFields(log: AuditLog, order: seq<string>): (r: seq<string>)
    requires EnumeratesKeys(order, OldValues(log), NewValues(log))
    ensures NoDuplicates(r)
    ensures forall k :: k in r <==>
      (k in OldValues(log) || k in NewValues(log)) && Get(OldValues(log), k) != Get(NewValues(log), k)
  {
    DifferingNoDuplicates(order, OldValues(log), NewValues(log));
    Differing(order, OldValues(log), NewValues(log))
  }

  /** Comparing a map with itself finds no difference on any key list. */
  lemma {:induction false} DifferingSelf(keys: seq<string>, m: Fields)
    ensures Differing(keys, m, m) == []
  {
    if keys != [] {
      DifferingSelf(keys[..|keys| - 1], m);
    }
  }

  /** Equal old and new maps report no change. */
  lemma NoChangeNoFields(log: AuditLog, order: seq<string>)
    requires EnumeratesKeys(order, OldValues(log), NewValues(log))
    requires OldValues(log) == NewValues(log)
    ensures ChangedFields(log, order) == []
  {
    DifferingSelf(order, OldValues(log));
  }

  /** A key set to null on one side and absent on the other does not count as changed. */
  lemma NullMatchesMissing(log: AuditLog, order: seq<string>, k: string)
    requires EnumeratesKeys(order, OldValues(log), NewValues(log))
    requires k in OldValues(log) && OldValues(log)[k] == Null && k !in NewValues(log)
    ensures k !in ChangedFields(log, order)
  {
  }

  /** A log whose text does not parse reports no changed field. */
  lemma UnparseableHasNoChanges(log: AuditLog, order: seq<string>)
    requires log.changes.Unparseable?
    requires EnumeratesKeys(order, OldValues(log), NewValues(log))
    ensures ChangedFields(log, order) == []
  {
    NoChangeNoFields(log, order);
  }
}

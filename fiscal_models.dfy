/**
 * The data of the VAT self-assessment form (model 303): one accumulator per
 * VAT rate for output VAT (repercutit) and for input VAT (suportat), and
 * the totals computed from them. A dictionary keyed by rate is a list of
 * slots in insertion order; Decimal amounts are reals.
 */
module Model303 {

  /** Base and quota accumulated for one VAT rate. */
  class VatDetail {
    var rate: int
    var base: real
    var quota: real

    constructor (rate: int, base: real, quota: real)
      ensures this.rate == rate && this.base == base && this.quota == quota
    {
      this.rate := rate;
      this.base := base;
      this.quota := quota;
    }

    /** `add`: both amounts grow by exactly the arguments. */
    method Add(base: real, quota: real)
      modifies this
      ensures this.base == old(this.base) + base
      ensures this.quota == old(this.quota) + quota
      ensures this.rate == old(this.rate)
    {
      this.base := this.base + base;
      this.quota := this.quota + quota;
    }
  }

  /** One dictionary entry: the rate key and its accumulator. */
  datatype Slot = Slot(rate: int, detail: VatDetail)

  function Keys(slots: seq<Slot>): (r: seq<int>)
    ensures |r| == |slots|
    ensures forall i :: 0 <= i < |slots| ==> r[i] == slots[i].rate
  {
    if slots == [] then [] else Keys(slots[..|slots| - 1]) + [slots[|slots| - 1].rate]
  }

  /** The rates every form starts with. */
  const StandardRates: seq<int> := [4, 10, 21]

  /** The rates of `rs`, in order, that are not yet keys. */
  function Missing(keys: seq<int>, rs: seq<int>): seq<int>
  {
    if rs == [] then []
    else Missing(keys, rs[..|rs| - 1]) + (if rs[|rs| - 1] !in keys then [rs[|rs| - 1]] else [])
  }

  /** The missing rates are exactly the rates that are not keys. */
  lemma {:induction false} MissingMembers(keys: seq<int>, rs: seq<int>)
    ensures forall x :: x in Missing(keys, rs) <==> x in rs && x !in keys
  {
    if rs != [] {
      var n := |rs| - 1;
      MissingMembers(keys, rs[..n]);
      assert rs == rs[..n] + [rs[n]];
    }
  }

  /** Looking at one more rate adds it when it is new. */
  lemma MissingStep(keys: seq<int>, rs: seq<int>, i: nat)
    requires i < |rs|
    ensures Missing(keys, rs[..i + 1]) == Missing(keys, rs[..i]) + (if rs[i] !in keys then [rs[i]] else [])
  {
    assert rs[..i + 1][..i] == rs[..i];
  }

  /** The standard rates are distinct. */
  lemma StandardRateIsNew(i: nat)
    requires i < |StandardRates|
    ensures StandardRates[i] !in StandardRates[..i]
  {
    if i == 2 {
      assert StandardRates[..i] == [4, 10];
    } else if i == 1 {
      assert StandardRates[..i] == [4];
    }
  }

  /** One turn of the `__post_init__` loop on the keys. */
  lemma KeysStep(ks: seq<int>, before: seq<int>, after: seq<int>, i: nat)
    requires i < |StandardRates|
    requires before == ks + Missing(ks, StandardRates[..i])
    requires after == before + (if StandardRates[i] !in before then [StandardRates[i]] else [])
    ensures after == ks + Missing(ks, StandardRates[..i + 1])
  {
    var r, ms := StandardRates[i], Missing(ks, StandardRates[..i]);
    MissingStep(ks, StandardRates, i);
    StandardRateIsNew(i);
    MissingMembers(ks, StandardRates[..i]);
    assert r !in ms;
    assert r in before <==> r in ks;
    var tail := if r !in ks then [r] else [];
    assert (ks + ms) + tail == ks + (ms + tail);
  }

  /** After the rates are filled in, every standard rate is a key and the given keys come first. */
  lemma FilledKeys(keys: seq<int>)
    ensures forall r :: r in StandardRates ==> r in keys + Missing(keys, StandardRates)
    ensures (keys + Missing(keys, StandardRates))[..|keys|] == keys
  {
    MissingMembers(keys, StandardRates);
  }

  /** Adding up a list of amounts. */
  function Sum(xs: seq<real>): real
  {
    if xs == [] then 0.0 else Sum(xs[..|xs| - 1]) + xs[|xs| - 1]
  }

  /** Raising one amount raises the sum by the same quantity. */
  lemma {:induction false} SumUpdate(xs: seq<real>, i: int, q: real)
    requires 0 <= i < |xs|
    ensures Sum(xs[i := xs[i] + q]) == Sum(xs) + q
  {
    var n := |xs| - 1;
    var ys := xs[i := xs[i] + q];
    assert ys[..n] == if i < n then xs[..n][i := xs[i] + q] else xs[..n];
    if i < n {
      SumUpdate(xs[..n], i, q);
    }
  }

  /** A zero amount added at the end leaves the sum as it was. */
  lemma SumAppendZero(xs: seq<real>)
    ensures Sum(xs + [0.0]) == Sum(xs)
  {
    assert (xs + [0.0])[..|xs|] == xs;
  }

  /** The objects behind a list of slots. */
  function Details(slots: seq<Slot>): set<VatDetail>
  {
    set i | 0 <= i < |slots| :: slots[i].detail
  }

  /** The quotas of the slots, in order. */
  function Quotas(slots: seq<Slot>): (r: seq<real>)
    reads Details(slots)
    ensures |r| == |slots|
    ensures forall i :: 0 <= i < |slots| ==> r[i] == slots[i].detail.quota
  {
    seq(|slots|, i requires 0 <= i < |slots| reads Details(slots) => slots[i].detail.quota)
  }

  class Model303Data {
    var year: int
    var period: string
    var repercutit: seq<Slot>
    var suportat: seq<Slot>
    var totalRepercutitQuota: real
    var totalSuportatQuota: real
    var resultQuota: real
    var companyName: string
    var companyNif: string

    /**
     * Construction with `__post_init__`: the given entries are kept as they
     * are, and each standard rate without an entry gets a new empty one, in
     * the order 4, 10, 21.
     */
    constructor (year: int, period: string, repercutit: seq<Slot>, suportat: seq<Slot>,
                 companyName: string, companyNif: string)
      ensures this.year == year && this.period == period
      ensures this.companyName == companyName && this.companyNif == companyNif
      ensures this.totalRepercutitQuota == 0.0 && this.totalSuportatQuota == 0.0 && this.resultQuota == 0.0
      ensures |repercutit| <= |this.repercutit| && this.repercutit[..|repercutit|] == repercutit
      ensures |suportat| <= |this.suportat| && this.suportat[..|suportat|] == suportat
      ensures Keys(this.repercutit) == Keys(repercutit) + Missing(Keys(repercutit), StandardRates)
      ensures Keys(this.suportat) == Keys(suportat) + Missing(Keys(suportat), StandardRates)
      ensures forall j :: |repercutit| <= j < |this.repercutit| ==>
        fresh(this.repercutit[j].detail) && this.repercutit[j].detail.base == 0.0 && this.repercutit[j].detail.quota == 0.0
      ensures forall j :: |suportat| <= j < |this.suportat| ==>
        fresh(this.suportat[j].detail) && this.suportat[j].detail.base == 0.0 && this.suportat[j].detail.quota == 0.0
    {
      var rep := FillStandardRates(repercutit);
      var sup := FillStandardRates(suportat);
      this.year := year;
      this.period := period;
      this.repercutit := rep;
      this.suportat := sup;
      this.totalRepercutitQuota := 0.0;
      this.totalSuportatQuota := 0.0;
      this.resultQuota := 0.0;
      this.companyName := companyName;
      this.companyNif := companyNif;
    }

    /** `calculate_totals`: each total is the sum of the quotas of its dictionary, and the result is their difference. */
    method CalculateTotals()
      modifies this`totalRepercutitQuota, this`totalSuportatQuota, this`resultQuota
      ensures totalRepercutitQuota == Sum(Quotas(repercutit))
      ensures totalSuportatQuota == Sum(Quotas(suportat))
      ensures resultQuota == totalRepercutitQuota - totalSuportatQuota
      ensures repercutit == old(repercutit) && suportat == old(suportat)
      ensures year == old(year) && period == old(period)
      ensures companyName == old(companyName) && companyNif == old(companyNif)
    {
      var rep := Sum(Quotas(repercutit));
      var sup := Sum(Quotas(suportat));
      totalRepercutitQuota, totalSuportatQuota, resultQuota := rep, sup, rep - sup;
      assert Quotas(repercutit) == old(Quotas(repercutit));
      assert Quotas(suportat) == old(Quotas(suportat));
    }
  }

  /** The loop of `__post_init__` on one dictionary: every standard rate without an entry gets a new empty one. */
  method FillStandardRates(slots: seq<Slot>) returns (out: seq<Slot>)
    ensures |slots| <= |out| && out[..|slots|] == slots
    ensures Keys(out) == Keys(slots) + Missing(Keys(slots), StandardRates)
    ensures forall j :: |slots| <= j < |out| ==>
      fresh(out[j].detail) && out[j].detail.base == 0.0 && out[j].detail.quota == 0.0
  {
    out := slots;
    var i := 0;
    while i < |StandardRates|
      invariant 0 <= i <= |StandardRates|
      invariant |slots| <= |out| && out[..|slots|] == slots
      invariant Keys(out) == Keys(slots) + Missing(Keys(slots), StandardRates[..i])
      invariant forall j :: |slots| <= j < |out| ==>
        fresh(out[j].detail) && out[j].detail.base == 0.0 && out[j].detail.quota == 0.0
    {
      var r := StandardRates[i];
      var next := AddIfMissing(out, r);
      KeysStep(Keys(slots), Keys(out), Keys(next), i);
      assert forall j :: 0 <= j < |out| ==> next[j] == next[..|out|][j];
      out := next;
      i := i + 1;
    }
    assert StandardRates[..i] == StandardRates;
  }

  /** One step of `__post_init__` on one dictionary: a new empty entry for `r` unless `r` is already a key. */
  method AddIfMissing(slots: seq<Slot>, r: int) returns (out: seq<Slot>)
    ensures |slots| <= |out| && out[..|slots|] == slots
    ensures Keys(out) == Keys(slots) + (if r !in Keys(slots) then [r] else [])
    ensures forall j :: |slots| <= j < |out| ==>
      fresh(out[j].detail) && out[j].detail.base == 0.0 && out[j].detail.quota == 0.0
  {
    if exists i :: 0 <= i < |slots| && slots[i].rate == r {
      assert r in Keys(slots) by {
        var i :| 0 <= i < |slots| && slots[i].rate == r;
        assert Keys(slots)[i] == r;
      }
      return slots;
    }
    assert r !in Keys(slots);
    var d := new VatDetail(r, 0.0, 0.0);
    out := slots + [Slot(r, d)];
    assert out[..|slots|] == slots;
  }
}

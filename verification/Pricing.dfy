/** The versioned pricing registry (internal/pricing/pricing.go). An `until` of ZERO_TIME means still in effect. */
module Pricing {

  const ZERO_TIME := 0.0

  datatype Rate = Rate(
    provider: string, model: string, input: int, output: int, fee: int, version: int, from: real, until: real)

  datatype Key = Key(provider: string, model: string)

  datatype Lookup = Found(rate: Rate) | NoPricingInEffect

  predicate Open(r: Rate) {
    r.until == ZERO_TIME
  }

  predicate ActiveAt(r: Rate, t: real) {
    r.from <= t && (Open(r) || t < r.until)
  }

  function Estimate(r: Rate, inputUnits: int, outputUnits: int): int {
    r.fee + inputUnits * r.input + outputUnits * r.output
  }

  /** With non-negative prices and units, a cost is non-negative and rises with usage. */
  lemma EstimateMonotone(r: Rate, i: int, o: int, i': int, o': int)
    requires r.input >= 0 && r.output >= 0 && r.fee >= 0 && 0 <= i <= i' && 0 <= o <= o'
    ensures 0 <= Estimate(r, i, o) <= Estimate(r, i', o')
  {
    MulMonotone(i, i', r.input);
    MulMonotone(o, o', r.output);
  }

  /** A request costs its fee, and each further input or output unit adds its own price. */
  lemma EstimateByUnit(r: Rate, i: int, o: int)
    ensures Estimate(r, 0, 0) == r.fee
    ensures Estimate(r, i + 1, o) == Estimate(r, i, o) + r.input
    ensures Estimate(r, i, o + 1) == Estimate(r, i, o) + r.output
  {
    assert (i + 1) * r.input == i * r.input + r.input;
    assert (o + 1) * r.output == o * r.output + r.output;
  }

  lemma MulMonotone(a: int, b: int, c: int)
    requires 0 <= a <= b && c >= 0
    ensures 0 <= a * c <= b * c
  {
  }

  // ---------- the list of one provider and model ----------

  /** AddRate closes every open version that started no later than the new one. */
  function ClosedBy(r: Rate, from: real): Rate {
    if Open(r) && r.from <= from then r.(until := from) else r
  }

  function AllClosedBy(list: seq<Rate>, from: real): (closed: seq<Rate>)
    ensures |closed| == |list| && forall i :: 0 <= i < |list| ==> closed[i] == ClosedBy(list[i], from)
  {
    seq(|list|, i requires 0 <= i < |list| => ClosedBy(list[i], from))
  }

  function Added(list: seq<Rate>, rate: Rate): seq<Rate> {
    AllClosedBy(list, rate.from) + [rate]
  }

  /** RateAt: the first active version in list order. */
  function RateIn(list: seq<Rate>, t: real): Lookup {
    if list == [] then NoPricingInEffect
    else if ActiveAt(list[0], t) then Found(list[0])
    else RateIn(list[1..], t)
  }

  lemma {:induction false} RateInFirst(list: seq<Rate>, t: real, k: nat)
    requires k < |list| && ActiveAt(list[k], t)
    requires forall i :: 0 <= i < k ==> !ActiveAt(list[i], t)
    ensures RateIn(list, t) == Found(list[k])
    decreases k
  {
    if k > 0 {
      RateInFirst(list[1..], t, k - 1);
    }
  }

  // ---------- the past is never rewritten ----------

  /** Same version at the same prices, or the same error; only the closing time may differ. */
  predicate SamePrice(a: Lookup, b: Lookup) {
    match (a, b)
    case (Found(r), Found(q)) => q == r.(until := q.until)
    case (NoPricingInEffect, NoPricingInEffect) => true
    case _ => false
  }

  lemma {:induction false} ClosingKeepsPast(list: seq<Rate>, closed: seq<Rate>, from: real, t: real, rate: Rate)
    requires |closed| == |list| && forall i :: 0 <= i < |list| ==> closed[i] == ClosedBy(list[i], from)
    requires t < from && rate.from == from
    ensures SamePrice(RateIn(list, t), RateIn(closed + [rate], t))
    decreases |list|
  {
    if list == [] {
      assert (closed + [rate])[1..] == [];
    } else {
      assert closed[0] == ClosedBy(list[0], from);
      assert (closed + [rate])[1..] == closed[1..] + [rate];
      ClosingKeepsPast(list[1..], closed[1..], from, t, rate);
    }
  }

  /** Adding any rate, in any order, changes no price for any time before it takes effect. */
  lemma PastIsNeverRewritten(list: seq<Rate>, rate: Rate, t: real)
    requires t < rate.from
    ensures SamePrice(RateIn(list, t), RateIn(Added(list, rate), t))
  {
    ClosingKeepsPast(list, AllClosedBy(list, rate.from), rate.from, t, rate);
  }

  // ---------- when history stays gapless and non-overlapping ----------

  predicate Covered(list: seq<Rate>, t: real) {
    exists i :: 0 <= i < |list| && ActiveAt(list[i], t)
  }

  /** No two versions in effect at once. */
  ghost predicate Disjoint(list: seq<Rate>) {
    forall i, j, t :: 0 <= i < j < |list| && ActiveAt(list[i], t) ==> !ActiveAt(list[j], t)
  }

  /** No time without a version between two times with one. */
  ghost predicate Gapless(list: seq<Rate>) {
    forall a, t, b :: a <= t <= b && Covered(list, a) && Covered(list, b) ==> Covered(list, t)
  }

  ghost predicate Tiles(list: seq<Rate>) {
    Disjoint(list) && Gapless(list)
  }

  /** In effect at some time: a version may carry its own end, even one before its start. */
  predicate NonEmpty(r: Rate) {
    Open(r) || r.from < r.until
  }

  predicate Unused(list: seq<Rate>) {
    forall i :: 0 <= i < |list| ==> !NonEmpty(list[i])
  }

  /** A version still in effect for good that AddRate will close at time f. */
  predicate OpenUntil(list: seq<Rate>, f: real) {
    f != ZERO_TIME && exists i :: 0 <= i < |list| && Open(list[i]) && list[i].from <= f
  }

  /** History stops at time e: the latest end any version has. */
  predicate EndsAt(list: seq<Rate>, e: real) {
    && (forall i :: 0 <= i < |list| && NonEmpty(list[i]) ==> !Open(list[i]) && list[i].until <= e)
    && (exists i :: 0 <= i < |list| && NonEmpty(list[i]) && list[i].until == e)
  }

  /** History begins at time s: the earliest start any version has. */
  predicate StartsAt(list: seq<Rate>, s: real) {
    && (forall i :: 0 <= i < |list| && NonEmpty(list[i]) ==> s <= list[i].from)
    && (exists i :: 0 <= i < |list| && NonEmpty(list[i]) && list[i].from == s)
  }

  /** The new version takes over where history is open or has ended, or ends itself where history begins. */
  predicate Fits(list: seq<Rate>, rate: Rate) {
    || !NonEmpty(rate) || Unused(list)
    || OpenUntil(list, rate.from) || EndsAt(list, rate.from)
    || (!Open(rate) && StartsAt(list, rate.until))
  }

  lemma NonEmptyStarts(r: Rate, t: real)
    ensures ActiveAt(r, t) ==> NonEmpty(r)
    ensures NonEmpty(r) ==> ActiveAt(r, r.from)
  {
  }

  lemma CoveredStarts(list: seq<Rate>, i: nat)
    requires i < |list| && NonEmpty(list[i])
    ensures Covered(list, list[i].from)
  {
    NonEmptyStarts(list[i], list[i].from);
  }

  lemma CoveredMore(list: seq<Rate>, rate: Rate, t: real)
    ensures Covered(list + [rate], t) <==> Covered(list, t) || ActiveAt(rate, t)
  {
    var next := list + [rate];
    assert next[|list|] == rate;
    if Covered(list, t) {
      var i :| 0 <= i < |list| && ActiveAt(list[i], t);
      assert ActiveAt(next[i], t);
    }
  }

  // ---------- closing ----------

  /** Closing cuts open versions off at the new start. */
  lemma ClosedActive(list: seq<Rate>, f: real, i: nat, t: real)
    requires i < |list|
    ensures ActiveAt(AllClosedBy(list, f)[i], t)
       <==> ActiveAt(list[i], t) && (Open(list[i]) && list[i].from <= f && f != ZERO_TIME ==> t < f)
  {
  }

  lemma ClosedCovers(list: seq<Rate>, f: real, t: real)
    requires Covered(list, t) && t < f
    ensures Covered(AllClosedBy(list, f), t)
  {
    var i :| 0 <= i < |list| && ActiveAt(list[i], t);
    ClosedActive(list, f, i, t);
  }

  lemma CoveredByClosed(list: seq<Rate>, f: real, t: real)
    requires Covered(AllClosedBy(list, f), t)
    ensures Covered(list, t)
  {
    var i :| 0 <= i < |list| && ActiveAt(AllClosedBy(list, f)[i], t);
    ClosedActive(list, f, i, t);
  }

  /** With no open version to close, the list stays as it is. */
  lemma NothingToClose(list: seq<Rate>, f: real)
    requires !OpenUntil(list, f)
    ensures AllClosedBy(list, f) == list
  {
  }

  // ---------- appending ----------

  /** Nothing in the list is in effect from f on, and nothing is missing between what is and f. */
  ghost predicate UpTo(list: seq<Rate>, f: real) {
    && (forall t :: Covered(list, t) ==> t < f)
    && (forall a, t :: Covered(list, a) && a <= t < f ==> Covered(list, t))
  }

  /** The mirror image: nothing before u, and nothing missing from u on. */
  ghost predicate From(list: seq<Rate>, u: real) {
    && (forall t :: Covered(list, t) ==> u <= t)
    && (forall b, t :: Covered(list, b) && u <= t <= b ==> Covered(list, t))
  }

  lemma AppendDisjoint(list: seq<Rate>, rate: Rate)
    requires Disjoint(list) && forall t :: Covered(list, t) ==> !ActiveAt(rate, t)
    ensures Disjoint(list + [rate])
  {
    var next := list + [rate];
    forall i, j, t | 0 <= i < j < |next| && ActiveAt(next[i], t) ensures !ActiveAt(next[j], t) {
      if j == |list| {
        assert ActiveAt(list[i], t) && Covered(list, t);
      }
    }
  }

  lemma AppendAfter(list: seq<Rate>, rate: Rate)
    requires Disjoint(list) && UpTo(list, rate.from)
    ensures Tiles(list + [rate])
  {
    var next := list + [rate];
    AppendDisjoint(list, rate);
    forall a, t, b | a <= t <= b && Covered(next, a) && Covered(next, b) ensures Covered(next, t) {
      CoveredMore(list, rate, a);
      CoveredMore(list, rate, t);
      CoveredMore(list, rate, b);
    }
  }

  lemma AppendBefore(list: seq<Rate>, rate: Rate)
    requires Tiles(list) && !Open(rate) && From(list, rate.until)
    ensures Tiles(list + [rate])
  {
    var next := list + [rate];
    AppendDisjoint(list, rate);
    forall a, t, b | a <= t <= b && Covered(next, a) && Covered(next, b) ensures Covered(next, t) {
      CoveredMore(list, rate, a);
      CoveredMore(list, rate, t);
      CoveredMore(list, rate, b);
    }
  }

  lemma EndIsUpTo(list: seq<Rate>, e: real)
    requires Tiles(list) && EndsAt(list, e)
    ensures UpTo(list, e)
  {
    var i :| 0 <= i < |list| && NonEmpty(list[i]) && list[i].until == e;
    CoveredStarts(list, i);
    forall t | Covered(list, t) ensures t < e {
      var j :| 0 <= j < |list| && ActiveAt(list[j], t);
      NonEmptyStarts(list[j], t);
    }
    forall a, t | Covered(list, a) && a <= t < e ensures Covered(list, t) {
      if list[i].from <= t {
        assert ActiveAt(list[i], t);
      }
    }
  }

  lemma StartIsFrom(list: seq<Rate>, s: real)
    requires Tiles(list) && StartsAt(list, s)
    ensures From(list, s)
  {
    var i :| 0 <= i < |list| && NonEmpty(list[i]) && list[i].from == s;
    CoveredStarts(list, i);
    forall t | Covered(list, t) ensures s <= t {
      var j :| 0 <= j < |list| && ActiveAt(list[j], t);
      NonEmptyStarts(list[j], t);
    }
  }

  /** Closing a history that is open at f leaves it running exactly up to f. */
  lemma CutIsUpTo(list: seq<Rate>, f: real)
    requires Tiles(list) && OpenUntil(list, f)
    ensures UpTo(AllClosedBy(list, f), f) && Disjoint(AllClosedBy(list, f))
  {
    var c := AllClosedBy(list, f);
    var p :| 0 <= p < |list| && Open(list[p]) && list[p].from <= f;
    forall i, t | 0 <= i < |c| && t >= f ensures !ActiveAt(c[i], t) {
      ClosedActive(list, f, i, t);
      assert ActiveAt(list[p], t);
    }
    forall a, t | Covered(c, a) && a <= t < f ensures Covered(c, t) {
      CoveredByClosed(list, f, a);
      assert ActiveAt(list[p], f) && Covered(list, f);
      ClosedCovers(list, f, t);
    }
    forall i, j, t | 0 <= i < j < |c| && ActiveAt(c[i], t) ensures !ActiveAt(c[j], t) {
      ClosedActive(list, f, i, t);
      ClosedActive(list, f, j, t);
    }
  }

  lemma FittingTiles(list: seq<Rate>, rate: Rate)
    requires Tiles(list) && Fits(list, rate)
    ensures Tiles(Added(list, rate))
  {
    if OpenUntil(list, rate.from) {
      CutIsUpTo(list, rate.from);
      AppendAfter(AllClosedBy(list, rate.from), rate);
    } else {
      NothingToClose(list, rate.from);
      if EndsAt(list, rate.from) {
        EndIsUpTo(list, rate.from);
        AppendAfter(list, rate);
      } else if !Open(rate) && StartsAt(list, rate.until) {
        StartIsFrom(list, rate.until);
        AppendBefore(list, rate);
      } else {
        AppendIdle(list, rate);
      }
    }
  }

  lemma AppendIdle(list: seq<Rate>, rate: Rate)
    requires Tiles(list) && (!NonEmpty(rate) || Unused(list))
    ensures Tiles(list + [rate])
  {
    var next := list + [rate];
    forall t ensures (!NonEmpty(rate) && !ActiveAt(rate, t)) || !Covered(list, t) {
      NonEmptyStarts(rate, t);
      if Unused(list) {
        NothingAt(list, t);
      }
    }
    AppendDisjoint(list, rate);
    forall a, t, b | a <= t <= b && Covered(next, a) && Covered(next, b) ensures Covered(next, t) {
      CoveredMore(list, rate, a);
      CoveredMore(list, rate, t);
      CoveredMore(list, rate, b);
    }
  }

  // ---------- a version that does not fit ----------

  /** Among the versions that start before f, all of which end, one that ends last. */
  lemma {:induction false} LastEnd(list: seq<Rate>, f: real, k: nat) returns (m: nat)
    requires k < |list| && NonEmpty(list[k]) && list[k].from < f
    requires forall i :: 0 <= i < |list| && NonEmpty(list[i]) && list[i].from < f ==> !Open(list[i])
    ensures m < |list| && NonEmpty(list[m]) && list[m].from < f
    ensures forall i :: 0 <= i < |list| && NonEmpty(list[i]) && list[i].from < f ==> list[i].until <= list[m].until
    decreases |list|
  {
    var n := |list| - 1;
    var init, last := list[..n], list[n];
    if j :| 0 <= j < n && NonEmpty(list[j]) && list[j].from < f {
      m := LastEnd(init, f, j);
      if NonEmpty(last) && last.from < f && last.until > list[m].until {
        m := n;
      }
    } else {
      m := k;
    }
  }

  lemma {:induction false} FirstStart(list: seq<Rate>, k: nat) returns (m: nat)
    requires k < |list| && NonEmpty(list[k])
    ensures m < |list| && NonEmpty(list[m])
    ensures forall i :: 0 <= i < |list| && NonEmpty(list[i]) ==> list[m].from <= list[i].from
    decreases |list|
  {
    var n := |list| - 1;
    var init, last := list[..n], list[n];
    if j :| 0 <= j < n && NonEmpty(list[j]) {
      m := FirstStart(init, j);
      if NonEmpty(last) && last.from < list[m].from {
        m := n;
      }
    } else {
      m := k;
    }
  }

  /** What a list and a version appended to it look like when the result tiles. */
  ghost predicate Beside(list: seq<Rate>, rate: Rate) {
    && (forall t :: ActiveAt(rate, t) ==> !Covered(list, t))
    && (forall a, t, b :: a <= t <= b && (Covered(list, a) || ActiveAt(rate, a)) && (Covered(list, b) || ActiveAt(rate, b)) ==>
          Covered(list, t) || ActiveAt(rate, t))
  }

  lemma TilingIsBeside(list: seq<Rate>, rate: Rate)
    requires Tiles(list + [rate])
    ensures Beside(list, rate)
  {
    var next := list + [rate];
    forall i, t | 0 <= i < |list| && ActiveAt(list[i], t) ensures !ActiveAt(rate, t) {
      assert next[i] == list[i] && next[|list|] == rate;
    }
    forall a, t, b | a <= t <= b && (Covered(list, a) || ActiveAt(rate, a)) && (Covered(list, b) || ActiveAt(rate, b))
      ensures Covered(list, t) || ActiveAt(rate, t)
    {
      CoveredMore(list, rate, a);
      CoveredMore(list, rate, t);
      CoveredMore(list, rate, b);
    }
  }

  /** Where every version has ended or has yet to start, none is in effect. */
  lemma NothingAt(list: seq<Rate>, t: real)
    requires forall i :: 0 <= i < |list| && NonEmpty(list[i]) ==> t < list[i].from || (!Open(list[i]) && list[i].until <= t)
    ensures !Covered(list, t)
  {
    forall i | 0 <= i < |list| ensures !ActiveAt(list[i], t) {
      NonEmptyStarts(list[i], t);
    }
  }

  /** If part of history starts before the new version, the whole of it ends where the version starts. */
  lemma BesideAfter(list: seq<Rate>, rate: Rate, k: nat)
    requires Tiles(list) && NonEmpty(rate) && Beside(list, rate)
    requires k < |list| && NonEmpty(list[k]) && list[k].from < rate.from
    ensures EndsAt(list, rate.from)
  {
    var f := rate.from;
    NonEmptyStarts(rate, f);
    assert !Covered(list, f);
    forall i | 0 <= i < |list| && NonEmpty(list[i]) && list[i].from < f ensures !Open(list[i]) && list[i].until <= f {
      assert !ActiveAt(list[i], f);
    }
    var m := LastEnd(list, f, k);
    CoveredStarts(list, m);
    if list[m].until < f {
      NothingAt(list, list[m].until);
      assert false;
    }
    forall i | 0 <= i < |list| && NonEmpty(list[i]) ensures list[i].from < f {
      if list[i].from >= f {
        CoveredStarts(list, i);
        assert false;
      }
    }
  }

  /** Otherwise the version ends where history starts. */
  lemma BesideBefore(list: seq<Rate>, rate: Rate, k: nat)
    requires Tiles(list) && NonEmpty(rate) && Beside(list, rate) && k < |list| && NonEmpty(list[k])
    requires forall i :: 0 <= i < |list| && NonEmpty(list[i]) ==> rate.from <= list[i].from
    ensures !Open(rate) && StartsAt(list, rate.until)
  {
    var m := FirstStart(list, k);
    CoveredStarts(list, m);
    NonEmptyStarts(rate, rate.from);
    var u := rate.until;
    assert !ActiveAt(rate, list[m].from);
    if !Open(rate) && u < list[m].from {
      NothingAt(list, u);
      assert false;
    }
  }

  lemma TilingFits(list: seq<Rate>, rate: Rate)
    requires Tiles(list) && Tiles(Added(list, rate))
    ensures Fits(list, rate)
  {
    if NonEmpty(rate) && !Unused(list) && !OpenUntil(list, rate.from) {
      NothingToClose(list, rate.from);
      TilingIsBeside(list, rate);
      if k :| 0 <= k < |list| && NonEmpty(list[k]) && list[k].from < rate.from {
        BesideAfter(list, rate, k);
      } else {
        var k :| 0 <= k < |list| && NonEmpty(list[k]);
        BesideBefore(list, rate, k);
      }
    }
  }

  /**
   * "History stays gapless and non-overlapping": for any such history and any version whatever, with or without an end
   * of its own, adding it keeps history so exactly when the version fits.
   */
  lemma TilingKeptExactly(list: seq<Rate>, rate: Rate)
    requires Tiles(list)
    ensures Tiles(Added(list, rate)) <==> Fits(list, rate)
  {
    if Fits(list, rate) {
      FittingTiles(list, rate);
    } else if Tiles(Added(list, rate)) {
      TilingFits(list, rate);
    }
  }

  /** The registry's list after these AddRate calls. */
  function AddAll(rates: seq<Rate>): seq<Rate> {
    if rates == [] then [] else Added(AddAll(rates[..|rates| - 1]), rates[|rates| - 1])
  }

  /** History is gapless and non-overlapping after every one of these AddRate calls. */
  ghost predicate AlwaysTiles(rates: seq<Rate>) {
    rates == [] || (AlwaysTiles(rates[..|rates| - 1]) && Tiles(AddAll(rates)))
  }

  /** Every version fitted the history it was added to. */
  predicate AlwaysFits(rates: seq<Rate>) {
    rates == [] ||
    (AlwaysFits(rates[..|rates| - 1]) && Fits(AddAll(rates[..|rates| - 1]), rates[|rates| - 1]))
  }

  /** Over whole runs, from the empty registry and with any versions in any order. */
  lemma {:induction false} TilingOverRunsExactly(rates: seq<Rate>)
    ensures AlwaysTiles(rates) <==> AlwaysFits(rates)
    ensures AlwaysTiles(rates) ==> Tiles(AddAll(rates))
    decreases |rates|
  {
    if rates != [] {
      var init := rates[..|rates| - 1];
      TilingOverRunsExactly(init);
      if AlwaysTiles(init) {
        TilingKeptExactly(AddAll(init), rates[|rates| - 1]);
      }
    }
  }

  // ---------- the three ways to break it ----------

  /**
   * A version that starts before an open one: from the open one's start on, both are in effect, and where history
   * tiled before, the older entry keeps winning.
   */
  lemma OutOfOrderOverlaps(list: seq<Rate>, rate: Rate, i: nat)
    requires i < |list| && Open(list[i]) && Open(rate) && rate.from < list[i].from
    ensures var next := Added(list, rate);
            && ActiveAt(next[i], list[i].from) && ActiveAt(next[|list|], list[i].from) && !Tiles(next)
            && (Tiles(list) ==> RateIn(next, list[i].from) == Found(list[i]))
  {
    var next, t := Added(list, rate), list[i].from;
    assert ActiveAt(next[i], t);
    if Tiles(list) {
      forall j | 0 <= j < |list| && j != i ensures !ActiveAt(list[j], t) {
        assert ActiveAt(list[i], t);
      }
      forall j | 0 <= j < |list| ensures ClosedBy(list[j], rate.from) == list[j] {
        assert j != i ==> !ActiveAt(list[j], t);
      }
      RateInFirst(next, t, i);
    }
  }

  /** A version added at the zero time: the open one it should close stays open beside it. */
  lemma ZeroTimeOverlaps(list: seq<Rate>, rate: Rate, i: nat)
    requires i < |list| && Open(list[i]) && list[i].from <= rate.from == ZERO_TIME && NonEmpty(rate)
    ensures var next := Added(list, rate);
            ActiveAt(next[i], ZERO_TIME) && ActiveAt(next[|list|], ZERO_TIME) && !Tiles(next)
  {
    assert ActiveAt(Added(list, rate)[i], ZERO_TIME);
  }

  /** A version that carries its own end is never closed: one added before that end overlaps it. */
  lemma OwnEndOverlaps(list: seq<Rate>, rate: Rate, i: nat)
    requires i < |list| && !Open(list[i]) && list[i].from <= rate.from < list[i].until && NonEmpty(rate)
    ensures var next := Added(list, rate);
            ActiveAt(next[i], rate.from) && ActiveAt(next[|list|], rate.from) && !Tiles(next)
  {
    assert ActiveAt(Added(list, rate)[i], rate.from);
  }

  /** And one added after it leaves a gap: at the end of history no version is in effect, though before and after one is. */
  lemma OwnEndLeavesGap(list: seq<Rate>, rate: Rate, e: real)
    requires EndsAt(list, e) && e < rate.from && NonEmpty(rate)
    ensures var next := Added(list, rate);
            && RateIn(next, e) == NoPricingInEffect && RateIn(next, rate.from).Found?
            && (exists t :: t < e && RateIn(next, t).Found?) && !Tiles(next)
  {
    var next := Added(list, rate);
    assert AllClosedBy(list, rate.from) == list by {
      forall i | 0 <= i < |list| ensures ClosedBy(list[i], rate.from) == list[i] {
        assert Open(list[i]) ==> NonEmpty(list[i]);
      }
    }
    var i :| 0 <= i < |list| && NonEmpty(list[i]) && list[i].until == e;
    assert next[i] == list[i] && next[|list|] == rate;
    assert ActiveAt(next[i], list[i].from) && ActiveAt(next[|list|], rate.from);
    NothingAt(next, e);
    FoundIffCovered(next, e);
    FoundIffCovered(next, rate.from);
    FoundIffCovered(next, list[i].from);
  }

  lemma {:induction false} FoundIffCovered(list: seq<Rate>, t: real)
    ensures RateIn(list, t).Found? <==> Covered(list, t)
    decreases |list|
  {
    if list != [] {
      FoundIffCovered(list[1..], t);
      if Covered(list[1..], t) {
        var i :| 0 <= i < |list[1..]| && ActiveAt(list[1..][i], t);
        assert ActiveAt(list[i + 1], t);
      }
      if Covered(list, t) && !ActiveAt(list[0], t) {
        var i :| 0 <= i < |list| && ActiveAt(list[i], t);
        assert ActiveAt(list[1..][i - 1], t);
      }
    }
  }

  /** In a tiling the lookup does not depend on the order: whichever version is in effect is the one returned. */
  lemma OnlyVersionWins(list: seq<Rate>, t: real, k: nat)
    requires Tiles(list) && k < |list| && ActiveAt(list[k], t)
    ensures RateIn(list, t) == Found(list[k])
  {
    RateInFirst(list, t, k);
  }

  // ---------- versions added in order ----------

  ghost predicate InOrder(rates: seq<Rate>) {
    && (forall i :: 0 <= i < |rates| ==> Open(rates[i]) && rates[i].from != ZERO_TIME)
    && (forall i, j :: 0 <= i < j < |rates| ==> rates[i].from < rates[j].from)
  }

  /** Version i, ending where the next one starts; the last is open. */
  function LinkedAt(rates: seq<Rate>, i: nat): Rate
    requires i < |rates|
  {
    rates[i].(until := if i + 1 < |rates| then rates[i + 1].from else ZERO_TIME)
  }

  ghost predicate Linked(list: seq<Rate>, rates: seq<Rate>) {
    |list| == |rates| && forall i :: 0 <= i < |rates| ==> list[i] == LinkedAt(rates, i)
  }

  lemma {:induction false} InOrderLinks(rates: seq<Rate>)
    requires InOrder(rates)
    ensures Linked(AddAll(rates), rates) && Tiles(AddAll(rates))
    decreases |rates|
  {
    if rates != [] {
      var n := |rates| - 1;
      var init := rates[..n];
      InOrderLinks(init);
      LinkOneMore(AddAll(init), rates);
      if n > 0 {
        assert OpenUntil(AddAll(init), rates[n].from) by {
          assert Open(AddAll(init)[n - 1]);
        }
      }
      TilingKeptExactly(AddAll(init), rates[n]);
    }
  }

  lemma LinkOneMore(list: seq<Rate>, rates: seq<Rate>)
    requires rates != [] && InOrder(rates) && Linked(list, rates[..|rates| - 1])
    ensures Linked(Added(list, rates[|rates| - 1]), rates)
  {
    var n := |rates| - 1;
    var init, next := rates[..n], Added(list, rates[n]);
    forall i | 0 <= i <= n ensures next[i] == LinkedAt(rates, i) {
      if i < n {
        assert next[i] == ClosedBy(LinkedAt(init, i), rates[n].from);
        assert rates[i].from < rates[n].from && rates[i + 1].from != ZERO_TIME;
      } else {
        assert next[n] == rates[n] && Open(rates[n]);
      }
    }
  }

  /** With open versions added in strictly increasing order, RateAt gives the latest version already started. */
  lemma LatestVersionWins(rates: seq<Rate>, t: real, k: nat)
    requires InOrder(rates) && k < |rates| && rates[k].from <= t && (k + 1 < |rates| ==> t < rates[k + 1].from)
    ensures Tiles(AddAll(rates))
    ensures SamePrice(RateIn(AddAll(rates), t), Found(rates[k]))
  {
    InOrderLinks(rates);
    OnlyVersionWins(AddAll(rates), t, k);
  }

  // ---------- the registry ----------

  class Registry {
    var rates: map<Key, seq<Rate>>

    function ListOf(k: Key): seq<Rate>
      reads this
    {
      if k in rates then rates[k] else []
    }

    constructor ()
      ensures rates == map[]
    {
      rates := map[];
    }

    method AddRate(rate: Rate)
      modifies this
      ensures var k := Key(rate.provider, rate.model);
              rates == old(rates)[k := Added(old(ListOf(k)), rate)]
    {
      var k := Key(rate.provider, rate.model);
      var list := ListOf(k);
      for i := 0 to |list|
        invariant |list| == |old(ListOf(k))|
        invariant forall j :: 0 <= j < i ==> list[j] == ClosedBy(old(ListOf(k))[j], rate.from)
        invariant forall j :: i <= j < |list| ==> list[j] == old(ListOf(k))[j]
      {
        if Open(list[i]) && list[i].from <= rate.from {
          list := list[i := list[i].(until := rate.from)];
        }
      }
      assert list == AllClosedBy(old(ListOf(k)), rate.from);
      rates := rates[k := list + [rate]];
    }

    method RateAt(provider: string, model: string, t: real) returns (l: Lookup)
      ensures l == RateIn(ListOf(Key(provider, model)), t)
    {
      var list := ListOf(Key(provider, model));
      for i := 0 to |list|
        invariant RateIn(list, t) == RateIn(list[i..], t)
      {
        if ActiveAt(list[i], t) {
          return Found(list[i]);
        }
        assert list[i..][1..] == list[i + 1..];
      }
      l := NoPricingInEffect;
    }
  }
}

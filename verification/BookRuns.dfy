/**
 * Sequences of whole calls on the reservation manager: what a hold lives through from its grant on, and what a budget
 * then allows.
 */
module BookRuns {
  import opened Books
  import opened Digits
  import opened Totals

  datatype Call =
    | SetBudget(tenant: string, limit: int)
    | Ask(tenant: string)                     // Exposure
    | Reserve(tenant: string, amount: int, ttl: real, now: real, stamp: string)
    | Close(id: string, how: Closing)         // Release and Reconcile
    | Sweep(now: real)                        // ExpireStale

  predicate Proper(c: Call) {
    && (c.Reserve? ==> c.amount >= 0)
    && (c.Close? ==> !c.how.Expire? && (c.how.Reconcile? ==> c.how.actual >= 0))
  }

  ghost predicate Does(b: Book, c: Call, b': Book) {
    match c
    case SetBudget(t, limit) => b' == Budgeted(b, t, limit)
    case Ask(t) => b' == Opened(b, t)
    case Reserve(t, amount, ttl, now, stamp) => b' == ReserveIn(b, t, amount, ttl, now, stamp)
    case Close(id, how) => b' == CloseIn(b, id, how)
    case Sweep(now) => SweptTo(b, b', now)
  }

  /** The books before each of these calls and after the last. */
  ghost predicate History(bs: seq<Book>, cs: seq<Call>) {
    && |bs| == |cs| + 1
    && forall k :: 0 <= k < |cs| ==> Proper(cs[k]) && Does(bs[k], cs[k], bs[k + 1])
  }

  lemma DoesGrow(b: Book, c: Call, b': Book)
    requires Does(b, c, b')
    ensures b.issued <= b'.issued
  {
  }

  lemma {:induction false} IssuedGrows(bs: seq<Book>, cs: seq<Call>, k: nat)
    requires History(bs, cs) && k <= |cs|
    ensures bs[k].issued <= bs[|cs|].issued
    decreases |cs| - k
  {
    if k < |cs| {
      DoesGrow(bs[k], cs[k], bs[k + 1]);
      IssuedGrows(bs, cs, k + 1);
    }
  }

  lemma DoesKeeps(b: Book, c: Call, b': Book)
    requires BookInv(b) && Proper(c) && Does(b, c, b') && b'.issued < U64
    ensures BookInv(b')
  {
    match c
    case SetBudget(t, limit) => BudgetedKeeps(b, t, limit);
    case Ask(t) => OpenedKeeps(b, t);
    case Reserve(t, amount, ttl, now, stamp) =>
      if Covers(b, t, amount) {
        GrantedKeeps(b, t, amount, ttl, now, stamp);
      } else {
        OpenedKeeps(b, t);
      }
    case Close(id, how) => CloseInKeeps(b, id, how);
    case Sweep(now) => SweptKeeps(b, b', now);
  }

  /** One call leaves a held reservation it does not close alone, unless it is a sweep after its expiry. */
  lemma HoldThrough(b: Book, c: Call, b': Book, id: string)
    requires BookInv(b) && Proper(c) && Does(b, c, b') && b'.issued < U64
    requires id in b.reservations && (c.Close? ==> c.id != id)
    ensures id in b'.reservations
    ensures var r := b.reservations[id];
            b'.reservations[id] == if c.Sweep? && r.state == RESERVED && c.now > r.expiresAt then r.(state := EXPIRED) else r
  {
    match c
    case Reserve(t, amount, ttl, now, stamp) =>
      if Covers(b, t, amount) {
        GrantedKeeps(b, t, amount, ttl, now, stamp);
        FilingLeaves(b, Fresh(Id(stamp, b.issued + 1), t, amount, now, ttl), id);
      }
    case Close(x, how) => ClosingLeaves(b, x, how, id);
    case _ =>
  }

  lemma FilingLeaves(b: Book, r: Reservation, id: string)
    requires id in b.reservations && r.id !in b.reservations
    ensures id in Filing(b, r).reservations && Filing(b, r).reservations[id] == b.reservations[id]
  {
  }

  lemma ClosingLeaves(b: Book, x: string, how: Closing, id: string)
    requires id in b.reservations && x != id
    ensures id in CloseIn(b, x, how).reservations && CloseIn(b, x, how).reservations[id] == b.reservations[id]
  {
  }

  /** Among the first k calls there was a sweep later than `deadline`. */
  ghost predicate SweptAfter(cs: seq<Call>, k: nat, deadline: real)
    requires k <= |cs|
  {
    exists i :: 0 <= i < k && cs[i].Sweep? && cs[i].now > deadline
  }

  lemma {:induction false} HoldOver(bs: seq<Book>, cs: seq<Call>, id: string, k: nat)
    requires History(bs, cs) && k <= |cs| && BookInv(bs[0]) && bs[|cs|].issued < U64
    requires id in bs[0].reservations && bs[0].reservations[id].state == RESERVED
    requires forall i :: 0 <= i < |cs| && cs[i].Close? ==> cs[i].id != id
    ensures BookInv(bs[k]) && id in bs[k].reservations
    ensures var r := bs[0].reservations[id];
            bs[k].reservations[id] == r.(state := if SweptAfter(cs, k, r.expiresAt) then EXPIRED else RESERVED)
  {
    if k > 0 {
      HoldOver(bs, cs, id, k - 1);
      IssuedGrows(bs, cs, k);
      DoesKeeps(bs[k - 1], cs[k - 1], bs[k]);
      HoldThrough(bs[k - 1], cs[k - 1], bs[k], id);
      var e := bs[0].reservations[id].expiresAt;
      assert SweptAfter(cs, k, e) <==> SweptAfter(cs, k - 1, e) || (cs[k - 1].Sweep? && cs[k - 1].now > e);
    }
  }

  /**
   * A hold granted at `at` for `ttl`, through any whole calls that do not close it: it is EXPIRED exactly when a sweep
   * has run later than at + ttl, and RESERVED until then, its other terms unchanged.
   */
  lemma HoldExpiresExactly(b: Book, t: string, amount: int, ttl: real, at: real, stamp: string, bs: seq<Book>, cs: seq<Call>)
    requires BookInv(b) && amount >= 0 && History(bs, cs) && bs[|cs|].issued < U64
    requires BalanceOf(b, t).limit - BalanceOf(b, t).reserved - BalanceOf(b, t).settled >= amount
    requires bs[0] == ReserveIn(b, t, amount, ttl, at, stamp)
    requires forall i :: 0 <= i < |cs| && cs[i].Close? ==> cs[i].id != Id(stamp, b.issued + 1)
    ensures var id, end := Id(stamp, b.issued + 1), bs[|cs|].reservations;
            && id in end && end[id].tenant == t && end[id].amount == amount && end[id].createdAt == at
            && end[id].state == if exists i :: 0 <= i < |cs| && cs[i].Sweep? && cs[i].now > at + ttl then EXPIRED else RESERVED
  {
    IssuedGrows(bs, cs, 0);
    GrantedKeeps(b, t, amount, ttl, at, stamp);
    HoldOver(bs, cs, Id(stamp, b.issued + 1), |cs|);
  }

  /** After SetBudget the next Reserve is granted exactly when the new limit covers it on top of all that is held and spent. */
  lemma BudgetThenReserve(b: Book, t: string, limit: int, amount: int, ttl: real, now: real, stamp: string)
    requires BookInv(b) && amount >= 0 && b.issued + 1 < U64
    ensures var b' := ReserveIn(Budgeted(b, t, limit), t, amount, ttl, now, stamp);
            && (Id(stamp, b.issued + 1) in b'.reservations
                <==> Total(b.reservations, HeldBy(t)) + Total(b.reservations, SettledBy(t)) + amount <= limit)
            && BalanceOf(b', t).limit == limit && forall u :: u != t ==> BalanceOf(b', u) == BalanceOf(b, u)
  {
    BudgetedKeeps(b, t, limit);
    assert BalanceKept(b, t);
    NextIsNew(stamp, b.issued);
    var id := Id(stamp, b.issued + 1);
    forall x | x in b.reservations ensures x != id {
      assert Filed(b, x);
    }
    BudgetedReserves(b, t, limit, Fresh(id, t, amount, now, ttl));
  }

  lemma BudgetedReserves(b: Book, t: string, limit: int, r: Reservation)
    requires r.tenant == t
    ensures var b1 := Budgeted(b, t, limit);
            && BalanceOf(b1, t) == BalanceOf(b, t).(limit := limit)
            && BalanceOf(Filing(b1, r), t).limit == limit && BalanceOf(Opened(b1, t), t).limit == limit
            && forall u :: u != t ==> BalanceOf(Filing(b1, r), u) == BalanceOf(b, u) && BalanceOf(Opened(b1, t), u) == BalanceOf(b, u)
  {
  }

  /** Release is safe to retry: it never fails on a known id, frees a RESERVED amount once, and touches nothing closed. */
  lemma ReleaseExactly(b: Book, id: string)
    requires id in b.reservations && b.reservations[id].tenant in b.accounts
    ensures var r, b' := b.reservations[id], CloseIn(b, id, Release);
            && ReplyIn(b, id, Release) == Done && CloseIn(b', id, Release) == b'
            && (r.state != RESERVED ==> b' == b)
            && (r.state == RESERVED ==>
                  && b'.reservations == b.reservations[id := r.(state := RELEASED)]
                  && BalanceOf(b', r.tenant) == BalanceOf(b, r.tenant).(reserved := BalanceOf(b, r.tenant).reserved - r.amount))
  {
    var r := b.reservations[id];
    var b' := CloseIn(b, id, Release);
    if r.state != RESERVED {
      assert b'.accounts == b.accounts && b'.reservations == b.reservations;
    }
    assert CloseIn(b', id, Release).accounts == b'.accounts;
    assert CloseIn(b', id, Release).reservations == b'.reservations;
  }
}

/**
 * The reservation manager's data and the effect of each of its critical sections
 * (internal/reservation/reservation.go), as values. The class in Managers.dfy and the
 * interleaving machine in Interleaving.dfy both run on these functions.
 */
module Books {
  import opened Digits
  import opened Totals

  datatype Account = Account(limit: int, reserved: int, settled: int)

  function Available(a: Account): int {
    a.limit - a.reserved - a.settled
  }

  const EMPTY_ACCOUNT := Account(0, 0, 0)

  datatype State = RESERVED | RECONCILED | RELEASED | EXPIRED

  datatype Reservation = Reservation(
    id: string, tenant: string, amount: int, state: State,
    createdAt: real, expiresAt: real, actual: int, reconciled: bool)

  datatype ReconcileResult = ReconcileResult(reserved: int, actual: int, released: int, overage: int)

  /** What one reconciliation gave back or overran: never both, and they net to the difference. */
  function ComputeReconcileResult(reserved: int, actual: int): (r: ReconcileResult)
    ensures r.released - r.overage == r.reserved - r.actual == reserved - actual
    ensures r.released >= 0 && r.overage >= 0 && (r.released == 0 || r.overage == 0)
  {
    if actual < reserved then ReconcileResult(reserved, actual, reserved - actual, 0)
    else if actual > reserved then ReconcileResult(reserved, actual, 0, actual - reserved)
    else ReconcileResult(reserved, actual, 0, 0)
  }

  /** The three ways a RESERVED amount can leave an account. */
  datatype Closing = Release | Reconcile(actual: int) | Expire

  datatype Reply = Done | Settled(result: ReconcileResult) | NotFound | TerminalState

  datatype Closed = Closed(account: Account, reservation: Reservation, reply: Reply)

  /** The section under the account lock in Release, Reconcile and one round of ExpireStale's second loop. */
  function Close(a: Account, r: Reservation, how: Closing): Closed {
    match how
    case Release =>
      if r.state != RESERVED then Closed(a, r, Done)
      else Closed(a.(reserved := a.reserved - r.amount), r.(state := RELEASED), Done)
    case Expire =>
      if r.state != RESERVED then Closed(a, r, Done)
      else Closed(a.(reserved := a.reserved - r.amount), r.(state := EXPIRED), Done)
    case Reconcile(actual) =>
      if r.reconciled then Closed(a, r, Settled(ComputeReconcileResult(r.amount, r.actual)))
      else if r.state != RESERVED then Closed(a, r, TerminalState)
      else
        Closed(a.(reserved := a.reserved - r.amount, settled := a.settled + actual),
               r.(state := RECONCILED, actual := actual, reconciled := true),
               Settled(ComputeReconcileResult(r.amount, actual)))
  }

  /** The reservation object Reserve builds once its amount is committed. */
  function Fresh(id: string, tenant: string, amount: int, now: real, ttl: real): Reservation {
    Reservation(id, tenant, amount, RESERVED, now, now + ttl, 0, false)
  }

  // Weights of one reservation in tenant t's books.

  function HeldBy(t: string): Reservation -> int {
    (r: Reservation) => if r.tenant == t && r.state == RESERVED then r.amount else 0
  }

  function SettledBy(t: string): Reservation -> int {
    (r: Reservation) => if r.tenant == t && r.state == RECONCILED then r.actual else 0
  }

  function OverageBy(t: string): Reservation -> int {
    (r: Reservation) =>
      if r.tenant == t && r.state == RECONCILED && r.actual > r.amount then r.actual - r.amount else 0
  }

  /** A reservation filed under its id, with non-negative amounts and its two status fields in step. */
  predicate WellFormed(id: string, r: Reservation) {
    && r.id == id
    && r.amount >= 0 && r.actual >= 0
    && (r.reconciled <==> r.state == RECONCILED)
  }

  // ---------- the manager as one value, one whole call at a time ----------

  datatype Book = Book(accounts: map<string, Account>, reservations: map<string, Reservation>, issued: nat)

  function BalanceOf(b: Book, t: string): Account {
    if t in b.accounts then b.accounts[t] else EMPTY_ACCOUNT
  }

  /** getAccount: the tenant's account exists afterwards, empty if it is new. */
  function Opened(b: Book, t: string): Book {
    if t in b.accounts then b else b.(accounts := b.accounts[t := EMPTY_ACCOUNT])
  }

  function Budgeted(b: Book, t: string, limit: int): Book {
    b.(accounts := b.accounts[t := BalanceOf(b, t).(limit := limit)])
  }

  predicate Covers(b: Book, t: string, amount: int) {
    var a := BalanceOf(b, t);
    a.limit - a.reserved - a.settled >= amount
  }

  /** Reserve, when the account covers the amount. */
  function Granted(b: Book, t: string, amount: int, ttl: real, now: real, stamp: string): Book {
    Filing(b, Fresh(Id(stamp, b.issued + 1), t, amount, now, ttl))
  }

  function Filing(b: Book, r: Reservation): Book {
    var a := BalanceOf(b, r.tenant);
    Book(b.accounts[r.tenant := a.(reserved := a.reserved + r.amount)], b.reservations[r.id := r], b.issued + 1)
  }

  function ReserveIn(b: Book, t: string, amount: int, ttl: real, now: real, stamp: string): Book {
    if Covers(b, t, amount) then Granted(b, t, amount, ttl, now, stamp) else Opened(b, t)
  }

  /** Release and Reconcile. */
  function CloseIn(b: Book, id: string, how: Closing): Book {
    if id !in b.reservations then b
    else
      var r := b.reservations[id];
      var c := Close(BalanceOf(b, r.tenant), r, how);
      b.(accounts := b.accounts[r.tenant := c.account], reservations := b.reservations[id := c.reservation])
  }

  function ReplyIn(b: Book, id: string, how: Closing): Reply {
    if id !in b.reservations then NotFound
    else Close(BalanceOf(b, b.reservations[id].tenant), b.reservations[id], how).reply
  }

  predicate IsStale(r: Reservation, now: real) {
    r.state == RESERVED && r.expiresAt < now
  }

  function Swept(m: map<string, Reservation>, now: real): map<string, Reservation> {
    map id | id in m :: if IsStale(m[id], now) then m[id].(state := EXPIRED) else m[id]
  }

  /** What ExpireStale leaves of tenant t's account: `reserved` falls by exactly what stopped being RESERVED. */
  ghost function SweptBalance(b: Book, now: real, t: string): Account {
    var a := BalanceOf(b, t);
    a.(reserved := a.reserved - (Total(b.reservations, HeldBy(t)) - Total(Swept(b.reservations, now), HeldBy(t))))
  }

  /** ExpireStale, run alone. */
  ghost predicate SweptTo(b: Book, b': Book, now: real) {
    && b'.reservations == Swept(b.reservations, now)
    && b'.issued == b.issued
    && forall t :: BalanceOf(b', t) == SweptBalance(b, now, t)
  }

  // ---------- what every whole call keeps ----------

  ghost predicate Filed(b: Book, id: string)
    requires id in b.reservations
  {
    WellFormed(id, b.reservations[id]) && Drawn(id, b.issued)
  }

  ghost predicate BalanceKept(b: Book, t: string) {
    && BalanceOf(b, t).reserved == Total(b.reservations, HeldBy(t))
    && BalanceOf(b, t).settled == Total(b.reservations, SettledBy(t))
  }

  ghost predicate BookInv(b: Book) {
    && (forall id :: id in b.reservations ==> Filed(b, id))
    && (forall t :: BalanceKept(b, t))
  }

  lemma AccountsOnly(b: Book, b': Book)
    requires BookInv(b) && b'.reservations == b.reservations && b'.issued == b.issued
    requires forall t :: BalanceOf(b', t).reserved == BalanceOf(b, t).reserved
                      && BalanceOf(b', t).settled == BalanceOf(b, t).settled
    ensures BookInv(b')
  {
    forall id | id in b'.reservations ensures Filed(b', id) {
      assert Filed(b, id);
    }
    forall t ensures BalanceKept(b', t) {
      assert BalanceKept(b, t);
    }
  }

  lemma OpenedKeeps(b: Book, t: string)
    requires BookInv(b)
    ensures BookInv(Opened(b, t)) && forall u :: BalanceOf(Opened(b, t), u) == BalanceOf(b, u)
  {
    AccountsOnly(b, Opened(b, t));
  }

  lemma BudgetedKeeps(b: Book, t: string, limit: int)
    requires BookInv(b)
    ensures BookInv(Budgeted(b, t, limit))
  {
    AccountsOnly(b, Budgeted(b, t, limit));
  }

  /** Reserve adds one RESERVED reservation, under an id that was not in use, and its amount to `reserved`. */
  lemma GrantedKeeps(b: Book, t: string, amount: int, ttl: real, now: real, stamp: string)
    requires BookInv(b) && amount >= 0 && b.issued + 1 < U64
    ensures Id(stamp, b.issued + 1) !in b.reservations
    ensures BookInv(Granted(b, t, amount, ttl, now, stamp))
  {
    NextIsNew(stamp, b.issued);
    FilingKeeps(b, Fresh(Id(stamp, b.issued + 1), t, amount, now, ttl));
  }

  lemma FilingKeeps(b: Book, r: Reservation)
    requires BookInv(b) && WellFormed(r.id, r) && r.state == RESERVED
    requires !Drawn(r.id, b.issued) && Drawn(r.id, b.issued + 1)
    ensures r.id !in b.reservations && BookInv(Filing(b, r))
  {
    assert r.id in b.reservations ==> Filed(b, r.id);
    var b' := Filing(b, r);
    forall id | id in b'.reservations ensures Filed(b', id) {
      if id != r.id {
        assert Filed(b, id);
        DrawnGrows(id, b.issued, b.issued + 1);
      }
    }
    forall t ensures BalanceKept(b', t) {
      assert BalanceKept(b, t);
      Put(b.reservations, r.id, r, HeldBy(t));
      Put(b.reservations, r.id, r, SettledBy(t));
      assert t != r.tenant ==> BalanceOf(b', t) == BalanceOf(b, t);
    }
  }

  lemma CloseInKeeps(b: Book, id: string, how: Closing)
    requires BookInv(b) && (how.Reconcile? ==> how.actual >= 0)
    ensures BookInv(CloseIn(b, id, how))
  {
    if id in b.reservations {
      var r := b.reservations[id];
      var c := Close(BalanceOf(b, r.tenant), r, how);
      assert Filed(b, id);
      Refiled(b, id, c);
    }
  }

  lemma Refiled(b: Book, id: string, c: Closed)
    requires BookInv(b) && id in b.reservations
    requires var r := b.reservations[id];
             && WellFormed(id, c.reservation) && c.reservation.tenant == r.tenant
             && c.account.reserved == BalanceOf(b, r.tenant).reserved - HeldBy(r.tenant)(r) + HeldBy(r.tenant)(c.reservation)
             && c.account.settled == BalanceOf(b, r.tenant).settled - SettledBy(r.tenant)(r) + SettledBy(r.tenant)(c.reservation)
    ensures BookInv(b.(accounts := b.accounts[b.reservations[id].tenant := c.account],
                       reservations := b.reservations[id := c.reservation]))
  {
    var r := b.reservations[id];
    var b' := b.(accounts := b.accounts[r.tenant := c.account], reservations := b.reservations[id := c.reservation]);
    assert Filed(b, id);
    forall i | i in b'.reservations ensures Filed(b', i) {
      assert Filed(b, i);
    }
    forall t ensures BalanceKept(b', t) {
      assert BalanceKept(b, t);
      Put(b.reservations, id, c.reservation, HeldBy(t));
      Put(b.reservations, id, c.reservation, SettledBy(t));
      assert t != r.tenant ==> BalanceOf(b', t) == BalanceOf(b, t);
    }
  }

  lemma SweptKeeps(b: Book, b': Book, now: real)
    requires BookInv(b) && SweptTo(b, b', now)
    ensures BookInv(b')
  {
    forall id | id in b'.reservations ensures Filed(b', id) {
      assert Filed(b, id);
    }
    forall t ensures BalanceKept(b', t) {
      assert BalanceKept(b, t);
      assert BalanceOf(b', t) == SweptBalance(b, now, t);
      SweptSameSettled(b.reservations, now, t);
    }
  }

  lemma SweptSameSettled(m: map<string, Reservation>, now: real, t: string)
    ensures Total(Swept(m, now), SettledBy(t)) == Total(m, SettledBy(t))
  {
    Bridge(Swept(m, now), m, SettledBy(t), SettledBy(t));
  }
}

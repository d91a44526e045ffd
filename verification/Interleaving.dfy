/**
 * Every interleaving of the reservation manager's operations by any number of threads
 * (internal/reservation/reservation.go). One step is one critical section; a thread's
 * program counter holds the locals it carries from one section to the next, including the
 * account pointer that getAccount handed out.
 */
module Interleaving {
  import opened Books
  import opened Digits
  import opened Totals

  datatype Target = Target(id: string, tenant: string)

  /** What a thread will do once getAccount has given it an account pointer. */
  datatype Job =
    | ReserveJob(tenant: string, amount: int, ttl: real)
    | ExposureJob(tenant: string)
    | CloseJob(target: Target, how: Closing)
    | SweepJob(targets: seq<Target>, at: real) // ExpireStale: its stale snapshot, taken at time `at`
  {
    function Tenant(): string {
      match this
      case ReserveJob(t, _, _) => t
      case ExposureJob(t) => t
      case CloseJob(target, _) => target.tenant
      case SweepJob(targets, _) => if targets == [] then "" else targets[0].tenant
    }
  }

  datatype Pc =
    | Idle
    | Finding(id: string, how: Closing)         // Release/Reconcile, before reading the reservation map
    | Scanning                                  // ExpireStale, before its snapshot
    | Looking(job: Job)                         // getAccount, before the read-locked lookup
    | Creating(job: Job)                        // getAccount, after a miss, before the write-locked retry
    | Committing(job: Job, account: nat)        // before the section under the account lock
    | Stamping(tenant: string, amount: int, ttl: real) // Reserve: granted, id not drawn yet
    | Inserting(r: Reservation)                 // Reserve: granted, not yet in the map

  datatype World = World(
    accounts: map<string, nat>,                 // m.accounts: tenant to account pointer
    cells: seq<Account>,                        // the accounts those pointers point to
    reservations: map<string, Reservation>,
    issued: nat,                                // ids drawn so far; the 64-bit counter is this mod 2^64
    threads: map<nat, Pc>,
    peak: map<string, int>)                     // history only: the greatest limit a tenant was ever given

  datatype Step =
    | Begin(tid: nat, pc: Pc)
    | SetBudget(tenant: string, limit: int)
    | Act(tid: nat, now: real, stamp: string, order: seq<Target>)

  const INITIAL := World(map[], [], map[], 0, map[], map[])

  /** Where a call starts. Amounts and costs are non-negative, as the gateway's are. */
  predicate Entry(pc: Pc) {
    match pc
    case Finding(_, how) => how == Release || (how.Reconcile? && how.actual >= 0)
    case Scanning => true
    case Looking(job) => job.ExposureJob? || (job.ReserveJob? && job.amount >= 0)
    case _ => false
  }

  /** A filed reservation past its expiry, whatever has become of it. */
  predicate Overdue(s: World, x: Target, now: real) {
    && x.id in s.reservations
    && var r := s.reservations[x.id];
       r.tenant == x.tenant && r.expiresAt < now
  }

  predicate Stale(s: World, x: Target, now: real) {
    Overdue(s, x, now) && s.reservations[x.id].state == RESERVED
  }

  /**
   * What ExpireStale's scan may collect. Its reads of the states are not under the account locks, so others may
   * close reservations while it goes over the map: at its end it has every stale one, and perhaps overdue ones
   * that were still RESERVED when it passed them.
   */
  ghost predicate Collects(s: World, order: seq<Target>, now: real) {
    && (forall x :: x in order ==> Overdue(s, x, now))
    && (forall x :: Stale(s, x, now) ==> x in order)
  }

  ghost predicate Enabled(s: World, step: Step) {
    match step
    case Begin(tid, pc) => (tid in s.threads ==> s.threads[tid] == Idle) && Entry(pc)
    case SetBudget(_, _) => true
    case Act(tid, now, _, order) =>
      && tid in s.threads
      && s.threads[tid] != Idle
      && (s.threads[tid] == Scanning ==> Collects(s, order, now))
  }

  function Alloc(s: World, tenant: string): World {
    if tenant in s.accounts then s
    else s.(accounts := s.accounts[tenant := |s.cells|], cells := s.cells + [EMPTY_ACCOUNT])
  }

  function Goto(s: World, tid: nat, pc: Pc): World {
    s.(threads := s.threads[tid := pc])
  }

  function SweepFrom(targets: seq<Target>, at: real): Pc {
    if targets == [] then Idle else Looking(SweepJob(targets, at))
  }

  /** SetBudget holds the manager lock and then the account lock, so it is one step. */
  function Budget(s: World, tenant: string, limit: int): World {
    var s' := Alloc(s, tenant);
    if s'.accounts[tenant] >= |s'.cells| then s'
    else
      var a := s'.accounts[tenant];
      s'.(cells := s'.cells[a := s'.cells[a].(limit := limit)],
          peak := s'.peak[tenant := if limit > Peak(s, tenant) then limit else Peak(s, tenant)])
  }

  /** The greatest limit the tenant was ever given; an account starts at limit 0. */
  function Peak(s: World, t: string): int {
    if t in s.peak then s.peak[t] else 0
  }

  /** The section of Release, Reconcile or ExpireStale under the account lock. */
  function CloseAt(s: World, a: nat, id: string, how: Closing): World
    requires a < |s.cells| && id in s.reservations
  {
    var c := Close(s.cells[a], s.reservations[id], how);
    s.(cells := s.cells[a := c.account], reservations := s.reservations[id := c.reservation])
  }

  function Commit(s: World, tid: nat, job: Job, a: nat): World {
    if a >= |s.cells| then s // a pointer getAccount never gave out
    else match job
    case ReserveJob(t, amount, ttl) =>
      if Available(s.cells[a]) < amount then Goto(s, tid, Idle)
      else
        var held := s.cells[a].(reserved := s.cells[a].reserved + amount);
        Goto(s.(cells := s.cells[a := held]), tid, Stamping(t, amount, ttl))
    case ExposureJob(_) => Goto(s, tid, Idle)
    case CloseJob(x, how) =>
      if x.id !in s.reservations then Goto(s, tid, Idle)
      else Goto(CloseAt(s, a, x.id, how), tid, Idle)
    case SweepJob(targets, at) =>
      if targets == [] || targets[0].id !in s.reservations then Goto(s, tid, Idle)
      else Goto(CloseAt(s, a, targets[0].id, Expire), tid, SweepFrom(targets[1..], at))
  }

  /** nextID and the reservation object built around it. */
  function Stamp(s: World, tid: nat, r: Reservation): World {
    Goto(s.(issued := s.issued + 1), tid, Inserting(r))
  }

  function Insert(s: World, tid: nat, r: Reservation): World {
    Goto(s.(reservations := s.reservations[r.id := r]), tid, Idle)
  }

  function Apply(s: World, step: Step): World
    requires Enabled(s, step)
  {
    match step
    case Begin(tid, pc) => Goto(s, tid, pc)
    case SetBudget(t, limit) => Budget(s, t, limit)
    case Act(tid, now, stamp, order) =>
      match s.threads[tid]
      case Finding(id, how) =>
        if id !in s.reservations then Goto(s, tid, Idle)
        else Goto(s, tid, Looking(CloseJob(Target(id, s.reservations[id].tenant), how)))
      case Scanning => Goto(s, tid, SweepFrom(order, now))
      case Looking(job) =>
        if job.Tenant() in s.accounts then Goto(s, tid, Committing(job, s.accounts[job.Tenant()]))
        else Goto(s, tid, Creating(job))
      case Creating(job) =>
        var s' := Alloc(s, job.Tenant());
        Goto(s', tid, Committing(job, s'.accounts[job.Tenant()]))
      case Committing(job, a) => Commit(s, tid, job, a)
      case Stamping(t, amount, ttl) => Stamp(s, tid, Fresh(Id(stamp, s.issued + 1), t, amount, now, ttl))
      case Inserting(r) => Insert(s, tid, r)
      case Idle => s
  }

  ghost predicate Feasible(s: World, steps: seq<Step>)
    decreases |steps|
  {
    steps == [] || (Enabled(s, steps[0]) && Feasible(Apply(s, steps[0]), steps[1..]))
  }

  ghost function Run(s: World, steps: seq<Step>): World
    requires Feasible(s, steps)
    decreases |steps|
  {
    if steps == [] then s else Run(Apply(s, steps[0]), steps[1..])
  }

  // ---------- the invariant ----------

  function AccountOf(s: World, t: string): Account {
    if t in s.accounts && s.accounts[t] < |s.cells| then s.cells[s.accounts[t]] else EMPTY_ACCOUNT
  }

  /** Granted to tenant t but not yet in the reservation map. */
  function PendingBy(t: string): Pc -> int {
    (pc: Pc) =>
      match pc
      case Stamping(t', amount, _) => if t' == t then amount else 0
      case Inserting(r) => if r.tenant == t then r.amount else 0
      case _ => 0
  }

  ghost predicate PointersOk(s: World) {
    && (forall t :: t in s.accounts ==> s.accounts[t] < |s.cells|)
    && (forall t, t' :: t in s.accounts && t' in s.accounts && s.accounts[t] == s.accounts[t'] ==> t == t')
  }

  ghost predicate TargetOk(s: World, x: Target) {
    x.id in s.reservations && s.reservations[x.id].tenant == x.tenant
  }

  ghost predicate JobOk(s: World, job: Job) {
    match job
    case ReserveJob(_, amount, _) => amount >= 0
    case ExposureJob(_) => true
    case CloseJob(x, how) => TargetOk(s, x) && (how.Reconcile? ==> how.actual >= 0)
    case SweepJob(targets, at) => targets != [] && forall x :: x in targets ==> Overdue(s, x, at)
  }

  ghost predicate PcOk(s: World, pc: Pc) {
    match pc
    case Finding(_, how) => how.Reconcile? ==> how.actual >= 0
    case Looking(job) => JobOk(s, job)
    case Creating(job) => JobOk(s, job)
    case Committing(job, a) => JobOk(s, job) && job.Tenant() in s.accounts && s.accounts[job.Tenant()] == a
    case Stamping(t, amount, _) => t in s.accounts && amount >= 0
    case Inserting(r) =>
      && WellFormed(r.id, r) && r.state == RESERVED && r.tenant in s.accounts
      && r.id !in s.reservations && Drawn(r.id, s.issued)
    case _ => true
  }

  ghost predicate ThreadsOk(s: World) {
    && (forall i :: i in s.threads ==> PcOk(s, s.threads[i]))
    && (forall i, j | i in s.threads && j in s.threads && s.threads[i].Inserting? && s.threads[j].Inserting? ::
          s.threads[i].r.id == s.threads[j].r.id ==> i == j)
  }

  ghost predicate FiledOk(s: World, id: string)
    requires id in s.reservations
  {
    && WellFormed(id, s.reservations[id])
    && s.reservations[id].tenant in s.accounts
    && Drawn(id, s.issued)
  }

  ghost predicate ReservationsOk(s: World) {
    forall id :: id in s.reservations ==> FiledOk(s, id)
  }

  /** Tenant t's two running totals are exactly what the reservations say. */
  ghost predicate Conserved(s: World, t: string) {
    && AccountOf(s, t).reserved == Total(s.reservations, HeldBy(t)) + Total(s.threads, PendingBy(t))
    && AccountOf(s, t).settled == Total(s.reservations, SettledBy(t))
  }

  /** Commitments never pass the greatest limit ever set by more than the recorded overage. */
  ghost predicate Capped(s: World, t: string) {
    && AccountOf(s, t).limit <= Peak(s, t)
    && AccountOf(s, t).reserved + AccountOf(s, t).settled <= Peak(s, t) + Total(s.reservations, OverageBy(t))
  }

  /** The non-monetary part: pointers, program counters and filed reservations. */
  ghost predicate Shape(s: World) {
    PointersOk(s) && ThreadsOk(s) && ReservationsOk(s)
  }

  ghost predicate Money(s: World, t: string) {
    Conserved(s, t) && Capped(s, t)
  }

  ghost predicate Inv(s: World) {
    Shape(s) && forall t :: Money(s, t)
  }

  // ---------- every step keeps the shape ----------

  /** Accounts are never replaced, and a filed reservation keeps its tenant, amount and expiry. */
  ghost predicate Extends(s: World, s': World) {
    && (forall t :: t in s.accounts ==> t in s'.accounts && s'.accounts[t] == s.accounts[t])
    && (forall id :: id in s.reservations ==> id in s'.reservations && SameTerms(s.reservations[id], s'.reservations[id]))
    && s.issued <= s'.issued
  }

  predicate SameTerms(r: Reservation, r': Reservation) {
    r'.id == r.id && r'.tenant == r.tenant && r'.amount == r.amount && r'.expiresAt == r.expiresAt
  }

  lemma PcOkExtends(s: World, s': World, pc: Pc)
    requires Extends(s, s') && PcOk(s, pc)
    requires pc.Inserting? ==> pc.r.id !in s'.reservations
    ensures PcOk(s', pc)
  {
    match pc
    case Looking(job) => JobOkExtends(s, s', job);
    case Creating(job) => JobOkExtends(s, s', job);
    case Committing(job, _) => JobOkExtends(s, s', job);
    case Inserting(r) => DrawnGrows(r.id, s.issued, s'.issued);
    case _ =>
  }

  lemma JobOkExtends(s: World, s': World, job: Job)
    requires Extends(s, s') && JobOk(s, job)
    ensures JobOk(s', job)
  {
    if job.SweepJob? {
      forall x | x in job.targets ensures Overdue(s', x, job.at) {
        assert Overdue(s, x, job.at);
      }
    }
  }

  /** Moving one thread, after the rest of the world has only grown. */
  lemma ThreadsOkAfter(s: World, s': World, tid: nat, pc: Pc)
    requires ThreadsOk(s) && Extends(s, s') && s'.threads == s.threads[tid := pc]
    requires PcOk(s', pc)
    requires forall i :: i in s.threads && i != tid && s.threads[i].Inserting? ==>
               s.threads[i].r.id !in s'.reservations && (pc.Inserting? ==> s.threads[i].r.id != pc.r.id)
    ensures ThreadsOk(s')
  {
    forall i | i in s'.threads ensures PcOk(s', s'.threads[i]) {
      if i != tid {
        PcOkExtends(s, s', s.threads[i]);
      }
    }
  }

  lemma MoveKeepsShape(s: World, tid: nat, pc: Pc)
    requires Shape(s) && PcOk(s, pc) && !pc.Inserting?
    ensures Shape(Goto(s, tid, pc))
  {
    var s' := Goto(s, tid, pc);
    PcOkExtendsGoto(s, tid, pc, pc);
    forall i | i in s.threads && s.threads[i].Inserting? ensures s.threads[i].r.id !in s'.reservations {
      assert PcOk(s, s.threads[i]);
    }
    ThreadsOkAfter(s, s', tid, pc);
    forall id | id in s'.reservations ensures FiledOk(s', id) {
      assert FiledOk(s, id);
    }
  }

  lemma PcOkExtendsGoto(s: World, tid: nat, pc': Pc, pc: Pc)
    requires PcOk(s, pc)
    ensures Extends(s, Goto(s, tid, pc')) && PcOk(Goto(s, tid, pc'), pc)
  {
    PcOkExtends(s, Goto(s, tid, pc'), pc);
  }

  lemma AllocKeepsShape(s: World, tenant: string)
    requires Shape(s)
    ensures Shape(Alloc(s, tenant)) && Extends(s, Alloc(s, tenant))
    ensures tenant in Alloc(s, tenant).accounts
  {
    if tenant !in s.accounts {
      var s' := Alloc(s, tenant);
      FreshPointerOk(s, tenant);
      forall i | i in s'.threads ensures PcOk(s', s'.threads[i]) {
        assert PcOk(s, s.threads[i]);
        PcOkExtends(s, s', s.threads[i]);
      }
      forall id | id in s'.reservations ensures FiledOk(s', id) {
        assert FiledOk(s, id);
      }
    }
  }

  lemma FreshPointerOk(s: World, tenant: string)
    requires PointersOk(s) && tenant !in s.accounts
    ensures PointersOk(Alloc(s, tenant)) && Extends(s, Alloc(s, tenant))
  {
  }

  /** Writing one account cell, and history, does not touch the shape. */
  lemma CellWriteKeepsShape(s: World, a: nat, v: Account, peak: map<string, int>)
    requires Shape(s) && a < |s.cells|
    ensures Shape(s.(cells := s.cells[a := v], peak := peak))
    ensures Extends(s, s.(cells := s.cells[a := v], peak := peak))
  {
    var s' := s.(cells := s.cells[a := v], peak := peak);
    forall i | i in s'.threads ensures PcOk(s', s'.threads[i]) {
      assert PcOk(s, s.threads[i]);
      PcOkExtends(s, s', s.threads[i]);
    }
    forall id | id in s'.reservations ensures FiledOk(s', id) {
      assert FiledOk(s, id);
    }
  }

  lemma CloseKeepsShape(s: World, x: Target, how: Closing)
    requires Shape(s) && TargetOk(s, x) && (how.Reconcile? ==> how.actual >= 0)
    ensures x.tenant in s.accounts && s.accounts[x.tenant] < |s.cells|
    ensures Shape(CloseAt(s, s.accounts[x.tenant], x.id, how))
    ensures Extends(s, CloseAt(s, s.accounts[x.tenant], x.id, how))
  {
    assert FiledOk(s, x.id);
    var a := s.accounts[x.tenant];
    var c := Close(s.cells[a], s.reservations[x.id], how);
    CellWriteKeepsShape(s, a, c.account, s.peak);
    RefileKeepsShape(s.(cells := s.cells[a := c.account]), x.id, c.reservation);
  }

  /** Rewriting one record without touching its terms. */
  lemma RefileKeepsShape(s: World, id: string, r: Reservation)
    requires Shape(s) && id in s.reservations && SameTerms(s.reservations[id], r) && WellFormed(id, r)
    ensures Shape(s.(reservations := s.reservations[id := r]))
    ensures Extends(s, s.(reservations := s.reservations[id := r]))
  {
    var s' := s.(reservations := s.reservations[id := r]);
    forall i | i in s'.threads ensures PcOk(s', s'.threads[i]) {
      assert PcOk(s, s.threads[i]);
      PcOkExtends(s, s', s.threads[i]);
    }
    assert FiledOk(s, id);
    forall id' | id' in s'.reservations ensures FiledOk(s', id') {
      assert FiledOk(s, id');
    }
  }

  lemma StampKeepsShape(s: World, tid: nat, r: Reservation)
    requires Shape(s) && tid in s.threads && s.threads[tid].Stamping?
    requires WellFormed(r.id, r) && r.state == RESERVED && r.tenant == s.threads[tid].tenant
    requires !Drawn(r.id, s.issued) && Drawn(r.id, s.issued + 1)
    ensures Shape(Stamp(s, tid, r))
    ensures Extends(s, Stamp(s, tid, r))
  {
    var s' := Stamp(s, tid, r);
    assert PcOk(s, s.threads[tid]);
    assert r.id !in s.reservations by {
      assert r.id in s.reservations ==> FiledOk(s, r.id);
    }
    forall i | i in s.threads && i != tid && s.threads[i].Inserting?
      ensures s.threads[i].r.id !in s'.reservations && s.threads[i].r.id != r.id
    {
      assert PcOk(s, s.threads[i]);
    }
    ThreadsOkAfter(s, s', tid, Inserting(r));
    forall id | id in s'.reservations ensures FiledOk(s', id) {
      assert FiledOk(s, id);
      DrawnGrows(id, s.issued, s'.issued);
    }
  }

  /** The id is new, so the insert overwrites nothing. */
  lemma InsertKeepsShape(s: World, tid: nat, r: Reservation)
    requires Shape(s) && tid in s.threads && s.threads[tid] == Inserting(r)
    ensures r.id !in s.reservations
    ensures Shape(Insert(s, tid, r)) && Extends(s, Insert(s, tid, r))
  {
    var s' := Insert(s, tid, r);
    assert PcOk(s, s.threads[tid]);
    forall i | i in s.threads && i != tid && s.threads[i].Inserting?
      ensures s.threads[i].r.id !in s'.reservations
    {
      assert PcOk(s, s.threads[i]);
    }
    ThreadsOkAfter(s, s', tid, Idle);
    forall id | id in s'.reservations ensures FiledOk(s', id) {
      assert id != r.id ==> FiledOk(s, id);
    }
  }

  // ---------- every step keeps tenant t's money ----------

  lemma SameMoney(s: World, s': World, t: string)
    requires Money(s, t) && AccountOf(s', t) == AccountOf(s, t)
    requires s'.reservations == s.reservations && s'.threads == s.threads && s'.peak == s.peak
    ensures Money(s', t)
  {
  }

  lemma MoveKeepsMoney(s: World, tid: nat, pc: Pc, t: string)
    requires Money(s, t) && PendingBy(t)(pc) == WeightAt(s.threads, tid, PendingBy(t))
    ensures Money(Goto(s, tid, pc), t)
  {
    var s' := Goto(s, tid, pc);
    Put(s.threads, tid, pc, PendingBy(t));
    assert AccountOf(s', t) == AccountOf(s, t);
    assert Total(s'.threads, PendingBy(t)) == Total(s.threads, PendingBy(t));
  }

  lemma AllocKeepsMoney(s: World, tenant: string, t: string)
    requires PointersOk(s) && Money(s, t)
    ensures Money(Alloc(s, tenant), t)
  {
    var s' := Alloc(s, tenant);
    assert AccountOf(s', t) == AccountOf(s, t);
    SameMoney(s, s', t);
  }

  lemma BudgetKeepsMoney(s: World, tenant: string, limit: int, t: string)
    requires PointersOk(Alloc(s, tenant)) && Money(Alloc(s, tenant), t)
    ensures Money(Budget(s, tenant, limit), t)
  {
    var s1 := Alloc(s, tenant);
    var s' := Budget(s, tenant, limit);
    if t == tenant {
      assert AccountOf(s', t) == AccountOf(s1, t).(limit := limit);
      assert Peak(s', t) >= Peak(s1, t);
    } else {
      assert AccountOf(s', t) == AccountOf(s1, t);
      assert Peak(s', t) == Peak(s1, t);
    }
  }

  /** Reserve's section under the account lock: the amount becomes pending in the same step. */
  lemma GrantKeepsMoney(s: World, tid: nat, job: Job, a: nat, t: string)
    requires PointersOk(s) && Money(s, t)
    requires tid in s.threads && s.threads[tid] == Committing(job, a) && job.ReserveJob?
    requires job.tenant in s.accounts && s.accounts[job.tenant] == a && Available(s.cells[a]) >= job.amount
    ensures Money(Commit(s, tid, job, a), t)
  {
    var s' := Commit(s, tid, job, a);
    var pc := Stamping(job.tenant, job.amount, job.ttl);
    assert s'.threads == s.threads[tid := pc];
    Put(s.threads, tid, pc, PendingBy(t));
    NonNegative(s.reservations, OverageBy(t));
    if t == job.tenant {
      assert AccountOf(s', t) == AccountOf(s, t).(reserved := AccountOf(s, t).reserved + job.amount);
    } else {
      assert AccountOf(s', t) == AccountOf(s, t);
    }
  }

  /** Release, Reconcile and ExpireStale under the account lock: an amount moves, or nothing does. */
  lemma CloseKeepsMoney(s: World, x: Target, how: Closing, t: string)
    requires PointersOk(s) && Money(s, t) && TargetOk(s, x) && x.tenant in s.accounts
    requires WellFormed(x.id, s.reservations[x.id])
    ensures Money(CloseAt(s, s.accounts[x.tenant], x.id, how), t)
  {
    var s' := CloseAt(s, s.accounts[x.tenant], x.id, how);
    var c := Close(AccountOf(s, x.tenant), s.reservations[x.id], how);
    assert s'.reservations == s.reservations[x.id := c.reservation];
    Put(s.reservations, x.id, c.reservation, HeldBy(t));
    Put(s.reservations, x.id, c.reservation, SettledBy(t));
    Put(s.reservations, x.id, c.reservation, OverageBy(t));
    if t == x.tenant {
      assert AccountOf(s', t) == c.account;
    } else {
      assert AccountOf(s', t) == AccountOf(s, t);
    }
  }

  /** The pending amount becomes a held one. */
  lemma InsertKeepsMoney(s: World, tid: nat, r: Reservation, t: string)
    requires Money(s, t) && tid in s.threads && s.threads[tid] == Inserting(r)
    requires r.id !in s.reservations && r.state == RESERVED
    ensures Money(Insert(s, tid, r), t)
  {
    var s' := Insert(s, tid, r);
    Put(s.threads, tid, Idle, PendingBy(t));
    Put(s.reservations, r.id, r, HeldBy(t));
    Put(s.reservations, r.id, r, SettledBy(t));
    Put(s.reservations, r.id, r, OverageBy(t));
    assert AccountOf(s', t) == AccountOf(s, t);
  }
}

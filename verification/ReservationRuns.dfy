/**
 * What every run of the interleaved reservation manager keeps, from the start or from any
 * state that satisfies the invariant. All results hold while fewer than 2^64 ids were drawn
 * (see Digits.IdsRepeatAfterFullTurn for why the bound is there).
 */
module ReservationRuns {
  import opened Books
  import opened Digits
  import opened Totals
  import opened Interleaving

  // ---------- one step ----------

  /** Once closed, a reservation record never changes again. */
  ghost predicate ClosedStay(s: World, s': World) {
    forall id :: id in s.reservations && s.reservations[id].state != RESERVED ==>
      id in s'.reservations && s'.reservations[id] == s.reservations[id]
  }

  ghost predicate Grows(s: World, s': World) {
    Extends(s, s') && ClosedStay(s, s')
  }

  ghost predicate Onward(s: World, s': World) {
    Inv(s') && Grows(s, s')
  }

  lemma GrowsTrans(s: World, s1: World, s2: World)
    requires Grows(s, s1) && Grows(s1, s2)
    ensures Grows(s, s2)
  {
    forall id | id in s.reservations
      ensures id in s2.reservations && SameTerms(s.reservations[id], s2.reservations[id])
    {
      assert SameTerms(s.reservations[id], s1.reservations[id]);
    }
  }

  lemma MoveStep(s: World, tid: nat, pc: Pc)
    requires Inv(s) && PcOk(s, pc) && !pc.Inserting?
    requires forall t :: PendingBy(t)(pc) == WeightAt(s.threads, tid, PendingBy(t))
    ensures Onward(s, Goto(s, tid, pc))
  {
    MoveKeepsShape(s, tid, pc);
    PcOkExtendsGoto(s, tid, pc, pc);
    forall t ensures Money(Goto(s, tid, pc), t) {
      assert Money(s, t);
      MoveKeepsMoney(s, tid, pc, t);
    }
  }

  lemma AllocStep(s: World, tenant: string)
    requires Inv(s)
    ensures Onward(s, Alloc(s, tenant)) && tenant in Alloc(s, tenant).accounts
  {
    AllocKeepsShape(s, tenant);
    forall t ensures Money(Alloc(s, tenant), t) {
      assert Money(s, t);
      AllocKeepsMoney(s, tenant, t);
    }
  }

  lemma BudgetStep(s: World, tenant: string, limit: int)
    requires Inv(s)
    ensures Onward(s, Budget(s, tenant, limit))
  {
    AllocStep(s, tenant);
    var s1 := Alloc(s, tenant);
    var s' := Budget(s, tenant, limit);
    CellWriteKeepsShape(s1, s1.accounts[tenant], s1.cells[s1.accounts[tenant]].(limit := limit), s'.peak);
    forall t ensures Money(s', t) {
      assert Money(s1, t);
      BudgetKeepsMoney(s, tenant, limit, t);
    }
  }

  lemma CreateStep(s: World, tid: nat, job: Job)
    requires Inv(s) && tid in s.threads && s.threads[tid] == Creating(job)
    ensures Onward(s, Apply(s, Act(tid, 0.0, "", [])))
  {
    AllocStep(s, job.Tenant());
    var s1 := Alloc(s, job.Tenant());
    assert PcOk(s, s.threads[tid]);
    CreatedMove(s1, tid, job);
    GrowsTrans(s, s1, Goto(s1, tid, Committing(job, s1.accounts[job.Tenant()])));
  }

  lemma CreatedMove(s: World, tid: nat, job: Job)
    requires Inv(s) && tid in s.threads && s.threads[tid] == Creating(job) && job.Tenant() in s.accounts
    ensures Onward(s, Goto(s, tid, Committing(job, s.accounts[job.Tenant()])))
  {
    assert PcOk(s, s.threads[tid]);
    MoveStep(s, tid, Committing(job, s.accounts[job.Tenant()]));
  }

  lemma GrantStep(s: World, tid: nat, job: Job, a: nat)
    requires Inv(s) && tid in s.threads && s.threads[tid] == Committing(job, a) && job.ReserveJob?
    requires a < |s.cells| && Available(s.cells[a]) >= job.amount
    ensures Onward(s, Commit(s, tid, job, a))
  {
    GrantKeepsShape(s, tid, job, a);
    forall t ensures Money(Commit(s, tid, job, a), t) {
      assert Money(s, t);
      GrantKeepsMoney(s, tid, job, a, t);
    }
  }

  lemma GrantKeepsShape(s: World, tid: nat, job: Job, a: nat)
    requires Inv(s) && tid in s.threads && s.threads[tid] == Committing(job, a) && job.ReserveJob?
    requires a < |s.cells| && Available(s.cells[a]) >= job.amount
    ensures job.tenant in s.accounts && s.accounts[job.tenant] == a
    ensures Shape(Commit(s, tid, job, a)) && Grows(s, Commit(s, tid, job, a))
  {
    assert PcOk(s, s.threads[tid]);
    HoldKeepsShape(s, tid, a, s.cells[a].(reserved := s.cells[a].reserved + job.amount),
                   Stamping(job.tenant, job.amount, job.ttl));
  }

  lemma HoldKeepsShape(s: World, tid: nat, a: nat, v: Account, pc: Pc)
    requires Shape(s) && a < |s.cells| && PcOk(s, pc) && !pc.Inserting?
    ensures Shape(Goto(s.(cells := s.cells[a := v]), tid, pc))
    ensures Grows(s, Goto(s.(cells := s.cells[a := v]), tid, pc))
  {
    CellWriteKeepsShape(s, a, v, s.peak);
    var s1 := s.(cells := s.cells[a := v]);
    PcOkExtends(s, s1, pc);
    MoveKeepsShape(s1, tid, pc);
  }

  lemma CloseStep(s: World, x: Target, how: Closing)
    requires Inv(s) && TargetOk(s, x) && (how.Reconcile? ==> how.actual >= 0)
    ensures x.tenant in s.accounts && s.accounts[x.tenant] < |s.cells|
    ensures Onward(s, CloseAt(s, s.accounts[x.tenant], x.id, how))
  {
    CloseKeepsShape(s, x, how);
    assert FiledOk(s, x.id);
    forall t ensures Money(CloseAt(s, s.accounts[x.tenant], x.id, how), t) {
      assert Money(s, t);
      CloseKeepsMoney(s, x, how, t);
    }
  }

  lemma CommitStep(s: World, tid: nat, job: Job, a: nat)
    requires Inv(s) && tid in s.threads && s.threads[tid] == Committing(job, a)
    ensures Onward(s, Commit(s, tid, job, a))
  {
    assert PcOk(s, s.threads[tid]);
    match job
    case ReserveJob(_, amount, _) =>
      if Available(s.cells[a]) >= amount {
        GrantStep(s, tid, job, a);
      } else {
        MoveStep(s, tid, Idle);
      }
    case ExposureJob(_) => MoveStep(s, tid, Idle);
    case CloseJob(x, how) => CloseJobStep(s, tid, x, how, a);
    case SweepJob(targets, at) => SweepJobStep(s, tid, targets, at, a);
  }

  lemma CloseJobStep(s: World, tid: nat, x: Target, how: Closing, a: nat)
    requires Inv(s) && tid in s.threads && s.threads[tid] == Committing(CloseJob(x, how), a)
    ensures Onward(s, Commit(s, tid, CloseJob(x, how), a))
  {
    assert PcOk(s, s.threads[tid]);
    CloseStep(s, x, how);
    var s1 := CloseAt(s, a, x.id, how);
    MoveStep(s1, tid, Idle);
    GrowsTrans(s, s1, Goto(s1, tid, Idle));
  }

  lemma SweepJobStep(s: World, tid: nat, targets: seq<Target>, at: real, a: nat)
    requires Inv(s) && tid in s.threads && s.threads[tid] == Committing(SweepJob(targets, at), a)
    ensures Onward(s, Commit(s, tid, SweepJob(targets, at), a))
  {
    assert PcOk(s, s.threads[tid]);
    assert Overdue(s, targets[0], at);
    CloseStep(s, targets[0], Expire);
    var s1 := CloseAt(s, a, targets[0].id, Expire);
    var pc := SweepFrom(targets[1..], at);
    assert PcOk(s, pc);
    PcOkExtends(s, s1, pc);
    MoveStep(s1, tid, pc);
    GrowsTrans(s, s1, Goto(s1, tid, pc));
  }

  lemma StampStep(s: World, tid: nat, id: string, now: real)
    requires Inv(s) && tid in s.threads && s.threads[tid].Stamping?
    requires !Drawn(id, s.issued) && Drawn(id, s.issued + 1)
    ensures var pc := s.threads[tid]; Onward(s, Stamp(s, tid, Fresh(id, pc.tenant, pc.amount, now, pc.ttl)))
  {
    var pc := s.threads[tid];
    assert PcOk(s, pc);
    StampedStep(s, tid, Fresh(id, pc.tenant, pc.amount, now, pc.ttl));
  }

  lemma StampedStep(s: World, tid: nat, r: Reservation)
    requires Inv(s) && tid in s.threads && s.threads[tid].Stamping?
    requires WellFormed(r.id, r) && r.state == RESERVED && !Drawn(r.id, s.issued) && Drawn(r.id, s.issued + 1)
    requires r.tenant == s.threads[tid].tenant && r.amount == s.threads[tid].amount
    ensures Onward(s, Stamp(s, tid, r))
  {
    var s' := Stamp(s, tid, r);
    StampKeepsShape(s, tid, r);
    forall t ensures Money(s', t) {
      assert Money(s, t);
      StampKeepsMoney(s, tid, r, t);
    }
  }

  lemma StampKeepsMoney(s: World, tid: nat, r: Reservation, t: string)
    requires Money(s, t) && PendingBy(t)(Inserting(r)) == WeightAt(s.threads, tid, PendingBy(t))
    ensures Money(Stamp(s, tid, r), t)
  {
    MoveKeepsMoney(s, tid, Inserting(r), t);
    SameMoney(Goto(s, tid, Inserting(r)), Stamp(s, tid, r), t);
  }

  lemma InsertStep(s: World, tid: nat, r: Reservation)
    requires Inv(s) && tid in s.threads && s.threads[tid] == Inserting(r)
    ensures Onward(s, Insert(s, tid, r))
  {
    assert PcOk(s, s.threads[tid]);
    InsertKeepsShape(s, tid, r);
    forall t ensures Money(Insert(s, tid, r), t) {
      assert Money(s, t);
      InsertKeepsMoney(s, tid, r, t);
    }
  }

  lemma DrawStep(s: World, tid: nat, stamp: string, now: real)
    requires Inv(s) && tid in s.threads && s.threads[tid].Stamping? && s.issued + 1 < U64
    ensures var pc := s.threads[tid];
            Onward(s, Stamp(s, tid, Fresh(Id(stamp, s.issued + 1), pc.tenant, pc.amount, now, pc.ttl)))
  {
    NextIsNew(stamp, s.issued);
    StampStep(s, tid, Id(stamp, s.issued + 1), now);
  }

  lemma ScanStep(s: World, tid: nat, now: real, order: seq<Target>)
    requires Inv(s) && tid in s.threads && s.threads[tid] == Scanning
    requires Collects(s, order, now)
    ensures Onward(s, Goto(s, tid, SweepFrom(order, now)))
  {
    MoveStep(s, tid, SweepFrom(order, now));
  }

  lemma FindStep(s: World, tid: nat, id: string, how: Closing)
    requires Inv(s) && tid in s.threads && s.threads[tid] == Finding(id, how)
    ensures Onward(s, Apply(s, Act(tid, 0.0, "", [])))
  {
    assert PcOk(s, s.threads[tid]);
    if id in s.reservations {
      MoveStep(s, tid, Looking(CloseJob(Target(id, s.reservations[id].tenant), how)));
    } else {
      MoveStep(s, tid, Idle);
    }
  }

  lemma LookStep(s: World, tid: nat, job: Job)
    requires Inv(s) && tid in s.threads && s.threads[tid] == Looking(job)
    ensures Onward(s, Apply(s, Act(tid, 0.0, "", [])))
  {
    assert PcOk(s, s.threads[tid]);
    if job.Tenant() in s.accounts {
      MoveStep(s, tid, Committing(job, s.accounts[job.Tenant()]));
    } else {
      MoveStep(s, tid, Creating(job));
    }
  }

  lemma ActStep(s: World, tid: nat, now: real, stamp: string, order: seq<Target>)
    requires Inv(s) && Enabled(s, Act(tid, now, stamp, order)) && Apply(s, Act(tid, now, stamp, order)).issued < U64
    ensures Onward(s, Apply(s, Act(tid, now, stamp, order)))
  {
    match s.threads[tid]
    case Finding(id, how) => FindStep(s, tid, id, how);
    case Scanning => ScanStep(s, tid, now, order);
    case Looking(job) => LookStep(s, tid, job);
    case Creating(job) => CreateStep(s, tid, job);
    case Committing(job, a) => CommitStep(s, tid, job, a);
    case Stamping(_, _, _) => DrawStep(s, tid, stamp, now);
    case Inserting(r) => InsertStep(s, tid, r);
  }

  /** Every step of every thread keeps the invariant, never replaces an account, and never reopens a reservation. */
  lemma StepKeepsInv(s: World, step: Step)
    requires Inv(s) && Enabled(s, step) && Apply(s, step).issued < U64
    ensures Onward(s, Apply(s, step))
  {
    match step
    case Begin(tid, pc) => MoveStep(s, tid, pc);
    case SetBudget(tenant, limit) => BudgetStep(s, tenant, limit);
    case Act(tid, now, stamp, order) => ActStep(s, tid, now, stamp, order);
  }

  // ---------- whole runs ----------

  lemma {:induction false} RunKeepsInv(s: World, steps: seq<Step>)
    requires Inv(s) && Feasible(s, steps) && Run(s, steps).issued < U64
    ensures Onward(s, Run(s, steps))
    decreases |steps|
  {
    if steps != [] {
      var s1 := Apply(s, steps[0]);
      IssuedGrows(s1, steps[1..]);
      StepKeepsInv(s, steps[0]);
      RunKeepsInv(s1, steps[1..]);
      GrowsTrans(s, s1, Run(s, steps));
    }
  }

  lemma {:induction false} IssuedGrows(s: World, steps: seq<Step>)
    requires Feasible(s, steps)
    ensures s.issued <= Run(s, steps).issued
    decreases |steps|
  {
    if steps != [] {
      IssuedGrows(Apply(s, steps[0]), steps[1..]);
    }
  }

  lemma InitialInv()
    ensures Inv(INITIAL)
  {
    forall t ensures Money(INITIAL, t) {
      assert AccountOf(INITIAL, t) == EMPTY_ACCOUNT;
    }
  }

  /**
   * Conservation. After any interleaving of any number of threads, a tenant's `reserved` is the sum of its
   * RESERVED reservations plus what was granted but is not in the map yet, and its `settled` is the sum of
   * its RECONCILED costs.
   */
  lemma Conservation(steps: seq<Step>, t: string)
    requires Feasible(INITIAL, steps) && Run(INITIAL, steps).issued < U64
    ensures var s := Run(INITIAL, steps);
            && AccountOf(s, t).reserved == Total(s.reservations, HeldBy(t)) + Total(s.threads, PendingBy(t))
            && AccountOf(s, t).settled == Total(s.reservations, SettledBy(t))
  {
    InitialInv();
    RunKeepsInv(INITIAL, steps);
    assert Money(Run(INITIAL, steps), t);
  }

  /** When no call is in flight, `reserved` is exactly the sum of the RESERVED reservations. */
  lemma ConservationAtRest(steps: seq<Step>, t: string)
    requires Feasible(INITIAL, steps) && Run(INITIAL, steps).issued < U64
    requires forall i :: i in Run(INITIAL, steps).threads ==> Run(INITIAL, steps).threads[i] == Idle
    ensures AccountOf(Run(INITIAL, steps), t).reserved == Total(Run(INITIAL, steps).reservations, HeldBy(t))
  {
    Conservation(steps, t);
    Zero(Run(INITIAL, steps).threads, PendingBy(t));
  }

  /** getAccount hands out the same pointer for a tenant for ever, and a filed reservation keeps its terms. */
  lemma AccountsAreNeverReplaced(s: World, steps: seq<Step>, t: string)
    requires Inv(s) && Feasible(s, steps) && Run(s, steps).issued < U64
    requires t in s.accounts
    ensures t in Run(s, steps).accounts && Run(s, steps).accounts[t] == s.accounts[t]
  {
    RunKeepsInv(s, steps);
  }

  /** A reservation that was closed, by whichever thread got there first, stays exactly as it is over every run. */
  lemma ClosedForGood(s: World, steps: seq<Step>, id: string)
    requires Inv(s) && Feasible(s, steps) && Run(s, steps).issued < U64
    requires id in s.reservations && s.reservations[id].state != RESERVED
    ensures id in Run(s, steps).reservations && Run(s, steps).reservations[id] == s.reservations[id]
  {
    RunKeepsInv(s, steps);
  }

  /** The reply a committing Release or Reconcile gives its caller. */
  function ReplyAt(s: World, a: nat, id: string, how: Closing): Reply
    requires a < |s.cells| && id in s.reservations
  {
    Close(s.cells[a], s.reservations[id], how).reply
  }

  /**
   * Idempotence. Once a reservation is reconciled, a later Reconcile gives the original result and changes
   * neither accounts nor reservations, after any intervening run and whatever cost it is called with.
   */
  lemma ReconcileIsIdempotent(s: World, steps: seq<Step>, tid: nat, x: Target, cost: int, a: nat)
    requires Inv(s) && Feasible(s, steps) && Run(s, steps).issued < U64
    requires x.id in s.reservations && s.reservations[x.id].state == RECONCILED
    requires tid in Run(s, steps).threads
    requires Run(s, steps).threads[tid] == Committing(CloseJob(x, Reconcile(cost)), a)
    ensures var s1 := Run(s, steps);
            var s2 := Apply(s1, Act(tid, 0.0, "", []));
            var r := s.reservations[x.id];
            && a < |s1.cells| && x.id in s1.reservations
            && ReplyAt(s1, a, x.id, Reconcile(cost)) == Settled(ComputeReconcileResult(r.amount, r.actual))
            && s2.cells == s1.cells && s2.reservations == s1.reservations
  {
    assert FiledOk(s, x.id);
    ClosedForGood(s, steps, x.id);
    RunKeepsInv(s, steps);
    ReconciledIsNoOp(Run(s, steps), tid, x, cost, a);
  }

  lemma ReconciledIsNoOp(s: World, tid: nat, x: Target, cost: int, a: nat)
    requires Inv(s) && tid in s.threads && s.threads[tid] == Committing(CloseJob(x, Reconcile(cost)), a)
    requires x.id in s.reservations && s.reservations[x.id].reconciled
    ensures var s2 := Apply(s, Act(tid, 0.0, "", []));
            var r := s.reservations[x.id];
            && a < |s.cells|
            && ReplyAt(s, a, x.id, Reconcile(cost)) == Settled(ComputeReconcileResult(r.amount, r.actual))
            && s2.cells == s.cells && s2.reservations == s.reservations
  {
    assert PcOk(s, s.threads[tid]);
  }

  /** The manager's whole state with pointers followed. */
  function Flat(s: World): Book
    requires forall t :: t in s.accounts ==> s.accounts[t] < |s.cells|
  {
    Book(map t | t in s.accounts :: s.cells[s.accounts[t]], s.reservations, s.issued)
  }

  /**
   * Linearization. A Release or Reconcile does, at its commit step, exactly what the sequential call does on
   * the manager as it is at that moment, however stale its earlier lookups are.
   */
  lemma CloseIsAtomic(s: World, tid: nat, x: Target, how: Closing, a: nat)
    requires Inv(s) && tid in s.threads && s.threads[tid] == Committing(CloseJob(x, how), a)
    ensures var s' := Apply(s, Act(tid, 0.0, "", []));
            && PointersOk(s')
            && Flat(s') == CloseIn(Flat(s), x.id, how)
            && a < |s.cells| && x.id in s.reservations
            && ReplyAt(s, a, x.id, how) == ReplyIn(Flat(s), x.id, how)
  {
    assert PcOk(s, s.threads[tid]);
    assert FiledOk(s, x.id);
    var s' := Apply(s, Act(tid, 0.0, "", []));
    assert s'.accounts == s.accounts;
    var b := CloseIn(Flat(s), x.id, how);
    assert Flat(s').accounts == b.accounts;
  }

  /** ExpireStale closes a reservation only after its expiry: the re-check never acts on a live one. */
  lemma OnlyStaleExpire(s: World, tid: nat, targets: seq<Target>, at: real, a: nat)
    requires Inv(s) && tid in s.threads && s.threads[tid] == Committing(SweepJob(targets, at), a)
    ensures targets != [] && targets[0].id in s.reservations
    ensures s.reservations[targets[0].id].expiresAt < at
  {
    assert PcOk(s, s.threads[tid]);
    assert Overdue(s, targets[0], at);
  }

  // ---------- expiry frees every stale hold ----------

  /** What the ExpireStale of thread tid has still to visit, once it has scanned. */
  function Unvisited(s: World, tid: nat): seq<Target> {
    if tid !in s.threads then []
    else match s.threads[tid]
      case Looking(SweepJob(targets, _)) => targets
      case Creating(SweepJob(targets, _)) => targets
      case Committing(SweepJob(targets, _), _) => targets
      case _ => []
  }

  /** Of the reservations scanned, only unvisited ones can still be RESERVED. */
  ghost predicate Visiting(s: World, tid: nat, scanned: seq<Target>) {
    forall x :: x in scanned ==>
      x.id in s.reservations && (s.reservations[x.id].state == RESERVED ==> x in Unvisited(s, tid))
  }

  lemma CommitVisits(s: World, tid: nat, job: Job, a: nat, x: Target)
    requires Inv(s) && tid in s.threads && s.threads[tid] == Committing(job, a)
    requires x in Unvisited(s, tid) && x !in Unvisited(Commit(s, tid, job, a), tid)
    ensures var s' := Commit(s, tid, job, a);
            x.id in s'.reservations && s'.reservations[x.id].state != RESERVED
  {
    assert PcOk(s, s.threads[tid]);
    assert Overdue(s, job.targets[0], job.at);
    assert FiledOk(s, x.id);
  }

  lemma OthersKeepPc(s: World, step: Step, tid: nat)
    requires Enabled(s, step) && tid in s.threads && s.threads[tid] != Idle
    requires !(step.Act? && step.tid == tid)
    ensures tid in Apply(s, step).threads && Apply(s, step).threads[tid] == s.threads[tid]
  {
    if step.Act? && s.threads[step.tid].Committing? {
      CommitKeepsPc(s, step.tid, s.threads[step.tid].job, s.threads[step.tid].account, tid);
    }
  }

  lemma CommitKeepsPc(s: World, i: nat, job: Job, a: nat, tid: nat)
    requires tid in s.threads && tid != i
    ensures tid in Commit(s, i, job, a).threads && Commit(s, i, job, a).threads[tid] == s.threads[tid]
  {
  }

  lemma OthersKeepUnvisited(s: World, step: Step, tid: nat)
    requires Enabled(s, step) && Unvisited(s, tid) != []
    requires !(step.Act? && step.tid == tid)
    ensures Unvisited(Apply(s, step), tid) == Unvisited(s, tid)
  {
    OthersKeepPc(s, step, tid);
  }

  lemma LookupsKeepUnvisited(s: World, step: Step)
    requires Enabled(s, step) && step.Act? && Unvisited(s, step.tid) != [] && !s.threads[step.tid].Committing?
    ensures Unvisited(Apply(s, step), step.tid) == Unvisited(s, step.tid)
  {
  }

  lemma StepVisits(s: World, step: Step, tid: nat, x: Target)
    requires Inv(s) && Enabled(s, step) && x in Unvisited(s, tid)
    requires x.id in Apply(s, step).reservations && Apply(s, step).reservations[x.id].state == RESERVED
    ensures x in Unvisited(Apply(s, step), tid)
  {
    if !(step.Act? && step.tid == tid) {
      OthersKeepUnvisited(s, step, tid);
    } else if !s.threads[tid].Committing? {
      LookupsKeepUnvisited(s, step);
    } else if x !in Unvisited(Apply(s, step), tid) {
      CommitVisits(s, tid, s.threads[tid].job, s.threads[tid].account, x);
    }
  }

  lemma {:induction false} RunVisits(s: World, steps: seq<Step>, tid: nat, scanned: seq<Target>)
    requires Inv(s) && Feasible(s, steps) && Run(s, steps).issued < U64 && Visiting(s, tid, scanned)
    ensures Visiting(Run(s, steps), tid, scanned)
    decreases |steps|
  {
    if steps != [] {
      var s1 := Apply(s, steps[0]);
      IssuedGrows(s1, steps[1..]);
      StepKeepsInv(s, steps[0]);
      forall x | x in scanned && s1.reservations[x.id].state == RESERVED ensures x in Unvisited(s1, tid) {
        StepVisits(s, steps[0], tid, x);
      }
      RunVisits(s1, steps[1..], tid, scanned);
    }
  }

  /**
   * No budget stays hostage. Whatever other threads do meanwhile, when an ExpireStale that scanned at `now` has no
   * target left, nothing that was stale at its scan is RESERVED any more.
   */
  lemma ExpiryCompletes(s: World, tid: nat, now: real, stamp: string, order: seq<Target>, rest: seq<Step>, x: Target)
    requires Inv(s) && Enabled(s, Act(tid, now, stamp, order)) && s.threads[tid] == Scanning && Stale(s, x, now)
    requires var s1 := Apply(s, Act(tid, now, stamp, order));
             Feasible(s1, rest) && Run(s1, rest).issued < U64 && Unvisited(Run(s1, rest), tid) == []
    ensures var end := Run(Apply(s, Act(tid, now, stamp, order)), rest);
            x.id in end.reservations && end.reservations[x.id].state != RESERVED
  {
    var s1 := Apply(s, Act(tid, now, stamp, order));
    IssuedGrows(s1, rest);
    StepKeepsInv(s, Act(tid, now, stamp, order));
    assert Unvisited(s1, tid) == order;
    RunVisits(s1, rest, tid, order);
  }

  // ---------- the budget cap ----------

  /** Over every run, commitments stay within the greatest limit ever set plus the recorded overage. */
  lemma CapOverRuns(steps: seq<Step>, t: string)
    requires Feasible(INITIAL, steps) && Run(INITIAL, steps).issued < U64
    ensures var s := Run(INITIAL, steps);
            AccountOf(s, t).reserved + AccountOf(s, t).settled <= Peak(s, t) + Total(s.reservations, OverageBy(t))
  {
    InitialInv();
    RunKeepsInv(INITIAL, steps);
    assert Money(Run(INITIAL, steps), t);
  }

  /** No SetBudget in the run lowers the limit in force. */
  ghost predicate NeverLowers(s: World, steps: seq<Step>)
    requires Feasible(s, steps)
    decreases |steps|
  {
    steps != [] ==>
      && (steps[0].SetBudget? ==> AccountOf(s, steps[0].tenant).limit <= steps[0].limit)
      && NeverLowers(Apply(s, steps[0]), steps[1..])
  }

  ghost predicate LimitsAtPeak(s: World) {
    forall t :: AccountOf(s, t).limit == Peak(s, t)
  }

  lemma StepKeepsPeak(s: World, step: Step)
    requires Inv(s) && Enabled(s, step) && LimitsAtPeak(s)
    requires step.SetBudget? ==> AccountOf(s, step.tenant).limit <= step.limit
    ensures LimitsAtPeak(Apply(s, step))
  {
    var s' := Apply(s, step);
    forall t ensures AccountOf(s', t).limit == Peak(s', t) {
      assert AccountOf(s, t).limit == Peak(s, t);
      if step.SetBudget? {
        assert AccountOf(s, step.tenant).limit == Peak(s, step.tenant);
        BudgetSetsLimit(s, step.tenant, step.limit, t);
      } else {
        OthersKeepLimit(s, step, t);
      }
    }
  }

  lemma BudgetSetsLimit(s: World, tenant: string, limit: int, t: string)
    requires PointersOk(s)
    ensures AccountOf(Budget(s, tenant, limit), t).limit == if t == tenant then limit else AccountOf(s, t).limit
    ensures Peak(Budget(s, tenant, limit), t)
         == if t == tenant && limit > Peak(s, t) then limit else Peak(s, t)
  {
    if tenant !in s.accounts {
      FreshPointerOk(s, tenant);
    }
  }

  lemma OthersKeepLimit(s: World, step: Step, t: string)
    requires Inv(s) && Enabled(s, step) && !step.SetBudget?
    ensures AccountOf(Apply(s, step), t).limit == AccountOf(s, t).limit && Apply(s, step).peak == s.peak
  {
    if step.Act? {
      if s.threads[step.tid].Committing? {
        CommitKeepsLimit(s, step.tid, s.threads[step.tid].job, s.threads[step.tid].account, t);
      } else {
        ElsewhereSameAccount(s, step, t);
      }
    }
  }

  lemma CommitKeepsLimit(s: World, tid: nat, job: Job, a: nat, t: string)
    ensures AccountOf(Commit(s, tid, job, a), t).limit == AccountOf(s, t).limit
    ensures Commit(s, tid, job, a).peak == s.peak
  {
  }

  lemma {:induction false} RunKeepsPeak(s: World, steps: seq<Step>)
    requires Inv(s) && Feasible(s, steps) && Run(s, steps).issued < U64
    requires LimitsAtPeak(s) && NeverLowers(s, steps)
    ensures LimitsAtPeak(Run(s, steps))
    decreases |steps|
  {
    if steps != [] {
      IssuedGrows(Apply(s, steps[0]), steps[1..]);
      StepKeepsInv(s, steps[0]);
      StepKeepsPeak(s, steps[0]);
      RunKeepsPeak(Apply(s, steps[0]), steps[1..]);
    }
  }

  /** With limits never lowered: reserved + settled <= limit + overage. */
  lemma CapWithRisingLimits(steps: seq<Step>, t: string)
    requires Feasible(INITIAL, steps) && Run(INITIAL, steps).issued < U64 && NeverLowers(INITIAL, steps)
    ensures var s := Run(INITIAL, steps);
            AccountOf(s, t).reserved + AccountOf(s, t).settled
              <= AccountOf(s, t).limit + Total(s.reservations, OverageBy(t))
  {
    InitialInv();
    CapOverRuns(steps, t);
    RunKeepsPeak(INITIAL, steps);
    assert AccountOf(Run(INITIAL, steps), t).limit == Peak(Run(INITIAL, steps), t);
  }

  /** The header's claim, for runs in which no actual cost exceeds its estimate. */
  lemma NeverOvercommitted(steps: seq<Step>, t: string)
    requires Feasible(INITIAL, steps) && Run(INITIAL, steps).issued < U64 && NeverLowers(INITIAL, steps)
    requires var m := Run(INITIAL, steps).reservations;
             forall id :: id in m && m[id].tenant == t && m[id].state == RECONCILED ==> m[id].actual <= m[id].amount
    ensures var a := AccountOf(Run(INITIAL, steps), t); a.reserved + a.settled <= a.limit
  {
    CapWithRisingLimits(steps, t);
    Zero(Run(INITIAL, steps).reservations, OverageBy(t));
  }

  const I63: int := 0x8000_0000_0000_0000

  /** Account arithmetic stays inside int64 while the peak limit plus the overage does. */
  lemma AccountsFitInt64(steps: seq<Step>, t: string)
    requires Feasible(INITIAL, steps) && Run(INITIAL, steps).issued < U64
    requires var s := Run(INITIAL, steps); Peak(s, t) + Total(s.reservations, OverageBy(t)) < I63
    requires NeverLowers(INITIAL, steps)
    ensures var a := AccountOf(Run(INITIAL, steps), t);
            && 0 <= a.reserved < I63 && 0 <= a.settled < I63 && a.reserved + a.settled < I63
            && -I63 <= a.limit - a.reserved < I63 && -I63 <= Available(a) < I63
  {
    var s := Run(INITIAL, steps);
    InitialInv();
    RunKeepsInv(INITIAL, steps);
    RunKeepsPeak(INITIAL, steps);
    assert AccountOf(s, t).limit == Peak(s, t);
    BooksNonNegative(s, t);
    PeakNonNegative(INITIAL, steps, t);
  }

  lemma BooksNonNegative(s: World, t: string)
    requires Inv(s)
    ensures AccountOf(s, t).reserved >= 0 && AccountOf(s, t).settled >= 0
    ensures Total(s.reservations, OverageBy(t)) >= 0
    ensures AccountOf(s, t).reserved + AccountOf(s, t).settled <= Peak(s, t) + Total(s.reservations, OverageBy(t))
  {
    assert Money(s, t);
    assert forall id :: id in s.reservations ==> FiledOk(s, id);
    NonNegative(s.reservations, HeldBy(t));
    NonNegative(s.reservations, SettledBy(t));
    NonNegative(s.reservations, OverageBy(t));
    assert forall i :: i in s.threads ==> PcOk(s, s.threads[i]);
    NonNegative(s.threads, PendingBy(t));
  }

  lemma {:induction false} PeakNonNegative(s: World, steps: seq<Step>, t: string)
    requires Feasible(s, steps) && Peak(s, t) >= 0
    ensures Peak(Run(s, steps), t) >= 0
    decreases |steps|
  {
    if steps != [] {
      PeakNonNegative(Apply(s, steps[0]), steps[1..], t);
    }
  }

  /** The two steps that can push a tenant past its limit: settling an overrun, or cutting the limit under it. */
  predicate Overruns(s: World, step: Step, t: string) {
    match step
    case SetBudget(t', limit) => t' == t && limit < AccountOf(s, t).reserved + AccountOf(s, t).settled
    case Act(tid, _, _, _) =>
      && tid in s.threads && s.threads[tid].Committing? && s.threads[tid].job.CloseJob?
      && var x := s.threads[tid].job.target;
         var how := s.threads[tid].job.how;
         && x.tenant == t && how.Reconcile? && x.id in s.reservations
         && s.reservations[x.id].state == RESERVED
         && how.actual - s.reservations[x.id].amount > Available(AccountOf(s, t))
    case _ => false
  }

  /** Exactly when the header's claim survives a step. */
  lemma CapSurvivesExactly(s: World, step: Step, t: string)
    requires Inv(s) && Enabled(s, step)
    requires AccountOf(s, t).reserved + AccountOf(s, t).settled <= AccountOf(s, t).limit
    ensures var a := AccountOf(Apply(s, step), t);
            a.reserved + a.settled <= a.limit <==> !Overruns(s, step, t)
  {
    match step
    case Begin(_, _) =>
    case SetBudget(t', limit) =>
      AllocStep(s, t');
    case Act(tid, _, _, _) =>
      if s.threads[tid].Committing? {
        CommitCapExactly(s, tid, s.threads[tid].job, s.threads[tid].account, t);
      } else {
        ElsewhereSameAccount(s, step, t);
      }
  }

  lemma ElsewhereSameAccount(s: World, step: Step, t: string)
    requires PointersOk(s) && Enabled(s, step) && step.Act? && !s.threads[step.tid].Committing?
    ensures AccountOf(Apply(s, step), t) == AccountOf(s, t)
  {
  }

  lemma CommitCapExactly(s: World, tid: nat, job: Job, a: nat, t: string)
    requires Inv(s) && tid in s.threads && s.threads[tid] == Committing(job, a)
    requires AccountOf(s, t).reserved + AccountOf(s, t).settled <= AccountOf(s, t).limit
    ensures var b := AccountOf(Commit(s, tid, job, a), t);
            b.reserved + b.settled <= b.limit <==> !Overruns(s, Act(tid, 0.0, "", []), t)
  {
    assert PcOk(s, s.threads[tid]);
    if job.CloseJob? {
      assert FiledOk(s, job.target.id);
    } else if job.SweepJob? {
      assert Overdue(s, job.targets[0], job.at);
      assert FiledOk(s, job.targets[0].id);
    }
  }

  // ---------- the header's claim fails for every overrun ----------

  lemma Chain(s: World, step: Step, rest: seq<Step>, s1: World, end: World)
    requires Enabled(s, step) && Apply(s, step) == s1 && Feasible(s1, rest) && Run(s1, rest) == end
    ensures Feasible(s, [step] + rest) && Run(s, [step] + rest) == end
  {
    assert ([step] + rest)[1..] == rest;
  }

  function Go(): Step { Act(0, 0.0, "", []) }

  /** One tenant with one account, one thread, nothing filed. */
  function Single(t: string, a: Account, pc: Pc): World {
    World(map[t := 0], [a], map[], 0, map[0 := pc], map[t := a.limit])
  }

  /** From the grant to the filed reservation. */
  lemma FileAlone(t: string, amount: int, ttl: real, stamp: string, rest: seq<Step>, end: World)
    requires var r := Fresh(Id(stamp, 1), t, amount, 0.0, ttl);
             var s := Single(t, Account(amount, amount, 0), Idle).(reservations := map[r.id := r], issued := 1);
             Feasible(s, rest) && Run(s, rest) == end
    ensures var s := Single(t, Account(amount, amount, 0), Stamping(t, amount, ttl));
            var steps := [Act(0, 0.0, stamp, [])] + ([Go()] + rest);
            Feasible(s, steps) && Run(s, steps) == end
  {
    var r := Fresh(Id(stamp, 1), t, amount, 0.0, ttl);
    var s4 := Single(t, Account(amount, amount, 0), Stamping(t, amount, ttl));
    var s5 := Stamp(s4, 0, r);
    var s6 := Insert(s5, 0, r);
    assert s6 == Single(t, Account(amount, amount, 0), Idle).(reservations := map[r.id := r], issued := 1);
    Chain(s5, Go(), rest, s6, end);
    Chain(s4, Act(0, 0.0, stamp, []), [Go()] + rest, s5, end);
  }

  /** From a fresh Reserve call to the grant. */
  lemma GrantAlone(t: string, amount: int, ttl: real, rest: seq<Step>, end: World)
    requires amount >= 0
    requires var s := Single(t, Account(amount, amount, 0), Stamping(t, amount, ttl));
             Feasible(s, rest) && Run(s, rest) == end
    ensures var s := Single(t, Account(amount, 0, 0), Looking(ReserveJob(t, amount, ttl)));
            Feasible(s, [Go()] + ([Go()] + rest)) && Run(s, [Go()] + ([Go()] + rest)) == end
  {
    var job := ReserveJob(t, amount, ttl);
    var s2 := Single(t, Account(amount, 0, 0), Looking(job));
    var s3 := Single(t, Account(amount, 0, 0), Committing(job, 0));
    var s4 := Single(t, Account(amount, amount, 0), Stamping(t, amount, ttl));
    assert Apply(s3, Go()) == s4;
    Chain(s3, Go(), rest, s4, end);
    assert Apply(s2, Go()) == s3;
    Chain(s2, Go(), [Go()] + rest, s3, end);
  }

  /** From a filed reservation to its reconciliation. */
  lemma ReconcileAlone(r: Reservation, cost: int) returns (steps: seq<Step>, end: World)
    requires r.state == RESERVED && !r.reconciled && cost >= 0
    ensures var s := Single(r.tenant, Account(r.amount, r.amount, 0), Idle).(reservations := map[r.id := r], issued := 1);
            Feasible(s, steps) && Run(s, steps) == end
    ensures end.issued == 1 && AccountOf(end, r.tenant) == Account(r.amount, 0, cost)
  {
    var job := CloseJob(Target(r.id, r.tenant), Reconcile(cost));
    var s6 := Single(r.tenant, Account(r.amount, r.amount, 0), Idle).(reservations := map[r.id := r], issued := 1);
    var s7 := Goto(s6, 0, Finding(r.id, Reconcile(cost)));
    var s8 := Goto(s7, 0, Looking(job));
    var s9 := Goto(s8, 0, Committing(job, 0));
    end := Apply(s9, Go());
    Chain(s9, Go(), [], end, end);
    Chain(s8, Go(), [Go()] + [], s9, end);
    Chain(s7, Go(), [Go()] + ([Go()] + []), s8, end);
    steps := [Begin(0, Finding(r.id, Reconcile(cost)))] + ([Go()] + ([Go()] + ([Go()] + [])));
    Chain(s6, Begin(0, Finding(r.id, Reconcile(cost))), [Go()] + ([Go()] + ([Go()] + [])), s7, end);
  }

  /** Any cost above its estimate breaks `reserved + settled <= limit` in some run with the limit set once. */
  lemma HeaderClaimFails(t: string, amount: int, cost: int)
    requires 0 <= amount < cost
    ensures exists steps :: Feasible(INITIAL, steps) && Run(INITIAL, steps).issued < U64
              && AccountOf(Run(INITIAL, steps), t) == Account(amount, 0, cost)
  {
    var r := Fresh(Id("", 1), t, amount, 0.0, 30.0);
    var rest, end := ReconcileAlone(r, cost);
    FileAlone(t, amount, 30.0, "", rest, end);
    var filing := [Act(0, 0.0, "", [])] + ([Go()] + rest);
    GrantAlone(t, amount, 30.0, filing, end);
    var tail := [Go()] + ([Go()] + filing);
    var job := ReserveJob(t, amount, 30.0);
    var s2 := Single(t, Account(amount, 0, 0), Looking(job));
    var s1 := Budget(INITIAL, t, amount);
    Chain(s1, Begin(0, Looking(job)), tail, s2, end);
    Chain(INITIAL, SetBudget(t, amount), [Begin(0, Looking(job))] + tail, s1, end);
  }

  /** And any limit set below what is held breaks it too, with no overrun at all. */
  lemma HeaderClaimFailsByCut(t: string, amount: int, cut: int)
    requires amount >= 0 && cut < amount
    ensures exists steps :: Feasible(INITIAL, steps) && Run(INITIAL, steps).issued < U64
              && AccountOf(Run(INITIAL, steps), t) == Account(cut, amount, 0)
  {
    var job := ReserveJob(t, amount, 30.0);
    var s4 := Single(t, Account(amount, amount, 0), Stamping(t, amount, 30.0));
    var s2 := Single(t, Account(amount, 0, 0), Looking(job));
    var s1 := Budget(INITIAL, t, amount);
    var end := Budget(s4, t, cut);
    Chain(s4, SetBudget(t, cut), [], end, end);
    GrantAlone(t, amount, 30.0, [SetBudget(t, cut)] + [], end);
    var tail := [Go()] + ([Go()] + ([SetBudget(t, cut)] + []));
    Chain(s1, Begin(0, Looking(job)), tail, s2, end);
    Chain(INITIAL, SetBudget(t, amount), [Begin(0, Looking(job))] + tail, s1, end);
  }
}

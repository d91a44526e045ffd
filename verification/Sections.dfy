/**
 * The interleaved steps and the locking model speak about the same code: in every run, the locks a thread takes
 * section by section, from the start of a call to its end, are those the locking model lists for that operation.
 */
module Sections {
  import opened Books
  import opened Interleaving
  import Digits
  import Locks
  import ReservationRuns

  /** The lock that guards the section a thread is about to run. */
  function LockOf(pc: Pc): Locks.Call {
    match pc
    case Finding(_, _) => Locks.Acquire(Locks.Mu)
    case Scanning => Locks.Acquire(Locks.Mu)
    case Looking(_) => Locks.RLock
    case Creating(_) => Locks.Acquire(Locks.Mu)
    case Committing(job, _) => Locks.Acquire(Locks.AccountLock(job.Tenant()))
    case Stamping(_, _, _) => Locks.Acquire(Locks.IdMu)
    case Inserting(_) => Locks.Acquire(Locks.Mu)
    case Idle => Locks.RUnlock
  }

  /** The locks a list of lock calls takes, in order. */
  function Takes(calls: seq<Locks.Call>): seq<Locks.Call> {
    if calls == [] then []
    else (if calls[0].RLock? || calls[0].Acquire? then [calls[0]] else []) + Takes(calls[1..])
  }

  /** The locks thread tid takes in this run. */
  ghost function Taken(s: World, steps: seq<Step>, tid: nat): seq<Locks.Call>
    requires Feasible(s, steps)
    decreases |steps|
  {
    if steps == [] then []
    else (if steps[0].Act? && steps[0].tid == tid then [LockOf(s.threads[tid])] else []) + Taken(Apply(s, steps[0]), steps[1..], tid)
  }

  // ---------- what a thread may still take ----------

  function Visiting(v: Locks.Visit): seq<Locks.Call> {
    if v.miss then [Locks.RLock, Locks.Acquire(Locks.Mu), Locks.Acquire(Locks.AccountLock(v.tenant))]
    else [Locks.RLock, Locks.Acquire(Locks.AccountLock(v.tenant))]
  }

  function Sweeping(vs: seq<Locks.Visit>): seq<Locks.Call> {
    if vs == [] then [] else Visiting(vs[0]) + Sweeping(vs[1..])
  }

  /** After the account's own section. */
  ghost predicate AfterVisit(job: Job, rest: seq<Locks.Call>) {
    match job
    case ReserveJob(_, _, _) => rest == [] || rest == [Locks.Acquire(Locks.IdMu), Locks.Acquire(Locks.Mu)]
    case ExposureJob(_) => rest == []
    case CloseJob(_, _) => rest == []
    case SweepJob(_, _) => exists vs :: rest == Sweeping(vs)
  }

  ghost predicate AtAccount(job: Job, l: seq<Locks.Call>) {
    l != [] && l[0] == Locks.Acquire(Locks.AccountLock(job.Tenant())) && AfterVisit(job, l[1..])
  }

  ghost predicate AtMiss(job: Job, l: seq<Locks.Call>) {
    l != [] && l[0] == Locks.Acquire(Locks.Mu) && AtAccount(job, l[1..])
  }

  ghost predicate AtLookup(job: Job, l: seq<Locks.Call>) {
    l != [] && l[0] == Locks.RLock && (AtAccount(job, l[1..]) || AtMiss(job, l[1..]))
  }

  /** The locks a thread can take from here to the end of its call. */
  ghost predicate MayTake(pc: Pc, l: seq<Locks.Call>) {
    match pc
    case Idle => l == []
    case Inserting(_) => l == [Locks.Acquire(Locks.Mu)]
    case Stamping(_, _, _) => l == [Locks.Acquire(Locks.IdMu), Locks.Acquire(Locks.Mu)]
    case Committing(job, _) => AtAccount(job, l)
    case Creating(job) => AtMiss(job, l)
    case Looking(job) => AtLookup(job, l)
    case Finding(_, how) =>
      && l != [] && l[0] == Locks.Acquire(Locks.Mu)
      && (l[1..] == [] || exists x: Target {:trigger CloseJob(x, how)} :: AtLookup(CloseJob(x, how), l[1..]))
    case Scanning => l != [] && l[0] == Locks.Acquire(Locks.Mu) && exists vs :: l[1..] == Sweeping(vs)
  }

  /** A sweep's remaining rounds, seen from its next lookup, are visits. */
  lemma LookupIsVisits(targets: seq<Target>, at: real, l: seq<Locks.Call>) returns (vs: seq<Locks.Visit>)
    requires MayTake(SweepFrom(targets, at), l)
    ensures l == Sweeping(vs)
  {
    if targets == [] {
      vs := [];
    } else {
      var job := SweepJob(targets, at);
      var miss := !AtAccount(job, l[1..]);
      var tail := if miss then l[1..][1..] else l[1..];
      var more :| tail[1..] == Sweeping(more);
      var v := Locks.Visit(job.Tenant(), miss);
      vs := [v] + more;
      assert vs[1..] == more;
      assert l == Visiting(v) + Sweeping(more);
    }
  }

  /** One section: what may be taken after it, may be taken from before it with its lock in front. */
  lemma StepTakes(s: World, step: Step, l: seq<Locks.Call>)
    requires Inv(s) && Enabled(s, step) && step.Act?
    requires step.tid in Apply(s, step).threads && MayTake(Apply(s, step).threads[step.tid], l)
    ensures MayTake(s.threads[step.tid], [LockOf(s.threads[step.tid])] + l)
  {
    var pc := s.threads[step.tid];
    if pc.Committing? && pc.job.SweepJob? {
      RoundTakes(s, step, l);
    } else if pc.Committing? {
      CommitTakes(s, step, l);
    } else {
      LookTakes(s, step, l);
    }
  }

  lemma RoundTakes(s: World, step: Step, l: seq<Locks.Call>)
    requires Inv(s) && Enabled(s, step) && step.Act? && s.threads[step.tid].Committing? && s.threads[step.tid].job.SweepJob?
    requires step.tid in Apply(s, step).threads && MayTake(Apply(s, step).threads[step.tid], l)
    ensures MayTake(s.threads[step.tid], [LockOf(s.threads[step.tid])] + l)
  {
    var pc := s.threads[step.tid];
    assert PcOk(s, pc);
    assert Overdue(s, pc.job.targets[0], pc.job.at);
    CommitSweepPc(s, step.tid, pc.job.targets, pc.job.at, pc.account);
    var vs := LookupIsVisits(pc.job.targets[1..], pc.job.at, l);
    assert ([LockOf(pc)] + l)[1..] == l;
  }

  lemma CommitTakes(s: World, step: Step, l: seq<Locks.Call>)
    requires Inv(s) && Enabled(s, step) && step.Act? && s.threads[step.tid].Committing? && !s.threads[step.tid].job.SweepJob?
    requires step.tid in Apply(s, step).threads && MayTake(Apply(s, step).threads[step.tid], l)
    ensures MayTake(s.threads[step.tid], [LockOf(s.threads[step.tid])] + l)
  {
    var pc := s.threads[step.tid];
    assert PcOk(s, pc);
    CommitOtherPc(s, step.tid, pc.job, pc.account);
    assert ([LockOf(pc)] + l)[1..] == l;
  }

  /** The sections before and after the account's. */
  lemma LookTakes(s: World, step: Step, l: seq<Locks.Call>)
    requires Enabled(s, step) && step.Act? && !s.threads[step.tid].Committing?
    requires step.tid in Apply(s, step).threads && MayTake(Apply(s, step).threads[step.tid], l)
    ensures MayTake(s.threads[step.tid], [LockOf(s.threads[step.tid])] + l)
  {
    var pc, pc' := s.threads[step.tid], Apply(s, step).threads[step.tid];
    var all := [LockOf(pc)] + l;
    assert all[0] == LockOf(pc) && all[1..] == l;
    if pc.Scanning? {
      var vs := LookupIsVisits(step.order, step.now, l);
    } else if pc.Finding? && pc'.Looking? {
      assert pc'.job == CloseJob(pc'.job.target, pc.how);
    }
  }

  lemma CommitSweepPc(s: World, tid: nat, targets: seq<Target>, at: real, a: nat)
    requires a < |s.cells| && targets != [] && targets[0].id in s.reservations
    ensures var s' := Commit(s, tid, SweepJob(targets, at), a); tid in s'.threads && s'.threads[tid] == SweepFrom(targets[1..], at)
  {
  }

  lemma CommitOtherPc(s: World, tid: nat, job: Job, a: nat)
    requires a < |s.cells| && !job.SweepJob?
    ensures var s' := Commit(s, tid, job, a);
            tid in s'.threads
            && (s'.threads[tid] == Idle || (job.ReserveJob? && s'.threads[tid] == Stamping(job.tenant, job.amount, job.ttl)))
  {
  }

  /** From anywhere inside a call to its end, whatever other threads do in between. */
  lemma {:induction false} RunTakes(s: World, steps: seq<Step>, tid: nat)
    requires Inv(s) && Feasible(s, steps) && Run(s, steps).issued < Digits.U64 && tid in s.threads
    requires forall k :: 0 <= k < |steps| && steps[k].Begin? ==> steps[k].tid != tid
    requires tid in Run(s, steps).threads && Run(s, steps).threads[tid] == Idle
    ensures MayTake(s.threads[tid], Taken(s, steps, tid))
    decreases |steps|
  {
    if steps != [] {
      var step, s1 := steps[0], Apply(s, steps[0]);
      ReservationRuns.IssuedGrows(s1, steps[1..]);
      ReservationRuns.StepKeepsInv(s, step);
      if step.Act? && step.tid == tid {
        ActStays(s, step);
        RunTakes(s1, steps[1..], tid);
        StepTakes(s, step, Taken(s1, steps[1..], tid));
      } else {
        OthersStay(s, step, tid);
        RunTakes(s1, steps[1..], tid);
        assert [] + Taken(s1, steps[1..], tid) == Taken(s1, steps[1..], tid);
      }
    }
  }

  lemma ActStays(s: World, step: Step)
    requires Enabled(s, step) && step.Act?
    ensures step.tid in Apply(s, step).threads
  {
    if s.threads[step.tid].Committing? {
      CommitStays(s, step.tid, s.threads[step.tid].job, s.threads[step.tid].account);
    }
  }

  lemma CommitStays(s: World, tid: nat, job: Job, a: nat)
    requires tid in s.threads
    ensures tid in Commit(s, tid, job, a).threads
  {
  }

  lemma OthersStay(s: World, step: Step, tid: nat)
    requires Enabled(s, step) && tid in s.threads && !(step.Act? && step.tid == tid) && !(step.Begin? && step.tid == tid)
    ensures tid in Apply(s, step).threads && Apply(s, step).threads[tid] == s.threads[tid]
  {
    if s.threads[tid] != Idle {
      ReservationRuns.OthersKeepPc(s, step, tid);
    } else if step.Act? && s.threads[step.tid].Committing? {
      ReservationRuns.CommitKeepsPc(s, step.tid, s.threads[step.tid].job, s.threads[step.tid].account, tid);
    }
  }

  // ---------- the operations of the locking model ----------

  lemma TakesOfVisit(v: Locks.Visit, rest: seq<Locks.Call>)
    ensures Takes(Locks.VisitCalls(v) + rest) == Visiting(v) + Takes(rest)
  {
    var account := [Locks.Acquire(Locks.AccountLock(v.tenant)), Locks.Free(Locks.AccountLock(v.tenant))];
    PairTakes(Locks.Acquire(Locks.AccountLock(v.tenant)), Locks.Free(Locks.AccountLock(v.tenant)), rest);
    if v.miss {
      var tail := account + rest;
      PairTakes(Locks.Acquire(Locks.Mu), Locks.Free(Locks.Mu), tail);
      PairTakes(Locks.RLock, Locks.RUnlock, [Locks.Acquire(Locks.Mu), Locks.Free(Locks.Mu)] + tail);
      assert Locks.VisitCalls(v) + rest == [Locks.RLock, Locks.RUnlock] + ([Locks.Acquire(Locks.Mu), Locks.Free(Locks.Mu)] + tail);
    } else {
      PairTakes(Locks.RLock, Locks.RUnlock, account + rest);
      assert Locks.VisitCalls(v) + rest == [Locks.RLock, Locks.RUnlock] + (account + rest);
    }
  }

  lemma PairTakes(take: Locks.Call, give: Locks.Call, rest: seq<Locks.Call>)
    requires (take.RLock? || take.Acquire?) && (give.RUnlock? || give.Free?)
    ensures Takes([take, give] + rest) == [take] + Takes(rest)
  {
    var l := [take, give] + rest;
    assert l[1..] == [give] + rest && l[1..][1..] == rest;
  }

  lemma {:induction false} TakesOfSweep(vs: seq<Locks.Visit>)
    ensures Takes(Locks.SweepCalls(vs)) == Sweeping(vs)
    decreases |vs|
  {
    if vs != [] {
      TakesOfVisit(vs[0], Locks.SweepCalls(vs[1..]));
      TakesOfSweep(vs[1..]);
    }
  }

  /** The operation of the locking model that a call starting at pc is an instance of. */
  ghost predicate Instance(pc: Pc, op: Locks.Operation) {
    match pc
    case Finding(_, _) => op.Close?
    case Scanning => op.ExpireStale?
    case Looking(ReserveJob(t, _, _)) => op.Reserve? && op.visit.tenant == t
    case Looking(ExposureJob(t)) => op.Exposure? && op.visit.tenant == t
    case _ => false
  }

  lemma LookupIsVisit(job: Job, l: seq<Locks.Call>) returns (v: Locks.Visit, rest: seq<Locks.Call>)
    requires AtLookup(job, l)
    ensures v.tenant == job.Tenant() && l == Visiting(v) + rest && AfterVisit(job, rest)
  {
    var miss := !AtAccount(job, l[1..]);
    var tail := if miss then l[1..][1..] else l[1..];
    v, rest := Locks.Visit(job.Tenant(), miss), tail[1..];
    assert tail == [tail[0]] + rest;
    assert l == [l[0]] + l[1..] && (miss ==> l[1..] == [l[1..][0]] + tail);
  }

  lemma EntryIsOperation(pc: Pc, l: seq<Locks.Call>) returns (op: Locks.Operation)
    requires Entry(pc) && MayTake(pc, l)
    ensures Instance(pc, op) && l == Takes(Locks.Calls(op))
  {
    match pc
    case Scanning =>
      var vs :| l[1..] == Sweeping(vs);
      op := Locks.ExpireStale(vs);
      PairTakes(Locks.Acquire(Locks.Mu), Locks.Free(Locks.Mu), Locks.SweepCalls(vs));
      TakesOfSweep(vs);
      assert l == [l[0]] + l[1..];
    case Finding(_, how) =>
      assert l == [l[0]] + l[1..];
      if l[1..] == [] {
        op := Locks.Close(false, Locks.Visit("", false));
        PairTakes(Locks.Acquire(Locks.Mu), Locks.Free(Locks.Mu), []);
      } else {
        var x: Target :| AtLookup(CloseJob(x, how), l[1..]);
        var v, rest := LookupIsVisit(CloseJob(x, how), l[1..]);
        op := Locks.Close(true, v);
        PairTakes(Locks.Acquire(Locks.Mu), Locks.Free(Locks.Mu), Locks.VisitCalls(v));
        TakesOfVisit(v, []);
        assert Locks.VisitCalls(v) + [] == Locks.VisitCalls(v);
      }
    case Looking(job) =>
      var v, rest := LookupIsVisit(job, l);
      if job.ExposureJob? {
        op := Locks.Exposure(v);
        TakesOfVisit(v, []);
        assert Locks.VisitCalls(v) + [] == Locks.VisitCalls(v);
      } else {
        op := Locks.Reserve(v, rest != []);
        var tail := if rest != [] then [Locks.Acquire(Locks.IdMu), Locks.Free(Locks.IdMu), Locks.Acquire(Locks.Mu), Locks.Free(Locks.Mu)] else [];
        TakesOfVisit(v, tail);
        TakesOfFiling();
      }
  }

  lemma TakesOfFiling()
    ensures Takes([Locks.Acquire(Locks.IdMu), Locks.Free(Locks.IdMu), Locks.Acquire(Locks.Mu), Locks.Free(Locks.Mu)])
         == [Locks.Acquire(Locks.IdMu), Locks.Acquire(Locks.Mu)]
  {
    var filing := [Locks.Acquire(Locks.Mu), Locks.Free(Locks.Mu)];
    PairTakes(Locks.Acquire(Locks.IdMu), Locks.Free(Locks.IdMu), filing);
    PairTakes(Locks.Acquire(Locks.Mu), Locks.Free(Locks.Mu), []);
    assert filing + [] == filing;
    assert [Locks.Acquire(Locks.IdMu), Locks.Free(Locks.IdMu)] + filing
        == [Locks.Acquire(Locks.IdMu), Locks.Free(Locks.IdMu), Locks.Acquire(Locks.Mu), Locks.Free(Locks.Mu)];
  }

  /** Every call, in every interleaving, takes its locks in the order the locking model lists for its operation. */
  lemma CallsTakeTheirLocks(s: World, tid: nat, pc: Pc, steps: seq<Step>) returns (op: Locks.Operation)
    requires Inv(s) && Enabled(s, Begin(tid, pc)) && Feasible(Apply(s, Begin(tid, pc)), steps)
    requires var s1 := Apply(s, Begin(tid, pc)); Run(s1, steps).issued < Digits.U64
    requires forall k :: 0 <= k < |steps| && steps[k].Begin? ==> steps[k].tid != tid
    requires var end := Run(Apply(s, Begin(tid, pc)), steps); tid in end.threads && end.threads[tid] == Idle
    ensures Instance(pc, op) && Taken(Apply(s, Begin(tid, pc)), steps, tid) == Takes(Locks.Calls(op))
  {
    var s1 := Apply(s, Begin(tid, pc));
    ReservationRuns.IssuedGrows(s1, steps);
    ReservationRuns.StepKeepsInv(s, Begin(tid, pc));
    RunTakes(s1, steps, tid);
    op := EntryIsOperation(pc, Taken(s1, steps, tid));
  }
}

/**
 * The interleaved manager against the whole-call one: where no call is in flight the concurrent state is a book
 * that keeps the sequential invariant, and a Reserve whose steps nobody interrupts does what the method does.
 */
module Sequential {
  import opened Books
  import opened Digits
  import opened Totals
  import opened Interleaving
  import opened Managers
  import opened ReservationRuns

  /** Every state of every run in which all threads are idle is a state of the sequential manager's books. */
  lemma QuiescentIsBook(s: World)
    requires Inv(s) && forall i :: i in s.threads ==> s.threads[i] == Idle
    ensures BookInv(Flat(s)) && forall t :: BalanceOf(Flat(s), t) == AccountOf(s, t)
  {
    var b := Flat(s);
    forall id | id in b.reservations ensures Filed(b, id) {
      assert FiledOk(s, id);
    }
    forall t ensures BalanceKept(b, t) {
      assert Money(s, t);
      Zero(s.threads, PendingBy(t));
    }
  }

  /**
   * The lookup that starts a Release or Reconcile: an unknown id is answered NotFound as the whole call would be at
   * that moment, and otherwise nothing has happened yet. With CloseIsAtomic this covers every reply of the two calls.
   */
  lemma FindIsAtomic(s: World, tid: nat, id: string, how: Closing)
    requires PointersOk(s) && tid in s.threads && s.threads[tid] == Finding(id, how)
    ensures var s' := Apply(s, Act(tid, 0.0, "", []));
            && PointersOk(s') && Flat(s') == Flat(s)
            && (ReplyIn(Flat(s), id, how) == NotFound <==> s'.threads[tid] == Idle)
            && (s'.threads[tid] == Idle ==> CloseIn(Flat(s), id, how) == Flat(s))
            && (s'.threads[tid] != Idle ==> s'.threads[tid] == Looking(CloseJob(Target(id, s.reservations[id].tenant), how)))
  {
    var s' := Apply(s, Act(tid, 0.0, "", []));
    RestOfBook(s, s.issued, s.reservations, s'.threads);
    if id in s.reservations {
      assert ReplyIn(Flat(s), id, how) != NotFound;
    }
  }

  /**
   * The section of an interleaved Reserve under the account lock: it grants exactly when the whole call would at that
   * moment, and leaves every account as the whole call would.
   */
  lemma GrantIsAtomic(s: World, tid: nat, job: Job, now: real, stamp: string)
    requires PointersOk(s) && job.ReserveJob? && job.tenant in s.accounts
    requires tid in s.threads && s.threads[tid] == Committing(job, s.accounts[job.tenant])
    ensures var s', b := Apply(s, Act(tid, now, stamp, [])), Flat(s);
            && PointersOk(s')
            && (s'.threads[tid] == Stamping(job.tenant, job.amount, job.ttl) <==> Covers(b, job.tenant, job.amount))
            && Flat(s').accounts == ReserveIn(b, job.tenant, job.amount, job.ttl, now, stamp).accounts
            && s'.reservations == s.reservations && s'.issued == s.issued
  {
    var go := Act(tid, now, stamp, []);
    BalanceThrough(s, job.tenant);
    if Available(AccountOf(s, job.tenant)) >= job.amount {
      GrantMoves(s, tid, job.tenant, job.amount, job.ttl, go);
      HeldAccounts(s, job.tenant, job.amount, job.ttl, now, stamp, Apply(s, go).threads);
    } else {
      RefusedAlone(s, tid, job, go);
      RestOfBook(s, s.issued, s.reservations, Apply(s, go).threads);
    }
  }

  lemma HeldAccounts(s: World, t: string, amount: int, ttl: real, now: real, stamp: string, threads: map<nat, Pc>)
    requires PointersOk(s) && t in s.accounts && Covers(Flat(s), t, amount)
    ensures var s' := Held(s, t, amount).(threads := threads);
            PointersOk(s') && Flat(s').accounts == ReserveIn(Flat(s), t, amount, ttl, now, stamp).accounts
  {
    HeldInBook(s, t, amount);
    RestOfBook(Held(s, t, amount), s.issued, s.reservations, threads);
  }

  lemma BalanceThrough(s: World, t: string)
    requires PointersOk(s) && t in s.accounts
    ensures BalanceOf(Flat(s), t) == AccountOf(s, t) && Opened(Flat(s), t) == Flat(s)
  {
  }

  /** Thread tid's steps, with no other step between them, take the books to b. */
  ghost predicate Alone(s: World, steps: seq<Step>, tid: nat, b: Book) {
    && Feasible(s, steps)
    && (forall k :: 0 <= k < |steps| ==> !steps[k].SetBudget? && steps[k].tid == tid)
    && PointersOk(Run(s, steps)) && Flat(Run(s, steps)) == b
    && Run(s, steps).threads == s.threads[tid := Idle]
  }

  /** Thread tid's steps so far lead to s'. */
  ghost predicate Leads(s: World, steps: seq<Step>, tid: nat, s': World) {
    && Feasible(s, steps) && Run(s, steps) == s'
    && forall k :: 0 <= k < |steps| ==> !steps[k].SetBudget? && steps[k].tid == tid
  }

  lemma {:induction false} OneMoreStep(s: World, steps: seq<Step>, step: Step)
    requires Feasible(s, steps) && Enabled(Run(s, steps), step)
    ensures Feasible(s, steps + [step]) && Run(s, steps + [step]) == Apply(Run(s, steps), step)
    decreases |steps|
  {
    if steps == [] {
      assert ([] + [step])[1..] == [];
    } else {
      assert (steps + [step])[1..] == steps[1..] + [step];
      OneMoreStep(Apply(s, steps[0]), steps[1..], step);
    }
  }

  lemma LeadsOn(s: World, steps: seq<Step>, tid: nat, s': World, step: Step)
    requires Leads(s, steps, tid, s') && !step.SetBudget? && step.tid == tid && Enabled(s', step)
    ensures Leads(s, steps + [step], tid, Apply(s', step))
  {
    OneMoreStep(s, steps, step);
  }

  /** getAccount alone: the job ends up holding the tenant's pointer, with the account there. */
  lemma AccountFound(s: World, tid: nat, job: Job) returns (steps: seq<Step>)
    requires PointersOk(s) && (tid in s.threads ==> s.threads[tid] == Idle) && Entry(Looking(job))
    ensures var s' := Alloc(s, job.Tenant());
            && job.Tenant() in s'.accounts
            && Leads(s, steps, tid, Goto(s', tid, Committing(job, s'.accounts[job.Tenant()])))
  {
    var go, s1 := Act(tid, 0.0, "", []), Goto(s, tid, Looking(job));
    steps := [Begin(tid, Looking(job)), go];
    BeginAndLook(s, tid, job, go);
    if job.Tenant() in s.accounts {
      assert Apply(s1, go) == Goto(s, tid, Committing(job, s.accounts[job.Tenant()]));
    } else {
      var s2 := Goto(s, tid, Creating(job));
      assert Apply(s1, go) == s2;
      LeadsOn(s, steps, tid, s2, go);
      CreateMoves(s, tid, job, go);
      steps := steps + [go];
    }
  }

  lemma BeginAndLook(s: World, tid: nat, job: Job, go: Step)
    requires (tid in s.threads ==> s.threads[tid] == Idle) && Entry(Looking(job)) && go.Act? && go.tid == tid
    ensures var s1 := Goto(s, tid, Looking(job));
            Enabled(s1, go) && Leads(s, [Begin(tid, Looking(job)), go], tid, Apply(s1, go))
  {
    var s1, first := Goto(s, tid, Looking(job)), Begin(tid, Looking(job));
    assert Leads(s, [], tid, s);
    LeadsOn(s, [], tid, s, first);
    LeadsOn(s, [] + [first], tid, s1, go);
    assert [] + [first] + [go] == [first, go];
  }

  lemma CreateMoves(s: World, tid: nat, job: Job, go: Step)
    requires job.Tenant() !in s.accounts && go.Act? && go.tid == tid
    ensures var s2, s' := Goto(s, tid, Creating(job)), Alloc(s, job.Tenant());
            Enabled(s2, go) && Apply(s2, go) == Goto(s', tid, Committing(job, s'.accounts[job.Tenant()]))
  {
    var s' := Alloc(s, job.Tenant());
    assert Goto(Goto(s', tid, Creating(job)), tid, Committing(job, s'.accounts[job.Tenant()]))
        == Goto(s', tid, Committing(job, s'.accounts[job.Tenant()]));
  }

  lemma AllocOpens(s: World, t: string)
    requires PointersOk(s)
    ensures PointersOk(Alloc(s, t)) && Flat(Alloc(s, t)) == Opened(Flat(s), t)
    ensures BalanceOf(Flat(s), t) == AccountOf(s, t) == AccountOf(Alloc(s, t), t)
  {
    var s' := Alloc(s, t);
    if t !in s.accounts {
      FreshPointerOk(s, t);
      assert Flat(s').accounts == Opened(Flat(s), t).accounts;
    }
  }

  /** Writing through one tenant's pointer changes that tenant's balance only. */
  lemma CellWriteInBook(s: World, t: string, v: Account)
    requires PointersOk(s) && t in s.accounts
    ensures PointersOk(s.(cells := s.cells[s.accounts[t] := v]))
    ensures Flat(s.(cells := s.cells[s.accounts[t] := v])) == Flat(s).(accounts := Flat(s).accounts[t := v])
  {
    var m, m' := Flat(s).accounts, Flat(s.(cells := s.cells[s.accounts[t] := v])).accounts;
    forall u | u in m ensures m'[u] == m[t := v][u] {
    }
    assert m' == m[t := v];
  }

  function Held(s: World, t: string, amount: int): World
    requires t in s.accounts && s.accounts[t] < |s.cells|
  {
    var a := s.accounts[t];
    s.(cells := s.cells[a := s.cells[a].(reserved := s.cells[a].reserved + amount)])
  }

  lemma HeldInBook(s: World, t: string, amount: int)
    requires PointersOk(s) && t in s.accounts
    ensures PointersOk(Held(s, t, amount))
    ensures var a := BalanceOf(Flat(s), t);
            Flat(Held(s, t, amount)) == Flat(s).(accounts := Flat(s).accounts[t := a.(reserved := a.reserved + amount)])
  {
    var v := s.cells[s.accounts[t]];
    CellWriteInBook(s, t, v.(reserved := v.reserved + amount));
    assert BalanceOf(Flat(s), t) == v;
  }

  lemma FilingFields(b: Book, r: Reservation)
    ensures var a := BalanceOf(b, r.tenant);
            Filing(b, r) == b.(accounts := b.accounts[r.tenant := a.(reserved := a.reserved + r.amount)])
                             .(issued := b.issued + 1, reservations := b.reservations[r.id := r])
  {
  }

  /** The grant, the id draw and the insert together file the reservation. */
  lemma GrantFiles(s: World, r: Reservation, threads: map<nat, Pc>)
    requires PointersOk(s) && r.tenant in s.accounts
    ensures var s' := Held(s, r.tenant, r.amount).(issued := s.issued + 1, reservations := s.reservations[r.id := r], threads := threads);
            PointersOk(s') && Flat(s') == Filing(Flat(s), r)
  {
    HeldInBook(s, r.tenant, r.amount);
    FilingFields(Flat(s), r);
    RestOfBook(Held(s, r.tenant, r.amount), s.issued + 1, s.reservations[r.id := r], threads);
  }

  lemma RestOfBook(s: World, issued: nat, reservations: map<string, Reservation>, threads: map<nat, Pc>)
    requires PointersOk(s)
    ensures var s' := s.(issued := issued, reservations := reservations, threads := threads);
            PointersOk(s') && Flat(s') == Flat(s).(issued := issued, reservations := reservations)
  {
    var s' := s.(issued := issued, reservations := reservations, threads := threads);
    assert Flat(s').accounts == Flat(s).accounts;
  }

  lemma GrantMoves(s: World, tid: nat, t: string, amount: int, ttl: real, go: Step)
    requires PointersOk(s) && t in s.accounts && Available(AccountOf(s, t)) >= amount
    requires tid in s.threads && s.threads[tid] == Committing(ReserveJob(t, amount, ttl), s.accounts[t])
    requires go.Act? && go.tid == tid
    ensures Enabled(s, go) && Apply(s, go) == Goto(Held(s, t, amount), tid, Stamping(t, amount, ttl))
  {
  }

  /** The id draw and the insert, with nothing between them. */
  lemma FilingMoves(s: World, tid: nat, now: real, stamp: string, go: Step)
    requires tid in s.threads && s.threads[tid].Stamping? && go.Act? && go.tid == tid && go.now == now && go.stamp == stamp
    ensures var pc := s.threads[tid];
            var r := Fresh(Id(stamp, s.issued + 1), pc.tenant, pc.amount, now, pc.ttl);
            && Enabled(s, go) && Apply(s, go) == Stamp(s, tid, r)
            && Enabled(Stamp(s, tid, r), go) && Apply(Stamp(s, tid, r), go) == Insert(Stamp(s, tid, r), tid, r)
  {
  }

  lemma ThreeSteps(s: World, tid: nat, go: Step, s1: World, s2: World, end: World)
    requires !go.SetBudget? && go.tid == tid
    requires Enabled(s, go) && Apply(s, go) == s1 && Enabled(s1, go) && Apply(s1, go) == s2
    requires Enabled(s2, go) && Apply(s2, go) == end
    ensures Leads(s, [] + [go] + [go] + [go], tid, end)
  {
    assert Leads(s, [], tid, s);
    LeadsOn(s, [], tid, s, go);
    LeadsOn(s, [] + [go], tid, s1, go);
    LeadsOn(s, [] + [go] + [go], tid, s2, go);
  }

  /** From the commit on, when the account covers the amount. */
  lemma GrantAloneFiles(s: World, tid: nat, job: Job, go: Step, r: Reservation) returns (steps: seq<Step>, end: World)
    requires PointersOk(s) && job.ReserveJob? && job.tenant in s.accounts && Available(AccountOf(s, job.tenant)) >= job.amount
    requires tid in s.threads && s.threads[tid] == Committing(job, s.accounts[job.tenant]) && go.Act? && go.tid == tid
    requires r == Fresh(Id(go.stamp, s.issued + 1), job.tenant, job.amount, go.now, job.ttl)
    ensures Leads(s, steps, tid, end) && PointersOk(end) && end.threads == s.threads[tid := Idle]
    ensures Flat(end) == Filing(Flat(s), r)
  {
    var s1 := Goto(Held(s, job.tenant, r.amount), tid, Stamping(job.tenant, job.amount, job.ttl));
    var s2 := Stamp(s1, tid, r);
    end := Insert(s2, tid, r);
    GrantMoves(s, tid, job.tenant, job.amount, job.ttl, go);
    FilingMoves(s1, tid, go.now, go.stamp, go);
    ThreeSteps(s, tid, go, s1, s2, end);
    steps := [] + [go] + [go] + [go];
    assert end.threads == s.threads[tid := Idle];
    GrantFiles(s, r, end.threads);
  }

  lemma {:induction false} LeadsThrough(s: World, a: seq<Step>, tid: nat, s1: World, b: seq<Step>, s2: World)
    requires Leads(s, a, tid, s1) && Leads(s1, b, tid, s2)
    ensures Leads(s, a + b, tid, s2)
    decreases |a|
  {
    if a == [] {
      assert a + b == b;
    } else {
      assert (a + b)[1..] == a[1..] + b;
      assert Leads(Apply(s, a[0]), a[1..], tid, s1);
      LeadsThrough(Apply(s, a[0]), a[1..], tid, s1, b, s2);
      assert (a + b)[0] == a[0];
      forall k | 0 <= k < |a + b| ensures !(a + b)[k].SetBudget? && (a + b)[k].tid == tid {
        assert (a + b)[k] == if k < |a| then a[k] else b[k - |a|];
      }
    }
  }

  /** Reserve opens the account first and then files, or not. */
  lemma ReserveInTwoSteps(b: Book, t: string, amount: int, ttl: real, now: real, stamp: string, r: Reservation)
    requires r == Fresh(Id(stamp, b.issued + 1), t, amount, now, ttl)
    ensures Available(BalanceOf(b, t)) >= amount ==> ReserveIn(b, t, amount, ttl, now, stamp) == Filing(Opened(b, t), r)
    ensures Available(BalanceOf(b, t)) < amount ==> ReserveIn(b, t, amount, ttl, now, stamp) == Opened(b, t)
  {
  }

  /** From the commit on, when it does not. */
  lemma RefusedAlone(s: World, tid: nat, job: Job, go: Step)
    requires PointersOk(s) && job.ReserveJob? && job.tenant in s.accounts && Available(AccountOf(s, job.tenant)) < job.amount
    requires tid in s.threads && s.threads[tid] == Committing(job, s.accounts[job.tenant]) && go.Act? && go.tid == tid
    ensures Enabled(s, go) && Apply(s, go) == Goto(s, tid, Idle)
  {
  }

  /** Thread tid is about to commit job, and otherwise the world is s1. */
  ghost predicate AtCommit(s1: World, w: World, tid: nat, job: Job) {
    && PointersOk(s1) && job.ReserveJob? && job.tenant in s1.accounts
    && w == Goto(s1, tid, Committing(job, s1.accounts[job.tenant]))
  }

  lemma GrantedAlone(s: World, before: seq<Step>, tid: nat, s1: World, w: World, job: Job, go: Step, r: Reservation)
    returns (steps: seq<Step>)
    requires Leads(s, before, tid, w) && AtCommit(s1, w, tid, job) && s1.threads == s.threads
    requires Available(AccountOf(s1, job.tenant)) >= job.amount && go.Act? && go.tid == tid
    requires r == Fresh(Id(go.stamp, s1.issued + 1), job.tenant, job.amount, go.now, job.ttl)
    ensures Alone(s, steps, tid, Filing(Flat(s1), r))
  {
    var more, end := GrantAloneFiles(w, tid, job, go, r);
    assert Flat(w) == Flat(s1);
    LeadsThrough(s, before, tid, w, more, end);
    steps := before + more;
    assert w.threads[tid := Idle] == s.threads[tid := Idle];
  }

  lemma RefusalAlone(s: World, before: seq<Step>, tid: nat, s1: World, w: World, job: Job, go: Step)
    requires Leads(s, before, tid, w) && AtCommit(s1, w, tid, job) && s1.threads == s.threads
    requires Available(AccountOf(s1, job.tenant)) < job.amount && go.Act? && go.tid == tid
    ensures Alone(s, before + [go], tid, Flat(s1))
  {
    RefusedAlone(w, tid, job, go);
    LeadsOn(s, before, tid, w, go);
    assert Goto(w, tid, Idle) == Goto(s1, tid, Idle);
    assert Flat(Goto(s1, tid, Idle)) == Flat(s1);
  }

  lemma ReadyToCommit(s: World, tid: nat, job: Job) returns (before: seq<Step>, s1: World, w: World)
    requires PointersOk(s) && (tid in s.threads ==> s.threads[tid] == Idle) && job.ReserveJob? && job.amount >= 0
    ensures Leads(s, before, tid, w) && AtCommit(s1, w, tid, job)
    ensures s1.threads == s.threads && s1.issued == s.issued && Flat(s1) == Opened(Flat(s), job.tenant)
    ensures AccountOf(s1, job.tenant) == BalanceOf(Flat(s), job.tenant)
  {
    s1 := Alloc(s, job.tenant);
    AllocOpens(s, job.tenant);
    before := AccountFound(s, tid, job);
    w := Goto(s1, tid, Committing(job, s1.accounts[job.tenant]));
  }

  lemma ReserveRuns(s: World, tid: nat, job: Job, go: Step, r: Reservation) returns (steps: seq<Step>)
    requires PointersOk(s) && (tid in s.threads ==> s.threads[tid] == Idle) && job.ReserveJob? && job.amount >= 0
    requires go.Act? && go.tid == tid
    requires r == Fresh(Id(go.stamp, s.issued + 1), job.tenant, job.amount, go.now, job.ttl)
    ensures var b, b1 := Flat(s), Opened(Flat(s), job.tenant);
            Alone(s, steps, tid, if Available(BalanceOf(b, job.tenant)) >= job.amount then Filing(b1, r) else b1)
  {
    var before, s1, w := ReadyToCommit(s, tid, job);
    if Available(AccountOf(s1, job.tenant)) >= job.amount {
      steps := GrantedAlone(s, before, tid, s1, w, job, go, r);
    } else {
      RefusalAlone(s, before, tid, s1, w, job, go);
      steps := before + [go];
    }
  }

  /** Reserve, taken apart into its critical sections and put together again, is the sequential Reserve. */
  lemma ReserveAlone(s: World, tid: nat, t: string, amount: int, ttl: real, now: real, stamp: string) returns (steps: seq<Step>)
    requires PointersOk(s) && (tid in s.threads ==> s.threads[tid] == Idle) && amount >= 0
    ensures Alone(s, steps, tid, ReserveIn(Flat(s), t, amount, ttl, now, stamp))
  {
    var r := Fresh(Id(stamp, s.issued + 1), t, amount, now, ttl);
    ReserveInTwoSteps(Flat(s), t, amount, ttl, now, stamp, r);
    steps := ReserveRuns(s, tid, ReserveJob(t, amount, ttl), Act(tid, now, stamp, []), r);
  }

  /** SetBudget is one step, and does what the whole call does. */
  lemma BudgetIsAtomic(s: World, t: string, limit: int)
    requires PointersOk(s)
    ensures PointersOk(Budget(s, t, limit)) && Flat(Budget(s, t, limit)) == Budgeted(Flat(s), t, limit)
  {
    AllocOpens(s, t);
    LimitInBook(Alloc(s, t), t, limit, Budget(s, t, limit).peak);
    BudgetedOpens(Flat(s), t, limit);
  }

  lemma LimitInBook(s: World, t: string, limit: int, peak: map<string, int>)
    requires PointersOk(s) && t in s.accounts
    ensures var a := s.accounts[t];
            var s' := s.(cells := s.cells[a := s.cells[a].(limit := limit)], peak := peak);
            && PointersOk(s')
            && Flat(s') == Flat(s).(accounts := Flat(s).accounts[t := BalanceOf(Flat(s), t).(limit := limit)])
  {
    BalanceThrough(s, t);
    var v := AccountOf(s, t).(limit := limit);
    CellWriteInBook(s, t, v);
    var s1 := s.(cells := s.cells[s.accounts[t] := v]);
    assert Flat(s1.(peak := peak)).accounts == Flat(s1).accounts;
  }

  lemma BudgetedOpens(b: Book, t: string, limit: int)
    ensures var b1 := Opened(b, t);
            Budgeted(b, t, limit) == b1.(accounts := b1.accounts[t := BalanceOf(b1, t).(limit := limit)])
  {
  }

  // ---------- an uninterrupted sweep ----------

  ghost predicate TenantsOpen(s: World) {
    forall id :: id in s.reservations ==> s.reservations[id].tenant in s.accounts
  }

  /** Closing through the tenant's pointer is the whole-call closing. */
  lemma CloseAtInBook(s: World, id: string, how: Closing, threads: map<nat, Pc>)
    requires PointersOk(s) && id in s.reservations && s.reservations[id].tenant in s.accounts
    ensures var a := s.accounts[s.reservations[id].tenant];
            var s' := CloseAt(s, a, id, how).(threads := threads);
            PointersOk(s') && Flat(s') == CloseIn(Flat(s), id, how)
  {
    var r := s.reservations[id];
    var c := Close(s.cells[s.accounts[r.tenant]], r, how);
    BalanceThrough(s, r.tenant);
    CellWriteInBook(s, r.tenant, c.account);
    RestOfBook(s.(cells := s.cells[s.accounts[r.tenant] := c.account]), s.issued, s.reservations[id := c.reservation], threads);
  }

  /** One round: the account is looked up, then the reservation is expired if it still can be. */
  lemma RoundAlone(s: World, tid: nat, targets: seq<Target>, at: real, go: Step)
    requires PointersOk(s) && targets != [] && tid in s.threads && s.threads[tid] == Looking(SweepJob(targets, at))
    requires TargetOk(s, targets[0]) && targets[0].tenant in s.accounts && go.Act? && go.tid == tid
    ensures var a := s.accounts[targets[0].tenant];
            Leads(s, [go, go], tid, Goto(CloseAt(s, a, targets[0].id, Expire), tid, SweepFrom(targets[1..], at)))
  {
    var job, a := SweepJob(targets, at), s.accounts[targets[0].tenant];
    var s1 := Goto(s, tid, Committing(job, a));
    assert Leads(s, [], tid, s) && Apply(s, go) == s1;
    LeadsOn(s, [], tid, s, go);
    LeadsOn(s, [] + [go], tid, s1, go);
    assert [] + [go] + [go] == [go, go];
    assert Apply(s1, go) == Commit(s1, tid, job, a);
    CommitSweeps(s, tid, targets, at, a);
  }

  lemma CommitSweeps(s: World, tid: nat, targets: seq<Target>, at: real, a: nat)
    requires targets != [] && a < |s.cells| && targets[0].id in s.reservations
    ensures var job := SweepJob(targets, at);
            Commit(Goto(s, tid, Committing(job, a)), tid, job, a)
              == Goto(CloseAt(s, a, targets[0].id, Expire), tid, SweepFrom(targets[1..], at))
  {
    var pc := Committing(SweepJob(targets, at), a);
    assert s.threads[tid := pc][tid := SweepFrom(targets[1..], at)] == s.threads[tid := SweepFrom(targets[1..], at)];
  }

  /** The targets that were RESERVED in b. */
  function StillHeld(b: Book, targets: seq<Target>): set<string> {
    set x | x in targets && x.id in b.reservations && b.reservations[x.id].state == RESERVED :: x.id
  }

  lemma ExpireNoOp(b: Book, id: string)
    requires id in b.reservations && b.reservations[id].state != RESERVED && b.reservations[id].tenant in b.accounts
    ensures CloseIn(b, id, Expire) == b
  {
    assert CloseIn(b, id, Expire).accounts == b.accounts && CloseIn(b, id, Expire).reservations == b.reservations;
  }

  /** What one round does to the books, started from b. */
  lemma RoundPartly(b: Book, b1: Book, done: set<string>, id: string)
    requires Partly(b, b1, done) && id in b.reservations && b.reservations[id].tenant in b1.accounts
    ensures Partly(b, CloseIn(b1, id, Expire), if b.reservations[id].state == RESERVED then done + {id} else done)
  {
    if b1.reservations[id].state == RESERVED {
      PartlyStep(b, b1, done, id);
    } else {
      ExpireNoOp(b1, id);
      assert id in done ==> done + {id} == done;
    }
  }

  lemma OneRound(b: Book, s: World, tid: nat, targets: seq<Target>, at: real, done: set<string>, go: Step)
    returns (s1: World, done1: set<string>)
    requires PointersOk(s) && TenantsOpen(s) && Partly(b, Flat(s), done) && go.Act? && go.tid == tid && targets != []
    requires tid in s.threads && s.threads[tid] == SweepFrom(targets, at) && forall x :: x in targets ==> TargetOk(s, x)
    ensures Leads(s, [go, go], tid, s1) && PointersOk(s1) && TenantsOpen(s1) && Partly(b, Flat(s1), done1)
    ensures s1.threads == s.threads[tid := SweepFrom(targets[1..], at)] && forall x :: x in targets[1..] ==> TargetOk(s1, x)
    ensures done1 + StillHeld(b, targets[1..]) == done + StillHeld(b, targets)
  {
    var id := targets[0].id;
    assert TargetOk(s, targets[0]);
    s1 := Goto(CloseAt(s, s.accounts[targets[0].tenant], id, Expire), tid, SweepFrom(targets[1..], at));
    RoundAlone(s, tid, targets, at, go);
    CloseAtInBook(s, id, Expire, s1.threads);
    RoundPartly(b, Flat(s), done, id);
    done1 := if b.reservations[id].state == RESERVED then done + {id} else done;
    RoundKeepsTargets(s, s.accounts[targets[0].tenant], id, s1.threads, targets[1..]);
    HeldSplits(b, targets, done);
  }

  /** All rounds, one after another. */
  lemma {:induction false} RoundsAlone(b: Book, s: World, tid: nat, targets: seq<Target>, at: real, done: set<string>, go: Step)
    returns (steps: seq<Step>, end: World)
    requires PointersOk(s) && TenantsOpen(s) && Partly(b, Flat(s), done) && go.Act? && go.tid == tid
    requires tid in s.threads && s.threads[tid] == SweepFrom(targets, at) && forall x :: x in targets ==> TargetOk(s, x)
    ensures Leads(s, steps, tid, end) && PointersOk(end) && end.threads == s.threads[tid := Idle]
    ensures Partly(b, Flat(end), done + StillHeld(b, targets))
    decreases |targets|
  {
    if targets == [] {
      steps, end := [], s;
      assert s.threads[tid := Idle] == s.threads && done + StillHeld(b, targets) == done;
    } else {
      var s1, done1 := OneRound(b, s, tid, targets, at, done, go);
      var more;
      more, end := RoundsAlone(b, s1, tid, targets[1..], at, done1, go);
      LeadsThrough(s, [go, go], tid, s1, more, end);
      steps := [go, go] + more;
    }
  }

  lemma HeldSplits(b: Book, targets: seq<Target>, done: set<string>)
    requires targets != [] && targets[0].id in b.reservations
    ensures var id := targets[0].id;
            (if b.reservations[id].state == RESERVED then done + {id} else done) + StillHeld(b, targets[1..]) == done + StillHeld(b, targets)
  {
    assert targets == [targets[0]] + targets[1..];
    forall x | x in targets ensures x == targets[0] || x in targets[1..] {
    }
  }

  lemma RoundKeepsTargets(s: World, a: nat, id: string, threads: map<nat, Pc>, targets: seq<Target>)
    requires a < |s.cells| && id in s.reservations && TenantsOpen(s) && forall x :: x in targets ==> TargetOk(s, x)
    ensures var s' := CloseAt(s, a, id, Expire).(threads := threads);
            TenantsOpen(s') && forall x :: x in targets ==> TargetOk(s', x)
  {
  }

  /** ExpireStale, taken apart into its scan and its rounds and put together again, is the whole-call sweep, whatever the order. */
  lemma SweepAlone(s: World, tid: nat, now: real, order: seq<Target>) returns (steps: seq<Step>, end: World)
    requires Inv(s) && (tid in s.threads ==> s.threads[tid] == Idle) && Collects(s, order, now)
    ensures Leads(s, steps, tid, end) && PointersOk(end) && end.threads == s.threads[tid := Idle]
    ensures SweptTo(Flat(s), Flat(end), now)
  {
    var go := Act(tid, now, "", order);
    var s2 := ScanAlone(s, tid, now, order);
    var rounds;
    rounds, end := RoundsAlone(Flat(s), s2, tid, order, now, {}, go);
    LeadsThrough(s, [Begin(tid, Scanning), go], tid, s2, rounds, end);
    steps := [Begin(tid, Scanning), go] + rounds;
    CollectedAll(s, end, order, now);
  }

  lemma ScanAlone(s: World, tid: nat, now: real, order: seq<Target>) returns (s2: World)
    requires Inv(s) && (tid in s.threads ==> s.threads[tid] == Idle) && Collects(s, order, now)
    ensures Leads(s, [Begin(tid, Scanning), Act(tid, now, "", order)], tid, s2)
    ensures PointersOk(s2) && TenantsOpen(s2) && Partly(Flat(s), Flat(s2), {})
    ensures s2.threads == s.threads[tid := SweepFrom(order, now)] && forall x :: x in order ==> TargetOk(s2, x)
  {
    s2 := Goto(Goto(s, tid, Scanning), tid, SweepFrom(order, now));
    TenantsOpenIn(s);
    ScanMoves(s, tid, now, order);
    PartlyBegins(s, s2);
    OverdueAreTargets(s, s2, order, now);
  }

  lemma OverdueAreTargets(s: World, s2: World, order: seq<Target>, now: real)
    requires Collects(s, order, now) && s2.reservations == s.reservations
    ensures forall x :: x in order ==> TargetOk(s2, x)
  {
    assert forall x :: x in order ==> Overdue(s, x, now);
  }

  lemma CollectedAll(s: World, end: World, order: seq<Target>, now: real)
    requires PointersOk(s) && PointersOk(end) && Collects(s, order, now) && Partly(Flat(s), Flat(end), {} + StillHeld(Flat(s), order))
    ensures SweptTo(Flat(s), Flat(end), now)
  {
    StaleCollected(s, order, now);
    PartlyAll(Flat(s), Flat(end), now, {} + StillHeld(Flat(s), order));
  }

  lemma TenantsOpenIn(s: World)
    requires Inv(s)
    ensures TenantsOpen(s)
  {
    assert forall id :: id in s.reservations ==> FiledOk(s, id);
  }

  lemma ScanMoves(s: World, tid: nat, now: real, order: seq<Target>)
    requires (tid in s.threads ==> s.threads[tid] == Idle) && Collects(s, order, now)
    ensures Leads(s, [Begin(tid, Scanning), Act(tid, now, "", order)], tid, Goto(Goto(s, tid, Scanning), tid, SweepFrom(order, now)))
  {
    var s1, first, go := Goto(s, tid, Scanning), Begin(tid, Scanning), Act(tid, now, "", order);
    assert forall x :: Overdue(s1, x, now) == Overdue(s, x, now) && Stale(s1, x, now) == Stale(s, x, now);
    assert Leads(s, [], tid, s);
    LeadsOn(s, [], tid, s, first);
    LeadsOn(s, [] + [first], tid, s1, go);
    assert [] + [first] + [go] == [first, go];
  }

  lemma PartlyBegins(s: World, s2: World)
    requires PointersOk(s) && s2 == s.(threads := s2.threads)
    ensures PointersOk(s2) && Partly(Flat(s), Flat(s2), {})
  {
    RestOfBook(s, s.issued, s.reservations, s2.threads);
  }

  lemma StaleCollected(s: World, order: seq<Target>, now: real)
    requires PointersOk(s) && Collects(s, order, now)
    ensures {} + StillHeld(Flat(s), order) == set id | id in s.reservations && IsStale(s.reservations[id], now)
  {
    forall id | id in s.reservations && IsStale(s.reservations[id], now) ensures id in StillHeld(Flat(s), order) {
      var x := Target(id, s.reservations[id].tenant);
      assert Stale(s, x, now) && x in order;
    }
    forall x | x in order ensures x.id in s.reservations && s.reservations[x.id].expiresAt < now {
      assert Overdue(s, x, now);
    }
  }
}

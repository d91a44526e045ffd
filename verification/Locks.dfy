/**
 * The locking of the reservation manager (internal/reservation/reservation.go): the manager's
 * read-write lock, one lock per account and the id lock. Each operation is the list of lock calls
 * it makes on one path through its body; any number of threads run any operations one after another.
 */
module Locks {
  import opened Totals

  datatype Lock = Mu | AccountLock(tenant: string) | IdMu

  datatype Call = RLock | RUnlock | Acquire(lock: Lock) | Free(lock: Lock)

  /** The lock order the code keeps: m.mu first, account locks next, the id lock alone. */
  function Rank(l: Lock): nat {
    match l
    case Mu => 0
    case AccountLock(_) => 1
    case IdMu => 2
  }

  // ---------- what each operation does ----------

  /** One account visit: getAccount (a second look under the write lock after a miss), then the account's section. */
  datatype Visit = Visit(tenant: string, miss: bool)

  datatype Operation =
    | SetBudget(tenant: string)
    | Exposure(visit: Visit)
    | Reserve(visit: Visit, granted: bool)
    | Close(found: bool, visit: Visit)  // Release and Reconcile
    | ExpireStale(visits: seq<Visit>)
    | Get

  function GetAccount(v: Visit): seq<Call> {
    if v.miss then [RLock, RUnlock, Acquire(Mu), Free(Mu)] else [RLock, RUnlock]
  }

  function VisitCalls(v: Visit): seq<Call> {
    GetAccount(v) + [Acquire(AccountLock(v.tenant)), Free(AccountLock(v.tenant))]
  }

  function SweepCalls(vs: seq<Visit>): seq<Call> {
    if vs == [] then [] else VisitCalls(vs[0]) + SweepCalls(vs[1..])
  }

  function Calls(op: Operation): seq<Call> {
    match op
    case SetBudget(t) => [Acquire(Mu), Acquire(AccountLock(t)), Free(AccountLock(t)), Free(Mu)]
    case Exposure(v) => VisitCalls(v)
    case Reserve(v, granted) =>
      VisitCalls(v) + if granted then [Acquire(IdMu), Free(IdMu), Acquire(Mu), Free(Mu)] else []
    case Close(found, v) => [Acquire(Mu), Free(Mu)] + if found then VisitCalls(v) else []
    case ExpireStale(vs) => [Acquire(Mu), Free(Mu)] + SweepCalls(vs)
    case Get => [RLock, RUnlock]
  }

  // ---------- threads and steps ----------

  datatype Thread = Thread(todo: seq<Call>, reading: bool, held: set<Lock>)

  datatype Step = Start(tid: nat, op: Operation) | Go(tid: nat)

  predicate Taken(w: map<nat, Thread>, l: Lock) {
    exists i :: i in w && l in w[i].held
  }

  predicate Read(w: map<nat, Thread>) {
    exists i :: i in w && w[i].reading
  }

  predicate WriterWaits(w: map<nat, Thread>) {
    exists i :: i in w && w[i].todo != [] && w[i].todo[0] == Acquire(Mu)
  }

  /** May thread i take its next step? `strict` also holds readers back behind a waiting writer, as Go may. */
  predicate CanGo(w: map<nat, Thread>, i: nat, strict: bool) {
    && i in w && w[i].todo != []
    && match w[i].todo[0]
       case RLock => !Taken(w, Mu) && (strict ==> !WriterWaits(w))
       case RUnlock => true
       case Free(_) => true
       case Acquire(l) => !Taken(w, l) && (l == Mu ==> !Read(w))
  }

  function After(t: Thread): Thread
    requires t.todo != []
  {
    var rest := t.todo[1..];
    match t.todo[0]
    case RLock => Thread(rest, true, t.held)
    case RUnlock => Thread(rest, false, t.held)
    case Acquire(l) => Thread(rest, t.reading, t.held + {l})
    case Free(l) => Thread(rest, t.reading, t.held - {l})
  }

  predicate Enabled(w: map<nat, Thread>, s: Step) {
    match s
    case Start(i, op) => i in w ==> w[i].todo == []
    case Go(i) => CanGo(w, i, false)
  }

  function Apply(w: map<nat, Thread>, s: Step): map<nat, Thread>
    requires Enabled(w, s)
  {
    match s
    case Start(i, op) =>
      var t := if i in w then w[i] else Thread([], false, {});
      w[i := t.(todo := Calls(op))]
    case Go(i) => w[i := After(w[i])]
  }

  ghost predicate Feasible(w: map<nat, Thread>, steps: seq<Step>)
    decreases |steps|
  {
    steps == [] || (Enabled(w, steps[0]) && Feasible(Apply(w, steps[0]), steps[1..]))
  }

  ghost function Run(w: map<nat, Thread>, steps: seq<Step>): map<nat, Thread>
    requires Feasible(w, steps)
    decreases |steps|
  {
    if steps == [] then w else Run(Apply(w, steps[0]), steps[1..])
  }

  // ---------- the discipline ----------

  /** Locks are only taken upwards in rank, never under the read lock, and all are given back. */
  ghost predicate Disciplined(todo: seq<Call>, reading: bool, held: set<Lock>)
    decreases |todo|
  {
    if todo == [] then !reading && held == {}
    else match todo[0]
      case RLock => !reading && held == {} && Disciplined(todo[1..], true, {})
      case RUnlock => reading && held == {} && Disciplined(todo[1..], false, {})
      case Acquire(l) =>
        && !reading && (forall h :: h in held ==> Rank(h) < Rank(l))
        && Disciplined(todo[1..], false, held + {l})
      case Free(l) => !reading && l in held && Disciplined(todo[1..], false, held - {l})
  }

  lemma {:induction false} DisciplinedConcat(a: seq<Call>, b: seq<Call>, reading: bool, held: set<Lock>)
    requires Disciplined(a, reading, held) && Disciplined(b, false, {})
    ensures Disciplined(a + b, reading, held)
    decreases |a|
  {
    if a == [] {
      assert a + b == b;
    } else {
      assert (a + b)[1..] == a[1..] + b;
      var t := After(Thread(a, reading, held));
      DisciplinedConcat(a[1..], b, t.reading, t.held);
    }
  }

  lemma LockAndFree(l: Lock)
    ensures Disciplined([Acquire(l), Free(l)], false, {})
  {
    var s := [Acquire(l), Free(l)];
    assert s[1..] == [Free(l)] && s[1..][1..] == [];
    assert {l} - {l} == {};
    assert Disciplined(s[1..][1..], false, {l} - {l});
  }

  lemma ReadAndFree()
    ensures Disciplined([RLock, RUnlock], false, {})
  {
    var s := [RLock, RUnlock];
    assert s[1..] == [RUnlock] && s[1..][1..] == [];
  }

  lemma VisitDisciplined(v: Visit)
    ensures Disciplined(VisitCalls(v), false, {})
  {
    ReadAndFree();
    LockAndFree(Mu);
    LockAndFree(AccountLock(v.tenant));
    DisciplinedConcat([RLock, RUnlock], [Acquire(Mu), Free(Mu)], false, {});
    assert [RLock, RUnlock] + [Acquire(Mu), Free(Mu)] == [RLock, RUnlock, Acquire(Mu), Free(Mu)];
    DisciplinedConcat(GetAccount(v), [Acquire(AccountLock(v.tenant)), Free(AccountLock(v.tenant))], false, {});
  }

  lemma {:induction false} SweepDisciplined(vs: seq<Visit>)
    ensures Disciplined(SweepCalls(vs), false, {})
    decreases |vs|
  {
    if vs != [] {
      VisitDisciplined(vs[0]);
      SweepDisciplined(vs[1..]);
      DisciplinedConcat(VisitCalls(vs[0]), SweepCalls(vs[1..]), false, {});
    }
  }

  lemma SetBudgetDisciplined(t: string)
    ensures Disciplined([Acquire(Mu), Acquire(AccountLock(t)), Free(AccountLock(t)), Free(Mu)], false, {})
  {
    var l := AccountLock(t);
    var s3 := [Free(Mu)];
    var s2 := [Free(l), Free(Mu)];
    var s1 := [Acquire(l), Free(l), Free(Mu)];
    var s0 := [Acquire(Mu), Acquire(l), Free(l), Free(Mu)];
    assert s0[1..] == s1 && s1[1..] == s2 && s2[1..] == s3 && s3[1..] == [];
    assert {Mu} - {Mu} == {} && {Mu} + {l} - {l} == {Mu} && {} + {Mu} == {Mu};
    assert Disciplined(s3, false, {Mu});
    assert Disciplined(s2, false, {Mu} + {l});
    assert Disciplined(s1, false, {Mu});
  }

  /** Every operation of the manager keeps the discipline, on every path. */
  lemma OperationsAreDisciplined(op: Operation)
    ensures Disciplined(Calls(op), false, {})
  {
    LockAndFree(Mu);
    LockAndFree(IdMu);
    ReadAndFree();
    match op
    case SetBudget(t) => SetBudgetDisciplined(t);
    case Exposure(v) => VisitDisciplined(v);
    case Reserve(v, granted) =>
      VisitDisciplined(v);
      DisciplinedConcat([Acquire(IdMu), Free(IdMu)], [Acquire(Mu), Free(Mu)], false, {});
      assert [Acquire(IdMu), Free(IdMu)] + [Acquire(Mu), Free(Mu)] == [Acquire(IdMu), Free(IdMu), Acquire(Mu), Free(Mu)];
      var tail := if granted then [Acquire(IdMu), Free(IdMu), Acquire(Mu), Free(Mu)] else [];
      DisciplinedConcat(VisitCalls(v), tail, false, {});
    case Close(found, v) =>
      VisitDisciplined(v);
      DisciplinedConcat([Acquire(Mu), Free(Mu)], if found then VisitCalls(v) else [], false, {});
    case ExpireStale(vs) =>
      SweepDisciplined(vs);
      DisciplinedConcat([Acquire(Mu), Free(Mu)], SweepCalls(vs), false, {});
    case Get =>
  }

  ghost predicate Inv(w: map<nat, Thread>) {
    forall i :: i in w ==> Disciplined(w[i].todo, w[i].reading, w[i].held)
  }

  lemma StepKeepsInv(w: map<nat, Thread>, s: Step)
    requires Inv(w) && Enabled(w, s)
    ensures Inv(Apply(w, s))
  {
    match s
    case Start(i, op) => OperationsAreDisciplined(op);
    case Go(i) => assert Disciplined(w[i].todo, w[i].reading, w[i].held);
  }

  lemma {:induction false} RunKeepsInv(w: map<nat, Thread>, steps: seq<Step>)
    requires Inv(w) && Feasible(w, steps)
    ensures Inv(Run(w, steps))
    decreases |steps|
  {
    if steps != [] {
      StepKeepsInv(w, steps[0]);
      RunKeepsInv(Apply(w, steps[0]), steps[1..]);
    }
  }

  /** No two threads hold the same lock, and no reader is inside while the write lock is held. */
  ghost predicate Exclusive(w: map<nat, Thread>) {
    forall i, j :: i in w && j in w && i != j ==>
      w[i].held !! w[j].held && (Mu in w[i].held ==> !w[j].reading)
  }

  lemma {:induction false} MutualExclusion(w: map<nat, Thread>, steps: seq<Step>)
    requires Inv(w) && Exclusive(w) && Feasible(w, steps)
    ensures Exclusive(Run(w, steps))
    decreases |steps|
  {
    if steps != [] {
      StepKeepsInv(w, steps[0]);
      if steps[0].Go? {
        GoKeepsExclusion(w, steps[0].tid);
      }
      MutualExclusion(Apply(w, steps[0]), steps[1..]);
    }
  }

  lemma GoKeepsExclusion(w: map<nat, Thread>, i: nat)
    requires Exclusive(w) && CanGo(w, i, false)
    ensures Exclusive(w[i := After(w[i])])
  {
    var w1 := w[i := After(w[i])];
    forall j | j in w && j != i
      ensures w1[i].held !! w1[j].held
      ensures (Mu in w1[i].held ==> !w1[j].reading) && (Mu in w1[j].held ==> !w1[i].reading)
    {
      assert w[i].held !! w[j].held;
    }
  }

  // ---------- no deadlock ----------

  /** A thread that holds a lock, when nobody holds one of higher rank, can go on. */
  lemma HolderGoes(w: map<nat, Thread>, i: nat, h: Lock)
    requires Inv(w) && i in w && h in w[i].held
    requires forall l :: Rank(l) > Rank(h) ==> !Taken(w, l)
    ensures CanGo(w, i, true)
  {
    assert Disciplined(w[i].todo, w[i].reading, w[i].held);
  }

  lemma ReaderGoes(w: map<nat, Thread>, i: nat)
    requires Inv(w) && i in w && w[i].reading
    ensures CanGo(w, i, true)
  {
    assert Disciplined(w[i].todo, w[i].reading, w[i].held);
  }

  /** With nothing held, a waiting writer goes, and otherwise any thread does. */
  lemma FreeWorldGoes(w: map<nat, Thread>, i: nat)
    requires Inv(w) && i in w && w[i].todo != []
    requires !Read(w) && forall l :: !Taken(w, l)
    ensures exists j :: CanGo(w, j, true)
  {
    if WriterWaits(w) {
      var j :| j in w && w[j].todo != [] && w[j].todo[0] == Acquire(Mu);
      assert CanGo(w, j, true);
    } else {
      assert Disciplined(w[i].todo, w[i].reading, w[i].held);
      assert CanGo(w, i, true);
    }
  }

  lemma SomeoneGoes(w: map<nat, Thread>, i: nat)
    requires Inv(w) && i in w && w[i].todo != []
    ensures exists j :: CanGo(w, j, true)
  {
    if Taken(w, IdMu) {
      var j :| j in w && IdMu in w[j].held;
      HolderGoes(w, j, IdMu);
    } else if t :| Taken(w, AccountLock(t)) {
      var j :| j in w && AccountLock(t) in w[j].held;
      HolderGoes(w, j, AccountLock(t));
    } else if Taken(w, Mu) {
      var j :| j in w && Mu in w[j].held;
      forall l | Rank(l) > Rank(Mu) ensures !Taken(w, l) {
        assert l == IdMu || l == AccountLock(l.tenant);
      }
      HolderGoes(w, j, Mu);
    } else if Read(w) {
      var j :| j in w && w[j].reading;
      ReaderGoes(w, j);
    } else {
      forall l ensures !Taken(w, l) {
        assert l == Mu || l == IdMu || l == AccountLock(l.tenant);
      }
      FreeWorldGoes(w, i);
    }
  }

  /**
   * No reachable state is deadlocked: however many threads run whichever operations, while one of them is
   * unfinished some thread can take its next step, even when readers queue behind a waiting writer.
   */
  lemma NoDeadlock(steps: seq<Step>, i: nat)
    requires Feasible(map[], steps)
    requires i in Run(map[], steps) && Run(map[], steps)[i].todo != []
    ensures exists j :: CanGo(Run(map[], steps), j, true)
  {
    RunKeepsInv(map[], steps);
    SomeoneGoes(Run(map[], steps), i);
  }

  // ---------- every schedule finishes ----------

  function CallsLeft(): Thread -> int {
    (t: Thread) => |t.todo|
  }

  ghost predicate OnlyGo(steps: seq<Step>) {
    forall k :: 0 <= k < |steps| ==> steps[k].Go?
  }

  predicate Done(w: map<nat, Thread>) {
    forall i :: i in w ==> w[i].todo == []
  }

  lemma {:induction false} StepsUseUpCalls(w: map<nat, Thread>, steps: seq<Step>)
    requires Feasible(w, steps) && OnlyGo(steps)
    ensures Total(Run(w, steps), CallsLeft()) == Total(w, CallsLeft()) - |steps|
    decreases |steps|
  {
    if steps != [] {
      var i := steps[0].tid;
      Put(w, i, After(w[i]), CallsLeft());
      StepsUseUpCalls(Apply(w, steps[0]), steps[1..]);
    }
  }

  lemma NoneLeftIsDone(w: map<nat, Thread>)
    ensures Total(w, CallsLeft()) >= 0
    ensures Total(w, CallsLeft()) == 0 <==> Done(w)
  {
    NonNegative(w, CallsLeft());
    if Done(w) {
      Zero(w, CallsLeft());
    } else {
      var i :| i in w && w[i].todo != [];
      Split(w, i, CallsLeft());
      NonNegative(w - {i}, CallsLeft());
    }
  }

  /**
   * From any reachable state, when no new operations start, every schedule can only go on until all operations
   * are finished: it stops exactly when every thread is done, after as many steps as there were lock calls left.
   */
  lemma EveryScheduleFinishes(w: map<nat, Thread>, steps: seq<Step>)
    requires Inv(w) && Feasible(w, steps) && OnlyGo(steps)
    ensures |steps| <= Total(w, CallsLeft())
    ensures |steps| == Total(w, CallsLeft()) <==> Done(Run(w, steps))
    ensures Done(Run(w, steps)) <==> forall j :: !CanGo(Run(w, steps), j, true)
  {
    var end := Run(w, steps);
    RunKeepsInv(w, steps);
    StepsUseUpCalls(w, steps);
    NoneLeftIsDone(end);
    if !Done(end) {
      var i :| i in end && end[i].todo != [];
      SomeoneGoes(end, i);
    }
  }
}

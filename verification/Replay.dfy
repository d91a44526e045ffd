/** What a reader of the log learns: the replay theorems over whole runs, and one request at a time. */
module Replay {
  import opened Books
  import opened Decisions
  import opened Digits
  import opened Ledger
  import opened Pipeline
  import opened PipelineRuns
  import opened Pricing
  import opened Scoring
  import opened Totals

  /** A gateway that has handled nothing yet; budgets and rates may already be set. */
  ghost predicate Start(h: House) {
    && h.book.reservations == map[] && h.book.issued == 0 && h.log == []
    && SaneRates(h.rates)
    && forall t :: BalanceOf(h.book, t).reserved == 0 && BalanceOf(h.book, t).settled == 0
  }

  lemma StartInv(h: House)
    requires Start(h)
    ensures Inv(World(h, map[]))
  {
    var w := World(h, map[]);
    forall t ensures BalanceKept(h.book, t) && TenantAt(w, t) {
      Zero(h.book.reservations, HeldBy(t));
      Zero(h.book.reservations, SettledBy(t));
    }
  }

  /** No thread has an event left to append. */
  ghost predicate AllAppended(w: World) {
    forall i :: i in w.flights ==> w.flights[i].pending == []
  }

  /** Over every run: log and account differ by exactly the events not yet appended and the unlogged expiries. */
  lemma ReplayOverRuns(p: Policy, h: House, steps: seq<Step>, t: string)
    requires PolicyOk(p) && Start(h) && SaneSteps(steps) && IdsLast(p, World(h, map[]), steps)
    ensures var w := Run(p, World(h, map[]), steps);
            var a, log := BalanceOf(w.house.book, t), ForTenant(w.house.log, t);
            && Outstanding(log, {}) == a.reserved + Total(LateIn(w, t), AmountOf()) - Total(EarlyIn(w, t), AmountOf())
            && Spent(log) == a.settled - Total(UnpaidIn(w, t), ActualOf())
            && Accounted(w, t)
  {
    StartInv(h);
    RunKeepsInv(p, World(h, map[]), steps);
    ReplayUpToPending(Run(p, World(h, map[]), steps), t);
  }

  // ---------- at rest ----------

  /** Reservations of t that expired while the log shows them open. */
  ghost function Unlogged(w: World, t: string): map<string, Reservation> {
    map x | x in w.house.book.reservations && x in ViewOf(w.house.log, t).open && w.house.book.reservations[x].state == EXPIRED
      :: w.house.book.reservations[x]
  }

  lemma ReplayAtRest(w: World, t: string)
    requires Inv(w) && AllAppended(w)
    ensures Spent(ForTenant(w.house.log, t)) == BalanceOf(w.house.book, t).settled
    ensures Outstanding(ForTenant(w.house.log, t), {})
         == BalanceOf(w.house.book, t).reserved + Total(Unlogged(w, t), AmountOf())
  {
    ReplayUpToPending(w, t);
    OnlyExpiriesAtRest(w, t);
  }

  lemma OnlyExpiriesAtRest(w: World, t: string)
    requires AllAppended(w) && Accounted(w, t)
    ensures EarlyIn(w, t) == map[] && UnpaidIn(w, t) == map[] && LateIn(w, t) == Unlogged(w, t)
  {
    forall x, k ensures !Awaited(w, x, k) {
    }
    assert EarlyIn(w, t) == map[];
    assert UnpaidIn(w, t) == map[];
    assert LateIn(w, t) == Unlogged(w, t);
  }

  lemma ZeroOnlyIfAllZero<K, V>(m: map<K, V>, w: V -> int, k: K)
    requires k in m && forall j :: j in m ==> w(m[j]) >= 0
    requires Total(m, w) == 0
    ensures w(m[k]) == 0
  {
    Split(m, k, w);
    NonNegative(m - {k}, w);
  }

  /** The outstanding holds in the log are the account's exactly when no open one of positive amount has expired. */
  lemma ReplayIsExactIff(w: World, t: string)
    requires Inv(w) && AllAppended(w)
    ensures Outstanding(ForTenant(w.house.log, t), {}) == BalanceOf(w.house.book, t).reserved
       <==> forall x :: x in Unlogged(w, t) ==> w.house.book.reservations[x].amount == 0
  {
    ReplayAtRest(w, t);
    var u := Unlogged(w, t);
    forall x | x in u ensures u[x].amount >= 0 {
      assert Filed(w.house.book, x);
    }
    if Total(u, AmountOf()) == 0 {
      forall x | x in u ensures u[x].amount == 0 {
        ZeroOnlyIfAllZero(u, AmountOf(), x);
      }
    } else if forall x :: x in u ==> u[x].amount == 0 {
      Zero(u, AmountOf());
    }
  }

  // ---------- without ExpireStale ----------

  ghost predicate Unexpired(b: Book) {
    forall x :: x in b.reservations ==> b.reservations[x].state != EXPIRED
  }

  lemma CloseInUnexpired(b: Book, x: string, how: Closing)
    requires Unexpired(b) && !how.Expire?
    ensures Unexpired(CloseIn(b, x, how))
  {
  }

  lemma GrantUnexpired(b: Book, t: string, amount: int, ttl: real, now: real, stamp: string)
    requires Unexpired(b)
    ensures Unexpired(Granted(Opened(b, t), t, amount, ttl, now, stamp))
  {
  }

  lemma EvaluateUnexpired(p: Policy, e: Engine, b: Book, req: Request, now: real, stamp: string)
    requires PolicyOk(p) && Unexpired(b)
    ensures Unexpired(Evaluate(p, e, b, req, now, stamp).book)
  {
    DecisionAndBooks(p, e, b, req, now, stamp);
    GrantUnexpired(b, req.tenant, req.cost, p.ttl, now, stamp);
  }

  lemma StepUnexpired(p: Policy, w: World, s: Step)
    requires PolicyOk(p) && Unexpired(w.house.book) && !s.ExpireStale?
    ensures Unexpired(Apply(p, w, s).house.book)
  {
    if s.Judge? && Ready(w, s.i) && w.flights[s.i].stage.Priced? {
      var f := w.flights[s.i];
      EvaluateUnexpired(p, w.house.engine, w.house.book, RequestOf(f.call, f.stage.rate), s.now, s.stamp);
    } else if s.Execute? && Ready(w, s.i) && w.flights[s.i].held.Holds? {
      CloseInUnexpired(w.house.book, w.flights[s.i].held.id, Release);
    } else if s.Conclude? && Ready(w, s.i) && w.flights[s.i].stage.Returned? && w.flights[s.i].held.Holds? {
      var f := w.flights[s.i];
      CloseInUnexpired(w.house.book, f.held.id, Reconcile(Cost(f.stage.rate, f.stage.used)));
    }
  }

  lemma {:induction false} RunUnexpired(p: Policy, w: World, steps: seq<Step>)
    requires PolicyOk(p) && Unexpired(w.house.book) && forall k :: 0 <= k < |steps| ==> !steps[k].ExpireStale?
    ensures Unexpired(Run(p, w, steps).house.book)
    decreases |steps|
  {
    if steps != [] {
      RunUnexpired(p, w, steps[..|steps| - 1]);
      StepUnexpired(p, Run(p, w, steps[..|steps| - 1]), steps[|steps| - 1]);
    }
  }

  /**
   * Replaying one tenant's log gives exactly its account, after any interleaving of any requests with arbitrary
   * provider outcomes, new rates, budgets and kill switches, once every event is appended and if nothing expired.
   */
  lemma ReplayIsExact(p: Policy, h: House, steps: seq<Step>, t: string)
    requires PolicyOk(p) && Start(h) && SaneSteps(steps) && IdsLast(p, World(h, map[]), steps)
    requires forall k :: 0 <= k < |steps| ==> !steps[k].ExpireStale?
    requires AllAppended(Run(p, World(h, map[]), steps))
    ensures var w := Run(p, World(h, map[]), steps);
            && Outstanding(ForTenant(w.house.log, t), {}) == BalanceOf(w.house.book, t).reserved
            && Spent(ForTenant(w.house.log, t)) == BalanceOf(w.house.book, t).settled
  {
    StartInv(h);
    RunKeepsInv(p, World(h, map[]), steps);
    RunUnexpired(p, World(h, map[]), steps);
    var w := Run(p, World(h, map[]), steps);
    ReplayAtRest(w, t);
    assert Unlogged(w, t) == map[];
  }

  // ---------- one request after another ----------

  function Drained(w: World, i: nat): World
    requires i in w.flights
  {
    World(Logged(w.house, w.flights[i].pending), w.flights[i := w.flights[i].(pending := [])])
  }

  lemma DrainOne(w: World, i: nat)
    requires i in w.flights && w.flights[i].pending != []
    ensures Drained(Appended(w, i), i) == Drained(w, i)
  {
    var f := w.flights[i];
    assert w.house.log + [f.pending[0]] + f.pending[1..] == w.house.log + f.pending;
    assert Appended(w, i).flights[i := f.(pending := [])] == w.flights[i := f.(pending := [])];
  }

  lemma DrainNone(w: World, i: nat)
    requires i in w.flights && w.flights[i].pending == []
    ensures Drained(w, i) == w
  {
    assert w.flights[i := w.flights[i]] == w.flights;
    assert w.house.log + [] == w.house.log;
  }

  lemma {:induction false} DrainKeeps(w: World, i: nat)
    requires Inv(w) && i in w.flights
    ensures Inv(Drained(w, i))
    decreases |w.flights[i].pending|
  {
    if w.flights[i].pending == [] {
      DrainNone(w, i);
    } else {
      AppendKeeps(w, i);
      DrainKeeps(Appended(w, i), i);
      DrainOne(w, i);
    }
  }

  /** Request i is at this stage with nothing left to append; the others are at `rest`. */
  function At(h: House, rest: map<nat, Flight>, i: nat, call: Call, stage: Stage, held: Held): World {
    World(h, rest[i := Flight(call, stage, held, [])])
  }

  lemma DrainedMove(w: World, rest: map<nat, Flight>, i: nat, call: Call, h: House, m: Move)
    requires i in w.flights && w.flights[i].call == call && w.flights == rest[i := w.flights[i]]
    ensures Drained(Moved(w, i, h, m), i) == At(Logged(h, m.events), rest, i, call, m.stage, m.held)
  {
    assert Drained(Moved(w, i, h, m), i).flights == rest[i := Flight(call, m.stage, m.held, [])];
  }

  /** Request i makes move m on house h and appends all its events. */
  lemma MoveAndDrain(w: World, rest: map<nat, Flight>, i: nat, call: Call, h: House, m: Move)
    requires i in w.flights && w.flights[i].call == call && w.flights == rest[i := w.flights[i]]
    requires Inv(Moved(w, i, h, m))
    ensures Inv(At(Logged(h, m.events), rest, i, call, m.stage, m.held))
  {
    DrainKeeps(Moved(w, i, h, m), i);
    DrainedMove(w, rest, i, call, h, m);
  }

  /** The reservation books and the log stay in step to the end of a request, whichever way it ends. */
  ghost predicate EndsIn(h: House, rest: map<nat, Flight>, i: nat, call: Call) {
    exists stage, held :: Inv(At(h, rest, i, call, stage, held))
  }

  lemma RecordingEnds(h: House, rest: map<nat, Flight>, i: nat, call: Call, rate: Rate, used: Units, held: Held, e: Engine)
    requires Inv(At(h, rest, i, call, Reconciled(rate, used), held))
    ensures EndsIn(h.(engine := e), rest, i, call)
  {
    var w := At(h, rest, i, call, Reconciled(rate, used), held);
    RecordKeeps(w, i, e);
    NothingLogged(h.(engine := e));
    MoveAndDrain(w, rest, i, call, h.(engine := e), Move(Recorded(rate, used), held, []));
  }

  lemma NothingLogged(h: House)
    ensures Logged(h, []) == h
  {
  }

  lemma SettlingEnds(p: Policy, h: House, rest: map<nat, Flight>, i: nat, call: Call, rate: Rate, d: Decision, used: Units, later: real)
    requires Inv(At(h, rest, i, call, Returned(rate, used), Holds(d.reservation)))
    ensures EndsIn(Settling(p, h, call, rate, d, used, later).house, rest, i, call)
  {
    var x, how := d.reservation, Reconcile(Cost(rate, used));
    var w := At(h, rest, i, call, Returned(rate, used), Holds(x));
    var m, h1 := Concluded(call, rate, used, x, ReplyIn(h.book, x, how)), h.(book := CloseIn(h.book, x, how));
    ConcludeKeeps(w, i);
    MoveAndDrain(w, rest, i, call, h1, m);
    if m.stage.Reconciled? {
      RecordingEnds(Logged(h1, m.events), rest, i, call, rate, used, Holds(x), Used(p, h1.engine, call.tenant, later, how.actual));
    }
  }

  lemma ExecutingEnds(p: Policy, h: House, rest: map<nat, Flight>, i: nat, call: Call, rate: Rate, d: Decision,
                      provided: Provided, later: real)
    requires Inv(At(h, rest, i, call, Running(rate), Holds(d.reservation)))
    ensures EndsIn(Executing(p, h, call, rate, d, provided, later).house, rest, i, call)
  {
    var x := d.reservation;
    var w := At(h, rest, i, call, Running(rate), Holds(x));
    var m, h1 := Executed(call, rate, x, provided), h.(book := BookAfterExecution(h.book, x, provided));
    ExecuteKeeps(w, i, provided);
    MoveAndDrain(w, rest, i, call, h1, m);
    if provided.Returns? {
      SettlingEnds(p, Logged(h1, m.events), rest, i, call, rate, d, provided.used, later);
    }
  }

  lemma JudgedEnds(p: Policy, h: House, rest: map<nat, Flight>, i: nat, call: Call, rate: Rate, o: Outcome,
                   provided: Provided, later: real)
    requires Inv(JudgedIn(At(h, rest, i, call, Priced(rate), Nothing), i, o))
    ensures var h' := Judged(h, call, rate, o);
            EndsIn(if o.decision.action == ALLOW then Executing(p, h', call, rate, o.decision, provided, later).house else h',
                   rest, i, call)
  {
    var w := At(h, rest, i, call, Priced(rate), Nothing);
    MoveAndDrain(w, rest, i, call, h.(engine := o.engine, book := o.book), Answered(call, rate, o.decision));
    if o.decision.action == ALLOW {
      ExecutingEnds(p, Judged(h, call, rate, o), rest, i, call, rate, o.decision, provided, later);
    }
  }

  lemma JudgingEnds(p: Policy, h: House, rest: map<nat, Flight>, i: nat, call: Call, rate: Rate, now: real, stamp: string,
                    provided: Provided, later: real)
    requires PolicyOk(p) && Inv(At(h, rest, i, call, Priced(rate), Nothing))
    requires Judging(p, h, call, rate, now, stamp, provided, later).house.book.issued < U64
    ensures EndsIn(Judging(p, h, call, rate, now, stamp, provided, later).house, rest, i, call)
  {
    JudgingIssued(p, h, call, rate, now, stamp, provided, later);
    JudgeKeeps(p, At(h, rest, i, call, Priced(rate), Nothing), i, now, stamp);
    var o := Evaluate(p, h.engine, h.book, RequestOf(call, rate), now, stamp);
    JudgedEnds(p, h, rest, i, call, rate, o, provided, later);
  }

  lemma HandledEnds(p: Policy, h: House, rest: map<nat, Flight>, i: nat, call: Call, now: real, stamp: string,
                    provided: Provided, later: real)
    requires PolicyOk(p) && Inv(World(h, rest)) && i !in rest
    requires Handled(p, h, call, now, stamp, provided, later).house.book.issued < U64
    ensures EndsIn(Handled(p, h, call, now, stamp, provided, later).house, rest, i, call)
  {
    ArriveKeeps(World(h, rest), i, call);
    var w := At(h, rest, i, call, Arrived, Nothing);
    var m := LookedUp(h.rates, call, now);
    LookUpKeeps(w, i, now);
    MoveAndDrain(w, rest, i, call, h, m);
    if m.stage.Priced? {
      JudgingEnds(p, Logged(h, m.events), rest, i, call, m.stage.rate, now, stamp, provided, later);
    }
  }

  /** No id is drawn after the decision. */
  lemma JudgingIssued(p: Policy, h: House, call: Call, rate: Rate, now: real, stamp: string, provided: Provided, later: real)
    requires PolicyOk(p)
    ensures Judging(p, h, call, rate, now, stamp, provided, later).house.book.issued
         == Evaluate(p, h.engine, h.book, RequestOf(call, rate), now, stamp).book.issued
  {
  }

  /** HandleRequest expires nothing, and the id counter only moves forward. */
  lemma HandledBooks(p: Policy, h: House, call: Call, now: real, stamp: string, provided: Provided, later: real)
    requires PolicyOk(p)
    ensures var b := Handled(p, h, call, now, stamp, provided, later).house.book;
            h.book.issued <= b.issued && (Unexpired(h.book) ==> Unexpired(b))
  {
    var m := LookedUp(h.rates, call, now);
    if m.stage.Priced? {
      var h1, req := Logged(h, m.events), RequestOf(call, m.stage.rate);
      var o := Evaluate(p, h.engine, h.book, req, now, stamp);
      DecisionAndBooks(p, h.engine, h.book, req, now, stamp);
      JudgingIssued(p, h1, call, m.stage.rate, now, stamp, provided, later);
      if Unexpired(h.book) {
        EvaluateUnexpired(p, h.engine, h.book, req, now, stamp);
        ExecutingUnexpired(p, Judged(h1, call, m.stage.rate, o), call, m.stage.rate, o.decision, provided, later);
      }
    }
  }

  lemma ExecutingUnexpired(p: Policy, h: House, call: Call, rate: Rate, d: Decision, provided: Provided, later: real)
    requires Unexpired(h.book)
    ensures Unexpired(Executing(p, h, call, rate, d, provided, later).house.book)
  {
    CloseInUnexpired(h.book, d.reservation, if provided.Returns? then Reconcile(Cost(rate, provided.used)) else Release);
  }

  datatype Job = Job(call: Call, now: real, stamp: string, provided: Provided, later: real)

  /** One HandleRequest after another. */
  function HandledAll(p: Policy, h: House, jobs: seq<Job>): House
    requires PolicyOk(p)
  {
    if jobs == [] then h
    else
      var j := jobs[|jobs| - 1];
      Handled(p, HandledAll(p, h, jobs[..|jobs| - 1]), j.call, j.now, j.stamp, j.provided, j.later).house
  }

  lemma {:induction false} RequestsKeepInv(p: Policy, h: House, jobs: seq<Job>) returns (rest: map<nat, Flight>)
    requires PolicyOk(p) && Start(h) && HandledAll(p, h, jobs).book.issued < U64
    ensures var h' := HandledAll(p, h, jobs);
            && Inv(World(h', rest)) && AllAppended(World(h', rest)) && Unexpired(h'.book)
    ensures forall i :: i in rest ==> i < |jobs|
    decreases |jobs|
  {
    if jobs == [] {
      StartInv(h);
      rest := map[];
    } else {
      var j, n := jobs[|jobs| - 1], |jobs| - 1;
      var h1 := HandledAll(p, h, jobs[..n]);
      HandledBooks(p, h1, j.call, j.now, j.stamp, j.provided, j.later);
      var before := RequestsKeepInv(p, h, jobs[..n]);
      HandledEnds(p, h1, before, n, j.call, j.now, j.stamp, j.provided, j.later);
      rest := Ended(Handled(p, h1, j.call, j.now, j.stamp, j.provided, j.later).house, before, n, j.call);
    }
  }

  lemma Ended(h: House, before: map<nat, Flight>, n: nat, call: Call) returns (rest: map<nat, Flight>)
    requires EndsIn(h, before, n, call) && forall i :: i in before ==> before[i].pending == [] && i < n
    ensures Inv(World(h, rest)) && AllAppended(World(h, rest)) && forall i :: i in rest ==> i < n + 1
  {
    var stage, held :| Inv(At(h, before, n, call, stage, held));
    rest := before[n := Flight(call, stage, held, [])];
  }

  /** After any sequence of HandleRequest calls the log replays to every tenant's account, exactly. */
  lemma ReplayAfterRequests(p: Policy, h: House, jobs: seq<Job>, t: string)
    requires PolicyOk(p) && Start(h) && HandledAll(p, h, jobs).book.issued < U64
    ensures var h' := HandledAll(p, h, jobs);
            && Outstanding(ForTenant(h'.log, t), {}) == BalanceOf(h'.book, t).reserved
            && Spent(ForTenant(h'.log, t)) == BalanceOf(h'.book, t).settled
  {
    var rest := RequestsKeepInv(p, h, jobs);
    var w := World(HandledAll(p, h, jobs), rest);
    ReplayAtRest(w, t);
    assert Unlogged(w, t) == map[];
  }

  // ---------- prices, charges and throttled holds over runs ----------

  /** A flight keeps the rate it was priced with, whatever rates are added meanwhile. */
  lemma {:induction false} RateKept(p: Policy, w: World, steps: seq<Step>, i: nat)
    requires PolicyOk(p) && i in w.flights && HasRate(w.flights[i].stage)
    ensures var w' := Run(p, w, steps);
            && i in w'.flights && w'.flights[i].call == w.flights[i].call && !w'.flights[i].stage.Arrived?
            && (HasRate(w'.flights[i].stage) ==> w'.flights[i].stage.rate == w.flights[i].stage.rate)
    decreases |steps|
  {
    if steps != [] {
      var init := steps[..|steps| - 1];
      RateKept(p, w, init, i);
      RateKeptByStep(p, Run(p, w, init), steps[|steps| - 1], i);
    }
  }

  lemma RateKeptByStep(p: Policy, w: World, s: Step, i: nat)
    requires PolicyOk(p) && i in w.flights && !w.flights[i].stage.Arrived?
    ensures var w' := Apply(p, w, s);
            && i in w'.flights && w'.flights[i].call == w.flights[i].call && !w'.flights[i].stage.Arrived?
            && (HasRate(w'.flights[i].stage) ==>
                  HasRate(w.flights[i].stage) && w'.flights[i].stage.rate == w.flights[i].stage.rate)
  {
  }

  /** So a reconciled request was reserved and charged at the price in force when it was looked up. */
  lemma OnePricePerRequest(p: Policy, w: World, steps: seq<Step>, i: nat)
    requires PolicyOk(p) && Inv(w) && SaneSteps(steps) && IdsLast(p, w, steps)
    requires i in w.flights && w.flights[i].stage.Priced?
    ensures var w' := Run(p, w, steps);
            i in w'.flights &&
            var rate, f := w.flights[i].stage.rate, w'.flights[i];
            f.stage.Reconciled? || f.stage.Recorded? ==>
              && f.held.Holds? && f.held.id in w'.house.book.reservations
              && var r := w'.house.book.reservations[f.held.id];
                 r.amount == Cost(rate, f.call.units) && r.state == RECONCILED && r.actual == Cost(rate, f.stage.used)
  {
    RateKept(p, w, steps, i);
    RunKeepsInv(p, w, steps);
    assert FlightAt(Run(p, w, steps), i);
  }

  /** Books b' are b with r's hold turned into a charge, or, if r has expired, with no account changed. */
  ghost predicate ChargedUnlessExpired(b: Book, b': Book, r: Reservation, actual: int) {
    if r.state == EXPIRED then OnlyMoves(b, b', r.tenant, 0, 0) else OnlyMoves(b, b', r.tenant, -r.amount, actual)
  }

  lemma ReconcileMoves(b: Book, x: string, actual: int)
    requires x in b.reservations && WellFormed(x, b.reservations[x])
    requires b.reservations[x].state == RESERVED || b.reservations[x].state == EXPIRED
    ensures var r := b.reservations[x];
            && (ReplyIn(b, x, Reconcile(actual)).Settled? <==> r.state != EXPIRED)
            && ChargedUnlessExpired(b, CloseIn(b, x, Reconcile(actual)), r, actual)
  {
  }

  lemma ReturnedHold(w: World, i: nat)
    requires Inv(w) && Ready(w, i) && w.flights[i].stage.Returned? && w.flights[i].held.Holds?
    ensures var x, m := w.flights[i].held.id, w.house.book.reservations;
            && x in m && WellFormed(x, m[x]) && m[x].tenant == w.flights[i].call.tenant
            && (m[x].state == RESERVED || m[x].state == EXPIRED)
  {
    assert FlightAt(w, i) && Filed(w.house.book, w.flights[i].held.id);
  }

  lemma ConcludedMoves(w: World, i: nat)
    requires Ready(w, i) && w.flights[i].stage.Returned? && w.flights[i].held.Holds?
    requires var x, m := w.flights[i].held.id, w.house.book.reservations;
             x in m && WellFormed(x, m[x]) && (m[x].state == RESERVED || m[x].state == EXPIRED)
    ensures var f, w' := w.flights[i], ConcludedIn(w, i);
            var r := w.house.book.reservations[f.held.id];
            && (w'.flights[i].stage.Reconciled? <==> r.state != EXPIRED)
            && ChargedUnlessExpired(w.house.book, w'.house.book, r, Cost(f.stage.rate, f.stage.used))
  {
    var f := w.flights[i];
    ReconcileMoves(w.house.book, f.held.id, Cost(f.stage.rate, f.stage.used));
  }

  /** A request the provider has served is charged its actual cost exactly when its reservation has not expired. */
  lemma ServedIsChargedIff(w: World, i: nat)
    requires Inv(w) && Ready(w, i) && w.flights[i].stage.Returned? && w.flights[i].held.Holds?
    ensures var f, w' := w.flights[i], ConcludedIn(w, i);
            f.held.id in w.house.book.reservations &&
            var r := w.house.book.reservations[f.held.id];
            && r.tenant == f.call.tenant
            && (w'.flights[i].stage.Reconciled? <==> r.state != EXPIRED)
            && ChargedUnlessExpired(w.house.book, w'.house.book, r, Cost(f.stage.rate, f.stage.used))
  {
    ReturnedHold(w, i);
    ConcludedMoves(w, i);
  }

  // ---------- holds that stay open in the log ----------

  /** Request i is over, and its hold x is open in the log, or will be once the request's own events are appended. */
  ghost predicate LeftOpen(w: World, i: nat, x: string) {
    && i in w.flights && w.flights[i].stage.Over? && w.flights[i].held == Holds(x)
    && !Owes(w.flights[i], RESERVATION_RELEASED)
    && (Owes(w.flights[i], RESERVATION_CREATED) || x in ViewOf(w.house.log, w.flights[i].call.tenant).open)
  }

  /** A throttled request ends holding its reservation. */
  lemma ThrottleLeavesOpen(p: Policy, w: World, i: nat, now: real, stamp: string)
    requires PolicyOk(p) && Ready(w, i) && w.flights[i].stage.Priced?
    requires var f := w.flights[i];
             Evaluate(p, w.house.engine, w.house.book, RequestOf(f.call, f.stage.rate), now, stamp).decision.action == THROTTLE
    ensures LeftOpen(Apply(p, w, Judge(i, now, stamp)), i, Id(stamp, w.house.book.issued + 1))
  {
    var f := w.flights[i];
    DecisionAndBooks(p, w.house.engine, w.house.book, RequestOf(f.call, f.stage.rate), now, stamp);
    IdIsNotEmpty(stamp, w.house.book.issued + 1);
    ThrottledMove(w, i, Evaluate(p, w.house.engine, w.house.book, RequestOf(f.call, f.stage.rate), now, stamp));
  }

  lemma ThrottledMove(w: World, i: nat, o: Outcome)
    requires Ready(w, i) && w.flights[i].stage.Priced? && o.decision.action == THROTTLE && o.decision.reservation != ""
    ensures LeftOpen(JudgedIn(w, i, o), i, o.decision.reservation)
  {
  }

  /** So does a request served after its hold expired: the reconciliation is refused and the hold is not released. */
  lemma LateServiceLeavesOpen(p: Policy, w: World, i: nat)
    requires PolicyOk(p) && Inv(w) && Ready(w, i) && w.flights[i].stage.Returned? && w.flights[i].held.Holds?
    requires w.flights[i].held.id in w.house.book.reservations
    requires w.house.book.reservations[w.flights[i].held.id].state == EXPIRED
    ensures LeftOpen(Apply(p, w, Conclude(i)), i, w.flights[i].held.id)
  {
    ReturnedHold(w, i);
    ReturnedIsOpen(w, i);
    LateMove(p, w, i);
  }

  lemma ReturnedIsOpen(w: World, i: nat)
    requires Inv(w) && Ready(w, i) && w.flights[i].stage.Returned? && w.flights[i].held.Holds?
    ensures w.flights[i].held.id in ViewOf(w.house.log, w.flights[i].call.tenant).open
  {
    assert FlightAt(w, i);
  }

  lemma LateMove(p: Policy, w: World, i: nat)
    requires PolicyOk(p) && Ready(w, i) && w.flights[i].stage.Returned? && w.flights[i].held.Holds?
    requires var x, m := w.flights[i].held.id, w.house.book.reservations;
             x in m && WellFormed(x, m[x]) && m[x].state == EXPIRED && x in ViewOf(w.house.log, w.flights[i].call.tenant).open
    ensures LeftOpen(Apply(p, w, Conclude(i)), i, w.flights[i].held.id)
  {
  }

  lemma AppendLeavesOpen(w: World, j: nat, i: nat, x: string)
    requires Inv(w) && LeftOpen(w, i, x) && j in w.flights && w.flights[j].pending != []
    ensures LeftOpen(Appended(w, j), i, x)
  {
    var e, t := w.flights[j].pending[0], w.flights[i].call.tenant;
    OneMore(w.house.log, e, t);
    if j == i {
      OwnAppendLeavesOpen(w, i, x);
    } else {
      OthersEvent(w, j, i, x);
      if x in ViewOf(w.house.log, t).open {
        NotedLeavesOpen(ViewOf(w.house.log, t), e, x);
      }
    }
  }

  lemma OwnAppendLeavesOpen(w: World, i: nat, x: string)
    requires Inv(w) && LeftOpen(w, i, x) && w.flights[i].pending != []
    ensures LeftOpen(Appended(w, i), i, x)
  {
    var f, v := w.flights[i], ViewOf(w.house.log, w.flights[i].call.tenant);
    assert FlightAt(w, i);
    OneMore(w.house.log, f.pending[0], f.call.tenant);
    OwnEventOpens(f, w.house.book.reservations, v, x);
  }

  /** The head of its queue either opens x or is about no money; nothing behind it closes x. */
  lemma OwnEventOpens(f: Flight, m: map<string, Reservation>, v: View, x: string)
    requires FlightOk(f, m, v) && f.stage.Over? && f.held == Holds(x) && f.pending != []
    requires !Owes(f, RESERVATION_RELEASED) && (Owes(f, RESERVATION_CREATED) || x in v.open)
    ensures f.pending[0].tenant == f.call.tenant && x in Noted(v, f.pending[0]).open
    ensures |f.pending| > 1 ==> Plain(f.pending[1])
  {
  }

  /** What another flight appends is not about x. */
  lemma OthersEvent(w: World, j: nat, i: nat, x: string)
    requires Inv(w) && i in w.flights && w.flights[i].held == Holds(x)
    requires j in w.flights && j != i && w.flights[j].pending != []
    ensures Plain(w.flights[j].pending[0]) || w.flights[j].pending[0].reservation != x
  {
    assert FlightAt(w, j) && Apart(w, i, j);
  }

  lemma NotedLeavesOpen(v: View, e: Event, x: string)
    requires x in v.open && (Plain(e) || e.reservation != x)
    ensures x in Noted(v, e).open
  {
  }

  lemma OthersLeaveOpen(p: Policy, w: World, s: Step, i: nat, x: string)
    requires PolicyOk(p) && LeftOpen(w, i, x) && !s.Append?
    ensures LeftOpen(Apply(p, w, s), i, x)
  {
  }

  lemma StepLeavesOpen(p: Policy, w: World, s: Step, i: nat, x: string)
    requires PolicyOk(p) && Inv(w) && LeftOpen(w, i, x)
    ensures LeftOpen(Apply(p, w, s), i, x)
  {
    if !s.Append? {
      OthersLeaveOpen(p, w, s, i, x);
    } else if s.i in w.flights && w.flights[s.i].pending != [] {
      AppendLeavesOpen(w, s.i, i, x);
    }
  }

  /** No later event ever closes it: once its request has appended, it counts as outstanding in the log for ever. */
  lemma {:induction false} LeftOpenForGood(p: Policy, w: World, steps: seq<Step>, i: nat, x: string)
    requires PolicyOk(p) && Inv(w) && SaneSteps(steps) && IdsLast(p, w, steps) && LeftOpen(w, i, x)
    ensures var w' := Run(p, w, steps);
            LeftOpen(w', i, x) && (w'.flights[i].pending == [] ==> x in ViewOf(w'.house.log, w'.flights[i].call.tenant).open)
    decreases |steps|
  {
    if steps != [] {
      var init := steps[..|steps| - 1];
      IdsLastedBefore(p, w, steps);
      LeftOpenForGood(p, w, init, i, x);
      RunKeepsInv(p, w, init);
      StepLeavesOpen(p, Run(p, w, init), steps[|steps| - 1], i, x);
    }
  }
}

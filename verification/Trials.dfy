/**
 * Concurrent Evaluate calls around one tenant's breaker (internal/risk/engine.go, internal/circuit/circuit.go).
 * Between its Allow and its report a call scores and reserves, which does not touch the breaker; every path
 * reports exactly once, and a critical block trips as well.
 */
module Trials {
  import opened CircuitBreaker
  import Books
  import Decisions
  import Scoring

  datatype Pc =
    | Outside
    | Admitted(trial: bool) // Allow said yes, report still to come; `trial` if it came from HALF_OPEN
    | MustTrip              // reported a critical failure, Trip still to come

  datatype World = World(
    circuit: Circuit,
    calls: map<nat, Pc>,
    holder: nat)            // history only: the latest call that was granted a trial

  datatype Step =
    | Enter(tid: nat, at: real)               // Allow
    | Report(tid: nat, ok: bool, critical: bool, at: real)
    | FollowUp(tid: nat, at: real)            // the Trip after a critical failure
    | Kill(at: real)                          // a call under an active kill switch: Trip only
    | Peek(at: real)                          // State

  function Start(cooldown: real): World {
    World(Circuit(CLOSED, 0.0, cooldown), map[], 0)
  }

  predicate Enabled(w: World, s: Step) {
    match s
    case Enter(i, _) => i in w.calls ==> w.calls[i] == Outside
    case Report(i, ok, critical, _) => i in w.calls && w.calls[i].Admitted? && (critical ==> !ok)
    case FollowUp(i, _) => i in w.calls && w.calls[i] == MustTrip
    case _ => true
  }

  function EventOf(s: Step): Event {
    match s
    case Enter(_, at) => Event(Allow, at)
    case Report(_, ok, _, at) => Event(if ok then Success else Failure, at)
    case FollowUp(_, at) => Event(Trip, at)
    case Kill(at) => Event(Trip, at)
    case Peek(at) => Event(Look, at)
  }

  function Next(w: World, s: Step): World
    requires Enabled(w, s)
  {
    var c := Apply(w.circuit, EventOf(s));
    match s
    case Enter(i, at) =>
      if !Allows(w.circuit, at) then World(c, w.calls[i := Outside], w.holder)
      else
        var trial := GrantsTrial(w.circuit, EventOf(s));
        World(c, w.calls[i := Admitted(trial)], if trial then i else w.holder)
    case Report(i, _, critical, _) => World(c, w.calls[i := if critical then MustTrip else Outside], w.holder)
    case FollowUp(i, _) => World(c, w.calls[i := Outside], w.holder)
    case _ => w.(circuit := c)
  }

  ghost predicate Feasible(w: World, steps: seq<Step>)
    decreases |steps|
  {
    steps == [] || (Enabled(w, steps[0]) && Feasible(Next(w, steps[0]), steps[1..]))
  }

  ghost function Run(w: World, steps: seq<Step>): World
    requires Feasible(w, steps)
    decreases |steps|
  {
    if steps == [] then w else Run(Next(w, steps[0]), steps[1..])
  }

  /** The trial slot has an owner that has still to report. */
  ghost predicate SlotOwned(w: World) {
    w.circuit.phase == TESTING ==> w.holder in w.calls && w.calls[w.holder] == Admitted(true)
  }

  /** No trial slot is ever lost: in TESTING, the call that took the slot is still on its way to its report. */
  lemma {:induction false} TrialSlotNeverLost(w: World, steps: seq<Step>)
    requires SlotOwned(w) && Feasible(w, steps)
    ensures SlotOwned(Run(w, steps))
    decreases |steps|
  {
    if steps != [] {
      TrialSlotNeverLost(Next(w, steps[0]), steps[1..]);
    }
  }

  /** And its report, whatever it says, gives the slot back. */
  lemma HolderReportFreesSlot(w: World, s: Step)
    requires SlotOwned(w) && w.circuit.phase == TESTING
    requires s.Report? && s.tid == w.holder && (s.critical ==> !s.ok)
    ensures Enabled(w, s) && Next(w, s).circuit.phase == (if s.ok then CLOSED else OPEN)
  {
  }

  // ---------- whose report ends a trial ----------

  /** The call, if any, whose report takes the breaker out of TESTING in this run. */
  ghost predicate EndsTrial(w: World, steps: seq<Step>, i: nat)
    requires Feasible(w, steps)
    decreases |steps|
  {
    && w.circuit.phase == TESTING && steps != []
    && if Next(w, steps[0]).circuit.phase == TESTING then EndsTrial(Next(w, steps[0]), steps[1..], i)
       else steps[0].Report? && steps[0].tid == i
  }

  predicate AloneInFlight(w: World, h: nat) {
    forall i :: i in w.calls && w.calls[i].Admitted? ==> i == h
  }

  lemma {:induction false} OnlyTheHolderEnds(w: World, steps: seq<Step>, i: nat)
    requires Feasible(w, steps) && AloneInFlight(w, w.holder) && EndsTrial(w, steps, i)
    ensures i == w.holder
    decreases |steps|
  {
    if Next(w, steps[0]).circuit.phase == TESTING {
      OnlyTheHolderEnds(Next(w, steps[0]), steps[1..], i);
    }
  }

  /** A call admitted before the trip can end the trial of another with its stale success. */
  lemma StaleReportEnds(w: World, i: nat)
    requires w.circuit.phase == TESTING && i in w.calls && w.calls[i].Admitted?
    ensures exists steps :: Feasible(w, steps) && EndsTrial(w, steps, i) && Run(w, steps).circuit.phase == CLOSED
  {
    var s := Report(i, true, false, 0.0);
    var steps := [s];
    assert steps[1..] == [];
    assert Feasible(Next(w, s), steps[1..]);
    assert Feasible(w, steps) && EndsTrial(w, steps, i) && Run(w, steps) == Next(w, s);
  }

  /**
   * "Guards against a stale half-open test result": not by itself. The trial is ended by its own report in
   * every continuation exactly when no other admitted call is still unreported.
   */
  lemma TrialIsItsOwnExactly(w: World)
    requires SlotOwned(w) && w.circuit.phase == TESTING
    ensures (forall steps, i :: Feasible(w, steps) && EndsTrial(w, steps, i) ==> i == w.holder)
       <==> AloneInFlight(w, w.holder)
  {
    if AloneInFlight(w, w.holder) {
      forall steps, i | Feasible(w, steps) && EndsTrial(w, steps, i) ensures i == w.holder {
        OnlyTheHolderEnds(w, steps, i);
      }
    } else {
      var i :| i in w.calls && w.calls[i].Admitted? && i != w.holder;
      StaleReportEnds(w, i);
    }
  }

  /** The stale case is reachable: two calls and one kill are enough, for any cooldown. */
  lemma StaleCaseReachable(cooldown: real)
    requires cooldown >= 0.0
    ensures exists steps :: Feasible(Start(cooldown), steps)
              && var w := Run(Start(cooldown), steps); w.circuit.phase == TESTING && !AloneInFlight(w, w.holder)
  {
    var s0, s1, s2 := Enter(1, 0.0), Kill(0.0), Enter(2, cooldown);
    var w0 := Start(cooldown);
    var w1 := Next(w0, s0);
    var w2 := Next(w1, s1);
    var w3 := Next(w2, s2);
    var steps := [s0, s1, s2];
    assert steps[1..] == [s1, s2] && steps[1..][1..] == [s2] && steps[1..][1..][1..] == [];
    assert Feasible(w3, []) && Run(w3, []) == w3;
    assert Feasible(w2, [s2]) && Run(w2, [s2]) == w3;
    assert Feasible(w1, [s1, s2]) && Run(w1, [s1, s2]) == w3;
    assert Feasible(w0, steps) && Run(w0, steps) == w3;
    assert w3.calls[1] == Admitted(false) && w3.holder == 2;
  }

  // ---------- two grants ----------

  predicate Ends(s: Step) {
    s.Report? || s.FollowUp? || s.Kill?
  }

  lemma QuietBetween(c: Circuit, steps: seq<Step>, i: nat, j: nat)
    requires i < j < |steps| && GrantsTrial(At(c, Events(steps), i), Events(steps)[i])
    requires forall k :: i < k < j ==> !Ends(steps[k])
    ensures !GrantsTrial(At(c, Events(steps), j), Events(steps)[j])
  {
    var es := Events(steps);
    forall k | i < k < j ensures es[k].call != Trip && es[k].call != Success && es[k].call != Failure {
      assert !Ends(steps[k]) && es[k] == EventOf(steps[k]);
    }
    TrialsAreSeparated(c, es, i, j);
  }

  /** Between two trial grants of one run there is a report or a trip. */
  lemma GrantsAreSeparated(w: World, steps: seq<Step>, i: nat, j: nat)
    requires Feasible(w, steps) && i < j < |steps|
    requires GrantsTrial(At(w.circuit, Events(steps), i), Events(steps)[i])
    requires GrantsTrial(At(w.circuit, Events(steps), j), Events(steps)[j])
    ensures exists k :: i < k < j && Ends(steps[k])
  {
    if forall k :: i < k < j ==> !Ends(steps[k]) {
      QuietBetween(w.circuit, steps, i, j);
      assert false;
    }
    var k :| i < k < j && Ends(steps[k]);
  }

  function Events(steps: seq<Step>): (es: seq<Event>)
    ensures |es| == |steps| && forall k :: 0 <= k < |steps| ==> es[k] == EventOf(steps[k])
  {
    seq(|steps|, k requires 0 <= k < |steps| => EventOf(steps[k]))
  }

  /** The interleaved calls drive the breaker exactly as the sequence of their breaker events does. */
  lemma {:induction false} RunIsEvents(w: World, steps: seq<Step>)
    requires Feasible(w, steps)
    ensures Run(w, steps).circuit == At(w.circuit, Events(steps), |steps|)
    decreases |steps|
  {
    if steps != [] {
      RunIsEvents(Next(w, steps[0]), steps[1..]);
      AtShift(w.circuit, Events(steps), Events(steps[1..]), |steps[1..]|);
    }
  }

  lemma {:induction false} AtShift(c: Circuit, es: seq<Event>, tail: seq<Event>, k: nat)
    requires es != [] && tail == es[1..] && k <= |tail|
    ensures At(c, es, k + 1) == At(Apply(c, es[0]), tail, k)
  {
    if k > 0 {
      AtShift(c, es, tail, k - 1);
    }
  }

  // ---------- one Evaluate is one of these calls ----------

  /** The steps an Evaluate that ended in decision d takes as call i. */
  function StepsOf(d: Decisions.Decision, i: nat, now: real): seq<Step> {
    if d.action == Scoring.KILL_SWITCH then [Kill(now), Peek(now)]
    else if d.rule == Scoring.CIRCUIT_OPEN then [Enter(i, now), Peek(now)]
    else if d.action != Scoring.BLOCK then [Enter(i, now), Peek(now), Report(i, true, false, now)]
    else if d.rule == Scoring.INSUFFICIENT_BUDGET || d.level != Scoring.CRITICAL then
      [Enter(i, now), Peek(now), Report(i, false, false, now)]
    else [Enter(i, now), Peek(now), Report(i, false, true, now), FollowUp(i, now), Peek(now)]
  }

  lemma OneMore(w: World, s: Step, rest: seq<Step>)
    requires Enabled(w, s) && Feasible(Next(w, s), rest)
    ensures Feasible(w, [s] + rest) && Run(w, [s] + rest) == Run(Next(w, s), rest)
  {
    assert ([s] + rest)[1..] == rest;
  }

  /** Evaluate on this tenant's breaker, run as call i of the interleaved world: the steps are possible, lead to the breaker it leaves and end the call. */
  lemma EvaluateIsOneCall(p: Scoring.Policy, killed: bool, ten: Decisions.Tenant, b: Books.Book, req: Decisions.Request,
                          now: real, stamp: string, w: World, i: nat)
    requires Scoring.PolicyOk(p) && w.circuit == ten.breaker && (i in w.calls ==> w.calls[i] == Outside)
    ensures var l := Decisions.Decide(p, killed, ten, b, req, now, stamp);
            var steps := StepsOf(l.decision, i, now);
            && Feasible(w, steps) && Run(w, steps).circuit == l.tenant.breaker
            && (i in Run(w, steps).calls ==> Run(w, steps).calls[i] == Outside)
  {
    var l := Decisions.Decide(p, killed, ten, b, req, now, stamp);
    Decisions.DecideFolds(p, killed, ten, b, req, now, stamp);
    GateOf(p, killed, ten, b, req, now, stamp);
    CallRuns(w, l.decision, i, now);
  }

  /** What the decision says about the gate. */
  lemma GateOf(p: Scoring.Policy, killed: bool, ten: Decisions.Tenant, b: Books.Book, req: Decisions.Request, now: real, stamp: string)
    requires Scoring.PolicyOk(p)
    ensures var d := Decisions.Decide(p, killed, ten, b, req, now, stamp).decision;
            d.action != Scoring.KILL_SWITCH ==> (d.rule == Scoring.CIRCUIT_OPEN <==> !Allows(ten.breaker, now))
  {
  }

  lemma CallRuns(w: World, d: Decisions.Decision, i: nat, now: real)
    requires i in w.calls ==> w.calls[i] == Outside
    requires d.action != Scoring.KILL_SWITCH ==> (d.rule == Scoring.CIRCUIT_OPEN <==> !Allows(w.circuit, now))
    ensures var steps := StepsOf(d, i, now);
            && Feasible(w, steps) && Run(w, steps).circuit == Fold(w.circuit, Decisions.BreakerCalls(d, now))
            && (i in Run(w, steps).calls ==> Run(w, steps).calls[i] == Outside)
  {
    var look := Peek(now);
    if d.action == Scoring.KILL_SWITCH {
      TwoSteps(w, Kill(now), look);
    } else if d.rule == Scoring.CIRCUIT_OPEN {
      TwoSteps(w, Enter(i, now), look);
    } else {
      AdmittedRuns(w, d, i, now);
    }
  }

  lemma TwoSteps(w: World, s: Step, s': Step)
    requires Enabled(w, s) && Enabled(Next(w, s), s')
    ensures Feasible(w, [s, s']) && Run(w, [s, s']) == Next(Next(w, s), s')
    ensures Fold(w.circuit, [EventOf(s), EventOf(s')]) == Next(Next(w, s), s').circuit
  {
    var w1 := Next(w, s);
    assert Feasible(Next(w1, s'), []);
    OneMore(w1, s', []);
    OneMore(w, s, [s']);
    assert [s] + [s'] == [s, s'];
    assert [s'] + [] == [s'];
    FoldTwo(w.circuit, EventOf(s), EventOf(s'));
  }

  lemma AdmittedRuns(w: World, d: Decisions.Decision, i: nat, now: real)
    requires (i in w.calls ==> w.calls[i] == Outside) && Allows(w.circuit, now)
    requires d.action != Scoring.KILL_SWITCH && d.rule != Scoring.CIRCUIT_OPEN
    ensures var steps := StepsOf(d, i, now);
            && Feasible(w, steps) && Run(w, steps).circuit == Fold(w.circuit, Decisions.BreakerCalls(d, now))
            && i in Run(w, steps).calls && Run(w, steps).calls[i] == Outside
  {
    var enter, look := Enter(i, now), Peek(now);
    var w2 := Next(Next(w, enter), look);
    var critical := d.action == Scoring.BLOCK && d.rule != Scoring.INSUFFICIENT_BUDGET && d.level == Scoring.CRITICAL;
    var report := Report(i, d.action != Scoring.BLOCK, critical, now);
    var w3 := Next(w2, report);
    TwoSteps(w, enter, look);
    if critical {
      TwoSteps(w3, FollowUp(i, now), look);
      OneMore(w2, report, [FollowUp(i, now), look]);
      OneMore(Next(w, enter), look, [report] + [FollowUp(i, now), look]);
      OneMore(w, enter, [look] + ([report] + [FollowUp(i, now), look]));
      assert StepsOf(d, i, now) == [enter] + ([look] + ([report] + [FollowUp(i, now), look]));
      Decisions.FoldFive(w.circuit, now);
      assert Decisions.BreakerCalls(d, now)
          == [Event(Allow, now), Event(Look, now), Event(Failure, now), Event(Trip, now), Event(Look, now)];
    } else {
      assert Feasible(w3, []);
      OneMore(w2, report, []);
      OneMore(Next(w, enter), look, [report] + []);
      OneMore(w, enter, [look] + ([report] + []));
      assert StepsOf(d, i, now) == [enter] + ([look] + ([report] + []));
      FoldThree(w.circuit, Event(Allow, now), Event(Look, now), EventOf(report));
      assert Decisions.BreakerCalls(d, now) == [Event(Allow, now), Event(Look, now), EventOf(report)];
    }
  }
}

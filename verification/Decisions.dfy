/**
 * Evaluate (internal/risk/engine.go) as one function of the engine's state, the manager's books and the clock,
 * and what sequences of engine calls keep. One call reads the clock once.
 */
module Decisions {
  import opened Books
  import opened CircuitBreaker
  import opened Scoring
  import opened Trackers

  datatype Tenant = Tenant(tracker: Tracker, breaker: Circuit)

  datatype Engine = Engine(
    tenants: map<string, Tenant>,
    killAll: bool, killTenant: map<string, bool>, killProvider: map<string, bool>)

  datatype Request = Request(tenant: string, provider: string, cost: int, concurrency: int)

  /** `score` and `level` stay 0 and LOW when the call is refused before scoring; "" is no reservation. */
  datatype Decision = Decision(action: Action, rule: Rule, score: int, level: Level, reservation: string, shown: Phase)

  datatype Outcome = Outcome(engine: Engine, book: Book, decision: Decision)

  function FreshTenant(p: Policy): Tenant {
    Tenant(Tracker(Window(p.short, []), Window(p.medium, []), Window(p.long, []), 0.0, false),
           Circuit(CLOSED, 0.0, p.cooldown))
  }

  /** stateFor: created on first use. */
  function TenantOf(p: Policy, e: Engine, t: string): Tenant {
    if t in e.tenants then e.tenants[t] else FreshTenant(p)
  }

  predicate On(m: map<string, bool>, k: string) {
    k in m && m[k]
  }

  predicate Killed(e: Engine, tenant: string, provider: string) {
    e.killAll || On(e.killTenant, tenant) || On(e.killProvider, provider)
  }

  function With(e: Engine, t: string, ten: Tenant): Engine {
    e.(tenants := e.tenants[t := ten])
  }

  function Inputs(ten: Tenant, b: Book, req: Request, now: real): Factors {
    var a := BalanceOf(b, req.tenant);
    FactorsOf(ten.tracker, now, a.limit, a.reserved, a.settled, req.cost, req.concurrency)
  }

  /** The breaker after a score-based block: a report, and a trip as well when the level is critical. */
  function Punished(c: Circuit, score: int, now: real): Circuit {
    if LevelFor(score) == CRITICAL then Advance(Tripped(Failed(c, now), now), now) else Failed(c, now)
  }

  /** What one decision leaves of the tenant's state and of the books. */
  datatype Lane = Lane(tenant: Tenant, book: Book, decision: Decision)

  /** Evaluate from its State() read on: the switch on the score, block, or reserve and report. */
  function Resolve(p: Policy, ten: Tenant, b: Book, req: Request, score: int, rule: Rule, now: real, stamp: string): Lane {
    var t := req.tenant;
    var c := Advance(ten.breaker, now);
    if score >= p.block then
      var c' := Punished(c, score, now);
      Lane(ten.(breaker := c'), b,
           Decision(BLOCK, rule, score, LevelFor(score), "", Shown(if LevelFor(score) == CRITICAL then c' else c)))
    else if !Covers(b, t, req.cost) then
      Lane(ten.(breaker := Failed(c, now)), b,
           Decision(BLOCK, INSUFFICIENT_BUDGET, score, LevelFor(score), "", Shown(c)))
    else
      Lane(ten.(breaker := Succeeded(c)), Granted(b, t, req.cost, p.ttl, now, stamp),
           Decision(if score >= p.throttle then THROTTLE else ALLOW, rule, score, LevelFor(score),
                    Digits.Id(stamp, b.issued + 1), Shown(c)))
  }

  /** The part of Evaluate behind the breaker gate: read, score, resolve. */
  function Admitted(p: Policy, ten: Tenant, b: Book, req: Request, now: real, stamp: string): Lane
    requires PolicyOk(p)
  {
    var x := Inputs(ten, b, req, now);
    var read := Tenant(AfterReads(ten.tracker, now), AfterAllow(ten.breaker, now));
    Resolve(p, read, Opened(b, req.tenant), req, Score(p, x), ScoreRule(p, x), now, stamp)
  }

  /** Evaluate's work on one tenant's breaker and tracker. */
  function Decide(p: Policy, killed: bool, ten: Tenant, b: Book, req: Request, now: real, stamp: string): Lane
    requires PolicyOk(p)
  {
    if killed then
      var c := Advance(Tripped(ten.breaker, now), now);
      Lane(ten.(breaker := c), b, Decision(KILL_SWITCH, KILL_SWITCH_ACTIVE, 0, LOW, "", Shown(c)))
    else if !Allows(ten.breaker, now) then
      var c := Advance(AfterAllow(ten.breaker, now), now);
      Lane(ten.(breaker := c), Opened(b, req.tenant), Decision(BLOCK, CIRCUIT_OPEN, 0, LOW, "", Shown(c)))
    else Admitted(p, ten, b, req, now, stamp)
  }

  function Evaluate(p: Policy, e: Engine, b: Book, req: Request, now: real, stamp: string): Outcome
    requires PolicyOk(p)
  {
    var l := Decide(p, Killed(e, req.tenant, req.provider), TenantOf(p, e, req.tenant), b, req, now, stamp);
    Outcome(With(e, req.tenant, l.tenant), l.book, l.decision)
  }

  /** Looking the tenant up first, which may create it, and deciding then. */
  lemma EvaluateStores(p: Policy, e: Engine, b: Book, req: Request, now: real, stamp: string,
                       killed: bool, ten: Tenant, e1: Engine, e2: Engine, l: Lane)
    requires PolicyOk(p) && killed == Killed(e, req.tenant, req.provider) && ten == TenantOf(p, e, req.tenant)
    requires e1 == With(e, req.tenant, ten) && e2 == With(e1, req.tenant, l.tenant)
    requires l == Decide(p, killed, ten, b, req, now, stamp)
    ensures Outcome(e2, l.book, l.decision) == Evaluate(p, e, b, req, now, stamp)
  {
  }

  /** RecordUsage. */
  function Used(p: Policy, e: Engine, t: string, now: real, cost: int): Engine {
    var ten := TenantOf(p, e, t);
    With(e, t, ten.(tracker := Recorded(ten.tracker, now, cost)))
  }

  lemma UsedStores(p: Policy, e: Engine, t: string, now: real, cost: int, e1: Engine, e2: Engine)
    requires var ten := TenantOf(p, e, t);
             e1 == With(e, t, ten) && e2 == With(e1, t, ten.(tracker := Recorded(ten.tracker, now, cost)))
    ensures e2 == Used(p, e, t, now, cost)
  {
  }

  // ---------- what one decision does to the books ----------

  ghost predicate SameMoney(b: Book, b': Book) {
    && b'.reservations == b.reservations && b'.issued == b.issued
    && forall t :: BalanceOf(b', t) == BalanceOf(b, t)
  }

  /** A refusal leaves every reservation and every balance alone; a grant files exactly the estimate. */
  lemma DecisionAndBooks(p: Policy, e: Engine, b: Book, req: Request, now: real, stamp: string)
    requires PolicyOk(p)
    ensures var o := Evaluate(p, e, b, req, now, stamp);
            if o.decision.action == ALLOW || o.decision.action == THROTTLE
            then Covers(b, req.tenant, req.cost)
                 && o.book == Granted(Opened(b, req.tenant), req.tenant, req.cost, p.ttl, now, stamp)
                 && o.decision.reservation == Digits.Id(stamp, b.issued + 1)
            else SameMoney(b, o.book) && o.decision.reservation == ""
  {
    var t, ten := req.tenant, TenantOf(p, e, req.tenant);
    if !Killed(e, t, req.provider) && Allows(ten.breaker, now) {
      var x := Inputs(ten, b, req, now);
      var read := Tenant(AfterReads(ten.tracker, now), AfterAllow(ten.breaker, now));
      ResolveAndBooks(p, read, Opened(b, t), req, Score(p, x), ScoreRule(p, x), now, stamp);
    }
  }

  lemma ResolveAndBooks(p: Policy, ten: Tenant, b: Book, req: Request, score: int, rule: Rule, now: real, stamp: string)
    ensures var l := Resolve(p, ten, b, req, score, rule, now, stamp);
            if l.decision.action == ALLOW || l.decision.action == THROTTLE
            then Covers(b, req.tenant, req.cost) && l.book == Granted(b, req.tenant, req.cost, p.ttl, now, stamp)
                 && l.decision.reservation == Digits.Id(stamp, b.issued + 1)
            else l.book == b && l.decision.reservation == "" && l.decision.action == BLOCK
  {
  }

  /** The breaker lets a request through: closed, half open, or open for at least its cooldown. */
  predicate Admits(c: Circuit, now: real) {
    c.phase == CLOSED || c.phase == HALF_OPEN || (c.phase == OPEN && now - c.openedAt >= c.cooldown)
  }

  /** Without a kill switch, Evaluate refuses for the breaker exactly when it does not admit; otherwise the action is the score's verdict. */
  lemma EvaluateIsVerdict(p: Policy, e: Engine, b: Book, req: Request, now: real, stamp: string)
    requires PolicyOk(p) && !Killed(e, req.tenant, req.provider)
    ensures var ten := TenantOf(p, e, req.tenant);
            var d := Evaluate(p, e, b, req, now, stamp).decision;
            && (d.rule == CIRCUIT_OPEN <==> !Admits(ten.breaker, now))
            && d.action == if Admits(ten.breaker, now) then Verdict(p, Inputs(ten, b, req, now)) else BLOCK
  {
    assert BalanceOf(Opened(b, req.tenant), req.tenant) == BalanceOf(b, req.tenant);
  }

  /** Under the default policy, the answer on the tenant's speeds, its account and the request alone. */
  lemma DefaultEvaluateExactly(e: Engine, b: Book, req: Request, now: real, stamp: string)
    requires !Killed(e, req.tenant, req.provider) && Admits(TenantOf(DEFAULT_POLICY, e, req.tenant).breaker, now)
    ensures var a, t := BalanceOf(b, req.tenant), TenantOf(DEFAULT_POLICY, e, req.tenant).tracker;
            Evaluate(DEFAULT_POLICY, e, b, req, now, stamp).decision.action
              == DefaultAnswer(t, now, a.limit, a.reserved, a.settled, req.cost, req.concurrency)
  {
    var a := BalanceOf(b, req.tenant);
    EvaluateIsVerdict(DEFAULT_POLICY, e, b, req, now, stamp);
    DefaultVerdictExactly(TenantOf(DEFAULT_POLICY, e, req.tenant).tracker, now, a.limit, a.reserved, a.settled, req.cost, req.concurrency);
  }

  /** What a decision says about itself: the score and the level it falls in, the rule found, and the circuit's state. */
  lemma DecisionExplained(p: Policy, e: Engine, b: Book, req: Request, now: real, stamp: string)
    requires PolicyOk(p) && p.cooldown > 0.0 && Uniform(p, e)
    ensures var ten := TenantOf(p, e, req.tenant);
            var o := Evaluate(p, e, b, req, now, stamp);
            var d, c := o.decision, ten.breaker;
            && (d.level == CRITICAL <==> d.score >= 90) && (d.level == HIGH <==> 70 <= d.score < 90)
            && (d.level == MEDIUM <==> 40 <= d.score < 70) && (d.level == LOW <==> d.score < 40)
            && (if d.action == KILL_SWITCH then d.rule == KILL_SWITCH_ACTIVE && d.score == 0 && d.shown == OPEN
                else if d.rule == CIRCUIT_OPEN then d.action == BLOCK && d.score == 0 && d.shown == (if c.phase == OPEN then OPEN else HALF_OPEN)
                else
                  && d.score == Score(p, Inputs(ten, b, req, now))
                  && (d.rule == INSUFFICIENT_BUDGET <==> d.action == BLOCK && d.score < p.block)
                  && (d.rule != INSUFFICIENT_BUDGET ==> d.rule == ScoreRule(p, Inputs(ten, b, req, now)))
                  && d.shown == (if d.score >= p.block && d.score >= 90 then OPEN else if c.phase == CLOSED then CLOSED else HALF_OPEN))
  {
    var ten, t := TenantOf(p, e, req.tenant), req.tenant;
    if !Killed(e, t, req.provider) && Allows(ten.breaker, now) {
      var x := Inputs(ten, b, req, now);
      var read := Tenant(AfterReads(ten.tracker, now), AfterAllow(ten.breaker, now));
      ScoreRuleIsScored(p, x);
      ResolveExplained(p, read, Opened(b, t), req, Score(p, x), ScoreRule(p, x), now, stamp);
    }
  }

  lemma ScoreRuleIsScored(p: Policy, x: Factors)
    requires PolicyOk(p)
    ensures ScoreRule(p, x) !in {KILL_SWITCH_ACTIVE, CIRCUIT_OPEN, INSUFFICIENT_BUDGET}
  {
  }

  lemma ResolveExplained(p: Policy, ten: Tenant, b: Book, req: Request, score: int, rule: Rule, now: real, stamp: string)
    requires rule !in {KILL_SWITCH_ACTIVE, CIRCUIT_OPEN, INSUFFICIENT_BUDGET}
    requires ten.breaker.phase == CLOSED || ten.breaker.phase == TESTING
    requires ten.breaker.cooldown > 0.0
    ensures var d := Resolve(p, ten, b, req, score, rule, now, stamp).decision;
            && d.score == score && d.level == LevelFor(score) && d.action != KILL_SWITCH
            && d.rule == (if d.action == BLOCK && score < p.block then INSUFFICIENT_BUDGET else rule)
            && d.shown == (if score >= p.block && score >= 90 then OPEN else if ten.breaker.phase == CLOSED then CLOSED else HALF_OPEN)
  {
  }

  // ---------- quarantine over sequences of calls ----------

  datatype Plant = Plant(engine: Engine, book: Book)

  datatype Command =
    | Eval(req: Request, now: real, stamp: string)
    | Usage(tenant: string, now: real, cost: int)
    | KillEverything(on: bool)
    | KillTenant(tenant: string, on: bool)
    | KillProvider(provider: string, on: bool)
    | Budget(tenant: string, limit: int)
    | Settle(id: string, how: Closing)

  function Do(p: Policy, s: Plant, c: Command): Plant
    requires PolicyOk(p)
  {
    match c
    case Eval(req, now, stamp) =>
      var o := Evaluate(p, s.engine, s.book, req, now, stamp);
      Plant(o.engine, o.book)
    case Usage(t, now, cost) => s.(engine := Used(p, s.engine, t, now, cost))
    case KillEverything(on) => s.(engine := s.engine.(killAll := on))
    case KillTenant(t, on) => s.(engine := s.engine.(killTenant := s.engine.killTenant[t := on]))
    case KillProvider(pr, on) => s.(engine := s.engine.(killProvider := s.engine.killProvider[pr := on]))
    case Budget(t, limit) => s.(book := Budgeted(s.book, t, limit))
    case Settle(id, how) => s.(book := CloseIn(s.book, id, how))
  }

  /** The plant after the first k commands. */
  function After(p: Policy, s: Plant, cs: seq<Command>, k: nat): Plant
    requires PolicyOk(p) && k <= |cs|
  {
    if k == 0 then s else Do(p, After(p, s, cs, k - 1), cs[k - 1])
  }

  /** Tenant t's breaker is open since a time not before t0. */
  predicate OpenSince(p: Policy, e: Engine, t: string, t0: real) {
    && t in e.tenants
    && var c := e.tenants[t].breaker;
       c.phase == OPEN && c.openedAt >= t0 && c.cooldown == p.cooldown
  }

  /** Every breaker carries the policy's cooldown. */
  ghost predicate Uniform(p: Policy, e: Engine) {
    forall t :: t in e.tenants ==> e.tenants[t].breaker.cooldown == p.cooldown
  }

  /** A kill, a score block or a budget refusal opens the breaker at once. */
  lemma ViolationOpens(p: Policy, e: Engine, b: Book, req: Request, now: real, stamp: string)
    requires PolicyOk(p) && Uniform(p, e) && p.cooldown > 0.0
    requires var d := Evaluate(p, e, b, req, now, stamp).decision;
             d.action == KILL_SWITCH || (d.action == BLOCK && d.rule != CIRCUIT_OPEN)
    ensures OpenSince(p, Evaluate(p, e, b, req, now, stamp).engine, req.tenant, now)
  {
  }

  lemma StepKeepsOpen(p: Policy, s: Plant, c: Command, t: string, t0: real)
    requires PolicyOk(p) && OpenSince(p, s.engine, t, t0)
    requires c.Eval? && c.req.tenant == t ==> t0 <= c.now < t0 + p.cooldown
    ensures OpenSince(p, Do(p, s, c).engine, t, t0)
    ensures c.Eval? && c.req.tenant == t ==>
              var o := Evaluate(p, s.engine, s.book, c.req, c.now, c.stamp);
              o.decision.action in {BLOCK, KILL_SWITCH} && SameMoney(s.book, o.book)
  {
  }

  /**
   * Quarantine. After an Evaluate that ends in KILL_SWITCH, or in BLOCK for any rule but CIRCUIT_OPEN, every
   * Evaluate of that tenant within the cooldown is refused and moves no money, whatever calls come in between:
   * switching the kill switch off again, raising the budget, recording usage, other tenants' requests.
   */
  lemma {:induction false} Quarantine(p: Policy, s: Plant, cs: seq<Command>, t: string, t0: real, k: nat)
    requires PolicyOk(p) && OpenSince(p, s.engine, t, t0) && k < |cs|
    requires forall i :: 0 <= i < |cs| && cs[i].Eval? && cs[i].req.tenant == t ==> t0 <= cs[i].now < t0 + p.cooldown
    requires cs[k].Eval? && cs[k].req.tenant == t
    ensures var before := After(p, s, cs, k);
            var o := Evaluate(p, before.engine, before.book, cs[k].req, cs[k].now, cs[k].stamp);
            o.decision.action in {BLOCK, KILL_SWITCH} && SameMoney(before.book, o.book)
  {
    OpenThroughout(p, s, cs, t, t0, k);
    StepKeepsOpen(p, After(p, s, cs, k), cs[k], t, t0);
  }

  lemma {:induction false} OpenThroughout(p: Policy, s: Plant, cs: seq<Command>, t: string, t0: real, k: nat)
    requires PolicyOk(p) && OpenSince(p, s.engine, t, t0) && k <= |cs|
    requires forall i :: 0 <= i < |cs| && cs[i].Eval? && cs[i].req.tenant == t ==> t0 <= cs[i].now < t0 + p.cooldown
    ensures OpenSince(p, After(p, s, cs, k).engine, t, t0)
  {
    if k > 0 {
      OpenThroughout(p, s, cs, t, t0, k - 1);
      StepKeepsOpen(p, After(p, s, cs, k - 1), cs[k - 1], t, t0);
    }
  }

  // ---------- one decision as breaker calls ----------

  /** The breaker calls after a granted Allow: a look, exactly one report, and a trip on a critical block. */
  function ReportCalls(d: Decision, now: real): seq<Event> {
    if d.action != BLOCK then [Event(Look, now), Event(Success, now)]
    else if d.rule == INSUFFICIENT_BUDGET || d.level != CRITICAL then [Event(Look, now), Event(Failure, now)]
    else [Event(Look, now), Event(Failure, now), Event(Trip, now), Event(Look, now)]
  }

  /** The breaker calls of one Evaluate, in order. */
  function BreakerCalls(d: Decision, now: real): seq<Event> {
    if d.action == KILL_SWITCH then [Event(Trip, now), Event(Look, now)]
    else if d.rule == CIRCUIT_OPEN then [Event(Allow, now), Event(Look, now)]
    else [Event(Allow, now)] + ReportCalls(d, now)
  }

  /** The calls of a critical block. */
  lemma FoldFive(c: Circuit, now: real)
    ensures Fold(c, [Event(Allow, now), Event(Look, now), Event(Failure, now), Event(Trip, now), Event(Look, now)])
         == Advance(Tripped(Failed(Advance(AfterAllow(c, now), now), now), now), now)
  {
    var a, l, f, t := Event(Allow, now), Event(Look, now), Event(Failure, now), Event(Trip, now);
    assert [a, l, f, t, l][1..] == [l, f, t, l] && [l, f, t, l][1..] == [f, t, l];
    FoldThree(Apply(Apply(c, a), l), f, t, l);
  }

  lemma ResolveFolds(p: Policy, ten: Tenant, c: Circuit, b: Book, req: Request, score: int, rule: Rule, now: real, stamp: string)
    requires rule != CIRCUIT_OPEN && rule != INSUFFICIENT_BUDGET && ten.breaker == AfterAllow(c, now)
    ensures var l := Resolve(p, ten, b, req, score, rule, now, stamp);
            l.tenant.breaker == Fold(c, BreakerCalls(l.decision, now))
  {
    var l := Resolve(p, ten, b, req, score, rule, now, stamp);
    var allow, look, fail, trip := Event(Allow, now), Event(Look, now), Event(Failure, now), Event(Trip, now);
    if l.decision.action != BLOCK {
      FoldThree(c, allow, look, Event(Success, now));
      assert BreakerCalls(l.decision, now) == [allow, look, Event(Success, now)];
    } else if l.decision.rule == INSUFFICIENT_BUDGET || l.decision.level != CRITICAL {
      FoldThree(c, allow, look, fail);
      assert BreakerCalls(l.decision, now) == [allow, look, fail];
    } else {
      FoldFive(c, now);
      assert BreakerCalls(l.decision, now) == [allow, look, fail, trip, look];
    }
  }

  lemma DecideFolds(p: Policy, killed: bool, ten: Tenant, b: Book, req: Request, now: real, stamp: string)
    requires PolicyOk(p)
    ensures var l := Decide(p, killed, ten, b, req, now, stamp);
            l.tenant.breaker == Fold(ten.breaker, BreakerCalls(l.decision, now))
  {
    if killed {
      FoldTwo(ten.breaker, Event(Trip, now), Event(Look, now));
    } else if !Allows(ten.breaker, now) {
      FoldTwo(ten.breaker, Event(Allow, now), Event(Look, now));
    } else {
      var x := Inputs(ten, b, req, now);
      var read := Tenant(AfterReads(ten.tracker, now), AfterAllow(ten.breaker, now));
      ResolveFolds(p, read, ten.breaker, Opened(b, req.tenant), req, Score(p, x), ScoreRule(p, x), now, stamp);
    }
  }

  /**
   * Evaluate moves the tenant's breaker exactly as its calls say: one Allow, and after a yes exactly one report, a
   * failure if it blocks and a success if it reserves, with a Trip on top of a critical block.
   */
  lemma DecideDrivesBreaker(p: Policy, killed: bool, ten: Tenant, b: Book, req: Request, now: real, stamp: string)
    requires PolicyOk(p)
    ensures var l := Decide(p, killed, ten, b, req, now, stamp);
            var calls := BreakerCalls(l.decision, now);
            l.tenant.breaker == At(ten.breaker, calls, |calls|)
  {
    var l := Decide(p, killed, ten, b, req, now, stamp);
    var calls := BreakerCalls(l.decision, now);
    DecideFolds(p, killed, ten, b, req, now, stamp);
    FoldIsRun(ten.breaker, calls, |calls|);
    assert calls[|calls|..] == [];
  }

  /** No breaker is in the hidden testing state. */
  ghost predicate NoneTesting(e: Engine) {
    forall t :: t in e.tenants ==> e.tenants[t].breaker.phase != TESTING
  }

  /** A trial granted to an Evaluate is over when it returns: its own reservation closes the breaker, its own block reopens it. */
  lemma TrialEndsInEvaluate(p: Policy, e: Engine, b: Book, req: Request, now: real, stamp: string)
    requires PolicyOk(p) && p.cooldown > 0.0 && Uniform(p, e) && !Killed(e, req.tenant, req.provider)
    requires Advance(TenantOf(p, e, req.tenant).breaker, now).phase == HALF_OPEN
    ensures var o := Evaluate(p, e, b, req, now, stamp);
            && o.decision.rule != CIRCUIT_OPEN
            && o.engine.tenants[req.tenant].breaker.phase == if o.decision.action == BLOCK then OPEN else CLOSED
  {
  }

  lemma EvaluateLeavesNoneTesting(p: Policy, e: Engine, b: Book, req: Request, now: real, stamp: string)
    requires PolicyOk(p) && NoneTesting(e)
    ensures NoneTesting(Evaluate(p, e, b, req, now, stamp).engine)
  {
  }

  lemma StepLeavesNoneTesting(p: Policy, s: Plant, c: Command)
    requires PolicyOk(p) && NoneTesting(s.engine)
    ensures NoneTesting(Do(p, s, c).engine)
  {
    if c.Eval? {
      EvaluateLeavesNoneTesting(p, s.engine, s.book, c.req, c.now, c.stamp);
    }
  }

  /** So taken one at a time, no sequence of engine calls leaves a tenant locked out in a trial nobody is running. */
  lemma {:induction false} NoTrialIsLeftOver(p: Policy, s: Plant, cs: seq<Command>, k: nat)
    requires PolicyOk(p) && NoneTesting(s.engine) && k <= |cs|
    ensures NoneTesting(After(p, s, cs, k).engine)
  {
    if k > 0 {
      NoTrialIsLeftOver(p, s, cs, k - 1);
      StepLeavesNoneTesting(p, After(p, s, cs, k - 1), cs[k - 1]);
    }
  }

  /** Whatever one tenant is decided, no other tenant's breaker, tracker or balance moves. */
  lemma TenantsAreIsolated(p: Policy, e: Engine, b: Book, req: Request, now: real, stamp: string, u: string)
    requires PolicyOk(p) && u != req.tenant
    ensures var o := Evaluate(p, e, b, req, now, stamp);
            TenantOf(p, o.engine, u) == TenantOf(p, e, u) && BalanceOf(o.book, u) == BalanceOf(b, u)
  {
  }

  /** Quarantine, from the decision that caused it. */
  lemma ViolationQuarantines(p: Policy, s: Plant, req: Request, now: real, stamp: string, cs: seq<Command>, k: nat)
    requires PolicyOk(p) && Uniform(p, s.engine) && p.cooldown > 0.0 && k < |cs|
    requires var d := Evaluate(p, s.engine, s.book, req, now, stamp).decision;
             d.action == KILL_SWITCH || (d.action == BLOCK && d.rule != CIRCUIT_OPEN)
    requires forall i :: 0 <= i < |cs| && cs[i].Eval? && cs[i].req.tenant == req.tenant ==>
               now <= cs[i].now < now + p.cooldown
    requires cs[k].Eval? && cs[k].req.tenant == req.tenant
    ensures var before := After(p, Do(p, s, Eval(req, now, stamp)), cs, k);
            var o := Evaluate(p, before.engine, before.book, cs[k].req, cs[k].now, cs[k].stamp);
            o.decision.action in {BLOCK, KILL_SWITCH} && SameMoney(before.book, o.book)
  {
    ViolationOpens(p, s.engine, s.book, req, now, stamp);
    Quarantine(p, Do(p, s, Eval(req, now, stamp)), cs, req.tenant, now, k);
  }

  // ---------- the kill switches ----------

  /** The latest global switch in the first k commands; off if there was none. */
  predicate AllSwitch(cs: seq<Command>, k: nat)
    requires k <= |cs|
  {
    k > 0 && if cs[k - 1].KillEverything? then cs[k - 1].on else AllSwitch(cs, k - 1)
  }

  /** The latest switch for this tenant. */
  predicate TenantSwitch(cs: seq<Command>, k: nat, t: string)
    requires k <= |cs|
  {
    k > 0 && if cs[k - 1].KillTenant? && cs[k - 1].tenant == t then cs[k - 1].on else TenantSwitch(cs, k - 1, t)
  }

  /** The latest switch for this provider. */
  predicate ProviderSwitch(cs: seq<Command>, k: nat, pr: string)
    requires k <= |cs|
  {
    k > 0 && if cs[k - 1].KillProvider? && cs[k - 1].provider == pr then cs[k - 1].on else ProviderSwitch(cs, k - 1, pr)
  }

  /** An engine on which no switch was ever set. */
  predicate NoSwitches(e: Engine) {
    !e.killAll && e.killTenant == map[] && e.killProvider == map[]
  }

  lemma {:induction false} SwitchesAreLatest(p: Policy, s: Plant, cs: seq<Command>, k: nat, t: string, pr: string)
    requires PolicyOk(p) && NoSwitches(s.engine) && k <= |cs|
    ensures var e := After(p, s, cs, k).engine;
            && e.killAll == AllSwitch(cs, k)
            && On(e.killTenant, t) == TenantSwitch(cs, k, t)
            && On(e.killProvider, pr) == ProviderSwitch(cs, k, pr)
  {
    if k > 0 {
      SwitchesAreLatest(p, s, cs, k - 1, t, pr);
      StepSetsSwitch(p, After(p, s, cs, k - 1), cs[k - 1], t, pr);
    }
  }

  lemma StepSetsSwitch(p: Policy, s: Plant, c: Command, t: string, pr: string)
    requires PolicyOk(p)
    ensures var e, e' := s.engine, Do(p, s, c).engine;
            && e'.killAll == (if c.KillEverything? then c.on else e.killAll)
            && On(e'.killTenant, t) == (if c.KillTenant? && c.tenant == t then c.on else On(e.killTenant, t))
            && On(e'.killProvider, pr) == (if c.KillProvider? && c.provider == pr then c.on else On(e.killProvider, pr))
  {
  }

  lemma KilledIsAnswered(p: Policy, e: Engine, b: Book, req: Request, now: real, stamp: string)
    requires PolicyOk(p)
    ensures Evaluate(p, e, b, req, now, stamp).decision.action == KILL_SWITCH
       <==> e.killAll || On(e.killTenant, req.tenant) || On(e.killProvider, req.provider)
  {
    DecisionIsKill(p, Killed(e, req.tenant, req.provider), TenantOf(p, e, req.tenant), b, req, now, stamp);
  }

  lemma DecisionIsKill(p: Policy, killed: bool, ten: Tenant, b: Book, req: Request, now: real, stamp: string)
    requires PolicyOk(p)
    ensures Decide(p, killed, ten, b, req, now, stamp).decision.action == KILL_SWITCH <==> killed
  {
  }

  /**
   * Over every run from an engine with no switch set: Evaluate answers KILL_SWITCH exactly when the latest command for
   * all, for the tenant or for the provider switched it on.
   */
  lemma KillSwitchExactly(p: Policy, s: Plant, cs: seq<Command>, k: nat)
    requires PolicyOk(p) && NoSwitches(s.engine) && k < |cs| && cs[k].Eval?
    ensures var before, req := After(p, s, cs, k), cs[k].req;
            var answer := Evaluate(p, before.engine, before.book, req, cs[k].now, cs[k].stamp).decision.action;
            answer == KILL_SWITCH <==> AllSwitch(cs, k) || TenantSwitch(cs, k, req.tenant) || ProviderSwitch(cs, k, req.provider)
  {
    var before, req := After(p, s, cs, k), cs[k].req;
    SwitchesAreLatest(p, s, cs, k, req.tenant, req.provider);
    KilledIsAnswered(p, before.engine, before.book, req, cs[k].now, cs[k].stamp);
  }

  /** Worse inputs never get a milder action. */
  lemma ActionMonotone(p: Policy, e: Engine, b: Book, req: Request, now: real,
                       e': Engine, b': Book, req': Request, now': real, stamp: string)
    requires PolicyOk(p) && Balanced(p.weights)
    requires !Killed(e, req.tenant, req.provider) && !Killed(e', req'.tenant, req'.provider)
    requires TenantOf(p, e, req.tenant).breaker.phase == CLOSED && TenantOf(p, e', req'.tenant).breaker.phase == CLOSED
    requires NoLess(Inputs(TenantOf(p, e, req.tenant), b, req, now), Inputs(TenantOf(p, e', req'.tenant), b', req', now'))
    ensures Severity(Evaluate(p, e, b, req, now, stamp).decision.action)
         <= Severity(Evaluate(p, e', b', req', now', stamp).decision.action)
  {
    EvaluateIsVerdict(p, e, b, req, now, stamp);
    EvaluateIsVerdict(p, e', b', req', now', stamp);
    VerdictMonotone(p, Inputs(TenantOf(p, e, req.tenant), b, req, now), Inputs(TenantOf(p, e', req'.tenant), b', req', now'));
  }

  lemma ScoreDecided(p: Policy, e: Engine, b: Book, req: Request, now: real, stamp: string)
    requires PolicyOk(p)
    ensures var d := Evaluate(p, e, b, req, now, stamp).decision;
            var score := Score(p, Inputs(TenantOf(p, e, req.tenant), b, req, now));
            && (d.action == BLOCK && d.rule != CIRCUIT_OPEN && d.rule != INSUFFICIENT_BUDGET ==> score >= p.block)
            && (d.action == THROTTLE ==> score >= p.throttle)
  {
  }

  /** What a score-based BLOCK by the default policy tells about the tenant's spend. */
  lemma DefaultBlockDecision(e: Engine, b: Book, req: Request, now: real, stamp: string)
    requires var d := Evaluate(DEFAULT_POLICY, e, b, req, now, stamp).decision;
             d.action == BLOCK && d.rule != CIRCUIT_OPEN && d.rule != INSUFFICIENT_BUDGET
    ensures var tr := TenantOf(DEFAULT_POLICY, e, req.tenant).tracker;
            var a := BalanceOf(b, req.tenant);
            && Outpaces(tr, now, 15.0) && SpeedsUp(tr, now, 0.5)
            && a.limit > 0 && 3 * (a.reserved + a.settled + req.cost) >= 2 * a.limit
  {
    ScoreDecided(DEFAULT_POLICY, e, b, req, now, stamp);
    var a := BalanceOf(b, req.tenant);
    DefaultBlockMeans(TenantOf(DEFAULT_POLICY, e, req.tenant).tracker, now, a.limit, a.reserved, a.settled, req.cost, req.concurrency);
  }

  lemma DefaultThrottleDecision(e: Engine, b: Book, req: Request, now: real, stamp: string)
    requires Evaluate(DEFAULT_POLICY, e, b, req, now, stamp).decision.action == THROTTLE
    ensures Outpaces(TenantOf(DEFAULT_POLICY, e, req.tenant).tracker, now, 5.0)
  {
    ScoreDecided(DEFAULT_POLICY, e, b, req, now, stamp);
    var a := BalanceOf(b, req.tenant);
    DefaultThrottleMeans(TenantOf(DEFAULT_POLICY, e, req.tenant).tracker, now, a.limit, a.reserved, a.settled, req.cost, req.concurrency);
  }

  // ---------- a tenant's first request ----------

  lemma NothingSpentYet(p: Policy, now: real)
    ensures var t := FreshTenant(p).tracker; Multiplier(t, now) == 0.0 && Acceleration(t, now) == 0.0
  {
  }

  /** With no spend on record, budget and concurrency together score at most 40. */
  lemma QuietScore(x: Factors)
    requires x.velocity == 0.0 && x.acceleration == 0.0
    ensures Score(DEFAULT_POLICY, x) <= 40
  {
    var s := SubscoresOf(DEFAULT_POLICY, x);
    assert s.velocity == 0.0 && s.acceleration == 0.0;
    BlendedInRange(DEFAULT_POLICY.weights, s);
  }

  /** Under the default policy a new tenant's request is allowed whenever its budget covers the estimate. */
  lemma FirstRequestIsAllowed(e: Engine, b: Book, req: Request, now: real, stamp: string)
    requires req.tenant !in e.tenants && !Killed(e, req.tenant, req.provider) && Covers(b, req.tenant, req.cost)
    ensures Evaluate(DEFAULT_POLICY, e, b, req, now, stamp).decision.action == ALLOW
  {
    NothingSpentYet(DEFAULT_POLICY, now);
    QuietScore(Inputs(FreshTenant(DEFAULT_POLICY), b, req, now));
    EvaluateIsVerdict(DEFAULT_POLICY, e, b, req, now, stamp);
  }

  // ---------- the default policy's times ----------

  /** Under the default policy a violation keeps its tenant out for 15 seconds. */
  lemma DefaultQuarantine(s: Plant, req: Request, now: real, stamp: string, cs: seq<Command>, k: nat)
    requires Uniform(DEFAULT_POLICY, s.engine) && k < |cs| && cs[k].Eval? && cs[k].req.tenant == req.tenant
    requires var d := Evaluate(DEFAULT_POLICY, s.engine, s.book, req, now, stamp).decision;
             d.action == KILL_SWITCH || (d.action == BLOCK && d.rule != CIRCUIT_OPEN)
    requires forall i :: 0 <= i < |cs| && cs[i].Eval? && cs[i].req.tenant == req.tenant ==> now <= cs[i].now < now + 15.0
    ensures var before := After(DEFAULT_POLICY, Do(DEFAULT_POLICY, s, Eval(req, now, stamp)), cs, k);
            var o := Evaluate(DEFAULT_POLICY, before.engine, before.book, cs[k].req, cs[k].now, cs[k].stamp);
            o.decision.action in {BLOCK, KILL_SWITCH} && SameMoney(before.book, o.book)
  {
    ViolationQuarantines(DEFAULT_POLICY, s, req, now, stamp, cs, k);
  }

  /** And a granted hold lasts 30. */
  lemma DefaultHold(e: Engine, b: Book, req: Request, now: real, stamp: string)
    requires Evaluate(DEFAULT_POLICY, e, b, req, now, stamp).decision.action in {ALLOW, THROTTLE}
    ensures var o := Evaluate(DEFAULT_POLICY, e, b, req, now, stamp);
            && o.decision.reservation in o.book.reservations
            && var r := o.book.reservations[o.decision.reservation];
               r.tenant == req.tenant && r.amount == req.cost && r.state == RESERVED && r.createdAt == now && r.expiresAt == now + 30.0
  {
    DecisionAndBooks(DEFAULT_POLICY, e, b, req, now, stamp);
    GrantedHold(Opened(b, req.tenant), req.tenant, req.cost, 30.0, now, stamp);
  }

  lemma GrantedHold(b: Book, t: string, amount: int, ttl: real, now: real, stamp: string)
    ensures var b', id := Granted(b, t, amount, ttl, now, stamp), Digits.Id(stamp, b.issued + 1);
            && id in b'.reservations && b'.reservations[id].tenant == t && b'.reservations[id].amount == amount
            && b'.reservations[id].state == RESERVED
            && b'.reservations[id].createdAt == now && b'.reservations[id].expiresAt == now + ttl
  {
  }
}

/** The risk engine object (internal/risk/engine.go): its tenants' trackers and breakers, and the manager it reserves in. */
module Engines {
  import opened Books
  import opened CircuitBreaker
  import opened Decisions
  import opened Managers
  import opened Scoring
  import opened Trackers

  /** tenantState: a tracker and a breaker that never change identity. */
  class TenantState {
    const tracker: MultiWindowTracker
    const breaker: Breaker

    ghost function Repr(): set<object> {
      tracker.Repr() + {breaker}
    }

    ghost predicate Valid() {
      tracker.Valid()
    }

    function Value(): Tenant
      reads Repr()
    {
      Tenant(tracker.Value(), breaker.Value())
    }

    constructor (p: Policy)
      ensures Valid() && fresh(Repr()) && Value() == FreshTenant(p) && breaker.trace == []
    {
      tracker := new MultiWindowTracker(p.short, p.medium, p.long);
      breaker := new Breaker(p.cooldown);
    }

    /** The breaker's part of a score-based block. */
    method Punish(score: int, now: real, shown: Phase) returns (seen: Phase)
      modifies breaker
      ensures breaker.Value() == Punished(old(breaker.Value()), score, now)
      ensures seen == if LevelFor(score) == CRITICAL then Shown(breaker.Value()) else shown
      ensures breaker.trace == old(breaker.trace) + [Event(Failure, now)]
           + if LevelFor(score) == CRITICAL then [Event(Trip, now), Event(Look, now)] else []
    {
      breaker.ReportFailure(now);
      seen := shown;
      if LevelFor(score) == CRITICAL {
        breaker.Trip(now);
        seen := breaker.State(now);
      }
    }

    /** Velocity, acceleration and exposure, read before scoring. */
    method ReadInputs(reserv: Manager, req: Request, now: real) returns (x: Factors)
      requires Valid() && reserv.Valid() && reserv !in Repr()
      modifies tracker.Repr(), reserv
      ensures reserv.Valid()
      ensures x == Inputs(old(Value()), old(reserv.Value()), req, now)
      ensures tracker.Value() == AfterReads(old(tracker.Value()), now)
      ensures reserv.Value() == Opened(old(reserv.Value()), req.tenant) && req.tenant in reserv.accounts
    {
      ReadsAgree(tracker.Value(), now);
      var velocity := tracker.VelocityMultiplier(now);
      var acceleration := tracker.Accelerate(now);
      var e := reserv.GetExposure(req.tenant);
      x := Factors(e.limit, e.reserved, e.settled, req.cost, velocity, acceleration, tracker.baseline, req.concurrency);
    }

    /** The switch on the score. */
    method Conclude(p: Policy, reserv: Manager, req: Request, score: int, rule: Rule, now: real, stamp: string)
      returns (d: Decision)
      requires Valid() && reserv.Valid() && reserv !in Repr()
      requires req.tenant in reserv.accounts
      modifies breaker, reserv
      ensures reserv.Valid() && tracker.Value() == old(tracker.Value())
      ensures Lane(Value(), reserv.Value(), d)
           == Resolve(p, old(Value()), old(reserv.Value()), req, score, rule, now, stamp)
      ensures rule != INSUFFICIENT_BUDGET ==> breaker.trace == old(breaker.trace) + ReportCalls(d, now)
    {
      ghost var trace := breaker.trace;
      var shown := breaker.State(now);
      if score >= p.block {
        shown := Punish(score, now, shown);
        Longer(trace, [Event(Look, now)], [Event(Failure, now)]
                 + if LevelFor(score) == CRITICAL then [Event(Trip, now), Event(Look, now)] else []);
        return Decision(BLOCK, rule, score, LevelFor(score), "", shown);
      }
      var granted, id := reserv.Reserve(req.tenant, req.cost, p.ttl, now, stamp);
      if !granted {
        breaker.ReportFailure(now);
        Longer(trace, [Event(Look, now)], [Event(Failure, now)]);
        return Decision(BLOCK, INSUFFICIENT_BUDGET, score, LevelFor(score), "", shown);
      }
      breaker.ReportSuccess(now);
      Longer(trace, [Event(Look, now)], [Event(Success, now)]);
      d := Decision(if score >= p.throttle then THROTTLE else ALLOW, rule, score, LevelFor(score), id, shown);
    }

    /** Behind the gate: the breaker has said yes. */
    method Admit(p: Policy, reserv: Manager, req: Request, now: real, stamp: string, ghost before: Tenant)
      returns (d: Decision)
      requires PolicyOk(p) && Valid() && reserv.Valid() && reserv !in Repr()
      requires tracker.Value() == before.tracker && breaker.Value() == AfterAllow(before.breaker, now)
      modifies Repr(), reserv
      ensures reserv.Valid()
      ensures Lane(Value(), reserv.Value(), d) == Admitted(p, before, old(reserv.Value()), req, now, stamp)
      ensures breaker.trace == old(breaker.trace) + ReportCalls(d, now) && d.rule != CIRCUIT_OPEN && d.action != KILL_SWITCH
    {
      var x := ReadInputs(reserv, req, now);
      d := Conclude(p, reserv, req, Score(p, x), ScoreRule(p, x), now, stamp);
    }

    method Decide(p: Policy, killed: bool, reserv: Manager, req: Request, now: real, stamp: string)
      returns (d: Decision)
      requires PolicyOk(p) && Valid() && reserv.Valid() && reserv !in Repr()
      modifies Repr(), reserv
      ensures reserv.Valid()
      ensures Lane(Value(), reserv.Value(), d)
           == Decisions.Decide(p, killed, old(Value()), old(reserv.Value()), req, now, stamp)
      ensures breaker.trace == old(breaker.trace) + BreakerCalls(d, now)
    {
      ghost var before := Value();
      if killed {
        breaker.Trip(now);
        var shown := breaker.State(now);
        return Decision(KILL_SWITCH, KILL_SWITCH_ACTIVE, 0, LOW, "", shown);
      }
      var ok := breaker.Allow(now);
      if !ok {
        var e := reserv.GetExposure(req.tenant);
        var shown := breaker.State(now);
        return Decision(BLOCK, CIRCUIT_OPEN, 0, LOW, "", shown);
      }
      d := Admit(p, reserv, req, now, stamp, before);
    }

    method Record(now: real, cost: int)
      requires Valid()
      modifies Repr()
      ensures Value() == old(Value()).(tracker := Recorded(old(Value()).tracker, now, cost))
    {
      tracker.Record(now, cost);
    }
  }

  lemma Longer(a: seq<Event>, b: seq<Event>, c: seq<Event>)
    ensures a + b + c == a + (b + c)
  {
  }

  /** Each tenant has its own tracker and breaker, all among the objects in repr. */
  ghost predicate Separate(m: map<string, TenantState>, repr: set<object>) {
    && (forall t :: t in m ==> m[t].Valid() && m[t].Repr() <= repr)
    && (forall t, u :: t in m && u in m && t != u ==> m[t].Repr() !! m[u].Repr())
  }

  ghost function Values(m: map<string, TenantState>, repr: set<object>): map<string, Tenant>
    requires Separate(m, repr)
    reads repr
  {
    map t | t in m :: m[t].Value()
  }

  lemma SeparatePut(m: map<string, TenantState>, repr: set<object>, t: string, ts: TenantState)
    requires Separate(m, repr) && t !in m && ts.Valid() && ts.Repr() !! repr
    ensures Separate(m[t := ts], repr + ts.Repr())
  {
    forall u | u in m ensures m[u].Repr() !! ts.Repr() {
      assert m[u].Repr() <= repr;
    }
  }

  /** Where no tenant's object was written, no value has changed. */
  lemma SameValues(before: map<string, Tenant>, m: map<string, TenantState>, repr: set<object>)
    requires Separate(m, repr) && m.Keys == before.Keys
    requires forall u :: u in m ==> m[u].Value() == before[u]
    ensures Values(m, repr) == before
  {
  }

  /** Writing one tenant's objects changes that tenant's value only. */
  lemma OneMoved(before: map<string, Tenant>, m: map<string, TenantState>, repr: set<object>, t: string)
    requires Separate(m, repr) && m.Keys == before.Keys + {t}
    requires forall u :: u in m && u != t ==> m[u].Value() == before[u]
    ensures Values(m, repr) == before[t := m[t].Value()]
  {
  }

  class RiskEngine {
    const reserv: Manager
    const policy: Policy
    var tenants: map<string, TenantState>
    var killAll: bool
    var killTenant: map<string, bool>
    var killProvider: map<string, bool>

    /** The tenants' objects, which a call may write besides the engine and its manager. */
    ghost var Repr: set<object>

    ghost predicate Owned()
      reads this
    {
      Separate(tenants, Repr) && this !in Repr && reserv !in Repr
    }

    ghost predicate Valid()
      reads this, reserv
    {
      PolicyOk(policy) && reserv.Valid() && Owned()
    }

    ghost function Value(): Engine
      requires Owned()
      reads this, Repr
    {
      Engine(Values(tenants, Repr), killAll, killTenant, killProvider)
    }

    constructor (reserv: Manager, policy: Policy)
      requires PolicyOk(policy) && reserv.Valid()
      ensures Valid() && this.reserv == reserv && this.policy == policy && Repr == {}
      ensures Value() == Engine(map[], false, map[], map[])
    {
      this.reserv := reserv;
      this.policy := policy;
      tenants, killAll, killTenant, killProvider := map[], false, map[], map[];
      Repr := {};
    }

    method KillAll(on: bool)
      requires Valid()
      modifies this
      ensures Valid() && Repr == old(Repr)
      ensures Value() == old(Value()).(killAll := on)
    {
      ghost var before := Values(tenants, Repr);
      killAll := on;
      assert Values(tenants, Repr) == before by {
        SameValues(before, tenants, Repr);
      }
    }

    method KillTenant(t: string, on: bool)
      requires Valid()
      modifies this
      ensures Valid() && Repr == old(Repr)
      ensures Value() == old(Value()).(killTenant := old(Value()).killTenant[t := on])
    {
      ghost var before := Values(tenants, Repr);
      killTenant := killTenant[t := on];
      assert Values(tenants, Repr) == before by {
        SameValues(before, tenants, Repr);
      }
    }

    method KillProvider(p: string, on: bool)
      requires Valid()
      modifies this
      ensures Valid() && Repr == old(Repr)
      ensures Value() == old(Value()).(killProvider := old(Value()).killProvider[p := on])
    {
      ghost var before := Values(tenants, Repr);
      killProvider := killProvider[p := on];
      assert Values(tenants, Repr) == before by {
        SameValues(before, tenants, Repr);
      }
    }

    predicate KillSwitchActive(t: string, p: string)
      reads this
    {
      killAll || (t in killTenant && killTenant[t]) || (p in killProvider && killProvider[p])
    }

    /** The tenant's own state object: made on first use, the same one ever after. */
    method StateFor(t: string) returns (ts: TenantState)
      requires Valid()
      modifies this
      ensures Valid() && t in tenants && ts == tenants[t]
      ensures t in old(tenants) ==> tenants == old(tenants) && Repr == old(Repr)
      ensures fresh(Repr - old(Repr)) && fresh(ts.Repr() - old(Repr))
      ensures Value() == With(old(Value()), t, TenantOf(policy, old(Value()), t))
      ensures ts.Value() == TenantOf(policy, old(Value()), t)
    {
      if t in tenants {
        ts := tenants[t];
        assert Values(tenants, Repr)[t := ts.Value()] == Values(tenants, Repr);
      } else {
        ts := NewState(t);
      }
    }

    method NewState(t: string) returns (ts: TenantState)
      requires Valid() && t !in tenants
      modifies this
      ensures Valid() && tenants == old(tenants)[t := ts] && fresh(ts.Repr())
      ensures Repr == old(Repr) + ts.Repr()
      ensures Value() == With(old(Value()), t, FreshTenant(policy)) && ts.Value() == FreshTenant(policy)
    {
      ts := new TenantState(policy);
      Keep(t, ts);
    }

    method Keep(t: string, ts: TenantState)
      requires Valid() && t !in tenants && ts.Valid()
      requires ts.Repr() !! Repr && this !in ts.Repr() && reserv !in ts.Repr()
      modifies this
      ensures Valid() && tenants == old(tenants)[t := ts] && Repr == old(Repr) + ts.Repr()
      ensures Value() == With(old(Value()), t, ts.Value()) && ts.Value() == old(ts.Value())
    {
      ghost var m, before := tenants, Values(tenants, Repr);
      SeparatePut(m, Repr, t, ts);
      tenants, Repr := tenants[t := ts], Repr + ts.Repr();
      OneMoved(before, tenants, Repr, t);
    }

    method Evaluate(req: Request, now: real, stamp: string) returns (d: Decision)
      requires Valid()
      modifies this, reserv, Repr
      ensures Valid() && fresh(Repr - old(Repr)) && req.tenant in tenants
      ensures Outcome(Value(), reserv.Value(), d)
           == Decisions.Evaluate(policy, old(Value()), old(reserv.Value()), req, now, stamp)
    {
      ghost var e := Value();
      var ts := StateFor(req.tenant);
      d := DecideStored(ts, KillSwitchActive(req.tenant, req.provider), req, now, stamp, e);
    }

    /** Evaluate from the kill switch on; `e` is the engine as it was before the tenant's state was looked up. */
    method DecideStored(ts: TenantState, killed: bool, req: Request, now: real, stamp: string, ghost e: Engine)
      returns (d: Decision)
      requires Valid() && req.tenant in tenants && ts == tenants[req.tenant]
      requires killed == Killed(e, req.tenant, req.provider) && ts.Value() == TenantOf(policy, e, req.tenant)
      requires Value() == With(e, req.tenant, ts.Value())
      modifies ts.Repr(), reserv
      ensures reserv.Valid() && unchanged(this)
      ensures Outcome(Value(), reserv.Value(), d) == Decisions.Evaluate(policy, e, old(reserv.Value()), req, now, stamp)
    {
      ghost var ten, e1, b := ts.Value(), Value(), reserv.Value();
      ghost var l;
      d, l := DecideFor(ts, killed, req, now, stamp);
      EvaluateStores(policy, e, b, req, now, stamp, killed, ten, e1, Value(), l);
    }

    /** The rest of Evaluate, on the tenant's own objects. */
    method DecideFor(ts: TenantState, killed: bool, req: Request, now: real, stamp: string)
      returns (d: Decision, ghost l: Lane)
      requires Valid() && req.tenant in tenants && ts == tenants[req.tenant]
      modifies ts.Repr(), reserv
      ensures reserv.Valid() && unchanged(this)
      ensures l == Decisions.Decide(policy, killed, old(ts.Value()), old(reserv.Value()), req, now, stamp)
      ensures Value() == With(old(Value()), req.tenant, l.tenant) && reserv.Value() == l.book && d == l.decision
    {
      ghost var before := Values(tenants, Repr);
      d := ts.Decide(policy, killed, reserv, req, now, stamp);
      l := Lane(ts.Value(), reserv.Value(), d);
      assert Values(tenants, Repr) == before[req.tenant := l.tenant] by {
        OneMoved(before, tenants, Repr, req.tenant);
      }
    }

    method RecordUsage(t: string, now: real, cost: int)
      requires Valid()
      modifies this, Repr
      ensures Valid() && fresh(Repr - old(Repr)) && (t in old(tenants) ==> Repr == old(Repr))
      ensures Value() == Used(policy, old(Value()), t, now, cost)
    {
      ghost var e := Value();
      var ts := StateFor(t);
      ghost var e1 := Value();
      RecordFor(ts, t, now, cost);
      UsedStores(policy, e, t, now, cost, e1, Value());
    }

    method RecordFor(ts: TenantState, t: string, now: real, cost: int)
      requires Valid() && t in tenants && ts == tenants[t]
      modifies ts.Repr()
      ensures reserv.Valid() && unchanged(this)
      ensures Value() == With(old(Value()), t, old(ts.Value()).(tracker := Recorded(old(ts.Value()).tracker, now, cost)))
    {
      ghost var before := Values(tenants, Repr);
      ts.Record(now, cost);
      OneMoved(before, tenants, Repr, t);
    }
  }
}

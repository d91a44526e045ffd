/**
 * What the engine's velocities mean over whole runs: for every tenant and every sequence of engine calls, the speeds
 * that Evaluate scores are those of the spend reported by RecordUsage, and nothing else.
 */
module SpendHistory {
  import opened Books
  import opened Decisions
  import opened Scoring
  import opened Trackers
  import opened Windows

  /** Calls that touch tenant t's tracker, at a time. */
  predicate Concerns(c: Command, t: string) {
    (c.Eval? && c.req.tenant == t) || (c.Usage? && c.tenant == t)
  }

  function TimeOf(c: Command): real
    requires c.Eval? || c.Usage?
  {
    c.now
  }

  function WithUsage(h: seq<Sample>, c: Command, t: string): seq<Sample> {
    if c.Usage? && c.tenant == t then h + [Sample(c.now, c.cost)] else h
  }

  /** All spend reported for tenant t in the first k calls. */
  function Reported(cs: seq<Command>, t: string, k: nat): seq<Sample>
    requires k <= |cs|
  {
    if k == 0 then [] else WithUsage(Reported(cs, t, k - 1), cs[k - 1], t)
  }

  /** Tenant t's calls among the first k come under a non-decreasing clock, not past `now`. */
  ghost predicate InTime(cs: seq<Command>, t: string, k: nat, now: real)
    requires k <= |cs|
  {
    k == 0 ||
    if Concerns(cs[k - 1], t) then TimeOf(cs[k - 1]) <= now && InTime(cs, t, k - 1, TimeOf(cs[k - 1]))
    else InTime(cs, t, k - 1, now)
  }

  function TrackerOf(p: Policy, e: Engine, t: string): Tracker {
    TenantOf(p, e, t).tracker
  }

  /** Tenant t's tracker has the policy's windows and stands for history h. */
  ghost predicate Follows(p: Policy, t: Tracker, h: seq<Sample>, asOf: real) {
    && t.short.lookback == p.short && t.medium.lookback == p.medium && t.long.lookback == p.long
    && Stands(t, h, asOf)
  }

  lemma FollowsLater(p: Policy, t: Tracker, h: seq<Sample>, asOf: real, now: real)
    requires Follows(p, t, h, asOf) && asOf <= now
    ensures Follows(p, t, h, now)
  {
    StandsLater(t, h, asOf, now);
  }

  lemma FollowsOn(p: Policy, t: Tracker, h: seq<Sample>, asOf: real, u: Use)
    requires Follows(p, t, h, asOf) && asOf <= u.at
    ensures Follows(p, Touched(t, u), WithSpend(h, u), u.at)
  {
    TouchedStands(t, h, asOf, u);
  }

  /** Evaluate does to its tenant's tracker what its reads do, or nothing. */
  lemma EvaluateReads(p: Policy, e: Engine, b: Book, req: Request, now: real, stamp: string)
    requires PolicyOk(p)
    ensures var t, t' := TrackerOf(p, e, req.tenant), TrackerOf(p, Evaluate(p, e, b, req, now, stamp).engine, req.tenant);
            t' == t || t' == Touched(t, ReadAcceleration(now))
  {
  }

  lemma OthersKeepTracker(p: Policy, s: Plant, c: Command, t: string)
    requires PolicyOk(p) && !Concerns(c, t)
    ensures TrackerOf(p, Do(p, s, c).engine, t) == TrackerOf(p, s.engine, t)
  {
    if c.Eval? {
      TenantsAreIsolated(p, s.engine, s.book, c.req, c.now, c.stamp, t);
    }
  }

  lemma DoFollows(p: Policy, s: Plant, c: Command, t: string, h: seq<Sample>)
    requires PolicyOk(p) && Concerns(c, t) && Follows(p, TrackerOf(p, s.engine, t), h, TimeOf(c))
    ensures Follows(p, TrackerOf(p, Do(p, s, c).engine, t), WithUsage(h, c, t), TimeOf(c))
  {
    var tr := TrackerOf(p, s.engine, t);
    if c.Eval? {
      EvaluateReads(p, s.engine, s.book, c.req, c.now, c.stamp);
      FollowsOn(p, tr, h, c.now, ReadAcceleration(c.now));
    } else {
      FollowsOn(p, tr, h, c.now, Spend(c.now, c.cost));
      assert TrackerOf(p, Do(p, s, c).engine, t) == Touched(tr, Spend(c.now, c.cost));
    }
  }

  /** From a tenant the engine has not seen, through any calls for it and for others. */
  lemma {:induction false} TrackerFollowsReports(p: Policy, s: Plant, cs: seq<Command>, t: string, k: nat, now: real)
    requires PolicyOk(p) && t !in s.engine.tenants && k <= |cs| && InTime(cs, t, k, now)
    ensures Follows(p, TrackerOf(p, After(p, s, cs, k).engine, t), Reported(cs, t, k), now)
  {
    if k > 0 {
      var c := cs[k - 1];
      if Concerns(c, t) {
        TrackerFollowsReports(p, s, cs, t, k - 1, TimeOf(c));
        DoFollows(p, After(p, s, cs, k - 1), c, t, Reported(cs, t, k - 1));
        FollowsLater(p, TrackerOf(p, After(p, s, cs, k).engine, t), Reported(cs, t, k), TimeOf(c), now);
      } else {
        TrackerFollowsReports(p, s, cs, t, k - 1, now);
        OthersKeepTracker(p, After(p, s, cs, k - 1), c, t);
      }
    }
  }

  /** The velocity and acceleration Evaluate scores are those of the reported spend. */
  lemma ScoredSpeedsAreReported(p: Policy, s: Plant, cs: seq<Command>, t: string, k: nat, now: real)
    requires PolicyOk(p) && t !in s.engine.tenants && k <= |cs| && InTime(cs, t, k, now)
    ensures var tr, h := TrackerOf(p, After(p, s, cs, k).engine, t), Reported(cs, t, k);
            && Speed(tr.short, now) == RecordedSpeed(h, now, p.short)
            && Acceleration(tr, now) == RecordedSpeed(h, now, p.short) - RecordedSpeed(h, now, p.medium)
            && (tr.baseline > 0.0 ==> Multiplier(tr, now) == RecordedSpeed(h, now, p.short) / tr.baseline)
  {
    TrackerFollowsReports(p, s, cs, t, k, now);
    SpeedsAreExact(TrackerOf(p, After(p, s, cs, k).engine, t), Reported(cs, t, k), now);
  }

  /** Under the default policy the three windows are 10, 60 and 300 seconds of reported spend. */
  lemma DefaultWindows(s: Plant, cs: seq<Command>, t: string, k: nat, now: real)
    requires t !in s.engine.tenants && k <= |cs| && InTime(cs, t, k, now)
    ensures var tr, h := TrackerOf(DEFAULT_POLICY, After(DEFAULT_POLICY, s, cs, k).engine, t), Reported(cs, t, k);
            && Speed(tr.short, now) == RecordedSpeed(h, now, 10.0)
            && Speed(tr.medium, now) == RecordedSpeed(h, now, 60.0)
            && Speed(tr.long, now) == RecordedSpeed(h, now, 300.0)
  {
    TrackerFollowsReports(DEFAULT_POLICY, s, cs, t, k, now);
    SpeedsAreExact(TrackerOf(DEFAULT_POLICY, After(DEFAULT_POLICY, s, cs, k).engine, t), Reported(cs, t, k), now);
  }

  /** Reported spend over the last 10 seconds runs at f or more times the baseline. */
  predicate ReportedOutpaces(h: seq<Sample>, now: real, baseline: real, f: real) {
    baseline > 0.0 && RecordedSpeed(h, now, 10.0) >= f * baseline
  }

  /** Reported spend over the last 10 seconds outruns that over the last 60 by f or more times the baseline. */
  predicate ReportedSpeedsUp(h: seq<Sample>, now: real, baseline: real, f: real) {
    RecordedSpeed(h, now, 10.0) - RecordedSpeed(h, now, 60.0) >= f * baseline
  }

  /**
   * Over every run: a score-based BLOCK by the default policy is about spend that was really reported for that tenant,
   * and about money really committed.
   */
  lemma BlockIsAboutReportedSpend(s: Plant, cs: seq<Command>, k: nat)
    requires k < |cs| && cs[k].Eval? && cs[k].req.tenant !in s.engine.tenants && InTime(cs, cs[k].req.tenant, k, cs[k].now)
    requires var before := After(DEFAULT_POLICY, s, cs, k);
             var d := Evaluate(DEFAULT_POLICY, before.engine, before.book, cs[k].req, cs[k].now, cs[k].stamp).decision;
             d.action == BLOCK && d.rule != CIRCUIT_OPEN && d.rule != INSUFFICIENT_BUDGET
    ensures var before, t, now := After(DEFAULT_POLICY, s, cs, k), cs[k].req.tenant, cs[k].now;
            var h, baseline, a := Reported(cs, t, k), TrackerOf(DEFAULT_POLICY, before.engine, t).baseline, BalanceOf(before.book, t);
            && ReportedOutpaces(h, now, baseline, 15.0) && ReportedSpeedsUp(h, now, baseline, 0.5)
            && a.limit > 0 && 3 * (a.reserved + a.settled + cs[k].req.cost) >= 2 * a.limit
  {
    var before := After(DEFAULT_POLICY, s, cs, k);
    DefaultBlockDecision(before.engine, before.book, cs[k].req, cs[k].now, cs[k].stamp);
    ScoredSpeedsAreReported(DEFAULT_POLICY, s, cs, cs[k].req.tenant, k, cs[k].now);
  }

  /** And a THROTTLE is about reported spend at 5 or more times the baseline. */
  lemma ThrottleIsAboutReportedSpend(s: Plant, cs: seq<Command>, k: nat)
    requires k < |cs| && cs[k].Eval? && cs[k].req.tenant !in s.engine.tenants && InTime(cs, cs[k].req.tenant, k, cs[k].now)
    requires var before := After(DEFAULT_POLICY, s, cs, k);
             Evaluate(DEFAULT_POLICY, before.engine, before.book, cs[k].req, cs[k].now, cs[k].stamp).decision.action == THROTTLE
    ensures var before, t := After(DEFAULT_POLICY, s, cs, k), cs[k].req.tenant;
            ReportedOutpaces(Reported(cs, t, k), cs[k].now, TrackerOf(DEFAULT_POLICY, before.engine, t).baseline, 5.0)
  {
    var before := After(DEFAULT_POLICY, s, cs, k);
    DefaultThrottleDecision(before.engine, before.book, cs[k].req, cs[k].now, cs[k].stamp);
    ScoredSpeedsAreReported(DEFAULT_POLICY, s, cs, cs[k].req.tenant, k, cs[k].now);
  }
}

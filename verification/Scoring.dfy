/** The risk score and the verdict it leads to (internal/risk/engine.go), over reals for float64. */
module Scoring {
  import opened Windows
  import opened Trackers

  datatype Weights = Weights(budget: real, velocity: real, acceleration: real, concurrency: real)

  datatype Policy = Policy(
    weights: Weights, velocityTarget: real, maxConcurrency: int, throttle: int, block: int,
    ttl: real, cooldown: real, short: real, medium: real, long: real)

  const DEFAULT_POLICY :=
    Policy(Weights(0.30, 0.40, 0.20, 0.10), 20.0, 50, 70, 90, 30.0, 15.0, 10.0, 60.0, 300.0)

  /** A zero target would divide by zero. */
  predicate PolicyOk(p: Policy) {
    p.velocityTarget > 0.0
  }

  ghost predicate Balanced(w: Weights) {
    && w.budget >= 0.0 && w.velocity >= 0.0 && w.acceleration >= 0.0 && w.concurrency >= 0.0
    && w.budget + w.velocity + w.acceleration + w.concurrency == 1.0
  }

  /** What the score is computed from. */
  datatype Factors = Factors(
    limit: int, reserved: int, settled: int, cost: int,
    velocity: real, acceleration: real, baseline: real, concurrency: int)

  function Clamp01(f: real): (r: real)
    ensures 0.0 <= r <= 1.0 && (0.0 <= f <= 1.0 ==> r == f)
  {
    if f < 0.0 then 0.0 else if f > 1.0 then 1.0 else f
  }

  /** A ratio as a subscore. */
  function Percent(a: real, d: real): (r: real)
    requires d > 0.0
    ensures 0.0 <= r <= 100.0
  {
    Clamp01(a / d) * 100.0
  }

  /** The four subscores, each in 0..100. */
  datatype Subscores = Subscores(budget: real, velocity: real, acceleration: real, concurrency: real)

  ghost predicate InRange(s: Subscores) {
    && 0.0 <= s.budget <= 100.0 && 0.0 <= s.velocity <= 100.0
    && 0.0 <= s.acceleration <= 100.0 && 0.0 <= s.concurrency <= 100.0
  }

  /** Spend over limit: both amounts are divided by the same unit first, which cancels. */
  function SubscoresOf(p: Policy, x: Factors): (s: Subscores)
    requires PolicyOk(p)
    ensures InRange(s)
  {
    Subscores(
      if x.limit > 0 then Percent((x.reserved + x.settled + x.cost) as real, x.limit as real) else 0.0,
      Percent(x.velocity, p.velocityTarget),
      if x.acceleration > 0.0 then Percent(x.acceleration, if x.baseline <= 0.0 then 1.0 else x.baseline) else 0.0,
      if p.maxConcurrency > 0 then Percent(x.concurrency as real, p.maxConcurrency as real) else 0.0)
  }

  function Blended(w: Weights, s: Subscores): real {
    w.budget * s.budget + w.velocity * s.velocity + w.acceleration * s.acceleration + w.concurrency * s.concurrency
  }

  /** Go's float-to-int conversion drops the fraction towards zero. */
  function Truncate(r: real): int {
    if r >= 0.0 then r.Floor else -((-r).Floor)
  }

  /** The score is clamped to 0..100 at the end. */
  function ScoreOf(w: Weights, s: Subscores): (n: int)
    ensures 0 <= n <= 100
  {
    var n := Truncate(Blended(w, s));
    if n > 100 then 100 else if n < 0 then 0 else n
  }

  function Score(p: Policy, x: Factors): int
    requires PolicyOk(p)
  {
    ScoreOf(p.weights, SubscoresOf(p, x))
  }

  datatype Rule = COMPOSITE_SCORE | BUDGET_EXHAUSTED | ABNORMAL_SPEND_ACCELERATION | SUSTAINED_ACCELERATION
                | KILL_SWITCH_ACTIVE | CIRCUIT_OPEN | INSUFFICIENT_BUDGET

  function ScoreRule(p: Policy, x: Factors): Rule
    requires PolicyOk(p)
  {
    var s := SubscoresOf(p, x);
    if s.budget >= 99.0 then BUDGET_EXHAUSTED
    else if s.velocity >= 99.0 then ABNORMAL_SPEND_ACCELERATION
    else if s.acceleration >= 80.0 then SUSTAINED_ACCELERATION
    else COMPOSITE_SCORE
  }

  datatype Level = LOW | MEDIUM | HIGH | CRITICAL

  function LevelFor(score: int): Level {
    if score >= 90 then CRITICAL else if score >= 70 then HIGH else if score >= 40 then MEDIUM else LOW
  }

  datatype Action = ALLOW | THROTTLE | BLOCK | KILL_SWITCH

  /** Evaluate's switch, with a closed breaker and no kill switch: Reserve refuses what the account cannot cover. */
  function Verdict(p: Policy, x: Factors): Action
    requires PolicyOk(p)
  {
    if Score(p, x) >= p.block then BLOCK
    else if x.limit - x.reserved - x.settled < x.cost then BLOCK
    else if Score(p, x) >= p.throttle then THROTTLE
    else ALLOW
  }

  // ---------- range ----------

  lemma ScaledBetween(w: real, s: real) returns (x: real)
    requires w >= 0.0 && 0.0 <= s <= 100.0
    ensures x == w * s && 0.0 <= x <= w * 100.0
  {
    x := w * s;
  }

  /** A convex blend of four subscores is a subscore. */
  lemma ConvexInRange(w: real, x: real, y: real, z: real, a: real, b: real, c: real, d: real)
    requires w >= 0.0 && x >= 0.0 && y >= 0.0 && z >= 0.0 && w + x + y + z == 1.0
    requires 0.0 <= a <= 100.0 && 0.0 <= b <= 100.0 && 0.0 <= c <= 100.0 && 0.0 <= d <= 100.0
    ensures 0.0 <= w * a + x * b + y * c + z * d <= 100.0
  {
    var p := ScaledBetween(w, a);
    var q := ScaledBetween(x, b);
    var r := ScaledBetween(y, c);
    var s := ScaledBetween(z, d);
    assert 0.0 <= p + q + r + s <= 100.0;
  }

  /** "Weights sum to 1.0 so the blended score stays in 0-100": the final clamps never act. */
  lemma BlendedInRange(w: Weights, s: Subscores)
    requires Balanced(w) && InRange(s)
    ensures 0.0 <= Blended(w, s) <= 100.0
    ensures ScoreOf(w, s) == Blended(w, s).Floor
  {
    ConvexInRange(w.budget, w.velocity, w.acceleration, w.concurrency,
                  s.budget, s.velocity, s.acceleration, s.concurrency);
  }

  // ---------- monotonicity ----------

  /** y is at least as risky as x in every factor, against the same limit and baseline. */
  predicate NoLess(x: Factors, y: Factors) {
    && x.limit == y.limit && x.baseline == y.baseline
    && x.reserved <= y.reserved && x.settled <= y.settled && x.cost <= y.cost
    && x.velocity <= y.velocity && x.acceleration <= y.acceleration && x.concurrency <= y.concurrency
  }

  predicate AtMost(s: Subscores, t: Subscores) {
    && s.budget <= t.budget && s.velocity <= t.velocity
    && s.acceleration <= t.acceleration && s.concurrency <= t.concurrency
  }

  lemma PercentMonotone(a: real, b: real, d: real)
    requires a <= b && d > 0.0
    ensures Percent(a, d) <= Percent(b, d)
  {
    DivMono(a, b, d);
  }

  lemma SubscoresMonotone(p: Policy, x: Factors, y: Factors)
    requires PolicyOk(p) && NoLess(x, y)
    ensures AtMost(SubscoresOf(p, x), SubscoresOf(p, y))
  {
    if x.limit > 0 {
      PercentMonotone((x.reserved + x.settled + x.cost) as real, (y.reserved + y.settled + y.cost) as real,
                      x.limit as real);
    }
    PercentMonotone(x.velocity, y.velocity, p.velocityTarget);
    PercentMonotone(x.acceleration, y.acceleration, if x.baseline <= 0.0 then 1.0 else x.baseline);
    if p.maxConcurrency > 0 {
      PercentMonotone(x.concurrency as real, y.concurrency as real, p.maxConcurrency as real);
    }
  }

  lemma ScaledMonotone(w: real, a: real, b: real)
    requires w >= 0.0 && a <= b
    ensures w * a <= w * b
  {
  }

  lemma ConvexMonotone(w: real, x: real, y: real, z: real,
                       a: real, b: real, c: real, d: real, a': real, b': real, c': real, d': real)
    requires w >= 0.0 && x >= 0.0 && y >= 0.0 && z >= 0.0
    requires a <= a' && b <= b' && c <= c' && d <= d'
    ensures w * a + x * b + y * c + z * d <= w * a' + x * b' + y * c' + z * d'
  {
    ScaledMonotone(w, a, a');
    ScaledMonotone(x, b, b');
    ScaledMonotone(y, c, c');
    ScaledMonotone(z, d, d');
  }

  lemma ScoreOfMonotone(w: Weights, s: Subscores, t: Subscores)
    requires Balanced(w) && InRange(s) && InRange(t) && AtMost(s, t)
    ensures ScoreOf(w, s) <= ScoreOf(w, t)
  {
    BlendedInRange(w, s);
    BlendedInRange(w, t);
    ConvexMonotone(w.budget, w.velocity, w.acceleration, w.concurrency,
                   s.budget, s.velocity, s.acceleration, s.concurrency,
                   t.budget, t.velocity, t.acceleration, t.concurrency);
    FloorMonotone(Blended(w, s), Blended(w, t));
  }

  lemma FloorMonotone(a: real, b: real)
    requires a <= b
    ensures a.Floor <= b.Floor
  {
  }

  /** More spend, speed, acceleration or concurrency never lowers the score. */
  lemma ScoreMonotone(p: Policy, x: Factors, y: Factors)
    requires PolicyOk(p) && Balanced(p.weights) && NoLess(x, y)
    ensures Score(p, x) <= Score(p, y)
  {
    SubscoresMonotone(p, x, y);
    ScoreOfMonotone(p.weights, SubscoresOf(p, x), SubscoresOf(p, y));
  }

  function Severity(a: Action): nat {
    match a
    case ALLOW => 0
    case THROTTLE => 1
    case BLOCK => 2
    case KILL_SWITCH => 3
  }

  /** So the verdict never softens either, whatever the two thresholds are, the budget refusal included. */
  lemma VerdictMonotone(p: Policy, x: Factors, y: Factors)
    requires PolicyOk(p) && Balanced(p.weights) && NoLess(x, y)
    ensures Severity(Verdict(p, x)) <= Severity(Verdict(p, y))
  {
    ScoreMonotone(p, x, y);
  }

  // ---------- what a block or throttle by the default policy means ----------

  /** With weights .3/.4/.2/.1, a score of at least `floor` leaves each subscore little room. */
  lemma DefaultSubscores(s: Subscores, floor: int)
    requires InRange(s) && floor <= ScoreOf(DEFAULT_POLICY.weights, s)
    ensures var slack := 100.0 - floor as real;
            && 0.40 * s.velocity >= 40.0 - slack
            && 0.30 * s.budget >= 30.0 - slack
            && 0.20 * s.acceleration >= 20.0 - slack
  {
    BlendedInRange(DEFAULT_POLICY.weights, s);
  }

  lemma RatioFromPercent(a: real, d: real, f: real)
    requires d > 0.0 && 0.0 < f && Percent(a, d) >= f * 100.0
    ensures a >= f * d
  {
    assert a / d >= f;
    assert a == (a / d) * d;
    ScaledMonotone(d, f, a / d);
  }

  lemma MultiplierMeans(t: Tracker, now: real, k: real)
    requires k > 1.0 && Multiplier(t, now) >= k
    ensures t.baseline > 0.0 && Speed(t.short, now) >= k * t.baseline
  {
    var v := Speed(t.short, now);
    assert v == (v / t.baseline) * t.baseline;
    ScaledMonotone(t.baseline, k, v / t.baseline);
  }

  /** Short-window spend runs at k or more times the learned baseline. */
  predicate Outpaces(t: Tracker, now: real, k: real) {
    t.baseline > 0.0 && Speed(t.short, now) >= k * t.baseline
  }

  /** Spend is still speeding up, by k or more times the baseline. */
  predicate SpeedsUp(t: Tracker, now: real, k: real) {
    Acceleration(t, now) >= k * t.baseline
  }

  /** What Evaluate feeds the score from a tracker. */
  function FactorsOf(t: Tracker, now: real, limit: int, reserved: int, settled: int, cost: int, concurrency: int): Factors {
    Factors(limit, reserved, settled, cost, Multiplier(t, now), Acceleration(t, now), t.baseline, concurrency)
  }

  /**
   * A score-based BLOCK under the default policy is never a false alarm on its own terms: spend runs at least
   * 15 times the learned baseline, at least two thirds of the limit is committed, and spend is still speeding
   * up by at least half the baseline.
   */
  lemma DefaultBlockMeans(t: Tracker, now: real, limit: int, reserved: int, settled: int, cost: int, concurrency: int)
    requires Score(DEFAULT_POLICY, FactorsOf(t, now, limit, reserved, settled, cost, concurrency)) >= DEFAULT_POLICY.block
    ensures Outpaces(t, now, 15.0) && SpeedsUp(t, now, 0.5)
    ensures limit > 0 && 3 * (reserved + settled + cost) >= 2 * limit
  {
    var x := FactorsOf(t, now, limit, reserved, settled, cost, concurrency);
    DefaultSubscores(SubscoresOf(DEFAULT_POLICY, x), 90);
    RatioFromPercent(x.velocity, 20.0, 0.75);
    MultiplierMeans(t, now, 15.0);
    RatioFromPercent((reserved + settled + cost) as real, limit as real, 2.0 / 3.0);
    RatioFromPercent(x.acceleration, t.baseline, 0.5);
  }

  /** A score-based THROTTLE means at least 5 times the baseline. */
  lemma DefaultThrottleMeans(t: Tracker, now: real, limit: int, reserved: int, settled: int, cost: int, concurrency: int)
    requires Score(DEFAULT_POLICY, FactorsOf(t, now, limit, reserved, settled, cost, concurrency)) >= DEFAULT_POLICY.throttle
    ensures Outpaces(t, now, 5.0)
  {
    var x := FactorsOf(t, now, limit, reserved, settled, cost, concurrency);
    DefaultSubscores(SubscoresOf(DEFAULT_POLICY, x), 70);
    RatioFromPercent(x.velocity, 20.0, 0.25);
    MultiplierMeans(t, now, 5.0);
  }

  // ---------- the score on the inputs themselves ----------

  /** How much of d is used up by a: nothing below zero, all of it at d and beyond. */
  function Share(a: real, d: real): real {
    if a <= 0.0 || d <= 0.0 then 0.0 else if a >= d then 1.0 else a / d
  }

  /** The four factors as shares of what each is measured against. */
  datatype Shares = Shares(committed: real, velocity: real, acceleration: real, concurrency: real)

  function SharesOf(p: Policy, x: Factors): Shares {
    Shares(Share((x.reserved + x.settled + x.cost) as real, x.limit as real),
           Share(x.velocity, p.velocityTarget),
           Share(x.acceleration, if x.baseline <= 0.0 then 1.0 else x.baseline),
           Share(x.concurrency as real, p.maxConcurrency as real))
  }

  /** Each share by its weight. */
  function Weighed(w: Weights, q: Shares): real {
    w.budget * q.committed + w.velocity * q.velocity + w.acceleration * q.acceleration + w.concurrency * q.concurrency
  }

  lemma PercentIsShare(a: real, d: real)
    requires d > 0.0
    ensures Percent(a, d) == 100.0 * Share(a, d)
  {
    var q := a / d;
    assert q * d == a;
    if a <= 0.0 {
      DivMono(a, 0.0, d);
    } else if a >= d {
      DivMono(d, a, d);
    } else {
      DivMono(a, d, d);
      DivMono(0.0, a, d);
    }
  }

  ghost predicate InPercent(s: Subscores, q: Shares) {
    && s.budget == 100.0 * q.committed && s.velocity == 100.0 * q.velocity
    && s.acceleration == 100.0 * q.acceleration && s.concurrency == 100.0 * q.concurrency
  }

  lemma SubscoresAreShares(p: Policy, x: Factors)
    requires PolicyOk(p)
    ensures InPercent(SubscoresOf(p, x), SharesOf(p, x))
  {
    if x.limit > 0 {
      PercentIsShare((x.reserved + x.settled + x.cost) as real, x.limit as real);
    }
    PercentIsShare(x.velocity, p.velocityTarget);
    PercentIsShare(x.acceleration, if x.baseline <= 0.0 then 1.0 else x.baseline);
    if p.maxConcurrency > 0 {
      PercentIsShare(x.concurrency as real, p.maxConcurrency as real);
    }
  }

  lemma HundredTimes(w: real, a: real)
    ensures w * (100.0 * a) == 100.0 * (w * a)
  {
  }

  lemma BlendedIsWeighed(w: Weights, s: Subscores, q: Shares)
    requires InPercent(s, q)
    ensures Blended(w, s) == 100.0 * Weighed(w, q)
  {
    HundredTimes(w.budget, q.committed);
    HundredTimes(w.velocity, q.velocity);
    HundredTimes(w.acceleration, q.acceleration);
    HundredTimes(w.concurrency, q.concurrency);
  }

  /** The score is the weighted shares in percent, rounded down. */
  lemma ScoreExactly(p: Policy, x: Factors)
    requires PolicyOk(p) && Balanced(p.weights)
    ensures Score(p, x) == (100.0 * Weighed(p.weights, SharesOf(p, x))).Floor
  {
    SubscoresAreShares(p, x);
    BlendedIsWeighed(p.weights, SubscoresOf(p, x), SharesOf(p, x));
    BlendedInRange(p.weights, SubscoresOf(p, x));
  }

  // ---------- every factor counts ----------

  /** Scores are whole, so a rise by `gain` shows to within one point, and exactly when `gain` is whole. */
  predicate RaisedBy(before: int, after: int, gain: real) {
    gain - 1.0 < (after - before) as real < gain + 1.0
  }

  lemma FloorsRaised(a: real, b: real, gain: real)
    requires b == a + gain
    ensures RaisedBy(a.Floor, b.Floor, gain)
  {
  }

  lemma HundredMore(a: real, b: real, gain: real)
    requires b == a + gain
    ensures RaisedBy((100.0 * a).Floor, (100.0 * b).Floor, 100.0 * gain)
  {
    FloorsRaised(100.0 * a, 100.0 * b, 100.0 * gain);
  }

  ghost predicate Adds(w: Weights, qz: Shares, qy: Shares, gain: real) {
    Weighed(w, qy) == Weighed(w, qz) + gain
  }

  lemma WeighedRaises(p: Policy, z: Factors, y: Factors, qz: Shares, qy: Shares, gain: real)
    requires PolicyOk(p) && Balanced(p.weights) && SharesOf(p, z) == qz && SharesOf(p, y) == qy
    requires Adds(p.weights, qz, qy, gain)
    ensures RaisedBy(Score(p, z), Score(p, y), 100.0 * gain)
  {
    ScoreExactly(p, z);
    ScoreExactly(p, y);
    HundredMore(Weighed(p.weights, qz), Weighed(p.weights, qy), gain);
  }

  // One share going from nothing to f adds f times its weight.

  lemma VelocityAdds(w: Weights, q: Shares, f: real)
    ensures Adds(w, q.(velocity := 0.0), q.(velocity := f), w.velocity * f)
  {
  }

  lemma VelocityRaises(p: Policy, z: Factors, y: Factors, q: Shares, f: real)
    requires PolicyOk(p) && Balanced(p.weights)
    requires SharesOf(p, y) == q.(velocity := f) && SharesOf(p, z) == q.(velocity := 0.0)
    ensures RaisedBy(Score(p, z), Score(p, y), 100.0 * (p.weights.velocity * f))
  {
    VelocityAdds(p.weights, q, f);
    WeighedRaises(p, z, y, q.(velocity := 0.0), q.(velocity := f), p.weights.velocity * f);
  }

  lemma AccelerationAdds(w: Weights, q: Shares, f: real)
    ensures Adds(w, q.(acceleration := 0.0), q.(acceleration := f), w.acceleration * f)
  {
  }

  lemma AccelerationRaises(p: Policy, z: Factors, y: Factors, q: Shares, f: real)
    requires PolicyOk(p) && Balanced(p.weights)
    requires SharesOf(p, y) == q.(acceleration := f) && SharesOf(p, z) == q.(acceleration := 0.0)
    ensures RaisedBy(Score(p, z), Score(p, y), 100.0 * (p.weights.acceleration * f))
  {
    AccelerationAdds(p.weights, q, f);
    WeighedRaises(p, z, y, q.(acceleration := 0.0), q.(acceleration := f), p.weights.acceleration * f);
  }

  lemma ConcurrencyAdds(w: Weights, q: Shares, f: real)
    ensures Adds(w, q.(concurrency := 0.0), q.(concurrency := f), w.concurrency * f)
  {
  }

  lemma ConcurrencyRaises(p: Policy, z: Factors, y: Factors, q: Shares, f: real)
    requires PolicyOk(p) && Balanced(p.weights)
    requires SharesOf(p, y) == q.(concurrency := f) && SharesOf(p, z) == q.(concurrency := 0.0)
    ensures RaisedBy(Score(p, z), Score(p, y), 100.0 * (p.weights.concurrency * f))
  {
    ConcurrencyAdds(p.weights, q, f);
    WeighedRaises(p, z, y, q.(concurrency := 0.0), q.(concurrency := f), p.weights.concurrency * f);
  }

  lemma CommittedAdds(w: Weights, q: Shares, f: real)
    ensures Adds(w, q.(committed := 0.0), q.(committed := f), w.budget * f)
  {
  }

  lemma CommittedRaises(p: Policy, z: Factors, y: Factors, q: Shares, f: real)
    requires PolicyOk(p) && Balanced(p.weights)
    requires SharesOf(p, y) == q.(committed := f) && SharesOf(p, z) == q.(committed := 0.0)
    ensures RaisedBy(Score(p, z), Score(p, y), 100.0 * (p.weights.budget * f))
  {
    CommittedAdds(p.weights, q, f);
    WeighedRaises(p, z, y, q.(committed := 0.0), q.(committed := f), p.weights.budget * f);
  }

  lemma ShareOfPart(f: real, d: real)
    requires 0.0 <= f <= 1.0 && d > 0.0
    ensures Share(f * d, d) == f && Share(0.0, d) == 0.0
  {
    var a := f * d;
    ScaledMonotone(d, f, 1.0);
    ScaledMonotone(d, 0.0, f);
    assert a / d == f by {
      assert (a / d) * d == a;
      SameProduct(a / d, f, d);
    }
  }

  lemma SameProduct(a: real, b: real, d: real)
    requires a * d == b * d && d != 0.0
    ensures a == b
  {
  }

  lemma VelocityShares(p: Policy, x: Factors, f: real)
    requires PolicyOk(p) && 0.0 <= f <= 1.0
    ensures SharesOf(p, x.(velocity := f * p.velocityTarget)) == SharesOf(p, x).(velocity := f)
    ensures SharesOf(p, x.(velocity := 0.0)) == SharesOf(p, x).(velocity := 0.0)
  {
    ShareOfPart(f, p.velocityTarget);
  }

  lemma AccelerationShares(p: Policy, x: Factors, f: real)
    requires x.baseline > 0.0 && 0.0 <= f <= 1.0
    ensures SharesOf(p, x.(acceleration := f * x.baseline)) == SharesOf(p, x).(acceleration := f)
    ensures SharesOf(p, x.(acceleration := 0.0)) == SharesOf(p, x).(acceleration := 0.0)
  {
    ShareOfPart(f, x.baseline);
  }

  lemma ConcurrencyShares(p: Policy, x: Factors, n: int, f: real)
    requires p.maxConcurrency > 0 && 0.0 <= f <= 1.0 && n as real == f * p.maxConcurrency as real
    ensures SharesOf(p, x.(concurrency := n)) == SharesOf(p, x).(concurrency := f)
    ensures SharesOf(p, x.(concurrency := 0)) == SharesOf(p, x).(concurrency := 0.0)
  {
    ShareOfPart(f, p.maxConcurrency as real);
  }

  lemma CommittedShares(p: Policy, x: Factors, reserved: int, settled: int, cost: int, f: real)
    requires x.limit > 0 && 0.0 <= f <= 1.0 && (reserved + settled + cost) as real == f * x.limit as real
    ensures SharesOf(p, x.(reserved := reserved, settled := settled, cost := cost)) == SharesOf(p, x).(committed := f)
    ensures SharesOf(p, x.(reserved := 0, settled := 0, cost := 0)) == SharesOf(p, x).(committed := 0.0)
  {
    ShareOfPart(f, x.limit as real);
  }

  /** Velocity: the fraction f of its target adds f times its weight. */
  lemma VelocityCounts(p: Policy, x: Factors, f: real)
    requires PolicyOk(p) && Balanced(p.weights) && 0.0 <= f <= 1.0
    ensures RaisedBy(Score(p, x.(velocity := 0.0)), Score(p, x.(velocity := f * p.velocityTarget)), 100.0 * (p.weights.velocity * f))
  {
    VelocityShares(p, x, f);
    VelocityRaises(p, x.(velocity := 0.0), x.(velocity := f * p.velocityTarget), SharesOf(p, x), f);
  }

  /** Acceleration: the fraction f of the baseline adds f times its weight. */
  lemma AccelerationCounts(p: Policy, x: Factors, f: real)
    requires PolicyOk(p) && Balanced(p.weights) && 0.0 <= f <= 1.0 && x.baseline > 0.0
    ensures RaisedBy(Score(p, x.(acceleration := 0.0)), Score(p, x.(acceleration := f * x.baseline)), 100.0 * (p.weights.acceleration * f))
  {
    AccelerationShares(p, x, f);
    AccelerationRaises(p, x.(acceleration := 0.0), x.(acceleration := f * x.baseline), SharesOf(p, x), f);
  }

  /** Concurrency: the fraction f of the cap in flight adds f times its weight. */
  lemma ConcurrencyCounts(p: Policy, x: Factors, n: int, f: real)
    requires PolicyOk(p) && Balanced(p.weights) && p.maxConcurrency > 0
    requires 0.0 <= f <= 1.0 && n as real == f * p.maxConcurrency as real
    ensures RaisedBy(Score(p, x.(concurrency := 0)), Score(p, x.(concurrency := n)), 100.0 * (p.weights.concurrency * f))
  {
    ConcurrencyShares(p, x, n, f);
    ConcurrencyRaises(p, x.(concurrency := 0), x.(concurrency := n), SharesOf(p, x), f);
  }

  /** Money: in whichever of reserved, settled and estimate it sits, the fraction f of the limit committed adds f times its weight. */
  lemma CommittedCounts(p: Policy, x: Factors, reserved: int, settled: int, cost: int, f: real)
    requires PolicyOk(p) && Balanced(p.weights) && x.limit > 0
    requires 0.0 <= f <= 1.0 && (reserved + settled + cost) as real == f * x.limit as real
    ensures RaisedBy(Score(p, x.(reserved := 0, settled := 0, cost := 0)),
                     Score(p, x.(reserved := reserved, settled := settled, cost := cost)), 100.0 * (p.weights.budget * f))
  {
    var y, z := x.(reserved := reserved, settled := settled, cost := cost), x.(reserved := 0, settled := 0, cost := 0);
    CommittedShares(p, x, reserved, settled, cost, f);
    CommittedRaises(p, z, y, SharesOf(p, x), f);
  }

  // ---------- the default policy's verdict, exactly ----------

  /** Up to 10 points: 3 for money committed, 4 for pace, 2 for speeding up, 1 for requests in flight. */
  function Points(t: Tracker, now: real, limit: int, committed: int, concurrency: int): real {
    3.0 * Share(committed as real, limit as real)
    + 4.0 * Pace(Speed(t.short, now), t.baseline)
    + 2.0 * Share(Speed(t.short, now) - Speed(t.medium, now), if t.baseline > 0.0 then t.baseline else 1.0)
    + Share(concurrency as real, 50.0)
  }

  /** The short-window speed against 20 times the baseline; with no baseline, spend at all counts as the baseline once. */
  function Pace(speed: real, baseline: real): real {
    if baseline > 0.0 then Share(speed, 20.0 * baseline) else if speed > 0.0 then 0.05 else 0.0
  }

  lemma ShareOfMultiple(v: real, b: real)
    requires b > 0.0
    ensures Share(v / b, 20.0) == Share(v, 20.0 * b)
  {
    var q := v / b;
    assert q * b == v;
    if v <= 0.0 {
      DivMono(v, 0.0, b);
    } else if v >= 20.0 * b {
      DivMono(20.0 * b, v, b);
      assert (20.0 * b) / b == 20.0;
    } else {
      DivMono(0.0, v, b);
      assert q > 0.0;
      var r := v / (20.0 * b);
      assert r * (20.0 * b) == v;
      assert (20.0 * r) * b == q * b;
      SameProduct(20.0 * r, q, b);
    }
  }

  lemma PointsAreWeighed(t: Tracker, now: real, limit: int, reserved: int, settled: int, cost: int, concurrency: int)
    ensures 10.0 * Weighed(DEFAULT_POLICY.weights, SharesOf(DEFAULT_POLICY, FactorsOf(t, now, limit, reserved, settled, cost, concurrency)))
         == Points(t, now, limit, reserved + settled + cost, concurrency)
  {
    if t.baseline > 0.0 {
      ShareOfMultiple(Speed(t.short, now), t.baseline);
    }
  }

  /** What the default policy answers a request its breaker admits, on speeds, amounts and requests in flight alone. */
  function DefaultAnswer(t: Tracker, now: real, limit: int, reserved: int, settled: int, cost: int, concurrency: int): Action {
    var points := Points(t, now, limit, reserved + settled + cost, concurrency);
    if points >= 9.0 || limit - reserved - settled < cost then BLOCK else if points >= 7.0 then THROTTLE else ALLOW
  }

  lemma DefaultVerdictExactly(t: Tracker, now: real, limit: int, reserved: int, settled: int, cost: int, concurrency: int)
    ensures Verdict(DEFAULT_POLICY, FactorsOf(t, now, limit, reserved, settled, cost, concurrency))
         == DefaultAnswer(t, now, limit, reserved, settled, cost, concurrency)
  {
    var x := FactorsOf(t, now, limit, reserved, settled, cost, concurrency);
    ScoreExactly(DEFAULT_POLICY, x);
    PointsAreWeighed(t, now, limit, reserved, settled, cost, concurrency);
  }

  lemma ShareRange(a: real, d: real)
    ensures 0.0 <= Share(a, d) <= 1.0
    ensures d > 0.0 && a >= d ==> Share(a, d) == 1.0
  {
    if 0.0 < a < d {
      DivMono(0.0, a, d);
      DivMono(a, d, d);
    }
  }

  /** What a burst at 20 times the baseline, still speeding up by it, scores with k thirds of the limit committed. */
  lemma BurstPoints(t: Tracker, now: real, limit: int, committed: int, concurrency: int, k: int)
    requires Outpaces(t, now, 20.0) && SpeedsUp(t, now, 1.0)
    requires limit > 0 && 1 <= k <= 2 && 3 * committed >= k * limit
    ensures Points(t, now, limit, committed, concurrency) >= 6.0 + k as real + if concurrency >= 50 then 1.0 else 0.0
  {
    var v, a := Speed(t.short, now), Speed(t.short, now) - Speed(t.medium, now);
    ShareAtLeast(committed, limit, k);
    ShareRange(v, 20.0 * t.baseline);
    ShareRange(a, t.baseline);
    ShareRange(concurrency as real, 50.0);
    FourAdd(Share(committed as real, limit as real), Pace(v, t.baseline), Share(a, t.baseline), Share(concurrency as real, 50.0),
            k as real, if concurrency >= 50 then 1.0 else 0.0);
  }

  lemma FourAdd(m: real, v: real, a: real, c: real, k: real, d: real)
    requires 3.0 * m >= k && v == 1.0 && a == 1.0 && c >= d
    ensures 3.0 * m + 4.0 * v + 2.0 * a + c >= 6.0 + k + d
  {
  }

  /** A burst at 20 times the baseline that still speeds up by the baseline is blocked once two thirds of the limit is committed with 50 in flight. */
  lemma DefaultBlockForced(t: Tracker, now: real, limit: int, reserved: int, settled: int, cost: int, concurrency: int)
    requires Outpaces(t, now, 20.0) && SpeedsUp(t, now, 1.0) && limit > 0
    requires 3 * (reserved + settled + cost) >= 2 * limit && concurrency >= 50
    ensures Verdict(DEFAULT_POLICY, FactorsOf(t, now, limit, reserved, settled, cost, concurrency)) == BLOCK
  {
    DefaultVerdictExactly(t, now, limit, reserved, settled, cost, concurrency);
    BurstPoints(t, now, limit, reserved + settled + cost, concurrency, 2);
  }

  lemma RatioAtLeast(a: real, b: real, k: real)
    requires b > 0.0 && 3.0 * a >= k * b
    ensures 3.0 * (a / b) >= k
  {
    var q := a / b;
    assert q * b == a;
    if 3.0 * q < k {
      StrictlyScaled(3.0 * q, k, b);
      assert false;
    }
  }

  /** k thirds of d or more. */
  lemma ShareAtLeast(n: int, d: int, k: int)
    requires d > 0 && 1 <= k <= 2 && 3 * n >= k * d
    ensures 3.0 * Share(n as real, d as real) >= k as real
  {
    assert 3.0 * n as real >= k as real * d as real;
    RatioAtLeast(n as real, d as real, k as real);
  }

  lemma StrictlyScaled(a: real, b: real, d: real)
    requires a < b && d > 0.0
    ensures a * d < b * d
  {
  }

  /** The same burst is held back, throttled or worse, with any money committed to half the limit's third and no others in flight. */
  lemma DefaultThrottleForced(t: Tracker, now: real, limit: int, reserved: int, settled: int, cost: int, concurrency: int)
    requires Outpaces(t, now, 20.0) && SpeedsUp(t, now, 1.0) && limit > 0 && 3 * (reserved + settled + cost) >= limit
    ensures Severity(Verdict(DEFAULT_POLICY, FactorsOf(t, now, limit, reserved, settled, cost, concurrency))) >= 1
  {
    DefaultVerdictExactly(t, now, limit, reserved, settled, cost, concurrency);
    BurstPoints(t, now, limit, reserved + settled + cost, concurrency, 1);
  }


  // ---------- the rule named ----------

  lemma PercentAtLeast(a: real, d: real, k: real)
    requires d > 0.0 && 0.0 < k <= 100.0
    ensures Percent(a, d) >= k <==> 100.0 * a >= k * d
  {
    var q := a / d;
    assert q * d == a;
    if 100.0 * q >= k {
      ScaledMonotone(d, k, 100.0 * q);
    } else {
      StrictlyScaled(100.0 * q, k, d);
    }
  }

  /** The rule a scored decision names: the first of three findings on the inputs, or none. */
  lemma RuleExactly(p: Policy, x: Factors)
    requires PolicyOk(p)
    ensures var spent := x.limit > 0 && 100 * (x.reserved + x.settled + x.cost) >= 99 * x.limit;
            var fast := 100.0 * x.velocity >= 99.0 * p.velocityTarget;
            var faster := x.acceleration > 0.0 && 100.0 * x.acceleration >= 80.0 * (if x.baseline > 0.0 then x.baseline else 1.0);
            ScoreRule(p, x) == if spent then BUDGET_EXHAUSTED else if fast then ABNORMAL_SPEND_ACCELERATION
                               else if faster then SUSTAINED_ACCELERATION else COMPOSITE_SCORE
  {
    if x.limit > 0 {
      PercentAtLeast((x.reserved + x.settled + x.cost) as real, x.limit as real, 99.0);
    }
    PercentAtLeast(x.velocity, p.velocityTarget, 99.0);
    if x.acceleration > 0.0 {
      PercentAtLeast(x.acceleration, if x.baseline > 0.0 then x.baseline else 1.0, 80.0);
    }
  }
}

/** Three windows and the exponentially weighted baseline (internal/risk/window.go, MultiWindowTracker). */
module Trackers {
  import opened Windows

  datatype Window = Window(lookback: real, samples: seq<Sample>)

  function Evicted(w: Window, now: real): Window {
    w.(samples := Step(w.samples, Read(now), w.lookback))
  }

  function Added(w: Window, now: real, cost: int): Window {
    w.(samples := Step(w.samples, Record(now, cost), w.lookback))
  }

  /** VelocityPerSec: reading evicts first. */
  function Speed(w: Window, now: real): real {
    Velocity(Sum(Evicted(w, now).samples), w.lookback)
  }

  const ALPHA := 0.02

  datatype Tracker = Tracker(short: Window, medium: Window, long: Window, baseline: real, started: bool)

  /** The EWMA step; the first record starts the average at its own value. */
  function Blend(baseline: real, started: bool, cur: real): real {
    ALPHA * cur + (1.0 - ALPHA) * (if started then baseline else cur)
  }

  function Recorded(t: Tracker, now: real, cost: int): Tracker {
    var long := Evicted(Added(t.long, now, cost), now);
    Tracker(Added(t.short, now, cost), Added(t.medium, now, cost), long,
            Blend(t.baseline, t.started, Velocity(Sum(long.samples), long.lookback)), true)
  }

  /** Reading velocity and acceleration leaves the short and medium windows evicted. */
  function AfterReads(t: Tracker, now: real): Tracker {
    t.(short := Evicted(t.short, now), medium := Evicted(t.medium, now))
  }

  function Multiplier(t: Tracker, now: real): real {
    var current := Speed(t.short, now);
    if t.baseline <= 0.0 then (if current > 0.0 then 1.0 else 0.0) else current / t.baseline
  }

  function Acceleration(t: Tracker, now: real): real {
    Speed(t.short, now) - Speed(t.medium, now)
  }

  lemma {:induction false} EvictTwice(s: seq<Sample>, cutoff: real)
    ensures Evict(Evict(s, cutoff), cutoff) == Evict(s, cutoff)
    decreases |s|
  {
    if s != [] && s[0].at < cutoff {
      EvictTwice(s[1..], cutoff);
    }
  }

  /** Reading at one instant does not disturb the next read at that instant. */
  lemma ReadsAgree(t: Tracker, now: real)
    ensures var t' := t.(short := Evicted(t.short, now));
            Acceleration(t', now) == Acceleration(t, now) && AfterReads(t', now) == AfterReads(t, now)
  {
    EvictTwice(t.short.samples, now - t.short.lookback);
  }

  // ---------- projected exposure ----------

  /** v*t + a*t^2/2, never below v*t and never below nothing. */
  function Ahead(v: real, a: real, secs: real): real {
    var linear := v * secs;
    var curved := v * secs + 0.5 * a * secs * secs;
    var proj := if curved > linear then curved else linear;
    if proj < 0.0 then 0.0 else proj
  }

  /** An amount of money in micro-units; the source only converts amounts that are not negative. */
  function Micros(amount: real): int {
    (amount * ONE_UNIT).Floor
  }

  lemma MicrosAreMillionths(n: int)
    ensures Micros(n as real / 1_000_000.0) == n
  {
  }

  function Projected(t: Tracker, now: real, exposure: int, horizon: real): int {
    exposure + Micros(Ahead(Speed(t.short, now), Acceleration(t, now), horizon))
  }

  /** For spend that is not negative, acceleration only ever adds and looking further ahead never projects less. */
  lemma AheadRises(v: real, a: real, secs: real, later: real)
    requires v >= 0.0 && 0.0 <= secs <= later
    ensures 0.0 <= v * secs <= Ahead(v, a, secs) <= Ahead(v, a, later)
    ensures Ahead(v, a, secs) == v * secs + (if a > 0.0 then 0.5 * a * secs * secs else 0.0)
  {
    NonNegativeProduct(v, secs);
    NonNegativeProduct(v, later - secs);
    SquareTerm(a, secs);
    SquareTerm(a, later);
    NonNegativeProduct(later - secs, later + secs);
    assert later * later >= secs * secs;
    if a > 0.0 {
      NonNegativeProduct(0.5 * a, later * later - secs * secs);
    }
  }

  lemma NonNegativeProduct(a: real, b: real)
    requires a >= 0.0 && b >= 0.0
    ensures a * b >= 0.0
  {
  }

  lemma SquareTerm(a: real, s: real)
    requires s >= 0.0
    ensures 0.5 * a * s * s == 0.5 * a * (s * s)
    ensures if a > 0.0 then 0.5 * a * s * s >= 0.0 else 0.5 * a * s * s <= 0.0
  {
    NonNegativeProduct(s, s);
    if a > 0.0 {
      NonNegativeProduct(0.5 * a, s * s);
    } else {
      NonNegativeProduct(-0.5 * a, s * s);
    }
  }

  lemma MicrosRise(x: real, y: real)
    requires 0.0 <= x <= y
    ensures 0 <= Micros(x) <= Micros(y)
  {
  }

  lemma AheadMicrosRise(v: real, a: real, secs: real, later: real)
    requires v >= 0.0 && 0.0 <= secs <= later
    ensures 0 <= Micros(v * secs) <= Micros(Ahead(v, a, secs)) <= Micros(Ahead(v, a, later))
  {
    var linear, soon, late := v * secs, Ahead(v, a, secs), Ahead(v, a, later);
    AheadRises(v, a, secs, later);
    MicrosRise(linear, soon);
    MicrosRise(soon, late);
  }

  // ---------- the three windows over every sequence of tracker calls ----------

  /** Record, and the three reads, which evict the windows they look at. */
  datatype Use =
    | Spend(at: real, cost: int)
    | ReadMultiplier(at: real)
    | ReadAcceleration(at: real)
    | ReadProjection(at: real)

  function Touched(t: Tracker, u: Use): Tracker {
    match u
    case Spend(at, cost) => Recorded(t, at, cost)
    case ReadMultiplier(at) => t.(short := Evicted(t.short, at))
    case _ => AfterReads(t, u.at)
  }

  function Track(t: Tracker, us: seq<Use>): Tracker {
    if us == [] then t else Touched(Track(t, us[..|us| - 1]), us[|us| - 1])
  }

  /** Everything ever recorded. */
  function Spends(us: seq<Use>): seq<Sample> {
    if us == [] then [] else WithSpend(Spends(us[..|us| - 1]), us[|us| - 1])
  }

  function WithSpend(h: seq<Sample>, u: Use): seq<Sample> {
    if u.Spend? then h + [Sample(u.at, u.cost)] else h
  }

  /** A non-decreasing clock, not past `now`. */
  ghost predicate Timely(us: seq<Use>, now: real) {
    us == [] || (us[|us| - 1].at <= now && Timely(us[..|us| - 1], us[|us| - 1].at))
  }

  /** Each window's buffer stands for the one history h, as far as that window reaches. */
  ghost predicate Stands(t: Tracker, h: seq<Sample>, asOf: real) {
    Sorted(h) && Backs(t.short, h, asOf) && Backs(t.medium, h, asOf) && Backs(t.long, h, asOf)
  }

  ghost predicate Backs(w: Window, h: seq<Sample>, asOf: real) {
    Buffers(w.samples, h, |h|, w.lookback, asOf)
  }

  ghost predicate SameSpans(t: Tracker, t': Tracker) {
    && t'.short.lookback == t.short.lookback && t'.medium.lookback == t.medium.lookback
    && t'.long.lookback == t.long.lookback
  }

  lemma BacksLater(w: Window, h: seq<Sample>, asOf: real, now: real)
    requires Backs(w, h, asOf) && asOf <= now
    ensures Backs(w, h, now) && Backs(Evicted(w, now), h, now)
  {
    EvictBuffers(w.samples, h, |h|, w.lookback, asOf, now);
  }

  lemma AddedBacks(w: Window, h: seq<Sample>, asOf: real, now: real, cost: int)
    requires Sorted(h) && Backs(w, h, asOf) && asOf <= now
    ensures Sorted(h + [Sample(now, cost)]) && Backs(Added(w, now, cost), h + [Sample(now, cost)], now)
  {
    RecordBuffers(w.samples, h, Sample(now, cost), w.lookback, asOf);
  }

  lemma StandsLater(t: Tracker, h: seq<Sample>, asOf: real, now: real)
    requires Stands(t, h, asOf) && asOf <= now
    ensures Stands(t, h, now)
  {
    BacksLater(t.short, h, asOf, now);
    BacksLater(t.medium, h, asOf, now);
    BacksLater(t.long, h, asOf, now);
  }

  lemma TouchedStands(t: Tracker, h: seq<Sample>, asOf: real, u: Use)
    requires Stands(t, h, asOf) && asOf <= u.at
    ensures SameSpans(t, Touched(t, u))
    ensures Stands(Touched(t, u), WithSpend(h, u), u.at)
  {
    if u.Spend? {
      AddedBacks(t.short, h, asOf, u.at, u.cost);
      AddedBacks(t.medium, h, asOf, u.at, u.cost);
      AddedBacks(t.long, h, asOf, u.at, u.cost);
      BacksLater(Added(t.long, u.at, u.cost), h + [Sample(u.at, u.cost)], u.at, u.at);
    } else {
      BacksLater(t.short, h, asOf, u.at);
      BacksLater(t.medium, h, asOf, u.at);
      BacksLater(t.long, h, asOf, u.at);
    }
  }

  /** Nothing recorded yet. */
  predicate Blank(t: Tracker) {
    t.short.samples == [] && t.medium.samples == [] && t.long.samples == []
  }

  lemma TouchedOn(t0: Tracker, t: Tracker, h: seq<Sample>, u: Use, now: real)
    requires Stands(t, h, u.at) && SameSpans(t0, t) && u.at <= now
    ensures Stands(Touched(t, u), WithSpend(h, u), now) && SameSpans(t0, Touched(t, u))
  {
    TouchedStands(t, h, u.at, u);
    StandsLater(Touched(t, u), WithSpend(h, u), u.at, now);
  }

  lemma {:induction false} TrackStands(t: Tracker, us: seq<Use>, now: real)
    requires Blank(t) && Timely(us, now)
    ensures Stands(Track(t, us), Spends(us), now) && SameSpans(t, Track(t, us))
    decreases |us|
  {
    if us != [] {
      var init, u := us[..|us| - 1], us[|us| - 1];
      TrackStands(t, init, u.at);
      TouchedOn(t, Track(t, init), Spends(init), u, now);
    }
  }

  /** What a window's velocity is of: all spend ever recorded in the last `lookback` seconds. */
  function RecordedSpeed(h: seq<Sample>, now: real, lookback: real): real {
    Velocity(SumSince(h, now - lookback), lookback)
  }

  lemma SpeedIsExact(w: Window, h: seq<Sample>, asOf: real, now: real)
    requires Sorted(h) && Backs(w, h, asOf) && asOf <= now
    ensures Speed(w, now) == RecordedSpeed(h, now, w.lookback)
  {
    BufferedSum(w.samples, h, w.lookback, asOf, now);
  }

  lemma SpeedsAreExact(t: Tracker, h: seq<Sample>, now: real)
    requires Stands(t, h, now)
    ensures Speed(t.short, now) == RecordedSpeed(h, now, t.short.lookback)
    ensures Speed(t.medium, now) == RecordedSpeed(h, now, t.medium.lookback)
    ensures Speed(t.long, now) == RecordedSpeed(h, now, t.long.lookback)
  {
    SpeedIsExact(t.short, h, now, now);
    SpeedIsExact(t.medium, h, now, now);
    SpeedIsExact(t.long, h, now, now);
  }

  /** After any calls under a non-decreasing clock, each velocity the tracker reads is that of the recorded spend. */
  lemma TrackedSpeedsAreExact(t: Tracker, us: seq<Use>, now: real)
    requires Blank(t) && Timely(us, now)
    ensures var t', h := Track(t, us), Spends(us);
            && Speed(t'.short, now) == RecordedSpeed(h, now, t.short.lookback)
            && Speed(t'.medium, now) == RecordedSpeed(h, now, t.medium.lookback)
            && Speed(t'.long, now) == RecordedSpeed(h, now, t.long.lookback)
  {
    TrackStands(t, us, now);
    SpeedsAreExact(Track(t, us), Spends(us), now);
  }

  ghost predicate NoRefunds(h: seq<Sample>) {
    forall i :: 0 <= i < |h| ==> h[i].cost >= 0
  }

  lemma RecordedSpeedNonNegative(h: seq<Sample>, now: real, lookback: real)
    requires NoRefunds(h)
    ensures RecordedSpeed(h, now, lookback) >= 0.0
  {
    SumsAreNested(h, now - lookback, now - lookback);
    if lookback > 0.0 {
      DivMono(0.0, SumSince(h, now - lookback) as real / ONE_UNIT, lookback);
    }
  }

  /** A velocity over a short window, against one over a longer window that holds the same spend and more. */
  predicate Nested(v: real, short: real, w: real, long: real)
    requires short != 0.0
  {
    0.0 <= v <= long / short * w
  }

  lemma RecordedSpeedsNested(h: seq<Sample>, now: real, short: real, long: real)
    requires NoRefunds(h) && 0.0 < short <= long
    ensures Nested(RecordedSpeed(h, now, short), short, RecordedSpeed(h, now, long), long)
  {
    RecordedSpeedNonNegative(h, now, short);
    ShortVelocityBound(h, now, short, long);
  }

  /** So the velocities are nested: a burst shows at most (medium / short) times as fast in the short window. */
  lemma TrackedSpeedsAreNested(t: Tracker, us: seq<Use>, now: real)
    requires Blank(t) && Timely(us, now) && NoRefunds(Spends(us))
    requires 0.0 < t.short.lookback <= t.medium.lookback <= t.long.lookback
    ensures var t' := Track(t, us);
            && Nested(Speed(t'.short, now), t.short.lookback, Speed(t'.medium, now), t.medium.lookback)
            && Nested(Speed(t'.medium, now), t.medium.lookback, Speed(t'.long, now), t.long.lookback)
  {
    TrackedSpeedsAreExact(t, us, now);
    RecordedSpeedsNested(Spends(us), now, t.short.lookback, t.medium.lookback);
    RecordedSpeedsNested(Spends(us), now, t.medium.lookback, t.long.lookback);
  }

  /** Spend at a steady speed. */
  function Steady(v: real, secs: real): int {
    Micros(v * secs)
  }

  /** Spend at a speed v that still rises by a every second. */
  function Rising(v: real, a: real, secs: real): int {
    Micros(v * secs + 0.5 * a * secs * secs)
  }

  lemma ProjectionAt(t: Tracker, v: real, a: real, now: real, exposure: int, horizon: real, longer: real)
    requires v == Speed(t.short, now) && a == Acceleration(t, now) && v >= 0.0 && 0.0 <= horizon <= longer
    ensures exposure <= exposure + Steady(v, horizon) <= Projected(t, now, exposure, horizon)
    ensures Projected(t, now, exposure, horizon) <= Projected(t, now, exposure, longer)
    ensures Projected(t, now, exposure, horizon) == exposure + if a > 0.0 then Rising(v, a, horizon) else Steady(v, horizon)
  {
    AheadMicrosRise(v, a, horizon, longer);
    AheadMicrosExactly(v, a, horizon);
  }

  lemma AheadMicrosExactly(v: real, a: real, secs: real)
    requires v >= 0.0 && secs >= 0.0
    ensures Micros(Ahead(v, a, secs)) == if a > 0.0 then Rising(v, a, secs) else Steady(v, secs)
  {
    AheadRises(v, a, secs, secs);
  }

  /**
   * After any calls, the projection is today's exposure plus the recorded short-window speed carried on, plus half the
   * recorded acceleration squared in when spend is speeding up; it rises with the horizon.
   */
  lemma ProjectionRises(t: Tracker, us: seq<Use>, now: real, exposure: int, horizon: real, longer: real)
    requires Blank(t) && Timely(us, now) && NoRefunds(Spends(us)) && 0.0 <= horizon <= longer
    ensures var t', v := Track(t, us), RecordedSpeed(Spends(us), now, t.short.lookback);
            var a := v - RecordedSpeed(Spends(us), now, t.medium.lookback);
            && exposure <= exposure + Steady(v, horizon) <= Projected(t', now, exposure, horizon)
            && Projected(t', now, exposure, horizon) <= Projected(t', now, exposure, longer)
            && Projected(t', now, exposure, horizon) == exposure + if a > 0.0 then Rising(v, a, horizon) else Steady(v, horizon)
  {
    var v := RecordedSpeed(Spends(us), now, t.short.lookback);
    var a := v - RecordedSpeed(Spends(us), now, t.medium.lookback);
    TrackedSpeedsAreExact(t, us, now);
    RecordedSpeedNonNegative(Spends(us), now, t.short.lookback);
    ProjectionAt(Track(t, us), v, a, now, exposure, horizon, longer);
  }

  // ---------- the baseline over every sequence of tracker calls ----------

  /** The long-window velocity that the last Record, just made, fed into the baseline. */
  function LongSpeed(t: Tracker): real {
    Velocity(Sum(t.long.samples), t.long.lookback)
  }

  /** The long-window velocities fed to the baseline, one for each Record. */
  function Fed(t: Tracker, us: seq<Use>): (fed: seq<real>)
    ensures |fed| == |Spends(us)|
  {
    if us == [] then []
    else Fed(t, us[..|us| - 1]) + if us[|us| - 1].Spend? then [LongSpeed(Track(t, us))] else []
  }

  /** The baseline as a fold over the velocities fed to it. */
  function Smooth(b: real, started: bool, fed: seq<real>): real {
    if fed == [] then b
    else Blend(Smooth(b, started, fed[..|fed| - 1]), started || |fed| > 1, fed[|fed| - 1])
  }

  lemma {:induction false} BaselineIsSmooth(t: Tracker, us: seq<Use>)
    ensures Track(t, us).baseline == Smooth(t.baseline, t.started, Fed(t, us))
    ensures Track(t, us).started == (t.started || Fed(t, us) != [])
    decreases |us|
  {
    if us != [] {
      var init := us[..|us| - 1];
      BaselineIsSmooth(t, init);
      if us[|us| - 1].Spend? {
        assert Fed(t, us)[..|Fed(t, us)| - 1] == Fed(t, init);
      } else {
        assert Fed(t, us) == Fed(t, init);
      }
    }
  }

  lemma LastFed(t: Tracker, h: seq<Sample>, at: real, cost: int)
    requires Stands(t, h, at)
    ensures LongSpeed(Recorded(t, at, cost)) == RecordedSpeed(h + [Sample(at, cost)], at, t.long.lookback)
  {
    AddedBacks(t.long, h, at, at, cost);
    SpeedIsExact(Added(t.long, at, cost), h + [Sample(at, cost)], at, at);
  }

  /** Under a non-decreasing clock the i-th velocity fed is that of the spend recorded by then. */
  lemma {:induction false} FedIsRecorded(t: Tracker, us: seq<Use>, now: real, i: nat)
    requires Blank(t) && Timely(us, now) && i < |Spends(us)|
    ensures Fed(t, us)[i] == RecordedSpeed(Spends(us)[..i + 1], Spends(us)[i].at, t.long.lookback)
    decreases |us|
  {
    var init, u := us[..|us| - 1], us[|us| - 1];
    if u.Spend? && i == |Spends(init)| {
      TrackStands(t, init, u.at);
      LastFed(Track(t, init), Spends(init), u.at, u.cost);
      assert Spends(us)[..i + 1] == Spends(us);
    } else {
      FedIsRecorded(t, init, u.at, i);
      assert Spends(us)[..i + 1] == Spends(init)[..i + 1];
    }
  }

  lemma {:induction false} SmoothInRange(b: real, started: bool, fed: seq<real>, lo: real, hi: real)
    requires (forall i :: 0 <= i < |fed| ==> lo <= fed[i] <= hi) && (started ==> lo <= b <= hi)
    ensures started || fed != [] ==> lo <= Smooth(b, started, fed) <= hi
    decreases |fed|
  {
    if fed != [] {
      var init := fed[..|fed| - 1];
      SmoothInRange(b, started, init, lo, hi);
      BlendInRange(Smooth(b, started, init), started || |fed| > 1, fed[|fed| - 1], lo, hi);
    }
  }

  lemma BlendInRange(b: real, started: bool, cur: real, lo: real, hi: real)
    requires lo <= cur <= hi && (started ==> lo <= b <= hi)
    ensures lo <= Blend(b, started, cur) <= hi
  {
  }

  function Pow(x: real, k: nat): real {
    if k == 0 then 1.0 else x * Pow(x, k - 1)
  }

  /** What 0.98^k leaves of the gap from b to m. */
  function GapLeft(b: real, m: real, k: nat): real {
    Pow(0.98, k) * (m - b)
  }

  lemma PowNonNegative(k: nat)
    ensures Pow(0.98, k) >= 0.0
  {
  }

  lemma GapStep(b: real, m: real, k: nat)
    requires k > 0
    ensures GapLeft(b, m, k) == 0.98 * GapLeft(b, m, k - 1)
  {
    var p := Pow(0.98, k - 1);
    assert 0.98 * p * (m - b) == 0.98 * (p * (m - b));
  }

  /** One blend: the gap to m shrinks by 2 percent, and by 2 percent of how far the new velocity is from m. */
  lemma BlendGap(b: real, cur: real, m: real)
    ensures m - Blend(b, true, cur) == 0.98 * (m - b) + 0.02 * (m - cur)
  {
  }

  lemma {:induction false} SmoothGap(b: real, fed: seq<real>, m: real)
    ensures (forall i :: 0 <= i < |fed| ==> fed[i] <= m) ==> m - Smooth(b, true, fed) >= GapLeft(b, m, |fed|)
    ensures (forall i :: 0 <= i < |fed| ==> fed[i] >= m) ==> m - Smooth(b, true, fed) <= GapLeft(b, m, |fed|)
    decreases |fed|
  {
    if fed == [] {
      assert GapLeft(b, m, 0) == m - b;
    } else {
      var init := fed[..|fed| - 1];
      SmoothGap(b, init, m);
      GapStep(b, m, |fed|);
      BlendGap(Smooth(b, true, init), fed[|fed| - 1], m);
      assert forall i :: 0 <= i < |init| ==> init[i] == fed[i];
    }
  }

  /** The baseline never leaves the range of the long-window velocities seen at the Records, whatever reads come between. */
  lemma BaselineStaysInRange(t: Tracker, us: seq<Use>, lo: real, hi: real)
    requires Spends(us) != [] && forall i :: 0 <= i < |Fed(t, us)| ==> lo <= Fed(t, us)[i] <= hi
    requires t.started ==> lo <= t.baseline <= hi
    ensures lo <= Track(t, us).baseline <= hi
  {
    BaselineIsSmooth(t, us);
    SmoothInRange(t.baseline, t.started, Fed(t, us), lo, hi);
  }

  /** A spike moves the baseline slowly: after k Records capped at m, the gap to m has shrunk by at most 0.98^k. */
  lemma BaselineLags(t: Tracker, us: seq<Use>, m: real)
    requires t.started && forall i :: 0 <= i < |Fed(t, us)| ==> Fed(t, us)[i] <= m
    ensures m - Track(t, us).baseline >= GapLeft(t.baseline, m, |Spends(us)|)
  {
    BaselineIsSmooth(t, us);
    SmoothGap(t.baseline, Fed(t, us), m);
  }

  /** And it does learn: after k Records of at least m, no more than 0.98^k of the gap to m is left. */
  lemma BaselineLearns(t: Tracker, us: seq<Use>, m: real)
    requires t.started && forall i :: 0 <= i < |Fed(t, us)| ==> Fed(t, us)[i] >= m
    ensures m - Track(t, us).baseline <= GapLeft(t.baseline, m, |Spends(us)|)
  {
    BaselineIsSmooth(t, us);
    SmoothGap(t.baseline, Fed(t, us), m);
  }

  /** At a steady velocity exactly 0.98^k of the gap is left, up or down; a tracker that starts at it stays there. */
  lemma BaselineSettles(t: Tracker, us: seq<Use>, m: real)
    requires forall i :: 0 <= i < |Fed(t, us)| ==> Fed(t, us)[i] == m
    ensures t.started ==> m - Track(t, us).baseline == GapLeft(t.baseline, m, |Spends(us)|)
    ensures !t.started && Spends(us) != [] ==> Track(t, us).baseline == m
  {
    if t.started {
      BaselineLags(t, us, m);
      BaselineLearns(t, us, m);
    } else if Spends(us) != [] {
      BaselineStaysInRange(t, us, m, m);
    }
  }

  // ---------- the class ----------

  class MultiWindowTracker {
    const short: RollingWindow
    const medium: RollingWindow
    const long: RollingWindow
    var baseline: real
    var started: bool // the source's initOnce has fired

    /** All objects a tracker writes; its windows never change identity. */
    ghost function Repr(): set<object> {
      {this, short, medium, long}
    }

    /** The three windows are different objects. */
    ghost predicate Valid() {
      short != medium && short != long && medium != long
    }

    function Value(): Tracker
      reads Repr()
    {
      Tracker(Window(short.lookback, short.samples), Window(medium.lookback, medium.samples),
              Window(long.lookback, long.samples), baseline, started)
    }

    constructor (s: real, m: real, l: real)
      ensures Valid() && fresh(Repr())
      ensures Value() == Tracker(Window(s, []), Window(m, []), Window(l, []), 0.0, false)
    {
      short := new RollingWindow(s);
      medium := new RollingWindow(m);
      long := new RollingWindow(l);
      baseline := 0.0;
      started := false;
    }

    method Record(now: real, cost: int)
      requires Valid()
      modifies Repr()
      ensures Value() == Recorded(old(Value()), now, cost)
    {
      short.Add(now, cost);
      medium.Add(now, cost);
      long.Add(now, cost);
      var cur := long.VelocityPerSec(now);
      if !started {
        started := true;
        baseline := cur;
      }
      baseline := ALPHA * cur + (1.0 - ALPHA) * baseline;
    }

    method VelocityMultiplier(now: real) returns (v: real)
      requires Valid()
      modifies Repr()
      ensures v == Multiplier(old(Value()), now)
      ensures Value() == old(Value()).(short := Evicted(old(Value()).short, now))
    {
      var current := short.VelocityPerSec(now);
      if baseline <= 0.0 {
        return if current > 0.0 then 1.0 else 0.0;
      }
      return current / baseline;
    }

    method Accelerate(now: real) returns (a: real)
      requires Valid()
      modifies Repr()
      ensures a == Acceleration(old(Value()), now)
      ensures Value() == AfterReads(old(Value()), now)
    {
      var s := short.VelocityPerSec(now);
      var m := medium.VelocityPerSec(now);
      a := s - m;
    }

    method ProjectedExposure(now: real, exposure: int, horizon: real) returns (n: int)
      requires Valid()
      modifies Repr()
      ensures n == Projected(old(Value()), now, exposure, horizon)
      ensures Value() == AfterReads(old(Value()), now)
    {
      ReadsAgree(Value(), now);
      var v := short.VelocityPerSec(now);
      var a := Accelerate(now);
      n := exposure + Micros(Ahead(v, a, horizon));
    }
  }
}

/** The token-bucket limiter with its idle sweep (internal/httpapi/ratelimit.go), over reals for float64. */
module RateLimit {

  datatype Bucket = Bucket(tokens: real, lastSeen: real)

  /** newLimiter wants a positive rate and burst. */
  datatype Config = Config(rate: real, burst: real, idleTTL: real)

  predicate ConfigOk(l: Config) {
    l.rate > 0.0 && l.burst > 0.0 && l.idleTTL >= 0.0
  }

  /** What the limiter remembers of one key. */
  datatype Slot = Unseen | Seen(bucket: Bucket)

  /** The tokens a request finds: a new key starts full, a known one refills up to the burst. */
  function Filled(l: Config, s: Slot, now: real): real {
    match s
    case Unseen => l.burst
    case Seen(b) => Cap(b.tokens + Gain(l.rate, b.lastSeen, now), l.burst)
  }

  /** What a bucket gains over a stretch of time. */
  function Gain(rate: real, since: real, now: real): real {
    (now - since) * rate
  }

  function Cap(a: real, burst: real): real {
    if a > burst then burst else a
  }

  predicate Passes(l: Config, s: Slot, now: real) {
    Filled(l, s, now) >= 1.0
  }

  function Asked(l: Config, s: Slot, now: real): Slot {
    var f := Filled(l, s, now);
    Seen(Bucket(if f >= 1.0 then f - 1.0 else f, now))
  }

  function Swept(l: Config, s: Slot, now: real): Slot {
    if s.Seen? && s.bucket.lastSeen < now - l.idleTTL then Unseen else s
  }

  // ---------- one key over time ----------

  datatype Event = Ask(at: real) | Sweep(at: real)

  /** What one event does; with `sweeping` off, sweeps do nothing. */
  function Step(l: Config, s: Slot, e: Event, sweeping: bool): Slot {
    match e
    case Ask(at) => Asked(l, s, at)
    case Sweep(at) => if sweeping then Swept(l, s, at) else s
  }

  function Run(l: Config, s: Slot, es: seq<Event>, sweeping: bool): Slot
    decreases |es|
  {
    if es == [] then s else Run(l, Step(l, s, es[0], sweeping), es[1..], sweeping)
  }

  /** Events in clock order, none before `since`. */
  predicate Timed(es: seq<Event>, since: real) {
    es == [] || (since <= es[0].at && Timed(es[1..], es[0].at))
  }

  /** Tokens are never negative or above the burst, and no bucket was seen in the future. */
  ghost predicate Sane(l: Config, s: Slot, now: real) {
    s.Seen? ==> 0.0 <= s.bucket.tokens <= l.burst && s.bucket.lastSeen <= now
  }

  lemma RefillNonNegative(l: Config, elapsed: real)
    requires ConfigOk(l) && elapsed >= 0.0
    ensures elapsed * l.rate >= 0.0
  {
    ProductNonNegative(elapsed, l.rate);
  }

  lemma ProductNonNegative(a: real, b: real)
    requires a >= 0.0 && b >= 0.0
    ensures a * b >= 0.0
  {
  }

  lemma FilledInRange(l: Config, s: Slot, now: real)
    requires ConfigOk(l) && Sane(l, s, now)
    ensures 0.0 <= Filled(l, s, now) <= l.burst
    ensures Sane(l, Asked(l, s, now), now)
  {
    if s.Seen? {
      var e := now - s.bucket.lastSeen;
      RefillNonNegative(l, e);
      assert s.bucket.tokens + e * l.rate >= 0.0;
    }
  }

  /** Token by token: an answered yes costs one, a no costs nothing, and time gives back `rate` a second up to the burst. */
  lemma TokensExactly(l: Config, s: Slot, t: real, later: real)
    requires ConfigOk(l) && Sane(l, s, t) && t <= later
    ensures var left := Filled(l, s, t) - if Passes(l, s, t) then 1.0 else 0.0;
            Filled(l, Asked(l, s, t), later) == if left + l.rate * (later - t) > l.burst then l.burst else left + l.rate * (later - t)
    ensures Filled(l, Unseen, t) == l.burst
  {
  }

  // ---------- the rate bound ----------

  /** How many of the requests at the given times are allowed, starting from slot s. */
  function Allowed(l: Config, s: Slot, times: seq<real>): nat
    decreases |times|
  {
    if times == [] then 0
    else (if Passes(l, s, times[0]) then 1 else 0) + Allowed(l, Asked(l, s, times[0]), times[1..])
  }

  ghost predicate Rising(times: seq<real>) {
    |times| <= 1 || (times[0] <= times[1] && Rising(times[1..]))
  }

  /** What the bucket gains between consecutive requests. */
  function Gains(l: Config, times: seq<real>): seq<real> {
    if |times| <= 1 then [] else [Gain(l.rate, times[0], times[1])] + Gains(l, times[1..])
  }

  function Total(gains: seq<real>): real {
    if gains == [] then 0.0 else gains[0] + Total(gains[1..])
  }

  /** The same count from the tokens the first request finds and the gains that follow. */
  function Count(f: real, gains: seq<real>, burst: real): nat
    decreases |gains|
  {
    (if f >= 1.0 then 1 else 0)
    + if gains == [] then 0 else Count(Cap((if f >= 1.0 then f - 1.0 else f) + gains[0], burst), gains[1..], burst)
  }

  lemma {:induction false} AllowedIsCount(l: Config, s: Slot, times: seq<real>)
    requires times != []
    ensures Allowed(l, s, times) == Count(Filled(l, s, times[0]), Gains(l, times), l.burst)
    decreases |times|
  {
    var s1 := Asked(l, s, times[0]);
    if |times| == 1 {
      assert Allowed(l, s1, times[1..]) == 0;
    } else {
      var rest := times[1..];
      AllowedIsCount(l, s1, rest);
      assert Gains(l, times)[1..] == Gains(l, rest);
      assert Filled(l, s1, rest[0]) == Cap(s1.bucket.tokens + Gains(l, times)[0], l.burst);
    }
  }

  /** Each allowed request spends a token that was there at the start or was gained since. */
  lemma {:induction false} CountFits(f: real, gains: seq<real>, burst: real)
    requires forall i :: 0 <= i < |gains| ==> gains[i] >= 0.0
    ensures Total(gains) >= 0.0
    ensures Count(f, gains, burst) == 0 || Count(f, gains, burst) as real <= f + Total(gains)
    decreases |gains|
  {
    if gains != [] {
      CountFits(Cap((if f >= 1.0 then f - 1.0 else f) + gains[0], burst), gains[1..], burst);
    }
  }

  lemma {:induction false} GainsTotal(l: Config, times: seq<real>)
    requires ConfigOk(l) && Rising(times) && times != []
    ensures forall i :: 0 <= i < |Gains(l, times)| ==> Gains(l, times)[i] >= 0.0
    ensures times[0] <= times[|times| - 1]
    ensures Total(Gains(l, times)) == l.rate * (times[|times| - 1] - times[0])
    decreases |times|
  {
    if |times| > 1 {
      var rest := times[1..];
      GainsTotal(l, rest);
      var e, d := times[1] - times[0], times[|times| - 1] - times[1];
      ProductNonNegative(e, l.rate);
      assert Gains(l, times)[1..] == Gains(l, rest);
      GrowthSplits(l.rate, e, d);
      assert times[|times| - 1] - times[0] == e + d;
    }
  }

  lemma GrowthSplits(r: real, a: real, b: real)
    requires r > 0.0 && a >= 0.0 && b >= 0.0
    ensures r * (a + b) == r * a + r * b && r * a >= 0.0 && r * b >= 0.0
  {
  }

  /** In any stretch of time of length d, from any state, at most burst + rate * d requests of a key are allowed. */
  lemma RateBound(l: Config, s: Slot, times: seq<real>, d: real)
    requires ConfigOk(l) && Rising(times) && (times != [] ==> times[|times| - 1] - times[0] <= d) && d >= 0.0
    ensures Allowed(l, s, times) as real <= l.burst + l.rate * d
  {
    ProductNonNegative(l.rate, d);
    if times != [] {
      AllowedIsCount(l, s, times);
      GainsTotal(l, times);
      CountWithin(Filled(l, s, times[0]), Gains(l, times), l.burst, l.rate, times[|times| - 1] - times[0], d);
    }
  }

  lemma CountWithin(f: real, gains: seq<real>, burst: real, rate: real, span: real, d: real)
    requires burst > 0.0 && f <= burst && rate > 0.0
    requires Total(gains) == rate * span && span <= d && d >= 0.0
    requires forall i :: 0 <= i < |gains| ==> gains[i] >= 0.0
    ensures Count(f, gains, burst) as real <= burst + rate * d
  {
    ScaledWithin(Total(gains), rate, span, d);
    var most := rate * d;
    CountFits(f, gains, burst);
    assert most >= 0.0 && Total(gains) <= most;
  }

  lemma ScaledWithin(total: real, rate: real, span: real, d: real)
    requires total == rate * span && span <= d && rate > 0.0 && d >= 0.0
    ensures total <= rate * d && rate * d >= 0.0
  {
    ScaleMonotone(rate, span, d);
    ProductNonNegative(rate, d);
  }

  lemma ScaleMonotone(r: real, a: real, b: real)
    requires r > 0.0 && a <= b
    ensures r * a <= r * b
  {
  }

  /** With room for one token, a request at least 1/rate after the previous one is never refused. */
  lemma SpacedNeverRefused(l: Config, s: Slot, now: real)
    requires ConfigOk(l) && l.burst >= 1.0 && Sane(l, s, now)
    requires s.Seen? ==> now - s.bucket.lastSeen >= 1.0 / l.rate
    ensures Passes(l, s, now)
  {
    if s.Seen? {
      var e := now - s.bucket.lastSeen;
      OneTokenTakes(l.rate, e);
      assert s.bucket.tokens + e * l.rate >= 1.0;
    }
  }

  predicate SpacedBy(a: real, b: real, rate: real)
    requires rate > 0.0
  {
    b - a >= 1.0 / rate
  }

  lemma OneTokenTakes(r: real, e: real)
    requires r > 0.0 && e >= 1.0 / r
    ensures e * r >= 1.0
  {
    var q := 1.0 / r;
    assert q * r == 1.0;
    ProductNonNegative(e - q, r);
    assert (e - q) * r == e * r - q * r;
  }

  // ---------- the sweep cannot be observed, exactly when a bucket refills within the idle time ----------

  predicate RefillsWhileIdle(l: Config) {
    l.rate * l.idleTTL >= l.burst
  }

  /** The swept slot is the unswept one, or forgot a bucket that is full by `now` anyway. */
  ghost predicate Alike(l: Config, swept: Slot, kept: Slot, now: real) {
    || swept == kept
    || (swept == Unseen && kept.Seen? && kept.bucket.tokens + Gain(l.rate, kept.bucket.lastSeen, now) >= l.burst)
  }

  lemma AlikeFilled(l: Config, swept: Slot, kept: Slot, now: real)
    requires Alike(l, swept, kept, now)
    ensures Filled(l, swept, now) == Filled(l, kept, now)
  {
  }

  lemma AlikeLater(l: Config, swept: Slot, kept: Slot, now: real, later: real)
    requires ConfigOk(l) && Alike(l, swept, kept, now) && now <= later
    ensures Alike(l, swept, kept, later)
  {
    if kept.Seen? {
      var e, more := now - kept.bucket.lastSeen, later - now;
      RefillNonNegative(l, more);
      assert (e + more) * l.rate == e * l.rate + more * l.rate;
      assert kept.bucket.tokens + (e + more) * l.rate >= kept.bucket.tokens + e * l.rate;
    }
  }

  lemma SweepAlike(l: Config, s: Slot, now: real)
    requires ConfigOk(l) && RefillsWhileIdle(l) && Sane(l, s, now)
    ensures Alike(l, Swept(l, s, now), s, now)
  {
    if s.Seen? && s.bucket.lastSeen < now - l.idleTTL {
      var e := now - s.bucket.lastSeen;
      GrowthSplits(l.rate, l.idleTTL, e - l.idleTTL);
      assert s.bucket.tokens + e * l.rate >= l.burst;
    }
  }

  lemma StepAlike(l: Config, swept: Slot, kept: Slot, since: real, e: Event)
    requires ConfigOk(l) && RefillsWhileIdle(l) && Alike(l, swept, kept, since) && Sane(l, kept, since) && since <= e.at
    ensures Alike(l, Step(l, swept, e, true), Step(l, kept, e, false), e.at)
    ensures Sane(l, Step(l, kept, e, false), e.at)
  {
    AlikeLater(l, swept, kept, since, e.at);
    AlikeFilled(l, swept, kept, e.at);
    FilledInRange(l, kept, e.at);
    if e.Sweep? && swept == kept {
      SweepAlike(l, kept, e.at);
    }
  }

  lemma {:induction false} RunsAlike(l: Config, swept: Slot, kept: Slot, since: real, es: seq<Event>, now: real)
    requires ConfigOk(l) && RefillsWhileIdle(l) && Alike(l, swept, kept, since) && Sane(l, kept, since)
    requires Timed(es + [Ask(now)], since)
    ensures Passes(l, Run(l, swept, es, true), now) == Passes(l, Run(l, kept, es, false), now)
    decreases |es|
  {
    if es == [] {
      AlikeLater(l, swept, kept, since, now);
      AlikeFilled(l, swept, kept, now);
    } else {
      assert (es + [Ask(now)])[1..] == es[1..] + [Ask(now)];
      StepAlike(l, swept, kept, since, es[0]);
      RunsAlike(l, Step(l, swept, es[0], true), Step(l, kept, es[0], false), es[0].at, es[1..], now);
    }
  }

  /** Every answer is the one a limiter that never sweeps would give. */
  ghost predicate SweepUnobservable(l: Config) {
    forall es, now :: Timed(es + [Ask(now)], 0.0) ==>
      Passes(l, Run(l, Unseen, es, true), now) == Passes(l, Run(l, Unseen, es, false), now)
  }

  lemma RefillMakesUnobservable(l: Config)
    requires ConfigOk(l) && RefillsWhileIdle(l)
    ensures SweepUnobservable(l)
  {
    forall es, now | Timed(es + [Ask(now)], 0.0)
      ensures Passes(l, Run(l, Unseen, es, true), now) == Passes(l, Run(l, Unseen, es, false), now)
    {
      RunsAlike(l, Unseen, Unseen, 0.0, es, now);
    }
  }

  /** A bucket that cannot hold one token refuses everything, swept or not. */
  lemma SmallBurstUnobservable(l: Config)
    requires l.burst < 1.0
    ensures SweepUnobservable(l)
  {
  }

  // ---------- a run that shows the sweep, whenever it can be shown ----------

  /** From time t on, the slot behaves like a bucket holding y tokens at t. */
  ghost predicate Has(l: Config, s: Slot, t: real, y: real) {
    y <= l.burst && forall now :: now >= t ==> Filled(l, s, now) == Cap(y + Gain(l.rate, t, now), l.burst)
  }

  lemma UnseenIsFull(l: Config, t: real)
    requires ConfigOk(l)
    ensures Has(l, Unseen, t, l.burst)
  {
    forall now | now >= t ensures Filled(l, Unseen, now) == Cap(l.burst + Gain(l.rate, t, now), l.burst) {
      ProductNonNegative(now - t, l.rate);
    }
  }

  lemma HasNow(l: Config, s: Slot, t: real, y: real)
    requires Has(l, s, t, y)
    ensures Filled(l, s, t) == y
  {
    assert Gain(l.rate, t, t) == 0.0;
  }

  lemma AskTakesOne(l: Config, s: Slot, t: real, y: real)
    requires Has(l, s, t, y) && y >= 1.0
    ensures Has(l, Asked(l, s, t), t, y - 1.0)
  {
    HasNow(l, s, t, y);
  }

  function Asks(at: real, n: nat): seq<Event> {
    if n == 0 then [] else [Ask(at)] + Asks(at, n - 1)
  }

  lemma {:induction false} Drain(l: Config, s: Slot, t: real, y: real, n: nat, sweeping: bool)
    requires Has(l, s, t, y) && y >= n as real
    ensures Has(l, Run(l, s, Asks(t, n), sweeping), t, y - n as real)
    decreases n
  {
    if n > 0 {
      AskTakesOne(l, s, t, y);
      assert Asks(t, n)[1..] == Asks(t, n - 1);
      Drain(l, Asked(l, s, t), t, y - 1.0, n - 1, sweeping);
    }
  }

  lemma {:induction false} RunConcat(l: Config, s: Slot, a: seq<Event>, b: seq<Event>, sweeping: bool)
    ensures Run(l, s, a + b, sweeping) == Run(l, Run(l, s, a, sweeping), b, sweeping)
    decreases |a|
  {
    if a == [] {
      assert a + b == b;
    } else {
      assert (a + b)[1..] == a[1..] + b;
      RunConcat(l, Step(l, s, a[0], sweeping), a[1..], b, sweeping);
    }
  }

  lemma {:induction false} TimedAsks(t: real, n: nat, rest: seq<Event>, since: real)
    requires since <= t && Timed(rest, t)
    ensures Timed(Asks(t, n) + rest, since)
    decreases n
  {
    if n == 0 {
      assert Asks(t, n) + rest == rest;
    } else {
      assert (Asks(t, n) + rest)[1..] == Asks(t, n - 1) + rest;
      TimedAsks(t, n - 1, rest, t);
    }
  }

  /** Drained at 0 and then again at the instant one token is back, a bucket is exactly empty. */
  lemma EmptyAt(l: Config) returns (es: seq<Event>, t: real, n: nat)
    requires ConfigOk(l) && l.burst >= 1.0
    ensures t >= 0.0 && es == Asks(0.0, n) + [Ask(t)]
    ensures forall sweeping :: Run(l, Unseen, es, sweeping) == Seen(Bucket(0.0, t))
  {
    n := l.burst.Floor;
    var f := l.burst - n as real;
    t := (1.0 - f) / l.rate;
    DivNonNegative(1.0 - f, l.rate);
    es := Asks(0.0, n) + [Ask(t)];
    assert Gain(l.rate, 0.0, t) == 1.0 - f;
    forall sweeping ensures Run(l, Unseen, es, sweeping) == Seen(Bucket(0.0, t)) {
      UnseenIsFull(l, 0.0);
      Drain(l, Unseen, 0.0, l.burst, n, sweeping);
      var s := Run(l, Unseen, Asks(0.0, n), sweeping);
      assert Filled(l, s, t) == Cap(f + Gain(l.rate, 0.0, t), l.burst) == 1.0;
      RunConcat(l, Unseen, Asks(0.0, n), [Ask(t)], sweeping);
      assert Run(l, Asked(l, s, t), [Ask(t)][1..], sweeping) == Asked(l, s, t);
    }
  }

  lemma DivNonNegative(a: real, b: real)
    requires a >= 0.0 && b > 0.0
    ensures a / b >= 0.0 && (a / b) * b == a
  {
  }

  /** An idle time past the sweep's but too short for a full bucket. */
  lemma ShortIdle(l: Config) returns (e: real, x: real)
    requires ConfigOk(l) && !RefillsWhileIdle(l)
    ensures e > l.idleTTL && x == e * l.rate && 0.0 <= x < l.burst
  {
    var full := l.burst / l.rate;
    DivNonNegative(l.burst, l.rate);
    assert l.idleTTL < full by {
      if l.idleTTL >= full {
        ScaleMonotone(l.rate, full, l.idleTTL);
      }
    }
    e := (l.idleTTL + full) / 2.0;
    x := e * l.rate;
    ProductNonNegative(e, l.rate);
    StrictScale(e, full, l.rate);
  }

  lemma StrictScale(a: real, b: real, r: real)
    requires a < b && r > 0.0
    ensures a * r < b * r
  {
  }

  /** Two slots with y > x tokens, and x short of one: a probe at the right moment tells them apart. */
  lemma Probe(l: Config, swept: Slot, kept: Slot, t: real, y: real, x: real) returns (now: real)
    requires ConfigOk(l) && l.burst >= 1.0
    requires Has(l, swept, t, y) && Has(l, kept, t, x) && 0.0 <= x < 1.0 && x < y
    ensures now >= t && Passes(l, swept, now) && !Passes(l, kept, now)
  {
    if y >= 1.0 {
      now := t;
      HasNow(l, swept, t, y);
      HasNow(l, kept, t, x);
    } else {
      var wait := (1.0 - y) / l.rate;
      DivNonNegative(1.0 - y, l.rate);
      now := t + wait;
      assert Gain(l.rate, t, now) == 1.0 - y by {
        assert now - t == wait;
      }
      assert Filled(l, swept, now) == Cap(y + Gain(l.rate, t, now), l.burst);
      assert Filled(l, kept, now) == Cap(x + Gain(l.rate, t, now), l.burst);
    }
  }

  lemma SweepShows(l: Config)
    requires ConfigOk(l) && l.burst >= 1.0 && !RefillsWhileIdle(l)
    ensures !SweepUnobservable(l)
  {
    var es, t1, n := EmptyAt(l);
    var e, x := ShortIdle(l);
    var t2 := t1 + e;
    var kept := Seen(Bucket(0.0, t1));
    var m := x.Floor;
    UnseenIsFull(l, t2);
    KeptHas(l, t1, t2, x);
    Drain(l, Unseen, t2, l.burst, m, true);
    Drain(l, kept, t2, x, m, false);
    var now := Probe(l, Run(l, Unseen, Asks(t2, m), true), Run(l, kept, Asks(t2, m), false), t2,
                     l.burst - m as real, x - m as real);
    var tail := [Sweep(t2)] + Asks(t2, m);
    TailRuns(l, t1, t2, m);
    RunConcat(l, Unseen, es, tail, true);
    RunConcat(l, Unseen, es, tail, false);
    WitnessTimed(n, t1, t2, m, now);
    assert Timed((es + tail) + [Ask(now)], 0.0);
  }

  lemma KeptHas(l: Config, t1: real, t2: real, x: real)
    requires ConfigOk(l) && t1 <= t2 && x == Gain(l.rate, t1, t2) && x < l.burst
    ensures Has(l, Seen(Bucket(0.0, t1)), t2, x)
  {
    var kept := Seen(Bucket(0.0, t1));
    forall now | now >= t2 ensures Filled(l, kept, now) == Cap(x + Gain(l.rate, t2, now), l.burst) {
      var a, b := t2 - t1, now - t2;
      assert (a + b) * l.rate == a * l.rate + b * l.rate;
      assert now - t1 == a + b;
    }
  }

  lemma TailRuns(l: Config, t1: real, t2: real, m: nat)
    requires t1 < t2 - l.idleTTL
    ensures var kept := Seen(Bucket(0.0, t1));
            var tail := [Sweep(t2)] + Asks(t2, m);
            && Run(l, kept, tail, true) == Run(l, Unseen, Asks(t2, m), true)
            && Run(l, kept, tail, false) == Run(l, kept, Asks(t2, m), false)
  {
    var tail := [Sweep(t2)] + Asks(t2, m);
    assert tail[1..] == Asks(t2, m);
  }

  lemma WitnessTimed(n: nat, t1: real, t2: real, m: nat, now: real)
    requires 0.0 <= t1 <= t2 <= now
    ensures Timed(((Asks(0.0, n) + [Ask(t1)]) + ([Sweep(t2)] + Asks(t2, m))) + [Ask(now)], 0.0)
  {
    var last := [Ask(now)];
    assert last[1..] == [];
    TimedAsks(t2, m, last, t2);
    var mid := [Sweep(t2)] + (Asks(t2, m) + last);
    assert mid[1..] == Asks(t2, m) + last;
    var upper := [Ask(t1)] + mid;
    assert upper[1..] == mid;
    TimedAsks(0.0, n, upper, 0.0);
    assert ((Asks(0.0, n) + [Ask(t1)]) + ([Sweep(t2)] + Asks(t2, m))) + last == Asks(0.0, n) + upper;
  }

  /**
   * The sweep changes no answer, for any request and sweep times, exactly when a bucket refills within the idle
   * time or is too small to hold a token at all.
   */
  lemma SweepUnobservableExactly(l: Config)
    requires ConfigOk(l)
    ensures SweepUnobservable(l) <==> RefillsWhileIdle(l) || l.burst < 1.0
  {
    if RefillsWhileIdle(l) {
      RefillMakesUnobservable(l);
    } else if l.burst < 1.0 {
      SmallBurstUnobservable(l);
    } else {
      SweepShows(l);
    }
  }

  // ---------- the rate bound when sweeps run ----------

  /** How many of the requests among the events are allowed. */
  function Served(l: Config, s: Slot, es: seq<Event>, sweeping: bool): nat
    decreases |es|
  {
    if es == [] then 0
    else (if es[0].Ask? && Passes(l, s, es[0].at) then 1 else 0) + Served(l, Step(l, s, es[0], sweeping), es[1..], sweeping)
  }

  /** The times of the requests. */
  function Times(es: seq<Event>): seq<real> {
    if es == [] then [] else (if es[0].Ask? then [es[0].at] else []) + Times(es[1..])
  }

  /** The events span at most d seconds. */
  predicate Spans(es: seq<Event>, d: real) {
    d >= 0.0 && (es != [] ==> es[|es| - 1].at - es[0].at <= d)
  }

  /** Whatever came before, at most burst + rate * d requests are allowed in any stretch of length d. */
  ghost predicate RateBounded(l: Config) {
    forall before, es, d :: Timed(before + es, 0.0) && Spans(es, d) ==>
      Served(l, Run(l, Unseen, before, true), es, true) as real <= l.burst + l.rate * d
  }

  lemma {:induction false} ServedAlike(l: Config, swept: Slot, kept: Slot, since: real, es: seq<Event>)
    requires ConfigOk(l) && RefillsWhileIdle(l) && Alike(l, swept, kept, since) && Sane(l, kept, since)
    requires Timed(es, since)
    ensures Served(l, swept, es, true) == Served(l, kept, es, false)
    decreases |es|
  {
    if es != [] {
      AlikeLater(l, swept, kept, since, es[0].at);
      AlikeFilled(l, swept, kept, es[0].at);
      StepAlike(l, swept, kept, since, es[0]);
      ServedAlike(l, Step(l, swept, es[0], true), Step(l, kept, es[0], false), es[0].at, es[1..]);
    }
  }

  /** Without sweeps only the requests matter. */
  lemma {:induction false} ServedIsAllowed(l: Config, s: Slot, es: seq<Event>)
    ensures Served(l, s, es, false) == Allowed(l, s, Times(es))
    decreases |es|
  {
    if es != [] {
      ServedIsAllowed(l, Step(l, s, es[0], false), es[1..]);
      if es[0].Ask? {
        assert Times(es)[1..] == Times(es[1..]);
      } else {
        assert Times(es) == Times(es[1..]);
      }
    }
  }

  lemma {:induction false} TimesRise(es: seq<Event>, since: real)
    requires Timed(es, since)
    ensures Rising(Times(es))
    ensures Times(es) != [] ==> since <= Times(es)[0] && Times(es)[|Times(es)| - 1] <= es[|es| - 1].at
    ensures es != [] ==> since <= es[|es| - 1].at
    decreases |es|
  {
    if es != [] {
      TimesRise(es[1..], es[0].at);
      var rest := Times(es[1..]);
      assert Times(es) == if es[0].Ask? then [es[0].at] + rest else rest;
    }
  }

  /** A key whose requests are at least 1/rate apart is served every time, with sweeps or without. */
  lemma {:induction false} SpacedAllServed(l: Config, s: Slot, es: seq<Event>, since: real, sweeping: bool)
    requires ConfigOk(l) && l.burst >= 1.0 && Timed(es, since) && Sane(l, s, since)
    requires Times(es) != [] && s.Seen? ==> SpacedBy(s.bucket.lastSeen, Times(es)[0], l.rate)
    requires forall i :: 0 < i < |Times(es)| ==> SpacedBy(Times(es)[i - 1], Times(es)[i], l.rate)
    ensures Served(l, s, es, sweeping) == |Times(es)|
    decreases |es|
  {
    if es != [] {
      var rest := Times(es[1..]);
      assert Times(es) == if es[0].Ask? then [es[0].at] + rest else rest;
      if es[0].Ask? {
        SpacedNeverRefused(l, s, es[0].at);
        FilledInRange(l, s, es[0].at);
        forall i | 0 < i < |rest| ensures SpacedBy(rest[i - 1], rest[i], l.rate) {
          assert SpacedBy(Times(es)[i + 1 - 1], Times(es)[i + 1], l.rate);
        }
        assert rest != [] ==> SpacedBy(Times(es)[1 - 1], Times(es)[1], l.rate);
      }
      SpacedAllServed(l, Step(l, s, es[0], sweeping), es[1..], es[0].at, sweeping);
    }
  }

  lemma {:induction false} AlikeRuns(l: Config, swept: Slot, kept: Slot, since: real, es: seq<Event>, rest: seq<Event>)
    requires ConfigOk(l) && RefillsWhileIdle(l) && Alike(l, swept, kept, since) && Sane(l, kept, since)
    requires Timed(es + rest, since)
    ensures Served(l, Run(l, swept, es, true), rest, true) == Served(l, Run(l, kept, es, false), rest, false)
    decreases |es|
  {
    if es == [] {
      assert es + rest == rest;
      ServedAlike(l, swept, kept, since, rest);
    } else {
      assert (es + rest)[1..] == es[1..] + rest;
      StepAlike(l, swept, kept, since, es[0]);
      AlikeRuns(l, Step(l, swept, es[0], true), Step(l, kept, es[0], false), es[0].at, es[1..], rest);
    }
  }

  lemma {:induction false} TimedTail(before: seq<Event>, es: seq<Event>, since: real)
    requires Timed(before + es, since)
    ensures es != [] ==> Timed(es, es[0].at)
    decreases |before|
  {
    if before == [] {
      assert before + es == es;
    } else {
      assert (before + es)[1..] == before[1..] + es;
      TimedTail(before[1..], es, before[0].at);
    }
  }

  lemma BoundWhenRefilled(l: Config, before: seq<Event>, es: seq<Event>, d: real)
    requires ConfigOk(l) && RefillsWhileIdle(l) && Timed(before + es, 0.0) && Spans(es, d)
    ensures Served(l, Run(l, Unseen, before, true), es, true) as real <= l.burst + l.rate * d
  {
    var s := Run(l, Unseen, before, false);
    AlikeRuns(l, Unseen, Unseen, 0.0, before, es);
    ServedIsAllowed(l, s, es);
    TimedTail(before, es, 0.0);
    if es != [] {
      TimesRise(es, es[0].at);
    }
    RateBound(l, s, Times(es), d);
  }

  lemma {:induction false} SmallBurstServes(l: Config, s: Slot, es: seq<Event>, sweeping: bool)
    requires l.burst < 1.0
    ensures Served(l, s, es, sweeping) == 0
    decreases |es|
  {
    if es != [] {
      SmallBurstServes(l, Step(l, s, es[0], sweeping), es[1..], sweeping);
    }
  }

  lemma {:induction false} ServedConcat(l: Config, s: Slot, a: seq<Event>, b: seq<Event>, sweeping: bool)
    ensures Served(l, s, a + b, sweeping) == Served(l, s, a, sweeping) + Served(l, Run(l, s, a, sweeping), b, sweeping)
    decreases |a|
  {
    if a == [] {
      assert a + b == b;
    } else {
      assert (a + b)[1..] == a[1..] + b;
      ServedConcat(l, Step(l, s, a[0], sweeping), a[1..], b, sweeping);
    }
  }

  lemma {:induction false} DrainServes(l: Config, s: Slot, t: real, y: real, n: nat, sweeping: bool)
    requires Has(l, s, t, y) && y >= n as real
    ensures Served(l, s, Asks(t, n), sweeping) == n
    decreases n
  {
    if n > 0 {
      HasNow(l, s, t, y);
      AskTakesOne(l, s, t, y);
      assert Asks(t, n)[1..] == Asks(t, n - 1);
      DrainServes(l, Asked(l, s, t), t, y - 1.0, n - 1, sweeping);
    }
  }

  /**
   * One turn of the worst case: empty a full bucket, take the next token the moment it is back, leave, and be
   * swept. `wait` is until that token, `idle` until the sweep.
   */
  function Turn(t: real, n: nat, wait: real, idle: real): seq<Event> {
    Asks(t, n) + [Ask(t + wait)] + [Sweep(t + wait + idle)]
  }

  ghost predicate TurnOk(l: Config, n: nat, wait: real, idle: real) {
    && n as real <= l.burst < n as real + 1.0
    && wait >= 0.0 && wait * l.rate == 1.0 - (l.burst - n as real) && idle > l.idleTTL
  }

  lemma TurnServes(l: Config, t: real, n: nat, wait: real, idle: real)
    requires ConfigOk(l) && l.burst >= 1.0 && TurnOk(l, n, wait, idle)
    ensures Served(l, Unseen, Turn(t, n, wait, idle), true) == n + 1
    ensures Run(l, Unseen, Turn(t, n, wait, idle), true) == Unseen
  {
    var f, s := l.burst - n as real, Run(l, Unseen, Asks(t, n), true);
    UnseenIsFull(l, t);
    Drain(l, Unseen, t, l.burst, n, true);
    DrainServes(l, Unseen, t, l.burst, n, true);
    assert Gain(l.rate, t, t + wait) == wait * l.rate;
    assert Filled(l, s, t + wait) == Cap(f + Gain(l.rate, t, t + wait), l.burst) == 1.0;
    var s1 := Asked(l, s, t + wait);
    LastTwo(l, s, t + wait, t + wait + idle);
    RunConcat(l, Unseen, Asks(t, n), [Ask(t + wait)] + [Sweep(t + wait + idle)], true);
    ServedConcat(l, Unseen, Asks(t, n), [Ask(t + wait)] + [Sweep(t + wait + idle)], true);
    assert Turn(t, n, wait, idle) == Asks(t, n) + ([Ask(t + wait)] + [Sweep(t + wait + idle)]);
  }

  lemma LastTwo(l: Config, s: Slot, at: real, swept: real)
    requires Passes(l, s, at) && at < swept - l.idleTTL
    ensures Served(l, s, [Ask(at)] + [Sweep(swept)], true) == 1
    ensures Run(l, s, [Ask(at)] + [Sweep(swept)], true) == Unseen
  {
    var es := [Ask(at)] + [Sweep(swept)];
    assert es[1..] == [Sweep(swept)] && es[1..][1..] == [];
    assert Step(l, Asked(l, s, at), Sweep(swept), true) == Unseen;
    assert Run(l, Unseen, es[1..][1..], true) == Unseen;
    assert Served(l, Unseen, es[1..][1..], true) == 0;
    assert Served(l, Asked(l, s, at), es[1..], true) == 0;
  }

  function Turns(t: real, n: nat, wait: real, idle: real, k: nat): seq<Event>
    decreases k
  {
    if k == 0 then [] else Turn(t, n, wait, idle) + Turns(t + wait + idle, n, wait, idle, k - 1)
  }

  lemma {:induction false} TurnsServe(l: Config, t: real, n: nat, wait: real, idle: real, k: nat)
    requires ConfigOk(l) && l.burst >= 1.0 && TurnOk(l, n, wait, idle)
    ensures Served(l, Unseen, Turns(t, n, wait, idle, k), true) == k * (n + 1)
    decreases k
  {
    if k > 0 {
      TurnServes(l, t, n, wait, idle);
      ServedConcat(l, Unseen, Turn(t, n, wait, idle), Turns(t + wait + idle, n, wait, idle, k - 1), true);
      TurnsServe(l, t + wait + idle, n, wait, idle, k - 1);
    }
  }

  lemma TurnTimed(t: real, n: nat, wait: real, idle: real, rest: seq<Event>, since: real)
    requires wait >= 0.0 && idle >= 0.0 && since <= t && Timed(rest, t + wait + idle)
    ensures Timed(Turn(t, n, wait, idle) + rest, since)
  {
    var last := [Sweep(t + wait + idle)] + rest;
    assert last[1..] == rest;
    var more := [Ask(t + wait)] + last;
    assert more[1..] == last;
    TimedAsks(t, n, more, since);
    assert Turn(t, n, wait, idle) + rest == Asks(t, n) + more;
  }

  lemma {:induction false} TurnsTimed(t: real, n: nat, wait: real, idle: real, k: nat, since: real)
    requires wait >= 0.0 && idle >= 0.0 && since <= t
    ensures Timed(Turns(t, n, wait, idle, k), since)
    decreases k
  {
    if k > 0 {
      var t' := t + wait + idle;
      TurnsTimed(t', n, wait, idle, k - 1, t');
      TurnTimed(t, n, wait, idle, Turns(t', n, wait, idle, k - 1), since);
    }
  }

  lemma OneTurnMore(k: nat, turn: real)
    requires k > 0
    ensures (k - 1) as real * turn + turn == k as real * turn
  {
    var x := (k - 1) as real;
    assert k as real == x + 1.0;
    assert (x + 1.0) * turn == x * turn + turn;
  }

  lemma TurnStarts(t: real, n: nat, wait: real, idle: real)
    requires n > 0
    ensures |Turn(t, n, wait, idle)| > 0 && Turn(t, n, wait, idle)[0].at == t
    ensures Turn(t, n, wait, idle)[|Turn(t, n, wait, idle)| - 1].at == t + wait + idle
  {
    assert Asks(t, n)[0] == Ask(t);
  }

  /** The turns start at t and take k times as long as one. */
  ghost predicate Covers(es: seq<Event>, t: real, d: real) {
    es != [] && es[0].at == t && es[|es| - 1].at == t + d
  }

  lemma {:induction false} TurnsSpan(t: real, n: nat, wait: real, idle: real, k: nat)
    requires n > 0 && k > 0
    ensures Covers(Turns(t, n, wait, idle, k), t, k as real * (wait + idle))
    decreases k
  {
    var turn, rest := Turn(t, n, wait, idle), Turns(t + wait + idle, n, wait, idle, k - 1);
    TurnStarts(t, n, wait, idle);
    if k == 1 {
      assert turn + rest == turn;
    } else {
      TurnsSpan(t + wait + idle, n, wait, idle, k - 1);
      OneTurnMore(k, wait + idle);
    }
  }

  /** Each turn serves more than the time it takes would refill; enough turns pass any bound. */
  lemma EnoughTurns(burst: real, gain: real, n: nat) returns (k: nat)
    requires burst > 0.0 && gain < n as real + 1.0
    ensures k > 0 && (k * (n + 1)) as real > burst + k as real * gain
  {
    var m := n as real + 1.0;
    var excess := m - gain;
    k := Archimedes(burst, excess);
    ExcessAdds(k as real, m, gain);
    CastProduct(k, n + 1);
    assert (n + 1) as real == m;
  }

  lemma Archimedes(a: real, step: real) returns (k: nat)
    requires a > 0.0 && step > 0.0
    ensures k > 0 && k as real * step > a
  {
    var q := a / step;
    DivNonNegative(a, step);
    k := q.Floor + 1;
    var kr := k as real;
    assert q < kr;
    StrictScale(q, kr, step);
    assert q * step == a;
  }

  lemma ExcessAdds(k: real, m: real, gain: real)
    ensures k * (m - gain) == k * m - k * gain
  {
  }

  lemma {:induction false} CastProduct(a: nat, b: nat)
    ensures (a * b) as real == a as real * b as real
  {
    if a > 0 {
      CastProduct(a - 1, b);
      OneTurnMore(a, b as real);
      assert a * b == (a - 1) * b + b;
    }
  }

  /** The refill over k turns. */
  lemma TurnsRefill(rate: real, wait: real, idle: real, k: real)
    ensures rate * (k * (wait + idle)) == k * (wait * rate + idle * rate)
  {
    assert (wait + idle) * rate == wait * rate + idle * rate;
    assert rate * (k * (wait + idle)) == k * ((wait + idle) * rate);
  }

  lemma Overserved(l: Config, es: seq<Event>, d: real)
    requires Timed(es, 0.0) && Spans(es, d) && Served(l, Unseen, es, true) as real > l.burst + l.rate * d
    ensures !RateBounded(l)
  {
    assert [] + es == es;
    assert Run(l, Unseen, [], true) == Unseen;
    assert Timed([] + es, 0.0) && Spans(es, d);
  }

  lemma SweepBreaksBound(l: Config)
    requires ConfigOk(l) && l.burst >= 1.0 && !RefillsWhileIdle(l)
    ensures !RateBounded(l)
  {
    var idle, x := ShortIdle(l);
    var n := l.burst.Floor;
    var short := 1.0 - (l.burst - n as real);
    var wait := short / l.rate;
    DivNonNegative(short, l.rate);
    var k := EnoughTurns(l.burst, short + x, n);
    var es, d := Turns(0.0, n, wait, idle, k), k as real * (wait + idle);
    TurnsServe(l, 0.0, n, wait, idle, k);
    TurnsTimed(0.0, n, wait, idle, k, 0.0);
    TurnsSpan(0.0, n, wait, idle, k);
    ProductNonNegative(k as real, wait + idle);
    TurnsRefill(l.rate, wait, idle, k as real);
    Overserved(l, es, d);
  }

  /**
   * With sweeps at any times, a key gets at most burst + rate * d requests in every stretch of length d, exactly
   * when a bucket refills within the idle time or is too small to hold a token at all.
   */
  lemma RateBoundedExactly(l: Config)
    requires ConfigOk(l)
    ensures RateBounded(l) <==> RefillsWhileIdle(l) || l.burst < 1.0
  {
    if RefillsWhileIdle(l) {
      forall before, es, d | Timed(before + es, 0.0) && Spans(es, d)
        ensures Served(l, Run(l, Unseen, before, true), es, true) as real <= l.burst + l.rate * d
      {
        BoundWhenRefilled(l, before, es, d);
      }
    } else if l.burst < 1.0 {
      forall before, es, d | Timed(before + es, 0.0) && Spans(es, d)
        ensures Served(l, Run(l, Unseen, before, true), es, true) as real <= l.burst + l.rate * d
      {
        SmallBurstServes(l, Run(l, Unseen, before, true), es, true);
        ProductNonNegative(l.rate, d);
      }
    } else {
      SweepBreaksBound(l);
    }
  }

  // ---------- the limiter ----------

  class Limiter {
    const config: Config
    var buckets: map<string, Bucket>

    function SlotOf(key: string): Slot
      reads this
    {
      if key in buckets then Seen(buckets[key]) else Unseen
    }

    constructor (rate: real, burst: real)
      requires rate > 0.0 && burst > 0.0
      ensures buckets == map[] && config == Config(rate, burst, 600.0)
    {
      config := Config(rate, burst, 600.0);
      buckets := map[];
    }

    method Allow(key: string, now: real) returns (ok: bool)
      modifies this
      ensures ok == Passes(config, old(SlotOf(key)), now)
      ensures SlotOf(key) == Step(config, old(SlotOf(key)), Ask(now), true)
      ensures forall k :: k != key ==> SlotOf(k) == old(SlotOf(k))
    {
      var b := if key in buckets then buckets[key] else Bucket(config.burst, now);
      var tokens := b.tokens + (now - b.lastSeen) * config.rate;
      assert key !in buckets ==> (now - b.lastSeen) * config.rate == 0.0;
      if tokens > config.burst {
        tokens := config.burst;
      }
      ok := tokens >= 1.0;
      buckets := buckets[key := Bucket(if ok then tokens - 1.0 else tokens, now)];
    }

    /** One pass of the sweep loop. */
    method SweepOnce(now: real)
      modifies this
      ensures forall k :: SlotOf(k) == Step(config, old(SlotOf(k)), Sweep(now), true)
      ensures forall k :: k in buckets <==> k in old(buckets) && old(buckets)[k].lastSeen >= now - config.idleTTL
    {
      var cutoff := now - config.idleTTL;
      var todo := buckets.Keys;
      while todo != {}
        invariant todo <= buckets.Keys <= old(buckets).Keys
        invariant forall k :: k in todo ==> buckets[k] == old(buckets)[k]
        invariant forall k :: k !in todo ==> SlotOf(k) == Swept(config, old(SlotOf(k)), now)
        decreases |todo|
      {
        var k :| k in todo;
        if buckets[k].lastSeen < cutoff {
          buckets := buckets - {k};
        }
        todo := todo - {k};
      }
      forall k ensures k in buckets <==> k in old(buckets) && old(buckets)[k].lastSeen >= now - config.idleTTL {
        assert SlotOf(k) == Swept(config, old(SlotOf(k)), now);
      }
    }
  }
}

/**
 * Rolling spend windows and the learned baseline (internal/risk/window.go). Times are seconds, costs are
 * micro-units, float64 is real; one call reads the clock once.
 */
module Windows {

  datatype Sample = Sample(at: real, cost: int)

  const ONE_UNIT := 1_000_000.0

  // ---------- the buffer and the history it stands for ----------

  /** evictLocked: drop leading samples older than the cutoff. */
  function Evict(s: seq<Sample>, cutoff: real): seq<Sample> {
    if s != [] && s[0].at < cutoff then Evict(s[1..], cutoff) else s
  }

  function Sum(s: seq<Sample>): int {
    if s == [] then 0 else Sum(s[..|s| - 1]) + s[|s| - 1].cost
  }

  /** The total cost of all samples ever recorded with time not before the cutoff. */
  function SumSince(h: seq<Sample>, cutoff: real): int {
    if h == [] then 0
    else SumSince(h[..|h| - 1], cutoff) + if h[|h| - 1].at < cutoff then 0 else h[|h| - 1].cost
  }

  /** Sample by sample: what is as old as the cutoff still counts, what is older does not. */
  lemma SumSinceByOne(h: seq<Sample>, x: Sample, cutoff: real)
    ensures SumSince([], cutoff) == 0
    ensures SumSince(h + [x], cutoff) == SumSince(h, cutoff) + if x.at >= cutoff then x.cost else 0
  {
    assert (h + [x])[..|h|] == h;
  }

  /** Recorded under a non-decreasing clock. */
  ghost predicate Sorted(h: seq<Sample>) {
    forall i, j :: 0 <= i <= j < |h| ==> h[i].at <= h[j].at
  }

  /** The buffer is the first k samples of the history without a prefix that was out of the window by `asOf`. */
  ghost predicate Buffers(s: seq<Sample>, h: seq<Sample>, k: nat, lookback: real, asOf: real) {
    && |s| <= k <= |h|
    && (forall i :: 0 <= i < |s| ==> s[i] == h[k - |s| + i])
    && (forall i :: 0 <= i < k ==> h[i].at <= asOf)
    && (forall i :: 0 <= i < k - |s| ==> h[i].at < asOf - lookback)
  }

  lemma {:induction false} EvictBuffers(s: seq<Sample>, h: seq<Sample>, k: nat, lookback: real, asOf: real, now: real)
    requires Buffers(s, h, k, lookback, asOf) && now >= asOf
    ensures Buffers(Evict(s, now - lookback), h, k, lookback, now)
    decreases |s|
  {
    if s != [] && s[0].at < now - lookback {
      assert s[0] == h[k - |s|];
      EvictBuffers(s[1..], h, k, lookback, now, now);
    }
  }

  lemma {:induction false} EvictLeavesRecent(s: seq<Sample>, cutoff: real)
    requires Sorted(s)
    ensures forall x :: x in Evict(s, cutoff) ==> x.at >= cutoff
    decreases |s|
  {
    if s != [] {
      if s[0].at < cutoff {
        EvictLeavesRecent(s[1..], cutoff);
      } else {
        forall x | x in s ensures x.at >= cutoff {
          var i :| 0 <= i < |s| && s[i] == x;
          assert s[0].at <= s[i].at;
        }
      }
    }
  }

  lemma AppendBuffers(s: seq<Sample>, h: seq<Sample>, k: nat, lookback: real, asOf: real)
    requires Buffers(s, h, k, lookback, asOf) && k < |h| && h[k].at >= asOf
    ensures Buffers(s + [h[k]], h, k + 1, lookback, h[k].at)
  {
  }

  /** What is left after eviction sums to exactly what the full history says. */
  lemma {:induction false} TailSum(h: seq<Sample>, p: nat, cutoff: real)
    requires p <= |h|
    requires forall i :: 0 <= i < p ==> h[i].at < cutoff
    requires forall x :: x in h[p..] ==> x.at >= cutoff
    ensures Sum(h[p..]) == SumSince(h, cutoff)
    decreases |h|
  {
    if h != [] {
      var init := h[..|h| - 1];
      if p == |h| {
        TailSum(init, p - 1, cutoff);
        assert init[p - 1..] == [];
      } else {
        assert h[p..][..|h[p..]| - 1] == init[p..];
        TailSum(init, p, cutoff);
        assert h[|h| - 1] in h[p..];
      }
    }
  }

  /** Refinement of one read: evicting the buffer and summing it is a filter over the whole history. */
  lemma BufferedSum(s: seq<Sample>, h: seq<Sample>, lookback: real, asOf: real, now: real)
    requires Buffers(s, h, |h|, lookback, asOf) && Sorted(h) && now >= asOf
    ensures Sum(Evict(s, now - lookback)) == SumSince(h, now - lookback)
  {
    EvictBuffers(s, h, |h|, lookback, asOf, now);
    BufferSorted(s, h, lookback, asOf);
    EvictLeavesRecent(s, now - lookback);
    SuffixSum(Evict(s, now - lookback), h, lookback, now);
  }

  lemma BufferSorted(s: seq<Sample>, h: seq<Sample>, lookback: real, asOf: real)
    requires Buffers(s, h, |h|, lookback, asOf) && Sorted(h)
    ensures Sorted(s)
  {
  }

  lemma SuffixSum(e: seq<Sample>, h: seq<Sample>, lookback: real, now: real)
    requires Buffers(e, h, |h|, lookback, now)
    requires forall x :: x in e ==> x.at >= now - lookback
    ensures Sum(e) == SumSince(h, now - lookback)
  {
    assert h[|h| - |e|..] == e;
    TailSum(h, |h| - |e|, now - lookback);
  }

  // ---------- every sequence of window calls ----------

  /** Record appends and evicts; every other call only evicts before it reads. */
  datatype Call = Record(at: real, cost: int) | Read(at: real)

  function Step(s: seq<Sample>, c: Call, lookback: real): seq<Sample> {
    match c
    case Record(at, cost) => Evict(s + [Sample(at, cost)], at - lookback)
    case Read(at) => Evict(s, at - lookback)
  }

  /** The buffer after the first k calls. */
  function Buffer(cs: seq<Call>, k: nat, lookback: real): seq<Sample>
    requires k <= |cs|
  {
    if k == 0 then [] else Step(Buffer(cs, k - 1, lookback), cs[k - 1], lookback)
  }

  /** Everything ever recorded in the first k calls. */
  function History(cs: seq<Call>, k: nat): seq<Sample>
    requires k <= |cs|
  {
    if k == 0 then []
    else match cs[k - 1]
      case Record(at, cost) => History(cs, k - 1) + [Sample(at, cost)]
      case Read(_) => History(cs, k - 1)
  }

  ghost predicate ClockRises(cs: seq<Call>) {
    forall i, j :: 0 <= i <= j < |cs| ==> cs[i].at <= cs[j].at
  }

  lemma RecordBuffers(s: seq<Sample>, h: seq<Sample>, x: Sample, lookback: real, asOf: real)
    requires Buffers(s, h, |h|, lookback, asOf) && Sorted(h) && x.at >= asOf
    ensures Sorted(h + [x]) && Buffers(Evict(s + [x], x.at - lookback), h + [x], |h| + 1, lookback, x.at)
  {
    var h' := h + [x];
    assert Buffers(s, h', |h|, lookback, asOf);
    AppendBuffers(s, h', |h|, lookback, asOf);
    EvictBuffers(s + [x], h', |h'|, lookback, x.at, x.at);
  }

  lemma StepBuffers(s: seq<Sample>, h: seq<Sample>, c: Call, lookback: real, asOf: real)
    requires Buffers(s, h, |h|, lookback, asOf) && Sorted(h) && c.at >= asOf
    ensures var h' := if c.Record? then h + [Sample(c.at, c.cost)] else h;
            Sorted(h') && Buffers(Step(s, c, lookback), h', |h'|, lookback, c.at)
  {
    if c.Record? {
      RecordBuffers(s, h, Sample(c.at, c.cost), lookback, asOf);
    } else {
      EvictBuffers(s, h, |h|, lookback, asOf, c.at);
    }
  }

  lemma {:induction false} CallsBuffer(cs: seq<Call>, k: nat, lookback: real, asOf: real)
    requires k <= |cs| && ClockRises(cs) && (k > 0 ==> asOf == cs[k - 1].at)
    ensures Sorted(History(cs, k)) && Buffers(Buffer(cs, k, lookback), History(cs, k), |History(cs, k)|, lookback, asOf)
  {
    if k > 0 {
      var before := if k == 1 then asOf else cs[k - 2].at;
      CallsBuffer(cs, k - 1, lookback, before);
      StepBuffers(Buffer(cs, k - 1, lookback), History(cs, k - 1), cs[k - 1], lookback, before);
    }
  }

  /**
   * The prefix-evicting buffer refines the full history: after any calls under a non-decreasing clock, Sum at
   * `now` is the total of everything ever recorded in the last `lookback` seconds.
   */
  lemma WindowSumIsExact(cs: seq<Call>, lookback: real, now: real)
    requires ClockRises(cs) && (cs != [] ==> cs[|cs| - 1].at <= now)
    ensures Sum(Evict(Buffer(cs, |cs|, lookback), now - lookback)) == SumSince(History(cs, |cs|), now - lookback)
  {
    var asOf := if cs == [] then now else cs[|cs| - 1].at;
    CallsBuffer(cs, |cs|, lookback, asOf);
    BufferedSum(Buffer(cs, |cs|, lookback), History(cs, |cs|), lookback, asOf, now);
  }

  /** For non-negative costs, a later cutoff never sums to more. */
  lemma {:induction false} SumsAreNested(h: seq<Sample>, later: real, earlier: real)
    requires earlier <= later && forall i :: 0 <= i < |h| ==> h[i].cost >= 0
    ensures 0 <= SumSince(h, later) <= SumSince(h, earlier)
    decreases |h|
  {
    if h != [] {
      SumsAreNested(h[..|h| - 1], later, earlier);
    }
  }

  /** VelocityPerSec on a window total. */
  function Velocity(total: int, lookback: real): real {
    if lookback <= 0.0 then 0.0 else total as real / ONE_UNIT / lookback
  }

  /** A velocity is whole units per second: over the window it comes to the total, in micro-units. */
  lemma VelocityIsPerSecond(total: int, lookback: real)
    requires lookback > 0.0
    ensures Velocity(total, lookback) * lookback * 1_000_000.0 == total as real
  {
    var units := total as real / 1_000_000.0;
    assert (units / lookback) * lookback == units;
  }

  /** A burst shows at most (medium / short) times as fast in the short window as in the medium one. */
  lemma ShortVelocityBound(h: seq<Sample>, now: real, short: real, medium: real)
    requires 0.0 < short <= medium && forall i :: 0 <= i < |h| ==> h[i].cost >= 0
    ensures Velocity(SumSince(h, now - short), short)
         <= medium / short * Velocity(SumSince(h, now - medium), medium)
  {
    SumsAreNested(h, now - short, now - medium);
    var a := SumSince(h, now - short) as real / ONE_UNIT;
    var b := SumSince(h, now - medium) as real / ONE_UNIT;
    assert medium / short * (b / medium) == b / short;
    DivMono(a, b, short);
  }

  lemma DivMono(a: real, b: real, d: real)
    requires a <= b && d > 0.0
    ensures a / d <= b / d
  {
  }

  // ---------- the window class ----------

  class RollingWindow {
    const lookback: real
    var samples: seq<Sample>

    constructor (lookback: real)
      ensures this.lookback == lookback && samples == []
    {
      this.lookback := lookback;
      samples := [];
    }

    method EvictLocked(now: real)
      modifies this
      ensures samples == Step(old(samples), Read(now), lookback)
    {
      var cutoff := now - lookback;
      var i := 0;
      while i < |samples| && samples[i].at < cutoff
        invariant 0 <= i <= |samples|
        invariant Evict(samples[i..], cutoff) == Evict(samples, cutoff)
      {
        assert samples[i..][1..] == samples[i + 1..];
        i := i + 1;
      }
      if i > 0 {
        samples := samples[i..];
      }
    }

    method Add(now: real, cost: int)
      modifies this
      ensures samples == Step(old(samples), Record(now, cost), lookback)
    {
      samples := samples + [Sample(now, cost)];
      EvictLocked(now);
    }

    method Total(now: real) returns (total: int)
      modifies this
      ensures samples == Step(old(samples), Read(now), lookback)
      ensures total == Sum(samples)
    {
      EvictLocked(now);
      total := 0;
      for i := 0 to |samples|
        invariant total == Sum(samples[..i])
      {
        assert samples[..i + 1][..i] == samples[..i];
        total := total + samples[i].cost;
      }
      assert samples[..|samples|] == samples;
    }

    method VelocityPerSec(now: real) returns (v: real)
      modifies this
      ensures samples == Step(old(samples), Read(now), lookback)
      ensures v == Velocity(Sum(samples), lookback)
    {
      var total := Total(now);
      v := if lookback <= 0.0 then 0.0 else total as real / ONE_UNIT / lookback;
    }
  }
}

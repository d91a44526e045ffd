/** The circuit breaker (internal/circuit/circuit.go): its transitions, its class and what its runs keep. */
module CircuitBreaker {

  /** TESTING is the source's unexported HALF_OPEN_TESTING. */
  datatype Phase = CLOSED | OPEN | HALF_OPEN | TESTING

  datatype Circuit = Circuit(phase: Phase, openedAt: real, cooldown: real)

  function Advance(c: Circuit, now: real): Circuit {
    if c.phase == OPEN && now - c.openedAt >= c.cooldown then c.(phase := HALF_OPEN) else c
  }

  /** What State() reports: the testing sub-state is not shown. */
  function Shown(c: Circuit): Phase {
    if c.phase == TESTING then HALF_OPEN else c.phase
  }

  function Tripped(c: Circuit, now: real): Circuit {
    c.(phase := OPEN, openedAt := now)
  }

  predicate Allows(c: Circuit, now: real) {
    var p := Advance(c, now).phase;
    p == CLOSED || p == HALF_OPEN
  }

  function AfterAllow(c: Circuit, now: real): Circuit {
    var a := Advance(c, now);
    if a.phase == HALF_OPEN then a.(phase := TESTING) else a
  }

  function Succeeded(c: Circuit): Circuit {
    if c.phase == TESTING then c.(phase := CLOSED) else c
  }

  function Failed(c: Circuit, now: real): Circuit {
    if c.phase == TESTING || c.phase == CLOSED then Tripped(c, now) else c
  }

  class Breaker {
    var phase: Phase
    var openedAt: real
    const cooldown: real
    ghost var trace: seq<Event> // every call made on this breaker, in order

    function Value(): Circuit
      reads this
    {
      Circuit(phase, openedAt, cooldown)
    }

    constructor (cooldown: real)
      ensures Value() == Circuit(CLOSED, 0.0, cooldown) && trace == []
    {
      this.cooldown := cooldown;
      phase := CLOSED;
      openedAt := 0.0;
      trace := [];
    }

    method MaybeAdvance(now: real)
      modifies this`phase
      ensures Value() == Advance(old(Value()), now)
    {
      if phase == OPEN && now - openedAt >= cooldown {
        phase := HALF_OPEN;
      }
    }

    method State(now: real) returns (p: Phase)
      modifies this
      ensures Value() == Advance(old(Value()), now)
      ensures p == Shown(Value()) && trace == old(trace) + [Event(Look, now)]
    {
      trace := trace + [Event(Look, now)];
      MaybeAdvance(now);
      p := if phase == TESTING then HALF_OPEN else phase;
    }

    method Trip(now: real)
      modifies this
      ensures Value() == Tripped(old(Value()), now) && trace == old(trace) + [Event(Call.Trip, now)]
    {
      trace := trace + [Event(Call.Trip, now)];
      phase := OPEN;
      openedAt := now;
    }

    method Allow(now: real) returns (ok: bool)
      modifies this
      ensures ok == Allows(old(Value()), now)
      ensures Value() == AfterAllow(old(Value()), now) && trace == old(trace) + [Event(Call.Allow, now)]
    {
      trace := trace + [Event(Call.Allow, now)];
      MaybeAdvance(now);
      match phase {
        case CLOSED => ok := true;
        case HALF_OPEN =>
          phase := TESTING;
          ok := true;
        case _ => ok := false;
      }
    }

    method ReportSuccess(ghost now: real)
      modifies this
      ensures Value() == Succeeded(old(Value())) && trace == old(trace) + [Event(Success, now)]
    {
      trace := trace + [Event(Success, now)];
      if phase == TESTING {
        phase := CLOSED;
      }
    }

    method ReportFailure(now: real)
      modifies this
      ensures Value() == Failed(old(Value()), now) && trace == old(trace) + [Event(Failure, now)]
    {
      trace := trace + [Event(Failure, now)];
      if phase == TESTING || phase == CLOSED {
        phase := OPEN;
        openedAt := now;
      }
    }
  }

  // ---------- runs ----------

  datatype Call = Look | Trip | Allow | Success | Failure

  datatype Event = Event(call: Call, at: real)

  function Apply(c: Circuit, e: Event): Circuit {
    match e.call
    case Look => Advance(c, e.at)
    case Trip => Tripped(c, e.at)
    case Allow => AfterAllow(c, e.at)
    case Success => Succeeded(c)
    case Failure => Failed(c, e.at)
  }

  /** The breaker after the first k events. */
  function At(c: Circuit, es: seq<Event>, k: nat): Circuit
    requires k <= |es|
  {
    if k == 0 then c else Apply(At(c, es, k - 1), es[k - 1])
  }

  /** The same run as a fold from the left. */
  function Fold(c: Circuit, es: seq<Event>): Circuit
    decreases |es|
  {
    if es == [] then c else Fold(Apply(c, es[0]), es[1..])
  }

  /** What is left to fold after k events. */
  lemma {:induction false} FoldIsRun(c: Circuit, es: seq<Event>, k: nat)
    requires k <= |es|
    ensures Fold(At(c, es, k), es[k..]) == Fold(c, es)
  {
    if k == 0 {
      assert es[0..] == es;
    } else {
      FoldIsRun(c, es, k - 1);
      assert es[k - 1..][1..] == es[k..];
    }
  }

  lemma FoldOne(c: Circuit, a: Event)
    ensures Fold(c, [a]) == Apply(c, a)
  {
    assert [a][1..] == [];
  }

  lemma FoldTwo(c: Circuit, a: Event, b: Event)
    ensures Fold(c, [a, b]) == Apply(Apply(c, a), b)
  {
    assert [a, b][1..] == [b];
    FoldOne(Apply(c, a), b);
  }

  lemma FoldThree(c: Circuit, a: Event, b: Event, d: Event)
    ensures Fold(c, [a, b, d]) == Apply(Apply(Apply(c, a), b), d)
  {
    assert [a, b, d][1..] == [b, d];
    FoldTwo(Apply(c, a), b, d);
  }

  ghost predicate Sorted(es: seq<Event>) {
    forall i, j :: 0 <= i <= j < |es| ==> es[i].at <= es[j].at
  }

  /** An event that opens the breaker. */
  predicate Opens(c: Circuit, e: Event) {
    e.call == Trip || (e.call == Failure && (c.phase == TESTING || c.phase == CLOSED))
  }

  /** An Allow that hands out the HALF_OPEN trial slot. */
  predicate GrantsTrial(c: Circuit, e: Event) {
    e.call == Allow && Advance(c, e.at).phase == HALF_OPEN
  }

  predicate Closes(c: Circuit, e: Event) {
    e.call == Success && c.phase == TESTING
  }

  ghost predicate NoneOpens(c: Circuit, es: seq<Event>, lo: nat, hi: nat)
    requires hi <= |es|
  {
    forall k :: lo <= k < hi ==> !Opens(At(c, es, k), es[k])
  }

  /**
   * What the breaker's phase at j says about the events before it: the latest opening o, and past OPEN, an
   * event g at least a cooldown later; past HALF_OPEN, g handed out the trial; back at CLOSED, a success r
   * came after it.
   */
  ghost predicate Trail(c: Circuit, es: seq<Event>, j: nat, o: nat, g: nat, r: nat)
    requires j <= |es|
  {
    var s := At(c, es, j);
    && o < j && Opens(At(c, es, o), es[o]) && NoneOpens(c, es, o + 1, j)
    && s.openedAt == es[o].at && s.cooldown == c.cooldown
    && (s.phase != OPEN ==> o < g < j && es[g].at - es[o].at >= c.cooldown)
    && (s.phase == TESTING || s.phase == CLOSED ==> GrantsTrial(At(c, es, g), es[g]))
    && (s.phase == CLOSED ==> g < r < j && Closes(At(c, es, r), es[r]))
  }

  lemma TrailStep(c: Circuit, es: seq<Event>, j: nat, o: nat, g: nat, r: nat) returns (g': nat, r': nat)
    requires Sorted(es) && j < |es| && Trail(c, es, j, o, g, r) && !Opens(At(c, es, j), es[j])
    ensures Trail(c, es, j + 1, o, g', r')
  {
    var before, after := At(c, es, j), At(c, es, j + 1);
    assert after == Apply(before, es[j]);
    g', r' := g, r;
    if before.phase == OPEN && after.phase != OPEN {
      g' := j;
    } else if before.phase == HALF_OPEN && after.phase == TESTING {
      assert es[g].at <= es[j].at;
      g' := j;
    } else if before.phase == TESTING && after.phase == CLOSED {
      r' := j;
    }
  }

  lemma {:induction false} FindTrail(c: Circuit, es: seq<Event>, i: nat, j: nat) returns (o: nat, g: nat, r: nat)
    requires Sorted(es) && i < j <= |es| && es[i].call == Trip
    ensures i <= o && Trail(c, es, j, o, g, r)
    decreases j
  {
    if Opens(At(c, es, j - 1), es[j - 1]) {
      CooldownFixed(c, es, j);
      o, g, r := j - 1, 0, 0;
    } else {
      o, g, r := FindTrail(c, es, i, j - 1);
      g, r := TrailStep(c, es, j - 1, o, g, r);
    }
  }

  lemma {:induction false} CooldownFixed(c: Circuit, es: seq<Event>, k: nat)
    requires k <= |es|
    ensures At(c, es, k).cooldown == c.cooldown
  {
    if k > 0 {
      CooldownFixed(c, es, k - 1);
    }
  }

  /**
   * Recovery is earned. Once tripped, a breaker is CLOSED again only after its latest opening, then at least a
   * cooldown, then one granted trial, then a reported success, with no opening since.
   */
  lemma ClosedOnlyAfterTrial(c: Circuit, es: seq<Event>, i: nat, j: nat)
    requires Sorted(es) && i < j <= |es| && es[i].call == Trip && At(c, es, j).phase == CLOSED
    ensures exists o, g, r :: i <= o < g < r < j
              && Opens(At(c, es, o), es[o]) && NoneOpens(c, es, o + 1, j)
              && GrantsTrial(At(c, es, g), es[g]) && es[g].at - es[o].at >= c.cooldown
              && Closes(At(c, es, r), es[r])
  {
    var o, g, r := FindTrail(c, es, i, j);
    assert Opens(At(c, es, o), es[o]) && GrantsTrial(At(c, es, g), es[g]) && Closes(At(c, es, r), es[r]);
  }

  /** Quarantine. Until a cooldown has passed since it opened, no calls whatever take the breaker out of OPEN. */
  lemma {:induction false} StaysOpen(c: Circuit, es: seq<Event>, k: nat)
    requires k <= |es| && c.phase == OPEN
    requires forall i :: 0 <= i < |es| ==> c.openedAt <= es[i].at < c.openedAt + c.cooldown
    ensures At(c, es, k).phase == OPEN && At(c, es, k).cooldown == c.cooldown
    ensures At(c, es, k).openedAt >= c.openedAt
  {
    if k > 0 {
      StaysOpen(c, es, k - 1);
    }
  }

  /** So every Allow in that time is refused. */
  lemma QuarantineRefuses(c: Circuit, es: seq<Event>, k: nat)
    requires k < |es| && c.phase == OPEN
    requires forall i :: 0 <= i < |es| ==> c.openedAt <= es[i].at < c.openedAt + c.cooldown
    ensures !Allows(At(c, es, k), es[k].at)
  {
    StaysOpen(c, es, k);
  }

  /** Between two granted trials the first one, or someone, reported, or the breaker was tripped. */
  lemma {:induction false} TrialsAreSeparated(c: Circuit, es: seq<Event>, i: nat, j: nat)
    requires i < j < |es| && GrantsTrial(At(c, es, i), es[i])
    requires forall k :: i < k < j ==> es[k].call != Trip && es[k].call != Success && es[k].call != Failure
    ensures At(c, es, j).phase == TESTING && !GrantsTrial(At(c, es, j), es[j])
    decreases j
  {
    if j > i + 1 {
      TrialsAreSeparated(c, es, i, j - 1);
    }
  }

  // ---------- recovery is possible ----------

  /** An Allow, or with `any` any event, that comes a cooldown or more after c opened. */
  predicate Late(c: Circuit, e: Event, any: bool) {
    (any || e.call == Allow) && e.at - c.openedAt >= c.cooldown
  }

  predicate SomeLate(c: Circuit, es: seq<Event>, k: nat, any: bool)
    requires k <= |es|
  {
    exists i :: 0 <= i < k && Late(c, es[i], any)
  }

  /** Only asked and looked at since it opened: the first late Allow took the trial. */
  lemma {:induction false} WaitingPhase(c: Circuit, es: seq<Event>, k: nat)
    requires k <= |es| && c.phase == OPEN && Sorted(es) && forall i :: 0 <= i < |es| ==> es[i].call == Allow || es[i].call == Look
    ensures var s := At(c, es, k);
            && s.openedAt == c.openedAt && s.cooldown == c.cooldown
            && (SomeLate(c, es, k, false) ==> s.phase == TESTING)
            && (!SomeLate(c, es, k, false) ==> s.phase == (if SomeLate(c, es, k, true) then HALF_OPEN else OPEN))
  {
    if k > 0 {
      WaitingPhase(c, es, k - 1);
      assert SomeLate(c, es, k, false) <==> SomeLate(c, es, k - 1, false) || Late(c, es[k - 1], false);
      assert SomeLate(c, es, k, true) <==> SomeLate(c, es, k - 1, true) || Late(c, es[k - 1], true);
      if SomeLate(c, es, k - 1, true) {
        var i :| 0 <= i < k - 1 && Late(c, es[i], true);
        assert es[i].at <= es[k - 1].at;
      }
    }
  }

  /** An open breaker that is only asked and looked at lets exactly one request through: the first a full cooldown after it opened. */
  lemma FirstLateAllowIsGranted(c: Circuit, es: seq<Event>, k: nat)
    requires k < |es| && c.phase == OPEN && Sorted(es) && forall i :: 0 <= i < |es| ==> es[i].call == Allow || es[i].call == Look
    ensures Allows(At(c, es, k), es[k].at) <==> es[k].at - c.openedAt >= c.cooldown && !SomeLate(c, es, k, false)
  {
    WaitingPhase(c, es, k);
    if SomeLate(c, es, k, true) {
      var i :| 0 <= i < k && Late(c, es[i], true);
      assert es[i].at <= es[k].at;
    }
  }
}

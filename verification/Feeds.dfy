/**
 * The way back from charges to decisions: every tenant's velocity tracker stands for exactly the costs its requests were
 * charged, which are the COST_RECONCILED amounts in the log, both for requests one after another and interleaved.
 */
module Feeds {
  import opened Books
  import opened Decisions
  import opened Ledger
  import opened Pipeline
  import opened PipelineRuns
  import opened Pricing
  import opened Replay
  import opened Scoring
  import opened SpendHistory
  import opened Stories
  import opened Totals
  import opened Trackers
  import Windows

  function Costs(h: seq<Windows.Sample>): seq<int> {
    if h == [] then [] else Costs(h[..|h| - 1]) + [h[|h| - 1].cost]
  }

  /** The amounts a log says were paid. */
  function Paid(log: seq<Event>): seq<int> {
    if log == [] then []
    else Paid(log[..|log| - 1]) + if log[|log| - 1].kind == COST_RECONCILED then [log[|log| - 1].amount] else []
  }

  lemma PaidOneMore(log: seq<Event>, e: Event, t: string)
    ensures Paid(ForTenant(log + [e], t))
         == Paid(ForTenant(log, t)) + if e.tenant == t && e.kind == COST_RECONCILED then [e.amount] else []
  {
    var before := ForTenant(log, t);
    assert (log + [e])[..|log|] == log;
    assert (before + [e])[..|before|] == before;
    assert before + [] == before;
  }

  lemma CostsOneMore(h: seq<Windows.Sample>, x: Windows.Sample)
    ensures Costs(h + [x]) == Costs(h) + [x.cost]
  {
    assert (h + [x])[..|h|] == h;
  }

  // ---------- one request after another ----------

  /** What the completed requests of tenant t were charged, at the times their costs were recorded. */
  function Charges(p: Policy, h: House, jobs: seq<Job>, t: string): seq<Windows.Sample>
    requires PolicyOk(p)
  {
    if jobs == [] then []
    else
      var j, init := jobs[|jobs| - 1], jobs[..|jobs| - 1];
      var r := Handled(p, HandledAll(p, h, init), j.call, j.now, j.stamp, j.provided, j.later).result;
      Charges(p, h, init, t) + ChargeOf(j, r, t)
  }

  /** Tenant t's requests come under a non-decreasing clock, not past `now`. */
  ghost predicate JobsInTime(jobs: seq<Job>, t: string, now: real) {
    jobs == [] ||
    (var j, init := jobs[|jobs| - 1], jobs[..|jobs| - 1];
     if j.call.tenant == t then j.now <= j.later <= now && JobsInTime(init, t, j.now) else JobsInTime(init, t, now))
  }

  /** Tenant t's tracker in this house. */
  ghost predicate Holds(p: Policy, h: House, t: string, spend: seq<Windows.Sample>, asOf: real) {
    SpendHistory.Follows(p, TrackerOf(p, h.engine, t), spend, asOf)
  }

  lemma SettlingFeeds(p: Policy, h: House, call: Call, rate: Rate, d: Decision, used: Units, later: real, spend: seq<Windows.Sample>)
    requires Holds(p, h, call.tenant, spend, later)
    ensures var k := Settling(p, h, call, rate, d, used, later);
            Holds(p, k.house, call.tenant, spend + if k.result.Complete? then [Windows.Sample(later, k.result.actual)] else [], later)
  {
    var tr := TrackerOf(p, h.engine, call.tenant);
    FollowsOn(p, tr, spend, later, Spend(later, Cost(rate, used)));
    assert spend + [] == spend;
    assert TrackerOf(p, Used(p, h.engine, call.tenant, later, Cost(rate, used)), call.tenant) == Touched(tr, Spend(later, Cost(rate, used)));
  }

  lemma ExecutingFeeds(p: Policy, h: House, call: Call, rate: Rate, d: Decision, provided: Provided, later: real, spend: seq<Windows.Sample>)
    requires Holds(p, h, call.tenant, spend, later)
    ensures var k := Executing(p, h, call, rate, d, provided, later);
            Holds(p, k.house, call.tenant, spend + if k.result.Complete? then [Windows.Sample(later, k.result.actual)] else [], later)
  {
    if provided.Returns? {
      var m := Executed(call, rate, d.reservation, provided);
      SettlingFeeds(p, Logged(h.(book := BookAfterExecution(h.book, d.reservation, provided)), m.events), call, rate, d, provided.used, later, spend);
    } else {
      assert spend + [] == spend;
    }
  }

  lemma EvaluateHolds(p: Policy, e: Engine, b: Book, req: Request, now: real, stamp: string, spend: seq<Windows.Sample>)
    requires PolicyOk(p) && SpendHistory.Follows(p, TrackerOf(p, e, req.tenant), spend, now)
    ensures SpendHistory.Follows(p, TrackerOf(p, Evaluate(p, e, b, req, now, stamp).engine, req.tenant), spend, now)
  {
    EvaluateReads(p, e, b, req, now, stamp);
    FollowsOn(p, TrackerOf(p, e, req.tenant), spend, now, ReadAcceleration(now));
  }

  lemma RequestFeeds(p: Policy, h: House, call: Call, now: real, stamp: string, provided: Provided, later: real, spend: seq<Windows.Sample>)
    requires PolicyOk(p) && now <= later && Holds(p, h, call.tenant, spend, now)
    ensures var k := Handled(p, h, call, now, stamp, provided, later);
            Holds(p, k.house, call.tenant, spend + if k.result.Complete? then [Windows.Sample(later, k.result.actual)] else [], later)
  {
    assert spend + [] == spend;
    var m := LookedUp(h.rates, call, now);
    if m.stage.Priced? {
      var rate := m.stage.rate;
      var o := Evaluate(p, h.engine, h.book, RequestOf(call, rate), now, stamp);
      EvaluateHolds(p, h.engine, h.book, RequestOf(call, rate), now, stamp, spend);
      FollowsLater(p, TrackerOf(p, o.engine, call.tenant), spend, now, later);
      if o.decision.action == ALLOW {
        ExecutingFeeds(p, Judged(Logged(h, m.events), call, rate, o), call, rate, o.decision, provided, later, spend);
      }
    } else {
      FollowsLater(p, TrackerOf(p, h.engine, call.tenant), spend, now, later);
    }
  }

  lemma OthersUnfed(p: Policy, h: House, call: Call, now: real, stamp: string, provided: Provided, later: real, t: string)
    requires PolicyOk(p) && call.tenant != t
    ensures TrackerOf(p, Handled(p, h, call, now, stamp, provided, later).house.engine, t) == TrackerOf(p, h.engine, t)
  {
    var m := LookedUp(h.rates, call, now);
    if m.stage.Priced? {
      TenantsAreIsolated(p, h.engine, h.book, RequestOf(call, m.stage.rate), now, stamp, t);
    }
  }

  lemma NewTenantHolds(p: Policy, h: House, t: string, now: real)
    requires t !in h.engine.tenants
    ensures Holds(p, h, t, [], now)
  {
  }

  /** After any sequence of requests the tracker stands for exactly the charges. */
  lemma {:induction false} ChargesFeedTracker(p: Policy, h: House, jobs: seq<Job>, t: string, now: real)
    requires PolicyOk(p) && t !in h.engine.tenants && JobsInTime(jobs, t, now)
    ensures Holds(p, HandledAll(p, h, jobs), t, Charges(p, h, jobs, t), now)
    decreases |jobs|
  {
    if jobs == [] {
      NewTenantHolds(p, h, t, now);
    } else {
      var j, init := jobs[|jobs| - 1], jobs[..|jobs| - 1];
      var h1, c := HandledAll(p, h, init), Charges(p, h, init, t);
      if j.call.tenant == t {
        ChargesFeedTracker(p, h, init, t, j.now);
        RequestFeeds(p, h1, j.call, j.now, j.stamp, j.provided, j.later, c);
        FollowsLater(p, TrackerOf(p, HandledAll(p, h, jobs).engine, t), Charges(p, h, jobs, t), j.later, now);
      } else {
        ChargesFeedTracker(p, h, init, t, now);
        OthersUnfed(p, h1, j.call, j.now, j.stamp, j.provided, j.later, t);
        assert c + [] == c;
      }
    }
  }

  /** Of a request's story only a completed one's last event is a payment. */
  lemma StoryPays(log: seq<Event>, call: Call, cost: int, provided: Provided, r: Result, t: string)
    ensures Paid(ForTenant(log + Story(call, cost, provided, r), t))
         == Paid(ForTenant(log, t)) + if call.tenant == t && r.Complete? then [r.actual] else []
  {
    var story := Story(call, cost, provided, r);
    StoryPayments(call, cost, provided, r);
    if r.Complete? {
      NoPayments(log, story[..5], t);
      assert log + story == (log + story[..5]) + [story[5]];
      PaidOneMore(log + story[..5], story[5], t);
    } else {
      NoPayments(log, story, t);
      assert Paid(ForTenant(log, t)) + [] == Paid(ForTenant(log, t));
    }
  }

  lemma StoryPayments(call: Call, cost: int, provided: Provided, r: Result)
    ensures var story := Story(call, cost, provided, r);
            if r.Complete? then
              && |story| == 6 && (forall k :: 0 <= k < 5 ==> story[k].kind != COST_RECONCILED)
              && story[5].kind == COST_RECONCILED && story[5].tenant == call.tenant && story[5].amount == r.actual
            else forall k :: 0 <= k < |story| ==> story[k].kind != COST_RECONCILED
  {
  }

  lemma {:induction false} NoPayments(log: seq<Event>, more: seq<Event>, t: string)
    requires forall k :: 0 <= k < |more| ==> more[k].kind != COST_RECONCILED
    ensures Paid(ForTenant(log + more, t)) == Paid(ForTenant(log, t))
    decreases |more|
  {
    if more == [] {
      assert log + more == log;
    } else {
      var n := |more| - 1;
      NoPayments(log, more[..n], t);
      assert log + more == (log + more[..n]) + [more[n]];
      PaidOneMore(log + more[..n], more[n], t);
    }
  }

  lemma RequestPays(p: Policy, h: House, j: Job, t: string)
    requires PolicyOk(p)
    ensures var k := Handled(p, h, j.call, j.now, j.stamp, j.provided, j.later);
            Paid(ForTenant(k.house.log, t))
              == Paid(ForTenant(h.log, t)) + if j.call.tenant == t && k.result.Complete? then [k.result.actual] else []
  {
    var k := Handled(p, h, j.call, j.now, j.stamp, j.provided, j.later);
    RequestTellsStory(p, h, j.call, j.now, j.stamp, j.provided, j.later);
    var found := RateIn(ListIn(h.rates, Key(j.call.provider, j.call.model)), j.now);
    StoryPays(h.log, j.call, if found.Found? then Cost(found.rate, j.call.units) else 0, j.provided, k.result, t);
  }

  /** Request j's charge of tenant t, if any. */
  function ChargeOf(j: Job, r: Result, t: string): seq<Windows.Sample> {
    if j.call.tenant == t && r.Complete? then [Windows.Sample(j.later, r.actual)] else []
  }

  lemma CostsWithCharge(h: seq<Windows.Sample>, j: Job, r: Result, t: string, before: seq<int>)
    ensures before + Costs(h) + (if j.call.tenant == t && r.Complete? then [r.actual] else []) == before + Costs(h + ChargeOf(j, r, t))
  {
    if j.call.tenant == t && r.Complete? {
      CostsOneMore(h, Windows.Sample(j.later, r.actual));
    } else {
      assert h + [] == h;
    }
  }

  /** And those charges are, in order, the payments in the tenant's log. */
  lemma {:induction false} ChargesAreLogged(p: Policy, h: House, jobs: seq<Job>, t: string)
    requires PolicyOk(p)
    ensures Paid(ForTenant(HandledAll(p, h, jobs).log, t)) == Paid(ForTenant(h.log, t)) + Costs(Charges(p, h, jobs, t))
    decreases |jobs|
  {
    if jobs != [] {
      var j, init := jobs[|jobs| - 1], jobs[..|jobs| - 1];
      ChargesAreLogged(p, h, init, t);
      ChargeLogged(p, HandledAll(p, h, init), j, t, Paid(ForTenant(h.log, t)), Charges(p, h, init, t));
    }
  }

  lemma ChargeLogged(p: Policy, h: House, j: Job, t: string, before: seq<int>, c: seq<Windows.Sample>)
    requires PolicyOk(p) && Paid(ForTenant(h.log, t)) == before + Costs(c)
    ensures var k := Handled(p, h, j.call, j.now, j.stamp, j.provided, j.later);
            Paid(ForTenant(k.house.log, t)) == before + Costs(c + ChargeOf(j, k.result, t))
  {
    RequestPays(p, h, j, t);
    CostsWithCharge(c, j, Handled(p, h, j.call, j.now, j.stamp, j.provided, j.later).result, t, before);
  }

  /** So the velocities Evaluate scores after these requests are those of the payments the log shows. */
  lemma ScoredSpeedsArePaid(p: Policy, h: House, jobs: seq<Job>, t: string, now: real)
    requires PolicyOk(p) && Start(h) && t !in h.engine.tenants && JobsInTime(jobs, t, now)
    ensures var h', paid := HandledAll(p, h, jobs), Charges(p, h, jobs, t);
            && Costs(paid) == Paid(ForTenant(h'.log, t))
            && Speed(TrackerOf(p, h'.engine, t).short, now) == RecordedSpeed(paid, now, p.short)
            && Acceleration(TrackerOf(p, h'.engine, t), now) == RecordedSpeed(paid, now, p.short) - RecordedSpeed(paid, now, p.medium)
  {
    ChargesFeedTracker(p, h, jobs, t, now);
    ChargesArePaid(p, h, jobs, t);
    HeldSpeeds(p, HandledAll(p, h, jobs), t, Charges(p, h, jobs, t), now);
  }

  lemma ChargesArePaid(p: Policy, h: House, jobs: seq<Job>, t: string)
    requires PolicyOk(p) && h.log == []
    ensures Costs(Charges(p, h, jobs, t)) == Paid(ForTenant(HandledAll(p, h, jobs).log, t))
  {
    ChargesAreLogged(p, h, jobs, t);
    NothingPaid(h.log, t, Paid(ForTenant(HandledAll(p, h, jobs).log, t)), Costs(Charges(p, h, jobs, t)));
  }

  lemma NothingPaid(log: seq<Event>, t: string, all: seq<int>, since: seq<int>)
    requires log == [] && all == Paid(ForTenant(log, t)) + since
    ensures since == all
  {
    assert Paid(ForTenant(log, t)) == [];
  }

  lemma HeldSpeeds(p: Policy, h: House, t: string, spend: seq<Windows.Sample>, now: real)
    requires Holds(p, h, t, spend, now)
    ensures Speed(TrackerOf(p, h.engine, t).short, now) == RecordedSpeed(spend, now, p.short)
    ensures Acceleration(TrackerOf(p, h.engine, t), now) == RecordedSpeed(spend, now, p.short) - RecordedSpeed(spend, now, p.medium)
  {
    SpeedsAreExact(TrackerOf(p, h.engine, t), spend, now);
  }

  // ---------- requests interleaved ----------

  /** Step s, at w, records a cost for tenant t. */
  ghost predicate Records(w: World, s: Step, t: string) {
    s.Record? && Ready(w, s.i) && w.flights[s.i].stage.Reconciled? && w.flights[s.i].call.tenant == t
  }

  /** Step s, at w, evaluates a request of tenant t. */
  ghost predicate Evaluates(w: World, s: Step, t: string) {
    s.Judge? && Ready(w, s.i) && w.flights[s.i].stage.Priced? && w.flights[s.i].call.tenant == t
  }

  ghost function RecordedBy(w: World, s: Step, t: string): seq<Windows.Sample> {
    if Records(w, s, t) then [Windows.Sample(s.now, Cost(w.flights[s.i].stage.rate, w.flights[s.i].stage.used))] else []
  }

  /** Everything recorded for tenant t in a run. */
  ghost function Feed(p: Policy, w: World, steps: seq<Step>, t: string): seq<Windows.Sample>
    requires PolicyOk(p)
  {
    if steps == [] then []
    else
      var init := steps[..|steps| - 1];
      Feed(p, w, init, t) + RecordedBy(Run(p, w, init), steps[|steps| - 1], t)
  }

  ghost predicate StepsInTime(p: Policy, w: World, steps: seq<Step>, t: string, now: real)
    requires PolicyOk(p)
  {
    steps == [] ||
    (var s, init := steps[|steps| - 1], steps[..|steps| - 1];
     if Records(Run(p, w, init), s, t) || Evaluates(Run(p, w, init), s, t) then s.now <= now && StepsInTime(p, w, init, t, s.now)
     else StepsInTime(p, w, init, t, now))
  }

  lemma StepFeeds(p: Policy, w: World, s: Step, t: string, spend: seq<Windows.Sample>)
    requires PolicyOk(p) && (Records(w, s, t) || Evaluates(w, s, t)) && Holds(p, w.house, t, spend, s.now)
    ensures Holds(p, Apply(p, w, s).house, t, spend + RecordedBy(w, s, t), s.now)
  {
    var f := w.flights[s.i];
    assert spend + [] == spend;
    if s.Judge? {
      EvaluateHolds(p, w.house.engine, w.house.book, RequestOf(f.call, f.stage.rate), s.now, s.stamp, spend);
    } else {
      var tr, u := TrackerOf(p, w.house.engine, t), Spend(s.now, Cost(f.stage.rate, f.stage.used));
      FollowsOn(p, tr, spend, s.now, u);
      assert TrackerOf(p, Apply(p, w, s).house.engine, t) == Touched(tr, u);
    }
  }

  lemma OthersFeedNothing(p: Policy, w: World, s: Step, t: string)
    requires PolicyOk(p) && !Records(w, s, t) && !Evaluates(w, s, t)
    ensures TrackerOf(p, Apply(p, w, s).house.engine, t) == TrackerOf(p, w.house.engine, t)
  {
    if s.Judge? && Ready(w, s.i) && w.flights[s.i].stage.Priced? {
      var f := w.flights[s.i];
      TenantsAreIsolated(p, w.house.engine, w.house.book, RequestOf(f.call, f.stage.rate), s.now, s.stamp, t);
    }
  }

  /** Over every interleaving the tracker stands for exactly what was recorded for its tenant. */
  lemma {:induction false} RunFeedsTracker(p: Policy, w: World, steps: seq<Step>, t: string, now: real)
    requires PolicyOk(p) && t !in w.house.engine.tenants && StepsInTime(p, w, steps, t, now)
    ensures Holds(p, Run(p, w, steps).house, t, Feed(p, w, steps, t), now)
    decreases |steps|
  {
    if steps == [] {
      NewTenantHolds(p, w.house, t, now);
    } else {
      var s, init := steps[|steps| - 1], steps[..|steps| - 1];
      var w1, f := Run(p, w, init), Feed(p, w, init, t);
      if Records(w1, s, t) || Evaluates(w1, s, t) {
        RunFeedsTracker(p, w, init, t, s.now);
        StepFeeds(p, w1, s, t, f);
        FollowsLater(p, TrackerOf(p, Run(p, w, steps).house.engine, t), Feed(p, w, steps, t), s.now, now);
      } else {
        RunFeedsTracker(p, w, init, t, now);
        OthersFeedNothing(p, w1, s, t);
        assert f + [] == f;
      }
    }
  }

  /** A request whose payment is logged and whose cost `a` is still to be recorded. */
  function Awaits(t: string, a: int): Flight -> int {
    (f: Flight) =>
      if f.call.tenant == t && f.stage.Reconciled? && !Owes(f, COST_RECONCILED) && Cost(f.stage.rate, f.stage.used) == a then 1 else 0
  }

  /** Each amount is paid in the log as often as it was recorded or is about to be. */
  ghost predicate FedUpTo(w: World, t: string, feed: seq<Windows.Sample>) {
    forall a :: multiset(Paid(ForTenant(w.house.log, t)))[a] == multiset(Costs(feed))[a] + Total(w.flights, Awaits(t, a))
  }

  lemma MoveAwaits(w: World, w': World, i: nat, t: string, feed: seq<Windows.Sample>)
    requires FedUpTo(w, t, feed) && w'.house.log == w.house.log && i in w'.flights && w'.flights == w.flights[i := w'.flights[i]]
    requires forall a :: WeightAt(w.flights, i, Awaits(t, a)) == Awaits(t, a)(w'.flights[i])
    ensures FedUpTo(w', t, feed)
  {
    forall a ensures multiset(Paid(ForTenant(w'.house.log, t)))[a] == multiset(Costs(feed))[a] + Total(w'.flights, Awaits(t, a)) {
      Put(w.flights, i, w'.flights[i], Awaits(t, a));
      assert WeightAt(w.flights, i, Awaits(t, a)) == Awaits(t, a)(w'.flights[i]);
    }
  }

  lemma RecordAwaits(w: World, w': World, i: nat, t: string, feed: seq<Windows.Sample>, now: real)
    requires FedUpTo(w, t, feed) && w'.house.log == w.house.log && i in w.flights && i in w'.flights && w'.flights == w.flights[i := w'.flights[i]]
    requires w.flights[i].stage.Reconciled? && w.flights[i].pending == [] && w.flights[i].call.tenant == t && w'.flights[i].stage.Recorded?
    ensures FedUpTo(w', t, feed + [Windows.Sample(now, Cost(w.flights[i].stage.rate, w.flights[i].stage.used))])
  {
    var x := Windows.Sample(now, Cost(w.flights[i].stage.rate, w.flights[i].stage.used));
    CostsOneMore(feed, x);
    forall a ensures multiset(Paid(ForTenant(w'.house.log, t)))[a] == multiset(Costs(feed + [x]))[a] + Total(w'.flights, Awaits(t, a)) {
      Put(w.flights, i, w'.flights[i], Awaits(t, a));
    }
  }

  /** Appending a payment makes its amount awaited; appending anything else changes nothing. */
  lemma AppendAwaits(w: World, i: nat, t: string, feed: seq<Windows.Sample>)
    requires FedUpTo(w, t, feed) && i in w.flights && w.flights[i].pending != []
    requires var f := w.flights[i];
             && f.pending[0].tenant == f.call.tenant && (|f.pending| > 1 ==> Plain(f.pending[1]))
             && (Owes(f, COST_RECONCILED) ==> f.stage.Reconciled? && f.pending[0].amount == Cost(f.stage.rate, f.stage.used))
    ensures FedUpTo(Appended(w, i), t, feed)
  {
    var f, w' := w.flights[i], Appended(w, i);
    var before := Paid(ForTenant(w.house.log, t));
    PaidOneMore(w.house.log, f.pending[0], t);
    forall a ensures multiset(Paid(ForTenant(w'.house.log, t)))[a] == multiset(Costs(feed))[a] + Total(w'.flights, Awaits(t, a)) {
      Put(w.flights, i, w'.flights[i], Awaits(t, a));
      AppendWeight(f, t, a);
      PaidMultiset(before, f.pending[0], t, a);
    }
  }

  lemma PaidMultiset(before: seq<int>, e: Event, t: string, a: int)
    ensures multiset(before + if e.tenant == t && e.kind == COST_RECONCILED then [e.amount] else [])[a]
         == multiset(before)[a] + if e.tenant == t && e.kind == COST_RECONCILED && e.amount == a then 1 else 0
  {
    assert before + [] == before;
  }

  lemma AppendWeight(f: Flight, t: string, a: int)
    requires f.pending != [] && f.pending[0].tenant == f.call.tenant && (|f.pending| > 1 ==> Plain(f.pending[1]))
    requires Owes(f, COST_RECONCILED) ==> f.stage.Reconciled? && f.pending[0].amount == Cost(f.stage.rate, f.stage.used)
    ensures var e := f.pending[0];
            Awaits(t, a)(f.(pending := f.pending[1..]))
              == Awaits(t, a)(f) + if e.tenant == t && e.kind == COST_RECONCILED && e.amount == a then 1 else 0
  {
  }

  lemma AppendIsOwn(w: World, i: nat)
    requires Inv(w) && i in w.flights && w.flights[i].pending != []
    ensures var f := w.flights[i];
            && f.pending[0].tenant == f.call.tenant && (|f.pending| > 1 ==> Plain(f.pending[1]))
            && (Owes(f, COST_RECONCILED) ==> f.stage.Reconciled? && f.pending[0].amount == Cost(f.stage.rate, f.stage.used))
  {
    assert FlightAt(w, i);
  }

  /** The step moves one flight that neither leaves nor enters the wait. */
  ghost predicate Passes(w: World, s: Step) {
    && (s.LookUp? || s.Judge? || s.Execute? || s.Conclude?) && Ready(w, s.i)
    && match s
       case LookUp(i, _) => w.flights[i].stage.Arrived?
       case Judge(i, _, _) => w.flights[i].stage.Priced?
       case Execute(i, _) => w.flights[i].stage.Running? && w.flights[i].held.Holds?
       case _ => w.flights[s.i].stage.Returned? && w.flights[s.i].held.Holds?
  }

  lemma PassingAwaits(p: Policy, w: World, s: Step, t: string, feed: seq<Windows.Sample>)
    requires PolicyOk(p) && FedUpTo(w, t, feed) && Passes(w, s)
    ensures FedUpTo(Apply(p, w, s), t, feed)
  {
    MoveAwaits(w, Apply(p, w, s), s.i, t, feed);
  }

  lemma StepAwaits(p: Policy, w: World, s: Step, t: string, feed: seq<Windows.Sample>)
    requires PolicyOk(p) && Inv(w) && FedUpTo(w, t, feed)
    ensures FedUpTo(Apply(p, w, s), t, feed + RecordedBy(w, s, t))
  {
    assert feed + [] == feed;
    if s.Append? {
      if s.i in w.flights && w.flights[s.i].pending != [] {
        AppendIsOwn(w, s.i);
        AppendAwaits(w, s.i, t, feed);
      }
    } else if Records(w, s, t) {
      RecordAwaits(w, Apply(p, w, s), s.i, t, feed, s.now);
    } else if Passes(w, s) {
      PassingAwaits(p, w, s, t, feed);
    } else {
      QuietAwaits(p, w, s, t, feed);
    }
  }

  lemma QuietAwaits(p: Policy, w: World, s: Step, t: string, feed: seq<Windows.Sample>)
    requires PolicyOk(p) && FedUpTo(w, t, feed) && !s.Append? && !Records(w, s, t) && !Passes(w, s)
    ensures FedUpTo(Apply(p, w, s), t, feed)
  {
    if s.Arrive? && s.i !in w.flights {
      MoveAwaits(w, Apply(p, w, s), s.i, t, feed);
    } else if s.Record? && Ready(w, s.i) && w.flights[s.i].stage.Reconciled? {
      MoveAwaits(w, Apply(p, w, s), s.i, t, feed);
    }
  }

  lemma {:induction false} RunAwaits(p: Policy, h: House, steps: seq<Step>, t: string)
    requires PolicyOk(p) && Start(h) && SaneSteps(steps) && IdsLast(p, World(h, map[]), steps)
    ensures FedUpTo(Run(p, World(h, map[]), steps), t, Feed(p, World(h, map[]), steps, t))
    decreases |steps|
  {
    var w := World(h, map[]);
    if steps == [] {
      assert forall a :: Total(w.flights, Awaits(t, a)) == 0;
    } else {
      var init := steps[..|steps| - 1];
      IdsLastedBefore(p, w, steps);
      RunAwaits(p, h, init, t);
      StartInv(h);
      RunKeepsInv(p, w, init);
      StepAwaits(p, Run(p, w, init), steps[|steps| - 1], t, Feed(p, w, init, t));
    }
  }

  /** No request has a cost left to record. */
  ghost predicate AllRecorded(w: World) {
    forall i :: i in w.flights ==> !w.flights[i].stage.Reconciled?
  }

  /**
   * Over every interleaving, once all is recorded: what tenant t's tracker stands for is, amount for amount, what the
   * tenant's log says was paid, and the velocities Evaluate scores are those of these payments.
   */
  lemma RunSpeedsArePaid(p: Policy, h: House, steps: seq<Step>, t: string, now: real)
    requires PolicyOk(p) && Start(h) && SaneSteps(steps) && IdsLast(p, World(h, map[]), steps)
    requires t !in h.engine.tenants && StepsInTime(p, World(h, map[]), steps, t, now)
    requires AllRecorded(Run(p, World(h, map[]), steps))
    ensures var w, feed := Run(p, World(h, map[]), steps), Feed(p, World(h, map[]), steps, t);
            && multiset(Costs(feed)) == multiset(Paid(ForTenant(w.house.log, t)))
            && Holds(p, w.house, t, feed, now)
            && Speed(TrackerOf(p, w.house.engine, t).short, now) == RecordedSpeed(feed, now, p.short)
            && Acceleration(TrackerOf(p, w.house.engine, t), now) == RecordedSpeed(feed, now, p.short) - RecordedSpeed(feed, now, p.medium)
  {
    var w, feed := Run(p, World(h, map[]), steps), Feed(p, World(h, map[]), steps, t);
    RunFeedsTracker(p, World(h, map[]), steps, t, now);
    HeldSpeeds(p, w.house, t, feed, now);
    RunAwaits(p, h, steps, t);
    forall a ensures multiset(Paid(ForTenant(w.house.log, t)))[a] == multiset(Costs(feed))[a] {
      Zero(w.flights, Awaits(t, a));
    }
  }
}

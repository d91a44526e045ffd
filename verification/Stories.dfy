/**
 * What one request leaves in the log, event by event, and whose prices it is charged. The events are written out here
 * kind by kind, not taken from the pipeline.
 */
module Stories {
  import opened Books
  import opened Decisions
  import opened Ledger
  import opened Pipeline
  import opened PipelineRuns
  import opened Pricing
  import opened Scoring

  /** An event about the request alone. */
  function Plainly(call: Call, kind: Kind, amount: int): Event {
    Event(kind, call.tenant, call.request, "", amount)
  }

  /** What every allowed request logs first. */
  function Opening(call: Call, cost: int, id: string): seq<Event> {
    [Plainly(call, REQUEST_ESTIMATED, cost),
     Event(RESERVATION_CREATED, call.tenant, call.request, id, cost),
     Plainly(call, REQUEST_ALLOWED, cost)]
  }

  /** The whole story of a request with this outcome. */
  function Story(call: Call, cost: int, provided: Provided, r: Result): seq<Event> {
    match r
    case Unpriced => [Plainly(call, REQUEST_FAILED, 0)]
    case Stopped(d) =>
      if d.action == THROTTLE then
        [Plainly(call, REQUEST_ESTIMATED, cost),
         Event(RESERVATION_CREATED, call.tenant, call.request, d.reservation, cost),
         Plainly(call, REQUEST_THROTTLED, 0)]
      else [Plainly(call, REQUEST_ESTIMATED, cost), Plainly(call, REQUEST_BLOCKED, 0)]
    case NotExecuted(d) =>
      Opening(call, cost, d.reservation)
      + [Event(RESERVATION_RELEASED, call.tenant, call.request, d.reservation, 0)]
      + (if provided.Fails? then [Plainly(call, REQUEST_FAILED, 0)] else [])
    case Unreconciled(d, actual, _) =>
      Opening(call, cost, d.reservation)
      + [Plainly(call, REQUEST_EXECUTED, 0), Plainly(call, USAGE_REPORTED, actual), Plainly(call, REQUEST_FAILED, 0)]
    case Complete(d, actual, _) =>
      Opening(call, cost, d.reservation)
      + [Plainly(call, REQUEST_EXECUTED, 0), Plainly(call, USAGE_REPORTED, actual),
         Event(COST_RECONCILED, call.tenant, call.request, d.reservation, actual)]
  }

  lemma SettlingTells(p: Policy, h: House, call: Call, rate: Rate, d: Decision, used: Units, later: real)
    ensures var k := Settling(p, h, call, rate, d, used, later);
            k.house.log == h.log + if k.result.Complete? then [Event(COST_RECONCILED, call.tenant, call.request, d.reservation, k.result.actual)]
                                   else [Plainly(call, REQUEST_FAILED, 0)]
    ensures var r := Settling(p, h, call, rate, d, used, later).result;
            (r.Complete? || r.Unreconciled?) && r.decision == d && r.actual == Cost(rate, used)
  {
  }

  lemma ExecutingTells(p: Policy, h: House, call: Call, rate: Rate, d: Decision, provided: Provided, later: real)
    requires d.action == ALLOW
    ensures var k, cost := Executing(p, h, call, rate, d, provided, later), Cost(rate, call.units);
            Opening(call, cost, d.reservation) + k.house.log[|h.log|..] == Story(call, cost, provided, k.result)
    ensures var k := Executing(p, h, call, rate, d, provided, later);
            |h.log| <= |k.house.log| && k.house.log[..|h.log|] == h.log
  {
    if provided.Returns? {
      var m := Executed(call, rate, d.reservation, provided);
      var h' := Logged(h.(book := BookAfterExecution(h.book, d.reservation, provided)), m.events);
      SettlingTells(p, h', call, rate, d, provided.used, later);
    }
  }

  lemma JudgingTells(p: Policy, h: House, call: Call, rate: Rate, now: real, stamp: string, provided: Provided, later: real)
    requires PolicyOk(p)
    ensures var k, cost := Judging(p, h, call, rate, now, stamp, provided, later), Cost(rate, call.units);
            h.log + Story(call, cost, provided, k.result) == h.log + [Plainly(call, REQUEST_ESTIMATED, cost)] + k.house.log[|h.log|..]
    ensures var k := Judging(p, h, call, rate, now, stamp, provided, later);
            |h.log| <= |k.house.log| && k.house.log[..|h.log|] == h.log
  {
    var o := Evaluate(p, h.engine, h.book, RequestOf(call, rate), now, stamp);
    DecisionAndBooks(p, h.engine, h.book, RequestOf(call, rate), now, stamp);
    Digits.IdIsNotEmpty(stamp, h.book.issued + 1);
    JudgedTells(p, h, call, rate, o, provided, later);
  }

  lemma JudgedTells(p: Policy, h: House, call: Call, rate: Rate, o: Outcome, provided: Provided, later: real)
    requires o.decision.action == THROTTLE ==> o.decision.reservation != ""
    ensures var h', cost := Judged(h, call, rate, o), Cost(rate, call.units);
            var k := if o.decision.action == ALLOW then Executing(p, h', call, rate, o.decision, provided, later)
                     else Handling(h', Stopped(o.decision));
            && h.log + Story(call, cost, provided, k.result) == h.log + [Plainly(call, REQUEST_ESTIMATED, cost)] + k.house.log[|h.log|..]
            && |h.log| <= |k.house.log| && k.house.log[..|h.log|] == h.log
  {
    var h', d, cost := Judged(h, call, rate, o), o.decision, Cost(rate, call.units);
    if d.action == ALLOW {
      var k := Executing(p, h', call, rate, d, provided, later);
      ExecutingTells(p, h', call, rate, d, provided, later);
      var two := [Event(RESERVATION_CREATED, call.tenant, call.request, d.reservation, cost), Plainly(call, REQUEST_ALLOWED, cost)];
      assert h'.log == h.log + two;
      assert k.house.log == h'.log + k.house.log[|h'.log|..];
      assert k.house.log[|h.log|..] == two + k.house.log[|h'.log|..];
      assert Opening(call, cost, d.reservation) == [Plainly(call, REQUEST_ESTIMATED, cost)] + two;
    }
  }

  /** HandleRequest appends exactly the story of its outcome: these events, in this order, with these amounts. */
  lemma RequestTellsStory(p: Policy, h: House, call: Call, now: real, stamp: string, provided: Provided, later: real)
    requires PolicyOk(p)
    ensures var k := Handled(p, h, call, now, stamp, provided, later);
            match RateIn(ListIn(h.rates, Key(call.provider, call.model)), now)
            case NoPricingInEffect => k.result == Unpriced && k.house.log == h.log + Story(call, 0, provided, k.result)
            case Found(rate) => k.house.log == h.log + Story(call, Cost(rate, call.units), provided, k.result)
  {
    var m := LookedUp(h.rates, call, now);
    if m.stage.Priced? {
      var h' := Logged(h, m.events);
      var k := Judging(p, h', call, m.stage.rate, now, stamp, provided, later);
      JudgingTells(p, h', call, m.stage.rate, now, stamp, provided, later);
      var story := Story(call, Cost(m.stage.rate, call.units), provided, k.result);
      assert k.house.log == h'.log + k.house.log[|h'.log|..];
      SameTail(h'.log, story, [Plainly(call, REQUEST_ESTIMATED, Cost(m.stage.rate, call.units))], k.house.log[|h'.log|..]);
      assert h'.log == h.log + [Plainly(call, REQUEST_ESTIMATED, Cost(m.stage.rate, call.units))];
    }
  }

  lemma SameTail(log: seq<Event>, story: seq<Event>, first: seq<Event>, rest: seq<Event>)
    requires log + story == log + first + rest
    ensures story == first + rest
  {
    assert (log + story)[|log|..] == story;
    assert (log + first + rest)[|log|..] == first + rest;
  }

  // ---------- whose prices ----------

  /** Every rate is listed under its own provider and model. */
  ghost predicate Keyed(rates: map<Key, seq<Rate>>) {
    forall k, i :: k in rates && 0 <= i < |rates[k]| ==> rates[k][i].provider == k.provider && rates[k][i].model == k.model
  }

  /** Every request under way is priced with a rate of its own provider and model. */
  ghost predicate OwnPrices(w: World) {
    && Keyed(w.house.rates)
    && forall i :: i in w.flights && HasRate(w.flights[i].stage) ==>
         var f := w.flights[i]; f.stage.rate.provider == f.call.provider && f.stage.rate.model == f.call.model
  }

  lemma {:induction false} FoundIsKeyed(list: seq<Rate>, now: real, provider: string, model: string)
    requires RateIn(list, now).Found? && forall i :: 0 <= i < |list| ==> list[i].provider == provider && list[i].model == model
    ensures RateIn(list, now).rate.provider == provider && RateIn(list, now).rate.model == model
    decreases |list|
  {
    if !ActiveAt(list[0], now) {
      FoundIsKeyed(list[1..], now, provider, model);
    }
  }

  lemma AddedIsKeyed(rates: map<Key, seq<Rate>>, rate: Rate)
    requires Keyed(rates)
    ensures var k := Key(rate.provider, rate.model); Keyed(rates[k := Added(ListIn(rates, k), rate)])
  {
  }

  lemma StepKeepsOwnPrices(p: Policy, w: World, s: Step)
    requires PolicyOk(p) && OwnPrices(w)
    ensures OwnPrices(Apply(p, w, s))
  {
    if s.AddRate? {
      AddedIsKeyed(w.house.rates, s.rate);
    } else if s.LookUp? && Ready(w, s.i) && w.flights[s.i].stage.Arrived? {
      var call := w.flights[s.i].call;
      if LookedUp(w.house.rates, call, s.now).stage.Priced? {
        FoundIsKeyed(ListIn(w.house.rates, Key(call.provider, call.model)), s.now, call.provider, call.model);
      }
    }
  }

  /** Over every run: no request is ever priced with another provider's or another model's rate. */
  lemma {:induction false} OwnPricesOverRuns(p: Policy, w: World, steps: seq<Step>)
    requires PolicyOk(p) && OwnPrices(w)
    ensures OwnPrices(Run(p, w, steps))
    decreases |steps|
  {
    if steps != [] {
      OwnPricesOverRuns(p, w, steps[..|steps| - 1]);
      StepKeepsOwnPrices(p, Run(p, w, steps[..|steps| - 1]), steps[|steps| - 1]);
    }
  }

  // ---------- what operators do meanwhile ----------

  lemma SamePriceTrans(a: Lookup, b: Lookup, c: Lookup)
    requires SamePrice(a, b) && SamePrice(b, c)
    ensures SamePrice(a, c)
  {
  }

  /** The lookup of one provider's model at a time. */
  function PriceAt(h: House, provider: string, model: string, t: real): Lookup {
    RateIn(ListIn(h.rates, Key(provider, model)), t)
  }

  lemma StepKeepsPast(p: Policy, w: World, s: Step, provider: string, model: string, t: real)
    requires PolicyOk(p)
    requires s.AddRate? && s.rate.provider == provider && s.rate.model == model ==> t < s.rate.from
    ensures SamePrice(PriceAt(w.house, provider, model, t), PriceAt(Apply(p, w, s).house, provider, model, t))
  {
    if s.AddRate? && s.rate.provider == provider && s.rate.model == model {
      PastIsNeverRewritten(ListIn(w.house.rates, Key(provider, model)), s.rate, t);
    }
  }

  /** Over every run: what a model cost at a time is never changed by rates that start later, nor by those of other models. */
  lemma {:induction false} PastOverRuns(p: Policy, w: World, steps: seq<Step>, provider: string, model: string, t: real)
    requires PolicyOk(p)
    requires forall k :: 0 <= k < |steps| && steps[k].AddRate? && steps[k].rate.provider == provider && steps[k].rate.model == model ==>
               t < steps[k].rate.from
    ensures SamePrice(PriceAt(w.house, provider, model, t), PriceAt(Run(p, w, steps).house, provider, model, t))
    decreases |steps|
  {
    if steps != [] {
      var init := steps[..|steps| - 1];
      PastOverRuns(p, w, init, provider, model, t);
      StepKeepsPast(p, Run(p, w, init), steps[|steps| - 1], provider, model, t);
      SamePriceTrans(PriceAt(w.house, provider, model, t), PriceAt(Run(p, w, init).house, provider, model, t),
                     PriceAt(Run(p, w, steps).house, provider, model, t));
    }
  }

  /** Between requests: a budget sets that tenant's limit alone, a new open rate is found from its start on, switches are as set. */
  lemma OperatorsAct(p: Policy, w: World, s: Step)
    requires PolicyOk(p)
    ensures var h := Apply(p, w, s).house;
            match s
            case SetBudget(t, limit) =>
              && BalanceOf(h.book, t) == BalanceOf(w.house.book, t).(limit := limit)
              && forall u :: u != t ==> BalanceOf(h.book, u) == BalanceOf(w.house.book, u)
            case AddRate(rate) =>
              && ListIn(h.rates, Key(rate.provider, rate.model)) != []
              && var list := ListIn(h.rates, Key(rate.provider, rate.model)); list[|list| - 1] == rate
            case SetSwitches(all, ts, ps) =>
              forall t, pr :: Killed(h.engine, t, pr) <==> all || (t in ts && ts[t]) || (pr in ps && ps[pr])
            case _ => true
  {
  }
}

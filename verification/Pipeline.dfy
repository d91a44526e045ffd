/**
 * The request pipeline (internal/gateway/gateway.go) as values: estimate, evaluate, execute, reconcile, and the
 * events each stage leaves for the log. PipelineRuns.dfy interleaves the stages of many requests; Gateways.dfy
 * has the object that runs one request through all of them.
 */
module Pipeline {
  import opened Books
  import opened Decisions
  import opened Digits
  import opened Ledger
  import opened Pricing
  import opened Scoring

  datatype Units = Units(input: nat, output: nat)

  datatype Call = Call(request: string, tenant: string, provider: string, model: string, units: Units, concurrency: int)

  /** What became of the call to the provider. */
  datatype Provided = NoProvider | Fails | Returns(used: Units)

  /** Everything the gateway works on. */
  datatype House = House(engine: Engine, book: Book, rates: map<Key, seq<Rate>>, log: seq<Event>)

  datatype Stage =
    | Arrived
    | Priced(rate: Rate)
    | Running(rate: Rate)
    | Returned(rate: Rate, used: Units)
    | Reconciled(rate: Rate, used: Units)
    | Recorded(rate: Rate, used: Units)
    | Over

  datatype Held = Nothing | Holds(id: string)

  /** What a stage leads to: the next stage, the reservation now held, and the events to append, in order. */
  datatype Move = Move(stage: Stage, held: Held, events: seq<Event>)

  function Cost(r: Rate, u: Units): int {
    Pricing.Estimate(r, u.input, u.output)
  }

  function ListIn(rates: map<Key, seq<Rate>>, k: Key): seq<Rate> {
    if k in rates then rates[k] else []
  }

  function Note(call: Call, kind: Kind, amount: int): Event {
    Event(kind, call.tenant, call.request, "", amount)
  }

  function About(call: Call, kind: Kind, id: string, amount: int): Event {
    Event(kind, call.tenant, call.request, id, amount)
  }

  function RequestOf(call: Call, rate: Rate): Request {
    Request(call.tenant, call.provider, Cost(rate, call.units), call.concurrency)
  }

  function LookedUp(rates: map<Key, seq<Rate>>, call: Call, now: real): Move {
    match RateIn(ListIn(rates, Key(call.provider, call.model)), now)
    case NoPricingInEffect => Move(Over, Nothing, [Note(call, REQUEST_FAILED, 0)])
    case Found(rate) => Move(Priced(rate), Nothing, [Note(call, REQUEST_ESTIMATED, Cost(rate, call.units))])
  }

  /** The switch on the decision. */
  function Answered(call: Call, rate: Rate, d: Decision): Move {
    var cost := Cost(rate, call.units);
    var created := About(call, RESERVATION_CREATED, d.reservation, cost);
    match d.action
    case ALLOW => Move(Running(rate), Holds(d.reservation), [created, Note(call, REQUEST_ALLOWED, cost)])
    case THROTTLE =>
      if d.reservation != "" then Move(Over, Holds(d.reservation), [created, Note(call, REQUEST_THROTTLED, 0)])
      else Move(Over, Nothing, [Note(call, REQUEST_THROTTLED, 0)])
    case _ => Move(Over, Nothing, [Note(call, REQUEST_BLOCKED, 0)])
  }

  /** A failed execution has released the reservation; a successful one reports its usage. */
  function Executed(call: Call, rate: Rate, id: string, provided: Provided): Move {
    match provided
    case NoProvider => Move(Over, Holds(id), [About(call, RESERVATION_RELEASED, id, 0)])
    case Fails => Move(Over, Holds(id), [About(call, RESERVATION_RELEASED, id, 0), Note(call, REQUEST_FAILED, 0)])
    case Returns(used) =>
      Move(Returned(rate, used), Holds(id),
           [Note(call, REQUEST_EXECUTED, 0), Note(call, USAGE_REPORTED, Cost(rate, used))])
  }

  function BookAfterExecution(b: Book, id: string, provided: Provided): Book {
    if provided.Returns? then b else CloseIn(b, id, Release)
  }

  function Concluded(call: Call, rate: Rate, used: Units, id: string, reply: Reply): Move {
    if reply.Settled? then
      Move(Reconciled(rate, used), Holds(id), [About(call, COST_RECONCILED, id, Cost(rate, used))])
    else Move(Over, Holds(id), [Note(call, REQUEST_FAILED, 0)])
  }

  // ---------- one request, run alone ----------

  datatype Result =
    | Unpriced
    | Stopped(decision: Decision)
    | NotExecuted(decision: Decision)
    | Unreconciled(decision: Decision, actual: int, reply: Reply)
    | Complete(decision: Decision, actual: int, result: ReconcileResult)

  datatype Handling = Handling(house: House, result: Result)

  function Logged(h: House, events: seq<Event>): House {
    h.(log := h.log + events)
  }

  /** After execution: reconcile, then feed the actual cost back into the tracker. */
  function Settling(p: Policy, h: House, call: Call, rate: Rate, d: Decision, used: Units, later: real): Handling {
    var id, actual := d.reservation, Cost(rate, used);
    var reply := ReplyIn(h.book, id, Reconcile(actual));
    var h' := Logged(h.(book := CloseIn(h.book, id, Reconcile(actual))), Concluded(call, rate, used, id, reply).events);
    if reply.Settled? then
      Handling(h'.(engine := Used(p, h'.engine, call.tenant, later, actual)), Complete(d, actual, reply.result))
    else Handling(h', Unreconciled(d, actual, reply))
  }

  function Executing(p: Policy, h: House, call: Call, rate: Rate, d: Decision, provided: Provided, later: real): Handling {
    var m := Executed(call, rate, d.reservation, provided);
    var h' := Logged(h.(book := BookAfterExecution(h.book, d.reservation, provided)), m.events);
    if provided.Returns? then Settling(p, h', call, rate, d, provided.used, later) else Handling(h', NotExecuted(d))
  }

  /** The house once the decision's events are appended. */
  function Judged(h: House, call: Call, rate: Rate, o: Outcome): House {
    Logged(h.(engine := o.engine, book := o.book), Answered(call, rate, o.decision).events)
  }

  function Judging(p: Policy, h: House, call: Call, rate: Rate, now: real, stamp: string, provided: Provided, later: real): Handling
    requires PolicyOk(p)
  {
    var o := Evaluate(p, h.engine, h.book, RequestOf(call, rate), now, stamp);
    var h' := Judged(h, call, rate, o);
    if o.decision.action == ALLOW then Executing(p, h', call, rate, o.decision, provided, later)
    else Handling(h', Stopped(o.decision))
  }

  /** HandleRequest. */
  function Handled(p: Policy, h: House, call: Call, now: real, stamp: string, provided: Provided, later: real): Handling
    requires PolicyOk(p)
  {
    var m := LookedUp(h.rates, call, now);
    var h' := Logged(h, m.events);
    if m.stage.Priced? then Judging(p, h', call, m.stage.rate, now, stamp, provided, later) else Handling(h', Unpriced)
  }

  // ---------- what one request does to the accounts ----------

  /** The account after `reserved` and `settled` rose by these much. */
  function Raised(a: Account, reserved: int, settled: int): Account {
    Account(a.limit, a.reserved + reserved, a.settled + settled)
  }

  /** How far a handling raised `reserved`: a throttled request keeps its hold. */
  function HoldLeft(call: Call, rate: Rate, r: Result): int {
    if r.Stopped? && r.decision.action == THROTTLE then Cost(rate, call.units) else 0
  }

  function Charged(r: Result): int {
    if r.Complete? then r.actual else 0
  }

  ghost predicate OnlyMoves(b: Book, b': Book, t: string, reserved: int, settled: int) {
    && BalanceOf(b', t) == Raised(BalanceOf(b, t), reserved, settled)
    && forall u :: u != t ==> BalanceOf(b', u) == BalanceOf(b, u)
  }

  /** A fresh hold can be closed in each of the three ways: it comes off `reserved`, and the actual cost goes on `settled` if there is one. */
  lemma FreshHoldCloses(b: Book, r: Reservation, how: Closing)
    requires r.state == RESERVED && !r.reconciled
    ensures var b1 := Filing(b, r);
            && OnlyMoves(b, CloseIn(b1, r.id, how), r.tenant, 0, if how.Reconcile? then how.actual else 0)
            && OnlyMoves(b, b1, r.tenant, r.amount, 0)
            && (how.Reconcile? ==> ReplyIn(b1, r.id, how) == Settled(ComputeReconcileResult(r.amount, how.actual)))
  {
  }

  lemma OpeningMovesNothing(b: Book, t: string, b': Book, u: string, reserved: int, settled: int)
    requires OnlyMoves(Opened(b, t), b', u, reserved, settled)
    ensures OnlyMoves(b, b', u, reserved, settled)
  {
    assert forall v :: BalanceOf(Opened(b, t), v) == BalanceOf(b, v);
  }

  /** From an allowed decision on: the hold is gone, and the actual cost is charged if the provider answered. */
  lemma ExecutingMoves(p: Policy, h: House, b: Book, r: Reservation, call: Call, rate: Rate, d: Decision,
                       provided: Provided, later: real)
    requires r.state == RESERVED && !r.reconciled && r.tenant == call.tenant
    requires h.book == Filing(b, r) && d.reservation == r.id
    ensures var k := Executing(p, h, call, rate, d, provided, later);
            && OnlyMoves(b, k.house.book, call.tenant, 0, Charged(k.result))
            && (if provided.Returns? then k.result.Complete? && k.result.actual == Cost(rate, provided.used)
                else k.result == NotExecuted(d))
  {
    if provided.Returns? {
      FreshHoldCloses(b, r, Reconcile(Cost(rate, provided.used)));
    } else {
      FreshHoldCloses(b, r, Release);
    }
  }

  lemma JudgingMoves(p: Policy, h: House, call: Call, rate: Rate, now: real, stamp: string, provided: Provided, later: real)
    requires PolicyOk(p)
    ensures var k := Judging(p, h, call, rate, now, stamp, provided, later);
            && OnlyMoves(h.book, k.house.book, call.tenant, HoldLeft(call, rate, k.result), Charged(k.result))
            && (k.result.Complete? <==> Evaluate(p, h.engine, h.book, RequestOf(call, rate), now, stamp).decision.action == ALLOW && provided.Returns?)
            && (k.result.Complete? ==> k.result.actual == Cost(rate, provided.used))
            && !k.result.Unreconciled?
  {
    var req := RequestOf(call, rate);
    DecisionAndBooks(p, h.engine, h.book, req, now, stamp);
    var o := Evaluate(p, h.engine, h.book, req, now, stamp);
    JudgingMovesBy(p, h, call, rate, o, now, stamp, provided, later);
  }

  lemma JudgingMovesBy(p: Policy, h: House, call: Call, rate: Rate, o: Outcome, now: real, stamp: string,
                       provided: Provided, later: real)
    requires var t := call.tenant;
             if o.decision.action == ALLOW || o.decision.action == THROTTLE
             then o.book == Granted(Opened(h.book, t), t, Cost(rate, call.units), p.ttl, now, stamp)
                  && o.decision.reservation == Id(stamp, h.book.issued + 1)
             else SameMoney(h.book, o.book)
    ensures var h' := Judged(h, call, rate, o);
            var k := if o.decision.action == ALLOW then Executing(p, h', call, rate, o.decision, provided, later)
                     else Handling(h', Stopped(o.decision));
            && OnlyMoves(h.book, k.house.book, call.tenant, HoldLeft(call, rate, k.result), Charged(k.result))
            && (k.result.Complete? <==> o.decision.action == ALLOW && provided.Returns?)
            && (k.result.Complete? ==> k.result.actual == Cost(rate, provided.used))
            && !k.result.Unreconciled?
  {
    var t, h' := call.tenant, Judged(h, call, rate, o);
    var r := Fresh(Id(stamp, h.book.issued + 1), t, Cost(rate, call.units), now, p.ttl);
    var b := Opened(h.book, t);
    if o.decision.action == ALLOW {
      var k := Executing(p, h', call, rate, o.decision, provided, later);
      ExecutingMoves(p, h', b, r, call, rate, o.decision, provided, later);
      OpeningMovesNothing(h.book, t, k.house.book, t, 0, Charged(k.result));
    } else if o.decision.action == THROTTLE {
      FreshHoldCloses(b, r, Release);
      OpeningMovesNothing(h.book, t, o.book, t, r.amount, 0);
    }
  }

  /** The decision in r is Evaluate's on the request's own tenant, provider, estimate and concurrency; only an ALLOW is executed. */
  ghost predicate DecidedAs(p: Policy, h: House, call: Call, rate: Rate, now: real, stamp: string, provided: Provided, r: Result)
    requires PolicyOk(p)
  {
    var cost := rate.fee + call.units.input * rate.input + call.units.output * rate.output;
    var d := Evaluate(p, h.engine, h.book, Request(call.tenant, call.provider, cost, call.concurrency), now, stamp).decision;
    && !r.Unpriced? && r.decision == d
    && (r.Stopped? <==> d.action != ALLOW)
    && (r.NotExecuted? <==> d.action == ALLOW && !provided.Returns?)
  }

  /** So it is for every request that finds a rate; the others get no decision. */
  lemma RequestIsEvaluated(p: Policy, h: House, call: Call, now: real, stamp: string, provided: Provided, later: real)
    requires PolicyOk(p)
    ensures var r := Handled(p, h, call, now, stamp, provided, later).result;
            match RateIn(ListIn(h.rates, Key(call.provider, call.model)), now)
            case NoPricingInEffect => r == Unpriced
            case Found(rate) => DecidedAs(p, h, call, rate, now, stamp, provided, r)
  {
    var m := LookedUp(h.rates, call, now);
    if m.stage.Priced? {
      PricedIsEvaluated(p, h, Logged(h, m.events), call, m.stage.rate, now, stamp, provided, later);
    }
  }

  lemma PricedIsEvaluated(p: Policy, h: House, h': House, call: Call, rate: Rate, now: real, stamp: string, provided: Provided, later: real)
    requires PolicyOk(p) && h'.engine == h.engine && h'.book == h.book
    ensures DecidedAs(p, h, call, rate, now, stamp, provided, Judging(p, h', call, rate, now, stamp, provided, later).result)
  {
    RequestWritten(call, rate);
    JudgingIsEvaluated(p, h', call, rate, now, stamp, provided, later);
  }

  lemma RequestWritten(call: Call, rate: Rate)
    ensures RequestOf(call, rate)
         == Request(call.tenant, call.provider, rate.fee + call.units.input * rate.input + call.units.output * rate.output, call.concurrency)
  {
  }

  lemma JudgingIsEvaluated(p: Policy, h: House, call: Call, rate: Rate, now: real, stamp: string, provided: Provided, later: real)
    requires PolicyOk(p)
    ensures var r := Judging(p, h, call, rate, now, stamp, provided, later).result;
            var d := Evaluate(p, h.engine, h.book, RequestOf(call, rate), now, stamp).decision;
            && !r.Unpriced? && r.decision == d
            && (r.Stopped? <==> d.action != ALLOW)
            && (r.NotExecuted? <==> d.action == ALLOW && !provided.Returns?)
  {
  }

  /**
   * One whole request raises `settled` by exactly the actual cost if it completed and otherwise by nothing, raises
   * `reserved` by exactly the estimate if it was throttled and otherwise by nothing, leaves the limit and every other
   * tenant's account alone, and prices the estimate and the actual with the one rate found at the start.
   */
  lemma RequestMoves(p: Policy, h: House, call: Call, now: real, stamp: string, provided: Provided, later: real)
    requires PolicyOk(p)
    ensures var k := Handled(p, h, call, now, stamp, provided, later);
            match RateIn(ListIn(h.rates, Key(call.provider, call.model)), now)
            case NoPricingInEffect => k.result == Unpriced && k.house.book == h.book
            case Found(rate) =>
              && OnlyMoves(h.book, k.house.book, call.tenant, HoldLeft(call, rate, k.result), Charged(k.result))
              && (k.result.Complete? <==>
                    Evaluate(p, h.engine, h.book, RequestOf(call, rate), now, stamp).decision.action == ALLOW && provided.Returns?)
              && (k.result.Complete? ==> k.result.actual == Cost(rate, provided.used))
              && !k.result.Unreconciled?
  {
    var m := LookedUp(h.rates, call, now);
    if m.stage.Priced? {
      JudgingMoves(p, Logged(h, m.events), call, m.stage.rate, now, stamp, provided, later);
    }
  }
}

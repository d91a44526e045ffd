/** The gateway object (internal/gateway/gateway.go): HandleRequest runs one request through the whole pipeline. */
module Gateways {
  import opened Books
  import opened Decisions
  import opened Engines
  import opened Ledger
  import opened Managers
  import opened Pipeline
  import opened Pricing
  import opened Scoring

  class Gateway {
    const risk: RiskEngine
    const reserv: Manager
    const pricing: Registry
    const ledger: EventLedger

    ghost predicate Valid()
      reads this, risk, reserv, ledger
    {
      && risk.reserv == reserv && risk.Valid() && ledger.Valid()
      && {ledger, pricing} !! risk.Repr
    }

    ghost function Value(): House
      requires risk.Owned()
      reads this, risk, reserv, pricing, ledger, risk.Repr
    {
      House(risk.Value(), reserv.Value(), pricing.rates, ledger.Events())
    }

    constructor (risk: RiskEngine, reserv: Manager, pricing: Registry, ledger: EventLedger)
      requires risk.reserv == reserv && risk.Valid() && ledger.Valid() && {ledger, pricing} !! risk.Repr
      ensures Valid()
      ensures this.risk == risk && this.reserv == reserv && this.pricing == pricing && this.ledger == ledger
    {
      this.risk, this.reserv, this.pricing, this.ledger := risk, reserv, pricing, ledger;
    }

    method Append(e: Event)
      requires Valid()
      modifies ledger
      ensures Valid() && risk.Repr == old(risk.Repr)
      ensures Value() == Logged(old(Value()), [e])
    {
      ledger.Append(e);
    }

    method AppendTwo(a: Event, b: Event)
      requires Valid()
      modifies ledger
      ensures Valid() && risk.Repr == old(risk.Repr)
      ensures Value() == Logged(old(Value()), [a, b])
    {
      ghost var h := Value();
      Append(a);
      Append(b);
      InTwo(h, a, b);
    }

    method Release(id: string)
      requires Valid()
      modifies reserv
      ensures Valid() && risk.Repr == old(risk.Repr)
      ensures Value() == old(Value()).(book := CloseIn(old(Value()).book, id, Books.Release))
    {
      var _ := reserv.Release(id);
    }

    method Reconcile(id: string, actual: int) returns (reply: Reply)
      requires Valid()
      modifies reserv
      ensures Valid() && risk.Repr == old(risk.Repr)
      ensures Value() == old(Value()).(book := CloseIn(old(Value()).book, id, Books.Reconcile(actual)))
      ensures reply == ReplyIn(old(Value()).book, id, Books.Reconcile(actual))
    {
      reply := reserv.Reconcile(id, actual);
    }

    method RecordUsage(t: string, later: real, actual: int)
      requires Valid()
      modifies risk, risk.Repr
      ensures Valid() && fresh(risk.Repr - old(risk.Repr)) && (t in old(risk.tenants) ==> risk.Repr == old(risk.Repr))
      ensures Value() == old(Value()).(engine := Used(risk.policy, old(Value()).engine, t, later, actual))
    {
      risk.RecordUsage(t, later, actual);
    }

    method Settle(call: Call, rate: Rate, d: Decision, used: Units, later: real) returns (r: Result)
      requires Valid()
      modifies risk, reserv, ledger, risk.Repr
      ensures Valid() && fresh(risk.Repr - old(risk.Repr))
      ensures call.tenant in old(risk.tenants) ==> risk.Repr == old(risk.Repr)
      ensures Handling(Value(), r) == Settling(risk.policy, old(Value()), call, rate, d, used, later)
    {
      var actual := Cost(rate, used);
      var reply := Reconcile(d.reservation, actual);
      if !reply.Settled? {
        Append(Note(call, REQUEST_FAILED, 0));
        return Unreconciled(d, actual, reply);
      }
      Append(About(call, COST_RECONCILED, d.reservation, actual));
      RecordUsage(call.tenant, later, actual);
      r := Complete(d, actual, reply.result);
    }

    method Execute(call: Call, rate: Rate, d: Decision, provided: Provided, later: real) returns (r: Result)
      requires Valid()
      modifies risk, reserv, ledger, risk.Repr
      ensures Valid() && fresh(risk.Repr - old(risk.Repr))
      ensures call.tenant in old(risk.tenants) ==> risk.Repr == old(risk.Repr)
      ensures Handling(Value(), r) == Executing(risk.policy, old(Value()), call, rate, d, provided, later)
    {
      if provided.NoProvider? {
        Release(d.reservation);
        Append(About(call, RESERVATION_RELEASED, d.reservation, 0));
        return NotExecuted(d);
      }
      if provided.Fails? {
        Release(d.reservation);
        AppendTwo(About(call, RESERVATION_RELEASED, d.reservation, 0), Note(call, REQUEST_FAILED, 0));
        return NotExecuted(d);
      }
      AppendTwo(Note(call, REQUEST_EXECUTED, 0), Note(call, USAGE_REPORTED, Cost(rate, provided.used)));
      r := Settle(call, rate, d, provided.used, later);
    }

    method Decide(req: Request, now: real, stamp: string) returns (d: Decision)
      requires Valid()
      modifies risk, reserv, risk.Repr
      ensures Valid() && fresh(risk.Repr - old(risk.Repr)) && req.tenant in risk.tenants
      ensures var o := Evaluate(risk.policy, old(Value()).engine, old(Value()).book, req, now, stamp);
              d == o.decision && Value() == old(Value()).(engine := o.engine, book := o.book)
    {
      d := risk.Evaluate(req, now, stamp);
    }

    method Judge(call: Call, rate: Rate, now: real, stamp: string) returns (d: Decision)
      requires Valid()
      modifies risk, reserv, ledger, risk.Repr
      ensures Valid() && fresh(risk.Repr - old(risk.Repr)) && call.tenant in risk.tenants
      ensures var o := Evaluate(risk.policy, old(risk.Value()), old(reserv.Value()), RequestOf(call, rate), now, stamp);
              d == o.decision && Value() == Judged(old(Value()), call, rate, o)
    {
      d := Decide(RequestOf(call, rate), now, stamp);
      var cost := Cost(rate, call.units);
      match d.action {
        case ALLOW =>
          AppendTwo(About(call, RESERVATION_CREATED, d.reservation, cost), Note(call, REQUEST_ALLOWED, cost));
        case THROTTLE =>
          if d.reservation != "" {
            AppendTwo(About(call, RESERVATION_CREATED, d.reservation, cost), Note(call, REQUEST_THROTTLED, 0));
          } else {
            Append(Note(call, REQUEST_THROTTLED, 0));
          }
        case _ =>
          Append(Note(call, REQUEST_BLOCKED, 0));
      }
    }

    /** From the priced request on. */
    method RunPriced(call: Call, rate: Rate, now: real, stamp: string, provided: Provided, later: real) returns (r: Result)
      requires Valid()
      modifies risk, reserv, ledger, risk.Repr
      ensures Valid() && fresh(risk.Repr - old(risk.Repr))
      ensures Handling(Value(), r) == Judging(risk.policy, old(Value()), call, rate, now, stamp, provided, later)
    {
      var d := Judge(call, rate, now, stamp);
      if d.action != ALLOW {
        return Stopped(d);
      }
      r := Execute(call, rate, d, provided, later);
    }

    /** `provided` is what the provider will answer if it is asked; `later` is the clock when usage is recorded. */
    method HandleRequest(call: Call, now: real, stamp: string, provided: Provided, later: real) returns (r: Result)
      requires Valid()
      modifies risk, reserv, ledger, risk.Repr
      ensures Valid() && fresh(risk.Repr - old(risk.Repr))
      ensures Handling(Value(), r) == Handled(risk.policy, old(Value()), call, now, stamp, provided, later)
    {
      var found := pricing.RateAt(call.provider, call.model, now);
      if found.NoPricingInEffect? {
        Append(Note(call, REQUEST_FAILED, 0));
        return Unpriced;
      }
      Append(Note(call, REQUEST_ESTIMATED, Cost(found.rate, call.units)));
      r := RunPriced(call, found.rate, now, stamp, provided, later);
    }
  }

  lemma InTwo(h: House, a: Event, b: Event)
    ensures Logged(Logged(h, [a]), [b]) == Logged(h, [a, b])
  {
    assert h.log + [a] + [b] == h.log + [a, b];
  }
}

/**
 * Expiry seen from the log: runs that reach an expired hold the log shows open, for every request a tenant's budget
 * covers, and what becomes of such a request when the provider answers after all.
 */
module Expiries {
  import opened Books
  import opened Decisions
  import opened Digits
  import opened Ledger
  import opened Managers
  import opened Pipeline
  import opened PipelineRuns
  import opened Pricing
  import opened Replay
  import opened Scoring
  import opened Totals

  // ---------- building runs ----------

  /** Some run leads from w0 to w. */
  ghost predicate Reaches(p: Policy, w0: World, w: World)
    requires PolicyOk(p)
  {
    exists steps :: SaneSteps(steps) && Run(p, w0, steps) == w
  }

  lemma ReachesSelf(p: Policy, w: World)
    requires PolicyOk(p)
    ensures Reaches(p, w, w)
  {
    assert SaneSteps([]) && Run(p, w, []) == w;
  }

  lemma ReachesOn(p: Policy, w0: World, w: World, s: Step)
    requires PolicyOk(p) && Reaches(p, w0, w) && SaneStep(s)
    ensures Reaches(p, w0, Apply(p, w, s))
  {
    var steps :| SaneSteps(steps) && Run(p, w0, steps) == w;
    var more := steps + [s];
    assert more[..|more| - 1] == steps;
    assert SaneSteps(more) && Run(p, w0, more) == Apply(p, w, s);
  }

  lemma {:induction false} ReachesDrained(p: Policy, w0: World, w: World, i: nat)
    requires PolicyOk(p) && Reaches(p, w0, w) && i in w.flights
    ensures Reaches(p, w0, Drained(w, i))
    decreases |w.flights[i].pending|
  {
    if w.flights[i].pending == [] {
      DrainNone(w, i);
    } else {
      ReachesOn(p, w0, w, Append(i));
      ReachesDrained(p, w0, Appended(w, i), i);
      DrainOne(w, i);
    }
  }

  lemma ReachedInv(p: Policy, h: House, w: World)
    requires PolicyOk(p) && Start(h) && Reaches(p, World(h, map[]), w) && w.house.book.issued < U64
    ensures Inv(w)
  {
    var steps :| SaneSteps(steps) && Run(p, World(h, map[]), steps) == w;
    StartInv(h);
    RunKeepsInv(p, World(h, map[]), steps);
  }

  /** The step takes request 0, alone in the gateway, through move m on house h1; then it appends its events. */
  lemma ReachesAt(p: Policy, w0: World, w: World, s: Step, call: Call, h1: House, m: Move)
    requires PolicyOk(p) && Reaches(p, w0, w) && SaneStep(s)
    requires 0 in w.flights && w.flights[0].call == call && w.flights == map[][0 := w.flights[0]]
    requires Apply(p, w, s) == Moved(w, 0, h1, m)
    ensures Reaches(p, w0, At(Logged(h1, m.events), map[], 0, call, m.stage, m.held))
  {
    ReachesOn(p, w0, w, s);
    ReachesDrained(p, w0, Moved(w, 0, h1, m), 0);
    DrainedMove(w, map[], 0, call, h1, m);
  }

  // ---------- the stages of one request ----------

  lemma ReachesPriced(p: Policy, h: House, call: Call, rate: Rate, now: real)
    requires PolicyOk(p) && RateIn(ListIn(h.rates, Key(call.provider, call.model)), now) == Found(rate)
    ensures Reaches(p, World(h, map[]), At(Logged(h, [Note(call, REQUEST_ESTIMATED, Cost(rate, call.units))]), map[], 0, call, Priced(rate), Nothing))
  {
    var w0 := World(h, map[]);
    ReachesSelf(p, w0);
    ReachesOn(p, w0, w0, Arrive(0, call));
    var w := At(h, map[], 0, call, Arrived, Nothing);
    assert Apply(p, w0, Arrive(0, call)) == w;
    ReachesAt(p, w0, w, LookUp(0, now), call, h, LookedUp(h.rates, call, now));
  }

  lemma ReachesRunning(p: Policy, w0: World, h: House, call: Call, rate: Rate, now: real, stamp: string)
    requires PolicyOk(p) && Reaches(p, w0, At(h, map[], 0, call, Priced(rate), Nothing))
    requires Evaluate(p, h.engine, h.book, RequestOf(call, rate), now, stamp).decision.action == ALLOW
    ensures var o := Evaluate(p, h.engine, h.book, RequestOf(call, rate), now, stamp);
            Reaches(p, w0, At(Judged(h, call, rate, o), map[], 0, call, Running(rate), Holds(o.decision.reservation)))
  {
    var o := Evaluate(p, h.engine, h.book, RequestOf(call, rate), now, stamp);
    var w := At(h, map[], 0, call, Priced(rate), Nothing);
    ReachesAt(p, w0, w, Judge(0, now, stamp), call, h.(engine := o.engine, book := o.book), Answered(call, rate, o.decision));
  }

  lemma ReachesSwept(p: Policy, w0: World, w: World, now: real, after: Book)
    requires PolicyOk(p) && Reaches(p, w0, w) && SweptTo(w.house.book, after, now)
    ensures Reaches(p, w0, w.(house := w.house.(book := after)))
  {
    ReachesOn(p, w0, w, ExpireStale(now, after));
  }

  /** The house after the provider answered and the gateway tried in vain to reconcile hold x. */
  function AfterLateService(h: House, call: Call, rate: Rate, x: string, used: Units): House {
    var h1 := Logged(h, [Note(call, REQUEST_EXECUTED, 0), Note(call, USAGE_REPORTED, Cost(rate, used))]);
    Logged(h1.(book := CloseIn(h.book, x, Reconcile(Cost(rate, used)))), [Note(call, REQUEST_FAILED, 0)])
  }

  lemma ReachesServed(p: Policy, w0: World, h: House, call: Call, rate: Rate, x: string, used: Units)
    requires PolicyOk(p) && Reaches(p, w0, At(h, map[], 0, call, Running(rate), Holds(x)))
    requires x in h.book.reservations && h.book.reservations[x].state == EXPIRED && !h.book.reservations[x].reconciled
    ensures Reaches(p, w0, At(AfterLateService(h, call, rate, x, used), map[], 0, call, Over, Holds(x)))
  {
    var w := At(h, map[], 0, call, Running(rate), Holds(x));
    ReachesAt(p, w0, w, Execute(0, Returns(used)), call, h, Executed(call, rate, x, Returns(used)));
    var h1 := Logged(h, [Note(call, REQUEST_EXECUTED, 0), Note(call, USAGE_REPORTED, Cost(rate, used))]);
    var how := Reconcile(Cost(rate, used));
    ReachesAt(p, w0, At(h1, map[], 0, call, Returned(rate, used), Holds(x)), Conclude(0), call,
              h1.(book := CloseIn(h1.book, x, how)), Concluded(call, rate, used, x, ReplyIn(h1.book, x, how)));
  }

  // ---------- the books in these runs ----------

  /** Expiring the only reservation there is, is what a sweep after its expiry does. */
  lemma OneHoldSwept(b: Book, x: string, now: real)
    requires b.reservations.Keys == {x} && IsStale(b.reservations[x], now)
    ensures SweptTo(b, CloseIn(b, x, Expire), now)
  {
    PartlyNone(b);
    PartlyStep(b, b, {}, x);
    assert {} + {x} == {x};
    PartlyAll(b, CloseIn(b, x, Expire), now, {x});
  }

  lemma PartlyNone(b: Book)
    ensures Partly(b, b, {})
  {
  }

  /** A lone hold of tenant t, expired, in books where t otherwise has nothing. */
  ghost predicate LoneExpired(b: Book, x: string, t: string, amount: int) {
    && b.reservations.Keys == {x}
    && b.reservations[x].id == x && b.reservations[x].tenant == t && b.reservations[x].amount == amount
    && b.reservations[x].state == EXPIRED && !b.reservations[x].reconciled
    && BalanceOf(b, t).reserved == 0 && BalanceOf(b, t).settled == 0
  }

  lemma GrantedExpires(b: Book, t: string, r: Reservation, now: real)
    requires b.reservations == map[] && BalanceOf(b, t).reserved == 0 && BalanceOf(b, t).settled == 0
    requires r.tenant == t && r.state == RESERVED && !r.reconciled && r.expiresAt < now
    ensures var b1 := Filing(Opened(b, t), r);
            && SweptTo(b1, CloseIn(b1, r.id, Expire), now)
            && LoneExpired(CloseIn(b1, r.id, Expire), r.id, t, r.amount)
  {
    var b1 := Filing(Opened(b, t), r);
    OneHoldSwept(b1, r.id, now);
    FreshHoldCloses(Opened(b, t), r, Expire);
  }

  /** Reconciling it changes nothing at all. */
  lemma LateReconcile(b: Book, x: string, t: string, amount: int, actual: int)
    requires LoneExpired(b, x, t, amount)
    ensures LoneExpired(CloseIn(b, x, Reconcile(actual)), x, t, amount)
  {
  }

  /** In a state where all is appended and the lone hold is expired but open in the log, the log is off by its amount. */
  lemma LogOffByHold(w: World, x: string, t: string, amount: int)
    requires Inv(w) && AllAppended(w) && LoneExpired(w.house.book, x, t, amount) && x in ViewOf(w.house.log, t).open
    ensures Outstanding(ForTenant(w.house.log, t), {}) == BalanceOf(w.house.book, t).reserved + amount
    ensures Spent(ForTenant(w.house.log, t)) == 0
  {
    ReplayAtRest(w, t);
    var u := Unlogged(w, t);
    assert u.Keys == {x};
    Split(u, x, AmountOf());
    assert u - {x} == map[];
  }

  // ---------- the runs ----------

  /** The books and the log of the gateway when its first request is running. */
  lemma FirstHold(p: Policy, h: House, call: Call, rate: Rate, now: real, stamp: string) returns (h': House, r: Reservation)
    requires PolicyOk(p) && Start(h) && RateIn(ListIn(h.rates, Key(call.provider, call.model)), now) == Found(rate)
    requires Evaluate(p, h.engine, h.book, RequestOf(call, rate), now, stamp).decision.action == ALLOW
    ensures Reaches(p, World(h, map[]), At(h', map[], 0, call, Running(rate), Holds(r.id)))
    ensures h'.book == Filing(Opened(h.book, call.tenant), r) && h'.book.issued == 1
    ensures r == Fresh(Id(stamp, 1), call.tenant, Cost(rate, call.units), now, p.ttl)
  {
    var h1 := Logged(h, [Note(call, REQUEST_ESTIMATED, Cost(rate, call.units))]);
    var o := Evaluate(p, h.engine, h.book, RequestOf(call, rate), now, stamp);
    r := Fresh(Id(stamp, 1), call.tenant, Cost(rate, call.units), now, p.ttl);
    ReachesPriced(p, h, call, rate, now);
    ReachesRunning(p, World(h, map[]), h1, call, rate, now, stamp);
    DecisionAndBooks(p, h.engine, h.book, RequestOf(call, rate), now, stamp);
    h' := Judged(h1, call, rate, o);
  }

  /**
   * Every estimate that is allowed can expire in flight: a run from the empty gateway leads to a state with every event
   * appended in which the log shows the estimate outstanding and the account reserves nothing.
   */
  lemma ExpiryShowsInLog(p: Policy, h: House, call: Call, rate: Rate, now: real, stamp: string, later: real) returns (w: World)
    requires PolicyOk(p) && Start(h) && RateIn(ListIn(h.rates, Key(call.provider, call.model)), now) == Found(rate)
    requires Evaluate(p, h.engine, h.book, RequestOf(call, rate), now, stamp).decision.action == ALLOW
    requires now + p.ttl < later
    ensures Reaches(p, World(h, map[]), w) && w == At(w.house, map[], 0, call, Running(rate), Holds(Id(stamp, 1)))
    ensures LoneExpired(w.house.book, Id(stamp, 1), call.tenant, Cost(rate, call.units)) && w.house.book.issued == 1
    ensures var t := call.tenant;
            && Outstanding(ForTenant(w.house.log, t), {}) == BalanceOf(w.house.book, t).reserved + Cost(rate, call.units)
            && BalanceOf(w.house.book, t).reserved == 0 && Id(stamp, 1) in ViewOf(w.house.log, t).open
  {
    var h1, r := FirstHold(p, h, call, rate, now, stamp);
    GrantedExpires(h.book, call.tenant, r, later);
    var after := CloseIn(h1.book, r.id, Expire);
    ReachesSwept(p, World(h, map[]), At(h1, map[], 0, call, Running(rate), Holds(r.id)), later, after);
    w := At(h1.(book := after), map[], 0, call, Running(rate), Holds(r.id));
    ReachedInv(p, h, w);
    RunningIsOpen(w, 0);
    LogOffByHold(w, r.id, call.tenant, r.amount);
  }

  lemma RunningIsOpen(w: World, i: nat)
    requires Inv(w) && Ready(w, i) && w.flights[i].stage.Running? && w.flights[i].held.Holds?
    ensures w.flights[i].held.id in ViewOf(w.house.log, w.flights[i].call.tenant).open
  {
    assert FlightAt(w, i);
  }

  /**
   * The same run carried on: the provider serves the request, its usage is in the log, and nothing is charged, while
   * the hold stays open in the log for good.
   */
  lemma ServedForNothing(p: Policy, h: House, call: Call, rate: Rate, now: real, stamp: string, later: real, used: Units)
    returns (w: World)
    requires PolicyOk(p) && Start(h) && RateIn(ListIn(h.rates, Key(call.provider, call.model)), now) == Found(rate)
    requires Evaluate(p, h.engine, h.book, RequestOf(call, rate), now, stamp).decision.action == ALLOW
    requires now + p.ttl < later
    ensures Reaches(p, World(h, map[]), w) && AllAppended(w) && LeftOpen(w, 0, Id(stamp, 1))
    ensures Note(call, USAGE_REPORTED, Cost(rate, used)) in w.house.log
    ensures BalanceOf(w.house.book, call.tenant).reserved == 0 && BalanceOf(w.house.book, call.tenant).settled == 0
    ensures Outstanding(ForTenant(w.house.log, call.tenant), {}) == Cost(rate, call.units)
    ensures Spent(ForTenant(w.house.log, call.tenant)) == 0
  {
    var x := Id(stamp, 1);
    var w1 := ExpiryShowsInLog(p, h, call, rate, now, stamp, later);
    ReachesServed(p, World(h, map[]), w1.house, call, rate, x, used);
    w := At(AfterLateService(w1.house, call, rate, x, used), map[], 0, call, Over, Holds(x));
    LateServiceBooks(w1.house, call, rate, x, used);
    LateServiceLog(w1.house, call, rate, x, used);
    LoneHoldShows(p, h, w, x, call.tenant, Cost(rate, call.units));
  }

  lemma LoneHoldShows(p: Policy, h: House, w: World, x: string, t: string, amount: int)
    requires PolicyOk(p) && Start(h) && Reaches(p, World(h, map[]), w) && w.house.book.issued == 1
    requires AllAppended(w) && LoneExpired(w.house.book, x, t, amount) && x in ViewOf(w.house.log, t).open
    ensures Outstanding(ForTenant(w.house.log, t), {}) == amount && Spent(ForTenant(w.house.log, t)) == 0
  {
    ReachedInv(p, h, w);
    LogOffByHold(w, x, t, amount);
  }

  lemma LateServiceBooks(h: House, call: Call, rate: Rate, x: string, used: Units)
    requires LoneExpired(h.book, x, call.tenant, Cost(rate, call.units))
    ensures var b := AfterLateService(h, call, rate, x, used).book;
            LoneExpired(b, x, call.tenant, Cost(rate, call.units)) && b.issued == h.book.issued
  {
    LateReconcile(h.book, x, call.tenant, Cost(rate, call.units), Cost(rate, used));
  }

  /** The three events are about no money, so the hold is open after them if it was before. */
  lemma LateServiceLog(h: House, call: Call, rate: Rate, x: string, used: Units)
    requires x in ViewOf(h.log, call.tenant).open
    ensures var log := AfterLateService(h, call, rate, x, used).log;
            x in ViewOf(log, call.tenant).open && Note(call, USAGE_REPORTED, Cost(rate, used)) in log
  {
    var a, b, c := Note(call, REQUEST_EXECUTED, 0), Note(call, USAGE_REPORTED, Cost(rate, used)), Note(call, REQUEST_FAILED, 0);
    var log := h.log + [a] + [b] + [c];
    OneMore(h.log, a, call.tenant);
    OneMore(h.log + [a], b, call.tenant);
    OneMore(h.log + [a] + [b], c, call.tenant);
    assert AfterLateService(h, call, rate, x, used).log == log;
    assert log[|h.log| + 1] == b;
  }

  /**
   * Under the default policy, for every new tenant, every estimate its budget covers and every usage the provider may
   * report: the log and the account come apart by the estimate, and the service is not charged.
   */
  lemma AnyCoveredEstimateCanExpire(h: House, call: Call, rate: Rate, now: real, stamp: string, used: Units)
    returns (expired: World, served: World)
    requires Start(h) && RateIn(ListIn(h.rates, Key(call.provider, call.model)), now) == Found(rate)
    requires call.tenant !in h.engine.tenants && !Killed(h.engine, call.tenant, call.provider)
    requires Covers(h.book, call.tenant, Cost(rate, call.units))
    ensures Reaches(DEFAULT_POLICY, World(h, map[]), expired) && AllAppended(expired)
    ensures Reaches(DEFAULT_POLICY, World(h, map[]), served) && AllAppended(served) && LeftOpen(served, 0, Id(stamp, 1))
    ensures var t := call.tenant;
            && Outstanding(ForTenant(expired.house.log, t), {}) - BalanceOf(expired.house.book, t).reserved == Cost(rate, call.units)
            && Note(call, USAGE_REPORTED, Cost(rate, used)) in served.house.log
            && BalanceOf(served.house.book, t).settled == 0 && Spent(ForTenant(served.house.log, t)) == 0
  {
    FirstRequestIsAllowed(h.engine, h.book, RequestOf(call, rate), now, stamp);
    var later := now + DEFAULT_POLICY.ttl + 1.0;
    expired := ExpiryShowsInLog(DEFAULT_POLICY, h, call, rate, now, stamp, later);
    served := ServedForNothing(DEFAULT_POLICY, h, call, rate, now, stamp, later, used);
  }
}

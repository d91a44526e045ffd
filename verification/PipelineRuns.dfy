/**
 * Many requests at once. Each request is a thread that takes one shared action at a time: look up a rate, Evaluate,
 * release or reconcile, record usage, or append one event. Threads interleave freely with each other and with
 * expiry, budget changes, new rates and kill switches. What the log says is compared with what the accounts hold.
 */
module PipelineRuns {
  import opened Books
  import opened Decisions
  import opened Digits
  import opened Ledger
  import opened Pipeline
  import opened Pricing
  import opened Scoring
  import opened Totals

  /** One request under way: what it does next, the reservation it was granted, the events it has yet to append. */
  datatype Flight = Flight(call: Call, stage: Stage, held: Held, pending: seq<Event>)

  datatype World = World(house: House, flights: map<nat, Flight>)

  datatype Step =
    | Arrive(i: nat, call: Call)
    | LookUp(i: nat, now: real)
    | Judge(i: nat, now: real, stamp: string)
    | Execute(i: nat, provided: Provided)
    | Conclude(i: nat)
    | Record(i: nat, now: real)
    | Append(i: nat)
    | ExpireStale(now: real, after: Book)
    | SetBudget(tenant: string, limit: int)
    | AddRate(rate: Rate)
    | SetSwitches(all: bool, tenants: map<string, bool>, providers: map<string, bool>)

  /** Flight i has appended everything and is at its next shared action. */
  predicate Ready(w: World, i: nat) {
    i in w.flights && w.flights[i].pending == []
  }

  function Moved(w: World, i: nat, h: House, m: Move): World
    requires i in w.flights
  {
    World(h, w.flights[i := Flight(w.flights[i].call, m.stage, m.held, m.events)])
  }

  /** A step that is not possible changes nothing. */
  ghost function Apply(p: Policy, w: World, s: Step): World
    requires PolicyOk(p)
  {
    match s
    case Arrive(i, call) =>
      if i in w.flights then w else w.(flights := w.flights[i := Flight(call, Arrived, Nothing, [])])
    case LookUp(i, now) =>
      if Ready(w, i) && w.flights[i].stage.Arrived? then
        Moved(w, i, w.house, LookedUp(w.house.rates, w.flights[i].call, now))
      else w
    case Judge(i, now, stamp) =>
      if Ready(w, i) && w.flights[i].stage.Priced? then
        var f := w.flights[i];
        var o := Evaluate(p, w.house.engine, w.house.book, RequestOf(f.call, f.stage.rate), now, stamp);
        JudgedIn(w, i, o)
      else w
    case Execute(i, provided) =>
      if Ready(w, i) && w.flights[i].stage.Running? && w.flights[i].held.Holds? then
        var f := w.flights[i];
        Moved(w, i, w.house.(book := BookAfterExecution(w.house.book, f.held.id, provided)),
              Executed(f.call, f.stage.rate, f.held.id, provided))
      else w
    case Conclude(i) =>
      if Ready(w, i) && w.flights[i].stage.Returned? && w.flights[i].held.Holds? then ConcludedIn(w, i) else w
    case Record(i, now) =>
      if Ready(w, i) && w.flights[i].stage.Reconciled? then
        var f := w.flights[i];
        Moved(w, i, w.house.(engine := Used(p, w.house.engine, f.call.tenant, now, Cost(f.stage.rate, f.stage.used))),
              Move(Recorded(f.stage.rate, f.stage.used), f.held, []))
      else w
    case Append(i) =>
      if i in w.flights && w.flights[i].pending != [] then Appended(w, i) else w
    case ExpireStale(now, after) =>
      if SweptTo(w.house.book, after, now) then w.(house := w.house.(book := after)) else w
    case SetBudget(t, limit) => w.(house := w.house.(book := Budgeted(w.house.book, t, limit)))
    case AddRate(rate) =>
      var k := Key(rate.provider, rate.model);
      w.(house := w.house.(rates := w.house.rates[k := Added(ListIn(w.house.rates, k), rate)]))
    case SetSwitches(all, ts, ps) =>
      w.(house := w.house.(engine := w.house.engine.(killAll := all, killTenant := ts, killProvider := ps)))
  }

  function JudgedIn(w: World, i: nat, o: Outcome): World
    requires Ready(w, i) && w.flights[i].stage.Priced?
  {
    Moved(w, i, w.house.(engine := o.engine, book := o.book),
          Answered(w.flights[i].call, w.flights[i].stage.rate, o.decision))
  }

  function ConcludedIn(w: World, i: nat): World
    requires Ready(w, i) && w.flights[i].stage.Returned? && w.flights[i].held.Holds?
  {
    var f := w.flights[i];
    var how := Reconcile(Cost(f.stage.rate, f.stage.used));
    Moved(w, i, w.house.(book := CloseIn(w.house.book, f.held.id, how)),
          Concluded(f.call, f.stage.rate, f.stage.used, f.held.id, ReplyIn(w.house.book, f.held.id, how)))
  }

  function Appended(w: World, i: nat): World
    requires i in w.flights && w.flights[i].pending != []
  {
    var f := w.flights[i];
    World(Logged(w.house, [f.pending[0]]), w.flights[i := f.(pending := f.pending[1..])])
  }

  ghost function Run(p: Policy, w: World, steps: seq<Step>): World
    requires PolicyOk(p)
  {
    if steps == [] then w else Apply(p, Run(p, w, steps[..|steps| - 1]), steps[|steps| - 1])
  }

  // ---------- what every state keeps ----------

  predicate Sane(r: Rate) {
    r.input >= 0 && r.output >= 0 && r.fee >= 0
  }

  ghost predicate SaneRates(rates: map<Key, seq<Rate>>) {
    forall k, i :: k in rates && 0 <= i < |rates[k]| ==> Sane(rates[k][i])
  }

  /** Neither opens nor closes anything in the log. */
  predicate Plain(e: Event) {
    !Closes(e) && e.kind != RESERVATION_CREATED
  }

  predicate Owes(f: Flight, k: Kind) {
    f.pending != [] && f.pending[0].kind == k
  }

  /** Only the first event in the queue can be about money. */
  predicate Queue(f: Flight) {
    && (forall k :: 0 <= k < |f.pending| ==> f.pending[k].tenant == f.call.tenant)
    && (forall k :: 0 < k < |f.pending| ==> Plain(f.pending[k]))
  }

  predicate OpenAt(v: View, x: string, amount: int) {
    x in v.open && v.open[x] == amount
  }

  predicate PaidAt(v: View, x: string, actual: int) {
    x in v.paid && v.paid[x] == actual
  }

  /** The log's view of x agrees with reservation r, except that it cannot know of an expiry. */
  predicate Told(v: View, x: string, r: Reservation) {
    && x in v.created
    && (x in v.open ==> v.open[x] == r.amount)
    && (r.state == RESERVED ==> x in v.open)
    && (x in v.open ==> r.state == RESERVED || r.state == EXPIRED)
    && (if r.state == RECONCILED then PaidAt(v, x, r.actual) else x !in v.paid)
  }

  /** How the log lags behind reservation r, held by flight f: by the one money event f has yet to append. */
  predicate Lags(f: Flight, r: Reservation, v: View)
    requires f.held.Holds?
  {
    var x := f.held.id;
    if Owes(f, RESERVATION_CREATED) then
      && f.pending[0].reservation == x && f.pending[0].amount == r.amount
      && x !in v.created && (r.state == RESERVED || r.state == EXPIRED)
      && (f.stage.Running? || f.stage.Over?)
    else if Owes(f, RESERVATION_RELEASED) then
      && f.pending[0].reservation == x && x in v.created && OpenAt(v, x, r.amount) && x !in v.paid
      && (r.state == RELEASED || r.state == EXPIRED) && f.stage.Over?
    else if Owes(f, COST_RECONCILED) then
      && f.pending[0].reservation == x && f.pending[0].amount == r.actual
      && x in v.created && OpenAt(v, x, r.amount) && x !in v.paid
      && r.state == RECONCILED && f.stage.Reconciled?
    else
      && Told(v, x, r)
      && (f.stage.Running? || f.stage.Returned? ==> x in v.open)
  }

  predicate HasRate(s: Stage) {
    !s.Arrived? && !s.Over?
  }

  /** Estimate and actual are priced with the one rate found when the request arrived. */
  predicate OneRate(f: Flight, r: Reservation) {
    && (HasRate(f.stage) ==> r.amount == Cost(f.stage.rate, f.call.units))
    && (f.stage.Reconciled? || f.stage.Recorded? ==> r.state == RECONCILED && r.actual == Cost(f.stage.rate, f.stage.used))
  }

  predicate FlightOk(f: Flight, m: map<string, Reservation>, v: View) {
    && Queue(f)
    && (HasRate(f.stage) ==> Sane(f.stage.rate))
    && match f.held
       case Nothing =>
         && (f.stage.Arrived? || f.stage.Priced? || f.stage.Over?)
         && (f.pending != [] ==> Plain(f.pending[0]))
       case Holds(x) =>
         && !f.stage.Arrived? && !f.stage.Priced?
         && x in m && m[x].tenant == f.call.tenant
         && Lags(f, m[x], v) && OneRate(f, m[x])
  }

  /** The log names only reservations that were made for the tenant. */
  predicate Names(v: View, m: map<string, Reservation>, t: string) {
    && (forall x :: x in v.created ==> x in m && m[x].tenant == t)
    && v.open.Keys <= v.created && v.paid.Keys <= v.created
  }

  ghost predicate FlightAt(w: World, i: nat)
    requires i in w.flights
  {
    FlightOk(w.flights[i], w.house.book.reservations, ViewOf(w.house.log, w.flights[i].call.tenant))
  }

  ghost predicate TenantAt(w: World, t: string) {
    Tidy(w.house.log, t) && Names(ViewOf(w.house.log, t), w.house.book.reservations, t)
  }

  ghost predicate Apart(w: World, i: nat, j: nat)
    requires i in w.flights && j in w.flights
  {
    w.flights[i].held.Holds? ==> w.flights[i].held != w.flights[j].held
  }

  ghost predicate Owned(w: World, x: string) {
    exists i :: i in w.flights && w.flights[i].held == Holds(x)
  }

  ghost predicate Inv(w: World) {
    && BookInv(w.house.book)
    && SaneRates(w.house.rates)
    && (forall i :: i in w.flights ==> FlightAt(w, i))
    && (forall i, j :: i in w.flights && j in w.flights && i != j ==> Apart(w, i, j))
    && (forall x :: x in w.house.book.reservations ==> Owned(w, x))
    && (forall t :: TenantAt(w, t))
  }

  // ---------- one flight acts, the log does not grow ----------

  /** The reservations after flight i acted: only its own may be new or different. */
  ghost predicate OnlyOwn(w: World, m: map<string, Reservation>, held: Held) {
    var m0 := w.house.book.reservations;
    && (forall x :: x in m0 ==> x in m && (m[x] == m0[x] || (held == Holds(x) && m[x].tenant == m0[x].tenant)))
    && (forall x :: x in m ==> x in m0 || held == Holds(x))
  }

  /** Nobody else holds what the acting flight holds now. */
  ghost predicate Sole(w: World, i: nat, held: Held) {
    forall j :: j in w.flights && j != i && held.Holds? ==> w.flights[j].held != held
  }

  lemma NewHoldIsSole(w: World, i: nat, held: Held)
    requires Inv(w) && i in w.flights
    requires held != w.flights[i].held && held.Holds? ==> held.id !in w.house.book.reservations
    ensures Sole(w, i, held)
  {
    forall j | j in w.flights && j != i && held.Holds? ensures w.flights[j].held != held {
      assert FlightAt(w, j) && Apart(w, i, j);
    }
  }

  lemma FlightFramed(f: Flight, m: map<string, Reservation>, m': map<string, Reservation>, v: View)
    requires FlightOk(f, m, v)
    requires f.held.Holds? ==> f.held.id in m' && m'[f.held.id] == m[f.held.id]
    ensures FlightOk(f, m', v)
  {
  }

  lemma NamesFramed(v: View, m: map<string, Reservation>, m': map<string, Reservation>, t: string)
    requires Names(v, m, t) && forall x :: x in m ==> x in m' && m'[x].tenant == m[x].tenant
    ensures Names(v, m', t)
  {
  }

  lemma HoldsKept(w: World, w': World, i: nat)
    requires Inv(w) && i in w.flights && i in w'.flights && w'.flights == w.flights[i := w'.flights[i]]
    requires Sole(w, i, w'.flights[i].held) && (w.flights[i].held.Holds? ==> w'.flights[i].held == w.flights[i].held)
    requires forall x :: x in w'.house.book.reservations ==>
               x in w.house.book.reservations || w'.flights[i].held == Holds(x)
    ensures forall j, k :: j in w'.flights && k in w'.flights && j != k ==> Apart(w', j, k)
    ensures forall x :: x in w'.house.book.reservations ==> Owned(w', x)
  {
    forall j, k | j in w'.flights && k in w'.flights && j != k ensures Apart(w', j, k) {
      assert Apart(w, j, k);
    }
    forall x | x in w'.house.book.reservations ensures Owned(w', x) {
      if w'.flights[i].held != Holds(x) {
        assert Owned(w, x);
        var j :| j in w.flights && w.flights[j].held == Holds(x);
        assert j in w'.flights && w'.flights[j].held == Holds(x);
      }
    }
  }

  lemma ActionKeeps(w: World, i: nat, h: House, f: Flight)
    requires Inv(w) && i in w.flights && BookInv(h.book) && h.rates == w.house.rates && h.log == w.house.log
    requires OnlyOwn(w, h.book.reservations, f.held)
    requires var f0 := w.flights[i];
             && (f0.held.Holds? ==> f.held == f0.held)
             && (f.held.Holds? && f.held != f0.held ==> f.held.id !in w.house.book.reservations)
    requires FlightOk(f, h.book.reservations, ViewOf(h.log, f.call.tenant))
    ensures Inv(World(h, w.flights[i := f]))
  {
    var w' := World(h, w.flights[i := f]);
    var m, m' := w.house.book.reservations, h.book.reservations;
    NewHoldIsSole(w, i, f.held);
    HoldsKept(w, w', i);
    forall j | j in w'.flights ensures FlightAt(w', j) {
      if j != i {
        assert FlightAt(w, j);
        FlightFramed(w.flights[j], m, m', ViewOf(h.log, w.flights[j].call.tenant));
      }
    }
    forall t ensures TenantAt(w', t) {
      assert TenantAt(w, t);
      NamesFramed(ViewOf(h.log, t), m, m', t);
    }
  }

  lemma {:induction false} FoundIsListed(list: seq<Rate>, now: real)
    requires RateIn(list, now).Found? && forall i :: 0 <= i < |list| ==> Sane(list[i])
    ensures Sane(RateIn(list, now).rate)
    decreases |list|
  {
    if !ActiveAt(list[0], now) {
      FoundIsListed(list[1..], now);
    }
  }

  lemma LookUpKeeps(w: World, i: nat, now: real)
    requires Inv(w) && Ready(w, i) && w.flights[i].stage.Arrived?
    ensures Inv(Moved(w, i, w.house, LookedUp(w.house.rates, w.flights[i].call, now)))
  {
    var f := w.flights[i];
    var m := LookedUp(w.house.rates, f.call, now);
    assert FlightAt(w, i);
    if m.stage.Priced? {
      FoundIsListed(ListIn(w.house.rates, Key(f.call.provider, f.call.model)), now);
    }
    ActionKeeps(w, i, w.house, Flight(f.call, m.stage, m.held, m.events));
  }

  lemma RecordKeeps(w: World, i: nat, e: Engine)
    requires Inv(w) && Ready(w, i) && w.flights[i].stage.Reconciled?
    ensures var f := w.flights[i];
            Inv(Moved(w, i, w.house.(engine := e), Move(Recorded(f.stage.rate, f.stage.used), f.held, [])))
  {
    var f := w.flights[i];
    assert FlightAt(w, i);
    ActionKeeps(w, i, w.house.(engine := e), Flight(f.call, Recorded(f.stage.rate, f.stage.used), f.held, []));
  }

  function FlightAfter(call: Call, m: Move): Flight {
    Flight(call, m.stage, m.held, m.events)
  }

  /** The move of a decision that granted reservation r. */
  predicate Grants(call: Call, rate: Rate, r: Reservation, m: Move) {
    && r.tenant == call.tenant && r.amount == Cost(rate, call.units) && r.state == RESERVED
    && (m.stage == Running(rate) || m.stage.Over?)
    && m.held == Holds(r.id) && |m.events| == 2
    && m.events[0] == About(call, RESERVATION_CREATED, r.id, r.amount)
    && m.events[1].tenant == call.tenant && Plain(m.events[1])
  }

  lemma GrantedFlight(call: Call, rate: Rate, r: Reservation, m: Move, rs: map<string, Reservation>, v: View)
    requires Sane(rate) && Grants(call, rate, r, m) && r.id !in v.created && r.id in rs && rs[r.id] == r
    ensures FlightOk(FlightAfter(call, m), rs, v)
  {
    var f := FlightAfter(call, m);
    assert Owes(f, RESERVATION_CREATED) && Queue(f);
  }

  lemma BeforeGrant(w: World, i: nat, x: string)
    requires Inv(w) && i in w.flights && w.flights[i].stage.Priced? && x !in w.house.book.reservations
    ensures w.flights[i].held == Nothing && Sane(w.flights[i].stage.rate)
    ensures x !in ViewOf(w.house.log, w.flights[i].call.tenant).created
  {
    assert FlightAt(w, i) && TenantAt(w, w.flights[i].call.tenant);
  }

  lemma GrantedOwn(w: World, r: Reservation, m: map<string, Reservation>)
    requires r.id !in w.house.book.reservations && m == w.house.book.reservations[r.id := r]
    ensures OnlyOwn(w, m, Holds(r.id)) && r.id in m && m[r.id] == r
  {
  }

  lemma GrantKeeps(w: World, i: nat, h: House, r: Reservation, m: Move)
    requires Inv(w) && Ready(w, i) && w.flights[i].stage.Priced?
    requires h.rates == w.house.rates && h.log == w.house.log && BookInv(h.book)
    requires r.id !in w.house.book.reservations && h.book.reservations == w.house.book.reservations[r.id := r]
    requires Grants(w.flights[i].call, w.flights[i].stage.rate, r, m)
    ensures Inv(Moved(w, i, h, m))
  {
    var f := w.flights[i];
    BeforeGrant(w, i, r.id);
    GrantedOwn(w, r, h.book.reservations);
    GrantedFlight(f.call, f.stage.rate, r, m, h.book.reservations, ViewOf(h.log, f.call.tenant));
    ActionKeeps(w, i, h, FlightAfter(f.call, m));
  }

  predicate Granting(d: Decision) {
    d.action == ALLOW || d.action == THROTTLE
  }

  /** What an Evaluate for req may do to books b: file the fresh reservation r, or nothing. */
  ghost predicate Files(b: Book, req: Request, o: Outcome, r: Reservation) {
    if Granting(o.decision) then
      && r.tenant == req.tenant && r.amount == req.cost && r.state == RESERVED && r.actual == 0 && !r.reconciled
      && r.id != "" && !Drawn(r.id, b.issued) && Drawn(r.id, b.issued + 1)
      && o.book == Filing(Opened(b, req.tenant), r) && o.decision.reservation == r.id
    else SameMoney(b, o.book)
  }

  lemma DecisionFiles(p: Policy, e: Engine, b: Book, req: Request, now: real, stamp: string) returns (r: Reservation)
    requires PolicyOk(p) && Evaluate(p, e, b, req, now, stamp).book.issued < U64
    ensures Files(b, req, Evaluate(p, e, b, req, now, stamp), r)
  {
    var o := Evaluate(p, e, b, req, now, stamp);
    DecisionAndBooks(p, e, b, req, now, stamp);
    r := OutcomeFiles(b, req, p.ttl, o, now, stamp);
  }

  lemma OutcomeFiles(b: Book, req: Request, ttl: real, o: Outcome, now: real, stamp: string) returns (r: Reservation)
    requires o.book.issued < U64
    requires if Granting(o.decision)
             then o.book == Granted(Opened(b, req.tenant), req.tenant, req.cost, ttl, now, stamp)
                  && o.decision.reservation == Id(stamp, b.issued + 1)
             else SameMoney(b, o.book)
    ensures Files(b, req, o, r)
  {
    r := Fresh(Id(stamp, b.issued + 1), req.tenant, req.cost, now, ttl);
    if Granting(o.decision) {
      NextIsNew(stamp, b.issued);
      IdIsNotEmpty(stamp, b.issued + 1);
    }
  }

  lemma JudgeKeeps(p: Policy, w: World, i: nat, now: real, stamp: string)
    requires PolicyOk(p) && Inv(w) && Ready(w, i) && w.flights[i].stage.Priced?
    requires var f := w.flights[i];
             Evaluate(p, w.house.engine, w.house.book, RequestOf(f.call, f.stage.rate), now, stamp).book.issued < U64
    ensures var f := w.flights[i];
            Inv(JudgedIn(w, i, Evaluate(p, w.house.engine, w.house.book, RequestOf(f.call, f.stage.rate), now, stamp)))
  {
    var req := RequestOf(w.flights[i].call, w.flights[i].stage.rate);
    var r := DecisionFiles(p, w.house.engine, w.house.book, req, now, stamp);
    JudgedInKeeps(w, i, Evaluate(p, w.house.engine, w.house.book, req, now, stamp), r);
  }

  lemma JudgedInKeeps(w: World, i: nat, o: Outcome, r: Reservation)
    requires Inv(w) && Ready(w, i) && w.flights[i].stage.Priced?
    requires Files(w.house.book, RequestOf(w.flights[i].call, w.flights[i].stage.rate), o, r)
    ensures Inv(JudgedIn(w, i, o))
  {
    var f, b := w.flights[i], w.house.book;
    var h, m := w.house.(engine := o.engine, book := o.book), Answered(f.call, f.stage.rate, o.decision);
    assert FlightAt(w, i);
    if o.decision.action == ALLOW || o.decision.action == THROTTLE {
      EstimateMonotone(f.stage.rate, f.call.units.input, f.call.units.output, f.call.units.input, f.call.units.output);
      OpenedKeeps(b, f.call.tenant);
      FilingKeeps(Opened(b, f.call.tenant), r);
      GrantKeeps(w, i, h, r, m);
    } else {
      AccountsOnly(b, o.book);
      ActionKeeps(w, i, h, FlightAfter(f.call, m));
    }
  }

  lemma ClosedOwn(w: World, x: string, how: Closing)
    ensures OnlyOwn(w, CloseIn(w.house.book, x, how).reservations, Holds(x))
  {
  }

  lemma ExecutedFlight(f: Flight, b: Book, v: View, provided: Provided)
    requires FlightOk(f, b.reservations, v) && f.pending == [] && f.stage.Running? && f.held.Holds?
    ensures FlightOk(FlightAfter(f.call, Executed(f.call, f.stage.rate, f.held.id, provided)),
                     BookAfterExecution(b, f.held.id, provided).reservations, v)
  {
    var f' := FlightAfter(f.call, Executed(f.call, f.stage.rate, f.held.id, provided));
    assert Queue(f');
    assert !provided.Returns? ==> Owes(f', RESERVATION_RELEASED);
  }

  lemma ExecuteKeeps(w: World, i: nat, provided: Provided)
    requires Inv(w) && Ready(w, i) && w.flights[i].stage.Running? && w.flights[i].held.Holds?
    ensures var f := w.flights[i];
            Inv(Moved(w, i, w.house.(book := BookAfterExecution(w.house.book, f.held.id, provided)),
                      Executed(f.call, f.stage.rate, f.held.id, provided)))
  {
    var f, b := w.flights[i], w.house.book;
    var b' := BookAfterExecution(b, f.held.id, provided);
    assert FlightAt(w, i);
    ExecutedFlight(f, b, ViewOf(w.house.log, f.call.tenant), provided);
    CloseInKeeps(b, f.held.id, Release);
    ClosedOwn(w, f.held.id, Release);
    ActionKeeps(w, i, w.house.(book := b'), FlightAfter(f.call, Executed(f.call, f.stage.rate, f.held.id, provided)));
  }

  lemma ConcludedFlight(f: Flight, b: Book, v: View)
    requires FlightOk(f, b.reservations, v) && f.pending == [] && f.stage.Returned? && f.held.Holds?
    requires WellFormed(f.held.id, b.reservations[f.held.id])
    ensures var how := Reconcile(Cost(f.stage.rate, f.stage.used));
            FlightOk(FlightAfter(f.call, Concluded(f.call, f.stage.rate, f.stage.used, f.held.id, ReplyIn(b, f.held.id, how))),
                     CloseIn(b, f.held.id, how).reservations, v)
  {
    var how := Reconcile(Cost(f.stage.rate, f.stage.used));
    var reply := ReplyIn(b, f.held.id, how);
    var f' := FlightAfter(f.call, Concluded(f.call, f.stage.rate, f.stage.used, f.held.id, reply));
    assert Queue(f');
    assert reply.Settled? ==> Owes(f', COST_RECONCILED);
  }

  lemma ConcludeKeeps(w: World, i: nat)
    requires Inv(w) && Ready(w, i) && w.flights[i].stage.Returned? && w.flights[i].held.Holds?
    ensures Inv(ConcludedIn(w, i))
  {
    var f, b := w.flights[i], w.house.book;
    var x, used := f.held.id, f.stage.used;
    var how := Reconcile(Cost(f.stage.rate, used));
    assert FlightAt(w, i) && Filed(b, x);
    ConcludedFlight(f, b, ViewOf(w.house.log, f.call.tenant));
    EstimateMonotone(f.stage.rate, used.input, used.output, used.input, used.output);
    CloseInKeeps(b, x, how);
    ClosedOwn(w, x, how);
    ActionKeeps(w, i, w.house.(book := CloseIn(b, x, how)),
                FlightAfter(f.call, Concluded(f.call, f.stage.rate, used, x, ReplyIn(b, x, how))));
  }

  // ---------- one event is appended ----------

  lemma OneMore(log: seq<Event>, e: Event, t: string)
    ensures ViewOf(log + [e], t) == if e.tenant == t then Noted(ViewOf(log, t), e) else ViewOf(log, t)
    ensures Tidy(log + [e], t) <==> Tidy(log, t) && (e.tenant == t ==> Follows(ViewOf(log, t), e))
  {
    assert (log + [e])[..|log|] == log;
  }

  /** An event about nothing, or about another reservation, does not change what the log tells a flight. */
  lemma NotedElsewhere(f: Flight, m: map<string, Reservation>, v: View, e: Event)
    requires FlightOk(f, m, v) && (Plain(e) || f.held != Holds(e.reservation))
    ensures FlightOk(f, m, Noted(v, e))
  {
  }

  /** Appending the head of the queue brings the log up to date with the flight's reservation. */
  lemma NotedOwn(f: Flight, m: map<string, Reservation>, v: View)
    requires FlightOk(f, m, v) && f.pending != [] && Names(v, m, f.call.tenant)
    ensures FlightOk(f.(pending := f.pending[1..]), m, Noted(v, f.pending[0]))
    ensures Follows(v, f.pending[0]) && Names(Noted(v, f.pending[0]), m, f.call.tenant)
  {
    var f' := f.(pending := f.pending[1..]);
    assert Queue(f');
    assert f'.pending != [] ==> Plain(f'.pending[0]) by {
      assert f'.pending != [] ==> f'.pending[0] == f.pending[1];
    }
  }

  lemma AppendKeeps(w: World, i: nat)
    requires Inv(w) && i in w.flights && w.flights[i].pending != []
    ensures Inv(Appended(w, i))
  {
    var w', f, m := Appended(w, i), w.flights[i], w.house.book.reservations;
    var e := f.pending[0];
    assert FlightAt(w, i) && TenantAt(w, f.call.tenant);
    NotedOwn(f, m, ViewOf(w.house.log, f.call.tenant));
    NewHoldIsSole(w, i, f.held);
    HoldsKept(w, w', i);
    forall j | j in w'.flights ensures FlightAt(w', j) {
      assert FlightAt(w, j);
      OneMore(w.house.log, e, w.flights[j].call.tenant);
      if j != i {
        assert Apart(w, i, j);
        NotedElsewhere(w.flights[j], m, ViewOf(w.house.log, w.flights[j].call.tenant), e);
      }
    }
    forall t ensures TenantAt(w', t) {
      assert TenantAt(w, t);
      OneMore(w.house.log, e, t);
    }
  }

  // ---------- the other steps ----------

  lemma ArriveKeeps(w: World, i: nat, call: Call)
    requires Inv(w) && i !in w.flights
    ensures Inv(w.(flights := w.flights[i := Flight(call, Arrived, Nothing, [])]))
  {
    var w' := w.(flights := w.flights[i := Flight(call, Arrived, Nothing, [])]);
    forall j | j in w'.flights ensures FlightAt(w', j) {
      assert j != i ==> FlightAt(w, j);
    }
    forall j, k | j in w'.flights && k in w'.flights && j != k ensures Apart(w', j, k) {
      assert j != i && k != i ==> Apart(w, j, k);
    }
    forall x | x in w'.house.book.reservations ensures Owned(w', x) {
      assert Owned(w, x);
      var j :| j in w.flights && w.flights[j].held == Holds(x);
      assert j in w'.flights && w'.flights[j].held == Holds(x);
    }
    forall t ensures TenantAt(w', t) {
      assert TenantAt(w, t);
    }
  }

  /** All that a sweep does to a reservation. */
  predicate Ages(r: Reservation, r': Reservation) {
    r' == r || (r.state == RESERVED && r' == r.(state := EXPIRED))
  }

  lemma AgedFlight(f: Flight, m: map<string, Reservation>, m': map<string, Reservation>, v: View)
    requires FlightOk(f, m, v) && (f.held.Holds? ==> f.held.id in m' && Ages(m[f.held.id], m'[f.held.id]))
    ensures FlightOk(f, m', v)
  {
  }

  lemma HoldersUnchanged(w: World, h: House)
    requires Inv(w) && h.book.reservations.Keys == w.house.book.reservations.Keys
    ensures var w' := w.(house := h);
            && (forall j, k :: j in w'.flights && k in w'.flights && j != k ==> Apart(w', j, k))
            && (forall x :: x in w'.house.book.reservations ==> Owned(w', x))
  {
    var w' := w.(house := h);
    forall j, k | j in w'.flights && k in w'.flights && j != k ensures Apart(w', j, k) {
      assert Apart(w, j, k);
    }
    forall x | x in w'.house.book.reservations ensures Owned(w', x) {
      assert x in w.house.book.reservations && Owned(w, x);
      var j :| j in w.flights && w.flights[j].held == Holds(x);
      assert j in w'.flights && w'.flights[j].held == Holds(x);
    }
  }

  /** A change of budgets, rates or switches between requests. */
  lemma HouseKeeps(w: World, h: House)
    requires Inv(w) && BookInv(h.book) && SaneRates(h.rates) && h.log == w.house.log
    requires h.book.reservations == w.house.book.reservations
    ensures Inv(w.(house := h))
  {
    HoldersUnchanged(w, h);
    var w' := w.(house := h);
    forall j | j in w'.flights ensures FlightAt(w', j) {
      assert FlightAt(w, j);
    }
    forall t ensures TenantAt(w', t) {
      assert TenantAt(w, t);
    }
  }

  lemma AgedAt(w: World, b: Book, j: nat)
    requires j in w.flights && FlightAt(w, j) && b.reservations.Keys == w.house.book.reservations.Keys
    requires forall x :: x in b.reservations ==> Ages(w.house.book.reservations[x], b.reservations[x])
    ensures FlightAt(w.(house := w.house.(book := b)), j)
  {
    AgedFlight(w.flights[j], w.house.book.reservations, b.reservations, ViewOf(w.house.log, w.flights[j].call.tenant));
  }

  lemma AgedLog(w: World, b: Book, t: string)
    requires TenantAt(w, t) && b.reservations.Keys == w.house.book.reservations.Keys
    requires forall x :: x in b.reservations ==> Ages(w.house.book.reservations[x], b.reservations[x])
    ensures TenantAt(w.(house := w.house.(book := b)), t)
  {
    NamesFramed(ViewOf(w.house.log, t), w.house.book.reservations, b.reservations, t);
  }

  lemma AgingKeeps(w: World, b: Book)
    requires Inv(w) && BookInv(b) && b.reservations.Keys == w.house.book.reservations.Keys
    requires forall x :: x in b.reservations ==> Ages(w.house.book.reservations[x], b.reservations[x])
    ensures Inv(w.(house := w.house.(book := b)))
  {
    var w' := w.(house := w.house.(book := b));
    HoldersUnchanged(w, w'.house);
    forall j | j in w'.flights ensures FlightAt(w', j) {
      AgedAt(w, b, j);
    }
    forall t ensures TenantAt(w', t) {
      AgedLog(w, b, t);
    }
  }

  lemma SweepKeeps(w: World, b: Book, now: real)
    requires Inv(w) && SweptTo(w.house.book, b, now)
    ensures Inv(w.(house := w.house.(book := b)))
  {
    SweptKeeps(w.house.book, b, now);
    AgingKeeps(w, b);
  }

  lemma AddedSane(list: seq<Rate>, rate: Rate)
    requires Sane(rate) && forall i :: 0 <= i < |list| ==> Sane(list[i])
    ensures forall i :: 0 <= i < |Added(list, rate)| ==> Sane(Added(list, rate)[i])
  {
  }

  ghost predicate SaneStep(s: Step) {
    s.AddRate? ==> Sane(s.rate)
  }

  lemma StepKeepsInv(p: Policy, w: World, s: Step)
    requires PolicyOk(p) && Inv(w) && SaneStep(s) && Apply(p, w, s).house.book.issued < U64
    ensures Inv(Apply(p, w, s))
  {
    match s
    case Arrive(i, call) => if i !in w.flights { ArriveKeeps(w, i, call); }
    case LookUp(i, now) => if Ready(w, i) && w.flights[i].stage.Arrived? { LookUpKeeps(w, i, now); }
    case Judge(i, now, stamp) => if Ready(w, i) && w.flights[i].stage.Priced? { JudgeKeeps(p, w, i, now, stamp); }
    case Execute(i, provided) =>
      if Ready(w, i) && w.flights[i].stage.Running? && w.flights[i].held.Holds? { ExecuteKeeps(w, i, provided); }
    case Conclude(i) =>
      if Ready(w, i) && w.flights[i].stage.Returned? && w.flights[i].held.Holds? { ConcludeKeeps(w, i); }
    case Record(i, now) =>
      if Ready(w, i) && w.flights[i].stage.Reconciled? {
        var f := w.flights[i];
        RecordKeeps(w, i, Used(p, w.house.engine, f.call.tenant, now, Cost(f.stage.rate, f.stage.used)));
      }
    case Append(i) => if i in w.flights && w.flights[i].pending != [] { AppendKeeps(w, i); }
    case ExpireStale(now, after) =>
      if SweptTo(w.house.book, after, now) {
        SweepKeeps(w, after, now);
      }
    case SetBudget(t, limit) =>
      BudgetedKeeps(w.house.book, t, limit);
      HouseKeeps(w, w.house.(book := Budgeted(w.house.book, t, limit)));
    case AddRate(rate) =>
      var k := Key(rate.provider, rate.model);
      AddedSane(ListIn(w.house.rates, k), rate);
      HouseKeeps(w, w.house.(rates := w.house.rates[k := Added(ListIn(w.house.rates, k), rate)]));
    case SetSwitches(all, ts, ps) =>
      HouseKeeps(w, w.house.(engine := w.house.engine.(killAll := all, killTenant := ts, killProvider := ps)));
  }

  /** The id counter only moves forward. */
  lemma IssuedGrows(p: Policy, w: World, s: Step)
    requires PolicyOk(p)
    ensures w.house.book.issued <= Apply(p, w, s).house.book.issued
  {
    if s.Judge? && Ready(w, s.i) && w.flights[s.i].stage.Priced? {
      var f := w.flights[s.i];
      DecisionAndBooks(p, w.house.engine, w.house.book, RequestOf(f.call, f.stage.rate), s.now, s.stamp);
    }
  }

  ghost predicate SaneSteps(steps: seq<Step>) {
    forall k :: 0 <= k < |steps| ==> SaneStep(steps[k])
  }

  /** Fewer than 2^64 ids have been drawn when these steps are done. */
  ghost predicate IdsLast(p: Policy, w: World, steps: seq<Step>)
    requires PolicyOk(p)
  {
    Run(p, w, steps).house.book.issued < U64
  }

  lemma IdsLastedBefore(p: Policy, w: World, steps: seq<Step>)
    requires PolicyOk(p) && steps != [] && IdsLast(p, w, steps)
    ensures IdsLast(p, w, steps[..|steps| - 1])
  {
    IssuedGrows(p, Run(p, w, steps[..|steps| - 1]), steps[|steps| - 1]);
  }

  lemma {:induction false} RunKeepsInv(p: Policy, w: World, steps: seq<Step>)
    requires PolicyOk(p) && Inv(w) && SaneSteps(steps) && IdsLast(p, w, steps)
    ensures Inv(Run(p, w, steps))
    decreases |steps|
  {
    if steps != [] {
      var init := steps[..|steps| - 1];
      IdsLastedBefore(p, w, steps);
      RunKeepsInv(p, w, init);
      StepKeepsInv(p, Run(p, w, init), steps[|steps| - 1]);
    }
  }

  // ---------- replaying the log gives the accounts ----------

  function AmountOf(): Reservation -> int {
    (r: Reservation) => r.amount
  }

  function ActualOf(): Reservation -> int {
    (r: Reservation) => r.actual
  }

  /** Reservations the log still shows open though the books no longer hold them. */
  function Late(m: map<string, Reservation>, open: map<string, int>): map<string, Reservation> {
    map x | x in open && x in m && m[x].state != RESERVED :: m[x]
  }

  /** Reservations of t that the books hold though the log does not show them yet. */
  function Early(m: map<string, Reservation>, open: map<string, int>, t: string): map<string, Reservation> {
    map x | x in m && x !in open && m[x].tenant == t && m[x].state == RESERVED :: m[x]
  }

  /** Reservations of t that are reconciled in the books and not yet in the log. */
  function Unpaid(m: map<string, Reservation>, paid: map<string, int>, t: string): map<string, Reservation> {
    map x | x in m && x !in paid && m[x].tenant == t && m[x].state == RECONCILED :: m[x]
  }

  /** Reservations of t that the books or the log have open. */
  function Either(m: map<string, Reservation>, open: map<string, int>, t: string): map<string, Reservation> {
    map x | x in m && m[x].tenant == t && (m[x].state == RESERVED || x in open) :: m[x]
  }

  lemma EitherByLog(m: map<string, Reservation>, open: map<string, int>, t: string)
    requires forall x :: x in open ==> x in m && m[x].tenant == t && open[x] == m[x].amount
    ensures Total(Either(m, open, t), AmountOf()) == Total(open, Self()) + Total(Early(m, open, t), AmountOf())
  {
    var u := Either(m, open, t);
    Parts(u, open.Keys, AmountOf());
    assert u - open.Keys == Early(m, open, t);
    Bridge(open, u - (u.Keys - open.Keys), Self(), AmountOf());
  }

  lemma EitherByBooks(m: map<string, Reservation>, open: map<string, int>, t: string)
    requires forall x :: x in open ==> x in m && m[x].tenant == t && open[x] == m[x].amount
    ensures Total(Either(m, open, t), AmountOf()) == Total(m, HeldBy(t)) + Total(Late(m, open), AmountOf())
  {
    var u := Either(m, open, t);
    var held := set x | x in m && m[x].state == RESERVED;
    Parts(u, held, AmountOf());
    assert u - held == Late(m, open);
    Bridge(m, u - (u.Keys - held), HeldBy(t), AmountOf());
  }

  lemma PaidTotals(m: map<string, Reservation>, paid: map<string, int>, t: string)
    requires forall x :: x in paid ==> x in m && m[x].tenant == t && m[x].state == RECONCILED && paid[x] == m[x].actual
    ensures Total(paid, Self()) == Total(m, SettledBy(t)) - Total(Unpaid(m, paid, t), ActualOf())
  {
    var u := map x | x in m && m[x].tenant == t && m[x].state == RECONCILED :: m[x];
    Bridge(m, u, SettledBy(t), ActualOf());
    Parts(u, paid.Keys, ActualOf());
    assert u - paid.Keys == Unpaid(m, paid, t);
    Bridge(paid, u - (u.Keys - paid.Keys), Self(), ActualOf());
  }

  /** Some request has yet to append an event of kind k about reservation x. */
  ghost predicate Awaited(w: World, x: string, k: Kind) {
    exists i :: i in w.flights && w.flights[i].held == Holds(x) && Owes(w.flights[i], k)
  }

  /** What the log can be wrong about, for one reservation of tenant t. */
  ghost predicate Tells(w: World, t: string, x: string)
    requires x in w.house.book.reservations
  {
    var r, v := w.house.book.reservations[x], ViewOf(w.house.log, t);
    && (x in v.open ==> v.open[x] == r.amount)
    && (x in v.paid ==> r.state == RECONCILED && v.paid[x] == r.actual)
    && (r.state == RESERVED && x !in v.open ==> Awaited(w, x, RESERVATION_CREATED))
    && (r.state == RELEASED && x in v.open ==> Awaited(w, x, RESERVATION_RELEASED))
    && (r.state == RECONCILED && (x in v.open || x !in v.paid) ==> Awaited(w, x, COST_RECONCILED))
  }

  lemma LogTells(w: World, t: string, x: string)
    requires Inv(w) && x in w.house.book.reservations && w.house.book.reservations[x].tenant == t
    ensures Tells(w, t, x)
  {
    assert Owned(w, x) && TenantAt(w, t);
    var i :| i in w.flights && w.flights[i].held == Holds(x);
    assert FlightAt(w, i);
  }

  /** The reservations log and books disagree on at state w, for tenant t. */
  ghost function LateIn(w: World, t: string): map<string, Reservation> {
    Late(w.house.book.reservations, ViewOf(w.house.log, t).open)
  }

  ghost function EarlyIn(w: World, t: string): map<string, Reservation> {
    Early(w.house.book.reservations, ViewOf(w.house.log, t).open, t)
  }

  ghost function UnpaidIn(w: World, t: string): map<string, Reservation> {
    Unpaid(w.house.book.reservations, ViewOf(w.house.log, t).paid, t)
  }

  /** Every disagreement is an event still to be appended, or an expiry. */
  ghost predicate Accounted(w: World, t: string) {
    && (forall x :: x in EarlyIn(w, t) ==> Awaited(w, x, RESERVATION_CREATED))
    && (forall x :: x in UnpaidIn(w, t) ==> Awaited(w, x, COST_RECONCILED))
    && (forall x :: x in LateIn(w, t) ==>
          var r := w.house.book.reservations[x];
          && r.tenant == t
          && (r.state == EXPIRED || Awaited(w, x, if r.state == RELEASED then RESERVATION_RELEASED else COST_RECONCILED)))
  }

  lemma DifferencesAccounted(w: World, t: string)
    requires Inv(w)
    ensures Accounted(w, t)
  {
    var m := w.house.book.reservations;
    assert TenantAt(w, t);
    forall x | x in m && m[x].tenant == t ensures Tells(w, t, x) {
      LogTells(w, t, x);
    }
  }

  lemma TotalsAgree(b: Book, log: seq<Event>, t: string, v: View)
    requires v == ViewOf(log, t) && Tidy(log, t) && BalanceKept(b, t)
    requires forall x :: x in v.open ==> x in b.reservations && b.reservations[x].tenant == t && v.open[x] == b.reservations[x].amount
    requires forall x :: x in v.paid ==>
               x in b.reservations && b.reservations[x].tenant == t
               && b.reservations[x].state == RECONCILED && v.paid[x] == b.reservations[x].actual
    ensures Outstanding(ForTenant(log, t), {}) == BalanceOf(b, t).reserved
              + Total(Late(b.reservations, v.open), AmountOf()) - Total(Early(b.reservations, v.open, t), AmountOf())
    ensures Spent(ForTenant(log, t)) == BalanceOf(b, t).settled - Total(Unpaid(b.reservations, v.paid, t), ActualOf())
  {
    ReplaysAgree(log, t, {});
    assert v.open - {} == v.open;
    EitherByLog(b.reservations, v.open, t);
    EitherByBooks(b.reservations, v.open, t);
    PaidTotals(b.reservations, v.paid, t);
  }

  /** In every state of every run the replayed log and the account differ by exactly what is still to be appended. */
  lemma ReplayUpToPending(w: World, t: string)
    requires Inv(w)
    ensures var a, log := BalanceOf(w.house.book, t), ForTenant(w.house.log, t);
            && Outstanding(log, {}) == a.reserved + Total(LateIn(w, t), AmountOf()) - Total(EarlyIn(w, t), AmountOf())
            && Spent(log) == a.settled - Total(UnpaidIn(w, t), ActualOf())
    ensures Accounted(w, t)
  {
    var v, m := ViewOf(w.house.log, t), w.house.book.reservations;
    assert TenantAt(w, t) && BalanceKept(w.house.book, t);
    DifferencesAccounted(w, t);
    forall x | x in m && m[x].tenant == t ensures Tells(w, t, x) {
      LogTells(w, t, x);
    }
    TotalsAgree(w.house.book, w.house.log, t, v);
  }
}

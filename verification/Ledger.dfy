/** The append-only event log (internal/ledger/ledger.go) and what can be read back from it. */
module Ledger {
  import opened Digits
  import opened Totals

  datatype Kind =
    | REQUEST_ESTIMATED | RESERVATION_CREATED | REQUEST_ALLOWED | REQUEST_THROTTLED | REQUEST_BLOCKED
    | REQUEST_EXECUTED | REQUEST_FAILED | USAGE_REPORTED | COST_RECONCILED | RESERVATION_RELEASED

  function Name(k: Kind): string {
    match k
    case REQUEST_ESTIMATED => "REQUEST_ESTIMATED"
    case RESERVATION_CREATED => "RESERVATION_CREATED"
    case REQUEST_ALLOWED => "REQUEST_ALLOWED"
    case REQUEST_THROTTLED => "REQUEST_THROTTLED"
    case REQUEST_BLOCKED => "REQUEST_BLOCKED"
    case REQUEST_EXECUTED => "REQUEST_EXECUTED"
    case REQUEST_FAILED => "REQUEST_FAILED"
    case USAGE_REPORTED => "USAGE_REPORTED"
    case COST_RECONCILED => "COST_RECONCILED"
    case RESERVATION_RELEASED => "RESERVATION_RELEASED"
  }

  /** `reservation` is "" where the event names none. */
  datatype Event = Event(kind: Kind, tenant: string, request: string, reservation: string, amount: int)

  /** An event as filed: the ledger adds the id. */
  datatype Entry = Entry(id: string, event: Event)

  function ForTenant(log: seq<Event>, t: string): seq<Event> {
    if log == [] then []
    else
      var e := log[|log| - 1];
      ForTenant(log[..|log| - 1], t) + if e.tenant == t then [e] else []
  }

  // ---------- the ledger object ----------

  /** The n-th entry ever filed carries n in its id. */
  predicate Numbered(x: Entry, n: nat) {
    x.id == Id(Name(x.event.kind), n)
  }

  class EventLedger {
    var entries: seq<Entry>
    var seqNo: nat // 64 bits: wraps

    ghost predicate Valid()
      reads this
    {
      && seqNo == |entries| % U64
      && forall i :: 0 <= i < |entries| ==> Numbered(entries[i], i + 1)
    }

    ghost function Events(): (log: seq<Event>)
      reads this
      ensures |log| == |entries|
    {
      EventsOf(entries)
    }

    constructor ()
      ensures Valid() && entries == []
    {
      entries, seqNo := [], 0;
    }

    method Append(e: Event)
      requires Valid()
      modifies this
      ensures Valid() && Events() == old(Events()) + [e]
      ensures |entries| == |old(entries)| + 1 && entries[..|old(entries)|] == old(entries)
    {
      var id := NextId(e.kind);
      entries := entries + [Entry(id, e)];
    }

    /** Steps the counter; the id is the event type and the new count. */
    method NextId(k: Kind) returns (id: string)
      requires Valid()
      modifies this`seqNo
      ensures seqNo == (|entries| + 1) % U64
      ensures forall e: Event {:trigger Entry(id, e)} :: e.kind == k ==> Numbered(Entry(id, e), |entries| + 1)
    {
      ghost var n := |entries| + 1;
      CounterSteps(|entries|);
      seqNo := (seqNo + 1) % U64;
      var digits := Itoa(seqNo);
      id := Name(k) + "-" + digits;
      IdFromText(Name(k), n, digits);
    }

    /** Everything from index `from` on; a negative cursor means the start. */
    method Since(from: int) returns (out: seq<Entry>)
      requires Valid()
      ensures out == if from >= |entries| then [] else if from < 0 then entries else entries[from..]
    {
      var start := if from < 0 then 0 else from;
      if start >= |entries| {
        return [];
      }
      out := entries[start..];
    }

    method ForTenantEvents(t: string) returns (out: seq<Event>)
      requires Valid()
      ensures out == ForTenant(Events(), t)
    {
      out := [];
      for i := 0 to |entries|
        invariant out == ForTenant(Events()[..i], t)
      {
        assert Events()[..i + 1][..i] == Events()[..i];
        if entries[i].event.tenant == t {
          out := out + [entries[i].event];
        }
      }
      assert Events()[..|entries|] == Events();
    }
  }

  function EventsOf(entries: seq<Entry>): (log: seq<Event>)
    ensures |log| == |entries| && forall i :: 0 <= i < |log| ==> log[i] == entries[i].event
  {
    seq(|entries|, i requires 0 <= i < |entries| => entries[i].event)
  }

  lemma NumberedApart(x: Entry, i: nat, y: Entry, j: nat)
    requires Numbered(x, i) && Numbered(y, j) && i < j < i + U64
    ensures x.id != y.id
  {
    IdsDistinct(Name(x.event.kind), i, Name(y.event.kind), j);
  }

  /** Event ids never repeat within 2^64 appends, whatever the kinds. */
  lemma EntryIdsDistinct(l: EventLedger, i: nat, j: nat)
    requires l.Valid() && i < j < |l.entries| && j < i + U64
    ensures l.entries[i].id != l.entries[j].id
  {
    NumberedApart(l.entries[i], i + 1, l.entries[j], j + 1);
  }

  // ---------- one tenant's events ----------

  /** Every event of tenant t is kept, behind exactly its earlier ones. */
  lemma {:induction false} ForTenantKeeps(log: seq<Event>, t: string, i: nat)
    requires i < |log| && log[i].tenant == t
    ensures var k := |ForTenant(log[..i], t)|; k < |ForTenant(log, t)| && ForTenant(log, t)[k] == log[i]
    decreases |log|
  {
    var init := log[..|log| - 1];
    if i < |init| {
      ForTenantKeeps(init, t, i);
      assert log[..i] == init[..i];
    } else {
      assert log[..i] == init;
    }
  }

  /** The places of tenant t's events in a log. */
  function PlacesOf(log: seq<Event>, t: string): set<nat> {
    set i: nat | i < |log| && log[i].tenant == t
  }

  /** And nothing else is in the result. */
  lemma {:induction false} ForTenantOnly(log: seq<Event>, t: string)
    ensures |ForTenant(log, t)| == |PlacesOf(log, t)|
    ensures forall e :: e in ForTenant(log, t) ==> e.tenant == t && e in log
    decreases |log|
  {
    if log != [] {
      var n := |log| - 1;
      ForTenantOnly(log[..n], t);
      assert PlacesOf(log, t) == PlacesOf(log[..n], t) + if log[n].tenant == t then {n} else {};
    }
  }

  // ---------- replay ----------

  predicate Closes(e: Event) {
    e.kind == COST_RECONCILED || e.kind == RESERVATION_RELEASED
  }

  /**
   * Reading a log backwards: the sum of RESERVATION_CREATED amounts whose reservation has no later
   * COST_RECONCILED or RESERVATION_RELEASED. `closed` are the reservations already seen closing.
   */
  function Outstanding(log: seq<Event>, closed: set<string>): int
    decreases |log|
  {
    if log == [] then 0
    else
      var e, init := log[|log| - 1], log[..|log| - 1];
      if Closes(e) then Outstanding(init, closed + {e.reservation})
      else Outstanding(init, closed)
           + if e.kind == RESERVATION_CREATED && e.reservation !in closed then e.amount else 0
  }

  /** The sum of COST_RECONCILED amounts. */
  function Spent(log: seq<Event>): int {
    if log == [] then 0
    else Spent(log[..|log| - 1]) + if log[|log| - 1].kind == COST_RECONCILED then log[|log| - 1].amount else 0
  }

  /** The same log read forwards for one tenant: reservations still open, costs paid, and every id ever created. */
  datatype View = View(open: map<string, int>, paid: map<string, int>, created: set<string>)

  const BLANK := View(map[], map[], {})

  function Noted(v: View, e: Event): View {
    match e.kind
    case RESERVATION_CREATED => v.(open := v.open[e.reservation := e.amount], created := v.created + {e.reservation})
    case COST_RECONCILED => v.(open := v.open - {e.reservation}, paid := v.paid[e.reservation := e.amount])
    case RESERVATION_RELEASED => v.(open := v.open - {e.reservation})
    case _ => v
  }

  function ViewOf(log: seq<Event>, t: string): View {
    if log == [] then BLANK
    else
      var v := ViewOf(log[..|log| - 1], t);
      if log[|log| - 1].tenant == t then Noted(v, log[|log| - 1]) else v
  }

  /** An event that may follow view v: it does not create or pay a reservation a second time. */
  predicate Follows(v: View, e: Event) {
    && (e.kind == RESERVATION_CREATED ==> e.reservation !in v.created)
    && (e.kind == COST_RECONCILED ==> e.reservation !in v.paid)
  }

  /** No reservation is created or paid twice in tenant t's log. */
  predicate Tidy(log: seq<Event>, t: string) {
    log == [] ||
    (var e, init := log[|log| - 1], log[..|log| - 1];
     Tidy(init, t) && (e.tenant == t ==> Follows(ViewOf(init, t), e)))
  }

  function Self(): int -> int {
    (n: int) => n
  }

  lemma {:induction false} OpenAreCreated(log: seq<Event>, t: string)
    ensures ViewOf(log, t).open.Keys <= ViewOf(log, t).created
    decreases |log|
  {
    if log != [] {
      OpenAreCreated(log[..|log| - 1], t);
    }
  }

  /** Backwards and forwards agree. */
  lemma {:induction false} ReplaysAgree(log: seq<Event>, t: string, closed: set<string>)
    requires Tidy(log, t)
    ensures Outstanding(ForTenant(log, t), closed) == Total(ViewOf(log, t).open - closed, Self())
    ensures Spent(ForTenant(log, t)) == Total(ViewOf(log, t).paid, Self())
    decreases |log|, 0
  {
    if log != [] {
      var e, init := log[|log| - 1], log[..|log| - 1];
      ReplaysAgree(init, t, closed);
      if e.tenant == t {
        var before := ForTenant(init, t);
        assert ForTenant(log, t)[..|before|] == before;
        ReplayStep(init, e, t, closed);
        if e.kind == COST_RECONCILED {
          Put(ViewOf(init, t).paid, e.reservation, e.amount, Self());
        }
      } else {
        assert ForTenant(log, t) == ForTenant(init, t);
      }
    }
  }

  lemma ReplayStep(init: seq<Event>, e: Event, t: string, closed: set<string>)
    requires e.tenant == t && Tidy(init, t) && Follows(ViewOf(init, t), e)
    requires Outstanding(ForTenant(init, t), closed) == Total(ViewOf(init, t).open - closed, Self())
    ensures Outstanding(ForTenant(init, t) + [e], closed) == Total(Noted(ViewOf(init, t), e).open - closed, Self())
    decreases |init|, 1
  {
    var before, v := ForTenant(init, t), ViewOf(init, t);
    assert (before + [e])[..|before|] == before;
    if Closes(e) {
      ReplaysAgree(init, t, closed + {e.reservation});
      assert (v.open - {e.reservation}) - closed == v.open - (closed + {e.reservation});
    } else if e.kind == RESERVATION_CREATED {
      OpenAreCreated(init, t);
      if e.reservation in closed {
        assert v.open[e.reservation := e.amount] - closed == v.open - closed;
      } else {
        assert v.open[e.reservation := e.amount] - closed == (v.open - closed)[e.reservation := e.amount];
        Put(v.open - closed, e.reservation, e.amount, Self());
      }
    }
  }
}

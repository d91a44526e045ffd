/**
 * The reservation manager object (internal/reservation/reservation.go). Each method is one whole call run
 * alone; Interleaving.dfy takes the calls apart into their critical sections.
 */
module Managers {
  import opened Books
  import opened Digits
  import opened Totals

  datatype Exposure = Exposure(limit: int, reserved: int, settled: int, available: int)

  class Manager {
    var accounts: map<string, Account>
    var reservations: map<string, Reservation>
    var idCounter: nat     // 64 bits: wraps
    ghost var issued: nat  // ids drawn so far, unbounded

    ghost predicate Valid()
      reads this
    {
      idCounter == issued % U64
    }

    ghost function Value(): Book
      reads this
    {
      Book(accounts, reservations, issued)
    }

    constructor ()
      ensures Valid() && Value() == Book(map[], map[], 0)
    {
      accounts, reservations, idCounter, issued := map[], map[], 0, 0;
    }

    method SetBudget(tenant: string, limit: int)
      requires Valid()
      modifies this
      ensures Valid() && Value() == Budgeted(old(Value()), tenant, limit)
    {
      if tenant !in accounts {
        accounts := accounts[tenant := EMPTY_ACCOUNT];
      }
      accounts := accounts[tenant := accounts[tenant].(limit := limit)];
    }

    method GetAccount(tenant: string) returns (a: Account)
      requires Valid()
      modifies this
      ensures Valid() && Value() == Opened(old(Value()), tenant)
      ensures tenant in accounts && a == accounts[tenant] == BalanceOf(old(Value()), tenant)
    {
      if tenant !in accounts {
        accounts := accounts[tenant := EMPTY_ACCOUNT];
      }
      a := accounts[tenant];
    }

    method NextId(stamp: string) returns (id: string)
      requires Valid()
      modifies this
      ensures Valid() && Value() == old(Value()).(issued := old(issued) + 1)
      ensures id == Id(stamp, issued)
    {
      CounterSteps(issued);
      idCounter := (idCounter + 1) % U64;
      issued := issued + 1;
      var digits := Itoa(idCounter);
      id := stamp + "-" + digits;
      IdFromText(stamp, issued, digits);
    }

    method GetExposure(tenant: string) returns (e: Exposure)
      requires Valid()
      modifies this
      ensures Valid() && Value() == Opened(old(Value()), tenant)
      ensures var a := BalanceOf(old(Value()), tenant); e == Exposure(a.limit, a.reserved, a.settled, a.limit - a.reserved - a.settled)
    {
      var a := GetAccount(tenant);
      e := Exposure(a.limit, a.reserved, a.settled, Available(a));
    }

    /** Grants exactly when the account covers the amount; the new reservation is filed under its own id. */
    method Reserve(tenant: string, amount: int, ttl: real, now: real, stamp: string)
      returns (granted: bool, id: string)
      requires Valid()
      modifies this
      ensures Valid() && Value() == ReserveIn(old(Value()), tenant, amount, ttl, now, stamp)
      ensures granted == Covers(old(Value()), tenant, amount)
      ensures granted ==> id == Id(stamp, issued) && id in reservations
    {
      var a := GetAccount(tenant);
      if Available(a) < amount {
        return false, "";
      }
      accounts := accounts[tenant := a.(reserved := a.reserved + amount)];
      id := NextId(stamp);
      var r := Fresh(id, tenant, amount, now, ttl);
      reservations := reservations[id := r];
      granted := true;
    }

    method Release(id: string) returns (reply: Reply)
      requires Valid()
      modifies this
      ensures Valid() && Value() == CloseIn(old(Value()), id, Books.Release)
      ensures reply == ReplyIn(old(Value()), id, Books.Release)
    {
      if id !in reservations {
        return NotFound;
      }
      var r := reservations[id];
      var a := GetAccount(r.tenant);
      if r.state == RESERVED {
        accounts := accounts[r.tenant := a.(reserved := a.reserved - r.amount)];
        r := r.(state := RELEASED);
        reservations := reservations[id := r];
      }
      reply := Done;
    }

    method Reconcile(id: string, actual: int) returns (reply: Reply)
      requires Valid()
      modifies this
      ensures Valid() && Value() == CloseIn(old(Value()), id, Books.Reconcile(actual))
      ensures reply == ReplyIn(old(Value()), id, Books.Reconcile(actual))
    {
      if id !in reservations {
        return NotFound;
      }
      var r := reservations[id];
      var a := GetAccount(r.tenant);
      if r.reconciled {
        return Settled(ComputeReconcileResult(r.amount, r.actual));
      }
      if r.state != RESERVED {
        return TerminalState;
      }
      accounts := accounts[r.tenant := a.(reserved := a.reserved - r.amount, settled := a.settled + actual)];
      reservations := reservations[id := r.(actual := actual, reconciled := true, state := RECONCILED)];
      reply := Settled(ComputeReconcileResult(r.amount, actual));
    }

    /** Expires every stale reservation, in whatever order the map gives them, and counts them. */
    method ExpireStale(now: real) returns (n: nat)
      requires Valid()
      modifies this
      ensures Valid() && SweptTo(old(Value()), Value(), now)
      ensures reservations.Keys == old(reservations).Keys
      ensures forall id :: id in reservations ==>
                reservations[id] == (var r := old(reservations)[id];
                                     if r.state == RESERVED && now > r.expiresAt then r.(state := EXPIRED) else r)
      ensures n == |set id | id in old(reservations) && old(reservations)[id].state == RESERVED && now > old(reservations)[id].expiresAt|
    {
      ghost var b := Value();
      var stale := set id | id in reservations && IsStale(reservations[id], now);
      var todo := stale;
      while todo != {}
        invariant Valid() && todo <= stale
        invariant Partly(b, Value(), stale - todo)
        invariant todo == set id | id in reservations && IsStale(reservations[id], now)
        decreases |todo|
      {
        var id :| id in todo;
        ghost var before := Value();
        ExpireOne(id);
        PartlyStep(b, before, stale - todo, id);
        assert stale - (todo - {id}) == stale - todo + {id};
        todo := todo - {id};
      }
      n := |stale|;
      assert stale == set id | id in b.reservations && b.reservations[id].state == RESERVED && now > b.reservations[id].expiresAt;
      PartlyAll(b, Value(), now, stale);
    }

    /** One round of ExpireStale's second loop. */
    method ExpireOne(id: string)
      requires Valid() && id in reservations
      modifies this
      ensures Valid() && Value() == CloseIn(old(Value()), id, Expire)
    {
      var r := reservations[id];
      var a := GetAccount(r.tenant);
      if r.state == RESERVED {
        accounts := accounts[r.tenant := a.(reserved := a.reserved - r.amount)];
        reservations := reservations[id := r.(state := EXPIRED)];
      }
    }
  }

  /** After the reservations in `done` have been expired one by one. */
  ghost predicate Partly(b: Book, b': Book, done: set<string>) {
    && done <= b.reservations.Keys
    && b'.reservations == (map id | id in b.reservations ::
                             if id in done then b.reservations[id].(state := EXPIRED) else b.reservations[id])
    && b'.issued == b.issued
    && forall t :: SameSlack(b, b', t)
  }

  /** `reserved` and the held total have moved together; nothing else of the account has moved. */
  ghost predicate SameSlack(b: Book, b': Book, t: string) {
    var a, a' := BalanceOf(b, t), BalanceOf(b', t);
    && a'.limit == a.limit && a'.settled == a.settled
    && a'.reserved - Total(b'.reservations, HeldBy(t)) == a.reserved - Total(b.reservations, HeldBy(t))
  }

  lemma PartlyStep(b: Book, b1: Book, done: set<string>, id: string)
    requires Partly(b, b1, done) && id in b1.reservations && b1.reservations[id].state == RESERVED && id !in done
    ensures Partly(b, CloseIn(b1, id, Expire), done + {id})
  {
    var b2 := CloseIn(b1, id, Expire);
    forall t ensures SameSlack(b, b2, t) {
      assert SameSlack(b, b1, t);
      Put(b1.reservations, id, b2.reservations[id], HeldBy(t));
      assert t != b1.reservations[id].tenant ==> BalanceOf(b2, t) == BalanceOf(b1, t);
    }
  }

  lemma PartlyAll(b: Book, b': Book, now: real, stale: set<string>)
    requires Partly(b, b', stale)
    requires stale == set id | id in b.reservations && IsStale(b.reservations[id], now)
    ensures SweptTo(b, b', now)
  {
    assert b'.reservations == Swept(b.reservations, now);
    forall t ensures BalanceOf(b', t) == SweptBalance(b, now, t) {
      assert SameSlack(b, b', t);
    }
  }
}

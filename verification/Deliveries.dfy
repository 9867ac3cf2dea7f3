/** What one delivery of an order's message achieves, how many it takes, and what becomes of the order's
    reservations: with expiry out of the way, and with expiry in between. */
module Deliveries {
  import opened Schema
  import opened Statements
  import opened Transactions
  import opened Effects
  import opened Invariant
  import opened Runs
  import opened Lifecycle

  // ---- what a SELECT of an order's ACTIVE reservations returns when nobody else is about ----

  ghost function ActiveOf(rs: map<ReservationId, Reservation>, o: OrderId): seq<Found>
    decreases |rs|
  {
    if rs == map[] then [] else
    var id :| id in rs;
    (if rs[id].status.Active? && rs[id].order == o then [(id, rs[id])] else []) + ActiveOf(rs - {id}, o)
  }

  lemma {:induction false} ActiveOfExact(rs: map<ReservationId, Reservation>, o: OrderId)
    ensures forall f | f in ActiveOf(rs, o) :: f.0 in rs && rs[f.0] == f.1 && f.1.status.Active? && f.1.order == o
    ensures forall id | id in rs && rs[id].status.Active? && rs[id].order == o :: (id, rs[id]) in ActiveOf(rs, o)
    decreases |rs|
  {
    if rs != map[] {
      var id :| id in rs && ActiveOf(rs, o) ==
        (if rs[id].status.Active? && rs[id].order == o then [(id, rs[id])] else []) + ActiveOf(rs - {id}, o);
      ActiveOfExact(rs - {id}, o);
      forall x | x in rs && rs[x].status.Active? && rs[x].order == o
        ensures (x, rs[x]) in ActiveOf(rs, o)
      {
        if x != id { assert (x, (rs - {id})[x]) in ActiveOf(rs - {id}, o); }
      }
    }
  }

  /** No reservation is for nothing. */
  predicate SomethingEach(rs: map<ReservationId, Reservation>) { forall id | id in rs :: rs[id].quantity > 0 }

  lemma ActiveOfCovers(db: State, o: OrderId)
    requires SomethingEach(db.reservations)
    ensures Covers(db, o, ActiveOf(db.reservations, o)) && ActiveRowsOf(ActiveOf(db.reservations, o), o)
  {
    var found := ActiveOf(db.reservations, o);
    ActiveOfExact(db.reservations, o);
    assert forall i | 0 <= i < |found| :: found[i] in found;
    forall id | IsActive(db, id) && db.reservations[id].order == o
      ensures Listed(found, id)
    {
      var i :| 0 <= i < |found| && found[i] == (id, db.reservations[id]);
    }
  }

  // ---- one delivery, run to its end ----

  /** The status process_order leaves behind on attempt number `n`. */
  function StatusAfter(cfg: Config, n: nat, token: string): OrderStatus {
    SettlementOf(cfg, n, token).status
  }

  /** The second half of the delivery whose first half found the order as it is in `a`. */
  function SecondHalf(a: State, o: OrderId, found: seq<Found>): Step
    requires o in a.orders
  {
    Does(Finish(o, a.orders[o].attempts + 1, a.orders[o].token, found))
  }

  /** One whole delivery leads from `a` to `b`. */
  ghost predicate Delivers(a: State, o: OrderId, b: State) {
    o in a.orders && exists mid, found :: Next(a, Does(Begin(o)), mid) && Next(mid, SecondHalf(a, o, found), b)
  }

  /** A delivery nobody interrupts always gets through both its transactions, and to the end of the order's
      life unless the payment can be retried. */
  lemma DeliveryOutcome(db: State, o: OrderId) returns (db': State)
    requires SomethingEach(db.reservations) && o in db.orders && db.orders[o].status.Reserved?
    ensures Delivers(db, o, db') && db'.cfg == db.cfg && o in db'.orders
    ensures var n := db.orders[o].attempts + 1;
      db'.orders[o] == db.orders[o].(status := StatusAfter(db.cfg, n, db.orders[o].token), attempts := n)
    ensures db'.orders[o].status.Failed? && db'.orders[o].attempts >= db.cfg.maxAttempts <==>
      WorkerOf(db', o).Recording?
  {
    var n, token := db.orders[o].attempts + 1, db.orders[o].token;
    var mid := BeginRuns(db, o);
    var found;
    db', found := FinishRuns(mid, o, n, token);
    DeliversBy(db, o, mid, found, db');
  }

  lemma DeliversBy(db: State, o: OrderId, mid: State, found: seq<Found>, db': State)
    requires o in db.orders && Next(db, Does(Begin(o)), mid) && Next(mid, SecondHalf(db, o, found), db')
    ensures Delivers(db, o, db')
  {
  }

  lemma DeliversKeepsInv(db: State, o: OrderId, db': State)
    requires Inv(db) && Delivers(db, o, db')
    ensures Inv(db')
  {
    var mid, found :| Next(db, Does(Begin(o)), mid) && Next(mid, SecondHalf(db, o, found), db');
    NextKeepsInv(db, Does(Begin(o)), mid);
    NextKeepsInv(mid, SecondHalf(db, o, found), db');
  }

  lemma BeginRuns(db: State, o: OrderId) returns (mid: State)
    requires o in db.orders && db.orders[o].status.Reserved?
    ensures Next(db, Does(Begin(o)), mid) && mid.reservations == db.reservations && mid.cfg == db.cfg
    ensures o in mid.orders && mid.orders[o] == Started(db.orders[o])
    ensures WorkerOf(mid, o) == Charging(db.orders[o].attempts + 1, db.orders[o].token)
  {
    BeginEffect(db, o);
    mid := After(db, BeginCode(o));
  }

  lemma FinishRuns(db: State, o: OrderId, n: nat, token: string) returns (db': State, found: seq<Found>)
    requires SomethingEach(db.reservations) && o in db.orders && WorkerOf(db, o) == Charging(n, token)
    ensures Next(db, Does(Finish(o, n, token, found)), db')
    ensures db'.cfg == db.cfg && o in db'.orders
    ensures db'.orders[o] == db.orders[o].(status := StatusAfter(db.cfg, n, token))
    ensures db'.orders[o].status.Failed? && n >= db.cfg.maxAttempts <==> WorkerOf(db', o).Recording?
  {
    found := ActiveOf(db.reservations, o);
    ActiveOfCovers(db, o);
    FinishEffect(db, o, n, token, found);
    db' := Run(db, FinishCode(db.cfg, o, n, token, found)).db;
  }

  /** A step that moves order `o`. */
  ghost predicate MovesOn(db: State, s: Step, db': State, o: OrderId)
    requires o in db.orders
  {
    Next(db, s, db') && o in db'.orders && db'.orders[o] != db.orders[o]
  }

  /** A PROCESSING order can still move if and only if a worker remembers it. */
  lemma MovableIffRemembered(db: State, o: OrderId)
    requires Inv(db) && o in db.orders && db.orders[o].status.Processing?
    ensures (exists s, db' :: MovesOn(db, s, db', o)) <==> !WorkerOf(db, o).Idle?
  {
    if WorkerOf(db, o).Idle? {
      forall s, db' | Next(db, s, db')
        ensures !MovesOn(db, s, db', o)
      {
        StrandedStays(db, s, db', o);
      }
    } else {
      RememberedMoves(db, o);
    }
  }

  lemma RememberedMoves(db: State, o: OrderId)
    requires Inv(db) && o in db.orders && db.orders[o].status.Processing? && !WorkerOf(db, o).Idle?
    ensures exists s, db' :: MovesOn(db, s, db', o)
  {
    assert Owned(db.workers[o], db.orders[o], o, db.deadLetters, db.cfg);
    var n, token := db.workers[o].attempt, db.workers[o].token;
    var db', found := FinishRuns(db, o, n, token);
    assert MovesOn(db, Does(Finish(o, n, token, found)), db', o);
  }

  lemma AttemptsLeft(db: State, o: OrderId)
    requires Inv(db) && o in db.orders && db.orders[o].status.Reserved?
    ensures db.orders[o].attempts < AttemptLimit(db.cfg)
  {
  }

  ghost predicate Over(db: State, o: OrderId) {
    o in db.orders && (db.orders[o].status.Completed? || db.orders[o].status.Failed?)
  }

  ghost predicate Chain(states: seq<State>, o: OrderId) {
    forall i | 0 <= i < |states| - 1 :: Delivers(states[i], o, states[i + 1])
  }

  lemma ChainFrom(db: State, states: seq<State>, o: OrderId)
    requires states != [] && Delivers(db, o, states[0]) && Chain(states, o)
    ensures Chain([db] + states, o)
  {
    var all := [db] + states;
    forall i | 0 <= i < |all| - 1
      ensures Delivers(all[i], o, all[i + 1])
    {
      if i > 0 { assert Delivers(states[i - 1], o, states[i]); }
    }
  }

  lemma OneDelivery(db: State, o: OrderId) returns (db': State)
    requires Inv(db) && o in db.orders && db.orders[o].status.Reserved?
    ensures Delivers(db, o, db') && db'.cfg == db.cfg && o in db'.orders
    ensures Over(db', o) || (db'.orders[o].status.Reserved? && db'.orders[o].attempts == db.orders[o].attempts + 1)
  {
    db' := DeliveryOutcome(db, o);
  }

  lemma DeliveryKeepsBound(db: State, o: OrderId, db': State)
    requires Inv(db) && o in db.orders && db.orders[o].status.Reserved? && Delivers(db, o, db')
    ensures Inv(db') && db.orders[o].attempts < AttemptLimit(db.cfg)
    ensures o in db'.orders && db'.orders[o].status.Reserved? ==> db'.orders[o].attempts < AttemptLimit(db'.cfg)
  {
    AttemptsLeft(db, o);
    DeliversKeepsInv(db, o, db');
    if o in db'.orders && db'.orders[o].status.Reserved? { AttemptsLeft(db', o); }
  }

  lemma NextDelivery(db: State, o: OrderId) returns (db': State)
    requires Inv(db) && o in db.orders && db.orders[o].status.Reserved?
    ensures Delivers(db, o, db') && Inv(db') && db'.cfg == db.cfg && db.orders[o].attempts < AttemptLimit(db.cfg)
    ensures Over(db', o) || (o in db'.orders && db'.orders[o].status.Reserved?
                             && db.orders[o].attempts < db'.orders[o].attempts < AttemptLimit(db.cfg))
  {
    db' := OneDelivery(db, o);
    DeliveryKeepsBound(db, o, db');
  }

  /** Deliveries of the order, one after the other, that bring it to an end. */
  ghost predicate Finishes(states: seq<State>, o: OrderId) {
    states != [] && Chain(states, o) && Over(states[|states| - 1], o)
  }

  lemma FinishesAtOnce(db: State, o: OrderId)
    requires Over(db, o)
    ensures Finishes([db], o)
  {
  }

  lemma FinishesFrom(db: State, states: seq<State>, o: OrderId)
    requires Finishes(states, o) && Delivers(db, o, states[0])
    ensures Finishes([db] + states, o)
  {
    ChainFrom(db, states, o);
  }

  /** As many deliveries as the order has attempts left are enough to end it, if none is interrupted. */
  lemma {:induction false} DeliveriesEnd(db: State, o: OrderId) returns (states: seq<State>)
    requires Inv(db) && o in db.orders && db.orders[o].status.Reserved?
    ensures 1 < |states| <= 1 + AttemptLimit(db.cfg) - db.orders[o].attempts
    ensures states[0] == db && Finishes(states, o)
    decreases AttemptLimit(db.cfg) - db.orders[o].attempts
  {
    var db' := NextDelivery(db, o);
    if Over(db', o) {
      states := [db'];
      FinishesAtOnce(db', o);
    } else {
      states := DeliveriesEnd(db', o);
    }
    FinishesFrom(db, states, o);
    states := [db] + states;
  }
}

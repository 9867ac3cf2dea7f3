/** Order lines against the reservations made for them: each line is backed by one row for good, and a
    COMPLETED order used up every one of them exactly when no expiry batch came in between. */
module Fulfilment {
  import opened Schema
  import opened Statements
  import opened Transactions
  import D = Discipline
  import opened Effects
  import opened Invariant
  import opened Runs
  import opened Lifecycle

  // ---- one reservation per line ----

  predicate Backs(rs: map<ReservationId, Reservation>, id: ReservationId, o: OrderId, item: Item) {
    && id in rs && rs[id].order == o
    && rs[id].product == item.product && rs[id].warehouse == item.warehouse && rs[id].quantity == item.quantity
  }

  ghost predicate Backed(rs: map<ReservationId, Reservation>, o: OrderId, item: Item) {
    exists id :: Backs(rs, id, o, item)
  }

  ghost predicate ForALine(rs: map<ReservationId, Reservation>, id: ReservationId, o: OrderId, items: seq<Item>) {
    exists k :: 0 <= k < |items| && Backs(rs, id, o, items[k])
  }

  /** The order's lines and its reservations match one to one. */
  ghost predicate LinesBacked(rs: map<ReservationId, Reservation>, o: OrderId, items: seq<Item>) {
    && (forall k | 0 <= k < |items| :: Backed(rs, o, items[k]))
    && (forall id | id in rs && rs[id].order == o :: ForALine(rs, id, o, items))
    && (forall i, j | i in rs && j in rs && rs[i].order == o && rs[j].order == o && rs[i].product == rs[j].product ::
          i == j)
  }

  /** Nothing but statuses changes in the reservations of an order that is there. */
  lemma BackingStays(a: State, b: State, o: OrderId)
    requires Evolves(a, b) && o in a.orders && LinesBacked(a.reservations, o, a.orders[o].items)
    ensures LinesBacked(b.reservations, o, b.orders[o].items)
  {
    var items := a.orders[o].items;
    forall k | 0 <= k < |items|
      ensures Backed(b.reservations, o, items[k])
    {
      var id :| Backs(a.reservations, id, o, items[k]);
      assert Backs(b.reservations, id, o, items[k]);
    }
    forall id | id in b.reservations && b.reservations[id].order == o
      ensures ForALine(b.reservations, id, o, items)
    {
      assert id in a.reservations && ForALine(a.reservations, id, o, items);
      var k :| 0 <= k < |items| && Backs(a.reservations, id, o, items[k]);
      assert Backs(b.reservations, id, o, items[k]);
    }
  }

  lemma BackingMade(db: State, db': State, tx: Tx)
    requires Created(db, db', tx) && D.OrdersKnown(db)
    ensures LinesBacked(db'.reservations, tx.order, OrderOf(db.cfg, tx).items)
  {
    var rows := ReservationsFor(tx.payload.items, tx.picks, tx.order, tx.now + db.cfg.timeout);
    RowsBack(db.reservations, db'.reservations, tx.order, OrderOf(db.cfg, tx).items, rows);
  }

  /** The k-th row is for the k-th item. */
  predicate InOrder(rows: seq<Found>, o: OrderId, items: seq<Item>) {
    && |rows| == |items|
    && forall k | 0 <= k < |rows| ::
        && rows[k].1.order == o && rows[k].1.product == items[k].product
        && rows[k].1.warehouse == items[k].warehouse && rows[k].1.quantity == items[k].quantity
  }

  lemma RowsBack(a: map<ReservationId, Reservation>, b: map<ReservationId, Reservation>, o: OrderId,
                 items: seq<Item>, rows: seq<Found>)
    requires AddsRows(a, b, rows) && InOrder(rows, o, items) && forall id | id in a :: a[id].order != o
    requires forall i, j | 0 <= i < j < |items| :: items[i].product != items[j].product
    ensures LinesBacked(b, o, items)
  {
    forall k | 0 <= k < |items|
      ensures Backed(b, o, items[k])
    {
      assert Backs(b, rows[k].0, o, items[k]);
    }
    forall id | id in b && b[id].order == o
      ensures ForALine(b, id, o, items)
    {
      var k := RowOf(a, b, o, rows, id);
      assert Backs(b, id, o, items[k]);
    }
    RowsDiffer(a, b, o, items, rows);
  }

  lemma RowsDiffer(a: map<ReservationId, Reservation>, b: map<ReservationId, Reservation>, o: OrderId,
                   items: seq<Item>, rows: seq<Found>)
    requires AddsRows(a, b, rows) && InOrder(rows, o, items) && forall id | id in a :: a[id].order != o
    requires forall i, j | 0 <= i < j < |items| :: items[i].product != items[j].product
    ensures forall i, j | i in b && j in b && b[i].order == o && b[j].order == o && b[i].product == b[j].product ::
      i == j
  {
    forall i, j | i in b && j in b && b[i].order == o && b[j].order == o && b[i].product == b[j].product
      ensures i == j
    {
      var k := RowOf(a, b, o, rows, i);
      var m := RowOf(a, b, o, rows, j);
    }
  }

  lemma RowOf(a: map<ReservationId, Reservation>, b: map<ReservationId, Reservation>, o: OrderId, rows: seq<Found>,
              id: ReservationId) returns (k: nat)
    requires AddsRows(a, b, rows) && id in b && b[id].order == o && forall x | x in a :: a[x].order != o
    ensures k < |rows| && rows[k].0 == id && rows[k].1 == b[id]
  {
    assert Listed(rows, id);
    k :| 0 <= k < |rows| && rows[k].0 == id;
  }

  /** In every reachable state each line of each order has its own reservation, for what was ordered. */
  lemma {:induction false} EveryLineBacked(states: seq<State>, steps: seq<Step>, n: nat, o: OrderId)
    requires IsRun(states, steps) && n <= |steps| && o in states[n].orders
    ensures LinesBacked(states[n].reservations, o, states[n].orders[o].items)
  {
    if n > 0 {
      RunsKeepInv(states, steps, n - 1);
      var a, b := states[n - 1], states[n];
      if o in a.orders {
        EveryLineBacked(states, steps, n - 1, o);
        assert Evolves(a, b) by { NextKeepsInv(a, steps[n - 1], b); }
        BackingStays(a, b, o);
      } else {
        NewOrderBacked(a, steps[n - 1], b, o);
      }
    }
  }

  lemma NewOrderBacked(db: State, s: Step, db': State, o: OrderId)
    requires Inv(db) && Next(db, s, db') && o !in db.orders && o in db'.orders
    ensures LinesBacked(db'.reservations, o, db'.orders[o].items)
  {
    StepAddsOrder(db, s, db', o);
    CreateEffect(db, s.tx);
    BackingMade(db, db', s.tx);
  }

  // ---- statuses in step ----

  /** The reservation statuses an order's status allows, as long as expiry leaves PROCESSING orders alone. */
  predicate InStep(o: OrderStatus, r: ReservationStatus) {
    match o
    case Pending => false
    case Reserved => r.Active?
    case Processing => r.Active?
    case Completed => r.Consumed?
    case Failed => r.Released?
    case Cancelled => r.Released?
    case Expired => !r.Consumed?
  }

  ghost predicate RowsInStep(rs: map<ReservationId, Reservation>, o: OrderId, status: OrderStatus) {
    forall id | id in rs && rs[id].order == o :: InStep(status, rs[id].status)
  }

  ghost predicate OrderInStep(db: State, o: OrderId) {
    o in db.orders ==> RowsInStep(db.reservations, o, db.orders[o].status)
  }

  /** The step claims no reservation of `o` while it is PROCESSING. */
  ghost predicate Spares(db: State, s: Step, o: OrderId) {
    s.Does? && s.tx.Expire? && o in db.orders && db.orders[o].status.Processing? ==> !Touches(s.tx.claims, o)
  }

  lemma CreateInStep(db: State, db': State, tx: Tx, o: OrderId)
    requires Created(db, db', tx) && D.OrdersKnown(db) && OrderInStep(db, o)
    ensures OrderInStep(db', o)
  {
    var rows := ReservationsFor(tx.payload.items, tx.picks, tx.order, tx.now + db.cfg.timeout);
    assert AddsRows(db.reservations, db'.reservations, rows);
    forall id | id in db'.reservations && db'.reservations[id].order == o && id !in db.reservations
      ensures db'.reservations[id].status.Active? && o == tx.order
    {
      var i :| 0 <= i < |rows| && rows[i].0 == id;
    }
  }

  lemma ExpireInStep(db: State, db': State, now: int, claims: seq<Found>, o: OrderId)
    requires Overdue(db, claims, now) && Swept(db, db', claims) && OrderInStep(db, o)
    requires o in db.orders && db.orders[o].status.Processing? ==> !Touches(claims, o)
    ensures OrderInStep(db', o)
  {
    forall id | id in db.reservations && db.reservations[id].order == o && Listed(claims, id)
      ensures Touches(claims, o) && db.reservations[id].status.Active?
    {
      var i :| 0 <= i < |claims| && claims[i].0 == id;
      assert claims[i].1.order == o;
    }
  }

  lemma CancelOrBeginInStep(db: State, tx: Tx, o: OrderId)
    requires OrderInStep(db, o) && Legal(tx) && Run(db, Code(db.cfg, tx)).Committed? && (tx.Cancel? || tx.Begin?)
    ensures OrderInStep(Run(db, Code(db.cfg, tx)).db, o)
  {
    match tx
    case Cancel(x, user, found) => CancelEffect(db, x, user, found);
    case Begin(x) => BeginEffect(db, x);
  }

  lemma FinishInStep(db: State, tx: Tx, o: OrderId)
    requires WorkersOk(db.workers, db.orders, db.deadLetters, db.cfg) && OrderInStep(db, o)
    requires Legal(tx) && Run(db, Code(db.cfg, tx)).Committed? && tx.Finish?
    ensures OrderInStep(Run(db, Code(db.cfg, tx)).db, o)
  {
    var x, end := tx.order, SettlementOf(db.cfg, tx.attempt, tx.token);
    FinishEffect(db, x, tx.attempt, tx.token, tx.found);
    assert Owned(db.workers[x], db.orders[x], x, db.deadLetters, db.cfg);
    if end.reservations.Some? && o in db.orders {
      SettleInStep(db.reservations, x, end.reservations.value, end.status, o, db.orders[o].status);
    }
  }

  lemma SettleInStep(rs: map<ReservationId, Reservation>, x: OrderId, how: ReservationStatus, end: OrderStatus,
                     o: OrderId, status: OrderStatus)
    requires RowsInStep(rs, o, status) && InStep(end, how) && (o == x ==> status.Processing?)
    ensures RowsInStep(SettleOrder(rs, x, how), o, if o == x then end else status)
  {
  }

  lemma SmallTxInStep(db: State, tx: Tx, o: OrderId)
    requires Legal(tx) && Run(db, Code(db.cfg, tx)).Committed? && OrderInStep(db, o)
    requires tx.Adjust? || tx.Threshold? || tx.Relay? || tx.Record?
    ensures OrderInStep(Run(db, Code(db.cfg, tx)).db, o)
  {
    match tx
    case Adjust(p, w, delta, reason, first, alert, e) => AdjustEffect(db, p, w, delta, reason, first, alert, e);
    case Threshold(p, w, threshold, first) => ThresholdEffect(db, p, w, threshold, first);
    case Relay(events) => RelayEffect(db, events);
    case Record(x, attempt, reason) => RecordEffect(db, x, attempt, reason);
  }

  lemma StepInStep(db: State, s: Step, db': State, o: OrderId)
    requires RowsOk(db) && Next(db, s, db') && OrderInStep(db, o) && Spares(db, s, o)
    ensures OrderInStep(db', o)
  {
    if s.Does? {
      if s.tx.Create? {
        CreateEffect(db, s.tx);
        CreateInStep(db, db', s.tx, o);
      } else if s.tx.Expire? {
        ExpireEffect(db, s.tx.now, s.tx.claims);
        ExpireInStep(db, db', s.tx.now, s.tx.claims, o);
      } else if s.tx.Cancel? || s.tx.Begin? {
        CancelOrBeginInStep(db, s.tx, o);
      } else if s.tx.Finish? {
        FinishInStep(db, s.tx, o);
      } else {
        SmallTxInStep(db, s.tx, o);
      }
    }
  }

  ghost predicate Spared(states: seq<State>, steps: seq<Step>, n: nat, o: OrderId)
    requires n <= |steps| < |states|
  {
    forall i | 0 <= i < n :: Spares(states[i], steps[i], o)
  }

  /** While no expiry batch takes a reservation of the PROCESSING order, its reservations keep step with it:
      RESERVED and PROCESSING mean every line is ACTIVE, COMPLETED that every line was CONSUMED. */
  lemma {:induction false} SparedOrdersKeepStep(states: seq<State>, steps: seq<Step>, n: nat, o: OrderId)
    requires IsRun(states, steps) && n <= |steps| && Spared(states, steps, n, o)
    ensures OrderInStep(states[n], o)
  {
    if n > 0 {
      SparedOrdersKeepStep(states, steps, n - 1, o);
      assert Spares(states[n - 1], steps[n - 1], o);
      assert RowsOk(states[n - 1]) by { RunsKeepInv(states, steps, n - 1); }
      StepInStep(states[n - 1], steps[n - 1], states[n], o);
    }
  }

  ghost predicate AllConsumed(db: State, o: OrderId) {
    forall id | id in db.reservations && db.reservations[id].order == o :: db.reservations[id].status.Consumed?
  }

  ghost predicate AllActive(db: State, o: OrderId) {
    forall id | id in db.reservations && db.reservations[id].order == o :: db.reservations[id].status.Active?
  }

  lemma ClaimReleases(db: State, s: Step, db': State, o: OrderId) returns (id: ReservationId)
    requires Next(db, s, db') && !Spares(db, s, o)
    ensures id in db'.reservations && db'.reservations[id].order == o && db'.reservations[id].status.Released?
  {
    var claims := s.tx.claims;
    ExpireEffect(db, s.tx.now, claims);
    var i :| 0 <= i < |claims| && claims[i].1.order == o;
    id := claims[i].0;
    assert Listed(claims, id) && IsActive(db, id);
  }

  lemma TakenRowStays(states: seq<State>, steps: seq<Step>, n: nat, o: OrderId)
    requires IsRun(states, steps) && n <= |steps| && !Spared(states, steps, n, o)
    ensures !AllActive(states[n], o) && !AllConsumed(states[n], o)
  {
    var i :| 0 <= i < n && !Spares(states[i], steps[i], o);
    var id := ClaimReleases(states[i], steps[i], states[i + 1], o);
    LeavesActiveOnce(states, steps, i + 1, n, id);
  }

  /** A COMPLETED order used up all it had reserved if and only if no expiry batch took a reservation from it
      while its payment was under way. */
  lemma ConsumedIffSpared(states: seq<State>, steps: seq<Step>, n: nat, o: OrderId)
    requires IsRun(states, steps) && n <= |steps| && o in states[n].orders && states[n].orders[o].status.Completed?
    ensures AllConsumed(states[n], o) <==> Spared(states, steps, n, o)
  {
    if Spared(states, steps, n, o) {
      SparedOrdersKeepStep(states, steps, n, o);
    } else {
      TakenRowStays(states, steps, n, o);
    }
  }

  /** A RESERVED or PROCESSING order still holds all it reserved if and only if no expiry batch took a
      reservation from it during any of its payments. */
  lemma ActiveIffSpared(states: seq<State>, steps: seq<Step>, n: nat, o: OrderId)
    requires IsRun(states, steps) && n <= |steps| && o in states[n].orders
    requires states[n].orders[o].status.Reserved? || states[n].orders[o].status.Processing?
    ensures AllActive(states[n], o) <==> Spared(states, steps, n, o)
  {
    if Spared(states, steps, n, o) {
      SparedOrdersKeepStep(states, steps, n, o);
    } else {
      TakenRowStays(states, steps, n, o);
    }
  }
}

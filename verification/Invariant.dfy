/** What holds in every committed state, and how one committed state can follow another. */
module Invariant {
  import opened Schema
  import opened Statements
  import opened Transactions
  import opened Ledgers
  import opened Discipline
  import opened WellTyped
  import opened Effects

  // ---- the invariant, table by table ----

  /** The statuses whose orders hold no stock. */
  predicate HoldsNothing(s: OrderStatus) { s.Completed? || s.Failed? || s.Cancelled? }

  /** Reservations against the status of their order. */
  ghost predicate ReservationsOk(rs: map<ReservationId, Reservation>, orders: map<OrderId, Order>, clock: int) {
    && (forall id | id in rs :: rs[id].order in orders && rs[id].quantity > 0)
    && (forall id | id in rs && rs[id].status.Active? :: !HoldsNothing(orders[rs[id].order].status))
    && (forall id | id in rs && rs[id].status.Consumed? :: orders[rs[id].order].status.Completed?)
    && (forall i, j | i in rs && j in rs && rs[i].order == rs[j].order :: rs[i].expiresAt == rs[j].expiresAt)
    && (forall id | id in rs && orders[rs[id].order].status.Expired? :: rs[id].expiresAt < clock)
  }

  function LinesOf(items: seq<Item>): seq<Line> {
    seq(|items|, i requires 0 <= i < |items| => Line(items[i].product, items[i].quantity))
  }

  /** The answer create_order gave for this order, whatever has become of it since. */
  function FirstAnswer(o: OrderId, row: Order): Response { Serialize(o, row.(status := Reserved)) }

  /** A stored key: completed, and in agreement with the order it made. */
  ghost predicate KeyOk(k: string, key: KeyRow, orders: map<OrderId, Order>) {
    && k != "" && key.Done? && key.order in orders
    && orders[key.order].key == Some(k)
    && key.response == FirstAnswer(key.order, orders[key.order])
    && key.hash == Payload(LinesOf(orders[key.order].items), orders[key.order].token)
  }

  /** No key is left IN_PROGRESS; a key and the order it made point at each other. */
  ghost predicate KeysOk(keys: map<string, KeyRow>, orderKeys: map<string, OrderId>, orders: map<OrderId, Order>) {
    && (forall k | k in keys :: KeyOk(k, keys[k], orders))
    && (forall o | o in orders && orders[o].key.Some? ::
          orders[o].key.value in orderKeys && orderKeys[orders[o].key.value] == o)
    && (forall o | o in orders && Claims(orders[o].key) ::
          orders[o].key.value in keys && keys[orders[o].key.value].Done? && keys[orders[o].key.value].order == o)
  }

  ghost predicate Announced(events: map<EventId, Event>, o: OrderId) {
    exists e :: e in events && events[e].body == OrderReserved(o)
  }

  /** One ORDER_RESERVED event per order, and nothing PUBLISHED that was not sent. */
  ghost predicate OutboxOk(events: map<EventId, Event>, ids: set<OrderId>, broker: set<EventId>) {
    && (forall e | e in events && events[e].body.OrderReserved? :: events[e].body.order in ids)
    && (forall d, e | d in events && e in events && events[d].body.OrderReserved? && events[d].body == events[e].body ::
          d == e)
    && (forall o | o in ids :: Announced(events, o))
    && (forall e | e in events && events[e].published :: e in broker)
  }

  function AttemptLimit(cfg: Config): int { if cfg.maxAttempts >= 1 then cfg.maxAttempts else 1 }

  ghost predicate NoLetter(letters: seq<DeadLetter>, o: OrderId) {
    forall i | 0 <= i < |letters| :: letters[i].order != o
  }

  /** What a worker remembers is true of the order as it stands. */
  ghost predicate Owned(worker: Worker, row: Order, o: OrderId, letters: seq<DeadLetter>, cfg: Config) {
    match worker
    case Idle => true
    case Charging(attempt, token) => row.status.Processing? && row.attempts == attempt && row.token == token
    case Recording(attempt, _) =>
      row.status.Failed? && row.attempts == attempt >= cfg.maxAttempts && NoLetter(letters, o)
  }

  /** A remembered activation owns its order; attempts are bounded; one dead letter per order. */
  ghost predicate WorkersOk(workers: map<OrderId, Worker>, orders: map<OrderId, Order>, letters: seq<DeadLetter>,
                            cfg: Config) {
    && (forall o | o in workers && !workers[o].Idle? :: o in orders && Owned(workers[o], orders[o], o, letters, cfg))
    && (forall o | o in orders :: orders[o].attempts <= AttemptLimit(cfg))
    && (forall o | o in orders && (orders[o].status.Pending? || orders[o].status.Reserved?) ::
          orders[o].attempts < AttemptLimit(cfg))
    && (forall i | 0 <= i < |letters| ::
          && letters[i].order in orders && orders[letters[i].order].status.Failed?
          && letters[i].attempts == orders[letters[i].order].attempts >= cfg.maxAttempts)
    && (forall i, j | 0 <= i < j < |letters| :: letters[i].order != letters[j].order)
  }

  ghost predicate RowsOk(db: State) {
    && ReservationsOk(db.reservations, db.orders, db.clock)
    && KeysOk(db.keys, db.orderKeys, db.orders)
    && OutboxOk(db.events, db.orders.Keys, db.broker)
    && WorkersOk(db.workers, db.orders, db.deadLetters, db.cfg)
  }

  ghost predicate StockOk(db: State) {
    && (forall l :: Slack(db, l) == 0)
    && LowStock(db, {})
  }

  ghost predicate Inv(db: State) { StockOk(db) && RowsOk(db) }

  // ---- how states follow one another ----

  /** What no transaction ever takes back. */
  ghost predicate OrderEvolves(a: Order, b: Order) {
    && b == a.(status := b.status, attempts := b.attempts)
    && a.attempts <= b.attempts
    && (Terminal(a.status) ==> b == a)
  }

  ghost predicate ReservationEvolves(a: Reservation, b: Reservation) {
    b == a || (a.status.Active? && b == a.(status := b.status))
  }

  ghost predicate EventEvolves(a: Event, b: Event) {
    b == a || (!a.published && b == a.(published := true))
  }

  ghost predicate Evolves(a: State, b: State) {
    && a.cfg == b.cfg && a.clock <= b.clock && a.broker <= b.broker
    && (forall o | o in a.orders :: o in b.orders && OrderEvolves(a.orders[o], b.orders[o]))
    && (forall id | id in a.reservations ::
          id in b.reservations && ReservationEvolves(a.reservations[id], b.reservations[id]))
    && (forall id | id in b.reservations && id !in a.reservations :: b.reservations[id].order !in a.orders)
    && (forall k | k in a.keys :: k in b.keys && b.keys[k] == a.keys[k])
    && (forall e | e in a.events :: e in b.events && EventEvolves(a.events[e], b.events[e]))
    && a.alerts <= b.alerts && a.deadLetters <= b.deadLetters
  }

  lemma EvolvesTransitive(a: State, b: State, c: State)
    requires Evolves(a, b) && Evolves(b, c)
    ensures Evolves(a, c)
  {
  }

  // ---- each part of the invariant, kept ----

  /** Orders keep what they were created with; the status may move on. */
  ghost predicate SameOrders(a: map<OrderId, Order>, b: map<OrderId, Order>) {
    && a.Keys == b.Keys
    && forall o | o in a :: b[o] == a[o].(status := b[o].status, attempts := b[o].attempts)
  }

  lemma KeysKept(keys: map<string, KeyRow>, orderKeys: map<string, OrderId>, a: map<OrderId, Order>,
                 b: map<OrderId, Order>)
    requires KeysOk(keys, orderKeys, a) && SameOrders(a, b)
    ensures KeysOk(keys, orderKeys, b)
  {
    forall k | k in keys
      ensures KeyOk(k, keys[k], b)
    {
      assert KeyOk(k, keys[k], a);
      assert b[keys[k].order].(status := Reserved).items == a[keys[k].order].(status := Reserved).items;
    }
  }

  lemma OutboxKept(a: map<EventId, Event>, b: map<EventId, Event>, ids: set<OrderId>, broker: set<EventId>)
    requires OutboxOk(a, ids, broker) && AlertEvents(a, b)
    ensures OutboxOk(b, ids, broker)
  {
    forall o | o in ids
      ensures Announced(b, o)
    {
      assert Announced(a, o);
    }
  }

  // create_order

  lemma CreateKeepsReservations(db: State, db': State, tx: Tx, row: Order)
    requires ReservationsOk(db.reservations, db.orders, db.clock) && Inserted(db, db', tx, row) && row.status.Reserved?
    ensures ReservationsOk(db'.reservations, db'.orders, db.clock)
  {
    var rows := ReservationsFor(tx.payload.items, tx.picks, tx.order, tx.now + db.cfg.timeout);
    NewRows(tx, db.cfg.timeout);
    InsertKeepsReservations(db.reservations, db'.reservations, db.orders, db.clock, tx.order, row, rows,
      tx.now + db.cfg.timeout);
  }

  /** The rows of a new order: for it, for something, ACTIVE, and all due together. */
  ghost predicate RowsFor(rows: seq<Found>, o: OrderId, due: int) {
    forall i | 0 <= i < |rows| ::
      rows[i].1.order == o && rows[i].1.quantity > 0 && rows[i].1.status.Active? && rows[i].1.expiresAt == due
  }

  lemma NewRows(tx: Tx, timeout: int)
    requires tx.Create? && Legal(tx)
    ensures RowsFor(ReservationsFor(tx.payload.items, tx.picks, tx.order, tx.now + timeout), tx.order, tx.now + timeout)
  {
    assert forall i | 0 <= i < |tx.payload.items| :: tx.payload.items[i] in tx.payload.items;
  }

  lemma InsertKeepsReservations(a: map<ReservationId, Reservation>, b: map<ReservationId, Reservation>,
                                orders: map<OrderId, Order>, clock: int, o: OrderId, row: Order,
                                rows: seq<Found>, due: int)
    requires ReservationsOk(a, orders, clock) && AddsRows(a, b, rows) && RowsFor(rows, o, due)
    requires o !in orders && row.status.Reserved?
    ensures ReservationsOk(b, orders[o := row], clock)
  {
    forall id | id in b && id !in a
      ensures b[id].order == o && b[id].quantity > 0 && b[id].status.Active? && b[id].expiresAt == due
    {
      var i :| 0 <= i < |rows| && rows[i].0 == id;
    }
  }

  lemma CreateKeepsKeys(keys: map<string, KeyRow>, orderKeys: map<string, OrderId>, orders: map<OrderId, Order>,
                        o: OrderId, row: Order, hash: Payload)
    requires KeysOk(keys, orderKeys, orders) && o !in orders && row.status.Reserved?
    requires row.key.Some? ==> row.key.value !in orderKeys
    requires Claims(row.key) ==> row.key.value !in keys && hash == Payload(LinesOf(row.items), row.token)
    ensures KeysOk(if Claims(row.key) then keys[row.key.value := Done(hash, o, Serialize(o, row))] else keys,
                   if row.key.Some? then orderKeys[row.key.value := o] else orderKeys, orders[o := row])
  {
    assert row.(status := Reserved) == row;
    forall k | k in keys
      ensures KeyOk(k, keys[k], orders[o := row])
    {
      assert KeyOk(k, keys[k], orders);
    }
  }

  lemma CreateKeepsOutbox(db: State, db': State, tx: Tx, row: Order)
    requires OutboxOk(db.events, db.orders.Keys, db.broker) && Inserted(db, db', tx, row)
    ensures OutboxOk(db'.events, db'.orders.Keys, db.broker)
  {
    forall o | o in db'.orders.Keys
      ensures Announced(db'.events, o)
    {
      if o in db.orders {
        assert Announced(db.events, o);
      } else {
        assert db'.events[tx.event].body == OrderReserved(o);
      }
    }
  }

  lemma CreateKeepsRows(db: State, db': State, tx: Tx)
    requires RowsOk(db) && Created(db, db', tx)
    ensures RowsOk(db')
  {
    var row := OrderOf(db.cfg, tx);
    assert LinesOf(row.items) == tx.payload.items;
    CreateKeepsReservations(db, db', tx, row);
    CreateKeepsKeys(db.keys, db.orderKeys, db.orders, tx.order, row, tx.payload);
    CreateKeepsOutbox(db, db', tx, row);
    CreateKeepsWorkers(db.workers, db.orders, db.deadLetters, db.cfg, tx.order, row);
  }

  lemma CreateKeepsWorkers(workers: map<OrderId, Worker>, orders: map<OrderId, Order>, letters: seq<DeadLetter>,
                           cfg: Config, o: OrderId, row: Order)
    requires WorkersOk(workers, orders, letters, cfg) && o !in orders && row.attempts == 0
    ensures WorkersOk(workers, orders[o := row], letters, cfg)
  {
  }

  // one order changes its status

  /** Moving an order that is not final; what it then must not hold is settled. */
  lemma MoveKeepsReservations(rs: map<ReservationId, Reservation>, orders: map<OrderId, Order>, clock: int, o: OrderId,
                              row: Order, how: Option<ReservationStatus>)
    requires ReservationsOk(rs, orders, clock) && o in orders && !Terminal(orders[o].status) && !row.status.Expired?
    requires HoldsNothing(row.status) <==> how.Some?
    requires how.Some? ==> how.value == if row.status.Completed? then Consumed else Released
    ensures ReservationsOk(if how.Some? then SettleOrder(rs, o, how.value) else rs, orders[o := row], clock)
  {
  }

  lemma MoveKeepsKeys(keys: map<string, KeyRow>, orderKeys: map<string, OrderId>, orders: map<OrderId, Order>,
                      o: OrderId, row: Order)
    requires KeysOk(keys, orderKeys, orders) && o in orders
    requires row == orders[o].(status := row.status, attempts := row.attempts)
    ensures KeysOk(keys, orderKeys, orders[o := row]) && orders[o := row].Keys == orders.Keys
  {
    KeysKept(keys, orderKeys, orders, orders[o := row]);
  }

  lemma CancelKeepsRows(db: State, db': State, o: OrderId, user: User)
    requires RowsOk(db) && MayCancel(db, o, user) && CancelledBy(db, db', o)
    ensures RowsOk(db')
  {
    var row := db.orders[o].(status := Cancelled);
    MoveKeepsReservations(db.reservations, db.orders, db.clock, o, row, Some(Released));
    MoveKeepsKeys(db.keys, db.orderKeys, db.orders, o, row);
    CancelKeepsWorkers(db.workers, db.orders, db.deadLetters, db.cfg, o, row);
  }

  /** No activation is at work on an order that may be cancelled or expired. */
  lemma CancelKeepsWorkers(workers: map<OrderId, Worker>, orders: map<OrderId, Order>, letters: seq<DeadLetter>,
                           cfg: Config, o: OrderId, row: Order)
    requires WorkersOk(workers, orders, letters, cfg) && o in orders
    requires orders[o].status.Pending? || orders[o].status.Reserved?
    requires row == orders[o].(status := row.status) && (row.status.Cancelled? || row.status.Expired?)
    ensures WorkersOk(workers, orders[o := row], letters, cfg)
  {
  }

  lemma BeginKeepsRows(db: State, db': State, o: OrderId)
    requires RowsOk(db) && o in db.orders && db.orders[o].status.Reserved?
    requires db' == db.(orders := db.orders[o := Started(db.orders[o])],
                        workers := db.workers[o := Charging(db.orders[o].attempts + 1, db.orders[o].token)])
    ensures RowsOk(db')
  {
    var row := Started(db.orders[o]);
    MoveKeepsReservations(db.reservations, db.orders, db.clock, o, row, None);
    MoveKeepsKeys(db.keys, db.orderKeys, db.orders, o, row);
    BeginKeepsWorkers(db.workers, db.orders, db.deadLetters, db.cfg, o);
  }

  lemma BeginKeepsWorkers(workers: map<OrderId, Worker>, orders: map<OrderId, Order>, letters: seq<DeadLetter>,
                          cfg: Config, o: OrderId)
    requires WorkersOk(workers, orders, letters, cfg) && o in orders && orders[o].status.Reserved?
    ensures WorkersOk(workers[o := Charging(orders[o].attempts + 1, orders[o].token)], orders[o := Started(orders[o])],
                      letters, cfg)
  {
  }

  lemma FinishKeepsRows(db: State, db': State, o: OrderId, attempt: nat, token: string)
    requires RowsOk(db) && WorkerOf(db, o) == Charging(attempt, token) && o in db.orders
    requires Finished(db, db', o, SettlementOf(db.cfg, attempt, token))
    ensures RowsOk(db')
  {
    var s := SettlementOf(db.cfg, attempt, token);
    var row := db.orders[o].(status := s.status);
    assert db.orders[o].status.Processing?;
    MoveKeepsReservations(db.reservations, db.orders, db.clock, o, row, s.reservations);
    MoveKeepsKeys(db.keys, db.orderKeys, db.orders, o, row);
    FinishKeepsWorkers(db.workers, db.orders, db.deadLetters, db.cfg, o, attempt, token);
  }

  lemma FinishKeepsWorkers(workers: map<OrderId, Worker>, orders: map<OrderId, Order>, letters: seq<DeadLetter>,
                           cfg: Config, o: OrderId, attempt: nat, token: string)
    requires WorkersOk(workers, orders, letters, cfg) && o in orders
    requires o in workers && workers[o] == Charging(attempt, token)
    ensures var s := SettlementOf(cfg, attempt, token);
            WorkersOk(workers[o := s.worker], orders[o := orders[o].(status := s.status)], letters, cfg)
  {
    assert Owned(workers[o], orders[o], o, letters, cfg);
  }

  lemma RecordKeepsWorkers(workers: map<OrderId, Worker>, orders: map<OrderId, Order>, letters: seq<DeadLetter>,
                           cfg: Config, o: OrderId, attempt: nat, reason: string)
    requires WorkersOk(workers, orders, letters, cfg) && o in workers && workers[o] == Recording(attempt, reason)
    ensures WorkersOk(workers[o := Idle], orders, letters + [DeadLetter(o, reason, attempt)], cfg)
  {
    assert o in orders && Owned(workers[o], orders[o], o, letters, cfg);
  }

  // expire_reservations

  lemma ExpireKeepsReservations(db: State, now: int, claims: seq<Found>)
    requires ReservationsOk(db.reservations, db.orders, db.clock) && now <= db.clock && Overdue(db, claims, now)
    ensures ReservationsOk(ReleaseFound(db.reservations, claims), ExpireOrders(db.orders, claims), db.clock)
  {
    var rs, orders := ReleaseFound(db.reservations, claims), ExpireOrders(db.orders, claims);
    forall id | id in rs && orders[rs[id].order].status.Expired?
      ensures rs[id].expiresAt < db.clock
    {
      var o := db.reservations[id].order;
      if !db.orders[o].status.Expired? {
        var i :| 0 <= i < |claims| && claims[i].1.order == o;
        assert db.reservations[claims[i].0] == claims[i].1;
      }
    }
  }

  lemma ExpireKeepsWorkers(workers: map<OrderId, Worker>, orders: map<OrderId, Order>, letters: seq<DeadLetter>,
                           cfg: Config, claims: seq<Found>)
    requires WorkersOk(workers, orders, letters, cfg)
    ensures WorkersOk(workers, ExpireOrders(orders, claims), letters, cfg)
  {
    var b := ExpireOrders(orders, claims);
    forall o | o in workers && !workers[o].Idle?
      ensures o in b && Owned(workers[o], b[o], o, letters, cfg)
    {
      assert Owned(workers[o], orders[o], o, letters, cfg);
      assert b[o] == orders[o];
    }
  }

  lemma ExpireKeepsRows(db: State, db': State, now: int, claims: seq<Found>)
    requires RowsOk(db) && now <= db.clock && Overdue(db, claims, now) && Swept(db, db', claims)
    ensures RowsOk(db')
  {
    ExpireKeepsReservations(db, now, claims);
    KeysKept(db.keys, db.orderKeys, db.orders, db'.orders);
    assert db'.orders.Keys == db.orders.Keys;
    ExpireKeepsWorkers(db.workers, db.orders, db.deadLetters, db.cfg, claims);
  }

  // the relay

  lemma RelayKeepsOutbox(a: map<EventId, Event>, ids: set<OrderId>, broker: set<EventId>, events: seq<EventId>)
    requires OutboxOk(a, ids, broker) && (forall e | e in events :: e in broker)
    ensures OutboxOk(PublishFound(a, events), ids, broker)
  {
    var b := PublishFound(a, events);
    forall o | o in ids
      ensures Announced(b, o)
    {
      assert Announced(a, o);
      var e :| e in a && a[e].body == OrderReserved(o);
      assert b[e].body == OrderReserved(o);
    }
  }

  // ---- every transaction ----

  /** The stock side of the invariant, by the typing of the code. */
  lemma LedgersKept(db: State, tx: Tx)
    requires Inv(db) && Legal(tx) && Run(db, Code(db.cfg, tx)).Committed?
    ensures StockOk(Run(db, Code(db.cfg, tx)).db)
  {
    var p := Code(db.cfg, tx);
    CodeTyped(db.cfg, tx);
    if Quiet(p) { QuietStops(db, p); }
    MidwayAtStart(db, p);
    TypedRun(db, p, {}, {});
    var db' := Run(db, p).db;
    forall l
      ensures Slack(db', l) == 0
    {
      assert Slack(db', l) + Debt(Commit, l) == 0;
    }
  }

  lemma MidwayAtStart(db: State, p: Prog)
    requires Inv(db) && (Quiet(p) || NoDebt(p))
    ensures Midway(db, p, {}, {})
  {
    if !Quiet(p) {
      forall l
        ensures Slack(db, l) + Debt(p, l) == 0
      {
        assert Debt(p, l) == 0;
      }
    }
  }

  /** The rows of orders, reservations, keys, events and workers, by what each transaction does. */
  lemma RowsKept(db: State, tx: Tx)
    requires Inv(db) && Legal(tx) && Run(db, Code(db.cfg, tx)).Committed?
    ensures RowsOk(Run(db, Code(db.cfg, tx)).db)
  {
    if tx.Adjust? || tx.Threshold? || tx.Relay? || tx.Record? {
      SmallTxKeepsRows(db, tx);
    } else {
      OrderTxKeepsRows(db, tx);
    }
  }

  lemma OrderTxKeepsRows(db: State, tx: Tx)
    requires RowsOk(db) && Legal(tx) && Run(db, Code(db.cfg, tx)).Committed?
    requires tx.Create? || tx.Cancel? || tx.Begin? || tx.Finish? || tx.Expire?
    ensures RowsOk(Run(db, Code(db.cfg, tx)).db)
  {
    var db' := Run(db, Code(db.cfg, tx)).db;
    match tx
    case Create(_, _, _, _, _, _, _) =>
      CreateEffect(db, tx);
      CreateKeepsRows(db, db', tx);
    case Cancel(o, user, found) =>
      CancelEffect(db, o, user, found);
      CancelKeepsRows(db, db', o, user);
    case Begin(o) =>
      BeginEffect(db, o);
      BeginKeepsRows(db, db', o);
    case Finish(o, attempt, token, found) =>
      FinishEffect(db, o, attempt, token, found);
      FinishKeepsRows(db, db', o, attempt, token);
    case Expire(now, claims) =>
      ExpireEffect(db, now, claims);
      ExpireKeepsRows(db, db', now, claims);
  }

  lemma SmallTxKeepsRows(db: State, tx: Tx)
    requires RowsOk(db) && Legal(tx) && Run(db, Code(db.cfg, tx)).Committed?
    requires tx.Adjust? || tx.Threshold? || tx.Relay? || tx.Record?
    ensures RowsOk(Run(db, Code(db.cfg, tx)).db)
  {
    var db' := Run(db, Code(db.cfg, tx)).db;
    match tx
    case Adjust(p, w, delta, reason, first, alert, e) =>
      AdjustEffect(db, p, w, delta, reason, first, alert, e);
      OutboxKept(db.events, db'.events, db.orders.Keys, db.broker);
    case Threshold(p, w, threshold, first) =>
      ThresholdEffect(db, p, w, threshold, first);
    case Relay(events) =>
      RelayEffect(db, events);
      RelayKeepsOutbox(db.events, db.orders.Keys, db.broker, events);
    case Record(o, attempt, reason) =>
      RecordEffect(db, o, attempt, reason);
      RecordKeepsWorkers(db.workers, db.orders, db.deadLetters, db.cfg, o, attempt, reason);
  }

  /** Every committed transaction keeps the whole invariant. */
  lemma TransactionKeepsInv(db: State, tx: Tx)
    requires Inv(db) && Legal(tx) && Run(db, Code(db.cfg, tx)).Committed?
    ensures Inv(Run(db, Code(db.cfg, tx)).db)
  {
    LedgersKept(db, tx);
    RowsKept(db, tx);
  }

  // ---- and nothing final is undone ----

  /** Every committed transaction only moves forward. */
  lemma TransactionEvolves(db: State, tx: Tx)
    requires Inv(db) && Legal(tx) && Run(db, Code(db.cfg, tx)).Committed?
    ensures Evolves(db, Run(db, Code(db.cfg, tx)).db)
  {
    var db' := Run(db, Code(db.cfg, tx)).db;
    if tx.Create? {
      CreateEffect(db, tx);
      CreateEvolves(db, db', tx);
    } else if tx.Expire? {
      ExpireEffect(db, tx.now, tx.claims);
      ExpireEvolves(db, db', tx.now, tx.claims);
    } else if tx.Cancel? || tx.Begin? {
      CancelOrBeginEvolves(db, tx);
    } else if tx.Finish? {
      FinishEvolves(db, tx);
    } else if tx.Adjust? || tx.Threshold? {
      StockTxEvolves(db, tx);
    } else {
      RelayOrRecordEvolves(db, tx);
    }
  }

  lemma CancelOrBeginEvolves(db: State, tx: Tx)
    requires Legal(tx) && Run(db, Code(db.cfg, tx)).Committed? && (tx.Cancel? || tx.Begin?)
    ensures Evolves(db, Run(db, Code(db.cfg, tx)).db)
  {
    var db' := Run(db, Code(db.cfg, tx)).db;
    match tx
    case Cancel(o, user, found) =>
      CancelEffect(db, o, user, found);
      MoveEvolves(db, db', o, Some(Released));
    case Begin(o) =>
      BeginEffect(db, o);
      MoveEvolves(db, db', o, None);
  }

  lemma FinishEvolves(db: State, tx: Tx)
    requires WorkersOk(db.workers, db.orders, db.deadLetters, db.cfg) && tx.Finish?
    requires Legal(tx) && Run(db, Code(db.cfg, tx)).Committed?
    ensures Evolves(db, Run(db, Code(db.cfg, tx)).db)
  {
    FinishEffect(db, tx.order, tx.attempt, tx.token, tx.found);
    assert Owned(db.workers[tx.order], db.orders[tx.order], tx.order, db.deadLetters, db.cfg);
    MoveEvolves(db, Run(db, Code(db.cfg, tx)).db, tx.order, SettlementOf(db.cfg, tx.attempt, tx.token).reservations);
  }

  lemma MoveEvolves(db: State, db': State, o: OrderId, how: Option<ReservationStatus>)
    requires SameElse(db, db') && o in db.orders && o in db'.orders && db'.orders == db.orders[o := db'.orders[o]]
    requires !Terminal(db.orders[o].status) && OrderEvolves(db.orders[o], db'.orders[o])
    requires db'.reservations == if how.Some? then SettleOrder(db.reservations, o, how.value) else db.reservations
    ensures Evolves(db, db')
  {
  }

  /** What no order transaction touches. */
  ghost predicate SameElse(a: State, b: State) {
    && a.cfg == b.cfg && a.clock == b.clock && a.broker == b.broker && a.keys == b.keys && a.events == b.events
    && a.alerts == b.alerts && a.deadLetters == b.deadLetters
  }

  lemma MovedEvolves(a: State, b: State)
    requires StockMoved(a, b)
    ensures Evolves(a, b)
  {
  }

  lemma StockTxEvolves(db: State, tx: Tx)
    requires Legal(tx) && Run(db, Code(db.cfg, tx)).Committed? && (tx.Adjust? || tx.Threshold?)
    ensures Evolves(db, Run(db, Code(db.cfg, tx)).db)
  {
    if tx.Adjust? {
      AdjustEffect(db, tx.p, tx.w, tx.delta, tx.reason, tx.first, tx.alert, tx.event);
      MovedEvolves(db, Run(db, Code(db.cfg, tx)).db);
    } else {
      ThresholdEffect(db, tx.p, tx.w, tx.threshold, tx.first);
    }
  }

  lemma RelayOrRecordEvolves(db: State, tx: Tx)
    requires Legal(tx) && Run(db, Code(db.cfg, tx)).Committed? && (tx.Relay? || tx.Record?)
    ensures Evolves(db, Run(db, Code(db.cfg, tx)).db)
  {
    if tx.Relay? { RelayEffect(db, tx.events); } else { RecordEffect(db, tx.order, tx.attempt, tx.reason); }
  }

  lemma CreateEvolves(db: State, db': State, tx: Tx)
    requires Created(db, db', tx)
    ensures Evolves(db, db')
  {
    var rows := ReservationsFor(tx.payload.items, tx.picks, tx.order, tx.now + db.cfg.timeout);
    forall id | id in db'.reservations && id !in db.reservations
      ensures db'.reservations[id].order !in db.orders
    {
      var i :| 0 <= i < |rows| && rows[i].0 == id;
    }
  }

  lemma ExpireEvolves(db: State, db': State, now: int, claims: seq<Found>)
    requires Overdue(db, claims, now) && Swept(db, db', claims)
    ensures Evolves(db, db')
  {
    forall id | id in db.reservations
      ensures ReservationEvolves(db.reservations[id], db'.reservations[id])
    {
      if Listed(claims, id) {
        var i :| 0 <= i < |claims| && claims[i].0 == id;
        assert IsActive(db, claims[i].0);
      }
    }
  }
}

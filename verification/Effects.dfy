/** What each transaction leaves behind in the tables of orders, reservations, keys, events and workers,
    said without its statements. (What it does to stock is the ledgers' business.) */
module Effects {
  import opened Schema
  import opened Statements
  import opened Transactions

  /** `b` differs from `a` in stock, reservations and the audit log at most. */
  ghost predicate StockOnly(a: State, b: State) {
    b == a.(inventory := b.inventory, reservations := b.reservations, audit := b.audit)
  }

  // ---- release_reservation and consume_reservation ----

  lemma ReleaseRun(db: State, id: ReservationId, r: Reservation, o: OrderId, k: Prog) returns (db': State)
    ensures Run(db, ReleaseReservation(id, r, o, k)) == Run(db', k) && StockOnly(db, db')
    ensures db'.reservations ==
      if IsActive(db, id) then db.reservations[id := db.reservations[id].(status := Released)] else db.reservations
  {
    var mark, give := OnReservation(id, MarkReleased(r)), OnStock(r.product, r.warehouse, Release(r.quantity));
    var log := Audit(Entry(r.product, r.warehouse, r.quantity, ReservationReleased, o));
    var tail := CheckLow(r.product, r.warehouse, r.quantity, 0, 0, k);
    RunDo(db, mark, Ignoring(give, Then(log, tail)), k);
    db' := db;
    if Ok(db', mark) {
      db' := Exec(db', mark);
      RunIgnoring(db', give, Then(log, tail));
      if Ok(db', give) { db' := Exec(db', give); }
      RunDo(db', log, tail, Stop(IntegrityError));
      db' := ResetRun(Exec(db', log), r.product, r.warehouse, r.quantity, k);
    }
  }

  lemma ResetRun(db: State, p: ProductId, w: WarehouseId, q: nat, k: Prog) returns (db': State)
    ensures Run(db, CheckLow(p, w, q, 0, 0, k)) == Run(db', k) && db' == db.(inventory := db'.inventory)
  {
    db' := db;
    if q > 0 {
      var reset := OnStock(p, w, ResetLowStock);
      RunIgnoring(db, reset, k);
      if Ok(db, reset) { db' := Exec(db, reset); }
    }
  }

  lemma ConsumeRun(db: State, id: ReservationId, r: Reservation, o: OrderId, k: Prog) returns (db': State)
    ensures Run(db, ConsumeReservation(id, r, o, k)) == Run(db', k) && StockOnly(db, db')
    ensures db'.reservations ==
      if IsActive(db, id) then db.reservations[id := db.reservations[id].(status := Consumed)] else db.reservations
  {
    var mark, give := OnReservation(id, MarkConsumed(r)), OnStock(r.product, r.warehouse, Consume(r.quantity));
    var log := Audit(Entry(r.product, r.warehouse, -(r.quantity as int), OrderCompleted, o));
    RunDo(db, mark, Ignoring(give, Then(log, k)), k);
    db' := db;
    if Ok(db', mark) {
      db' := Exec(db', mark);
      RunIgnoring(db', give, Then(log, k));
      if Ok(db', give) { db' := Exec(db', give); }
      RunDo(db', log, k, Stop(IntegrityError));
      db' := Exec(db', log);
    }
  }

  /** The rows of `found` that are ACTIVE become `how`. */
  function SettleFound(m: map<ReservationId, Reservation>, found: seq<Found>, how: ReservationStatus)
    : map<ReservationId, Reservation>
  {
    map id | id in m :: if m[id].status.Active? && Listed(found, id) then m[id].(status := how) else m[id]
  }

  /** Every ACTIVE reservation of the order becomes `how`; nothing else changes. */
  function SettleOrder(m: map<ReservationId, Reservation>, o: OrderId, how: ReservationStatus)
    : map<ReservationId, Reservation>
  {
    map id | id in m :: if m[id].status.Active? && m[id].order == o then m[id].(status := how) else m[id]
  }

  lemma SettleFoundSplits(m: map<ReservationId, Reservation>, found: seq<Found>, how: ReservationStatus)
    requires found != [] && !how.Active?
    ensures var id := found[0].0;
      SettleFound(m, found, how) ==
      SettleFound(if id in m && m[id].status.Active? then m[id := m[id].(status := how)] else m, found[1..], how)
  {
    forall id
      ensures Listed(found, id) <==> id == found[0].0 || Listed(found[1..], id)
    {
      if Listed(found, id) && id != found[0].0 {
        var i :| 0 <= i < |found| && found[i].0 == id;
        assert found[1..][i - 1].0 == id;
      }
      if Listed(found[1..], id) {
        var i :| 0 <= i < |found[1..]| && found[1..][i].0 == id;
        assert found[i + 1].0 == id;
      }
    }
  }

  lemma {:induction false} SettleRun(db: State, found: seq<Found>, o: OrderId, how: ReservationStatus, k: Prog)
    returns (db': State)
    requires !how.Active?
    ensures Run(db, Settle(found, o, how, k)) == Run(db', k) && StockOnly(db, db')
    ensures how.Released? || how.Consumed? ==> db'.reservations == SettleFound(db.reservations, found, how)
    decreases |found|
  {
    if found == [] {
      db' := db;
    } else {
      var rest := Settle(found[1..], o, how, k);
      if how.Consumed? {
        db' := ConsumeRun(db, found[0].0, found[0].1, o, rest);
      } else {
        db' := ReleaseRun(db, found[0].0, found[0].1, o, rest);
      }
      SettleFoundSplits(db.reservations, found, how);
      db' := SettleRun(db', found[1..], o, how, k);
    }
  }

  lemma SettleCovers(db: State, o: OrderId, found: seq<Found>, how: ReservationStatus)
    requires Covers(db, o, found) && ActiveRowsOf(found, o)
    ensures SettleFound(db.reservations, found, how) == SettleOrder(db.reservations, o, how)
  {
    forall id | id in db.reservations && db.reservations[id].status.Active?
      ensures Listed(found, id) <==> db.reservations[id].order == o
    {
      if Listed(found, id) {
        var i :| 0 <= i < |found| && found[i].0 == id;
        assert IsRow(db, found[i].0, found[i].1);
      }
      if db.reservations[id].order == o { assert IsActive(db, id); }
    }
  }

  lemma SelectAndSettleRun(db: State, o: OrderId, found: seq<Found>, how: ReservationStatus, k: Prog)
    returns (db': State)
    requires how.Released? || how.Consumed?
    requires Covers(db, o, found) && ActiveRowsOf(found, o)
    ensures Run(db, Do(SelectActive(o, found), Settle(found, o, how, k), Stop(OtherRead))) == Run(db', k)
    ensures StockOnly(db, db') && db'.reservations == SettleOrder(db.reservations, o, how)
  {
    assert Ok(db, SelectActive(o, found));
    db' := SettleRun(db, found, o, how, k);
    SettleCovers(db, o, found, how);
  }

  // ---- cancel_order ----

  predicate MayCancel(db: State, o: OrderId, user: User) {
    && o in db.orders
    && (user.role.Client? ==> db.orders[o].owner == user.id)
    && (db.orders[o].status.Pending? || db.orders[o].status.Reserved?)
  }

  ghost predicate CancelledBy(db: State, db': State, o: OrderId)
    requires o in db.orders
  {
    && StockOnly(db.(orders := db'.orders), db')
    && db'.orders == db.orders[o := db.orders[o].(status := Cancelled)]
    && db'.reservations == SettleOrder(db.reservations, o, Released)
  }

  /** Cancelling succeeds exactly when the caller may; then it cancels the order and frees all it still holds. */
  lemma CancelEffect(db: State, o: OrderId, user: User, found: seq<Found>)
    requires ActiveRowsOf(found, o)
    ensures Run(db, CancelCode(o, user, found)).Committed? <==> MayCancel(db, o, user) && Covers(db, o, found)
    ensures MayCancel(db, o, user) && Covers(db, o, found) ==>
      CancelledBy(db, Run(db, CancelCode(o, user, found)).db, o)
  {
    var lock, see, may := OnOrder(o, LockOrder), OnOrder(o, IsVisible(user)), OnOrder(o, IsCancellable);
    var close := Then(OnOrder(o, SetStatus(Cancelled)), Commit);
    var settle := Do(SelectActive(o, found), Settle(found, o, Released, close), Stop(OtherRead));
    var allowed := Do(may, settle, Stop(CannotCancel));
    RunDo(db, lock, Do(see, allowed, Stop(Forbidden)), Stop(OrderNotFound));
    RunDo(db, see, allowed, Stop(Forbidden));
    RunDo(db, may, settle, Stop(CannotCancel));
    RunDo(db, SelectActive(o, found), Settle(found, o, Released, close), Stop(OtherRead));
    if MayCancel(db, o, user) && Covers(db, o, found) {
      var db1 := SelectAndSettleRun(db, o, found, Released, close);
      assert Ok(db1, OnOrder(o, SetStatus(Cancelled)));
      RunDo(db1, OnOrder(o, SetStatus(Cancelled)), Commit, Stop(IntegrityError));
    }
  }

  // ---- process_order ----

  lemma BeginEffect(db: State, o: OrderId)
    ensures Run(db, BeginCode(o)) ==
      if o in db.orders && db.orders[o].status.Reserved?
      then Committed(db.(orders := db.orders[o := Started(db.orders[o])],
                         workers := db.workers[o := Charging(db.orders[o].attempts + 1, db.orders[o].token)]))
      else Stopped(NothingToDo)
  {
    var lock, look := OnOrder(o, LockOrder), OnOrder(o, IsReserved);
    var start := Then(StartProcessing(o), Commit);
    RunDo(db, lock, Do(look, start, Stop(NothingToDo)), Stop(NothingToDo));
    RunDo(db, look, start, Stop(NothingToDo));
    RunDo(db, StartProcessing(o), Commit, Stop(IntegrityError));
  }

  /** What the second half of process_order does to order `o`. */
  datatype Settlement = Settlement(status: OrderStatus, reservations: Option<ReservationStatus>, worker: Worker)

  function SettlementOf(cfg: Config, attempt: nat, token: string): Settlement {
    match Charge(token)
    case Approved => Settlement(Completed, Some(Consumed), Idle)
    case Declined(retryable, message) =>
      if retryable && attempt < cfg.maxAttempts then Settlement(Reserved, None, Idle)
      else Settlement(Failed, Some(Released), AfterFailure(cfg, attempt, message))
  }

  ghost predicate Finished(db: State, db': State, o: OrderId, s: Settlement)
    requires o in db.orders
  {
    && StockOnly(db.(orders := db'.orders, workers := db'.workers), db')
    && db'.orders == db.orders[o := db.orders[o].(status := s.status)]
    && db'.workers == db.workers[o := s.worker]
    && (s.reservations.None? ==> db' == db.(orders := db'.orders, workers := db'.workers))
    && (s.reservations.Some? ==> db'.reservations == SettleOrder(db.reservations, o, s.reservations.value))
  }

  ghost predicate MayFinish(db: State, o: OrderId, attempt: nat, token: string, found: seq<Found>) {
    && WorkerOf(db, o) == Charging(attempt, token) && o in db.orders
    && (SettlementOf(db.cfg, attempt, token).reservations.Some? ==> Covers(db, o, found))
  }

  lemma CloseRun(db: State, o: OrderId, status: OrderStatus, worker: Worker)
    requires o in db.orders
    ensures Run(db, Then(OnOrder(o, SetStatus(status)), Then(OnWorker(o, Remember(worker)), Commit))) ==
      Committed(db.(orders := db.orders[o := db.orders[o].(status := status)], workers := db.workers[o := worker]))
  {
    var close, forget := OnOrder(o, SetStatus(status)), OnWorker(o, Remember(worker));
    assert Ok(db, close);
    assert Ok(Exec(db, close), forget);
    assert Run(Exec(db, close), Then(forget, Commit)) == Committed(Exec(Exec(db, close), forget));
  }

  lemma OutcomeEffect(db: State, o: OrderId, attempt: nat, token: string, found: seq<Found>)
    requires ActiveRowsOf(found, o) && o in db.orders
    ensures var s := SettlementOf(db.cfg, attempt, token); var r := Run(db, Outcome(db.cfg, o, attempt, token, found));
      && (r.Committed? <==> (s.reservations.Some? ==> Covers(db, o, found)))
      && (r.Committed? ==> Finished(db, r.db, o, s))
  {
    var s := SettlementOf(db.cfg, attempt, token);
    if s.reservations.None? {
      CloseRun(db, o, Reserved, Idle);
    } else if Covers(db, o, found) {
      var close := Then(OnOrder(o, SetStatus(s.status)), Then(OnWorker(o, Remember(s.worker)), Commit));
      var db1 := SelectAndSettleRun(db, o, found, s.reservations.value, close);
      CloseRun(db1, o, s.status, s.worker);
    } else {
      assert !Ok(db, SelectActive(o, found));
    }
  }

  lemma FinishEffect(db: State, o: OrderId, attempt: nat, token: string, found: seq<Found>)
    requires ActiveRowsOf(found, o)
    ensures var r := Run(db, FinishCode(db.cfg, o, attempt, token, found));
      && (r.Committed? <==> MayFinish(db, o, attempt, token, found))
      && (r.Committed? ==> Finished(db, r.db, o, SettlementOf(db.cfg, attempt, token)))
  {
    var resume, lock := OnWorker(o, Resume(Charging(attempt, token))), OnOrder(o, LockOrder);
    var body := Outcome(db.cfg, o, attempt, token, found);
    RunDo(db, resume, Do(lock, body, Stop(OrderNotFound)), Stop(NothingToDo));
    RunDo(db, lock, body, Stop(OrderNotFound));
    if o in db.orders { OutcomeEffect(db, o, attempt, token, found); }
  }

  lemma RecordEffect(db: State, o: OrderId, attempt: nat, reason: string)
    ensures Run(db, RecordCode(o, attempt, reason)) ==
      if WorkerOf(db, o) == Recording(attempt, reason)
      then Committed(db.(deadLetters := db.deadLetters + [DeadLetter(o, reason, attempt)],
                         workers := db.workers[o := Idle]))
      else Stopped(NothingToDo)
  {
    var resume := OnWorker(o, Resume(Recording(attempt, reason)));
    var insert, forget := InsertDeadLetter(DeadLetter(o, reason, attempt)), OnWorker(o, Remember(Idle));
    RunDo(db, resume, Then(insert, Then(forget, Commit)), Stop(NothingToDo));
    RunDo(db, insert, Then(forget, Commit), Stop(IntegrityError));
    RunDo(Exec(db, insert), forget, Commit, Stop(IntegrityError));
  }

  // ---- create_order ----

  /** The events of `a`, and new PENDING low-stock events. */
  ghost predicate AlertEvents(a: map<EventId, Event>, b: map<EventId, Event>) {
    && (forall e | e in a :: e in b && b[e] == a[e])
    && (forall e | e in b && e !in a :: b[e].body.LowStockAlertCreated? && !b[e].published)
  }

  /** Stock moved and alerts were raised; nothing else happened. */
  ghost predicate StockMoved(a: State, b: State) {
    && b == a.(inventory := b.inventory, audit := b.audit, alerts := b.alerts, events := b.events)
    && a.alerts <= b.alerts && AlertEvents(a.events, b.events)
  }

  lemma FlipRun(db: State, p: ProductId, w: WarehouseId, alert: AlertId, e: EventId, k: Prog) returns (db': State)
    requires Run(db, CheckLow(p, w, -1, alert, e, k)).Committed?
    ensures Run(db, CheckLow(p, w, -1, alert, e, k)) == Run(db', k) && StockMoved(db, db')
  {
    db' := db;
    var flip, raise := OnStock(p, w, FlipLowStock), RaiseAlert(p, w, alert, e);
    RunDo(db, flip, Then(raise, k), k);
    if Ok(db, flip) {
      db' := Exec(db, flip);
      RunDo(db', raise, k, Stop(IntegrityError));
      db' := Exec(db', raise);
    }
  }

  lemma CheckLowRun(db: State, p: ProductId, w: WarehouseId, delta: int, alert: AlertId, e: EventId, k: Prog)
    returns (db': State)
    requires Run(db, CheckLow(p, w, delta, alert, e, k)).Committed?
    ensures Run(db, CheckLow(p, w, delta, alert, e, k)) == Run(db', k) && StockMoved(db, db')
  {
    db' := db;
    if delta < 0 {
      db' := FlipRun(db, p, w, alert, e, k);
    } else if delta > 0 {
      RunIgnoring(db, OnStock(p, w, ResetLowStock), k);
      if Ok(db, OnStock(p, w, ResetLowStock)) { db' := Exec(db, OnStock(p, w, ResetLowStock)); }
    }
  }

  lemma ReserveRun(db: State, p: ProductId, w: WarehouseId, q: nat, pick: Pick, o: OrderId, k: Prog)
    returns (db': State)
    requires Run(db, Reserve(p, w, q, pick, o, k)).Committed?
    ensures Run(db, Reserve(p, w, q, pick, o, k)) == Run(db', k) && StockMoved(db, db')
  {
    var take, log := OnStock(p, w, TryReserve(q)), Audit(Entry(p, w, -(q as int), InventoryReserved, o));
    var tail := CheckLow(p, w, -(q as int), pick.alert, pick.event, k);
    RunDo(db, take, Then(log, tail), Stop(InsufficientInventory));
    var db1 := Exec(db, take);
    RunDo(db1, log, tail, Stop(IntegrityError));
    db' := CheckLowRun(Exec(db1, log), p, w, -(q as int), pick.alert, pick.event, k);
  }

  lemma {:induction false} ReserveLinesRun(db: State, lines: seq<Line>, picks: seq<Pick>, o: OrderId, k: Prog)
    returns (db': State)
    requires |lines| == |picks| && Run(db, ReserveLines(lines, picks, o, k)).Committed?
    ensures Run(db, ReserveLines(lines, picks, o, k)) == Run(db', k) && StockMoved(db, db')
    decreases |lines|
  {
    if lines == [] {
      db' := db;
    } else {
      var rest := ReserveLines(lines[1..], picks[1..], o, k);
      var db1 := ReserveRun(db, lines[0].product, picks[0].warehouse.value, lines[0].quantity, picks[0], o, rest);
      db' := ReserveLinesRun(db1, lines[1..], picks[1..], o, k);
    }
  }

  /** `b` is `a` and the rows listed, which are new. */
  ghost predicate AddsRows(a: map<ReservationId, Reservation>, b: map<ReservationId, Reservation>, rows: seq<Found>) {
    && Distinct(rows)
    && (forall id | id in a :: id in b && b[id] == a[id])
    && (forall i | 0 <= i < |rows| :: rows[i].0 !in a && rows[i].0 in b && b[rows[i].0] == rows[i].1)
    && (forall id | id in b && id !in a :: Listed(rows, id))
  }

  lemma {:induction false} InsertAllRun(db: State, rows: seq<Found>, k: Prog) returns (db': State)
    requires Run(db, InsertAll(rows, k)).Committed?
    ensures Run(db, InsertAll(rows, k)) == Run(db', k)
    ensures db' == db.(reservations := db'.reservations) && AddsRows(db.reservations, db'.reservations, rows)
    decreases |rows|
  {
    if rows == [] {
      db' := db;
    } else {
      var insert := OnReservation(rows[0].0, InsertReservation(rows[0].1));
      RunDo(db, insert, InsertAll(rows[1..], k), Stop(IntegrityError));
      var db1 := Exec(db, insert);
      db' := InsertAllRun(db1, rows[1..], k);
      AddsOneMore(db.reservations, db'.reservations, rows);
    }
  }

  lemma AddsOneMore(a: map<ReservationId, Reservation>, b: map<ReservationId, Reservation>, rows: seq<Found>)
    requires rows != [] && rows[0].0 !in a && AddsRows(a[rows[0].0 := rows[0].1], b, rows[1..])
    ensures AddsRows(a, b, rows)
  {
    var a1 := a[rows[0].0 := rows[0].1];
    assert forall i | 1 <= i < |rows| :: rows[i] == rows[1..][i - 1];
    forall i | 0 <= i < |rows|
      ensures rows[i].0 !in a && rows[i].0 in b && b[rows[i].0] == rows[i].1
      ensures i > 0 ==> rows[i].0 != rows[0].0
    {
      if i > 0 { assert rows[1..][i - 1].0 !in a1; } else { assert rows[0].0 in a1; }
    }
    forall i, j | 0 <= i < j < |rows|
      ensures rows[i].0 != rows[j].0
    {
      if i > 0 { assert rows[1..][i - 1].0 != rows[1..][j - 1].0; }
    }
    forall id | id in b && id !in a
      ensures Listed(rows, id)
    {
      if id != rows[0].0 {
        var i :| 0 <= i < |rows[1..]| && rows[1..][i].0 == id;
        assert rows[i + 1].0 == id;
      }
    }
  }

  /** What create_order never touches. */
  ghost predicate SameElsewhere(a: State, b: State) {
    && a.cfg == b.cfg && a.deadLetters == b.deadLetters && a.workers == b.workers
    && a.broker == b.broker && a.clock == b.clock
  }

  /** The order, its reservations and its outbox event are in, and the stock was taken. */
  ghost predicate Inserted(db: State, db': State, tx: Tx, row: Order) {
    && tx.Create? && Legal(tx)
    && tx.now <= db.clock
    && RowsIn(db, db', tx.order, row,
              ReservationsFor(tx.payload.items, tx.picks, tx.order, tx.now + db.cfg.timeout), tx.event)
    && db.alerts <= db'.alerts
    && SameElsewhere(db, db')
  }

  /** What a committed create_order has done: all that, and the answer stored under the key it claimed. */
  ghost predicate Created(db: State, db': State, tx: Tx) {
    && tx.Create? && Legal(tx) && (forall l | l in tx.payload.items :: l.product in db.cfg.prices)
    && var row := OrderOf(db.cfg, tx);
    && Inserted(db, db', tx, row)
    && (Claims(tx.key) ==> tx.key.value !in db.keys)
    && db'.keys == if !Claims(tx.key) then db.keys else
        db.keys[tx.key.value := Done(tx.payload, tx.order, Serialize(tx.order, row))]
  }

  /** The order row of a Create. */
  function OrderOf(cfg: Config, tx: Tx): Order
    requires tx.Create? && Legal(tx) && forall l | l in tx.payload.items :: l.product in cfg.prices
  {
    NewOrder(cfg, tx.payload, tx.user, tx.key, tx.picks)
  }

  ghost predicate RowsIn(db: State, db': State, o: OrderId, row: Order, rows: seq<Found>, e: EventId) {
    && o !in db.orders && (row.key.Some? ==> row.key.value !in db.orderKeys) && e !in db.events
    && db'.orders == db.orders[o := row]
    && db'.orderKeys == (if row.key.Some? then db.orderKeys[row.key.value := o] else db.orderKeys)
    && AddsRows(db.reservations, db'.reservations, rows)
    && e in db'.events && db'.events[e] == Event(OrderReserved(o), false)
    && (forall x | x in db.events :: x in db'.events && db'.events[x] == db.events[x])
    && (forall x | x in db'.events && x !in db.events && x != e ::
          db'.events[x].body.LowStockAlertCreated? && !db'.events[x].published)
  }

  lemma InsertRowsRun(db: State, o: OrderId, row: Order, rows: seq<Found>, e: EventId, last: Prog) returns (db': State)
    requires Run(db, InsertRows(o, row, rows, e, last)).Committed?
    ensures Run(db, InsertRows(o, row, rows, e, last)) == Run(db', last)
    ensures RowsIn(db, db', o, row, rows, e) && db'.alerts == db.alerts && db'.keys == db.keys && SameElsewhere(db, db')
  {
    var insert, announce := InsertOrder(o, row), OnEvent(e, InsertEvent(OrderReserved(o)));
    RunDo(db, insert, InsertAll(rows, Then(announce, last)), Stop(IntegrityError));
    var db1 := Exec(db, insert);
    var db2 := InsertAllRun(db1, rows, Then(announce, last));
    RunDo(db2, announce, last, Stop(IntegrityError));
    db' := Exec(db2, announce);
  }

  /** Take the stock, then insert the rows. */
  lemma TakeThenInsert(db: State, tx: Tx, row: Order, last: Prog) returns (db': State)
    requires tx.Create? && Legal(tx)
    requires Run(db, BodyFor(db.cfg, tx, row, last)).Committed?
    ensures Run(db, BodyFor(db.cfg, tx, row, last)) == Run(db', last)
    ensures Inserted(db, db', tx, row) && db'.keys == db.keys
  {
    var rows := ReservationsFor(tx.payload.items, tx.picks, tx.order, tx.now + db.cfg.timeout);
    var insert := InsertRows(tx.order, row, rows, tx.event, last);
    var db1 := TakeRun(db, tx.payload.items, tx.picks, tx.order, tx.now, insert);
    db' := InsertRowsRun(db1, tx.order, row, rows, tx.event, last);
    InsertAfterMove(db, db1, db', tx.order, row, rows, tx.event);
  }

  lemma TakeRun(db: State, lines: seq<Line>, picks: seq<Pick>, o: OrderId, now: int, insert: Prog) returns (db': State)
    requires |lines| == |picks|
    requires Run(db, Do(Sample(now), ReserveLines(lines, picks, o, insert), Stop(OtherRead))).Committed?
    ensures Run(db, Do(Sample(now), ReserveLines(lines, picks, o, insert), Stop(OtherRead))) == Run(db', insert)
    ensures now <= db.clock && StockMoved(db, db')
  {
    RunDo(db, Sample(now), ReserveLines(lines, picks, o, insert), Stop(OtherRead));
    db' := ReserveLinesRun(db, lines, picks, o, insert);
  }

  lemma InsertAfterMove(db: State, db1: State, db': State, o: OrderId, row: Order, rows: seq<Found>, e: EventId)
    requires StockMoved(db, db1) && RowsIn(db1, db', o, row, rows, e) && SameElsewhere(db1, db')
    ensures RowsIn(db, db', o, row, rows, e) && SameElsewhere(db, db')
    ensures db'.keys == db1.keys ==> db'.keys == db.keys
    ensures db'.alerts == db1.alerts ==> db.alerts <= db'.alerts
  {
  }

  function BodyFor(cfg: Config, tx: Tx, row: Order, last: Prog): Prog
    requires tx.Create? && Legal(tx)
  {
    var rows := ReservationsFor(tx.payload.items, tx.picks, tx.order, tx.now + cfg.timeout);
    Do(Sample(tx.now),
       ReserveLines(tx.payload.items, tx.picks, tx.order, InsertRows(tx.order, row, rows, tx.event, last)),
       Stop(OtherRead))
  }

  lemma CreateEffect(db: State, tx: Tx)
    requires tx.Create? && Legal(tx)
    ensures var r := Run(db, Code(db.cfg, tx)); r.Committed? ==> Created(db, r.db, tx)
  {
    if Run(db, Code(db.cfg, tx)).Committed? {
      if Claims(tx.key) { ClaimedCreateEffect(db, tx); } else { PlainCreateEffect(db, tx); }
    }
  }

  lemma PlainCreateEffect(db: State, tx: Tx)
    requires tx.Create? && Legal(tx) && !Claims(tx.key) && Run(db, Code(db.cfg, tx)).Committed?
    ensures Created(db, Run(db, Code(db.cfg, tx)).db, tx)
  {
    BodyIs(db.cfg, tx);
    var db' := TakeThenInsert(db, tx, OrderOf(db.cfg, tx), Commit);
  }

  lemma BodyIs(cfg: Config, tx: Tx)
    requires tx.Create? && Legal(tx)
    ensures CreateBody(cfg, tx.payload, tx.user, tx.key, tx.order, tx.event, tx.now, tx.picks) ==
      if exists l | l in tx.payload.items :: l.product !in cfg.prices then Stop(ProductNotFound)
      else BodyFor(cfg, tx, OrderOf(cfg, tx), LastStep(tx.key, tx.order, OrderOf(cfg, tx)))
  {
  }

  lemma ClaimedCreateEffect(db: State, tx: Tx)
    requires tx.Create? && Legal(tx) && Claims(tx.key) && Run(db, Code(db.cfg, tx)).Committed?
    ensures Created(db, Run(db, Code(db.cfg, tx)).db, tx)
  {
    var body := CreateBody(db.cfg, tx.payload, tx.user, tx.key, tx.order, tx.event, tx.now, tx.picks);
    ClaimRun(db, tx, body);
    BodyIs(db.cfg, tx);
    var start := db.(keys := db.keys[tx.key.value := InProgress(tx.payload)]);
    var row := OrderOf(db.cfg, tx);
    var db1 := TakeThenInsert(start, tx, row, LastStep(tx.key, tx.order, row));
    CompleteRun(db, start, db1, tx, row);
  }

  lemma ClaimRun(db: State, tx: Tx, body: Prog)
    requires tx.Create? && Legal(tx) && Claims(tx.key)
    requires body == CreateBody(db.cfg, tx.payload, tx.user, tx.key, tx.order, tx.event, tx.now, tx.picks)
    requires Run(db, Code(db.cfg, tx)).Committed?
    ensures tx.key.value !in db.keys
    ensures Run(db, Code(db.cfg, tx)) == Run(db.(keys := db.keys[tx.key.value := InProgress(tx.payload)]), body)
  {
    var claim := OnKey(tx.key.value, InsertKey(tx.payload));
    RunDo(db, claim, body, KeyTaken(tx.key.value, tx.payload));
    if !Ok(db, claim) { KeyTakenStops(db, tx.key.value, tx.payload); }
  }

  lemma CompleteRun(db: State, start: State, db1: State, tx: Tx, row: Order)
    requires tx.Create? && Legal(tx) && Claims(tx.key) && tx.key.value !in db.keys
    requires start == db.(keys := db.keys[tx.key.value := InProgress(tx.payload)])
    requires Inserted(start, db1, tx, row) && db1.keys == start.keys
    ensures var r := Run(db1, LastStep(tx.key, tx.order, row));
      && r.Committed? && Inserted(db, r.db, tx, row)
      && r.db.keys == db.keys[tx.key.value := Done(tx.payload, tx.order, Serialize(tx.order, row))]
  {
    var done := Done(tx.payload, tx.order, Serialize(tx.order, row));
    RunDo(db1, OnKey(tx.key.value, CompleteKey(tx.order, Serialize(tx.order, row))), Commit, Stop(IntegrityError));
    assert start.keys[tx.key.value := done] == db.keys[tx.key.value := done];
  }

  /** What a claimed key leads to: the stored answer, or a refusal; never a second order. */
  lemma KeyTakenStops(db: State, key: string, payload: Payload)
    ensures Run(db, KeyTaken(key, payload)) == Stopped(
      if key !in db.keys then InvalidRequest
      else if db.keys[key].hash != payload then HashMismatch
      else if db.keys[key].Done? then Replayed else KeyConflict)
  {
    var done := Do(OnKey(key, IsCompleted), Stop(Replayed), Stop(KeyConflict));
    RunDo(db, OnKey(key, LockKey), Do(OnKey(key, HashMatches(payload)), done, Stop(HashMismatch)),
      Stop(InvalidRequest));
    RunDo(db, OnKey(key, HashMatches(payload)), done, Stop(HashMismatch));
    RunDo(db, OnKey(key, IsCompleted), Stop(Replayed), Stop(KeyConflict));
  }

  // ---- expire_reservations ----

  /** The claimed rows, released. */
  function ReleaseFound(m: map<ReservationId, Reservation>, claims: seq<Found>): map<ReservationId, Reservation> {
    map id | id in m :: if Listed(claims, id) then m[id].(status := Released) else m[id]
  }

  predicate Touches(claims: seq<Found>, o: OrderId) {
    exists i :: 0 <= i < |claims| && claims[i].1.order == o
  }

  /** The RESERVED orders among those of the claimed rows, expired. */
  function ExpireOrders(m: map<OrderId, Order>, claims: seq<Found>): map<OrderId, Order> {
    map o | o in m :: if m[o].status.Reserved? && Touches(claims, o) then m[o].(status := Expired) else m[o]
  }

  /** Every claimed row is as it was read, ACTIVE and overdue. */
  ghost predicate Overdue(db: State, claims: seq<Found>, now: int) {
    forall i | 0 <= i < |claims| ::
      IsActive(db, claims[i].0) && db.reservations[claims[i].0] == claims[i].1 && claims[i].1.expiresAt < now
  }

  lemma {:induction false} LockAllRun(db: State, claims: seq<Found>, now: int, k: Prog)
    ensures Run(db, LockAll(claims, now, k)) == if Overdue(db, claims, now) then Run(db, k) else Stopped(OtherRead)
    decreases |claims|
  {
    if claims != [] {
      var lock := OnReservation(claims[0].0, LockExpired(claims[0].1, now));
      RunDo(db, lock, LockAll(claims[1..], now, k), Stop(OtherRead));
      LockAllRun(db, claims[1..], now, k);
      assert forall i | 0 < i < |claims| :: claims[i] == claims[1..][i - 1];
      assert forall i | 0 <= i < |claims[1..]| :: claims[1..][i] == claims[i + 1];
    }
  }

  lemma {:induction false} ReleaseClaimedRun(db: State, claims: seq<Found>, k: Prog)
    requires forall i | 0 <= i < |claims| :: claims[i].0 in db.reservations
    ensures Run(db, ReleaseClaimed(claims, k)) == Run(db.(reservations := ReleaseFound(db.reservations, claims)), k)
    decreases |claims|
  {
    if claims == [] {
      assert ReleaseFound(db.reservations, claims) == db.reservations;
    } else {
      var release := OnReservation(claims[0].0, SetReleased(claims[0].1));
      RunDo(db, release, ReleaseClaimed(claims[1..], k), Stop(IntegrityError));
      assert forall i | 0 <= i < |claims[1..]| :: claims[1..][i] == claims[i + 1];
      var db1 := Exec(db, release);
      ReleaseClaimedRun(db1, claims[1..], k);
      forall id
        ensures Listed(claims, id) <==> id == claims[0].0 || Listed(claims[1..], id)
      {
        if Listed(claims, id) && id != claims[0].0 {
          var i :| 0 <= i < |claims| && claims[i].0 == id;
          assert claims[1..][i - 1].0 == id;
        }
        if Listed(claims[1..], id) {
          var i :| 0 <= i < |claims[1..]| && claims[1..][i].0 == id;
          assert claims[i + 1].0 == id;
        }
      }
      assert ReleaseFound(db1.reservations, claims[1..]) == ReleaseFound(db.reservations, claims);
    }
  }

  lemma ExpireOrderRun(db: State, o: OrderId, k: Prog)
    ensures Run(db, ExpireOrder(o, k)) ==
      Run(if o in db.orders && db.orders[o].status.Reserved?
          then db.(orders := db.orders[o := db.orders[o].(status := Expired)]) else db, k)
  {
    var lock, look, expire := OnOrder(o, LockOrder), OnOrder(o, IsReserved), OnOrder(o, SetStatus(Expired));
    RunDo(db, lock, Do(look, Then(expire, k), k), k);
    RunDo(db, look, Then(expire, k), k);
    RunDo(db, expire, k, Stop(IntegrityError));
  }

  lemma GiveBackRun(db: State, r: Reservation, k: Prog) returns (db': State)
    ensures Run(db, GiveBack(r, k)) == Run(db', k)
    ensures db' == db.(inventory := db'.inventory, audit := db'.audit, orders := db'.orders)
    ensures db'.orders == if r.order in db.orders && db.orders[r.order].status.Reserved?
      then db.orders[r.order := db.orders[r.order].(status := Expired)] else db.orders
  {
    var give := OnStock(r.product, r.warehouse, Release(r.quantity));
    var log := Audit(Entry(r.product, r.warehouse, r.quantity, ReservationReleased, r.order));
    RunIgnoring(db, give, Then(log, ExpireOrder(r.order, k)));
    var db1 := if Ok(db, give) then Exec(db, give) else db;
    RunDo(db1, log, ExpireOrder(r.order, k), Stop(IntegrityError));
    var db2 := Exec(db1, log);
    ExpireOrderRun(db2, r.order, k);
    db' := if r.order in db2.orders && db2.orders[r.order].status.Reserved?
      then db2.(orders := db2.orders[r.order := db2.orders[r.order].(status := Expired)]) else db2;
  }

  lemma {:induction false} GiveBackAllRun(db: State, claims: seq<Found>, k: Prog) returns (db': State)
    ensures Run(db, GiveBackAll(claims, k)) == Run(db', k)
    ensures db' == db.(inventory := db'.inventory, audit := db'.audit, orders := ExpireOrders(db.orders, claims))
    decreases |claims|
  {
    if claims == [] {
      assert ExpireOrders(db.orders, claims) == db.orders;
      db' := db;
    } else {
      var o := claims[0].1.order;
      var db1 := GiveBackRun(db, claims[0].1, GiveBackAll(claims[1..], k));
      db' := GiveBackAllRun(db1, claims[1..], k);
      forall x
        ensures Touches(claims, x) <==> x == o || Touches(claims[1..], x)
      {
        if Touches(claims, x) && x != o {
          var i :| 0 <= i < |claims| && claims[i].1.order == x;
          assert claims[1..][i - 1].1.order == x;
        }
        if Touches(claims[1..], x) {
          var i :| 0 <= i < |claims[1..]| && claims[1..][i].1.order == x;
          assert claims[i + 1].1.order == x;
        }
      }
      assert ExpireOrders(db1.orders, claims[1..]) == ExpireOrders(db.orders, claims);
    }
  }

  ghost predicate Swept(db: State, db': State, claims: seq<Found>) {
    && StockOnly(db.(orders := db'.orders), db')
    && db'.reservations == ReleaseFound(db.reservations, claims)
    && db'.orders == ExpireOrders(db.orders, claims)
  }

  /** A batch commits exactly when the rows it claimed really are ACTIVE and overdue. */
  lemma ExpireEffect(db: State, now: int, claims: seq<Found>)
    ensures var r := Run(db, ExpireCode(now, claims));
      && (r.Committed? <==> claims != [] && now <= db.clock && Overdue(db, claims, now))
      && (r.Committed? ==> Swept(db, r.db, claims))
  {
    if claims != [] {
      var give := GiveBackAll(claims, Commit);
      RunDo(db, Sample(now), LockAll(claims, now, ReleaseClaimed(claims, give)), Stop(OtherRead));
      LockAllRun(db, claims, now, ReleaseClaimed(claims, give));
      if now <= db.clock && Overdue(db, claims, now) {
        ReleaseClaimedRun(db, claims, give);
        var db1 := db.(reservations := ReleaseFound(db.reservations, claims));
        var db2 := GiveBackAllRun(db1, claims, Commit);
      }
    }
  }

  // ---- adjustments, thresholds, the relay ----

  lemma AdjustEffect(db: State, p: ProductId, w: WarehouseId, delta: int, reason: string, first: bool,
                     alert: AlertId, e: EventId)
    ensures var r := Run(db, AdjustCode(db.cfg, p, w, delta, reason, first, alert, e));
            r.Committed? ==> StockMoved(db, r.db)
  {
    if Run(db, AdjustCode(db.cfg, p, w, delta, reason, first, alert, e)).Committed? {
      var entry := Audit(AuditEntry(p, w, delta, if delta >= 0 then StockAdded else StockRemoved, Note(reason)));
      var db1 := db;
      if first {
        var insert := OnStock(p, w, InsertStock(Inventory(delta, 0, None, false)));
        RunDo(db, insert, Then(entry, Commit), Stop(IntegrityError));
        db1 := Exec(db, insert);
      } else {
        db1 := AdjustRun(db, p, w, delta, alert, e, Then(entry, Commit));
      }
      RunDo(db1, entry, Commit, Stop(IntegrityError));
    }
  }

  lemma AdjustRun(db: State, p: ProductId, w: WarehouseId, delta: int, alert: AlertId, e: EventId, k: Prog)
    returns (db': State)
    requires var check := CheckLow(p, w, delta, alert, e, k);
      Run(db, Do(OnStock(p, w, AdjustAvailable(delta)), check, Stop(InvalidRequest))).Committed?
    ensures var check := CheckLow(p, w, delta, alert, e, k);
      Run(db, Do(OnStock(p, w, AdjustAvailable(delta)), check, Stop(InvalidRequest))) == Run(db', k)
    ensures StockMoved(db, db')
  {
    var adjust := OnStock(p, w, AdjustAvailable(delta));
    RunDo(db, adjust, CheckLow(p, w, delta, alert, e, k), Stop(InvalidRequest));
    db' := CheckLowRun(Exec(db, adjust), p, w, delta, alert, e, k);
  }

  lemma ThresholdEffect(db: State, p: ProductId, w: WarehouseId, threshold: int, first: bool)
    ensures var r := Run(db, ThresholdCode(db.cfg, p, w, threshold, first));
            r.Committed? ==> r.db == db.(inventory := r.db.inventory)
  {
    if threshold >= 0 {
      RunDo(db, OnStock(p, w, InsertStock(Inventory(0, 0, Some(threshold), true))), Commit, Stop(IntegrityError));
      RunDo(db, OnStock(p, w, SetThreshold(threshold)), Commit, Stop(NothingToDo));
    }
  }

  function PublishFound(m: map<EventId, Event>, events: seq<EventId>): map<EventId, Event> {
    map e | e in m :: if e in events then m[e].(published := true) else m[e]
  }

  lemma {:induction false} PublishRun(db: State, events: seq<EventId>)
    ensures var r := Run(db, PublishEvents(events, Commit));
      && (r.Committed? <==> forall e | e in events :: e in db.broker && e in db.events)
      && (r.Committed? ==> r.db == db.(events := PublishFound(db.events, events)))
    decreases |events|
  {
    if events == [] {
      assert PublishFound(db.events, events) == db.events;
    } else {
      var send, publish := Send(events[0]), OnEvent(events[0], MarkPublished);
      var rest := PublishEvents(events[1..], Commit);
      RunDo(db, send, Then(publish, rest), Stop(IntegrityError));
      RunDo(db, publish, rest, Stop(IntegrityError));
      assert events == [events[0]] + events[1..];
      if Ok(db, send) && Ok(db, publish) {
        var db1 := Exec(db, publish);
        PublishRun(db1, events[1..]);
        assert PublishFound(db1.events, events[1..]) == PublishFound(db.events, events);
      }
    }
  }

  ghost predicate AllPending(db: State, events: seq<EventId>) {
    forall e | e in events :: e in db.events && !db.events[e].published
  }

  lemma {:induction false} LockEventsRun(db: State, events: seq<EventId>, k: Prog)
    ensures Run(db, LockEvents(events, k)) == if AllPending(db, events) then Run(db, k) else Stopped(OtherRead)
    decreases |events|
  {
    if events != [] {
      RunDo(db, OnEvent(events[0], LockPending), LockEvents(events[1..], k), Stop(OtherRead));
      LockEventsRun(db, events[1..], k);
      assert events == [events[0]] + events[1..];
    }
  }

  /** A relay batch commits exactly when every claimed row is PENDING and every broker call went through. */
  lemma RelayEffect(db: State, events: seq<EventId>)
    ensures var r := Run(db, RelayCode(events));
      && (r.Committed? <==> events != [] && AllPending(db, events) && forall e | e in events :: e in db.broker)
      && (r.Committed? ==> r.db == db.(events := PublishFound(db.events, events)))
  {
    if events != [] {
      LockEventsRun(db, events, PublishEvents(events, Commit));
      PublishRun(db, events);
    }
  }
}

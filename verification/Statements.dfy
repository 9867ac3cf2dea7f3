/** The SQL statements the repositories issue. Almost all of them are about a single row, so they are
    given as functions from the row as it stands (None when absent) to what becomes of it. */
module Statements {
  import opened Schema

  /** What a statement can lock: a table row, or an entry of the unique index on orders.idempotency_key. */
  datatype Row =
    | StockRow(product: ProductId, warehouse: WarehouseId)
    | ReservationRow(reservation: ReservationId)
    | OrderRow(order: OrderId)
    | OrderKeyRow(orderKey: string)
    | KeyRowOf(key: string)
    | EventRow(event: EventId)
    | WorkerRow(worker: OrderId)

  /** No row matched; a row matched and stays; a row matched and becomes `row`. */
  datatype Hit<+T> = Miss | Keep | Put(row: T)

  function KeepIf<T>(b: bool): Hit<T> { if b then Keep else Miss }

  // ---- inventory_repository ----

  datatype StockOp =
    | TryReserve(q: nat) | Release(q: nat) | Consume(q: nat) | AdjustAvailable(delta: int)
    | InsertStock(initial: Inventory) | SetThreshold(threshold: nat) | FlipLowStock | ResetLowStock

  /** `available_quantity <= low_stock_threshold`; a NULL threshold makes either comparison fail. */
  predicate AtOrBelow(row: Inventory) { row.threshold.Some? && row.available <= row.threshold.value }
  predicate Above(row: Inventory) { row.threshold.Some? && row.available > row.threshold.value }

  function OnStockRow(op: StockOp, found: Option<Inventory>): Hit<Inventory> {
    if found.None? then (if op.InsertStock? then Put(op.initial) else Miss) else
    var row := found.value;
    match op
    case TryReserve(q) =>
      if row.available >= q then Put(row.(available := row.available - q, reserved := row.reserved + q)) else Miss
    case Release(q) =>
      if row.reserved >= q then Put(row.(available := row.available + q, reserved := row.reserved - q)) else Miss
    case Consume(q) =>
      if row.reserved >= q then Put(row.(reserved := row.reserved - q)) else Miss
    case AdjustAvailable(delta) =>
      if row.available + delta >= 0 then Put(row.(available := row.available + delta)) else Miss
    case InsertStock(_) => Miss
    case SetThreshold(t) => Put(row.(threshold := Some(t), low := row.available <= t))
    case FlipLowStock => if !row.low && AtOrBelow(row) then Put(row.(low := true)) else Miss
    case ResetLowStock => if row.low && Above(row) then Put(row.(low := false)) else Miss
  }

  // ---- reservation_repository; `r` is the row as it was read before ----

  datatype ReservationOp =
    | InsertReservation(initial: Reservation)
    | MarkReleased(r: Reservation) | MarkConsumed(r: Reservation)
    | LockExpired(r: Reservation, now: int) | SetReleased(r: Reservation)

  function OnReservationRow(op: ReservationOp, found: Option<Reservation>): Hit<Reservation> {
    if found.None? then (if op.InsertReservation? then Put(op.initial) else Miss) else
    var row := found.value;
    match op
    case InsertReservation(_) => Miss
    case MarkReleased(_) => if row.status.Active? then Put(row.(status := Released)) else Miss
    case MarkConsumed(_) => if row.status.Active? then Put(row.(status := Consumed)) else Miss
    case LockExpired(r, now) => KeepIf(row == r && row.status.Active? && row.expiresAt < now)
    case SetReleased(_) => Put(row.(status := Released))   // claim_expired_batch's second half: no guard
  }

  // ---- order_repository ----

  datatype OrderOp =
    | LockOrder | IsVisible(user: User) | IsCancellable | IsReserved | SetStatus(status: OrderStatus)

  function OnOrderRow(op: OrderOp, found: Option<Order>): Hit<Order> {
    if found.None? then Miss else
    var row := found.value;
    match op
    case LockOrder => Keep
    case IsVisible(user) => KeepIf(user.role.Client? ==> row.owner == user.id)
    case IsCancellable => KeepIf(row.status.Pending? || row.status.Reserved?)
    case IsReserved => KeepIf(row.status.Reserved?)
    case SetStatus(status) => Put(row.(status := status))
  }

  // ---- idempotency_repository ----

  datatype KeyOp =
    | InsertKey(hash: Payload) | LockKey | HashMatches(hash: Payload) | IsCompleted
    | CompleteKey(order: OrderId, response: Response)

  function OnKeyRow(op: KeyOp, found: Option<KeyRow>): Hit<KeyRow> {
    if found.None? then (if op.InsertKey? then Put(InProgress(op.hash)) else Miss) else
    var row := found.value;
    match op
    case InsertKey(_) => Miss
    case LockKey => Keep
    case HashMatches(hash) => KeepIf(row.hash == hash)
    case IsCompleted => KeepIf(row.Done?)
    case CompleteKey(order, response) => Put(Done(row.hash, order, response))
  }

  // ---- outbox_repository ----

  datatype EventOp = InsertEvent(body: EventBody) | LockPending | MarkPublished

  function OnEventRow(op: EventOp, found: Option<Event>): Hit<Event> {
    if found.None? then (if op.InsertEvent? then Put(Event(op.body, false)) else Miss) else
    match op
    case InsertEvent(_) => Miss
    case LockPending => KeepIf(!found.value.published)
    case MarkPublished => Put(found.value.(published := true))
  }

  // ---- what a worker process remembers between its transactions ----

  datatype WorkerOp = Resume(worker: Worker) | Remember(worker: Worker)

  function OnWorkerRow(op: WorkerOp, found: Option<Worker>): Hit<Worker> {
    match op
    case Resume(worker) => KeepIf((if found.Some? then found.value else Idle) == worker)
    case Remember(worker) => Put(worker)
  }

  // ---- all statements ----

  /** A reservation as a SELECT returned it. */
  type Found = (ReservationId, Reservation)

  datatype Stmt =
    | OnStock(p: ProductId, w: WarehouseId, stock: StockOp)
    | OnReservation(id: ReservationId, reservation: ReservationOp)
    | OnOrder(o: OrderId, order: OrderOp)
    | OnKey(key: string, claim: KeyOp)
    | OnEvent(e: EventId, event: EventOp)
    | OnWorker(o: OrderId, worker: WorkerOp)
    | InsertOrder(o: OrderId, initial: Order)
    | StartProcessing(o: OrderId)
    | RaiseAlert(p: ProductId, w: WarehouseId, alert: AlertId, e: EventId)
    | Audit(entry: AuditEntry)
    | InsertDeadLetter(letter: DeadLetter)
    | SelectActive(o: OrderId, found: seq<Found>)
    | Send(e: EventId)
    | Sample(now: int)

  /** The rows a statement must own before it may write them or keep relying on them. */
  function Rows(s: Stmt): set<Row> {
    match s
    case OnStock(p, w, _) => {StockRow(p, w)}
    case OnReservation(id, _) => {ReservationRow(id)}
    case OnOrder(o, _) => {OrderRow(o)}
    case OnKey(key, _) => {KeyRowOf(key)}
    case OnEvent(e, _) => {EventRow(e)}
    case OnWorker(o, _) => {WorkerRow(o)}
    case InsertOrder(o, row) => {OrderRow(o)} + (if row.key.Some? then {OrderKeyRow(row.key.value)} else {})
    case StartProcessing(o) => {OrderRow(o), WorkerRow(o)}
    case RaiseAlert(p, w, _, e) => {StockRow(p, w), EventRow(e)}
    case Audit(_) => {}
    case InsertDeadLetter(_) => {}
    case SelectActive(o, _) => {OrderRow(o)}
    case Send(_) => {}
    case Sample(_) => {}
  }

  /** These look beyond the rows they own: a plain SELECT, the broker, the clock. */
  predicate LooksElsewhere(s: Stmt) {
    s.SelectActive? || s.Send? || s.Sample?
  }

  /** `r` is the row `id`, whatever has become of its status. */
  predicate IsRow(db: State, id: ReservationId, r: Reservation) {
    id in db.reservations && db.reservations[id] == r.(status := db.reservations[id].status)
  }

  predicate IsActive(db: State, id: ReservationId) {
    id in db.reservations && db.reservations[id].status.Active?
  }

  predicate Listed(found: seq<Found>, id: ReservationId) {
    exists i :: 0 <= i < |found| && found[i].0 == id
  }

  /** What `list_active_for_order` may have returned: real rows, and every row still ACTIVE. */
  ghost predicate Covers(db: State, o: OrderId, found: seq<Found>) {
    && (forall i | 0 <= i < |found| :: IsRow(db, found[i].0, found[i].1))
    && (forall id | IsActive(db, id) && db.reservations[id].order == o :: Listed(found, id))
  }

  function Look<K, V>(m: map<K, V>, k: K): Option<V> { if k in m then Some(m[k]) else None }

  function Store<K, V>(m: map<K, V>, k: K, hit: Hit<V>): map<K, V> { if hit.Put? then m[k := hit.row] else m }

  /** Whether the statement matched: `rowcount == 1`, a row came back, no unique key was violated. */
  ghost predicate Ok(db: State, s: Stmt) {
    match s
    case OnStock(p, w, op) => !OnStockRow(op, Look(db.inventory, (p, w))).Miss?
    case OnReservation(id, op) => !OnReservationRow(op, Look(db.reservations, id)).Miss?
    case OnOrder(o, op) => !OnOrderRow(op, Look(db.orders, o)).Miss?
    case OnKey(key, op) => !OnKeyRow(op, Look(db.keys, key)).Miss?
    case OnEvent(e, op) => !OnEventRow(op, Look(db.events, e)).Miss?
    case OnWorker(o, op) => !OnWorkerRow(op, Look(db.workers, o)).Miss?
    case InsertOrder(o, row) => o !in db.orders && (row.key.Some? ==> row.key.value !in db.orderKeys)
    case StartProcessing(o) => o in db.orders
    case RaiseAlert(p, w, _, e) =>
      (p, w) in db.inventory && db.inventory[(p, w)].threshold.Some? && e !in db.events
    case Audit(_) => true
    case InsertDeadLetter(_) => true
    case SelectActive(o, found) => Covers(db, o, found)
    case Send(e) => e in db.broker
    case Sample(now) => now <= db.clock
  }

  function Started(row: Order): Order { row.(status := Processing, attempts := row.attempts + 1) }

  /** The alert for a row just flipped, with the values RETURNING gave. */
  function AlertFor(id: AlertId, p: ProductId, w: WarehouseId, row: Inventory): Alert
    requires row.threshold.Some?
  {
    Alert(id, p, w, row.available, row.threshold.value)
  }

  /** The database after a statement that matched. */
  ghost function Exec(db: State, s: Stmt): State
    requires Ok(db, s)
  {
    match s
    case OnStock(p, w, op) =>
      db.(inventory := Store(db.inventory, (p, w), OnStockRow(op, Look(db.inventory, (p, w)))))
    case OnReservation(id, op) =>
      db.(reservations := Store(db.reservations, id, OnReservationRow(op, Look(db.reservations, id))))
    case OnOrder(o, op) => db.(orders := Store(db.orders, o, OnOrderRow(op, Look(db.orders, o))))
    case OnKey(key, op) => db.(keys := Store(db.keys, key, OnKeyRow(op, Look(db.keys, key))))
    case OnEvent(e, op) => db.(events := Store(db.events, e, OnEventRow(op, Look(db.events, e))))
    case OnWorker(o, op) => db.(workers := Store(db.workers, o, OnWorkerRow(op, Look(db.workers, o))))
    case InsertOrder(o, row) =>
      db.(orders := db.orders[o := row],
          orderKeys := if row.key.Some? then db.orderKeys[row.key.value := o] else db.orderKeys)
    case StartProcessing(o) =>
      db.(orders := db.orders[o := Started(db.orders[o])],
          workers := db.workers[o := Charging(db.orders[o].attempts + 1, db.orders[o].token)])
    case RaiseAlert(p, w, id, e) =>
      var alert := AlertFor(id, p, w, db.inventory[(p, w)]);
      db.(alerts := db.alerts + [alert], events := db.events[e := Event(LowStockAlertCreated(alert), false)])
    case Audit(entry) => db.(audit := db.audit + [entry])
    case InsertDeadLetter(letter) => db.(deadLetters := db.deadLetters + [letter])
    case SelectActive(_, _) => db
    case Send(_) => db
    case Sample(_) => db
  }
}

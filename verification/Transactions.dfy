/** Every transaction of the services and workers, written as the tree of statements it can issue.
    What a plain SELECT returned is part of the transaction's name and is checked where it matters. */
module Transactions {
  import opened Schema
  import opened Statements

  /** Why a transaction ended without writing: an exception (rolled back) or nothing to do. */
  datatype Ending =
    | ProductNotFound | WarehouseNotFound | InsufficientInventory | OrderNotFound | Forbidden | CannotCancel
    | InvalidRequest | HashMismatch | KeyConflict | IntegrityError
    | Replayed | NothingToDo | OtherRead

  datatype Prog =
    | Commit
    | Stop(why: Ending)
    | Do(s: Stmt, yes: Prog, no: Prog)

  datatype Result = Committed(db: State) | Stopped(why: Ending)

  /** The transaction run with nobody else around. */
  ghost function Run(db: State, p: Prog): Result
    decreases p
  {
    match p
    case Commit => Committed(db)
    case Stop(why) => Stopped(why)
    case Do(s, yes, no) => if Ok(db, s) then Run(Exec(db, s), yes) else Run(db, no)
  }

  /** One step of a run. */
  lemma RunDo(db: State, s: Stmt, yes: Prog, no: Prog)
    ensures Run(db, Do(s, yes, no)) == if Ok(db, s) then Run(Exec(db, s), yes) else Run(db, no)
  {
  }

  lemma RunIgnoring(db: State, s: Stmt, k: Prog)
    ensures Run(db, Ignoring(s, k)) == Run(if Ok(db, s) then Exec(db, s) else db, k)
  {
  }

  /** What is left after a transaction: its writes, or nothing at all. */
  ghost function After(db: State, p: Prog): State {
    match Run(db, p)
    case Committed(db') => db'
    case Stopped(_) => db
  }

  /** A statement whose failure is an exception. */
  function Then(s: Stmt, p: Prog): Prog { Do(s, p, Stop(IntegrityError)) }

  /** A statement whose rowcount the code ignores. */
  function Ignoring(s: Stmt, p: Prog): Prog { Do(s, p, p) }

  // ---- payment_service ----

  datatype Payment = Approved | Declined(retryable: bool, message: string)

  function Charge(token: string): Payment {
    if token == "fail" then Declined(false, "Simulated payment declined")
    else if token == "fail_retryable" then Declined(true, "Simulated transient payment provider error")
    else Approved
  }

  // ---- inventory_service ----

  /** `_check_low_stock_transition` */
  function CheckLow(p: ProductId, w: WarehouseId, delta: int, alert: AlertId, e: EventId, k: Prog): Prog {
    if delta < 0 then Do(OnStock(p, w, FlipLowStock), Then(RaiseAlert(p, w, alert, e), k), k)
    else if delta > 0 then Ignoring(OnStock(p, w, ResetLowStock), k)
    else k
  }

  function Entry(p: ProductId, w: WarehouseId, change: int, kind: AuditType, o: OrderId): AuditEntry {
    AuditEntry(p, w, change, kind, OrderRef(o))
  }

  function ReleaseReservation(id: ReservationId, r: Reservation, o: OrderId, k: Prog): Prog {
    Do(OnReservation(id, MarkReleased(r)),
       Ignoring(OnStock(r.product, r.warehouse, Release(r.quantity)),
       Then(Audit(Entry(r.product, r.warehouse, r.quantity, ReservationReleased, o)),
       CheckLow(r.product, r.warehouse, r.quantity, 0, 0, k))),
       k)
  }

  function ConsumeReservation(id: ReservationId, r: Reservation, o: OrderId, k: Prog): Prog {
    Do(OnReservation(id, MarkConsumed(r)),
       Ignoring(OnStock(r.product, r.warehouse, Consume(r.quantity)),
       Then(Audit(Entry(r.product, r.warehouse, -(r.quantity as int), OrderCompleted, o)), k)),
       k)
  }

  /** The loop over the rows list_active_for_order returned. */
  function Settle(found: seq<Found>, o: OrderId, how: ReservationStatus, k: Prog): Prog {
    if found == [] then k else
    var rest := Settle(found[1..], o, how, k);
    if how.Consumed? then ConsumeReservation(found[0].0, found[0].1, o, rest)
    else ReleaseReservation(found[0].0, found[0].1, o, rest)
  }

  // ---- order_service ----

  /** The choices one order line makes: a warehouse (None when no row had enough) and fresh ids. */
  datatype Pick = Pick(warehouse: Option<WarehouseId>, reservation: ReservationId, alert: AlertId, event: EventId)

  /** `reserve` for one line, which raises when there is not enough. */
  function Reserve(p: ProductId, w: WarehouseId, q: nat, pick: Pick, o: OrderId, k: Prog): Prog {
    Do(OnStock(p, w, TryReserve(q)),
       Then(Audit(Entry(p, w, -(q as int), InventoryReserved, o)),
       CheckLow(p, w, -(q as int), pick.alert, pick.event, k)),
       Stop(InsufficientInventory))
  }

  function ReserveLines(lines: seq<Line>, picks: seq<Pick>, o: OrderId, k: Prog): Prog
    requires |lines| == |picks|
  {
    if lines == [] then k else
    if picks[0].warehouse.None? then Stop(InsufficientInventory) else
    Reserve(lines[0].product, picks[0].warehouse.value, lines[0].quantity, picks[0], o,
            ReserveLines(lines[1..], picks[1..], o, k))
  }

  function Chosen(pick: Pick): WarehouseId { if pick.warehouse.Some? then pick.warehouse.value else 0 }

  function ItemsFor(prices: map<ProductId, nat>, lines: seq<Line>, picks: seq<Pick>): (items: seq<Item>)
    requires |lines| == |picks| && forall l | l in lines :: l.product in prices
    ensures |items| == |lines|
  {
    seq(|lines|, i requires 0 <= i < |lines| =>
      Item(lines[i].product, Chosen(picks[i]), lines[i].quantity, prices[lines[i].product]))
  }

  function Total(items: seq<Item>): nat {
    if items == [] then 0 else Total(items[..|items| - 1]) + items[|items| - 1].unitPrice * items[|items| - 1].quantity
  }

  function ReservationFor(l: Line, pick: Pick, o: OrderId, expiresAt: int): Reservation {
    Reservation(o, l.product, Chosen(pick), l.quantity, expiresAt, Active)
  }

  function ReservationsFor(lines: seq<Line>, picks: seq<Pick>, o: OrderId, expiresAt: int): (rows: seq<Found>)
    requires |lines| == |picks|
    ensures |rows| == |lines|
  {
    seq(|lines|, i requires 0 <= i < |lines| =>
      (picks[i].reservation, ReservationFor(lines[i], picks[i], o, expiresAt)))
  }

  function InsertAll(rows: seq<Found>, k: Prog): Prog {
    if rows == [] then k else
    Then(OnReservation(rows[0].0, InsertReservation(rows[0].1)), InsertAll(rows[1..], k))
  }

  predicate Claims(key: Option<string>) { key.Some? && key.value != "" }

  /** The order row `create_order` inserts. */
  function NewOrder(cfg: Config, payload: Payload, user: User, key: Option<string>, picks: seq<Pick>): Order
    requires |payload.items| == |picks| && forall l | l in payload.items :: l.product in cfg.prices
  {
    var items := ItemsFor(cfg.prices, payload.items, picks);
    Order(Reserved, Total(items), user.id, payload.token, 0, key, items)
  }

  /** `idempotency_service.complete`, when there is a claim, and the commit. */
  function LastStep(key: Option<string>, o: OrderId, row: Order): Prog {
    if Claims(key) then Then(OnKey(key.value, CompleteKey(o, Serialize(o, row))), Commit) else Commit
  }

  /** The order, its reservations and its outbox event. */
  function InsertRows(o: OrderId, row: Order, rows: seq<Found>, e: EventId, last: Prog): Prog {
    Then(InsertOrder(o, row), InsertAll(rows, Then(OnEvent(e, InsertEvent(OrderReserved(o))), last)))
  }

  function CreateBody(cfg: Config, payload: Payload, user: User, key: Option<string>, o: OrderId, e: EventId,
                      now: int, picks: seq<Pick>): Prog
    requires |payload.items| == |picks|
  {
    if exists l | l in payload.items :: l.product !in cfg.prices then Stop(ProductNotFound) else
    var row := NewOrder(cfg, payload, user, key, picks);
    var rows := ReservationsFor(payload.items, picks, o, now + cfg.timeout);
    Do(Sample(now), ReserveLines(payload.items, picks, o, InsertRows(o, row, rows, e, LastStep(key, o, row))),
       Stop(OtherRead))
  }

  /** `idempotency_service.begin` when the key row already exists. */
  function KeyTaken(key: string, payload: Payload): Prog {
    Do(OnKey(key, LockKey),
       Do(OnKey(key, HashMatches(payload)),
          Do(OnKey(key, IsCompleted), Stop(Replayed), Stop(KeyConflict)),
          Stop(HashMismatch)),
       Stop(InvalidRequest))
  }

  function CreateCode(cfg: Config, payload: Payload, user: User, key: Option<string>, o: OrderId, e: EventId,
                      now: int, picks: seq<Pick>): Prog
    requires |payload.items| == |picks|
  {
    var body := CreateBody(cfg, payload, user, key, o, e, now, picks);
    if Claims(key) then Do(OnKey(key.value, InsertKey(payload)), body, KeyTaken(key.value, payload)) else body
  }

  function CancelCode(o: OrderId, user: User, found: seq<Found>): Prog {
    Do(OnOrder(o, LockOrder),
       Do(OnOrder(o, IsVisible(user)),
          Do(OnOrder(o, IsCancellable),
             Do(SelectActive(o, found),
                Settle(found, o, Released, Then(OnOrder(o, SetStatus(Cancelled)), Commit)),
                Stop(OtherRead)),
             Stop(CannotCancel)),
          Stop(Forbidden)),
       Stop(OrderNotFound))
  }

  // ---- order_processor ----

  /** Up to the first commit. */
  function BeginCode(o: OrderId): Prog {
    Do(OnOrder(o, LockOrder),
       Do(OnOrder(o, IsReserved), Then(StartProcessing(o), Commit), Stop(NothingToDo)),
       Stop(NothingToDo))
  }

  function CompleteOrder(o: OrderId, found: seq<Found>): Prog {
    Do(SelectActive(o, found),
       Settle(found, o, Consumed,
         Then(OnOrder(o, SetStatus(Completed)), Then(OnWorker(o, Remember(Idle)), Commit))),
       Stop(OtherRead))
  }

  function FailOrder(o: OrderId, found: seq<Found>, next: Worker): Prog {
    Do(SelectActive(o, found),
       Settle(found, o, Released,
         Then(OnOrder(o, SetStatus(Failed)), Then(OnWorker(o, Remember(next)), Commit))),
       Stop(OtherRead))
  }

  /** A worker that gave up goes on to write a dead-letter row when the attempts are used up. */
  function AfterFailure(cfg: Config, attempt: nat, message: string): Worker {
    if attempt >= cfg.maxAttempts then Recording(attempt, message) else Idle
  }

  function Outcome(cfg: Config, o: OrderId, attempt: nat, token: string, found: seq<Found>): Prog {
    match Charge(token)
    case Approved => CompleteOrder(o, found)
    case Declined(retryable, message) =>
      if retryable && attempt < cfg.maxAttempts then
        Then(OnOrder(o, SetStatus(Reserved)), Then(OnWorker(o, Remember(Idle)), Commit))
      else
        FailOrder(o, found, AfterFailure(cfg, attempt, message))
  }

  /** From the re-lock to the second commit; the status is not looked at again. */
  function FinishCode(cfg: Config, o: OrderId, attempt: nat, token: string, found: seq<Found>): Prog {
    Do(OnWorker(o, Resume(Charging(attempt, token))),
       Do(OnOrder(o, LockOrder), Outcome(cfg, o, attempt, token, found), Stop(OrderNotFound)),
       Stop(NothingToDo))
  }

  /** The third commit: the dead-letter row. */
  function RecordCode(o: OrderId, attempt: nat, reason: string): Prog {
    Do(OnWorker(o, Resume(Recording(attempt, reason))),
       Then(InsertDeadLetter(DeadLetter(o, reason, attempt)), Then(OnWorker(o, Remember(Idle)), Commit)),
       Stop(NothingToDo))
  }

  // ---- reservation_cleanup ----

  const EXPIRY_BATCH := 100
  const RELAY_BATCH := 50

  function LockAll(claims: seq<Found>, now: int, k: Prog): Prog {
    if claims == [] then k else
    Do(OnReservation(claims[0].0, LockExpired(claims[0].1, now)), LockAll(claims[1..], now, k), Stop(OtherRead))
  }

  function ReleaseClaimed(claims: seq<Found>, k: Prog): Prog {
    if claims == [] then k else
    Then(OnReservation(claims[0].0, SetReleased(claims[0].1)), ReleaseClaimed(claims[1..], k))
  }

  function ExpireOrder(o: OrderId, k: Prog): Prog {
    Do(OnOrder(o, LockOrder), Do(OnOrder(o, IsReserved), Then(OnOrder(o, SetStatus(Expired)), k), k), k)
  }

  function GiveBack(r: Reservation, k: Prog): Prog {
    Ignoring(OnStock(r.product, r.warehouse, Release(r.quantity)),
    Then(Audit(Entry(r.product, r.warehouse, r.quantity, ReservationReleased, r.order)),
    ExpireOrder(r.order, k)))
  }

  function GiveBackAll(claims: seq<Found>, k: Prog): Prog {
    if claims == [] then k else GiveBack(claims[0].1, GiveBackAll(claims[1..], k))
  }

  /** One batch of `expire_reservations`. */
  function ExpireCode(now: int, claims: seq<Found>): Prog {
    if claims == [] then Stop(NothingToDo) else
    Do(Sample(now), LockAll(claims, now, ReleaseClaimed(claims, GiveBackAll(claims, Commit))), Stop(OtherRead))
  }

  // ---- create_adjustment and set_threshold; `first` is whether the SELECT found no row ----

  function AdjustCode(cfg: Config, p: ProductId, w: WarehouseId, delta: int, reason: string, first: bool,
                      alert: AlertId, e: EventId): Prog {
    if p !in cfg.prices then Stop(ProductNotFound)
    else if w !in cfg.warehouses then Stop(WarehouseNotFound)
    else
      var kind := if delta >= 0 then StockAdded else StockRemoved;
      var log := Then(Audit(AuditEntry(p, w, delta, kind, Note(reason))), Commit);
      if first then
        if delta < 0 then Stop(InvalidRequest)
        else Then(OnStock(p, w, InsertStock(Inventory(delta, 0, None, false))), log)
      else
        Do(OnStock(p, w, AdjustAvailable(delta)), CheckLow(p, w, delta, alert, e, log), Stop(InvalidRequest))
  }

  function ThresholdCode(cfg: Config, p: ProductId, w: WarehouseId, threshold: int, first: bool): Prog {
    if threshold < 0 then Stop(InvalidRequest)
    else if p !in cfg.prices then Stop(ProductNotFound)
    else if w !in cfg.warehouses then Stop(WarehouseNotFound)
    else if first then Then(OnStock(p, w, InsertStock(Inventory(0, 0, Some(threshold), true))), Commit)
    else Do(OnStock(p, w, SetThreshold(threshold)), Commit, Stop(NothingToDo))
  }

  // ---- outbox_relay ----

  function LockEvents(events: seq<EventId>, k: Prog): Prog {
    if events == [] then k else
    Do(OnEvent(events[0], LockPending), LockEvents(events[1..], k), Stop(OtherRead))
  }

  /** `Send` stops when the broker call failed. */
  function PublishEvents(events: seq<EventId>, k: Prog): Prog {
    if events == [] then k else
    Then(Send(events[0]), Then(OnEvent(events[0], MarkPublished), PublishEvents(events[1..], k)))
  }

  function RelayCode(events: seq<EventId>): Prog {
    if events == [] then Stop(NothingToDo) else LockEvents(events, PublishEvents(events, Commit))
  }

  // ---- all transactions ----

  datatype Tx =
    | Create(payload: Payload, user: User, key: Option<string>, order: OrderId, event: EventId, now: int,
             picks: seq<Pick>)
    | Cancel(order: OrderId, user: User, found: seq<Found>)
    | Begin(order: OrderId)
    | Finish(order: OrderId, attempt: nat, token: string, found: seq<Found>)
    | Record(order: OrderId, attempt: nat, reason: string)
    | Expire(now: int, claims: seq<Found>)
    | Adjust(p: ProductId, w: WarehouseId, delta: int, reason: string, first: bool, alert: AlertId, event: EventId)
    | Threshold(p: ProductId, w: WarehouseId, threshold: int, first: bool)
    | Relay(events: seq<EventId>)

  predicate ValidPayload(payload: Payload) {
    && |payload.items| >= 1
    && (forall l | l in payload.items :: l.quantity > 0)
    && (forall i, j | 0 <= i < j < |payload.items| :: payload.items[i].product != payload.items[j].product)
  }

  /** What a SELECT of ACTIVE reservations says of each row it returns; no reservation is for nothing. */
  predicate ActiveRows(found: seq<Found>) {
    forall i | 0 <= i < |found| :: found[i].1.status.Active? && found[i].1.quantity > 0
  }

  predicate ActiveRowsOf(found: seq<Found>, o: OrderId) {
    ActiveRows(found) && forall i | 0 <= i < |found| :: found[i].1.order == o
  }

  predicate Distinct(found: seq<Found>) {
    forall i, j | 0 <= i < j < |found| :: found[i].0 != found[j].0
  }

  /** What the request schema and the shape of each SELECT guarantee before the transaction starts. */
  predicate Legal(tx: Tx) {
    match tx
    case Create(payload, _, _, _, _, _, picks) => ValidPayload(payload) && |picks| == |payload.items|
    case Cancel(o, _, found) => ActiveRowsOf(found, o)
    case Finish(o, _, _, found) => ActiveRowsOf(found, o)
    case Expire(_, claims) =>
      |claims| <= EXPIRY_BATCH && Distinct(claims) && ActiveRows(claims)
    case Relay(events) => |events| <= RELAY_BATCH
    case _ => true
  }

  function Code(cfg: Config, tx: Tx): Prog
    requires Legal(tx)
  {
    match tx
    case Create(payload, user, key, o, e, now, picks) => CreateCode(cfg, payload, user, key, o, e, now, picks)
    case Cancel(o, user, found) => CancelCode(o, user, found)
    case Begin(o) => BeginCode(o)
    case Finish(o, attempt, token, found) => FinishCode(cfg, o, attempt, token, found)
    case Record(o, attempt, reason) => RecordCode(o, attempt, reason)
    case Expire(now, claims) => ExpireCode(now, claims)
    case Adjust(p, w, delta, reason, first, alert, e) => AdjustCode(cfg, p, w, delta, reason, first, alert, e)
    case Threshold(p, w, threshold, first) => ThresholdCode(cfg, p, w, threshold, first)
    case Relay(events) => RelayCode(events)
  }
}

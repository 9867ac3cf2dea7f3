/** The tables the service shares between its API, its workers and its relay, as one value per row.
    A `State` is everything a transaction can see. */
module Schema {
  type ProductId = nat
  type WarehouseId = nat
  type OrderId = nat
  type ReservationId = nat
  type EventId = nat
  type AlertId = nat
  type UserId = nat
  type Stock = (ProductId, WarehouseId)

  datatype Option<+T> = None | Some(value: T)

  function Min(a: nat, b: nat): nat { if a < b then a else b }

  datatype OrderStatus = Pending | Reserved | Processing | Completed | Failed | Cancelled | Expired

  /** An order in one of these never moves again (models/enums.py). */
  predicate Terminal(s: OrderStatus) {
    s.Completed? || s.Failed? || s.Cancelled? || s.Expired?
  }

  datatype ReservationStatus = Active | Released | Consumed

  datatype AuditType =
    StockAdded | StockRemoved | InventoryReserved | ReservationReleased | OrderCompleted | ManualAdjustment

  /** One (product, warehouse) row; the CHECK constraints are the `nat`s. */
  datatype Inventory = Inventory(available: nat, reserved: nat, threshold: Option<nat>, low: bool)

  datatype Reservation = Reservation(
    order: OrderId, product: ProductId, warehouse: WarehouseId, quantity: nat,
    expiresAt: int, status: ReservationStatus)

  datatype Item = Item(product: ProductId, warehouse: WarehouseId, quantity: nat, unitPrice: nat)

  datatype Order = Order(
    status: OrderStatus, total: nat, owner: UserId, token: string, attempts: nat,
    key: Option<string>, items: seq<Item>)

  datatype Line = Line(product: ProductId, quantity: nat)

  /** The validated request body. Its hash is taken to be injective, so the payload stands for it. */
  datatype Payload = Payload(items: seq<Line>, token: string)

  datatype ResponseLine = ResponseLine(product: ProductId, quantity: nat, unitPrice: nat)
  datatype Response = Response(id: OrderId, status: OrderStatus, total: nat, items: seq<ResponseLine>)

  datatype KeyRow = InProgress(hash: Payload) | Done(hash: Payload, order: OrderId, response: Response)

  datatype Alert = Alert(id: AlertId, product: ProductId, warehouse: WarehouseId, quantity: nat, threshold: nat)

  datatype EventBody = OrderReserved(order: OrderId) | LowStockAlertCreated(alert: Alert)
  datatype Event = Event(body: EventBody, published: bool)

  datatype Reference = OrderRef(order: OrderId) | Note(text: string)
  datatype AuditEntry = AuditEntry(
    product: ProductId, warehouse: WarehouseId, change: int, kind: AuditType, reference: Reference)

  datatype DeadLetter = DeadLetter(order: OrderId, reason: string, attempts: nat)

  /** What a worker process remembers about an order between two of its transactions. */
  datatype Worker = Idle | Charging(attempt: nat, token: string) | Recording(attempt: nat, reason: string)

  datatype Role = Admin | Client
  datatype User = User(id: UserId, role: Role)

  /** Catalogue and settings, which no modelled transaction changes. */
  datatype Config = Config(
    prices: map<ProductId, nat>, warehouses: set<WarehouseId>, maxAttempts: int, timeout: int)

  /** `workers`, `broker` and `clock` are not tables: no rollback undoes them. */
  datatype State = State(
    cfg: Config,
    inventory: map<Stock, Inventory>,
    reservations: map<ReservationId, Reservation>,
    orders: map<OrderId, Order>,
    orderKeys: map<string, OrderId>,      // the unique index on orders.idempotency_key
    keys: map<string, KeyRow>,
    events: map<EventId, Event>,
    audit: seq<AuditEntry>,
    alerts: seq<Alert>,
    deadLetters: seq<DeadLetter>,
    workers: map<OrderId, Worker>,
    broker: set<EventId>,                 // events handed to the queue at least once
    clock: int)

  function WorkerOf(db: State, o: OrderId): Worker {
    if o in db.workers then db.workers[o] else Idle
  }

  /** `_serialize_order` (without the timestamps). */
  function Serialize(id: OrderId, o: Order): Response {
    Response(id, o.status, o.total, seq(|o.items|, i requires 0 <= i < |o.items| =>
      ResponseLine(o.items[i].product, o.items[i].quantity, o.items[i].unitPrice)))
  }
}

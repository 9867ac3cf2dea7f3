/** Double-entry accounts over the tables. A ledger adds up one inventory column, the reservation rows and
    the audit entries with signs chosen so that the total is zero in every committed state. */
module Ledgers {
  import opened Schema
  import opened Statements
  import opened Transactions

  datatype Ledger =
    | Held(p: ProductId, w: WarehouseId)            // reserved == sum of ACTIVE reservations
    | AvailableLog(p: ProductId, w: WarehouseId)    // available == what the audit log adds up to
    | ReservedLog(p: ProductId, w: WarehouseId)     // reserved == what the audit log adds up to
    // of one order, or (None) of all of them:
    | ReservedTrail(o: Option<OrderId>, p: ProductId, w: WarehouseId)  // each reservation was logged once ...
    | ReleasedTrail(o: Option<OrderId>, p: ProductId, w: WarehouseId)  // ... each RELEASED one was given back once ...
    | ConsumedTrail(o: Option<OrderId>, p: ProductId, w: WarehouseId)  // ... each CONSUMED one was used up once

  predicate Trail(l: Ledger) { l.ReservedTrail? || l.ReleasedTrail? || l.ConsumedTrail? }

  predicate IsOf(o: Option<OrderId>, order: OrderId) { o.None? || o.value == order }

  predicate RefersTo(reference: Reference, o: Option<OrderId>) { o.None? || reference == OrderRef(o.value) }

  function StockWeight(l: Ledger, available: int, reserved: int): int {
    match l
    case Held(_, _) => reserved
    case AvailableLog(_, _) => available
    case ReservedLog(_, _) => reserved
    case _ => 0
  }

  function ReservationWeight(l: Ledger, r: Reservation): int {
    if r.product != l.p || r.warehouse != l.w then 0 else
    match l
    case Held(_, _) => if r.status.Active? then -(r.quantity as int) else 0
    case ReservedTrail(o, _, _) => if IsOf(o, r.order) then r.quantity else 0
    case ReleasedTrail(o, _, _) => if IsOf(o, r.order) && r.status.Released? then r.quantity else 0
    case ConsumedTrail(o, _, _) => if IsOf(o, r.order) && r.status.Consumed? then r.quantity else 0
    case _ => 0
  }

  function AuditWeight(l: Ledger, e: AuditEntry): int {
    if e.product != l.p || e.warehouse != l.w then 0 else
    match l
    case AvailableLog(_, _) => if e.kind.OrderCompleted? then 0 else -e.change
    case ReservedLog(_, _) =>
      if e.kind.OrderCompleted? then -e.change
      else if e.kind.InventoryReserved? || e.kind.ReservationReleased? then e.change else 0
    case ReservedTrail(o, _, _) => if e.kind.InventoryReserved? && RefersTo(e.reference, o) then e.change else 0
    case ReleasedTrail(o, _, _) => if e.kind.ReservationReleased? && RefersTo(e.reference, o) then -e.change else 0
    case ConsumedTrail(o, _, _) => if e.kind.OrderCompleted? && RefersTo(e.reference, o) then e.change else 0
    case _ => 0
  }

  ghost function ReservationSum(l: Ledger, m: map<ReservationId, Reservation>): int
    decreases |m|
  {
    if m == map[] then 0 else
    var id :| id in m;
    ReservationWeight(l, m[id]) + ReservationSum(l, m - {id})
  }

  ghost function AuditSum(l: Ledger, log: seq<AuditEntry>): int {
    if log == [] then 0 else AuditSum(l, log[..|log| - 1]) + AuditWeight(l, log[|log| - 1])
  }

  ghost function StockPart(db: State, l: Ledger): int {
    if (l.p, l.w) in db.inventory
    then StockWeight(l, db.inventory[(l.p, l.w)].available, db.inventory[(l.p, l.w)].reserved) else 0
  }

  /** How far a ledger is from balancing. */
  ghost function Slack(db: State, l: Ledger): int {
    StockPart(db, l) + ReservationSum(l, db.reservations) + AuditSum(l, db.audit)
  }

  // ---- the sum over a table does not depend on the order of its rows ----

  lemma {:induction false} SumPick(l: Ledger, m: map<ReservationId, Reservation>, id: ReservationId)
    requires id in m
    ensures ReservationSum(l, m) == ReservationWeight(l, m[id]) + ReservationSum(l, m - {id})
    decreases |m|
  {
    var first :| first in m && ReservationSum(l, m) == ReservationWeight(l, m[first]) + ReservationSum(l, m - {first});
    if first != id {
      SumPick(l, m - {first}, id);
      SumPick(l, m - {id}, first);
      assert m - {first} - {id} == m - {id} - {first};
    }
  }

  lemma SumPut(l: Ledger, m: map<ReservationId, Reservation>, id: ReservationId, r: Reservation)
    ensures ReservationSum(l, m[id := r]) ==
            ReservationSum(l, m) + ReservationWeight(l, r) - (if id in m then ReservationWeight(l, m[id]) else 0)
  {
    var m' := m[id := r];
    SumPick(l, m', id);
    if id in m {
      SumPick(l, m, id);
      assert m' - {id} == m - {id};
    } else {
      assert m' - {id} == m;
    }
  }

  lemma AuditSumAppend(l: Ledger, log: seq<AuditEntry>, e: AuditEntry)
    ensures AuditSum(l, log + [e]) == AuditSum(l, log) + AuditWeight(l, e)
  {
    assert (log + [e])[..|log|] == log;
  }

  // ---- what each statement does to a ledger ----

  function StockChange(op: StockOp, l: Ledger): int {
    match op
    case TryReserve(q) => StockWeight(l, -(q as int), q)
    case Release(q) => StockWeight(l, q, -(q as int))
    case Consume(q) => StockWeight(l, 0, -(q as int))
    case AdjustAvailable(delta) => StockWeight(l, delta, 0)
    case InsertStock(row) => StockWeight(l, row.available, row.reserved)
    case _ => 0
  }

  function ReservationChange(op: ReservationOp, l: Ledger): int {
    match op
    case InsertReservation(r) => ReservationWeight(l, r)
    case MarkReleased(r) => ReservationWeight(l, r.(status := Released)) - ReservationWeight(l, r.(status := Active))
    case MarkConsumed(r) => ReservationWeight(l, r.(status := Consumed)) - ReservationWeight(l, r.(status := Active))
    case SetReleased(r) => ReservationWeight(l, r.(status := Released)) - ReservationWeight(l, r.(status := Active))
    case LockExpired(_, _) => 0
  }

  function Change(s: Stmt, l: Ledger): int {
    match s
    case OnStock(p, w, op) => if p == l.p && w == l.w then StockChange(op, l) else 0
    case OnReservation(_, op) => ReservationChange(op, l)
    case Audit(e) => AuditWeight(l, e)
    case _ => 0
  }

  /** What the rest of a transaction will still do to a ledger. */
  function Debt(p: Prog, l: Ledger): int {
    match p
    case Do(s, yes, _) => Change(s, l) + Debt(yes, l)
    case _ => 0
  }

  /** The row a status change was written for is the one that is there. */
  ghost predicate Fits(db: State, s: Stmt) {
    s.OnReservation? ==>
      match s.reservation
      case MarkReleased(r) => IsRow(db, s.id, r)
      case MarkConsumed(r) => IsRow(db, s.id, r)
      case SetReleased(r) => IsRow(db, s.id, r) && IsActive(db, s.id)
      case _ => true
  }

  function RowWeight(l: Ledger, row: Option<Inventory>): int {
    if row.None? then 0 else StockWeight(l, row.value.available, row.value.reserved)
  }

  lemma StockRowMoves(op: StockOp, row: Option<Inventory>, l: Ledger)
    requires !OnStockRow(op, row).Miss?
    ensures OnStockRow(op, row).Put?
    ensures RowWeight(l, Some(OnStockRow(op, row).row)) == RowWeight(l, row) + StockChange(op, l)
  {
  }

  lemma StockSlackMoves(db: State, p: ProductId, w: WarehouseId, op: StockOp, l: Ledger)
    requires Ok(db, OnStock(p, w, op))
    ensures Slack(Exec(db, OnStock(p, w, op)), l) == Slack(db, l) + Change(OnStock(p, w, op), l)
  {
    var db' := Exec(db, OnStock(p, w, op));
    StockRowMoves(op, Look(db.inventory, (p, w)), l);
    assert db'.reservations == db.reservations && db'.audit == db.audit;
    assert StockPart(db, l) == RowWeight(l, Look(db.inventory, (l.p, l.w)));
    assert StockPart(db', l) == RowWeight(l, Look(db'.inventory, (l.p, l.w)));
  }

  lemma ReservationSlackMoves(db: State, id: ReservationId, op: ReservationOp, l: Ledger)
    requires Ok(db, OnReservation(id, op)) && Fits(db, OnReservation(id, op))
    ensures Slack(Exec(db, OnReservation(id, op)), l) == Slack(db, l) + Change(OnReservation(id, op), l)
  {
    var db' := Exec(db, OnReservation(id, op));
    assert db'.inventory == db.inventory && db'.audit == db.audit;
    var hit := OnReservationRow(op, Look(db.reservations, id));
    if hit.Put? {
      SumPut(l, db.reservations, id, hit.row);
    } else {
      assert db'.reservations == db.reservations;
    }
  }

  /** Every statement moves every ledger by exactly its `Change`. */
  lemma SlackMoves(db: State, s: Stmt, l: Ledger)
    requires Ok(db, s) && Fits(db, s)
    ensures Slack(Exec(db, s), l) == Slack(db, l) + Change(s, l)
  {
    if s.OnStock? {
      StockSlackMoves(db, s.p, s.w, s.stock, l);
    } else if s.OnReservation? {
      ReservationSlackMoves(db, s.id, s.reservation, l);
    } else if s.Audit? {
      AuditSumAppend(l, db.audit, s.entry);
    }
  }
}

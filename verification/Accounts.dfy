/** What balanced ledgers say in the service's own words. */
module Accounts {
  import opened Schema
  import opened Ledgers
  import opened Invariant

  function ReservedAt(db: State, p: ProductId, w: WarehouseId): nat {
    if (p, w) in db.inventory then db.inventory[(p, w)].reserved else 0
  }

  function AvailableAt(db: State, p: ProductId, w: WarehouseId): nat {
    if (p, w) in db.inventory then db.inventory[(p, w)].available else 0
  }

  /** Units reserved at (p, w) by reservations with this status, of one order or (None) of all. */
  ghost function Units(rs: map<ReservationId, Reservation>, p: ProductId, w: WarehouseId, o: Option<OrderId>,
                       statuses: set<ReservationStatus>): nat
    decreases |rs|
  {
    if rs == map[] then 0 else
    var id :| id in rs;
    var r := rs[id];
    (if r.product == p && r.warehouse == w && IsOf(o, r.order) && r.status in statuses then r.quantity else 0)
    + Units(rs - {id}, p, w, o, statuses)
  }

  /** The sum of `change` over the log entries at (p, w) of these kinds, of one order or (None) of any origin. */
  function Logged(log: seq<AuditEntry>, p: ProductId, w: WarehouseId, o: Option<OrderId>, kinds: set<AuditType>): int {
    if log == [] then 0 else
    var e := log[|log| - 1];
    (if e.product == p && e.warehouse == w && RefersTo(e.reference, o) && e.kind in kinds
     then e.change else 0)
    + Logged(log[..|log| - 1], p, w, o, kinds)
  }

  const EVERY_STATUS := {Active, Released, Consumed}
  const NOT_COMPLETION := {StockAdded, StockRemoved, InventoryReserved, ReservationReleased, ManualAdjustment}

  lemma {:induction false} HeldIsUnits(rs: map<ReservationId, Reservation>, p: ProductId, w: WarehouseId)
    ensures ReservationSum(Held(p, w), rs) == -(Units(rs, p, w, None, {Active}) as int)
    decreases |rs|
  {
    if rs != map[] {
      var id :| id in rs && Units(rs, p, w, None, {Active}) ==
        (if rs[id].product == p && rs[id].warehouse == w && rs[id].status in {Active} then rs[id].quantity else 0)
        + Units(rs - {id}, p, w, None, {Active});
      SumPick(Held(p, w), rs, id);
      HeldIsUnits(rs - {id}, p, w);
    }
  }

  lemma {:induction false} TrailIsUnits(rs: map<ReservationId, Reservation>, l: Ledger,
                                        statuses: set<ReservationStatus>)
    requires Trail(l)
    requires statuses == if l.ReservedTrail? then EVERY_STATUS else if l.ReleasedTrail? then {Released} else {Consumed}
    ensures ReservationSum(l, rs) == Units(rs, l.p, l.w, l.o, statuses)
    decreases |rs|
  {
    if rs != map[] {
      var id :| id in rs && Units(rs, l.p, l.w, l.o, statuses) ==
        (if rs[id].product == l.p && rs[id].warehouse == l.w && IsOf(l.o, rs[id].order) && rs[id].status in statuses
         then rs[id].quantity else 0)
        + Units(rs - {id}, l.p, l.w, l.o, statuses);
      SumPick(l, rs, id);
      assert rs[id].status.Active? || rs[id].status.Released? || rs[id].status.Consumed?;
      assert rs[id].status in EVERY_STATUS;
      assert ReservationWeight(l, rs[id]) ==
        if rs[id].product == l.p && rs[id].warehouse == l.w && IsOf(l.o, rs[id].order) && rs[id].status in statuses
        then rs[id].quantity else 0;
      TrailIsUnits(rs - {id}, l, statuses);
    }
  }

  lemma {:induction false} LogsWeigh(rs: map<ReservationId, Reservation>, l: Ledger)
    requires l.AvailableLog? || l.ReservedLog?
    ensures ReservationSum(l, rs) == 0
    decreases |rs|
  {
    if rs != map[] {
      var id :| id in rs && ReservationSum(l, rs) == ReservationWeight(l, rs[id]) + ReservationSum(l, rs - {id});
      assert ReservationWeight(l, rs[id]) == 0;
      LogsWeigh(rs - {id}, l);
    }
  }

  lemma {:induction false} AuditIsLogged(l: Ledger, log: seq<AuditEntry>)
    ensures match l
      case Held(p, w) => AuditSum(l, log) == 0
      case AvailableLog(p, w) => AuditSum(l, log) == -Logged(log, p, w, None, NOT_COMPLETION)
      case ReservedLog(p, w) => AuditSum(l, log) ==
        -Logged(log, p, w, None, {OrderCompleted}) + Logged(log, p, w, None, {InventoryReserved, ReservationReleased})
      case ReservedTrail(o, p, w) => AuditSum(l, log) == Logged(log, p, w, o, {InventoryReserved})
      case ReleasedTrail(o, p, w) => AuditSum(l, log) == -Logged(log, p, w, o, {ReservationReleased})
      case ConsumedTrail(o, p, w) => AuditSum(l, log) == Logged(log, p, w, o, {OrderCompleted})
    decreases |log|
  {
    if log != [] { AuditIsLogged(l, log[..|log| - 1]); }
  }

  /** `reserved_quantity` is what the ACTIVE reservations hold. */
  lemma ReservedIsHeld(db: State, p: ProductId, w: WarehouseId)
    requires Inv(db)
    ensures ReservedAt(db, p, w) == Units(db.reservations, p, w, None, {Active})
  {
    assert Slack(db, Held(p, w)) == 0;
    HeldIsUnits(db.reservations, p, w);
    AuditIsLogged(Held(p, w), db.audit);
  }

  /** The audit log alone gives back both columns of every stock row. */
  lemma AuditRebuildsStock(db: State, p: ProductId, w: WarehouseId)
    requires Inv(db)
    ensures AvailableAt(db, p, w) == Logged(db.audit, p, w, None, NOT_COMPLETION)
    ensures ReservedAt(db, p, w) == Logged(db.audit, p, w, None, {OrderCompleted})
                                  - Logged(db.audit, p, w, None, {InventoryReserved, ReservationReleased})
  {
    assert Slack(db, AvailableLog(p, w)) == 0 && Slack(db, ReservedLog(p, w)) == 0;
    LogsWeigh(db.reservations, AvailableLog(p, w));
    LogsWeigh(db.reservations, ReservedLog(p, w));
    AuditIsLogged(AvailableLog(p, w), db.audit);
    AuditIsLogged(ReservedLog(p, w), db.audit);
  }

  lemma {:induction false} LoggedSplit(log: seq<AuditEntry>, p: ProductId, w: WarehouseId, o: Option<OrderId>,
                                       some: set<AuditType>, others: set<AuditType>)
    requires some !! others
    ensures Logged(log, p, w, o, some + others) == Logged(log, p, w, o, some) + Logged(log, p, w, o, others)
    decreases |log|
  {
    if log != [] { LoggedSplit(log[..|log| - 1], p, w, o, some, others); }
  }

  const ADJUSTMENTS := {StockAdded, StockRemoved, ManualAdjustment}

  /** Conservation: what is on the shelf and what is reserved is what was ever delivered or written off, less
      what completed orders used up. */
  lemma StockIsConserved(db: State, p: ProductId, w: WarehouseId)
    requires Inv(db)
    ensures AvailableAt(db, p, w) + ReservedAt(db, p, w) ==
      Logged(db.audit, p, w, None, ADJUSTMENTS) + Logged(db.audit, p, w, None, {OrderCompleted})
  {
    AuditRebuildsStock(db, p, w);
    LoggedSplit(db.audit, p, w, None, ADJUSTMENTS, {InventoryReserved, ReservationReleased});
    assert ADJUSTMENTS + {InventoryReserved, ReservationReleased} == NOT_COMPLETION;
  }

  /** Exactly once: the log of an order, and of all orders together, takes each unit once, gives each RELEASED
      unit back once, and uses each CONSUMED unit up once; none of them twice, and none both ways. */
  lemma EachUnitLoggedOnce(db: State, o: Option<OrderId>, p: ProductId, w: WarehouseId)
    requires Inv(db)
    ensures -Logged(db.audit, p, w, o, {InventoryReserved}) == Units(db.reservations, p, w, o, EVERY_STATUS)
    ensures Logged(db.audit, p, w, o, {ReservationReleased}) == Units(db.reservations, p, w, o, {Released})
    ensures -Logged(db.audit, p, w, o, {OrderCompleted}) == Units(db.reservations, p, w, o, {Consumed})
  {
    var taken, back, used := ReservedTrail(o, p, w), ReleasedTrail(o, p, w), ConsumedTrail(o, p, w);
    assert Slack(db, taken) == 0 && Slack(db, back) == 0 && Slack(db, used) == 0;
    TrailIsUnits(db.reservations, taken, EVERY_STATUS);
    TrailIsUnits(db.reservations, back, {Released});
    TrailIsUnits(db.reservations, used, {Consumed});
    AuditIsLogged(taken, db.audit);
    AuditIsLogged(back, db.audit);
    AuditIsLogged(used, db.audit);
  }

  // ---- the whole log ----

  const EVERY_KIND :=
    {StockAdded, StockRemoved, InventoryReserved, ReservationReleased, OrderCompleted, ManualAdjustment}

  /** Nothing at (p, w) was ever used up. */
  predicate NothingUsed(rs: map<ReservationId, Reservation>, p: ProductId, w: WarehouseId) {
    forall id | id in rs && rs[id].product == p && rs[id].warehouse == w :: !rs[id].status.Consumed?
  }

  lemma {:induction false} NoUnitsUsed(rs: map<ReservationId, Reservation>, p: ProductId, w: WarehouseId)
    requires forall id | id in rs :: rs[id].quantity > 0
    ensures Units(rs, p, w, None, {Consumed}) == 0 <==> NothingUsed(rs, p, w)
    decreases |rs|
  {
    if rs != map[] {
      var id :| id in rs && Units(rs, p, w, None, {Consumed}) ==
        (if rs[id].product == p && rs[id].warehouse == w && rs[id].status in {Consumed} then rs[id].quantity else 0)
        + Units(rs - {id}, p, w, None, {Consumed});
      NoUnitsUsed(rs - {id}, p, w);
      assert forall x | x in rs && x != id :: x in rs - {id} && (rs - {id})[x] == rs[x];
    }
  }

  /** `change` summed over every entry misses `available` by what completed orders used up, so the two agree if
      and only if nothing was used up there. */
  lemma WholeLogIsAvailableIffNothingUsed(db: State, p: ProductId, w: WarehouseId)
    requires Inv(db)
    ensures Logged(db.audit, p, w, None, EVERY_KIND) ==
      AvailableAt(db, p, w) - Units(db.reservations, p, w, None, {Consumed})
    ensures Logged(db.audit, p, w, None, EVERY_KIND) == AvailableAt(db, p, w) <==> NothingUsed(db.reservations, p, w)
  {
    AuditRebuildsStock(db, p, w);
    EachUnitLoggedOnce(db, None, p, w);
    LoggedSplit(db.audit, p, w, None, NOT_COMPLETION, {OrderCompleted});
    assert NOT_COMPLETION + {OrderCompleted} == EVERY_KIND;
    NoUnitsUsed(db.reservations, p, w);
  }
}

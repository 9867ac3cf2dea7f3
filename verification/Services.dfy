/** The tables in place: the repositories as methods that change one table, and the services and workers with
    their own loops over them, each run with nobody else around. */
module Services {
  import opened Schema
  import opened Statements
  import opened Transactions
  import opened Effects
  import opened Invariant
  import opened Runs
  import opened Creation
  import opened Deliveries
  import opened Requests
  import opened Sweeps
  import opened Outbox
  import opened Logs
  import opened Answers
  import opened Payments
  import opened Adjustments

  class Database {
    const cfg: Config
    var inventory: map<Stock, Inventory>
    var reservations: map<ReservationId, Reservation>
    var orders: map<OrderId, Order>
    var orderKeys: map<string, OrderId>
    var keys: map<string, KeyRow>
    var events: map<EventId, Event>
    var audit: seq<AuditEntry>
    var alerts: seq<Alert>
    var deadLetters: seq<DeadLetter>
    var workers: map<OrderId, Worker>
    var broker: set<EventId>
    var clock: int

    constructor (cfg: Config, clock: int)
      ensures Valid() && Init(Tables()) && Tables().cfg == cfg && Tables().clock == clock
    {
      this.cfg, this.clock := cfg, clock;
      inventory, reservations, orders, orderKeys, keys := map[], map[], map[], map[], map[];
      events, audit, alerts, deadLetters, workers, broker := map[], [], [], [], map[], {};
      new;
      InitOk(Tables());
    }

    function Tables(): State
      reads this
    {
      State(cfg, inventory, reservations, orders, orderKeys, keys, events, audit, alerts, deadLetters,
            workers, broker, clock)
    }

    ghost predicate Valid()
      reads this
    {
      Inv(Tables()) && AllPriced(Tables())
    }

    // ---- inventory_repository ----

    method TryReserve(p: ProductId, w: WarehouseId, q: nat) returns (ok: bool)
      modifies this`inventory
      ensures Did(old(Tables()), OnStock(p, w, StockOp.TryReserve(q)), ok, Tables())
    {
      ok := (p, w) in inventory && inventory[(p, w)].available >= q;
      if ok {
        var row := inventory[(p, w)];
        inventory := inventory[(p, w) := row.(available := row.available - q, reserved := row.reserved + q)];
      }
    }

    method Release(p: ProductId, w: WarehouseId, q: nat) returns (ok: bool)
      modifies this`inventory
      ensures Did(old(Tables()), OnStock(p, w, StockOp.Release(q)), ok, Tables())
    {
      ok := (p, w) in inventory && inventory[(p, w)].reserved >= q;
      if ok {
        var row := inventory[(p, w)];
        inventory := inventory[(p, w) := row.(available := row.available + q, reserved := row.reserved - q)];
      }
    }

    method Consume(p: ProductId, w: WarehouseId, q: nat) returns (ok: bool)
      modifies this`inventory
      ensures Did(old(Tables()), OnStock(p, w, StockOp.Consume(q)), ok, Tables())
    {
      ok := (p, w) in inventory && inventory[(p, w)].reserved >= q;
      if ok {
        var row := inventory[(p, w)];
        inventory := inventory[(p, w) := row.(reserved := row.reserved - q)];
      }
    }

    method AdjustAvailable(p: ProductId, w: WarehouseId, delta: int) returns (ok: bool)
      modifies this`inventory
      ensures Did(old(Tables()), OnStock(p, w, StockOp.AdjustAvailable(delta)), ok, Tables())
    {
      ok := (p, w) in inventory && inventory[(p, w)].available + delta >= 0;
      if ok {
        var row := inventory[(p, w)];
        inventory := inventory[(p, w) := row.(available := row.available + delta)];
      }
    }

    method SetThresholdRow(p: ProductId, w: WarehouseId, threshold: nat) returns (ok: bool)
      modifies this`inventory
      ensures Did(old(Tables()), OnStock(p, w, StockOp.SetThreshold(threshold)), ok, Tables())
    {
      ok := (p, w) in inventory;
      if ok {
        var row := inventory[(p, w)];
        inventory := inventory[(p, w) := row.(threshold := Some(threshold), low := row.available <= threshold)];
      }
    }

    method TryFlipLowStock(p: ProductId, w: WarehouseId) returns (flip: Option<Inventory>)
      modifies this`inventory
      ensures Did(old(Tables()), OnStock(p, w, FlipLowStock), flip.Some?, Tables())
      ensures flip.Some? ==> (p, w) in inventory && flip.value == inventory[(p, w)] && flip.value.threshold.Some?
    {
      flip := None;
      if (p, w) in inventory {
        var row := inventory[(p, w)];
        if !row.low && row.threshold.Some? && row.available <= row.threshold.value {
          inventory := inventory[(p, w) := row.(low := true)];
          flip := Some(inventory[(p, w)]);
        }
      }
    }

    method TryResetLowStock(p: ProductId, w: WarehouseId) returns (ok: bool)
      modifies this`inventory
      ensures Did(old(Tables()), OnStock(p, w, ResetLowStock), ok, Tables())
    {
      ok := false;
      if (p, w) in inventory {
        var row := inventory[(p, w)];
        if row.low && row.threshold.Some? && row.available > row.threshold.value {
          inventory := inventory[(p, w) := row.(low := false)];
          ok := true;
        }
      }
    }

    /** The warehouse with the most stock among those that can serve the whole line alone. */
    method FindBestWarehouse(p: ProductId, q: nat) returns (best: Option<WarehouseId>)
      ensures best.Some? ==> MostStocked(inventory, Line(p, q), best.value)
      ensures best.None? ==> !Servable(inventory, Line(p, q))
    {
      best := None;
      var rows := inventory.Keys;
      while rows != {}
        invariant rows <= inventory.Keys
        invariant best.Some? ==> HasEnough(inventory, p, best.value, q)
        invariant forall w: WarehouseId | HasEnough(inventory, p, w, q) && (p, w) !in rows ::
          best.Some? && inventory[(p, w)].available <= inventory[(p, best.value)].available
        decreases |rows|
      {
        var k :| k in rows;
        rows := rows - {k};
        if k.0 == p && inventory[k].available >= q &&
           (best.None? || inventory[k].available > inventory[(p, best.value)].available) {
          best := Some(k.1);
        }
      }
    }

    // ---- reservation_repository ----

    method MarkReleased(id: ReservationId, ghost r: Reservation) returns (ok: bool)
      modifies this`reservations
      ensures Did(old(Tables()), OnReservation(id, ReservationOp.MarkReleased(r)), ok, Tables())
    {
      ok := id in reservations && reservations[id].status.Active?;
      if ok { reservations := reservations[id := reservations[id].(status := Released)]; }
    }

    method MarkConsumed(id: ReservationId, ghost r: Reservation) returns (ok: bool)
      modifies this`reservations
      ensures Did(old(Tables()), OnReservation(id, ReservationOp.MarkConsumed(r)), ok, Tables())
    {
      ok := id in reservations && reservations[id].status.Active?;
      if ok { reservations := reservations[id := reservations[id].(status := Consumed)]; }
    }

    method ListActiveForOrder(o: OrderId) returns (found: seq<Found>)
      requires SomethingEach(reservations)
      ensures Covers(Tables(), o, found) && ActiveRowsOf(found, o)
    {
      found := [];
      var ids := reservations.Keys;
      while ids != {}
        invariant ids <= reservations.Keys && ActiveRowsOf(found, o)
        invariant forall i | 0 <= i < |found| :: IsRow(Tables(), found[i].0, found[i].1)
        invariant forall id | IsActive(Tables(), id) && reservations[id].order == o && id !in ids :: Listed(found, id)
        decreases |ids|
      {
        var id :| id in ids;
        ids := ids - {id};
        ghost var before := found;
        if reservations[id].order == o && reservations[id].status.Active? {
          found := found + [(id, reservations[id])];
          assert found[|before|].0 == id;
        }
        assert forall x | Listed(before, x) :: Listed(found, x) by {
          forall x | Listed(before, x)
            ensures Listed(found, x)
          {
            var i :| 0 <= i < |before| && before[i].0 == x;
            assert found[i].0 == x;
          }
        }
      }
    }

    // ---- audit, alert, outbox, dead-letter and order rows ----

    method RecordAudit(entry: AuditEntry)
      modifies this`audit
      ensures Did(old(Tables()), Audit(entry), true, Tables())
    {
      audit := audit + [entry];
    }

    /** The alert row and its outbox event, from what the flip returned. */
    method CreateAlert(p: ProductId, w: WarehouseId, flip: Inventory, alert: AlertId, e: EventId)
      requires (p, w) in inventory && inventory[(p, w)] == flip && flip.threshold.Some? && e !in events
      modifies this`alerts, this`events
      ensures Did(old(Tables()), RaiseAlert(p, w, alert, e), true, Tables())
    {
      var row := Alert(alert, p, w, flip.available, flip.threshold.value);
      alerts := alerts + [row];
      events := events[e := Event(LowStockAlertCreated(row), false)];
    }

    method GetOrderForUpdate(o: OrderId) returns (row: Option<Order>)
      ensures row == Look(orders, o) && Did(Tables(), OnOrder(o, LockOrder), row.Some?, Tables())
    {
      row := if o in orders then Some(orders[o]) else None;
    }

    method UpdateStatus(o: OrderId, status: OrderStatus)
      requires o in orders
      modifies this`orders
      ensures Did(old(Tables()), OnOrder(o, SetStatus(status)), true, Tables())
    {
      orders := orders[o := orders[o].(status := status)];
    }

    // ---- inventory_service ----

    method CheckLowStockTransition(p: ProductId, w: WarehouseId, delta: int, alert: AlertId, e: EventId)
      requires delta < 0 ==> e !in events
      modifies this`inventory, this`alerts, this`events
      ensures forall k :: Run(old(Tables()), CheckLow(p, w, delta, alert, e, k)) == Run(Tables(), k)
      ensures Available(p, w) == old(Available(p, w))
    {
      ghost var t0 := Tables();
      if delta < 0 {
        var flip := TryFlipLowStock(p, w);
        ghost var t1 := Tables();
        if flip.Some? { CreateAlert(p, w, flip.value, alert, e); }
        forall k
          ensures Run(t0, CheckLow(p, w, delta, alert, e, k)) == Run(Tables(), k)
        {
          RunDo(t0, OnStock(p, w, FlipLowStock), Then(RaiseAlert(p, w, alert, e), k), k);
          RunDo(t1, RaiseAlert(p, w, alert, e), k, Stop(IntegrityError));
        }
      } else if delta > 0 {
        var _ := TryResetLowStock(p, w);
        forall k
          ensures Run(t0, CheckLow(p, w, delta, alert, e, k)) == Run(Tables(), k)
        {
          RunIgnoring(t0, OnStock(p, w, ResetLowStock), k);
        }
      }
    }

    /** `reserve`: false when there is not enough, and then nothing was touched. */
    method Reserve(p: ProductId, w: WarehouseId, q: nat, pick: Pick, o: OrderId) returns (ok: bool)
      requires q > 0 && pick.event !in events
      modifies this`inventory, this`audit, this`alerts, this`events
      ensures ok <==> HasEnough(old(inventory), p, w, q)
      ensures Tables() == if ok then Took(old(Tables()), p, w, q, pick, o) else old(Tables())
    {
      ghost var t0 := Tables();
      ok := TryReserve(p, w, q);
      if ok {
        ghost var t1 := Tables();
        RecordAudit(Entry(p, w, -(q as int), InventoryReserved, o));
        ghost var t2 := Tables();
        CheckLowStockTransition(p, w, -(q as int), pick.alert, pick.event);
        ReserveExact(t0, p, w, q, pick, o, Commit);
        var take, log := OnStock(p, w, StockOp.TryReserve(q)), Audit(Entry(p, w, -(q as int), InventoryReserved, o));
        var tail := CheckLow(p, w, -(q as int), pick.alert, pick.event, Commit);
        RunDo(t0, take, Then(log, tail), Stop(InsufficientInventory));
        RunDo(t1, log, tail, Stop(IntegrityError));
        assert Run(t2, tail) == Run(Tables(), Commit);
      }
    }

    method ReleaseReservation(id: ReservationId, r: Reservation, o: OrderId) returns (ok: bool)
      modifies this`inventory, this`reservations, this`audit, this`alerts, this`events
      ensures ok <==> IsActive(old(Tables()), id)
      ensures forall k :: Run(old(Tables()), Transactions.ReleaseReservation(id, r, o, k)) == Run(Tables(), k)
    {
      ghost var t0 := Tables();
      ghost var mark := OnReservation(id, ReservationOp.MarkReleased(r));
      ghost var give := OnStock(r.product, r.warehouse, StockOp.Release(r.quantity));
      ghost var log := Audit(Entry(r.product, r.warehouse, r.quantity, ReservationReleased, o));
      ok := MarkReleased(id, r);
      ghost var t1, t2, t3 := Tables(), Tables(), Tables();
      if ok {
        var _ := Release(r.product, r.warehouse, r.quantity);
        t2 := Tables();
        RecordAudit(Entry(r.product, r.warehouse, r.quantity, ReservationReleased, o));
        t3 := Tables();
        CheckLowStockTransition(r.product, r.warehouse, r.quantity, 0, 0);
      }
      forall k
        ensures Run(t0, Transactions.ReleaseReservation(id, r, o, k)) == Run(Tables(), k)
      {
        var tail := CheckLow(r.product, r.warehouse, r.quantity, 0, 0, k);
        RunDo(t0, mark, Ignoring(give, Then(log, tail)), k);
        if ok {
          RunIgnoring(t1, give, Then(log, tail));
          RunDo(t2, log, tail, Stop(IntegrityError));
          assert Run(t3, tail) == Run(Tables(), k);
        }
      }
    }

    method ConsumeReservation(id: ReservationId, r: Reservation, o: OrderId) returns (ok: bool)
      modifies this`inventory, this`reservations, this`audit
      ensures ok <==> IsActive(old(Tables()), id)
      ensures forall k :: Run(old(Tables()), Transactions.ConsumeReservation(id, r, o, k)) == Run(Tables(), k)
    {
      ghost var t0 := Tables();
      ghost var mark := OnReservation(id, ReservationOp.MarkConsumed(r));
      ghost var give := OnStock(r.product, r.warehouse, StockOp.Consume(r.quantity));
      ghost var log := Audit(Entry(r.product, r.warehouse, -(r.quantity as int), OrderCompleted, o));
      ok := MarkConsumed(id, r);
      ghost var t1, t2 := Tables(), Tables();
      if ok {
        var _ := Consume(r.product, r.warehouse, r.quantity);
        t2 := Tables();
        RecordAudit(Entry(r.product, r.warehouse, -(r.quantity as int), OrderCompleted, o));
      }
      forall k
        ensures Run(t0, Transactions.ConsumeReservation(id, r, o, k)) == Run(Tables(), k)
      {
        RunDo(t0, mark, Ignoring(give, Then(log, k)), k);
        if ok {
          RunIgnoring(t1, give, Then(log, k));
          RunDo(t2, log, k, Stop(IntegrityError));
        }
      }
    }

    /** The loop of cancel_order, `_complete_order` and `_fail_order`. */
    method SettleAll(found: seq<Found>, o: OrderId, how: ReservationStatus)
      modifies this`inventory, this`reservations, this`audit, this`alerts, this`events
      ensures forall k :: Run(old(Tables()), Settle(found, o, how, k)) == Run(Tables(), k)
    {
      ghost var t0 := Tables();
      for i := 0 to |found|
        invariant forall k :: Run(t0, Settle(found, o, how, k)) == Run(Tables(), Settle(found[i..], o, how, k))
      {
        ghost var t1 := Tables();
        assert found[i..][1..] == found[i + 1..];
        if how.Consumed? {
          var _ := ConsumeReservation(found[i].0, found[i].1, o);
        } else {
          var _ := ReleaseReservation(found[i].0, found[i].1, o);
        }
        forall k
          ensures Run(t0, Settle(found, o, how, k)) == Run(Tables(), Settle(found[i + 1..], o, how, k))
        {
          var rest := Settle(found[i + 1..], o, how, k);
          if how.Consumed? {
            assert Run(t1, Transactions.ConsumeReservation(found[i].0, found[i].1, o, rest)) == Run(Tables(), rest);
          } else {
            assert Run(t1, Transactions.ReleaseReservation(found[i].0, found[i].1, o, rest)) == Run(Tables(), rest);
          }
        }
      }
      assert found[|found|..] == [];
    }

    /** Lists what the order still holds and settles all of it. */
    method SettleActive(o: OrderId, how: ReservationStatus) returns (ghost found: seq<Found>)
      requires SomethingEach(reservations)
      modifies this`inventory, this`reservations, this`audit, this`alerts, this`events
      ensures ActiveRowsOf(found, o) && Covers(old(Tables()), o, found)
      ensures forall k :: Run(old(Tables()), SettleThen(o, found, how, k)) == Run(Tables(), k)
    {
      ghost var t0 := Tables();
      var active := ListActiveForOrder(o);
      found := active;
      SettleAll(active, o, how);
      forall k
        ensures Run(t0, SettleThen(o, found, how, k)) == Run(Tables(), k)
      {
        SelectedRuns(t0, o, found, how, k);
      }
    }

    // ---- cancel_order ----

    /** Accepted exactly for a cancellable order of a caller who may see it; then all it still held is free. */
    method CancelOrder(o: OrderId, user: User) returns (answer: Answer, ghost found: seq<Found>)
      requires Valid()
      modifies this`inventory, this`reservations, this`audit, this`alerts, this`events, this`orders
      ensures Valid() && ActiveRowsOf(found, o)
      ensures Ends(old(Tables()), CancelCode(o, user, found), answer, Tables())
      ensures answer.Accepted? <==> MayCancel(old(Tables()), o, user)
      ensures answer.Accepted? ==> CancelledBy(old(Tables()), Tables(), o)
      ensures answer.Accepted? ==>
        && EndsAs(old(Tables()), o, old(orders)[o].attempts, Cancelled, Released, Tables())
        && OnlyGaveBack(old(Tables()), Tables()) && alerts == old(alerts) && events == old(events)
      ensures !answer.Accepted? ==> Tables() == old(Tables())
      ensures answer == Refused(OrderNotFound) <==> o !in old(orders)
      ensures answer == Refused(Forbidden) <==> o in old(orders) && user.role.Client? && old(orders)[o].owner != user.id
      ensures answer == Refused(CannotCancel) <==>
        && o in old(orders) && (user.role.Client? ==> old(orders)[o].owner == user.id)
        && !old(orders)[o].status.Pending? && !old(orders)[o].status.Reserved?
    {
      answer, found := Cancelling(o, user);
      CancelSound(old(Tables()), o, user, found, answer, Tables());
      EndsPriced(old(Tables()), Cancel(o, user, found), answer, Tables());
      if answer.Accepted? {
        CommitGivesBack(old(Tables()), Cancel(o, user, found), Tables());
        CancelledInFull(old(Tables()), o, Tables());
      }
    }

    method Cancelling(o: OrderId, user: User) returns (answer: Answer, ghost found: seq<Found>)
      requires SomethingEach(reservations)
      modifies this`inventory, this`reservations, this`audit, this`alerts, this`events, this`orders
      ensures ActiveRowsOf(found, o) && (MayCancel(old(Tables()), o, user) ==> Covers(old(Tables()), o, found))
      ensures Ends(old(Tables()), CancelCode(o, user, found), answer, Tables())
      ensures answer == Refused(OrderNotFound) <==> o !in old(orders)
      ensures answer == Refused(Forbidden) <==> o in old(orders) && user.role.Client? && old(orders)[o].owner != user.id
      ensures answer == Refused(CannotCancel) <==>
        && o in old(orders) && (user.role.Client? ==> old(orders)[o].owner == user.id)
        && !old(orders)[o].status.Pending? && !old(orders)[o].status.Reserved?
    {
      ghost var t0 := Tables();
      found := [];
      var order := GetOrderForUpdate(o);
      if order.None? {
        answer := Refused(OrderNotFound);
      } else if user.role.Client? && order.value.owner != user.id {
        answer := Refused(Forbidden);
      } else if !order.value.status.Pending? && !order.value.status.Reserved? {
        answer := Refused(CannotCancel);
      } else {
        found := SettleActive(o, Released);
        ghost var t1, close := Tables(), OnOrder(o, SetStatus(Cancelled));
        assert Run(t0, SettleThen(o, found, Released, Then(close, Commit))) == Run(t1, Then(close, Commit));
        UpdateStatus(o, Cancelled);
        RunDo(t1, close, Commit, Stop(IntegrityError));
        answer := Accepted;
      }
      CancelRuns(t0, o, user, found);
    }

    // ---- process_order ----

    /** Up to the first commit: take the order, unless it is not there to be taken. */
    method BeginProcessing(o: OrderId) returns (taken: bool)
      modifies this`orders, this`workers
      ensures taken == (o in old(orders) && old(orders)[o].status.Reserved?)
      ensures Ends(old(Tables()), BeginCode(o), if taken then Accepted else Refused(NothingToDo), Tables())
    {
      ghost var t0 := Tables();
      var order := GetOrderForUpdate(o);
      taken := order.Some? && order.value.status.Reserved?;
      if taken {
        orders := orders[o := order.value.(status := Processing, attempts := order.value.attempts + 1)];
        workers := workers[o := Charging(order.value.attempts + 1, order.value.token)];
      }
      BeginEffect(t0, o);
    }

    /** `_complete_order` and `_fail_order`, with what the worker remembers afterwards. */
    method Close(o: OrderId, how: ReservationStatus, status: OrderStatus, worker: Worker)
      returns (ghost found: seq<Found>)
      requires o in orders && SomethingEach(reservations)
      modifies this`inventory, this`reservations, this`audit, this`alerts, this`events, this`orders, this`workers
      ensures ActiveRowsOf(found, o)
      ensures Run(old(Tables()), SettleThen(o, found, how,
        Then(OnOrder(o, SetStatus(status)), Then(OnWorker(o, Remember(worker)), Commit)))) == Committed(Tables())
    {
      ghost var t0 := Tables();
      found := SettleActive(o, how);
      ghost var t1 := Tables();
      ghost var close := Then(OnOrder(o, SetStatus(status)), Then(OnWorker(o, Remember(worker)), Commit));
      assert Run(t0, SettleThen(o, found, how, close)) == Run(t1, close);
      UpdateStatus(o, status);
      workers := workers[o := worker];
      CloseRun(t1, o, status, worker);
    }

    /** From the charge to the second commit. */
    method FinishProcessing(o: OrderId, attempt: nat, token: string) returns (ghost found: seq<Found>)
      requires o in orders && SomethingEach(reservations) && WorkerOf(Tables(), o) == Charging(attempt, token)
      modifies this`inventory, this`reservations, this`audit, this`alerts, this`events, this`orders, this`workers
      ensures ActiveRowsOf(found, o)
      ensures Run(old(Tables()), FinishCode(cfg, o, attempt, token, found)) == Committed(Tables())
      ensures old(orders)[o].attempts == attempt ==> PaidFor(old(Tables()), o, attempt, token, Tables())
      ensures old(orders)[o].attempts == attempt ==>
        WorkerOf(Tables(), o) ==
          if LeavesLetter(cfg, attempt, token) then Recording(attempt, ReasonFor(token)) else Idle
    {
      found := ChargeAndSettle(o, attempt, token);
      if old(orders)[o].attempts == attempt { FinishPays(old(Tables()), o, attempt, token, found, Tables()); }
    }

    /** The payment, and the branch it leads to. */
    method ChargeAndSettle(o: OrderId, attempt: nat, token: string) returns (ghost found: seq<Found>)
      requires o in orders && SomethingEach(reservations) && WorkerOf(Tables(), o) == Charging(attempt, token)
      modifies this`inventory, this`reservations, this`audit, this`alerts, this`events, this`orders, this`workers
      ensures ActiveRowsOf(found, o)
      ensures Run(old(Tables()), FinishCode(cfg, o, attempt, token, found)) == Committed(Tables())
    {
      ghost var t0 := Tables();
      found := [];
      var outcome := Charge(token);
      if outcome.Approved? {
        found := Close(o, Consumed, Completed, Idle);
      } else if outcome.retryable && attempt < cfg.maxAttempts {
        UpdateStatus(o, OrderStatus.Reserved);
        workers := workers[o := Idle];
        CloseRun(t0, o, OrderStatus.Reserved, Idle);
      } else {
        found := Close(o, Released, Failed, AfterFailure(cfg, attempt, outcome.message));
      }
      OutcomeFinishes(t0, o, attempt, token, found);
    }

    /** The third commit. */
    method RecordDeadLetter(o: OrderId, attempt: nat, reason: string)
      requires WorkerOf(Tables(), o) == Recording(attempt, reason)
      modifies this`deadLetters, this`workers
      ensures Run(old(Tables()), RecordCode(o, attempt, reason)) == Committed(Tables())
    {
      RecordEffect(Tables(), o, attempt, reason);
      deadLetters := deadLetters + [DeadLetter(o, reason, attempt)];
      workers := workers[o := Idle];
    }

    /** One delivery of the order's message, from first to last commit. A retry is put off by the configured
        delay for the attempt, or the last one there is. */
    method ProcessOrder(o: OrderId, backoff: seq<nat>) returns (delivery: Delivery)
      requires Valid() && backoff != []
      modifies this`inventory, this`reservations, this`audit, this`alerts
      modifies this`events, this`orders, this`workers, this`deadLetters
      ensures Valid()
      ensures !(o in old(orders) && old(orders)[o].status.Reserved?) ==>
        delivery == Ignored && Tables() == old(Tables())
      ensures o in old(orders) && old(orders)[o].status.Reserved? ==>
        && Processed(old(Tables()), o, Tables())
        && delivery == DeliveryFor(cfg, old(orders)[o].attempts + 1, old(orders)[o].token, backoff)
      ensures o in old(orders) && old(orders)[o].status.Reserved? ==>
        DeliveredByToken(old(Tables()), o, Tables(), delivery, backoff) && OnlyGaveBack(old(Tables()), Tables())
    {
      ghost var t1, found, t2;
      delivery, t1, found, t2 := Delivering(o, backoff);
      if o in old(orders) && old(orders)[o].status.Reserved? {
        DeliveryDone(old(Tables()), o, t1, found, t2, Tables(), delivery, backoff);
      }
    }

    /** Takes the order, if it is there to be taken, and goes on with it. */
    method Delivering(o: OrderId, backoff: seq<nat>)
      returns (delivery: Delivery, ghost t1: State, ghost found: seq<Found>, ghost t2: State)
      requires SomethingEach(reservations) && backoff != []
      modifies this`inventory, this`reservations, this`audit, this`alerts
      modifies this`events, this`orders, this`workers, this`deadLetters
      ensures !(o in old(orders) && old(orders)[o].status.Reserved?) ==>
        delivery == Ignored && Tables() == old(Tables())
      ensures o in old(orders) && old(orders)[o].status.Reserved? ==>
        && ThreeCommits(old(Tables()), o, t1, found, t2, Tables())
        && delivery == DeliveryFor(cfg, old(orders)[o].attempts + 1, old(orders)[o].token, backoff)
    {
      var taken := BeginProcessing(o);
      BeginEffect(old(Tables()), o);
      delivery, t1, found, t2 := Ignored, Tables(), [], Tables();
      if taken {
        delivery, found, t2 := Charged(o, orders[o].attempts, orders[o].token, backoff);
      }
    }

    /** What follows the first commit. */
    method Charged(o: OrderId, attempt: nat, token: string, backoff: seq<nat>)
      returns (delivery: Delivery, ghost found: seq<Found>, ghost closed: State)
      requires o in orders && SomethingEach(reservations) && WorkerOf(Tables(), o) == Charging(attempt, token)
      requires attempt > 0 && backoff != []
      modifies this`inventory, this`reservations, this`audit, this`alerts
      modifies this`events, this`orders, this`workers, this`deadLetters
      ensures ActiveRowsOf(found, o)
      ensures Run(old(Tables()), FinishCode(cfg, o, attempt, token, found)) == Committed(closed)
      ensures var w := SettlementOf(cfg, attempt, token).worker;
        if w.Recording? then Run(closed, RecordCode(o, attempt, w.reason)) == Committed(Tables())
        else Tables() == closed
      ensures delivery == DeliveryFor(cfg, attempt, token, backoff)
    {
      found := FinishProcessing(o, attempt, token);
      closed := Tables();
      FinishEffect(old(Tables()), o, attempt, token, found);
      var outcome := Charge(token);
      if outcome.Approved? {
        delivery := Ended(Completed);
      } else if outcome.retryable && attempt < cfg.maxAttempts {
        delivery := RetryIn(if attempt - 1 < |backoff| then backoff[attempt - 1] else backoff[|backoff| - 1]);
      } else {
        delivery := Ended(Failed);
        if attempt >= cfg.maxAttempts { RecordDeadLetter(o, attempt, outcome.message); }
      }
    }

    // ---- create_order ----

    /** One line: from the warehouse with the most stock, if any has enough. */
    method TakeLine(line: Line, ids: LineIds, o: OrderId) returns (best: Option<WarehouseId>)
      requires line.quantity > 0 && ids.event !in events
      modifies this`inventory, this`audit, this`alerts, this`events
      ensures best.None? ==> Tables() == old(Tables()) && !Servable(old(inventory), line)
      ensures best.Some? ==>
        && MostStocked(old(inventory), line, best.value)
        && Tables() == Took(old(Tables()), line.product, best.value, line.quantity, PickOf(best, ids), o)
    {
      best := FindBestWarehouse(line.product, line.quantity);
      if best.Some? {
        var reserved := Reserve(line.product, best.value, line.quantity, PickOf(best, ids), o);
      }
    }

    /** The per-line loop of create_order, up to the line that finds no warehouse. */
    method TakeLines(lines: seq<Line>, ids: seq<LineIds>, o: OrderId)
      returns (ok: bool, total: nat, items: seq<Item>, picks: seq<Pick>)
      requires |lines| == |ids| && ProperLines(lines) && AllKnown(cfg, lines) && FreshLineEvents(events, ids)
      modifies this`inventory, this`audit, this`alerts, this`events
      ensures PicksFor(picks, ids) && (ok <==> AllFit(old(inventory), lines, picks))
      ensures ok <==> forall i | 0 <= i < |lines| :: Servable(old(inventory), lines[i])
      ensures ok ==> Tables() == TookAll(old(Tables()), lines, picks, o)
      ensures ok ==> forall i | 0 <= i < |lines| :: FromTheMostStocked(old(inventory), lines[i], picks[i])
      ensures ok ==> items == ItemsFor(cfg.prices, lines, picks) && total == Total(items)
    {
      ghost var t0 := Tables();
      total, items, picks := 0, [], [];
      for i := 0 to |lines|
        invariant Taking(t0, lines, ids, picks, i, o, Tables())
        invariant AllKnown(cfg, lines[..i]) && items == ItemsFor(cfg.prices, lines[..i], picks) && total == Total(items)
      {
        StillTheSame(t0, lines, ids, picks, i, o, Tables());
        ghost var t1 := Tables();
        var best := TakeLine(lines[i], ids[i], o);
        if best.None? {
          NotServable(t0.inventory, lines, ids, picks, i);
          ok, picks := false, picks + seq(|lines| - i, j requires 0 <= j < |lines| - i => PickOf(None, ids[i + j]));
          return;
        }
        LineTaken(t0, lines, ids, picks, i, best.value, o, t1, Tables());
        Priced(cfg.prices, lines, picks, i, PickOf(best, ids[i]));
        total := total + cfg.prices[lines[i].product] * lines[i].quantity;
        items := items + [Item(lines[i].product, best.value, lines[i].quantity, cfg.prices[lines[i].product])];
        picks := picks + [PickOf(best, ids[i])];
      }
      TakingEnds(t0, lines, ids, picks, o, Tables());
      assert lines[..|lines|] == lines;
      ok := true;
    }

    method InsertReservations(rows: seq<Found>)
      requires FreshRows(reservations, rows)
      modifies this`reservations
      ensures reservations == WithRows(old(reservations), rows)
    {
      for i := 0 to |rows|
        invariant WithRows(reservations, rows[i..]) == WithRows(old(reservations), rows)
      {
        assert rows[i..][1..] == rows[i + 1..];
        reservations := reservations[rows[i].0 := rows[i].1];
      }
      assert rows[|rows|..] == [];
    }

    /** `idempotency_service.begin`: a claim, or what the key already taken leads to. */
    method BeginKey(key: string, payload: Payload) returns (taken: Option<Reply>)
      modifies this`keys
      ensures key !in old(keys) ==> taken.None? && keys == old(keys)[key := InProgress(payload)]
      ensures key in old(keys) ==> keys == old(keys) && taken == Some(
        if keys[key].hash != payload then Denied(HashMismatch)
        else if keys[key].Done? then Cached(keys[key].response) else Denied(KeyConflict))
    {
      if key !in keys {
        keys := keys[key := InProgress(payload)];
        return None;
      }
      var existing := keys[key];
      if existing.hash != payload { return Some(Denied(HashMismatch)); }
      if existing.Done? { return Some(Cached(existing.response)); }
      return Some(Denied(KeyConflict));
    }

    /** The second half of `_create_order_impl`: take every line, then put in the rows and the answer. */
    method Placing(payload: Payload, user: User, key: Option<string>, o: OrderId, e: EventId, ids: seq<LineIds>)
      returns (reply: Reply, ghost tx: Tx)
      requires ValidPayload(payload) && |ids| == |payload.items| && FreshFor(Tables(), o, e, ids)
      requires AllKnown(cfg, payload.items)
      modifies this`inventory, this`audit, this`alerts, this`events
      modifies this`orders, this`orderKeys, this`keys, this`reservations
      ensures tx.Create? && tx == Create(payload, user, key, o, e, clock, tx.picks) && PicksFor(tx.picks, ids)
      ensures Legal(tx)
      ensures AllFit(old(inventory), payload.items, tx.picks) <==>
        forall i | 0 <= i < |payload.items| :: Servable(old(inventory), payload.items[i])
      ensures reply ==
        if !AllFit(old(inventory), payload.items, tx.picks) then Denied(InsufficientInventory)
        else if key.Some? && key.value in old(orderKeys) then Denied(IntegrityError)
        else Created(Serialize(o, OrderOf(cfg, tx)))
      ensures reply.Created? ==> forall i | 0 <= i < |payload.items| ::
        FromTheMostStocked(old(inventory), payload.items[i], tx.picks[i])
      ensures reply.Created? ==> Tables() == WithAnswer(TookAll(old(Tables()), payload.items, tx.picks, o), tx)
    {
      ghost var t0 := Tables();
      var ok, total, items, picks := TakeLines(payload.items, ids, o);
      tx := Create(payload, user, key, o, e, clock, picks);
      if !ok { return Denied(InsufficientInventory), tx; }
      if key.Some? && key.value in orderKeys { return Denied(IntegrityError), tx; }
      RowsStillFresh(t0, Tables(), tx, ids);
      reply := PutIn(payload, user, key, o, e, picks, total, items);
    }

    /** Steps 3 and 4 of create_order, and the answer kept for the key. */
    method PutIn(payload: Payload, user: User, key: Option<string>, o: OrderId, e: EventId, picks: seq<Pick>,
                 total: nat, items: seq<Item>) returns (reply: Reply)
      requires ValidPayload(payload) && |picks| == |payload.items| && AllKnown(cfg, payload.items)
      requires FreshRows(reservations, RowsOf(cfg, Create(payload, user, key, o, e, clock, picks)))
      requires items == ItemsFor(cfg.prices, payload.items, picks) && total == Total(items)
      modifies this`events, this`orders, this`orderKeys, this`keys, this`reservations
      ensures Tables() == WithAnswer(old(Tables()), Create(payload, user, key, o, e, clock, picks))
      ensures reply == Created(Serialize(o, OrderOf(cfg, Create(payload, user, key, o, e, clock, picks))))
    {
      var order := Order(OrderStatus.Reserved, total, user.id, payload.token, 0, key, items);
      reply := Created(Serialize(o, order));
      InsertOrderRows(o, order, ReservationsFor(payload.items, picks, o, clock + cfg.timeout), e);
      if Claims(key) { keys := keys[key.value := KeyRow.Done(payload, o, reply.response)]; }
    }

    /** The order, its reservations and its outbox event. */
    method InsertOrderRows(o: OrderId, order: Order, rows: seq<Found>, e: EventId)
      requires FreshRows(reservations, rows)
      modifies this`events, this`orders, this`orderKeys, this`reservations
      ensures Tables() == WithOrder(old(Tables()), o, order, rows, e)
    {
      orders := orders[o := order];
      if order.key.Some? { orderKeys := orderKeys[order.key.value := o]; }
      InsertReservations(rows);
      events := events[e := Event(OrderReserved(o), false)];
    }

    /** `_create_order_impl`: on a refusal it may leave the tables half-way. */
    method Creating(payload: Payload, user: User, key: Option<string>, o: OrderId, e: EventId, ids: seq<LineIds>)
      returns (reply: Reply, ghost picks: seq<Pick>)
      requires ValidPayload(payload) && |ids| == |payload.items| && FreshFor(Tables(), o, e, ids)
      modifies this`inventory, this`audit, this`alerts, this`events
      modifies this`orders, this`orderKeys, this`keys, this`reservations
      ensures PicksFor(picks, ids) && PickedWell(old(Tables()), payload, key, picks)
      ensures Replies(old(Tables()), Create(payload, user, key, o, e, clock, picks), reply, Tables())
      ensures reply.Created? <==> CanPlace(old(Tables()), payload, key)
      ensures reply.Cached? ==> Tables() == old(Tables())
      ensures reply.Created? ==> forall i | 0 <= i < |payload.items| ::
        FromTheMostStocked(old(inventory), payload.items[i], picks[i])
    {
      picks := seq(|ids|, i requires 0 <= i < |ids| => PickOf(None, ids[i]));
      if Claims(key) {
        var taken := BeginKey(key.value, payload);
        if taken.Some? { return taken.value, picks; }
      }
      if exists l | l in payload.items :: l.product !in cfg.prices { return Denied(ProductNotFound), picks; }
      ghost var tx;
      reply, tx := Placing(payload, user, key, o, e, ids);
      picks := tx.picks;
      RepliesFrom(old(Tables()), tx, reply, Tables());
    }

    /** Puts the tables back; a worker's memory, the broker and the clock are not tables. */
    method Rollback(saved: State)
      requires saved.cfg == cfg
      modifies this`inventory, this`reservations, this`orders, this`orderKeys, this`keys
      modifies this`events, this`audit, this`alerts, this`deadLetters
      ensures Tables() == saved.(workers := workers, broker := broker, clock := clock)
    {
      inventory, reservations, orders, orderKeys, keys :=
        saved.inventory, saved.reservations, saved.orders, saved.orderKeys, saved.keys;
      events, audit, alerts, deadLetters := saved.events, saved.audit, saved.alerts, saved.deadLetters;
    }

    /** All or nothing: it succeeds exactly when the key is free and every line names a known product that one
        warehouse has enough of, whatever the order of the lines; any failure leaves all tables as they were. */
    method CreateOrder(payload: Payload, user: User, key: Option<string>, o: OrderId, e: EventId, ids: seq<LineIds>)
      returns (reply: Reply, ghost tx: Tx)
      requires Valid() && ValidPayload(payload) && |ids| == |payload.items| && FreshFor(Tables(), o, e, ids)
      modifies this
      ensures Valid() && CreateEnds(old(Tables()), tx, reply, Tables())
      ensures tx == Create(payload, user, key, o, e, old(clock), tx.picks) && PicksFor(tx.picks, ids)
      ensures reply.Created? <==> CanPlace(old(Tables()), payload, key)
      ensures RefusedRightly(old(Tables()), payload, key, reply) && Answered(old(Tables()), Tables(), tx, reply)
      ensures reply.Created? ==> forall i | 0 <= i < |payload.items| ::
        FromTheMostStocked(old(inventory), payload.items[i], tx.picks[i])
    {
      reply, tx := CreateOrRollBack(payload, user, key, o, e, ids);
      FreshTx(old(Tables()), tx, ids);
      RepliesEnd(old(Tables()), tx, reply, Tables());
      CreateSound(old(Tables()), tx, reply, Tables());
      CreateAnswers(old(Tables()), tx, reply, Tables());
      EndsPriced(old(Tables()), tx, AnswerOf(reply), Tables());
    }

    method CreateOrRollBack(payload: Payload, user: User, key: Option<string>, o: OrderId, e: EventId,
                            ids: seq<LineIds>)
      returns (reply: Reply, ghost tx: Tx)
      requires ValidPayload(payload) && |ids| == |payload.items| && FreshFor(Tables(), o, e, ids)
      modifies this
      ensures Replies(old(Tables()), tx, reply, Tables()) && (!reply.Created? ==> Tables() == old(Tables()))
      ensures tx == Create(payload, user, key, o, e, old(clock), tx.picks) && PicksFor(tx.picks, ids)
      ensures reply.Created? <==> CanPlace(old(Tables()), payload, key)
      ensures RefusedRightly(old(Tables()), payload, key, reply)
      ensures reply.Created? ==> forall i | 0 <= i < |payload.items| ::
        FromTheMostStocked(old(inventory), payload.items[i], tx.picks[i])
    {
      var saved := Tables();
      ghost var picks;
      reply, picks := Creating(payload, user, key, o, e, ids);
      tx := Create(payload, user, key, o, e, clock, picks);
      RepliesRefuse(old(Tables()), tx, reply, Tables());
      if reply.Denied? { Rollback(saved); }
    }

    // ---- create_adjustment and set_threshold ----

    function Available(p: ProductId, w: WarehouseId): nat
      reads this
    {
      if (p, w) in inventory then inventory[(p, w)].available else 0
    }

    /** Accepted exactly when the pair is known and stock does not go below zero; a row is made on first use. */
    method CreateAdjustment(p: ProductId, w: WarehouseId, delta: int, reason: string, alert: AlertId, e: EventId)
      returns (answer: Answer)
      requires Valid() && e !in events
      modifies this
      ensures Valid()
      ensures Ends(old(Tables()), AdjustCode(cfg, p, w, delta, reason, (p, w) !in old(inventory), alert, e), answer,
        Tables())
      ensures answer.Accepted? <==> p in cfg.prices && w in cfg.warehouses && old(Available(p, w)) + delta >= 0
      ensures answer.Accepted? ==> Available(p, w) == old(Available(p, w)) + delta
      ensures answer.Accepted? ==>
        audit == old(audit) + [AuditEntry(p, w, delta, if delta >= 0 then StockAdded else StockRemoved, Note(reason))]
      ensures answer.Accepted? ==> Adjusted(old(Tables()), Tables(), (p, w), delta, reason, alert, e)
      ensures !answer.Accepted? ==> Tables() == old(Tables()) && answer == Refused(
        if p !in cfg.prices then ProductNotFound
        else if w !in cfg.warehouses then WarehouseNotFound else InvalidRequest)
    {
      answer := Adjusting(p, w, delta, reason, alert, e);
      ghost var tx := Adjust(p, w, delta, reason, (p, w) !in old(inventory), alert, e);
      EndsSound(old(Tables()), tx, answer, Tables());
      EndsPriced(old(Tables()), tx, answer, Tables());
      AdjustmentEnds(old(Tables()), tx, answer, Tables());
    }

    method Adjusting(p: ProductId, w: WarehouseId, delta: int, reason: string, alert: AlertId, e: EventId)
      returns (answer: Answer)
      requires e !in events
      modifies this
      ensures Ends(old(Tables()), AdjustCode(cfg, p, w, delta, reason, (p, w) !in old(inventory), alert, e), answer,
        Tables())
      ensures answer.Accepted? <==> p in cfg.prices && w in cfg.warehouses && old(Available(p, w)) + delta >= 0
      ensures answer.Accepted? ==> Available(p, w) == old(Available(p, w)) + delta
      ensures !answer.Accepted? ==> answer == Refused(
        if p !in cfg.prices then ProductNotFound
        else if w !in cfg.warehouses then WarehouseNotFound else InvalidRequest)
    {
      if p !in cfg.prices { return Refused(ProductNotFound); }
      if w !in cfg.warehouses { return Refused(WarehouseNotFound); }
      ghost var t0 := Tables();
      var entry := AuditEntry(p, w, delta, if delta >= 0 then StockAdded else StockRemoved, Note(reason));
      ghost var log := Then(Audit(entry), Commit);
      if (p, w) !in inventory {
        if delta < 0 { return Refused(InvalidRequest); }
        inventory := inventory[(p, w) := Inventory(delta, 0, None, false)];
        RunDo(t0, OnStock(p, w, InsertStock(Inventory(delta, 0, None, false))), log, Stop(IntegrityError));
      } else {
        var ok := AdjustAvailable(p, w, delta);
        ghost var check := CheckLow(p, w, delta, alert, e, log);
        RunDo(t0, OnStock(p, w, StockOp.AdjustAvailable(delta)), check, Stop(InvalidRequest));
        if !ok { return Refused(InvalidRequest); }
        ghost var t1 := Tables();
        CheckLowStockTransition(p, w, delta, alert, e);
        assert Run(t1, check) == Run(Tables(), log);
      }
      ghost var t2 := Tables();
      RecordAudit(entry);
      RunDo(t2, Audit(entry), Commit, Stop(IntegrityError));
      answer := Accepted;
    }

    predicate Watches(p: ProductId, w: WarehouseId, threshold: int)
      reads this
    {
      && (p, w) in inventory && inventory[(p, w)].threshold == Some(threshold)
      && inventory[(p, w)].low == (inventory[(p, w)].available <= threshold)
    }

    /** Sets the threshold and the flag that goes with it; a row is made on first use. No alert, and no stock moves. */
    method SetThreshold(p: ProductId, w: WarehouseId, threshold: int) returns (answer: Answer)
      requires Valid()
      modifies this
      ensures Valid()
      ensures Ends(old(Tables()), ThresholdCode(cfg, p, w, threshold, (p, w) !in old(inventory)), answer, Tables())
      ensures answer.Accepted? <==> threshold >= 0 && p in cfg.prices && w in cfg.warehouses
      ensures answer.Accepted? ==> Watches(p, w, threshold) && Available(p, w) == old(Available(p, w))
      ensures answer.Accepted? ==> Tables() == old(Tables()).(inventory := old(inventory)[(p, w) :=
        if (p, w) !in old(inventory) then Inventory(0, 0, Some(threshold), true)
        else Inventory(old(inventory)[(p, w)].available, old(inventory)[(p, w)].reserved, Some(threshold),
                       old(inventory)[(p, w)].available <= threshold)])
      ensures !answer.Accepted? ==> Tables() == old(Tables()) && answer == Refused(
        if threshold < 0 then InvalidRequest else if p !in cfg.prices then ProductNotFound else WarehouseNotFound)
    {
      answer := ConfiguringThreshold(p, w, threshold);
      EndsSound(old(Tables()), Threshold(p, w, threshold, (p, w) !in old(inventory)), answer, Tables());
      PricesStay(old(Tables()), Tables());
    }

    method ConfiguringThreshold(p: ProductId, w: WarehouseId, threshold: int) returns (answer: Answer)
      modifies this
      ensures Ends(old(Tables()), ThresholdCode(cfg, p, w, threshold, (p, w) !in old(inventory)), answer, Tables())
      ensures answer.Accepted? <==> threshold >= 0 && p in cfg.prices && w in cfg.warehouses
      ensures answer.Accepted? ==> Watches(p, w, threshold) && Available(p, w) == old(Available(p, w))
      ensures answer.Accepted? ==> Tables() == old(Tables()).(inventory := old(inventory)[(p, w) :=
        if (p, w) !in old(inventory) then Inventory(0, 0, Some(threshold), true)
        else Inventory(old(inventory)[(p, w)].available, old(inventory)[(p, w)].reserved, Some(threshold),
                       old(inventory)[(p, w)].available <= threshold)])
      ensures !answer.Accepted? ==> Tables() == old(Tables()) && answer == Refused(
        if threshold < 0 then InvalidRequest else if p !in cfg.prices then ProductNotFound else WarehouseNotFound)
    {
      if threshold < 0 { return Refused(InvalidRequest); }
      if p !in cfg.prices { return Refused(ProductNotFound); }
      if w !in cfg.warehouses { return Refused(WarehouseNotFound); }
      ghost var t0 := Tables();
      RunDo(t0, OnStock(p, w, InsertStock(Inventory(0, 0, Some(threshold), true))), Commit, Stop(IntegrityError));
      RunDo(t0, OnStock(p, w, StockOp.SetThreshold(threshold)), Commit, Stop(NothingToDo));
      if (p, w) !in inventory {
        inventory := inventory[(p, w) := Inventory(0, 0, Some(threshold), true)];
      } else {
        var _ := SetThresholdRow(p, w, threshold);
      }
      answer := Accepted;
    }

    // ---- expire_reservations ----

    /** The claiming SELECT: rows that are ACTIVE and overdue, in any order; all of them, unless the
        limit is reached. */
    method SelectExpired(now: int, limit: nat) returns (claims: seq<Found>)
      requires SomethingEach(reservations)
      ensures Distinct(claims) && ActiveRows(claims) && |claims| <= limit && Overdue(Tables(), claims, now)
      ensures |claims| < limit ==> AllListed(claims, reservations, now)
      ensures claims == [] && limit > 0 ==> NoneOverdue(reservations, now)
    {
      claims := [];
      var ids := reservations.Keys;
      while ids != {} && |claims| < limit
        invariant ids <= reservations.Keys && |claims| <= limit
        invariant Distinct(claims) && ActiveRows(claims) && Overdue(Tables(), claims, now)
        invariant forall i | 0 <= i < |claims| :: claims[i].0 !in ids
        invariant AllListed(claims, reservations - ids, now)
        decreases |ids|
      {
        var id :| id in ids;
        ids := ids - {id};
        ListedToo(claims, reservations, ids, id, now);
        if IsOverdue(reservations[id], now) { claims := claims + [(id, reservations[id])]; }
      }
    }

    /** The claiming UPDATE, which does not look at the status again. */
    method ReleaseClaims(claims: seq<Found>)
      requires forall i | 0 <= i < |claims| :: claims[i].0 in reservations
      modifies this`reservations
      ensures reservations == ReleaseFound(old(reservations), claims)
    {
      for i := 0 to |claims|
        invariant reservations.Keys == old(reservations).Keys
        invariant reservations == ReleaseFound(old(reservations), claims[..i])
      {
        ListedOneMore(claims, i);
        reservations := reservations[claims[i].0 := reservations[claims[i].0].(status := Released)];
      }
      assert claims[..|claims|] == claims;
    }

    method GiveBackClaim(r: Reservation)
      modifies this`inventory, this`audit, this`orders
      ensures forall k :: Run(old(Tables()), GiveBack(r, k)) == Run(Tables(), k)
    {
      ghost var t0 := Tables();
      ghost var log := Audit(Entry(r.product, r.warehouse, r.quantity, ReservationReleased, r.order));
      var _ := Release(r.product, r.warehouse, r.quantity);
      ghost var t1 := Tables();
      RecordAudit(Entry(r.product, r.warehouse, r.quantity, ReservationReleased, r.order));
      ghost var t2 := Tables();
      var order := GetOrderForUpdate(r.order);
      if order.Some? && order.value.status.Reserved? { UpdateStatus(r.order, Expired); }
      forall k
        ensures Run(t0, GiveBack(r, k)) == Run(Tables(), k)
      {
        RunIgnoring(t0, OnStock(r.product, r.warehouse, StockOp.Release(r.quantity)),
          Then(log, ExpireOrder(r.order, k)));
        RunDo(t1, log, ExpireOrder(r.order, k), Stop(IntegrityError));
        ExpireOrderRun(t2, r.order, k);
      }
    }

    method GiveBackClaims(claims: seq<Found>)
      modifies this`inventory, this`audit, this`orders
      ensures Run(old(Tables()), GiveBackAll(claims, Commit)) == Committed(Tables())
      ensures claims == [] ==> Tables() == old(Tables())
    {
      for i := 0 to |claims|
        invariant Run(old(Tables()), GiveBackAll(claims, Commit)) == Run(Tables(), GiveBackAll(claims[i..], Commit))
        invariant claims == [] ==> Tables() == old(Tables())
      {
        assert claims[i..][1..] == claims[i + 1..];
        ghost var t, rest := Tables(), GiveBackAll(claims[i + 1..], Commit);
        GiveBackClaim(claims[i].1);
        assert Run(t, GiveBack(claims[i].1, rest)) == Run(Tables(), rest);
      }
      assert claims[|claims|..] == [];
    }

    /** One batch, from claim to commit. */
    method ExpireBatch(now: int) returns (claims: seq<Found>)
      requires SomethingEach(reservations) && now <= clock
      modifies this`inventory, this`reservations, this`audit, this`orders
      ensures Legal(Expire(now, claims)) && |claims| <= 100
      ensures |claims| < 100 ==> AllListed(claims, old(reservations), now)
      ensures claims == [] ==> Tables() == old(Tables()) && NoneOverdue(reservations, now)
      ensures claims != [] ==> Run(old(Tables()), ExpireCode(now, claims)) == Committed(Tables())
    {
      ghost var t0 := Tables();
      claims := SelectExpired(now, EXPIRY_BATCH);
      ReleaseClaims(claims);
      GiveBackClaims(claims);
      ClaimedBatch(t0, now, claims);
    }

    /** Time passes. */
    method Tick()
      modifies this`clock
      ensures old(clock) <= clock
    {
      var passed: int := *;
      if passed > 0 { clock := clock + passed; }
    }

    /** One turn of the loop of expire_reservations: how many rows it claimed. */
    method SweepOnce() returns (n: nat)
      requires Valid()
      modifies this`inventory, this`reservations, this`audit, this`orders, this`clock
      ensures Valid() && old(clock) <= clock && SweptTo(old(reservations), reservations, clock)
      ensures ActiveCount(reservations) + n == ActiveCount(old(reservations))
      ensures n == 0 ==> Tables() == old(Tables()).(clock := clock) && NoneOverdue(reservations, clock)
      ensures n > 0 ==> !NoneOverdue(old(reservations), clock)
      ensures OrdersSwept(old(Tables()), Tables()) && OnlyGaveBack(old(Tables()), Tables())
    {
      Tick();
      ghost var t0 := Tables();
      TickSound(old(Tables()), t0);
      var claims := ExpireBatch(clock);
      SweepSound(t0, clock, claims, Tables());
      SweptPrices(old(Tables()), Tables());
      n := |claims|;
    }

    /** Ends, because every turn but the last takes ACTIVE rows away; returns how many it released. Then nothing
        ACTIVE is overdue at the time last sampled, no EXPIRED order holds stock, only overdue rows were touched,
        and a second run at the same time does nothing. */
    method ExpireReservations() returns (total: nat)
      requires Valid()
      modifies this`inventory, this`reservations, this`audit, this`orders, this`clock
      ensures Valid() && old(clock) <= clock && SweptTo(old(reservations), reservations, clock)
      ensures ActiveCount(reservations) + total == ActiveCount(old(reservations))
      ensures NoneOverdue(reservations, clock)
      ensures forall id | id in reservations && reservations[id].status.Active? ::
        reservations[id].order in orders && !orders[reservations[id].order].status.Expired?
      ensures NoneOverdue(old(reservations), clock) ==> total == 0 && Tables() == old(Tables()).(clock := clock)
      ensures OrdersSwept(old(Tables()), Tables()) && OnlyGaveBack(old(Tables()), Tables())
    {
      total := 0;
      SweepingStarts(Tables());
      while true
        invariant Valid() && Sweeping(old(Tables()), Tables(), total)
        decreases ActiveCount(reservations)
      {
        ghost var t := Tables();
        var n := SweepOnce();
        SweepingOn(old(Tables()), t, total, n, Tables());
        if n == 0 { break; }
        total := total + n;
      }
      ExpiredHoldNothing(Tables());
    }

    // ---- relay_once ----

    method ClaimPendingBatch(limit: nat) returns (batch: seq<EventId>)
      ensures SetOf(batch) <= PendingIds(events) && |SetOf(batch)| == |batch| <= limit
      ensures |batch| < limit ==> PendingIds(events) <= SetOf(batch)
    {
      batch := [];
      var ids := events.Keys;
      while ids != {} && |batch| < limit
        invariant ids <= events.Keys && SetOf(batch) <= PendingIds(events)
        invariant SetOf(batch) !! ids && |SetOf(batch)| == |batch| <= limit
        invariant PendingIds(events) <= SetOf(batch) + ids
        decreases |ids|
      {
        var e :| e in ids;
        ids := ids - {e};
        if !events[e].published {
          assert SetOf(batch + [e]) == SetOf(batch) + {e};
          batch := batch + [e];
        }
      }
    }

    /** Hands an event to the handler of its type; both types that are ever written have one. */
    method Enqueue(e: EventId)
      requires e in events
      modifies this`broker
      ensures broker == old(broker) + {e}
    {
      match events[e].body
      case OrderReserved(_) => broker := broker + {e};
      case LowStockAlertCreated(_) => broker := broker + {e};
    }

    method MarkPublished(e: EventId)
      requires e in events
      modifies this`events
      ensures events == old(events)[e := old(events)[e].(published := true)]
      ensures Did(old(Tables()), OnEvent(e, EventOp.MarkPublished), true, Tables())
    {
      events := events[e := events[e].(published := true)];
    }

    /** One poll. `fails` is the position at which the broker raises, if it does: then the rows are PENDING again,
        whatever was handed over before. Else min(50, backlog) events are published. */
    method RelayOnce(fails: Option<nat>) returns (published: Option<nat>, ghost sent: set<EventId>)
      requires Valid()
      modifies this`events, this`broker
      ensures Valid() && sent <= PendingIds(old(events)) && broker == old(broker) + sent
      ensures published.None? <==> fails.Some? && fails.value < Min(50, |PendingIds(old(events))|)
      ensures published.None? ==> events == old(events) && |sent| == fails.value
      ensures published.Some? ==> Drains(old(events), events, published.value)
      ensures published.Some? ==> |sent| == published.value && Published(old(events), events, sent)
    {
      ghost var batch;
      published, batch, sent := Relaying(fails);
      RelaySound(old(Tables()), batch, Tables());
      PricesStay(old(Tables()), Tables());
    }

    method Relaying(fails: Option<nat>)
      returns (published: Option<nat>, ghost batch: seq<EventId>, ghost sent: set<EventId>)
      modifies this`events, this`broker
      ensures AllPending(old(Tables()), batch) && |batch| <= RELAY_BATCH
      ensures sent <= PendingIds(old(events)) && broker == old(broker) + sent
      ensures events == PublishFound(old(events), batch) && forall e | e in batch :: e in broker
      ensures published.None? <==> fails.Some? && fails.value < Min(50, |PendingIds(old(events))|)
      ensures published.None? ==> events == old(events) && |sent| == fails.value
      ensures published.Some? ==> Drains(old(events), events, published.value)
      ensures published.Some? ==> |sent| == published.value && Published(old(events), events, sent)
    {
      var saved := events;
      var claimed := ClaimPendingBatch(RELAY_BATCH);
      BatchDrains(saved, claimed);
      var done := PublishInTurn(claimed, fails);
      PartOfBatch(claimed, done);
      sent := SetOf(claimed[..done]);
      if done < |claimed| {
        events := saved;
        assert PublishFound(saved, []) == saved;
        return None, [], sent;
      }
      assert claimed[..|claimed|] == claimed;
      published, batch := Some(|claimed|), claimed;
    }

    /** The loop over the claimed rows, up to the position at which the broker raises. */
    method PublishInTurn(claimed: seq<EventId>, fails: Option<nat>) returns (done: nat)
      requires forall e | e in claimed :: e in events
      modifies this`events, this`broker
      ensures done == if fails.Some? && fails.value < |claimed| then fails.value else |claimed|
      ensures broker == old(broker) + SetOf(claimed[..done])
      ensures events == PublishFound(old(events), claimed[..done])
    {
      for i := 0 to |claimed|
        invariant fails.Some? ==> fails.value >= i
        invariant broker == old(broker) + SetOf(claimed[..i])
        invariant events == PublishFound(old(events), claimed[..i])
      {
        if fails == Some(i) { return i; }
        assert claimed[i] in claimed;
        OneMorePublished(old(events), claimed, i);
        Enqueue(claimed[i]);
        MarkPublished(claimed[i]);
      }
      done := |claimed|;
    }
  }
}

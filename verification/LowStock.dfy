/** The low-stock flag and its alerts: what every committed step does to them, when they follow the
    stateless rule "available is at or below the threshold", and how expiry breaks it. */
module LowStock {
  import opened Schema
  import opened Statements
  import opened Transactions
  import D = Discipline
  import opened Effects
  import opened Creation

  type StockTable = map<Stock, Inventory>

  // ---- alerts ----

  function PairOf(a: Alert): Stock { (a.product, a.warehouse) }

  function AlertCount(alerts: seq<Alert>, k: Stock): nat {
    if alerts == [] then 0 else
    AlertCount(alerts[..|alerts| - 1], k) + (if PairOf(alerts[|alerts| - 1]) == k then 1 else 0)
  }

  /** The flag of `k` went up. */
  predicate Raised(a: StockTable, b: StockTable, k: Stock) { k in a && k in b && !a[k].low && b[k].low }

  /** `alert` says of its pair what its row says. */
  predicate Reports(alert: Alert, table: StockTable) {
    PairOf(alert) in table && alert.quantity == table[PairOf(alert)].available
    && table[PairOf(alert)].threshold == Some(alert.threshold)
  }

  /** One new alert for each flag that went up, with the quantity and the threshold it went up at, and no other. */
  ghost predicate AlertsMatch(a: StockTable, old': seq<Alert>, b: StockTable, new': seq<Alert>) {
    && old' <= new'
    && (forall k :: AlertCount(new', k) == AlertCount(old', k) + (if Raised(a, b, k) then 1 else 0))
    && (forall i | |old'| <= i < |new'| :: Reports(new'[i], b) && Raised(a, b, PairOf(new'[i])))
  }

  lemma CountAppend(alerts: seq<Alert>, x: Alert, k: Stock)
    ensures AlertCount(alerts + [x], k) == AlertCount(alerts, k) + (if PairOf(x) == k then 1 else 0)
  {
    assert (alerts + [x])[..|alerts|] == alerts;
  }

  /** Flags do not go down, and rows that are there stay. */
  predicate Rising(a: StockTable, b: StockTable) {
    b.Keys == a.Keys && forall k | k in a :: a[k].low ==> b[k].low
  }

  lemma MatchTwice(a: StockTable, x: seq<Alert>, b: StockTable, y: seq<Alert>, c: StockTable, z: seq<Alert>)
    requires AlertsMatch(a, x, b, y) && AlertsMatch(b, y, c, z) && Rising(a, b) && Rising(b, c)
    requires forall k | Raised(a, b, k) :: c[k] == b[k]
    ensures AlertsMatch(a, x, c, z) && Rising(a, c)
  {
    forall i | |x| <= i < |z|
      ensures Reports(z[i], c) && Raised(a, c, PairOf(z[i]))
    {
      if i < |y| { assert z[i] == y[i] && Reports(y[i], b) && Raised(a, b, PairOf(y[i])); }
    }
  }

  /** One decrease: the alert goes with the flag. */
  lemma TookAlerts(db: State, p: ProductId, w: WarehouseId, q: nat, pick: Pick, o: OrderId)
    requires HasEnough(db.inventory, p, w, q)
    ensures var db' := Took(db, p, w, q, pick, o);
      AlertsMatch(db.inventory, db.alerts, db'.inventory, db'.alerts) && Rising(db.inventory, db'.inventory)
  {
    var db' := Took(db, p, w, q, pick, o);
    TookStock(db, p, w, q, pick, o);
    if Crosses(db.inventory[(p, w)], q) {
      OneRaised(db.inventory, db.alerts, db'.inventory, AlertFor(pick.alert, p, w, db'.inventory[(p, w)]));
    }
  }

  lemma {:induction false} TookAllAlerts(db: State, lines: seq<Line>, picks: seq<Pick>, o: OrderId)
    requires |lines| == |picks| && ProperLines(lines) && AllFit(db.inventory, lines, picks)
    ensures var db' := TookAll(db, lines, picks, o);
      AlertsMatch(db.inventory, db.alerts, db'.inventory, db'.alerts) && Rising(db.inventory, db'.inventory)
    decreases |lines|
  {
    if lines != [] {
      assert LineFits(db.inventory, lines[0], picks[0]);
      var p, w, q := lines[0].product, picks[0].warehouse.value, lines[0].quantity;
      var db1, db' := Took(db, p, w, q, picks[0], o), TookAll(db, lines, picks, o);
      FirstTaken(db, lines, picks, o);
      TookAllAlerts(db1, lines[1..], picks[1..], o);
      FirstStays(db, lines, picks, o);
      TookAlerts(db, p, w, q, picks[0], o);
      MatchTwice(db.inventory, db.alerts, db1.inventory, db1.alerts, db'.inventory, db'.alerts);
    }
  }

  /** The later lines are for other products. */
  lemma FirstStays(db: State, lines: seq<Line>, picks: seq<Pick>, o: OrderId)
    requires lines != [] && |lines| == |picks| && ProperLines(lines) && AllFit(db.inventory, lines, picks)
    requires LineFits(db.inventory, lines[0], picks[0])
    ensures var a, b := Took(db, lines[0].product, picks[0].warehouse.value, lines[0].quantity, picks[0], o).inventory,
                        TookAll(db, lines, picks, o).inventory;
      forall k | Raised(db.inventory, a, k) :: k in b && b[k] == a[k]
  {
    var db1 := Took(db, lines[0].product, picks[0].warehouse.value, lines[0].quantity, picks[0], o);
    FirstTaken(db, lines, picks, o);
    TookStock(db, lines[0].product, picks[0].warehouse.value, lines[0].quantity, picks[0], o);
    TookAllStock(db1, lines[1..], picks[1..], o);
    assert forall i | 0 <= i < |lines[1..]| :: lines[1..][i] == lines[i + 1];
  }

  // ---- each transaction ----

  /** Thresholds stay as they are. */
  predicate Steady(a: StockTable, b: StockTable) { forall k | k in a :: k in b && b[k].threshold == a[k].threshold }

  /** A raised flag is due: the stock is at or below the threshold. */
  predicate Fresh(row: Inventory) { row.low ==> AtOrBelow(row) }

  predicate NoneStale(t: StockTable) { forall k | k in t :: Fresh(t[k]) }

  /** No row's flag goes stale. */
  predicate StaysFresh(a: StockTable, b: StockTable) {
    forall k | k in b && (k in a ==> Fresh(a[k])) :: Fresh(b[k])
  }

  ghost predicate Moved(db: State, db': State) {
    && Steady(db.inventory, db'.inventory)
    && AlertsMatch(db.inventory, db.alerts, db'.inventory, db'.alerts)
    && StaysFresh(db.inventory, db'.inventory)
  }

  lemma TakenMoved(a: StockTable, b: StockTable, lines: seq<Line>, picks: seq<Pick>)
    requires |lines| == |picks| && AllFit(a, lines, picks) && StockTaken(a, b, lines, picks)
    ensures Steady(a, b) && StaysFresh(a, b)
  {
    forall k | k in a
      ensures b[k].threshold == a[k].threshold && ((a[k].low ==> AtOrBelow(a[k])) ==> (b[k].low ==> AtOrBelow(b[k])))
    {
      if i :| 0 <= i < |lines| && k == (lines[i].product, Chosen(picks[i])) {
        assert LineFits(a, lines[i], picks[i]);
      }
    }
  }

  lemma InsertKeepsStock(db: State, tx: Tx)
    requires tx.Create? && Legal(tx) && AllKnown(db.cfg, tx.payload.items) && Run(db, InsertOf(db.cfg, tx)).Committed?
    ensures var db' := Run(db, InsertOf(db.cfg, tx)).db; db'.inventory == db.inventory && db'.alerts == db.alerts
  {
    var row, rows, e := OrderOf(db.cfg, tx), RowsOf(db.cfg, tx), tx.event;
    var insert, announce := InsertOrder(tx.order, row), OnEvent(e, InsertEvent(OrderReserved(tx.order)));
    var last := LastStep(tx.key, tx.order, row);
    RunDo(db, insert, InsertAll(rows, Then(announce, last)), Stop(IntegrityError));
    var db1 := InsertAllRun(Exec(db, insert), rows, Then(announce, last));
    RunDo(db1, announce, last, Stop(IntegrityError));
    LastKeepsStock(Exec(db1, announce), tx.key, tx.order, row);
  }

  lemma LastKeepsStock(db: State, key: Option<string>, o: OrderId, row: Order)
    requires Run(db, LastStep(key, o, row)).Committed?
    ensures var db' := Run(db, LastStep(key, o, row)).db; db'.inventory == db.inventory && db'.alerts == db.alerts
  {
    if Claims(key) { RunDo(db, OnKey(key.value, CompleteKey(o, Serialize(o, row))), Commit, Stop(IntegrityError)); }
  }

  lemma CreateMoved(db: State, tx: Tx)
    requires tx.Create? && Legal(tx) && Run(db, Code(db.cfg, tx)).Committed?
    ensures Moved(db, Run(db, Code(db.cfg, tx)).db)
  {
    var body := CreateBody(db.cfg, tx.payload, tx.user, tx.key, tx.order, tx.event, tx.now, tx.picks);
    if Claims(tx.key) { ClaimRun(db, tx, body); }
    BodyMoved(Claimed(db, tx), tx);
  }

  /** A create_order that commits took all its lines, then put in its rows. */
  lemma BodyTakes(db: State, tx: Tx)
    requires tx.Create? && Legal(tx) && Run(db, BodyOf(db.cfg, tx)).Committed?
    ensures AllKnown(db.cfg, tx.payload.items) && AllFit(db.inventory, tx.payload.items, tx.picks)
    ensures Run(db, BodyOf(db.cfg, tx)) == Run(TookAll(db, tx.payload.items, tx.picks, tx.order), InsertOf(db.cfg, tx))
  {
    BodyShape(db.cfg, tx);
    LinesExact(db, tx, InsertOf(db.cfg, tx));
  }

  lemma BodyMoved(db: State, tx: Tx)
    requires tx.Create? && Legal(tx) && Run(db, BodyOf(db.cfg, tx)).Committed?
    ensures Moved(db, Run(db, BodyOf(db.cfg, tx)).db)
  {
    BodyTakes(db, tx);
    var taken := TookAll(db, tx.payload.items, tx.picks, tx.order);
    TookAllAlerts(db, tx.payload.items, tx.picks, tx.order);
    TookAllStock(db, tx.payload.items, tx.picks, tx.order);
    TakenMoved(db.inventory, taken.inventory, tx.payload.items, tx.picks);
    InsertKeepsStock(taken, tx);
  }

  lemma AdjustMoved(db: State, tx: Tx)
    requires tx.Adjust? && Run(db, Code(db.cfg, tx)).Committed?
    ensures Moved(db, Run(db, Code(db.cfg, tx)).db)
  {
    var p, w, delta := tx.p, tx.w, tx.delta;
    var log := Audit(AuditEntry(p, w, delta, if delta >= 0 then StockAdded else StockRemoved, Note(tx.reason)));
    if tx.first {
      var insert := OnStock(p, w, InsertStock(Inventory(delta, 0, None, false)));
      RunDo(db, insert, Then(log, Commit), Stop(IntegrityError));
      RunDo(Exec(db, insert), log, Commit, Stop(IntegrityError));
    } else {
      var adjust := OnStock(p, w, AdjustAvailable(delta));
      RunDo(db, adjust, CheckLow(p, w, delta, tx.alert, tx.event, Then(log, Commit)), Stop(InvalidRequest));
      var db2 := CheckMoved(db, p, w, delta, tx.alert, tx.event, Then(log, Commit));
      RunDo(db2, log, Commit, Stop(IntegrityError));
    }
  }

  /** An adjustment with its low-stock check, before it is logged. */
  lemma CheckMoved(db: State, p: ProductId, w: WarehouseId, delta: int, alert: AlertId, e: EventId, k: Prog)
    returns (db': State)
    requires Ok(db, OnStock(p, w, AdjustAvailable(delta)))
    requires Run(Exec(db, OnStock(p, w, AdjustAvailable(delta))), CheckLow(p, w, delta, alert, e, k)).Committed?
    ensures Run(Exec(db, OnStock(p, w, AdjustAvailable(delta))), CheckLow(p, w, delta, alert, e, k)) == Run(db', k)
    ensures Moved(db, db')
  {
    var db1 := Exec(db, OnStock(p, w, AdjustAvailable(delta)));
    db' := db1;
    if delta < 0 {
      FlagExact(db1, p, w, delta, alert, e, k);
      db' := Flagged(db1, p, w, alert, e);
      FallMoved(db, db1, p, w, delta, alert, e);
    } else if delta > 0 {
      RunIgnoring(db1, OnStock(p, w, ResetLowStock), k);
      if Ok(db1, OnStock(p, w, ResetLowStock)) { db' := Exec(db1, OnStock(p, w, ResetLowStock)); }
    }
  }

  lemma FallMoved(db: State, db1: State, p: ProductId, w: WarehouseId, delta: int, alert: AlertId, e: EventId)
    requires delta < 0 && (p, w) in db.inventory && db.inventory[(p, w)].available + delta >= 0
    requires db1.alerts == db.alerts
    requires var row := db.inventory[(p, w)];
      db1.inventory == db.inventory[(p, w) := row.(available := row.available + delta)]
    ensures Moved(db, Flagged(db1, p, w, alert, e))
  {
    var db', row := Flagged(db1, p, w, alert, e), db1.inventory[(p, w)];
    if !row.low && AtOrBelow(row) {
      OneRaised(db.inventory, db.alerts, db'.inventory, AlertFor(alert, p, w, row));
    }
  }

  lemma OneRaised(a: StockTable, alerts: seq<Alert>, b: StockTable, x: Alert)
    requires PairOf(x) in b && b == a[PairOf(x) := b[PairOf(x)]] && Reports(x, b) && Raised(a, b, PairOf(x))
    ensures AlertsMatch(a, alerts, b, alerts + [x])
  {
    forall k
      ensures AlertCount(alerts + [x], k) == AlertCount(alerts, k) + (if Raised(a, b, k) then 1 else 0)
    {
      CountAppend(alerts, x, k);
    }
  }

  // ---- give-backs ----

  /** Stock only comes back, and no flag goes up. */
  predicate Restocked(a: StockTable, b: StockTable) {
    b.Keys == a.Keys && forall k | k in a ::
      b[k].threshold == a[k].threshold && a[k].available <= b[k].available && (b[k].low ==> a[k].low)
  }

  lemma ReleaseStock(db: State, id: ReservationId, r: Reservation, o: OrderId, k: Prog) returns (db': State)
    ensures Run(db, ReleaseReservation(id, r, o, k)) == Run(db', k)
    ensures Restocked(db.inventory, db'.inventory) && StaysFresh(db.inventory, db'.inventory)
  {
    var mark, give := OnReservation(id, MarkReleased(r)), OnStock(r.product, r.warehouse, Release(r.quantity));
    var log := Audit(Entry(r.product, r.warehouse, r.quantity, ReservationReleased, o));
    var tail := CheckLow(r.product, r.warehouse, r.quantity, 0, 0, k);
    RunDo(db, mark, Ignoring(give, Then(log, tail)), k);
    db' := db;
    if Ok(db', mark) {
      db' := Exec(db', mark);
      RunIgnoring(db', give, Then(log, tail));
      var given := Ok(db', give);
      if given { db' := Exec(db', give); }
      RunDo(db', log, tail, Stop(IntegrityError));
      db' := ResetStock(db.inventory, Exec(db', log), r, k);
    }
  }

  function GivenBack(row: Inventory, q: nat): Inventory
    requires q <= row.reserved
  {
    row.(available := row.available + q, reserved := row.reserved - q)
  }

  /** The low-stock check after a give-back. */
  lemma ResetStock(a: StockTable, db: State, r: Reservation, k: Prog) returns (db': State)
    requires var x := (r.product, r.warehouse);
      || db.inventory == a
      || (x in a && a[x].reserved >= r.quantity && db.inventory == a[x := GivenBack(a[x], r.quantity)])
    ensures Run(db, CheckLow(r.product, r.warehouse, r.quantity, 0, 0, k)) == Run(db', k)
    ensures Restocked(a, db'.inventory) && StaysFresh(a, db'.inventory)
  {
    db' := db;
    if r.quantity > 0 {
      var reset := OnStock(r.product, r.warehouse, ResetLowStock);
      RunIgnoring(db, reset, k);
      if Ok(db, reset) { db' := Exec(db, reset); }
    }
  }

  lemma ConsumeStock(db: State, id: ReservationId, r: Reservation, o: OrderId, k: Prog) returns (db': State)
    ensures Run(db, ConsumeReservation(id, r, o, k)) == Run(db', k)
    ensures Restocked(db.inventory, db'.inventory) && StaysFresh(db.inventory, db'.inventory)
  {
    var mark, give := OnReservation(id, MarkConsumed(r)), OnStock(r.product, r.warehouse, Consume(r.quantity));
    var log := Audit(Entry(r.product, r.warehouse, -(r.quantity as int), OrderCompleted, o));
    RunDo(db, mark, Ignoring(give, Then(log, k)), k);
    db' := db;
    if Ok(db', mark) {
      db' := Exec(db', mark);
      db' := UseUp(db', r.product, r.warehouse, r.quantity, Then(log, k));
      RunDo(db', log, k, Stop(IntegrityError));
      db' := Exec(db', log);
    }
  }

  lemma UseUp(db: State, p: ProductId, w: WarehouseId, q: nat, k: Prog) returns (db': State)
    ensures Run(db, Ignoring(OnStock(p, w, Consume(q)), k)) == Run(db', k)
    ensures Restocked(db.inventory, db'.inventory) && StaysFresh(db.inventory, db'.inventory)
  {
    RunIgnoring(db, OnStock(p, w, Consume(q)), k);
    db' := if Ok(db, OnStock(p, w, Consume(q))) then Exec(db, OnStock(p, w, Consume(q))) else db;
  }

  lemma {:induction false} SettleStock(db: State, found: seq<Found>, o: OrderId, how: ReservationStatus, k: Prog)
    returns (db': State)
    ensures Run(db, Settle(found, o, how, k)) == Run(db', k)
    ensures Restocked(db.inventory, db'.inventory) && StaysFresh(db.inventory, db'.inventory)
    decreases |found|
  {
    if found == [] {
      db' := db;
    } else {
      var rest, db1 := Settle(found[1..], o, how, k), db;
      if how.Consumed? {
        db1 := ConsumeStock(db, found[0].0, found[0].1, o, rest);
      } else {
        db1 := ReleaseStock(db, found[0].0, found[0].1, o, rest);
      }
      db' := SettleStock(db1, found[1..], o, how, k);
    }
  }

  /** Cancelling restocks; it raises no flag. */
  lemma CancelStock(db: State, o: OrderId, user: User, found: seq<Found>)
    requires Run(db, CancelCode(o, user, found)).Committed?
    ensures var db' := Run(db, CancelCode(o, user, found)).db;
      Restocked(db.inventory, db'.inventory) && StaysFresh(db.inventory, db'.inventory)
  {
    var lock, see, may := OnOrder(o, LockOrder), OnOrder(o, IsVisible(user)), OnOrder(o, IsCancellable);
    var close := Then(OnOrder(o, SetStatus(Cancelled)), Commit);
    var settle := Do(SelectActive(o, found), Settle(found, o, Released, close), Stop(OtherRead));
    var allowed := Do(may, settle, Stop(CannotCancel));
    RunDo(db, lock, Do(see, allowed, Stop(Forbidden)), Stop(OrderNotFound));
    RunDo(db, see, allowed, Stop(Forbidden));
    RunDo(db, may, settle, Stop(CannotCancel));
    RunDo(db, SelectActive(o, found), Settle(found, o, Released, close), Stop(OtherRead));
    var db1 := SettleStock(db, found, o, Released, close);
    RunDo(db1, OnOrder(o, SetStatus(Cancelled)), Commit, Stop(IntegrityError));
  }

  /** Completing, failing and retrying restock at most; they raise no flag. */
  lemma FinishStock(db: State, o: OrderId, attempt: nat, token: string, found: seq<Found>)
    requires Run(db, FinishCode(db.cfg, o, attempt, token, found)).Committed?
    ensures var db' := Run(db, FinishCode(db.cfg, o, attempt, token, found)).db;
      Restocked(db.inventory, db'.inventory) && StaysFresh(db.inventory, db'.inventory)
  {
    var resume, lock := OnWorker(o, Resume(Charging(attempt, token))), OnOrder(o, LockOrder);
    var body := Outcome(db.cfg, o, attempt, token, found);
    RunDo(db, resume, Do(lock, body, Stop(OrderNotFound)), Stop(NothingToDo));
    RunDo(db, lock, body, Stop(OrderNotFound));
    OutcomeStock(db, o, attempt, token, found);
  }

  lemma OutcomeStock(db: State, o: OrderId, attempt: nat, token: string, found: seq<Found>)
    requires Run(db, Outcome(db.cfg, o, attempt, token, found)).Committed?
    ensures var db' := Run(db, Outcome(db.cfg, o, attempt, token, found)).db;
      Restocked(db.inventory, db'.inventory) && StaysFresh(db.inventory, db'.inventory)
  {
    var s := SettlementOf(db.cfg, attempt, token);
    if s.reservations.Some? {
      var close := Then(OnOrder(o, SetStatus(s.status)), Then(OnWorker(o, Remember(s.worker)), Commit));
      RunDo(db, SelectActive(o, found), Settle(found, o, s.reservations.value, close), Stop(OtherRead));
      var db1 := SettleStock(db, found, o, s.reservations.value, close);
      CloseStock(db1, o, s.status, s.worker);
    } else {
      CloseStock(db, o, Reserved, Idle);
    }
  }

  lemma CloseStock(db: State, o: OrderId, status: OrderStatus, worker: Worker)
    requires Run(db, Then(OnOrder(o, SetStatus(status)), Then(OnWorker(o, Remember(worker)), Commit))).Committed?
    ensures Run(db, Then(OnOrder(o, SetStatus(status)), Then(OnWorker(o, Remember(worker)), Commit))).db.inventory ==
      db.inventory
  {
    var close := OnOrder(o, SetStatus(status));
    RunDo(db, close, Then(OnWorker(o, Remember(worker)), Commit), Stop(IntegrityError));
    RunDo(Exec(db, close), OnWorker(o, Remember(worker)), Commit, Stop(IntegrityError));
  }

  lemma RestockedMoved(db: State, db': State)
    requires Restocked(db.inventory, db'.inventory) && db'.alerts == db.alerts
    requires StaysFresh(db.inventory, db'.inventory)
    ensures Moved(db, db')
  {
  }
}

/** create_order in isolation, exactly: when it succeeds, and what every table then holds. */
module Creation {
  import opened Schema
  import opened Statements
  import opened Transactions
  import opened Effects

  // ---- one line ----

  /** Taking `q` units makes the row low. */
  predicate Crosses(row: Inventory, q: nat) {
    q <= row.available && !row.low && AtOrBelow(row.(available := row.available - q))
  }

  function TakenRow(row: Inventory, q: nat): Inventory
    requires q <= row.available
  {
    Inventory(row.available - q, row.reserved + q, row.threshold, row.low || Crosses(row, q))
  }

  predicate HasEnough(inventory: map<Stock, Inventory>, p: ProductId, w: WarehouseId, q: nat) {
    (p, w) in inventory && inventory[(p, w)].available >= q
  }

  /** The low-stock check after a decrease: the flag goes up and says so, unless it is up already. */
  function Flagged(db: State, p: ProductId, w: WarehouseId, alert: AlertId, e: EventId): State
    requires (p, w) in db.inventory
  {
    var row := db.inventory[(p, w)];
    if row.low || !AtOrBelow(row) then db else
    var a := AlertFor(alert, p, w, row);
    db.(inventory := db.inventory[(p, w) := row.(low := true)], alerts := db.alerts + [a],
        events := db.events[e := Event(LowStockAlertCreated(a), false)])
  }

  lemma FlagExact(db: State, p: ProductId, w: WarehouseId, delta: int, alert: AlertId, e: EventId, k: Prog)
    requires delta < 0 && (p, w) in db.inventory
    requires e !in db.events || Run(db, CheckLow(p, w, delta, alert, e, k)).Committed?
    ensures Run(db, CheckLow(p, w, delta, alert, e, k)) == Run(Flagged(db, p, w, alert, e), k)
  {
    var flip, raise := OnStock(p, w, FlipLowStock), RaiseAlert(p, w, alert, e);
    RunDo(db, flip, Then(raise, k), k);
    if Ok(db, flip) { RunDo(Exec(db, flip), raise, k, Stop(IntegrityError)); }
  }

  /** The tables after `reserve` took `q` units. */
  function Took(db: State, p: ProductId, w: WarehouseId, q: nat, pick: Pick, o: OrderId): State
    requires HasEnough(db.inventory, p, w, q)
  {
    var row := db.inventory[(p, w)];
    Flagged(db.(inventory := db.inventory[(p, w) := row.(available := row.available - q, reserved := row.reserved + q)],
                audit := db.audit + [Entry(p, w, -(q as int), InventoryReserved, o)]),
            p, w, pick.alert, pick.event)
  }

  lemma ReserveExact(db: State, p: ProductId, w: WarehouseId, q: nat, pick: Pick, o: OrderId, k: Prog)
    requires q > 0 && (pick.event !in db.events || Run(db, Reserve(p, w, q, pick, o, k)).Committed?)
    ensures Run(db, Reserve(p, w, q, pick, o, k)) ==
      if HasEnough(db.inventory, p, w, q) then Run(Took(db, p, w, q, pick, o), k) else Stopped(InsufficientInventory)
  {
    ReserveBegins(db, p, w, q, pick, o, k);
    if HasEnough(db.inventory, p, w, q) {
      LoggedThenFlagged(Exec(db, OnStock(p, w, TryReserve(q))), p, w, q, pick, o, k);
    }
  }

  lemma ReserveBegins(db: State, p: ProductId, w: WarehouseId, q: nat, pick: Pick, o: OrderId, k: Prog)
    ensures Ok(db, OnStock(p, w, TryReserve(q))) <==> HasEnough(db.inventory, p, w, q)
    ensures Run(db, Reserve(p, w, q, pick, o, k)) ==
      if !HasEnough(db.inventory, p, w, q) then Stopped(InsufficientInventory)
      else Run(Exec(db, OnStock(p, w, TryReserve(q))),
               Then(Audit(Entry(p, w, -(q as int), InventoryReserved, o)),
                    CheckLow(p, w, -(q as int), pick.alert, pick.event, k)))
  {
    var take, log := OnStock(p, w, TryReserve(q)), Audit(Entry(p, w, -(q as int), InventoryReserved, o));
    RunDo(db, take, Then(log, CheckLow(p, w, -(q as int), pick.alert, pick.event, k)), Stop(InsufficientInventory));
  }

  lemma LoggedThenFlagged(db: State, p: ProductId, w: WarehouseId, q: nat, pick: Pick, o: OrderId, k: Prog)
    requires q > 0 && (p, w) in db.inventory
    requires var log := Audit(Entry(p, w, -(q as int), InventoryReserved, o));
      pick.event !in db.events
      || Run(db, Then(log, CheckLow(p, w, -(q as int), pick.alert, pick.event, k))).Committed?
    ensures var entry := Entry(p, w, -(q as int), InventoryReserved, o);
      Run(db, Then(Audit(entry), CheckLow(p, w, -(q as int), pick.alert, pick.event, k))) ==
      Run(Flagged(db.(audit := db.audit + [entry]), p, w, pick.alert, pick.event), k)
  {
    var log := Audit(Entry(p, w, -(q as int), InventoryReserved, o));
    RunDo(db, log, CheckLow(p, w, -(q as int), pick.alert, pick.event, k), Stop(IntegrityError));
    FlagExact(Exec(db, log), p, w, -(q as int), pick.alert, pick.event, k);
  }

  /** What taking `q` units does to the stock, line by line. */
  lemma TookStock(db: State, p: ProductId, w: WarehouseId, q: nat, pick: Pick, o: OrderId)
    requires HasEnough(db.inventory, p, w, q)
    ensures var db' := Took(db, p, w, q, pick, o);
      && db'.inventory == db.inventory[(p, w) := TakenRow(db.inventory[(p, w)], q)]
      && db' == db.(inventory := db'.inventory, audit := db'.audit, alerts := db'.alerts, events := db'.events)
      && db'.audit == db.audit + [Entry(p, w, -(q as int), InventoryReserved, o)]
      && (!Crosses(db.inventory[(p, w)], q) ==> db'.alerts == db.alerts && db'.events == db.events)
      && (Crosses(db.inventory[(p, w)], q) ==>
            && db'.alerts == db.alerts + [AlertFor(pick.alert, p, w, db'.inventory[(p, w)])]
            && db'.events == db.events[pick.event := Event(LowStockAlertCreated(db'.alerts[|db.alerts|]), false)])
  {
  }

  // ---- all lines ----

  predicate LineFits(inventory: map<Stock, Inventory>, line: Line, pick: Pick) {
    pick.warehouse.Some? && HasEnough(inventory, line.product, pick.warehouse.value, line.quantity)
  }

  predicate AllFit(inventory: map<Stock, Inventory>, lines: seq<Line>, picks: seq<Pick>)
    requires |lines| == |picks|
  {
    forall i | 0 <= i < |lines| :: LineFits(inventory, lines[i], picks[i])
  }

  predicate FreshEvents(events: map<EventId, Event>, picks: seq<Pick>) {
    && (forall i | 0 <= i < |picks| :: picks[i].event !in events)
    && (forall i, j | 0 <= i < j < |picks| :: picks[i].event != picks[j].event)
  }

  predicate ProperLines(lines: seq<Line>) {
    && (forall i | 0 <= i < |lines| :: lines[i].quantity > 0)
    && (forall i, j | 0 <= i < j < |lines| :: lines[i].product != lines[j].product)
  }

  /** The tables after all lines were taken, in order. */
  function TookAll(db: State, lines: seq<Line>, picks: seq<Pick>, o: OrderId): (db': State)
    requires |lines| == |picks| && ProperLines(lines) && AllFit(db.inventory, lines, picks)
    ensures db'.cfg == db.cfg
    decreases |lines|
  {
    if lines == [] then db else
    assert LineFits(db.inventory, lines[0], picks[0]);
    var db1 := Took(db, lines[0].product, picks[0].warehouse.value, lines[0].quantity, picks[0], o);
    assert forall i | 0 <= i < |lines[1..]| :: LineFits(db.inventory, lines[1..][i], picks[1..][i]) by {
      assert forall i | 0 <= i < |lines[1..]| :: lines[1..][i] == lines[i + 1] && picks[1..][i] == picks[i + 1];
    }
    TookAll(db1, lines[1..], picks[1..], o)
  }

  /** Lines name distinct products, so none of them changes what another one finds: all are taken exactly
      when each fits the stock as it was at the start. */
  lemma {:induction false} ReserveLinesExact(db: State, lines: seq<Line>, picks: seq<Pick>, o: OrderId, k: Prog)
    requires |lines| == |picks| && ProperLines(lines)
    requires FreshEvents(db.events, picks) || Run(db, ReserveLines(lines, picks, o, k)).Committed?
    ensures Run(db, ReserveLines(lines, picks, o, k)) ==
      if AllFit(db.inventory, lines, picks) then Run(TookAll(db, lines, picks, o), k)
      else Stopped(InsufficientInventory)
    decreases |lines|
  {
    if lines != [] {
      var pick, rest := picks[0], ReserveLines(lines[1..], picks[1..], o, k);
      assert AllFit(db.inventory, lines, picks) ==> LineFits(db.inventory, lines[0], pick);
      if pick.warehouse.Some? {
        var p, w, q := lines[0].product, pick.warehouse.value, lines[0].quantity;
        ReserveExact(db, p, w, q, pick, o, rest);
        if HasEnough(db.inventory, p, w, q) {
          var db1 := Took(db, p, w, q, pick, o);
          FirstTaken(db, lines, picks, o);
          ReserveLinesExact(db1, lines[1..], picks[1..], o, k);
        }
      }
    }
  }

  lemma FirstTaken(db: State, lines: seq<Line>, picks: seq<Pick>, o: OrderId)
    requires lines != [] && |lines| == |picks| && ProperLines(lines) && LineFits(db.inventory, lines[0], picks[0])
    ensures var db1 := Took(db, lines[0].product, picks[0].warehouse.value, lines[0].quantity, picks[0], o);
      && (AllFit(db.inventory, lines, picks) <==> AllFit(db1.inventory, lines[1..], picks[1..]))
      && (FreshEvents(db.events, picks) ==> FreshEvents(db1.events, picks[1..]))
  {
    var db1 := Took(db, lines[0].product, picks[0].warehouse.value, lines[0].quantity, picks[0], o);
    TookStock(db, lines[0].product, picks[0].warehouse.value, lines[0].quantity, picks[0], o);
    RestFits(db, db1, lines, picks);
  }

  lemma RestFits(db: State, db1: State, lines: seq<Line>, picks: seq<Pick>)
    requires lines != [] && |lines| == |picks| && ProperLines(lines) && LineFits(db.inventory, lines[0], picks[0])
    requires forall k | k in db.inventory && k.0 != lines[0].product ::
      k in db1.inventory && db1.inventory[k] == db.inventory[k]
    requires forall k | k in db1.inventory :: k in db.inventory
    requires forall e | e in db1.events :: e in db.events || e == picks[0].event
    ensures AllFit(db.inventory, lines, picks) <==> AllFit(db1.inventory, lines[1..], picks[1..])
    ensures FreshEvents(db.events, picks) ==> FreshEvents(db1.events, picks[1..])
  {
    assert forall i | 0 <= i < |lines[1..]| :: lines[1..][i] == lines[i + 1] && picks[1..][i] == picks[i + 1];
    assert forall i | 0 < i < |lines| :: lines[i] == lines[1..][i - 1] && picks[i] == picks[1..][i - 1];
    if AllFit(db1.inventory, lines[1..], picks[1..]) {
      forall i | 0 <= i < |lines|
        ensures LineFits(db.inventory, lines[i], picks[i])
      {
        if i > 0 { assert LineFits(db1.inventory, lines[1..][i - 1], picks[1..][i - 1]); }
      }
    }
  }

  /** The rows of `b` against those of `a`: what every line took, and nothing else. */
  ghost predicate StockTaken(a: map<Stock, Inventory>, b: map<Stock, Inventory>, lines: seq<Line>, picks: seq<Pick>)
    requires |lines| == |picks| && AllFit(a, lines, picks)
  {
    && b.Keys == a.Keys
    && (forall i | 0 <= i < |lines| ::
          assert LineFits(a, lines[i], picks[i]);
          var k := (lines[i].product, picks[i].warehouse.value); b[k] == TakenRow(a[k], lines[i].quantity))
    && (forall k | k in a && (forall i | 0 <= i < |lines| :: k != (lines[i].product, Chosen(picks[i]))) :: b[k] == a[k])
  }

  lemma {:induction false} TookAllStock(db: State, lines: seq<Line>, picks: seq<Pick>, o: OrderId)
    requires |lines| == |picks| && ProperLines(lines) && AllFit(db.inventory, lines, picks)
    ensures StockTaken(db.inventory, TookAll(db, lines, picks, o).inventory, lines, picks)
    decreases |lines|
  {
    if lines != [] {
      assert LineFits(db.inventory, lines[0], picks[0]);
      var p, w, q := lines[0].product, picks[0].warehouse.value, lines[0].quantity;
      var db1 := Took(db, p, w, q, picks[0], o);
      FirstTaken(db, lines, picks, o);
      TookStock(db, p, w, q, picks[0], o);
      TookAllStock(db1, lines[1..], picks[1..], o);
      TakenThenRest(db.inventory, db1.inventory, TookAll(db, lines, picks, o).inventory, lines, picks);
    }
  }

  lemma TakenThenRest(a: map<Stock, Inventory>, a1: map<Stock, Inventory>, b: map<Stock, Inventory>, lines: seq<Line>,
                      picks: seq<Pick>)
    requires lines != [] && |lines| == |picks| && ProperLines(lines) && AllFit(a, lines, picks)
    requires LineFits(a, lines[0], picks[0])
    requires var k := (lines[0].product, picks[0].warehouse.value); a1 == a[k := TakenRow(a[k], lines[0].quantity)]
    requires AllFit(a1, lines[1..], picks[1..]) && StockTaken(a1, b, lines[1..], picks[1..])
    ensures StockTaken(a, b, lines, picks)
  {
    assert forall i | 0 < i < |lines| :: lines[i] == lines[1..][i - 1] && picks[i] == picks[1..][i - 1];
    assert forall i | 0 <= i < |lines[1..]| :: lines[1..][i] == lines[i + 1] && picks[1..][i] == picks[i + 1];
    forall i | 0 <= i < |lines|
      ensures LineFits(a, lines[i], picks[i])
      ensures var k := (lines[i].product, picks[i].warehouse.value); b[k] == TakenRow(a[k], lines[i].quantity)
    {
      assert LineFits(a, lines[i], picks[i]);
      if i > 0 {
        assert LineFits(a1, lines[1..][i - 1], picks[1..][i - 1]);
      }
    }
  }

  // ---- the rows of the order ----

  function WithRows(m: map<ReservationId, Reservation>, rows: seq<Found>): map<ReservationId, Reservation>
    decreases |rows|
  {
    if rows == [] then m else WithRows(m[rows[0].0 := rows[0].1], rows[1..])
  }

  predicate FreshRows(m: map<ReservationId, Reservation>, rows: seq<Found>) {
    Distinct(rows) && forall i | 0 <= i < |rows| :: rows[i].0 !in m
  }

  lemma {:induction false} InsertAllExact(db: State, rows: seq<Found>, k: Prog)
    requires FreshRows(db.reservations, rows)
    ensures Run(db, InsertAll(rows, k)) == Run(db.(reservations := WithRows(db.reservations, rows)), k)
    decreases |rows|
  {
    if rows != [] {
      var insert := OnReservation(rows[0].0, InsertReservation(rows[0].1));
      RunDo(db, insert, InsertAll(rows[1..], k), Stop(IntegrityError));
      assert forall i | 0 <= i < |rows[1..]| :: rows[1..][i] == rows[i + 1];
      InsertAllExact(Exec(db, insert), rows[1..], k);
    }
  }

  lemma InsertRowsExact(db: State, o: OrderId, row: Order, rows: seq<Found>, e: EventId, last: Prog)
    requires o !in db.orders && e !in db.events && FreshRows(db.reservations, rows)
    ensures Run(db, InsertRows(o, row, rows, e, last)) ==
      if row.key.Some? && row.key.value in db.orderKeys then Stopped(IntegrityError)
      else Run(WithOrder(db, o, row, rows, e), last)
  {
    var insert, announce := InsertOrder(o, row), OnEvent(e, InsertEvent(OrderReserved(o)));
    RunDo(db, insert, InsertAll(rows, Then(announce, last)), Stop(IntegrityError));
    if Ok(db, insert) {
      var db1 := Exec(db, insert);
      InsertAllExact(db1, rows, Then(announce, last));
      var db2 := db1.(reservations := WithRows(db1.reservations, rows));
      RunDo(db2, announce, last, Stop(IntegrityError));
    }
  }

  /** The order, its reservations and its outbox event put in. */
  function WithOrder(db: State, o: OrderId, row: Order, rows: seq<Found>, e: EventId): State {
    db.(orders := db.orders[o := row],
        orderKeys := if row.key.Some? then db.orderKeys[row.key.value := o] else db.orderKeys,
        reservations := WithRows(db.reservations, rows),
        events := db.events[e := Event(OrderReserved(o), false)])
  }

  // ---- the whole transaction ----

  lemma {:induction false} TookAllElsewhere(db: State, lines: seq<Line>, picks: seq<Pick>, o: OrderId)
    requires |lines| == |picks| && ProperLines(lines) && FreshEvents(db.events, picks)
    requires AllFit(db.inventory, lines, picks)
    ensures StockMoved(db, TookAll(db, lines, picks, o))
    ensures forall e | e in TookAll(db, lines, picks, o).events && e !in db.events ::
      exists i :: 0 <= i < |picks| && picks[i].event == e
    decreases |lines|
  {
    if lines != [] {
      assert LineFits(db.inventory, lines[0], picks[0]);
      var p, w, q := lines[0].product, picks[0].warehouse.value, lines[0].quantity;
      var db1 := Took(db, p, w, q, picks[0], o);
      FirstTaken(db, lines, picks, o);
      TookStock(db, p, w, q, picks[0], o);
      TookAllElsewhere(db1, lines[1..], picks[1..], o);
      forall e | e in TookAll(db, lines, picks, o).events && e !in db.events
        ensures exists i :: 0 <= i < |picks| && picks[i].event == e
      {
        if e in db1.events {
          assert picks[0].event == e;
        } else {
          var i :| 0 <= i < |picks[1..]| && picks[1..][i].event == e;
          assert picks[i + 1].event == e;
        }
      }
    }
  }

  /** One entry per line, in order. */
  function LineEntries(lines: seq<Line>, picks: seq<Pick>, o: OrderId): (entries: seq<AuditEntry>)
    requires |lines| == |picks|
    ensures |entries| == |lines|
  {
    seq(|lines|, i requires 0 <= i < |lines| =>
      AuditEntry(lines[i].product, Chosen(picks[i]), -(lines[i].quantity as int), InventoryReserved, OrderRef(o)))
  }

  lemma {:induction false} TookAllLogged(db: State, lines: seq<Line>, picks: seq<Pick>, o: OrderId)
    requires |lines| == |picks| && ProperLines(lines) && AllFit(db.inventory, lines, picks)
    ensures TookAll(db, lines, picks, o).audit == db.audit + LineEntries(lines, picks, o)
    decreases |lines|
  {
    if lines != [] {
      assert LineFits(db.inventory, lines[0], picks[0]);
      var p, w, q := lines[0].product, picks[0].warehouse.value, lines[0].quantity;
      FirstTaken(db, lines, picks, o);
      TookStock(db, p, w, q, picks[0], o);
      TookAllLogged(Took(db, p, w, q, picks[0], o), lines[1..], picks[1..], o);
      assert LineEntries(lines, picks, o) ==
        [Entry(p, w, -(q as int), InventoryReserved, o)] + LineEntries(lines[1..], picks[1..], o);
    }
  }

  /** `generate_id` gives ids that are nowhere in use. */
  predicate FreshIds(db: State, tx: Tx) {
    && tx.Create? && Legal(tx)
    && tx.order !in db.orders && tx.event !in db.events
    && FreshEvents(db.events, tx.picks) && (forall i | 0 <= i < |tx.picks| :: tx.picks[i].event != tx.event)
    && FreshRows(db.reservations, RowsOf(db.cfg, tx))
  }

  predicate AllKnown(cfg: Config, lines: seq<Line>) { forall l | l in lines :: l.product in cfg.prices }

  /** Why the request is refused, if it is. */
  function Refusal(db: State, tx: Tx): Option<Ending>
    requires tx.Create? && Legal(tx)
  {
    if Claims(tx.key) && tx.key.value in db.keys then
      Some(if db.keys[tx.key.value].hash != tx.payload then HashMismatch
           else if db.keys[tx.key.value].Done? then Replayed else KeyConflict)
    else if !AllKnown(db.cfg, tx.payload.items) then Some(ProductNotFound)
    else if tx.now > db.clock then Some(OtherRead)
    else if !AllFit(db.inventory, tx.payload.items, tx.picks) then Some(InsufficientInventory)
    else if tx.key.Some? && tx.key.value in db.orderKeys then Some(IntegrityError)
    else None
  }

  /** The claim of the idempotency key. */
  function Claimed(db: State, tx: Tx): State
    requires tx.Create?
  {
    if Claims(tx.key) then db.(keys := db.keys[tx.key.value := InProgress(tx.payload)]) else db
  }

  function RowsOf(cfg: Config, tx: Tx): (rows: seq<Found>)
    requires tx.Create? && Legal(tx)
  {
    ReservationsFor(tx.payload.items, tx.picks, tx.order, tx.now + cfg.timeout)
  }

  /** The order's rows put in, and its answer stored under the key it claimed. */
  function WithAnswer(db: State, tx: Tx): State
    requires tx.Create? && Legal(tx) && AllKnown(db.cfg, tx.payload.items)
  {
    var row := OrderOf(db.cfg, tx);
    var placed := WithOrder(db, tx.order, row, RowsOf(db.cfg, tx), tx.event);
    if !Claims(tx.key) then placed else
    placed.(keys := db.keys[tx.key.value := Done(tx.payload, tx.order, Serialize(tx.order, row))])
  }

  /** The tables once the order is in. */
  function Placed(db: State, tx: Tx): State
    requires tx.Create? && Legal(tx) && AllKnown(db.cfg, tx.payload.items)
    requires AllFit(db.inventory, tx.payload.items, tx.picks)
  {
    WithAnswer(TookAll(Claimed(db, tx), tx.payload.items, tx.picks, tx.order), tx)
  }

  /** create_order, run alone: exactly when it is refused and why, and exactly what it leaves behind. */
  lemma CreateExact(db: State, tx: Tx)
    requires FreshIds(db, tx)
    ensures Run(db, Code(db.cfg, tx)) ==
      if Refusal(db, tx).Some? then Stopped(Refusal(db, tx).value) else Committed(Placed(db, tx))
  {
    var body := CreateBody(db.cfg, tx.payload, tx.user, tx.key, tx.order, tx.event, tx.now, tx.picks);
    if !Claims(tx.key) {
      BodyExact(db, tx);
    } else {
      RunDo(db, OnKey(tx.key.value, InsertKey(tx.payload)), body, KeyTaken(tx.key.value, tx.payload));
      if tx.key.value in db.keys {
        KeyTakenStops(db, tx.key.value, tx.payload);
      } else {
        BodyExact(db, tx);
      }
    }
  }

  function InsertOf(cfg: Config, tx: Tx): Prog
    requires tx.Create? && Legal(tx) && AllKnown(cfg, tx.payload.items)
  {
    var row := OrderOf(cfg, tx);
    InsertRows(tx.order, row, RowsOf(cfg, tx), tx.event, LastStep(tx.key, tx.order, row))
  }

  function BodyOf(cfg: Config, tx: Tx): Prog
    requires tx.Create? && Legal(tx)
  {
    CreateBody(cfg, tx.payload, tx.user, tx.key, tx.order, tx.event, tx.now, tx.picks)
  }

  /** The lines, then the rows. */
  function LinesThen(tx: Tx, insert: Prog): Prog
    requires tx.Create? && Legal(tx)
  {
    Do(Sample(tx.now), ReserveLines(tx.payload.items, tx.picks, tx.order, insert), Stop(OtherRead))
  }

  lemma BodyShape(cfg: Config, tx: Tx)
    requires tx.Create? && Legal(tx)
    ensures !AllKnown(cfg, tx.payload.items) ==> BodyOf(cfg, tx) == Stop(ProductNotFound)
    ensures AllKnown(cfg, tx.payload.items) ==> BodyOf(cfg, tx) == LinesThen(tx, InsertOf(cfg, tx))
  {
  }

  lemma LinesExact(db: State, tx: Tx, insert: Prog)
    requires tx.Create? && Legal(tx) && (FreshEvents(db.events, tx.picks) || Run(db, LinesThen(tx, insert)).Committed?)
    ensures Run(db, LinesThen(tx, insert)) ==
      if tx.now > db.clock then Stopped(OtherRead)
      else if !AllFit(db.inventory, tx.payload.items, tx.picks) then Stopped(InsufficientInventory)
      else Run(TookAll(db, tx.payload.items, tx.picks, tx.order), insert)
  {
    RunDo(db, Sample(tx.now), ReserveLines(tx.payload.items, tx.picks, tx.order, insert), Stop(OtherRead));
    if tx.now <= db.clock { ReserveLinesExact(db, tx.payload.items, tx.picks, tx.order, insert); }
  }

  lemma BodyExact(db: State, tx: Tx)
    requires FreshIds(db, tx) && (Claims(tx.key) ==> tx.key.value !in db.keys)
    ensures Run(Claimed(db, tx), BodyOf(db.cfg, tx)) ==
      if Refusal(db, tx).Some? then Stopped(Refusal(db, tx).value) else Committed(Placed(db, tx))
  {
    BodyShape(db.cfg, tx);
    if AllKnown(db.cfg, tx.payload.items) {
      LinesExact(Claimed(db, tx), tx, InsertOf(db.cfg, tx));
      if AllFit(db.inventory, tx.payload.items, tx.picks) {
        TakenThenPlaced(db, tx);
      }
    }
  }

  lemma TakenThenPlaced(db: State, tx: Tx)
    requires FreshIds(db, tx) && AllKnown(db.cfg, tx.payload.items) && AllFit(db.inventory, tx.payload.items, tx.picks)
    requires Claims(tx.key) ==> tx.key.value !in db.keys
    ensures Run(TookAll(Claimed(db, tx), tx.payload.items, tx.picks, tx.order), InsertOf(db.cfg, tx)) ==
      if tx.key.Some? && tx.key.value in db.orderKeys then Stopped(IntegrityError) else Committed(Placed(db, tx))
  {
    var taken := TookAll(Claimed(db, tx), tx.payload.items, tx.picks, tx.order);
    TookAllElsewhere(Claimed(db, tx), tx.payload.items, tx.picks, tx.order);
    FinishExact(taken, tx);
  }

  lemma FinishExact(db: State, tx: Tx)
    requires tx.Create? && Legal(tx) && AllKnown(db.cfg, tx.payload.items)
    requires tx.order !in db.orders && tx.event !in db.events && FreshRows(db.reservations, RowsOf(db.cfg, tx))
    requires Claims(tx.key) ==> tx.key.value in db.keys && db.keys[tx.key.value].hash == tx.payload
    ensures Run(db, InsertOf(db.cfg, tx)) ==
      if tx.key.Some? && tx.key.value in db.orderKeys then Stopped(IntegrityError) else Committed(WithAnswer(db, tx))
  {
    var row := OrderOf(db.cfg, tx);
    InsertRowsExact(db, tx.order, row, RowsOf(db.cfg, tx), tx.event, LastStep(tx.key, tx.order, row));
    if Claims(tx.key) {
      var placed := WithOrder(db, tx.order, row, RowsOf(db.cfg, tx), tx.event);
      RunDo(placed, OnKey(tx.key.value, CompleteKey(tx.order, Serialize(tx.order, row))), Commit, Stop(IntegrityError));
    }
  }

  /** ... which is: the order, its items and reservations line by line, its event, its stored answer, and
      the stock each line took from the one warehouse picked for it. */
  lemma PlacedMeans(db: State, tx: Tx)
    requires FreshIds(db, tx) && Refusal(db, tx).None?
    ensures Created(db, Placed(db, tx), tx)
    ensures StockTaken(db.inventory, Placed(db, tx).inventory, tx.payload.items, tx.picks)
    ensures OrderOf(db.cfg, tx).total == PriceOf(db.cfg.prices, tx.payload.items)
  {
    PlacedRows(db, tx);
    PlacedStock(db, tx);
    TotalIsPrice(db.cfg.prices, tx.payload.items, tx.picks);
  }

  lemma PlacedRows(db: State, tx: Tx)
    requires FreshIds(db, tx) && Refusal(db, tx).None?
    ensures Created(db, Placed(db, tx), tx)
  {
    CreateExact(db, tx);
    CreateEffect(db, tx);
  }

  lemma PlacedStock(db: State, tx: Tx)
    requires FreshIds(db, tx) && Refusal(db, tx).None?
    ensures StockTaken(db.inventory, Placed(db, tx).inventory, tx.payload.items, tx.picks)
  {
    TookAllStock(Claimed(db, tx), tx.payload.items, tx.picks, tx.order);
  }

  /** Price times quantity, over all lines. */
  function PriceOf(prices: map<ProductId, nat>, lines: seq<Line>): nat
    requires forall l | l in lines :: l.product in prices
  {
    if lines == [] then 0 else prices[lines[0].product] * lines[0].quantity + PriceOf(prices, lines[1..])
  }

  lemma {:induction false} TotalOfMore(first: Item, items: seq<Item>)
    ensures Total([first] + items) == first.unitPrice * first.quantity + Total(items)
    decreases |items|
  {
    if items != [] {
      assert ([first] + items)[..|items|] == [first] + items[..|items| - 1];
      TotalOfMore(first, items[..|items| - 1]);
    }
  }

  lemma {:induction false} TotalIsPrice(prices: map<ProductId, nat>, lines: seq<Line>, picks: seq<Pick>)
    requires |lines| == |picks| && forall l | l in lines :: l.product in prices
    ensures Total(ItemsFor(prices, lines, picks)) == PriceOf(prices, lines)
    decreases |lines|
  {
    if lines != [] {
      var items := ItemsFor(prices, lines, picks);
      assert items == [items[0]] + ItemsFor(prices, lines[1..], picks[1..]);
      TotalOfMore(items[0], ItemsFor(prices, lines[1..], picks[1..]));
      TotalIsPrice(prices, lines[1..], picks[1..]);
    }
  }

  // ---- one line at a time, as the loop does it ----

  lemma AllButLast(inventory: map<Stock, Inventory>, lines: seq<Line>, picks: seq<Pick>)
    requires lines != [] && |lines| == |picks| && ProperLines(lines) && AllFit(inventory, lines, picks)
    ensures var n := |lines| - 1; ProperLines(lines[..n]) && AllFit(inventory, lines[..n], picks[..n])
  {
    var n := |lines| - 1;
    forall i | 0 <= i < n
      ensures LineFits(inventory, lines[..n][i], picks[..n][i])
    {
      assert LineFits(inventory, lines[i], picks[i]);
    }
  }

  /** What the next line finds is what it would have found at the start. */
  lemma LastFindsTheSame(db: State, lines: seq<Line>, picks: seq<Pick>, o: OrderId, p: ProductId)
    requires |lines| == |picks| && ProperLines(lines) && AllFit(db.inventory, lines, picks)
    requires forall i | 0 <= i < |lines| :: lines[i].product != p
    ensures var t := TookAll(db, lines, picks, o).inventory;
      t.Keys == db.inventory.Keys && forall w: WarehouseId | (p, w) in t :: t[(p, w)] == db.inventory[(p, w)]
  {
    TookAllStock(db, lines, picks, o);
  }

  lemma LastFits(db: State, lines: seq<Line>, picks: seq<Pick>, o: OrderId)
    requires lines != [] && |lines| == |picks| && ProperLines(lines) && AllFit(db.inventory, lines, picks)
    ensures var n := |lines| - 1;
      && ProperLines(lines[..n]) && AllFit(db.inventory, lines[..n], picks[..n]) && picks[n].warehouse.Some?
      && var t := TookAll(db, lines[..n], picks[..n], o);
      HasEnough(t.inventory, lines[n].product, picks[n].warehouse.value, lines[n].quantity)
  {
    var n := |lines| - 1;
    AllButLast(db.inventory, lines, picks);
    assert LineFits(db.inventory, lines[n], picks[n]);
    LastFindsTheSame(db, lines[..n], picks[..n], o, lines[n].product);
  }

  lemma TookAllFrom(db: State, lines: seq<Line>, picks: seq<Pick>, o: OrderId, db1: State)
    requires lines != [] && |lines| == |picks| && ProperLines(lines) && AllFit(db.inventory, lines, picks)
    requires LineFits(db.inventory, lines[0], picks[0])
    requires db1 == Took(db, lines[0].product, picks[0].warehouse.value, lines[0].quantity, picks[0], o)
    ensures ProperLines(lines[1..]) && AllFit(db1.inventory, lines[1..], picks[1..])
    ensures TookAll(db, lines, picks, o) == TookAll(db1, lines[1..], picks[1..], o)
  {
    FirstTaken(db, lines, picks, o);
  }

  lemma {:induction false} TookOneMore(db: State, lines: seq<Line>, picks: seq<Pick>, o: OrderId)
    requires lines != [] && |lines| == |picks| && ProperLines(lines) && AllFit(db.inventory, lines, picks)
    ensures var n := |lines| - 1;
      && ProperLines(lines[..n]) && AllFit(db.inventory, lines[..n], picks[..n]) && picks[n].warehouse.Some?
      && var t := TookAll(db, lines[..n], picks[..n], o);
      && HasEnough(t.inventory, lines[n].product, picks[n].warehouse.value, lines[n].quantity)
      && TookAll(db, lines, picks, o) ==
         Took(t, lines[n].product, picks[n].warehouse.value, lines[n].quantity, picks[n], o)
    decreases |lines|
  {
    var n := |lines| - 1;
    LastFits(db, lines, picks, o);
    if n > 0 {
      assert LineFits(db.inventory, lines[0], picks[0]);
      var db1 := Took(db, lines[0].product, picks[0].warehouse.value, lines[0].quantity, picks[0], o);
      TookAllFrom(db, lines, picks, o, db1);
      TookOneMore(db1, lines[1..], picks[1..], o);
      TookAllFrom(db, lines[..n], picks[..n], o, db1);
      assert lines[1..][..n - 1] == lines[..n][1..] && picks[1..][..n - 1] == picks[..n][1..];
    }
  }
}

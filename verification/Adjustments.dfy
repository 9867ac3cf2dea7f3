/** What an accepted adjustment does, to the unit and to the word. */
module Adjustments {
  import opened Schema
  import opened Statements
  import opened Transactions
  import opened Runs
  import opened Creation
  import opened Requests

  /** At or below its threshold, if it has one. */
  predicate Due(row: Inventory) { row.threshold.Some? && row.available <= row.threshold.value }

  /** The row `delta` units later. The flag goes up only on the way down and comes down only on the way up. */
  predicate RowAdjusted(a: Inventory, b: Inventory, delta: int) {
    && b.available == a.available + delta && b.reserved == a.reserved && b.threshold == a.threshold
    && (delta < 0 ==> (b.low <==> a.low || Due(b)))
    && (delta > 0 ==> (b.low <==> a.low && (b.threshold.None? || Due(b))))
    && (delta == 0 ==> b.low == a.low)
  }

  /** The first adjustment of a pair makes its row; the others change it; no other row moves. */
  predicate StockAdjusted(a: map<Stock, Inventory>, b: map<Stock, Inventory>, k: Stock, delta: int) {
    && k in b && b == a[k := b[k]]
    && if k in a then RowAdjusted(a[k], b[k], delta)
       else b[k].available == delta && b[k].reserved == 0 && b[k].threshold.None? && !b[k].low
  }

  /** One entry: what changed by how much, why, and under the name its sign asks for. */
  predicate LoggedOnce(a: seq<AuditEntry>, b: seq<AuditEntry>, k: Stock, delta: int, reason: string) {
    && |b| == |a| + 1 && a <= b
    && var entry := b[|a|];
    && entry.product == k.0 && entry.warehouse == k.1 && entry.change == delta && entry.reference == Note(reason)
    && (delta >= 0 ==> entry.kind.StockAdded?) && (delta < 0 ==> entry.kind.StockRemoved?)
  }

  /** An alert and its PENDING event if the flag went up, and nothing otherwise. */
  predicate AlertedIf(a: State, b: State, k: Stock, alert: AlertId, e: EventId)
    requires k in b.inventory
  {
    var row := b.inventory[k];
    if k in a.inventory && !a.inventory[k].low && row.low && row.threshold.Some? then
      var raised := Alert(alert, k.0, k.1, row.available, row.threshold.value);
      b.alerts == a.alerts + [raised] && b.events == a.events[e := Event(LowStockAlertCreated(raised), false)]
    else b.alerts == a.alerts && b.events == a.events
  }

  predicate Adjusted(a: State, b: State, k: Stock, delta: int, reason: string, alert: AlertId, e: EventId) {
    && StockAdjusted(a.inventory, b.inventory, k, delta) && LoggedOnce(a.audit, b.audit, k, delta, reason)
    && AlertedIf(a, b, k, alert, e)
    && b == a.(inventory := b.inventory, audit := b.audit, alerts := b.alerts, events := b.events)
  }

  lemma FirstAdjusted(db: State, tx: Tx, log: Prog)
    requires tx.Adjust? && tx.first && tx.delta >= 0
    requires Run(db, Then(OnStock(tx.p, tx.w, InsertStock(Inventory(tx.delta, 0, None, false))), log)).Committed?
    ensures (tx.p, tx.w) !in db.inventory
    ensures Run(db, Then(OnStock(tx.p, tx.w, InsertStock(Inventory(tx.delta, 0, None, false))), log)) ==
      Run(db.(inventory := db.inventory[(tx.p, tx.w) := Inventory(tx.delta, 0, None, false)]), log)
  {
    RunDo(db, OnStock(tx.p, tx.w, InsertStock(Inventory(tx.delta, 0, None, false))), log, Stop(IntegrityError));
  }

  /** The stock changed, the flag and the alert gone with it, and nothing logged yet. */
  predicate Moved(a: State, b: State, k: Stock, delta: int, alert: AlertId, e: EventId) {
    && StockAdjusted(a.inventory, b.inventory, k, delta) && AlertedIf(a, b, k, alert, e)
    && b == a.(inventory := b.inventory, alerts := b.alerts, events := b.events)
  }

  function Added(db: State, k: Stock, delta: int): State
    requires k in db.inventory && db.inventory[k].available + delta >= 0
  {
    var row := db.inventory[k];
    db.(inventory := db.inventory[k := row.(available := row.available + delta)])
  }

  lemma Fallen(db: State, k: Stock, delta: int, alert: AlertId, e: EventId, log: Prog) returns (db': State)
    requires delta < 0 && k in db.inventory && db.inventory[k].available + delta >= 0
    requires Run(Added(db, k, delta), CheckLow(k.0, k.1, delta, alert, e, log)).Committed?
    ensures Run(Added(db, k, delta), CheckLow(k.0, k.1, delta, alert, e, log)) == Run(db', log)
    ensures Moved(db, db', k, delta, alert, e)
  {
    FlagExact(Added(db, k, delta), k.0, k.1, delta, alert, e, log);
    db' := Flagged(Added(db, k, delta), k.0, k.1, alert, e);
  }

  lemma Risen(db: State, k: Stock, delta: int, alert: AlertId, e: EventId, log: Prog) returns (db': State)
    requires delta >= 0 && k in db.inventory
    ensures Run(Added(db, k, delta), CheckLow(k.0, k.1, delta, alert, e, log)) == Run(db', log)
    ensures Moved(db, db', k, delta, alert, e)
  {
    var mid, reset := Added(db, k, delta), OnStock(k.0, k.1, ResetLowStock);
    RunIgnoring(mid, reset, log);
    db' := if delta > 0 && Ok(mid, reset) then Exec(mid, reset) else mid;
  }

  lemma LaterAdjusted(db: State, tx: Tx, log: Prog) returns (db': State)
    requires tx.Adjust?
    requires var check := CheckLow(tx.p, tx.w, tx.delta, tx.alert, tx.event, log);
      Run(db, Do(OnStock(tx.p, tx.w, AdjustAvailable(tx.delta)), check, Stop(InvalidRequest))).Committed?
    ensures var check := CheckLow(tx.p, tx.w, tx.delta, tx.alert, tx.event, log);
      Run(db, Do(OnStock(tx.p, tx.w, AdjustAvailable(tx.delta)), check, Stop(InvalidRequest))) == Run(db', log)
    ensures Moved(db, db', (tx.p, tx.w), tx.delta, tx.alert, tx.event)
  {
    var k, adjust := (tx.p, tx.w), OnStock(tx.p, tx.w, AdjustAvailable(tx.delta));
    RunDo(db, adjust, CheckLow(tx.p, tx.w, tx.delta, tx.alert, tx.event, log), Stop(InvalidRequest));
    if tx.delta < 0 {
      db' := Fallen(db, k, tx.delta, tx.alert, tx.event, log);
    } else {
      db' := Risen(db, k, tx.delta, tx.alert, tx.event, log);
    }
  }

  lemma ThenLogged(db: State, mid: State, tx: Tx, entry: AuditEntry, db': State)
    requires tx.Adjust? && Moved(db, mid, (tx.p, tx.w), tx.delta, tx.alert, tx.event)
    requires LoggedOnce([], [entry], (tx.p, tx.w), tx.delta, tx.reason)
    requires Run(mid, Then(Audit(entry), Commit)) == Committed(db')
    ensures Adjusted(db, db', (tx.p, tx.w), tx.delta, tx.reason, tx.alert, tx.event)
  {
    RunDo(mid, Audit(entry), Commit, Stop(IntegrityError));
    assert db'.audit == db.audit + [entry];
    assert db'.audit[|db.audit|] == [entry][0];
  }

  /** Every adjustment that ever commits: the stock changes by what was asked, and one entry says so. */
  lemma AdjustedInFull(db: State, tx: Tx, db': State)
    requires Next(db, Does(tx), db') && tx.Adjust?
    ensures Adjusted(db, db', (tx.p, tx.w), tx.delta, tx.reason, tx.alert, tx.event)
  {
    var entry := AuditEntry(tx.p, tx.w, tx.delta, if tx.delta >= 0 then StockAdded else StockRemoved, Note(tx.reason));
    var log, mid := Then(Audit(entry), Commit), db;
    if tx.first {
      FirstAdjusted(db, tx, log);
      mid := db.(inventory := db.inventory[(tx.p, tx.w) := Inventory(tx.delta, 0, None, false)]);
    } else {
      mid := LaterAdjusted(db, tx, log);
    }
    ThenLogged(db, mid, tx, entry, db');
  }

  lemma AdjustmentEnds(before: State, tx: Tx, answer: Answer, after: State)
    requires tx.Adjust? && Ends(before, Code(before.cfg, tx), answer, after)
    ensures answer.Accepted? ==>
      && Adjusted(before, after, (tx.p, tx.w), tx.delta, tx.reason, tx.alert, tx.event)
      && after.audit == before.audit +
         [AuditEntry(tx.p, tx.w, tx.delta, if tx.delta >= 0 then StockAdded else StockRemoved, Note(tx.reason))]
    ensures !answer.Accepted? ==> after == before
  {
    if answer.Accepted? {
      AdjustedInFull(before, tx, after);
      assert after.audit == before.audit + [after.audit[|before.audit|]];
    }
  }
}

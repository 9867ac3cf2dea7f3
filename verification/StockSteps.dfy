/** What every committed step does to the stock table and its low-stock flags, expiry included. */
module StockSteps {
  import opened Schema
  import opened Statements
  import opened Transactions
  import opened Effects
  import opened Invariant
  import opened Runs
  import opened LowStock
  import Accounts

  // ---- expiry ----

  predicate SameFlags(a: StockTable, b: StockTable) {
    b.Keys == a.Keys && forall k | k in a :: b[k].threshold == a[k].threshold && b[k].low == a[k].low
  }

  function ClaimEntries(claims: seq<Found>): seq<AuditEntry>
    decreases |claims|
  {
    if claims == [] then [] else
    var r := claims[0].1;
    [Entry(r.product, r.warehouse, r.quantity, ReservationReleased, r.order)] + ClaimEntries(claims[1..])
  }

  lemma GiveBackStock(db: State, r: Reservation, k: Prog) returns (db': State)
    ensures Run(db, GiveBack(r, k)) == Run(db', k)
    ensures SameFlags(db.inventory, db'.inventory)
    ensures db'.audit == db.audit + [Entry(r.product, r.warehouse, r.quantity, ReservationReleased, r.order)]
  {
    var give := OnStock(r.product, r.warehouse, Release(r.quantity));
    var log := Audit(Entry(r.product, r.warehouse, r.quantity, ReservationReleased, r.order));
    RunIgnoring(db, give, Then(log, ExpireOrder(r.order, k)));
    var db1 := if Ok(db, give) then Exec(db, give) else db;
    RunDo(db1, log, ExpireOrder(r.order, k), Stop(IntegrityError));
    var db2 := Exec(db1, log);
    ExpireOrderRun(db2, r.order, k);
    db' := if r.order in db2.orders && db2.orders[r.order].status.Reserved?
      then db2.(orders := db2.orders[r.order := db2.orders[r.order].(status := Expired)]) else db2;
  }

  lemma {:induction false} GiveBackAllStock(db: State, claims: seq<Found>, k: Prog) returns (db': State)
    ensures Run(db, GiveBackAll(claims, k)) == Run(db', k)
    ensures SameFlags(db.inventory, db'.inventory) && db'.audit == db.audit + ClaimEntries(claims)
    decreases |claims|
  {
    db' := db;
    if claims != [] {
      var db1 := GiveBackStock(db, claims[0].1, GiveBackAll(claims[1..], k));
      db' := GiveBackAllStock(db1, claims[1..], k);
    }
  }

  /** Expiry moves no flag at all, and logs each unit it gives back. */
  lemma ExpireStock(db: State, now: int, claims: seq<Found>)
    requires Run(db, ExpireCode(now, claims)).Committed?
    ensures var db' := Run(db, ExpireCode(now, claims)).db;
      SameFlags(db.inventory, db'.inventory) && db'.audit == db.audit + ClaimEntries(claims)
  {
    var give := GiveBackAll(claims, Commit);
    ExpireEffect(db, now, claims);
    RunDo(db, Sample(now), LockAll(claims, now, ReleaseClaimed(claims, give)), Stop(OtherRead));
    LockAllRun(db, claims, now, ReleaseClaimed(claims, give));
    ReleaseClaimedRun(db, claims, give);
    var db' := GiveBackAllStock(db.(reservations := ReleaseFound(db.reservations, claims)), claims, Commit);
  }

  /** Units the batch gives back at (p, w). */
  function ClaimedUnits(claims: seq<Found>, p: ProductId, w: WarehouseId): nat
    decreases |claims|
  {
    if claims == [] then 0 else
    (if claims[0].1.product == p && claims[0].1.warehouse == w then claims[0].1.quantity else 0)
    + ClaimedUnits(claims[1..], p, w)
  }

  lemma {:induction false} LoggedAppend(a: seq<AuditEntry>, b: seq<AuditEntry>, p: ProductId, w: WarehouseId,
                                        o: Option<OrderId>, kinds: set<AuditType>)
    ensures Accounts.Logged(a + b, p, w, o, kinds) ==
      Accounts.Logged(a, p, w, o, kinds) + Accounts.Logged(b, p, w, o, kinds)
    decreases |b|
  {
    if b == [] {
      assert a + b == a;
    } else {
      assert (a + b)[..|a + b| - 1] == a + b[..|b| - 1];
      LoggedAppend(a, b[..|b| - 1], p, w, o, kinds);
    }
  }

  lemma {:induction false} ClaimsLogged(claims: seq<Found>, p: ProductId, w: WarehouseId)
    ensures Accounts.Logged(ClaimEntries(claims), p, w, None, Accounts.NOT_COMPLETION) == ClaimedUnits(claims, p, w)
    decreases |claims|
  {
    if claims != [] {
      var r := claims[0].1;
      var first := [Entry(r.product, r.warehouse, r.quantity, ReservationReleased, r.order)];
      LoggedAppend(first, ClaimEntries(claims[1..]), p, w, None, Accounts.NOT_COMPLETION);
      assert first[..0] == [];
      ClaimsLogged(claims[1..], p, w);
    }
  }

  /** What an expiry batch gives back is what it claimed, to the unit. */
  lemma ExpireGivesBack(db: State, tx: Tx, p: ProductId, w: WarehouseId)
    requires Inv(db) && tx.Expire? && Legal(tx) && Run(db, Code(db.cfg, tx)).Committed?
    ensures var db' := Run(db, Code(db.cfg, tx)).db;
      Accounts.AvailableAt(db', p, w) == Accounts.AvailableAt(db, p, w) + ClaimedUnits(tx.claims, p, w)
  {
    ExpireStock(db, tx.now, tx.claims);
    Accounts.AuditRebuildsStock(db, p, w);
    var db' := Run(db, Code(db.cfg, tx)).db;
    assert Inv(db') by { TransactionKeepsInv(db, tx); }
    Accounts.AuditRebuildsStock(db', p, w);
    LoggedAppend(db.audit, ClaimEntries(tx.claims), p, w, None, Accounts.NOT_COMPLETION);
    ClaimsLogged(tx.claims, p, w);
  }

  // ---- every step ----

  predicate IsThreshold(s: Step) { s.Does? && s.tx.Threshold? }
  predicate IsExpire(s: Step) { s.Does? && s.tx.Expire? }

  lemma QuietTxMoved(db: State, tx: Tx)
    requires Legal(tx) && Run(db, Code(db.cfg, tx)).Committed? && (tx.Begin? || tx.Record? || tx.Relay?)
    ensures Moved(db, Run(db, Code(db.cfg, tx)).db)
  {
    match tx
    case Begin(o) => BeginEffect(db, o);
    case Record(o, attempt, reason) => RecordEffect(db, o, attempt, reason);
    case Relay(events) => RelayEffect(db, events);
  }

  lemma SettlingTxMoved(db: State, tx: Tx)
    requires Legal(tx) && Run(db, Code(db.cfg, tx)).Committed? && (tx.Cancel? || tx.Finish?)
    ensures Moved(db, Run(db, Code(db.cfg, tx)).db)
  {
    if tx.Cancel? {
      CancelEffect(db, tx.order, tx.user, tx.found);
      CancelStock(db, tx.order, tx.user, tx.found);
    } else {
      FinishEffect(db, tx.order, tx.attempt, tx.token, tx.found);
      FinishStock(db, tx.order, tx.attempt, tx.token, tx.found);
    }
    RestockedMoved(db, Run(db, Code(db.cfg, tx)).db);
  }

  /** Any step but expiry and a new threshold: thresholds stay, alerts go with flags, no flag goes stale. */
  lemma StepMoved(db: State, s: Step, db': State)
    requires Next(db, s, db') && !IsThreshold(s) && !IsExpire(s)
    ensures Moved(db, db')
  {
    if s.Does? {
      if s.tx.Create? {
        CreateMoved(db, s.tx);
      } else if s.tx.Adjust? {
        AdjustMoved(db, s.tx);
      } else if s.tx.Cancel? || s.tx.Finish? {
        SettlingTxMoved(db, s.tx);
      } else {
        QuietTxMoved(db, s.tx);
      }
    }
  }

  /** A new threshold sets its own flag by the rule, raises no alert and leaves other rows alone. */
  lemma ThresholdMoved(db: State, s: Step, db': State)
    requires Next(db, s, db') && IsThreshold(s)
    ensures var k := (s.tx.p, s.tx.w);
      && db'.alerts == db.alerts && k in db'.inventory && db'.inventory == db.inventory[k := db'.inventory[k]]
      && (k in db.inventory ==> db'.inventory[k].available == db.inventory[k].available)
      && (db'.inventory[k].low <==> AtOrBelow(db'.inventory[k]))
  {
    ThresholdSet(db, s.tx.p, s.tx.w, s.tx.threshold, s.tx.first);
  }

  lemma ThresholdSet(db: State, p: ProductId, w: WarehouseId, threshold: int, first: bool)
    requires Run(db, ThresholdCode(db.cfg, p, w, threshold, first)).Committed?
    ensures threshold >= 0 && (first <==> (p, w) !in db.inventory)
    ensures Run(db, ThresholdCode(db.cfg, p, w, threshold, first)).db == db.(inventory := db.inventory[(p, w) :=
      if first then Inventory(0, 0, Some(threshold), true)
      else db.inventory[(p, w)].(threshold := Some(threshold), low := db.inventory[(p, w)].available <= threshold)])
  {
    if first {
      RunDo(db, OnStock(p, w, InsertStock(Inventory(0, 0, Some(threshold), true))), Commit, Stop(IntegrityError));
    } else {
      RunDo(db, OnStock(p, w, SetThreshold(threshold)), Commit, Stop(NothingToDo));
    }
  }

  lemma ExpireMoved(db: State, s: Step, db': State)
    requires Next(db, s, db') && IsExpire(s)
    ensures SameFlags(db.inventory, db'.inventory) && db'.alerts == db.alerts
  {
    ExpireEffect(db, s.tx.now, s.tx.claims);
    ExpireStock(db, s.tx.now, s.tx.claims);
  }
}

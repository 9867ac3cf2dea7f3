/** The audit log: which entries each transaction may write, with which signs, and what that leaves alone. */
module Logs {
  import opened Schema
  import opened Statements
  import opened Transactions
  import opened Effects
  import opened Invariant
  import opened Runs
  import opened Accounts
  import opened StockSteps

  /** Every kind of entry has its sign; adjustments carry a note, all others the order. */
  predicate WellSigned(e: AuditEntry) {
    match e.kind
    case StockAdded => e.change >= 0 && e.reference.Note?
    case StockRemoved => e.change < 0 && e.reference.Note?
    case InventoryReserved => e.change < 0 && e.reference.OrderRef?
    case ReservationReleased => e.change > 0 && e.reference.OrderRef?
    case OrderCompleted => e.change < 0 && e.reference.OrderRef?
    case ManualAdjustment => false   // in the enumeration, but written by nobody
  }

  /** Whatever path it takes, the code writes well-signed entries of these kinds only. */
  predicate LogsOnly(p: Prog, kinds: set<AuditType>) {
    match p
    case Do(s, yes, no) =>
      && (s.Audit? ==> WellSigned(s.entry) && s.entry.kind in kinds)
      && LogsOnly(yes, kinds) && LogsOnly(no, kinds)
    case _ => true
  }

  /** `b` is `a` and more entries, all well-signed and of these kinds. */
  predicate LogGrows(a: seq<AuditEntry>, b: seq<AuditEntry>, kinds: set<AuditType>) {
    a <= b && forall i | |a| <= i < |b| :: WellSigned(b[i]) && b[i].kind in kinds
  }

  lemma ExecLogs(db: State, s: Stmt)
    requires Ok(db, s)
    ensures Exec(db, s).audit == if s.Audit? then db.audit + [s.entry] else db.audit
  {
  }

  lemma {:induction false} RunLogs(db: State, p: Prog, kinds: set<AuditType>)
    requires LogsOnly(p, kinds) && Run(db, p).Committed?
    ensures LogGrows(db.audit, Run(db, p).db.audit, kinds)
    decreases p
  {
    if p.Do? {
      RunDo(db, p.s, p.yes, p.no);
      if Ok(db, p.s) {
        ExecLogs(db, p.s);
        RunLogs(Exec(db, p.s), p.yes, kinds);
      } else {
        RunLogs(db, p.no, kinds);
      }
    }
  }

  lemma {:induction false} RunLogsNothing(db: State, p: Prog)
    requires LogsOnly(p, {}) && Run(db, p).Committed?
    ensures Run(db, p).db.audit == db.audit
    decreases p
  {
    if p.Do? {
      RunDo(db, p.s, p.yes, p.no);
      if Ok(db, p.s) {
        ExecLogs(db, p.s);
        RunLogsNothing(Exec(db, p.s), p.yes);
      } else {
        RunLogsNothing(db, p.no);
      }
    }
  }

  // ---- each transaction's code ----

  /** The kinds of entries a transaction may write. */
  function KindsOf(tx: Tx): set<AuditType> {
    match tx
    case Create(_, _, _, _, _, _, _) => {InventoryReserved}
    case Cancel(_, _, _) => {ReservationReleased}
    case Finish(_, _, _, _) => {ReservationReleased, OrderCompleted}
    case Expire(_, _) => {ReservationReleased}
    case Adjust(_, _, delta, _, _, _, _) => if delta >= 0 then {StockAdded} else {StockRemoved}
    case _ => {}
  }

  /** A statement that logs nothing, and stops when it does not match. */
  lemma LogsNothing(s: Stmt, yes: Prog, why: Ending, kinds: set<AuditType>)
    requires LogsOnly(yes, kinds) && !s.Audit?
    ensures LogsOnly(Do(s, yes, Stop(why)), kinds)
  {
    var no := Stop(why);
    assert LogsOnly(no, kinds);
  }

  lemma LogsOne(entry: AuditEntry, yes: Prog, kinds: set<AuditType>)
    requires LogsOnly(yes, kinds) && WellSigned(entry) && entry.kind in kinds
    ensures LogsOnly(Then(Audit(entry), yes), kinds)
  {
    var no := Stop(IntegrityError);
    assert LogsOnly(no, kinds);
  }

  lemma CheckLogs(p: ProductId, w: WarehouseId, delta: int, alert: AlertId, e: EventId, k: Prog, kinds: set<AuditType>)
    requires LogsOnly(k, kinds)
    ensures LogsOnly(CheckLow(p, w, delta, alert, e, k), kinds)
  {
    LogsNothing(RaiseAlert(p, w, alert, e), k, IntegrityError, kinds);
  }

  lemma ReleaseLogs(id: ReservationId, r: Reservation, o: OrderId, k: Prog, kinds: set<AuditType>)
    requires LogsOnly(k, kinds) && r.quantity > 0 && ReservationReleased in kinds
    ensures LogsOnly(ReleaseReservation(id, r, o, k), kinds)
  {
    var check := CheckLow(r.product, r.warehouse, r.quantity, 0, 0, k);
    CheckLogs(r.product, r.warehouse, r.quantity, 0, 0, k, kinds);
    LogsOne(Entry(r.product, r.warehouse, r.quantity, ReservationReleased, o), check, kinds);
  }

  lemma ConsumeLogs(id: ReservationId, r: Reservation, o: OrderId, k: Prog, kinds: set<AuditType>)
    requires LogsOnly(k, kinds) && r.quantity > 0 && OrderCompleted in kinds
    ensures LogsOnly(ConsumeReservation(id, r, o, k), kinds)
  {
    LogsOne(Entry(r.product, r.warehouse, -(r.quantity as int), OrderCompleted, o), k, kinds);
  }

  lemma {:induction false} SettleLogs(found: seq<Found>, o: OrderId, how: ReservationStatus, k: Prog,
                                      kinds: set<AuditType>)
    requires ActiveRows(found) && LogsOnly(k, kinds)
    requires if how.Consumed? then OrderCompleted in kinds else ReservationReleased in kinds
    ensures LogsOnly(Settle(found, o, how, k), kinds)
    decreases |found|
  {
    if found != [] {
      var id, r, rest := found[0].0, found[0].1, Settle(found[1..], o, how, k);
      assert forall i | 0 <= i < |found[1..]| :: found[1..][i] == found[i + 1];
      SettleLogs(found[1..], o, how, k, kinds);
      if how.Consumed? { ConsumeLogs(id, r, o, rest, kinds); } else { ReleaseLogs(id, r, o, rest, kinds); }
    }
  }

  lemma CancelLogs(o: OrderId, user: User, found: seq<Found>)
    requires ActiveRowsOf(found, o)
    ensures LogsOnly(CancelCode(o, user, found), {ReservationReleased})
  {
    var kinds, close := {ReservationReleased}, Then(OnOrder(o, SetStatus(Cancelled)), Commit);
    LogsNothing(OnOrder(o, SetStatus(Cancelled)), Commit, IntegrityError, kinds);
    SettleLogs(found, o, Released, close, kinds);
    var settle := Do(SelectActive(o, found), Settle(found, o, Released, close), Stop(OtherRead));
    LogsNothing(SelectActive(o, found), Settle(found, o, Released, close), OtherRead, kinds);
    var may := Do(OnOrder(o, IsCancellable), settle, Stop(CannotCancel));
    LogsNothing(OnOrder(o, IsCancellable), settle, CannotCancel, kinds);
    LogsNothing(OnOrder(o, IsVisible(user)), may, Forbidden, kinds);
  }

  lemma CloseLogs(o: OrderId, found: seq<Found>, how: ReservationStatus, status: OrderStatus, worker: Worker,
                  kinds: set<AuditType>)
    requires ActiveRows(found) && if how.Consumed? then OrderCompleted in kinds else ReservationReleased in kinds
    ensures var close := Then(OnOrder(o, SetStatus(status)), Then(OnWorker(o, Remember(worker)), Commit));
      && LogsOnly(close, kinds)
      && LogsOnly(Do(SelectActive(o, found), Settle(found, o, how, close), Stop(OtherRead)), kinds)
  {
    var forget := Then(OnWorker(o, Remember(worker)), Commit);
    LogsNothing(OnWorker(o, Remember(worker)), Commit, IntegrityError, kinds);
    LogsNothing(OnOrder(o, SetStatus(status)), forget, IntegrityError, kinds);
    var close := Then(OnOrder(o, SetStatus(status)), forget);
    SettleLogs(found, o, how, close, kinds);
    LogsNothing(SelectActive(o, found), Settle(found, o, how, close), OtherRead, kinds);
  }

  lemma FinishLogs(cfg: Config, o: OrderId, attempt: nat, token: string, found: seq<Found>)
    requires ActiveRowsOf(found, o)
    ensures LogsOnly(FinishCode(cfg, o, attempt, token, found), {ReservationReleased, OrderCompleted})
  {
    var kinds, body := {ReservationReleased, OrderCompleted}, Outcome(cfg, o, attempt, token, found);
    CloseLogs(o, found, Consumed, Completed, Idle, kinds);
    CloseLogs(o, found, Released, Reserved, Idle, kinds);
    if Charge(token).Declined? {
      CloseLogs(o, found, Released, Failed, AfterFailure(cfg, attempt, Charge(token).message), kinds);
    }
    assert LogsOnly(body, kinds);
    LogsNothing(OnOrder(o, LockOrder), body, OrderNotFound, kinds);
  }

  lemma {:induction false} GiveBackAllLogs(claims: seq<Found>, kinds: set<AuditType>)
    requires ActiveRows(claims) && ReservationReleased in kinds
    ensures LogsOnly(GiveBackAll(claims, Commit), kinds)
    decreases |claims|
  {
    if claims != [] {
      var r, rest := claims[0].1, GiveBackAll(claims[1..], Commit);
      assert forall i | 0 <= i < |claims[1..]| :: claims[1..][i] == claims[i + 1];
      GiveBackAllLogs(claims[1..], kinds);
      LogsNothing(OnOrder(r.order, SetStatus(Expired)), rest, IntegrityError, kinds);
      var look := Do(OnOrder(r.order, IsReserved), Then(OnOrder(r.order, SetStatus(Expired)), rest), rest);
      assert LogsOnly(look, kinds);
      LogsOne(Entry(r.product, r.warehouse, r.quantity, ReservationReleased, r.order), ExpireOrder(r.order, rest),
              kinds);
    }
  }

  lemma {:induction false} ExpireLogs(claims: seq<Found>, k: Prog, kinds: set<AuditType>)
    requires LogsOnly(k, kinds)
    ensures LogsOnly(ReleaseClaimed(claims, k), kinds)
    decreases |claims|
  {
    if claims != [] { ExpireLogs(claims[1..], k, kinds); }
  }

  lemma {:induction false} LockAllLogs(claims: seq<Found>, now: int, k: Prog, kinds: set<AuditType>)
    requires LogsOnly(k, kinds)
    ensures LogsOnly(LockAll(claims, now, k), kinds)
    decreases |claims|
  {
    if claims != [] { LockAllLogs(claims[1..], now, k, kinds); }
  }

  lemma {:induction false} InsertAllLogs(rows: seq<Found>, k: Prog, kinds: set<AuditType>)
    requires LogsOnly(k, kinds)
    ensures LogsOnly(InsertAll(rows, k), kinds)
    decreases |rows|
  {
    if rows != [] { InsertAllLogs(rows[1..], k, kinds); }
  }

  lemma {:induction false} LinesLog(lines: seq<Line>, picks: seq<Pick>, o: OrderId, k: Prog, kinds: set<AuditType>)
    requires |lines| == |picks| && LogsOnly(k, kinds) && InventoryReserved in kinds
    requires forall i | 0 <= i < |lines| :: lines[i].quantity > 0
    ensures LogsOnly(ReserveLines(lines, picks, o, k), kinds)
    decreases |lines|
  {
    if lines != [] && picks[0].warehouse.Some? {
      var p, w, q := lines[0].product, picks[0].warehouse.value, lines[0].quantity;
      var rest := ReserveLines(lines[1..], picks[1..], o, k);
      LinesLog(lines[1..], picks[1..], o, k, kinds);
      CheckLogs(p, w, -(q as int), picks[0].alert, picks[0].event, rest, kinds);
      LogsOne(Entry(p, w, -(q as int), InventoryReserved, o),
              CheckLow(p, w, -(q as int), picks[0].alert, picks[0].event, rest), kinds);
    }
  }

  lemma InsertRowsLog(o: OrderId, row: Order, rows: seq<Found>, e: EventId, key: Option<string>, kinds: set<AuditType>)
    ensures LogsOnly(InsertRows(o, row, rows, e, LastStep(key, o, row)), kinds)
  {
    var last := LastStep(key, o, row);
    if Claims(key) { LogsNothing(OnKey(key.value, CompleteKey(o, Serialize(o, row))), Commit, IntegrityError, kinds); }
    LogsNothing(OnEvent(e, InsertEvent(OrderReserved(o))), last, IntegrityError, kinds);
    InsertAllLogs(rows, Then(OnEvent(e, InsertEvent(OrderReserved(o))), last), kinds);
  }

  lemma BodyLogs(cfg: Config, tx: Tx)
    requires tx.Create? && Legal(tx)
    ensures LogsOnly(CreateBody(cfg, tx.payload, tx.user, tx.key, tx.order, tx.event, tx.now, tx.picks),
                     {InventoryReserved})
  {
    BodyIs(cfg, tx);
    if forall l | l in tx.payload.items :: l.product in cfg.prices {
      var row, kinds := OrderOf(cfg, tx), {InventoryReserved};
      var rows := ReservationsFor(tx.payload.items, tx.picks, tx.order, tx.now + cfg.timeout);
      var insert := InsertRows(tx.order, row, rows, tx.event, LastStep(tx.key, tx.order, row));
      InsertRowsLog(tx.order, row, rows, tx.event, tx.key, kinds);
      LinesLog(tx.payload.items, tx.picks, tx.order, insert, kinds);
      LogsNothing(Sample(tx.now), ReserveLines(tx.payload.items, tx.picks, tx.order, insert), OtherRead, kinds);
    }
  }

  lemma CreateLogs(cfg: Config, tx: Tx)
    requires tx.Create? && Legal(tx)
    ensures LogsOnly(Code(cfg, tx), {InventoryReserved})
  {
    BodyLogs(cfg, tx);
    if Claims(tx.key) {
      var key, payload, kinds := tx.key.value, tx.payload, {InventoryReserved};
      var answer := Do(OnKey(key, IsCompleted), Stop(Replayed), Stop(KeyConflict));
      LogsNothing(OnKey(key, IsCompleted), Stop(Replayed), KeyConflict, kinds);
      LogsNothing(OnKey(key, HashMatches(payload)), answer, HashMismatch, kinds);
      LogsNothing(OnKey(key, LockKey), Do(OnKey(key, HashMatches(payload)), answer, Stop(HashMismatch)),
                  InvalidRequest, kinds);
    }
  }

  lemma AdjustLogs(cfg: Config, tx: Tx)
    requires tx.Adjust?
    ensures LogsOnly(Code(cfg, tx), KindsOf(tx))
  {
    var kind := if tx.delta >= 0 then StockAdded else StockRemoved;
    var entry, kinds := AuditEntry(tx.p, tx.w, tx.delta, kind, Note(tx.reason)), KindsOf(tx);
    LogsOne(entry, Commit, kinds);
    CheckLogs(tx.p, tx.w, tx.delta, tx.alert, tx.event, Then(Audit(entry), Commit), kinds);
  }

  lemma {:induction false} RelayLogs(events: seq<EventId>, all: seq<EventId>)
    ensures LogsOnly(LockEvents(events, PublishEvents(all, Commit)), {})
    decreases |events|
  {
    if events == [] { PublishLogs(all); } else { RelayLogs(events[1..], all); }
  }

  lemma {:induction false} PublishLogs(events: seq<EventId>)
    ensures LogsOnly(PublishEvents(events, Commit), {})
    decreases |events|
  {
    if events != [] {
      PublishLogs(events[1..]);
      LogsNothing(OnEvent(events[0], MarkPublished), PublishEvents(events[1..], Commit), IntegrityError, {});
    }
  }

  lemma SmallTxLogs(cfg: Config, tx: Tx)
    requires tx.Begin? || tx.Record? || tx.Threshold?
    ensures LogsOnly(Code(cfg, tx), {})
  {
    if tx.Begin? {
      LogsNothing(StartProcessing(tx.order), Commit, IntegrityError, {});
      LogsNothing(OnOrder(tx.order, IsReserved), Then(StartProcessing(tx.order), Commit), NothingToDo, {});
    } else if tx.Record? {
      LogsNothing(OnWorker(tx.order, Remember(Idle)), Commit, IntegrityError, {});
      LogsNothing(InsertDeadLetter(DeadLetter(tx.order, tx.reason, tx.attempt)),
                  Then(OnWorker(tx.order, Remember(Idle)), Commit), IntegrityError, {});
    }
  }

  /** Of all nine transactions: only the kinds that are theirs, and each with its sign. */
  lemma CodeLogs(cfg: Config, tx: Tx)
    requires Legal(tx)
    ensures LogsOnly(Code(cfg, tx), KindsOf(tx))
  {
    match tx
    case Create(_, _, _, _, _, _, _) => CreateLogs(cfg, tx);
    case Cancel(o, user, found) => CancelLogs(o, user, found);
    case Finish(o, attempt, token, found) => FinishLogs(cfg, o, attempt, token, found);
    case Expire(now, claims) =>
      GiveBackAllLogs(claims, {ReservationReleased});
      ExpireLogs(claims, GiveBackAll(claims, Commit), {ReservationReleased});
      LockAllLogs(claims, now, ReleaseClaimed(claims, GiveBackAll(claims, Commit)), {ReservationReleased});
    case Adjust(_, _, _, _, _, _, _) => AdjustLogs(cfg, tx);
    case Relay(events) => RelayLogs(events, events);
    case _ => SmallTxLogs(cfg, tx);
  }

  // ---- runs ----

  function StepKinds(s: Step): set<AuditType> { if s.Does? then KindsOf(s.tx) else {} }

  lemma StepLogs(db: State, s: Step, db': State)
    requires Next(db, s, db')
    ensures LogGrows(db.audit, db'.audit, StepKinds(s))
  {
    if s.Does? {
      CodeLogs(db.cfg, s.tx);
      RunLogs(db, Code(db.cfg, s.tx), KindsOf(s.tx));
    }
  }

  /** Every entry of every reachable log is of its sign: deliveries are logged STOCK_ADDED and write-offs
      STOCK_REMOVED, and no log is ever shortened or rewritten. */
  lemma {:induction false} LogsAreWellSigned(states: seq<State>, steps: seq<Step>, n: nat)
    requires IsRun(states, steps) && n < |states|
    ensures forall i | 0 <= i < |states[n].audit| :: WellSigned(states[n].audit[i])
    ensures n > 0 ==> states[n - 1].audit <= states[n].audit
  {
    if n > 0 {
      LogsAreWellSigned(states, steps, n - 1);
      StepLogs(states[n - 1], steps[n - 1], states[n]);
    }
  }

  // ---- what a transaction does not log, it does not move ----

  lemma {:induction false} NoneLogged(log: seq<AuditEntry>, p: ProductId, w: WarehouseId, o: Option<OrderId>,
                                      kinds: set<AuditType>)
    requires forall i | 0 <= i < |log| :: log[i].kind !in kinds
    ensures Logged(log, p, w, o, kinds) == 0
    decreases |log|
  {
    if log != [] { NoneLogged(log[..|log| - 1], p, w, o, kinds); }
  }

  lemma OthersLogged(a: seq<AuditEntry>, b: seq<AuditEntry>, kinds: set<AuditType>, others: set<AuditType>,
                     p: ProductId, w: WarehouseId, o: Option<OrderId>)
    requires LogGrows(a, b, kinds) && kinds !! others
    ensures Logged(b, p, w, o, others) == Logged(a, p, w, o, others)
  {
    assert b == a + b[|a|..];
    LoggedAppend(a, b[|a|..], p, w, o, others);
    NoneLogged(b[|a|..], p, w, o, others);
  }

  /** Only what reservations gave back became available, and only what they hold is reserved. */
  ghost predicate OnlyGaveBack(a: State, b: State) {
    forall p, w ::
      && AvailableAt(b, p, w) - AvailableAt(a, p, w) ==
         Units(b.reservations, p, w, None, {Released}) - Units(a.reservations, p, w, None, {Released})
      && ReservedAt(b, p, w) == Units(b.reservations, p, w, None, {Active})
  }

  const SETTLING := {ReservationReleased, OrderCompleted}

  lemma AvailableByUnits(db: State, p: ProductId, w: WarehouseId)
    requires Inv(db)
    ensures AvailableAt(db, p, w) == Logged(db.audit, p, w, None, ADJUSTMENTS)
      + Logged(db.audit, p, w, None, {InventoryReserved}) + Units(db.reservations, p, w, None, {Released})
    ensures ReservedAt(db, p, w) == Units(db.reservations, p, w, None, {Active})
  {
    AuditRebuildsStock(db, p, w);
    EachUnitLoggedOnce(db, None, p, w);
    ReservedIsHeld(db, p, w);
    LoggedSplit(db.audit, p, w, None, ADJUSTMENTS, {InventoryReserved, ReservationReleased});
    LoggedSplit(db.audit, p, w, None, {InventoryReserved}, {ReservationReleased});
    assert ADJUSTMENTS + {InventoryReserved, ReservationReleased} == NOT_COMPLETION;
    assert {InventoryReserved} + {ReservationReleased} == {InventoryReserved, ReservationReleased};
  }

  lemma SettlingGivesBack(a: State, b: State)
    requires Inv(a) && Inv(b) && LogGrows(a.audit, b.audit, SETTLING)
    ensures OnlyGaveBack(a, b)
  {
    forall p, w
      ensures AvailableAt(b, p, w) - AvailableAt(a, p, w) ==
        Units(b.reservations, p, w, None, {Released}) - Units(a.reservations, p, w, None, {Released})
      ensures ReservedAt(b, p, w) == Units(b.reservations, p, w, None, {Active})
    {
      AvailableByUnits(a, p, w);
      AvailableByUnits(b, p, w);
      OthersLogged(a.audit, b.audit, SETTLING, ADJUSTMENTS, p, w, None);
      OthersLogged(a.audit, b.audit, SETTLING, {InventoryReserved}, p, w, None);
    }
  }

  /** Cancelling, processing and expiring orders move stock by what their reservations gave back, and no other way. */
  lemma StepGivesBack(db: State, s: Step, db': State)
    requires Inv(db) && Next(db, s, db') && StepKinds(s) <= SETTLING
    ensures OnlyGaveBack(db, db')
  {
    StepLogs(db, s, db');
    NextKeepsInv(db, s, db');
    SettlingGivesBack(db, db');
  }
}

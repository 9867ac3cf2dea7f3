/** Wherever the code of a transaction gives stock back, it can still commit. */
module GiveBacks {
  import opened Schema
  import opened Statements
  import opened Transactions
  import opened Discipline
  import opened Effects

  predicate GiveBacksCommit(p: Prog) {
    match p
    case Do(s, yes, no) => (GivesBack(s) ==> !Quiet(p)) && GiveBacksCommit(yes) && GiveBacksCommit(no)
    case _ => true
  }

  /** A statement that is no give-back, and stops when it does not match. */
  lemma GoesOn(s: Stmt, yes: Prog, why: Ending)
    requires GiveBacksCommit(yes) && !GivesBack(s)
    ensures GiveBacksCommit(Do(s, yes, Stop(why))) && Quiet(Do(s, yes, Stop(why))) == Quiet(yes)
  {
    var no := Stop(why);
    assert GiveBacksCommit(no) && Quiet(no);
  }

  lemma {:induction false} SettleCommits(found: seq<Found>, o: OrderId, how: ReservationStatus, k: Prog)
    requires GiveBacksCommit(k) && !Quiet(k)
    ensures GiveBacksCommit(Settle(found, o, how, k)) && !Quiet(Settle(found, o, how, k))
    decreases |found|
  {
    if found != [] {
      var id, r, rest := found[0].0, found[0].1, Settle(found[1..], o, how, k);
      SettleCommits(found[1..], o, how, k);
      if how.Consumed? { ConsumeCommits(id, r, o, rest); } else { ReleaseCommits(id, r, o, rest); }
    }
  }

  lemma ConsumeCommits(id: ReservationId, r: Reservation, o: OrderId, k: Prog)
    requires GiveBacksCommit(k) && !Quiet(k)
    ensures GiveBacksCommit(ConsumeReservation(id, r, o, k)) && !Quiet(ConsumeReservation(id, r, o, k))
  {
    var entry := Audit(Entry(r.product, r.warehouse, -(r.quantity as int), OrderCompleted, o));
    var log := Then(entry, k);
    GoesOn(entry, k, IntegrityError);
    var give := Ignoring(OnStock(r.product, r.warehouse, Consume(r.quantity)), log);
    assert GiveBacksCommit(give) && !Quiet(give);
  }

  lemma ReleaseCommits(id: ReservationId, r: Reservation, o: OrderId, k: Prog)
    requires GiveBacksCommit(k) && !Quiet(k)
    ensures GiveBacksCommit(ReleaseReservation(id, r, o, k)) && !Quiet(ReleaseReservation(id, r, o, k))
  {
    var check := CheckLow(r.product, r.warehouse, r.quantity, 0, 0, k);
    assert GiveBacksCommit(check) && !Quiet(check);
    var entry := Audit(Entry(r.product, r.warehouse, r.quantity, ReservationReleased, o));
    var log := Then(entry, check);
    GoesOn(entry, check, IntegrityError);
    var give := Ignoring(OnStock(r.product, r.warehouse, Release(r.quantity)), log);
    assert GiveBacksCommit(give) && !Quiet(give);
  }

  lemma {:induction false} GiveBackAllCommits(claims: seq<Found>)
    ensures GiveBacksCommit(GiveBackAll(claims, Commit)) && !Quiet(GiveBackAll(claims, Commit))
    decreases |claims|
  {
    if claims != [] {
      var r, rest := claims[0].1, GiveBackAll(claims[1..], Commit);
      GiveBackAllCommits(claims[1..]);
      var mark := Then(OnOrder(r.order, SetStatus(Expired)), rest);
      GoesOn(OnOrder(r.order, SetStatus(Expired)), rest, IntegrityError);
      var look := Do(OnOrder(r.order, IsReserved), mark, rest);
      assert GiveBacksCommit(look) && !Quiet(look);
      var expire := ExpireOrder(r.order, rest);
      assert GiveBacksCommit(expire) && !Quiet(expire);
      GoesOn(Audit(Entry(r.product, r.warehouse, r.quantity, ReservationReleased, r.order)), expire, IntegrityError);
    }
  }

  lemma {:induction false} ExpireCommits(claims: seq<Found>, all: seq<Found>, now: int)
    ensures GiveBacksCommit(ReleaseClaimed(claims, GiveBackAll(all, Commit)))
    decreases |claims|
  {
    if claims == [] { GiveBackAllCommits(all); } else { ExpireCommits(claims[1..], all, now); }
  }

  lemma {:induction false} LockAllCommits(claims: seq<Found>, now: int, k: Prog)
    requires GiveBacksCommit(k)
    ensures GiveBacksCommit(LockAll(claims, now, k))
    decreases |claims|
  {
    if claims != [] { LockAllCommits(claims[1..], now, k); }
  }

  lemma {:induction false} InsertAllCommits(rows: seq<Found>, k: Prog)
    requires GiveBacksCommit(k)
    ensures GiveBacksCommit(InsertAll(rows, k))
    decreases |rows|
  {
    if rows != [] { InsertAllCommits(rows[1..], k); }
  }

  lemma {:induction false} ReserveLinesCommits(lines: seq<Line>, picks: seq<Pick>, o: OrderId, k: Prog)
    requires |lines| == |picks| && GiveBacksCommit(k)
    ensures GiveBacksCommit(ReserveLines(lines, picks, o, k))
    decreases |lines|
  {
    if lines != [] && picks[0].warehouse.Some? {
      var p, w, q := lines[0].product, picks[0].warehouse.value, lines[0].quantity;
      var rest := ReserveLines(lines[1..], picks[1..], o, k);
      ReserveLinesCommits(lines[1..], picks[1..], o, k);
      var check := CheckLow(p, w, -(q as int), picks[0].alert, picks[0].event, rest);
      GoesOn(RaiseAlert(p, w, picks[0].alert, picks[0].event), rest, IntegrityError);
      assert GiveBacksCommit(check);
      GoesOn(Audit(Entry(p, w, -(q as int), InventoryReserved, o)), check, IntegrityError);
    }
  }

  lemma {:induction false} RelayCommits(events: seq<EventId>, all: seq<EventId>)
    ensures GiveBacksCommit(LockEvents(events, PublishEvents(all, Commit)))
    decreases |events|
  {
    if events == [] { PublishCommits(all); } else { RelayCommits(events[1..], all); }
  }

  lemma {:induction false} PublishCommits(events: seq<EventId>)
    ensures GiveBacksCommit(PublishEvents(events, Commit))
    decreases |events|
  {
    if events != [] {
      PublishCommits(events[1..]);
      GoesOn(OnEvent(events[0], MarkPublished), PublishEvents(events[1..], Commit), IntegrityError);
    }
  }

  lemma CreateCommits(cfg: Config, tx: Tx)
    requires tx.Create? && Legal(tx)
    ensures GiveBacksCommit(Code(cfg, tx))
  {
    if forall l | l in tx.payload.items :: l.product in cfg.prices {
      var row := OrderOf(cfg, tx);
      var rows := ReservationsFor(tx.payload.items, tx.picks, tx.order, tx.now + cfg.timeout);
      var last := LastStep(tx.key, tx.order, row);
      var announce := Then(OnEvent(tx.event, InsertEvent(OrderReserved(tx.order))), last);
      assert GiveBacksCommit(last);
      GoesOn(OnEvent(tx.event, InsertEvent(OrderReserved(tx.order))), last, IntegrityError);
      InsertAllCommits(rows, announce);
      var insert := InsertRows(tx.order, row, rows, tx.event, last);
      assert GiveBacksCommit(insert);
      ReserveLinesCommits(tx.payload.items, tx.picks, tx.order, insert);
    }
    var body := CreateBody(cfg, tx.payload, tx.user, tx.key, tx.order, tx.event, tx.now, tx.picks);
    assert GiveBacksCommit(body);
    if Claims(tx.key) { KeyTakenCommits(tx.key.value, tx.payload); }
  }

  lemma KeyTakenCommits(key: string, payload: Payload)
    ensures GiveBacksCommit(KeyTaken(key, payload))
  {
    var done := Do(OnKey(key, IsCompleted), Stop(Replayed), Stop(KeyConflict));
    GoesOn(OnKey(key, IsCompleted), Stop(Replayed), KeyConflict);
    GoesOn(OnKey(key, HashMatches(payload)), done, HashMismatch);
  }

  lemma CancelCommits(o: OrderId, user: User, found: seq<Found>)
    ensures GiveBacksCommit(CancelCode(o, user, found))
  {
    var close := Then(OnOrder(o, SetStatus(Cancelled)), Commit);
    var settle := Do(SelectActive(o, found), Settle(found, o, Released, close), Stop(OtherRead));
    GoesOn(OnOrder(o, SetStatus(Cancelled)), Commit, IntegrityError);
    SettleCommits(found, o, Released, close);
    GoesOn(SelectActive(o, found), Settle(found, o, Released, close), OtherRead);
    var may := Do(OnOrder(o, IsCancellable), settle, Stop(CannotCancel));
    GoesOn(OnOrder(o, IsCancellable), settle, CannotCancel);
    GoesOn(OnOrder(o, IsVisible(user)), may, Forbidden);
  }

  lemma CloseCommits(o: OrderId, found: seq<Found>, how: ReservationStatus, status: OrderStatus, worker: Worker)
    ensures var close := Then(OnOrder(o, SetStatus(status)), Then(OnWorker(o, Remember(worker)), Commit));
      && GiveBacksCommit(close)
      && GiveBacksCommit(Do(SelectActive(o, found), Settle(found, o, how, close), Stop(OtherRead)))
  {
    var forget := Then(OnWorker(o, Remember(worker)), Commit);
    GoesOn(OnWorker(o, Remember(worker)), Commit, IntegrityError);
    var close := Then(OnOrder(o, SetStatus(status)), forget);
    GoesOn(OnOrder(o, SetStatus(status)), forget, IntegrityError);
    SettleCommits(found, o, how, close);
  }

  lemma FinishCommits(cfg: Config, o: OrderId, attempt: nat, token: string, found: seq<Found>)
    ensures GiveBacksCommit(FinishCode(cfg, o, attempt, token, found))
  {
    var s := SettlementOf(cfg, attempt, token);
    CloseCommits(o, found, if s.reservations.Some? then s.reservations.value else Released, s.status, s.worker);
    assert GiveBacksCommit(Outcome(cfg, o, attempt, token, found));
    GoesOn(OnOrder(o, LockOrder), Outcome(cfg, o, attempt, token, found), OrderNotFound);
  }

  lemma SmallTxCommits(cfg: Config, tx: Tx)
    requires Legal(tx) && (tx.Begin? || tx.Record? || tx.Threshold?)
    ensures GiveBacksCommit(Code(cfg, tx))
  {
    if tx.Begin? {
      var start := Then(StartProcessing(tx.order), Commit);
      GoesOn(StartProcessing(tx.order), Commit, IntegrityError);
      GoesOn(OnOrder(tx.order, IsReserved), start, NothingToDo);
    } else if tx.Record? {
      var forget := Then(OnWorker(tx.order, Remember(Idle)), Commit);
      GoesOn(OnWorker(tx.order, Remember(Idle)), Commit, IntegrityError);
      GoesOn(InsertDeadLetter(DeadLetter(tx.order, tx.reason, tx.attempt)), forget, IntegrityError);
    }
  }

  lemma AdjustCommits(cfg: Config, tx: Tx)
    requires tx.Adjust?
    ensures GiveBacksCommit(Code(cfg, tx))
  {
    var kind := if tx.delta >= 0 then StockAdded else StockRemoved;
    var log := Then(Audit(AuditEntry(tx.p, tx.w, tx.delta, kind, Note(tx.reason))), Commit);
    GoesOn(Audit(AuditEntry(tx.p, tx.w, tx.delta, kind, Note(tx.reason))), Commit, IntegrityError);
    GoesOn(RaiseAlert(tx.p, tx.w, tx.alert, tx.event), log, IntegrityError);
    assert GiveBacksCommit(CheckLow(tx.p, tx.w, tx.delta, tx.alert, tx.event, log));
  }

  lemma CodeCommits(cfg: Config, tx: Tx)
    requires Legal(tx)
    ensures GiveBacksCommit(Code(cfg, tx))
  {
    match tx
    case Create(_, _, _, _, _, _, _) => CreateCommits(cfg, tx);
    case Cancel(o, user, found) => CancelCommits(o, user, found);
    case Finish(o, attempt, token, found) => FinishCommits(cfg, o, attempt, token, found);
    case Expire(now, claims) =>
      ExpireCommits(claims, claims, now);
      LockAllCommits(claims, now, ReleaseClaimed(claims, GiveBackAll(claims, Commit)));
    case Adjust(_, _, _, _, _, _, _) => AdjustCommits(cfg, tx);
    case Relay(events) => RelayCommits(events, events);
    case _ => SmallTxCommits(cfg, tx);
  }
}

/** Every transaction of the service is well typed and leaves no ledger in debt. */
module WellTyped {
  import opened Schema
  import opened Statements
  import opened Transactions
  import opened Ledgers
  import opened Discipline

  ghost predicate NoDebt(p: Prog) { forall l :: Debt(p, l) == 0 }

  ghost predicate SameDebts(a: Prog, b: Prog) { forall l :: Debt(a, l) == Debt(b, l) }

  ghost predicate NothingActive(facts: set<Fact>) { forall id :: StillActive(id) !in facts }

  /** Knowing more never hurts. */
  lemma {:induction false} TypedMonotone(p: Prog, facts: set<Fact>, more: set<Fact>, due: set<Stock>)
    requires Typed(p, facts, due) && facts <= more
    ensures Typed(p, more, due)
    decreases p
  {
    if p.Do? {
      assert Kept(p.s, facts) <= Kept(p.s, more);
      TypedMonotone(p.yes, Learn(p.s, facts), Learn(p.s, more), Unchecked(p.s, due));
      if !Quiet(p.no) && !Surely(p.s, facts) {
        TypedMonotone(p.no, Kept(p.s, facts), Kept(p.s, more), Unchecked(p.s, due));
      }
    }
  }

  /** With no row held as ACTIVE, statements only add to what is known. */
  lemma OnlyLearn(s: Stmt, facts: set<Fact>)
    requires NothingActive(facts) && (s.OnReservation? ==> !s.reservation.LockExpired?)
    ensures facts <= Learn(s, facts) && NothingActive(Learn(s, facts))
    ensures forall k | k in Rows(s) :: Owns(k) in Learn(s, facts)
  {
  }

  /** The statements that move no ledger. */
  predicate Neutral(s: Stmt) {
    !s.Audit? && (s.OnStock? ==> s.stock.FlipLowStock? || s.stock.ResetLowStock? || s.stock.SetThreshold?)
    && (s.OnReservation? ==> s.reservation.LockExpired?)
  }

  /** The usual step: the code goes on when the statement matched and otherwise commits nothing. */
  lemma Guard(s: Stmt, yes: Prog, no: Prog, facts: set<Fact>, due: set<Stock>)
    requires Needs(s, facts) && !GivesBack(s) && Quiet(no)
    requires Typed(yes, Learn(s, facts), Unchecked(s, due))
    ensures var p := Do(s, yes, no);
      Typed(p, facts, due) && Quiet(p) == Quiet(yes) && (Neutral(s) && NoDebt(yes) ==> NoDebt(p))
    ensures forall l :: Debt(Do(s, yes, no), l) == Change(s, l) + Debt(yes, l)
  {
  }

  /** Downwards: the flag, and the alert if it went up. */
  lemma FallTyped(p: ProductId, w: WarehouseId, alert: AlertId, e: EventId, k: Prog, facts: set<Fact>, due: set<Stock>)
    requires Owns(StockRow(p, w)) in facts && NothingActive(facts) && Typed(k, facts, due - {(p, w)})
    ensures var code := CheckLow(p, w, -1, alert, e, k);
      Typed(code, facts, due) && SameDebts(code, k) && Quiet(code) == Quiet(k)
  {
    var flip, raise := OnStock(p, w, FlipLowStock), RaiseAlert(p, w, alert, e);
    TypedMonotone(k, facts, Learn(raise, Learn(flip, facts)), due - {(p, w)});
    Guard(raise, k, Stop(IntegrityError), Learn(flip, facts), due - {(p, w)});
  }

  lemma CheckLowTyped(p: ProductId, w: WarehouseId, delta: int, alert: AlertId, e: EventId, k: Prog,
                      facts: set<Fact>, due: set<Stock>)
    requires Owns(StockRow(p, w)) in facts && NothingActive(facts)
    requires Typed(k, facts, if delta < 0 then due - {(p, w)} else due)
    ensures var code := CheckLow(p, w, delta, alert, e, k);
      Typed(code, facts, due) && SameDebts(code, k) && Quiet(code) == Quiet(k)
  {
    if delta < 0 {
      FallTyped(p, w, alert, e, k, facts, due);
    } else if delta > 0 {
      TypedMonotone(k, facts, Learn(OnStock(p, w, ResetLowStock), facts), due);
    }
  }

  ghost predicate AllKnown(found: seq<Found>, facts: set<Fact>) {
    forall i | 0 <= i < |found| :: Known(found[i].0, found[i].1) in facts
  }

  lemma {:induction false} SettleTyped(found: seq<Found>, o: OrderId, how: ReservationStatus, k: Prog, facts: set<Fact>)
    requires ActiveRowsOf(found, o) && AllKnown(found, facts) && NothingActive(facts)
    requires Typed(k, facts, {}) && NoDebt(k) && !Quiet(k)
    ensures var p := Settle(found, o, how, k); Typed(p, facts, {}) && NoDebt(p) && !Quiet(p)
    decreases |found|
  {
    if found != [] {
      var (id, r) := found[0];
      TailKnown(found, o, facts);
      SettleTyped(found[1..], o, how, k, facts);
      if how.Consumed? {
        ConsumeTyped(id, r, o, Settle(found[1..], o, how, k), facts);
      } else {
        ReleaseTyped(id, r, o, Settle(found[1..], o, how, k), facts);
      }
    }
  }

  lemma TailKnown(found: seq<Found>, o: OrderId, facts: set<Fact>)
    requires ActiveRowsOf(found, o) && AllKnown(found, facts) && found != []
    ensures ActiveRowsOf(found[1..], o) && AllKnown(found[1..], facts)
    ensures var (id, r) := found[0]; Known(id, r) in facts && r.order == o && r.status.Active? && r.quantity > 0
  {
    assert forall i | 0 <= i < |found[1..]| :: found[1..][i] == found[i + 1];
  }

  lemma ConsumeTyped(id: ReservationId, r: Reservation, o: OrderId, rest: Prog, facts: set<Fact>)
    requires Known(id, r) in facts && NothingActive(facts) && r.order == o && r.status.Active? && r.quantity > 0
    requires Typed(rest, facts, {}) && NoDebt(rest) && !Quiet(rest)
    ensures var p := ConsumeReservation(id, r, o, rest);
      Typed(p, facts, {}) && NoDebt(p) && !Quiet(p)
  {
    var mark := OnReservation(id, MarkConsumed(r));
    var give := OnStock(r.product, r.warehouse, Consume(r.quantity));
    var log := Audit(Entry(r.product, r.warehouse, -(r.quantity as int), OrderCompleted, o));
    OnlyLearn(mark, facts);
    OnlyLearn(give, Learn(mark, facts));
    OnlyLearn(log, Learn(give, Learn(mark, facts)));
    TypedMonotone(rest, facts, Learn(log, Learn(give, Learn(mark, facts))), {});
    Guard(log, rest, Stop(IntegrityError), Learn(give, Learn(mark, facts)), {});
    ConsumeBalances(r);
    GiveTyped(mark, give, log, Then(log, rest), rest, facts);
  }

  lemma ReleaseTyped(id: ReservationId, r: Reservation, o: OrderId, rest: Prog, facts: set<Fact>)
    requires Known(id, r) in facts && NothingActive(facts) && r.order == o && r.status.Active? && r.quantity > 0
    requires Typed(rest, facts, {}) && NoDebt(rest) && !Quiet(rest)
    ensures var p := ReleaseReservation(id, r, o, rest);
      Typed(p, facts, {}) && NoDebt(p) && !Quiet(p)
  {
    var mark := OnReservation(id, MarkReleased(r));
    var give := OnStock(r.product, r.warehouse, Release(r.quantity));
    var log := Audit(Entry(r.product, r.warehouse, r.quantity, ReservationReleased, o));
    var tail := CheckLow(r.product, r.warehouse, r.quantity, 0, 0, rest);
    var after := Learn(log, Learn(give, Learn(mark, facts)));
    OnlyLearn(mark, facts);
    OnlyLearn(give, Learn(mark, facts));
    OnlyLearn(log, Learn(give, Learn(mark, facts)));
    TypedMonotone(rest, facts, after, {});
    CheckLowTyped(r.product, r.warehouse, r.quantity, 0, 0, rest, after, {});
    Guard(log, tail, Stop(IntegrityError), Learn(give, Learn(mark, facts)), {});
    ReleaseBalances(r);
    GiveTyped(mark, give, log, Then(log, tail), rest, facts);
  }

  lemma ConsumeBalances(r: Reservation)
    requires r.status.Active?
    ensures forall l ::
      ReservationChange(MarkConsumed(r), l) + Change(OnStock(r.product, r.warehouse, Consume(r.quantity)), l)
      + Change(Audit(Entry(r.product, r.warehouse, -(r.quantity as int), OrderCompleted, r.order)), l) == 0
  {
  }

  lemma ReleaseBalances(r: Reservation)
    requires r.status.Active?
    ensures forall l ::
      ReservationChange(MarkReleased(r), l) + Change(OnStock(r.product, r.warehouse, Release(r.quantity)), l)
      + Change(Audit(Entry(r.product, r.warehouse, r.quantity, ReservationReleased, r.order)), l) == 0
  {
  }

  /** A status change and the give-back it announces. */
  lemma GiveTyped(mark: Stmt, give: Stmt, log: Stmt, logged: Prog, rest: Prog, facts: set<Fact>)
    requires Marks(mark) && Needs(mark, facts) && GivesBack(give) && give.stock.q > 0
    requires Typed(logged, Learn(give, Learn(mark, facts)), {}) && !Quiet(logged)
    requires forall l :: Debt(logged, l) == Change(log, l)
    requires forall l :: Change(mark, l) + Change(give, l) + Change(log, l) == 0
    requires Change(log, Held(give.p, give.w)) == 0
    requires Typed(rest, facts, {}) && NoDebt(rest) && !Quiet(rest) && NothingActive(facts)
    ensures var p := Do(mark, Ignoring(give, logged), rest); Typed(p, facts, {}) && NoDebt(p) && !Quiet(p)
  {
    assert Debt(logged, Held(give.p, give.w)) == 0;
    var given := Ignoring(give, logged);
    assert Typed(given, Learn(mark, facts), {});
    assert forall l :: Debt(given, l) == Change(give, l) + Change(log, l);
    assert Kept(mark, facts) == facts;
    assert SameDebt(rest, mark, given);
  }

  // ---- create_order ----

  ghost function WeightSum(rows: seq<Found>, l: Ledger): int {
    if rows == [] then 0 else ReservationWeight(l, rows[0].1) + WeightSum(rows[1..], l)
  }

  predicate AllPicked(picks: seq<Pick>) { forall i | 0 <= i < |picks| :: picks[i].warehouse.Some? }

  lemma {:induction false} ReserveTyped(lines: seq<Line>, picks: seq<Pick>, o: OrderId, expiresAt: int, k: Prog,
                                        facts: set<Fact>)
    requires |lines| == |picks| && Typed(k, facts, {}) && NothingActive(facts) && !Quiet(k)
    ensures Typed(ReserveLines(lines, picks, o, k), facts, {})
    ensures !AllPicked(picks) ==> Quiet(ReserveLines(lines, picks, o, k))
    ensures AllPicked(picks) ==> !Quiet(ReserveLines(lines, picks, o, k)) && forall l ::
      Debt(ReserveLines(lines, picks, o, k), l) ==
        Debt(k, l) - WeightSum(ReservationsFor(lines, picks, o, expiresAt), l)
    decreases |lines|
  {
    if lines != [] && picks[0].warehouse.Some? {
      ReserveTyped(lines[1..], picks[1..], o, expiresAt, k, facts);
      ReserveLineTyped(lines[0], picks[0], o, expiresAt, ReserveLines(lines[1..], picks[1..], o, k), facts);
      var rows := ReservationsFor(lines, picks, o, expiresAt);
      assert rows[1..] == ReservationsFor(lines[1..], picks[1..], o, expiresAt);
      assert AllPicked(picks) == AllPicked(picks[1..]) by {
        assert forall i | 0 <= i < |picks[1..]| :: picks[1..][i] == picks[i + 1];
      }
    }
  }

  lemma ReserveLineTyped(line: Line, pick: Pick, o: OrderId, expiresAt: int, rest: Prog, facts: set<Fact>)
    requires pick.warehouse.Some? && Typed(rest, facts, {}) && NothingActive(facts)
    ensures var code := Reserve(line.product, pick.warehouse.value, line.quantity, pick, o, rest);
      && Typed(code, facts, {}) && Quiet(code) == Quiet(rest)
      && forall l :: Debt(code, l) == Debt(rest, l) - ReservationWeight(l, ReservationFor(line, pick, o, expiresAt))
  {
    ReserveShapeTyped(line, pick, o, rest, facts);
    var p, w, q := line.product, pick.warehouse.value, line.quantity;
    ReserveBalances(p, w, q, o, ReservationFor(line, pick, o, expiresAt));
  }

  lemma ReserveShapeTyped(line: Line, pick: Pick, o: OrderId, rest: Prog, facts: set<Fact>)
    requires pick.warehouse.Some? && Typed(rest, facts, {}) && NothingActive(facts)
    ensures var p, w, q := line.product, pick.warehouse.value, line.quantity;
      var code := Reserve(p, w, q, pick, o, rest);
      && Typed(code, facts, {}) && Quiet(code) == Quiet(rest)
      && forall l :: Debt(code, l) == Change(OnStock(p, w, TryReserve(q)), l)
           + Change(Audit(Entry(p, w, -(q as int), InventoryReserved, o)), l) + Debt(rest, l)
  {
    var p, w, q := line.product, pick.warehouse.value, line.quantity;
    var take := OnStock(p, w, TryReserve(q));
    var log := Audit(Entry(p, w, -(q as int), InventoryReserved, o));
    var due := Unchecked(take, {});
    var after := Learn(log, Learn(take, facts));
    OnlyLearn(take, facts);
    OnlyLearn(log, Learn(take, facts));
    TypedMonotone(rest, facts, after, {});
    assert due - {(p, w)} == {} && (q == 0 ==> due == {});
    CheckLowTyped(p, w, -(q as int), pick.alert, pick.event, rest, after, due);
    TakeTyped(take, log, CheckLow(p, w, -(q as int), pick.alert, pick.event, rest), rest, facts);
  }

  lemma TakeTyped(take: Stmt, log: Stmt, tail: Prog, rest: Prog, facts: set<Fact>)
    requires take.OnStock? && take.stock.TryReserve? && log.Audit?
    requires Typed(tail, Learn(log, Learn(take, facts)), Unchecked(take, {}))
    requires Quiet(tail) == Quiet(rest) && SameDebts(tail, rest)
    ensures var code := Do(take, Then(log, tail), Stop(InsufficientInventory));
      && Typed(code, facts, {}) && Quiet(code) == Quiet(rest)
      && forall l :: Debt(code, l) == Change(take, l) + Change(log, l) + Debt(rest, l)
  {
    Guard(log, tail, Stop(IntegrityError), Learn(take, facts), Unchecked(take, {}));
    Guard(take, Then(log, tail), Stop(InsufficientInventory), facts, {});
  }

  lemma ReserveBalances(p: ProductId, w: WarehouseId, q: nat, o: OrderId, r: Reservation)
    requires r.product == p && r.warehouse == w && r.quantity == q && r.order == o && r.status.Active?
    ensures forall l ::
      Change(OnStock(p, w, TryReserve(q)), l) + Change(Audit(Entry(p, w, -(q as int), InventoryReserved, o)), l)
      == -ReservationWeight(l, r)
  {
  }

  lemma {:induction false} InsertTyped(rows: seq<Found>, o: OrderId, k: Prog, facts: set<Fact>)
    requires OrderExists(o) in facts && NothingActive(facts)
    requires forall i | 0 <= i < |rows| :: rows[i].1.order == o
    requires Typed(k, facts, {})
    ensures Typed(InsertAll(rows, k), facts, {}) && Quiet(InsertAll(rows, k)) == Quiet(k)
    ensures forall l :: Debt(InsertAll(rows, k), l) == WeightSum(rows, l) + Debt(k, l)
    decreases |rows|
  {
    if rows != [] {
      var insert := OnReservation(rows[0].0, InsertReservation(rows[0].1));
      InsertTyped(rows[1..], o, k, facts);
      TypedMonotone(InsertAll(rows[1..], k), facts, Learn(insert, facts), {});
      Guard(insert, InsertAll(rows[1..], k), Stop(IntegrityError), facts, {});
    }
  }

  /** From the order row on: everything the reserved lines still owe the ledgers is paid. */
  lemma InsertOrderTyped(o: OrderId, row: Order, rows: seq<Found>, e: EventId, last: Prog, facts: set<Fact>)
    requires forall i | 0 <= i < |rows| :: rows[i].1.order == o
    requires NothingActive(facts) && Typed(last, {}, {}) && NoDebt(last) && !Quiet(last)
    ensures var p := InsertRows(o, row, rows, e, last);
      Typed(p, facts, {}) && !Quiet(p) && forall l :: Debt(p, l) == WeightSum(rows, l)
  {
    var announce := OnEvent(e, InsertEvent(OrderReserved(o)));
    var facts' := Learn(InsertOrder(o, row), facts);
    TypedMonotone(last, {}, Learn(announce, facts'), {});
    Guard(announce, last, Stop(IntegrityError), facts', {});
    InsertTyped(rows, o, Then(announce, last), facts');
    Guard(InsertOrder(o, row), InsertAll(rows, Then(announce, last)), Stop(IntegrityError), facts, {});
  }

  lemma LastStepTyped(key: Option<string>, o: OrderId, row: Order)
    ensures var p := LastStep(key, o, row); Typed(p, {}, {}) && NoDebt(p) && !Quiet(p)
  {
    if Claims(key) {
      Guard(OnKey(key.value, CompleteKey(o, Serialize(o, row))), Commit, Stop(IntegrityError), {}, {});
    }
  }

  lemma BodyTyped(cfg: Config, payload: Payload, user: User, key: Option<string>, o: OrderId, e: EventId, now: int,
                  picks: seq<Pick>, facts: set<Fact>)
    requires |payload.items| == |picks| && NothingActive(facts)
    ensures var p := CreateBody(cfg, payload, user, key, o, e, now, picks);
            Typed(p, facts, {}) && (Quiet(p) || NoDebt(p))
  {
    if forall l | l in payload.items :: l.product in cfg.prices {
      var row := NewOrder(cfg, payload, user, key, picks);
      RowsTyped(payload.items, picks, key, o, row, e, now, cfg.timeout, facts);
    }
  }

  lemma RowsTyped(lines: seq<Line>, picks: seq<Pick>, key: Option<string>, o: OrderId, row: Order, e: EventId, now: int,
                  timeout: int, facts: set<Fact>)
    requires |lines| == |picks| && NothingActive(facts)
    ensures var rows := ReservationsFor(lines, picks, o, now + timeout);
      var insert := InsertRows(o, row, rows, e, LastStep(key, o, row));
      var p := Do(Sample(now), ReserveLines(lines, picks, o, insert), Stop(OtherRead));
      Typed(p, facts, {}) && (Quiet(p) || NoDebt(p))
  {
    var rows, last := ReservationsFor(lines, picks, o, now + timeout), LastStep(key, o, row);
    LastStepTyped(key, o, row);
    InsertOrderTyped(o, row, rows, e, last, Learn(Sample(now), facts));
    LinesTyped(lines, picks, o, now, timeout, InsertRows(o, row, rows, e, last), facts);
  }

  lemma LinesTyped(lines: seq<Line>, picks: seq<Pick>, o: OrderId, now: int, timeout: int, insert: Prog,
                   facts: set<Fact>)
    requires |lines| == |picks| && NothingActive(facts)
    requires Typed(insert, Learn(Sample(now), facts), {}) && !Quiet(insert)
    requires forall l :: Debt(insert, l) == WeightSum(ReservationsFor(lines, picks, o, now + timeout), l)
    ensures var p := Do(Sample(now), ReserveLines(lines, picks, o, insert), Stop(OtherRead));
            Typed(p, facts, {}) && (Quiet(p) || NoDebt(p))
  {
    ReserveTyped(lines, picks, o, now + timeout, insert, Learn(Sample(now), facts));
    Guard(Sample(now), ReserveLines(lines, picks, o, insert), Stop(OtherRead), facts, {});
  }

  lemma CreateTyped(cfg: Config, payload: Payload, user: User, key: Option<string>, o: OrderId, e: EventId, now: int,
                    picks: seq<Pick>)
    requires |payload.items| == |picks|
    ensures var p := CreateCode(cfg, payload, user, key, o, e, now, picks);
            Typed(p, {}, {}) && (Quiet(p) || NoDebt(p))
  {
    var body := CreateBody(cfg, payload, user, key, o, e, now, picks);
    if Claims(key) {
      var claim := OnKey(key.value, InsertKey(payload));
      BodyTyped(cfg, payload, user, key, o, e, now, picks, Learn(claim, {}));
      KeyTakenQuiet(key.value, payload);
      Guard(claim, body, KeyTaken(key.value, payload), {}, {});
    } else {
      BodyTyped(cfg, payload, user, key, o, e, now, picks, {});
    }
  }

  lemma KeyTakenQuiet(key: string, payload: Payload)
    ensures Quiet(KeyTaken(key, payload))
  {
    assert Quiet(Stop(Replayed)) && Quiet(Stop(KeyConflict));
    assert Quiet(Stop(HashMismatch)) && Quiet(Stop(InvalidRequest));
    var answer := Do(OnKey(key, IsCompleted), Stop(Replayed), Stop(KeyConflict));
    var compare := Do(OnKey(key, HashMatches(payload)), answer, Stop(HashMismatch));
    assert Quiet(answer);
    assert Quiet(compare);
  }

  // ---- cancel_order and process_order ----

  lemma CloseTyped(o: OrderId, status: OrderStatus, k: Prog, facts: set<Fact>)
    requires k == Commit || (k.Do? && k.s.OnWorker? && k.yes == Commit && k.no.Stop?)
    ensures var p := Then(OnOrder(o, SetStatus(status)), k); Typed(p, facts, {}) && NoDebt(p) && !Quiet(p)
  {
    var set_ := OnOrder(o, SetStatus(status));
    if k.Do? { Guard(k.s, Commit, k.no, Learn(set_, facts), {}); }
    Guard(set_, k, Stop(IntegrityError), facts, {});
  }

  lemma SelectAndSettleTyped(o: OrderId, found: seq<Found>, how: ReservationStatus, k: Prog, facts: set<Fact>)
    requires ActiveRowsOf(found, o) && NothingActive(facts) && OrderExists(o) in facts
    requires Typed(k, {}, {}) && NoDebt(k) && !Quiet(k)
    ensures var p := Do(SelectActive(o, found), Settle(found, o, how, k), Stop(OtherRead));
            Typed(p, facts, {}) && NoDebt(p) && !Quiet(p)
  {
    var select_ := SelectActive(o, found);
    var known := Learn(select_, facts);
    forall i | 0 <= i < |found|
      ensures Known(found[i].0, found[i].1) in known
    {
      assert Known(found[i].0, found[i].1) in News(select_);
    }
    TypedMonotone(k, {}, known, {});
    SettleTyped(found, o, how, k, known);
    Guard(select_, Settle(found, o, how, k), Stop(OtherRead), facts, {});
  }

  lemma CancelTyped(o: OrderId, user: User, found: seq<Found>)
    requires ActiveRowsOf(found, o)
    ensures Typed(CancelCode(o, user, found), {}, {}) && NoDebt(CancelCode(o, user, found))
  {
    var lock, see, may := OnOrder(o, LockOrder), OnOrder(o, IsVisible(user)), OnOrder(o, IsCancellable);
    var facts1 := Learn(lock, {});
    var facts2 := Learn(see, facts1);
    var close := Then(OnOrder(o, SetStatus(Cancelled)), Commit);
    var settle := Do(SelectActive(o, found), Settle(found, o, Released, close), Stop(OtherRead));
    CloseTyped(o, Cancelled, Commit, {});
    SelectAndSettleTyped(o, found, Released, close, Learn(may, facts2));
    Guard(may, settle, Stop(CannotCancel), facts2, {});
    Guard(see, Do(may, settle, Stop(CannotCancel)), Stop(Forbidden), facts1, {});
    Guard(lock, Do(see, Do(may, settle, Stop(CannotCancel)), Stop(Forbidden)), Stop(OrderNotFound), {}, {});
  }

  lemma BeginTyped(o: OrderId)
    ensures Typed(BeginCode(o), {}, {}) && NoDebt(BeginCode(o))
  {
    var lock, look := OnOrder(o, LockOrder), OnOrder(o, IsReserved);
    var start := Then(StartProcessing(o), Commit);
    Guard(StartProcessing(o), Commit, Stop(IntegrityError), Learn(look, Learn(lock, {})), {});
    Guard(look, start, Stop(NothingToDo), Learn(lock, {}), {});
    Guard(lock, Do(look, start, Stop(NothingToDo)), Stop(NothingToDo), {}, {});
  }

  lemma OutcomeTyped(cfg: Config, o: OrderId, attempt: nat, token: string, found: seq<Found>, facts: set<Fact>)
    requires ActiveRowsOf(found, o) && NothingActive(facts) && OrderExists(o) in facts
    ensures var p := Outcome(cfg, o, attempt, token, found); Typed(p, facts, {}) && NoDebt(p) && !Quiet(p)
  {
    match Charge(token)
    case Approved =>
      CloseTyped(o, Completed, Then(OnWorker(o, Remember(Idle)), Commit), {});
      SelectAndSettleTyped(o, found, Consumed,
        Then(OnOrder(o, SetStatus(Completed)), Then(OnWorker(o, Remember(Idle)), Commit)), facts);
    case Declined(retryable, message) =>
      if retryable && attempt < cfg.maxAttempts {
        CloseTyped(o, Reserved, Then(OnWorker(o, Remember(Idle)), Commit), facts);
      } else {
        var next := AfterFailure(cfg, attempt, message);
        CloseTyped(o, Failed, Then(OnWorker(o, Remember(next)), Commit), {});
        SelectAndSettleTyped(o, found, Released,
          Then(OnOrder(o, SetStatus(Failed)), Then(OnWorker(o, Remember(next)), Commit)), facts);
      }
  }

  lemma FinishTyped(cfg: Config, o: OrderId, attempt: nat, token: string, found: seq<Found>)
    requires ActiveRowsOf(found, o)
    ensures Typed(FinishCode(cfg, o, attempt, token, found), {}, {})
    ensures NoDebt(FinishCode(cfg, o, attempt, token, found))
  {
    var resume, lock := OnWorker(o, Resume(Charging(attempt, token))), OnOrder(o, LockOrder);
    var body := Outcome(cfg, o, attempt, token, found);
    OutcomeTyped(cfg, o, attempt, token, found, Learn(lock, Learn(resume, {})));
    Guard(lock, body, Stop(OrderNotFound), Learn(resume, {}), {});
    Guard(resume, Do(lock, body, Stop(OrderNotFound)), Stop(NothingToDo), {}, {});
  }

  lemma RecordTyped(o: OrderId, attempt: nat, reason: string)
    ensures Typed(RecordCode(o, attempt, reason), {}, {}) && NoDebt(RecordCode(o, attempt, reason))
  {
    var resume := OnWorker(o, Resume(Recording(attempt, reason)));
    var insert, forget := InsertDeadLetter(DeadLetter(o, reason, attempt)), OnWorker(o, Remember(Idle));
    Guard(forget, Commit, Stop(IntegrityError), Learn(insert, Learn(resume, {})), {});
    Guard(insert, Then(forget, Commit), Stop(IntegrityError), Learn(resume, {}), {});
    Guard(resume, Then(insert, Then(forget, Commit)), Stop(NothingToDo), {}, {});
  }

  // ---- expire_reservations ----

  ghost function OrderFacts(claims: seq<Found>): set<Fact> {
    set i | 0 <= i < |claims| :: OrderExists(claims[i].1.order)
  }

  ghost function ClaimFacts(claims: seq<Found>): set<Fact> {
    (set i | 0 <= i < |claims| :: Known(claims[i].0, claims[i].1))
    + (set i | 0 <= i < |claims| :: StillActive(claims[i].0)) + OrderFacts(claims)
  }

  ghost function ReleaseSum(claims: seq<Found>, l: Ledger): int {
    if claims == [] then 0 else
    ReservationChange(SetReleased(claims[0].1), l) + ReleaseSum(claims[1..], l)
  }

  lemma {:induction false} ReleaseSumHeld(claims: seq<Found>, p: ProductId, w: WarehouseId)
    requires ActiveRows(claims)
    ensures ReleaseSum(claims, Held(p, w)) >= 0
    decreases |claims|
  {
    if claims != [] {
      assert claims[0].1.status.Active?;
      ReleaseSumHeld(claims[1..], p, w);
    }
  }

  lemma {:induction false} LockTyped(claims: seq<Found>, now: int, k: Prog, facts: set<Fact>)
    requires Typed(k, facts + ClaimFacts(claims), {})
    ensures Typed(LockAll(claims, now, k), facts, {}) && SameDebts(LockAll(claims, now, k), k)
    decreases |claims|
  {
    if claims == [] {
      assert facts + ClaimFacts(claims) == facts;
    } else {
      var lock := OnReservation(claims[0].0, LockExpired(claims[0].1, now));
      var all := facts + ClaimFacts(claims);
      forall f | f in all
        ensures f in Learn(lock, facts) + ClaimFacts(claims[1..])
      {
        if f !in facts { ClaimFactSplits(claims, f); }
      }
      TypedMonotone(k, all, Learn(lock, facts) + ClaimFacts(claims[1..]), {});
      LockTyped(claims[1..], now, k, Learn(lock, facts));
      Guard(lock, LockAll(claims[1..], now, k), Stop(OtherRead), facts, {});
    }
  }

  lemma ClaimFactSplits(claims: seq<Found>, f: Fact)
    requires claims != [] && f in ClaimFacts(claims)
    ensures f in {Known(claims[0].0, claims[0].1), StillActive(claims[0].0), OrderExists(claims[0].1.order)}
         || f in ClaimFacts(claims[1..])
  {
    var i :| 0 <= i < |claims| &&
      (f == Known(claims[i].0, claims[i].1) || f == StillActive(claims[i].0) || f == OrderExists(claims[i].1.order));
    if i > 0 { assert claims[i] == claims[1..][i - 1]; }
  }

  lemma {:induction false} ReleaseAllTyped(claims: seq<Found>, k: Prog, base: set<Fact>, facts: set<Fact>)
    requires Distinct(claims) && base <= facts && NothingActive(base) && Typed(k, base, {})
    requires forall i | 0 <= i < |claims| ::
      Known(claims[i].0, claims[i].1) in facts && StillActive(claims[i].0) in facts
    ensures Typed(ReleaseClaimed(claims, k), facts, {}) && Quiet(ReleaseClaimed(claims, k)) == Quiet(k)
    ensures forall l :: Debt(ReleaseClaimed(claims, k), l) == ReleaseSum(claims, l) + Debt(k, l)
    decreases |claims|
  {
    if claims == [] {
      TypedMonotone(k, base, facts, {});
    } else {
      var release := OnReservation(claims[0].0, SetReleased(claims[0].1));
      forall i | 0 <= i < |claims[1..]|
        ensures Known(claims[1..][i].0, claims[1..][i].1) in Learn(release, facts)
        ensures StillActive(claims[1..][i].0) in Learn(release, facts)
      {
        assert claims[1..][i] == claims[i + 1] && claims[i + 1].0 != claims[0].0;
      }
      ReleaseAllTyped(claims[1..], k, base, Learn(release, facts));
      Guard(release, ReleaseClaimed(claims[1..], k), Stop(IntegrityError), facts, {});
    }
  }

  lemma {:induction false} GiveBackAllTyped(claims: seq<Found>, facts: set<Fact>)
    requires ActiveRows(claims) && NothingActive(facts) && OrderFacts(claims) <= facts
    ensures Typed(GiveBackAll(claims, Commit), facts, {}) && !Quiet(GiveBackAll(claims, Commit))
    ensures forall l :: Debt(GiveBackAll(claims, Commit), l) == -ReleaseSum(claims, l)
    decreases |claims|
  {
    if claims != [] {
      var r := claims[0].1;
      forall f | f in OrderFacts(claims[1..])
        ensures f in OrderFacts(claims)
      {
        var i :| 0 <= i < |claims[1..]| && f == OrderExists(claims[1..][i].1.order);
        assert claims[i + 1] == claims[1..][i];
      }
      GiveBackAllTyped(claims[1..], facts);
      assert OrderExists(r.order) in OrderFacts(claims);
      assert claims[0].1.status.Active?;
      ReleaseSumHeld(claims[1..], r.product, r.warehouse);
      GiveBackTyped(r, GiveBackAll(claims[1..], Commit), facts);
    }
  }

  lemma GiveBackTyped(r: Reservation, rest: Prog, facts: set<Fact>)
    requires NothingActive(facts) && OrderExists(r.order) in facts && r.status.Active? && r.quantity > 0
    requires Typed(rest, facts, {}) && !Quiet(rest) && Debt(rest, Held(r.product, r.warehouse)) <= 0
    ensures var p := GiveBack(r, rest);
      && Typed(p, facts, {}) && !Quiet(p)
      && forall l :: Debt(p, l) == Debt(rest, l) - ReservationChange(SetReleased(r), l)
  {
    var give := OnStock(r.product, r.warehouse, Release(r.quantity));
    var log := Audit(Entry(r.product, r.warehouse, r.quantity, ReservationReleased, r.order));
    var tail := ExpireOrder(r.order, rest);
    var facts1 := Learn(log, Learn(give, facts));
    TypedMonotone(rest, facts, facts1, {});
    ExpireOrderTyped(r.order, rest, facts1);
    Guard(log, tail, Stop(IntegrityError), Learn(give, facts), {});
    ExpireBalances(r);
    assert Debt(Then(log, tail), Held(r.product, r.warehouse)) <= 0;
    assert Typed(Ignoring(give, Then(log, tail)), facts, {});
  }

  lemma ExpireOrderTyped(o: OrderId, rest: Prog, facts: set<Fact>)
    requires NothingActive(facts) && OrderExists(o) in facts && Typed(rest, facts, {}) && !Quiet(rest)
    ensures var p := ExpireOrder(o, rest);
      Typed(p, facts, {}) && !Quiet(p) && SameDebts(p, rest)
  {
    var lock, look, expire := OnOrder(o, LockOrder), OnOrder(o, IsReserved), OnOrder(o, SetStatus(Expired));
    var facts1 := Learn(lock, facts);
    TypedMonotone(rest, facts, facts1, {});
    TypedMonotone(rest, facts, Learn(expire, Learn(look, facts1)), {});
    Guard(expire, rest, Stop(IntegrityError), Learn(look, facts1), {});
    var mark := Do(look, Then(expire, rest), rest);
    assert Kept(look, facts1) == facts1;
    assert SameDebt(rest, look, Then(expire, rest));
    assert Typed(mark, facts1, {});
    assert SameDebts(mark, rest);
  }

  lemma ExpireBalances(r: Reservation)
    requires r.status.Active?
    ensures forall l ::
      Change(OnStock(r.product, r.warehouse, Release(r.quantity)), l)
      + Change(Audit(Entry(r.product, r.warehouse, r.quantity, ReservationReleased, r.order)), l)
      == -ReservationChange(SetReleased(r), l)
    ensures Change(Audit(Entry(r.product, r.warehouse, r.quantity, ReservationReleased, r.order)),
                   Held(r.product, r.warehouse)) == 0
  {
  }

  lemma ExpireTyped(now: int, claims: seq<Found>)
    requires Distinct(claims) && ActiveRows(claims) && claims != []
    ensures Typed(ExpireCode(now, claims), {}, {}) && NoDebt(ExpireCode(now, claims))
  {
    var start := Learn(Sample(now), {});
    var facts := start + ClaimFacts(claims);
    var release := ReleaseClaimed(claims, GiveBackAll(claims, Commit));
    GiveBackAllTyped(claims, OrderFacts(claims));
    ReleaseAllTyped(claims, GiveBackAll(claims, Commit), OrderFacts(claims), facts);
    LockTyped(claims, now, release, start);
    Guard(Sample(now), LockAll(claims, now, release), Stop(OtherRead), {}, {});
  }

  // ---- the rest ----

  lemma AdjustTyped(cfg: Config, p: ProductId, w: WarehouseId, delta: int, reason: string, first: bool,
                    alert: AlertId, e: EventId)
    ensures var code := AdjustCode(cfg, p, w, delta, reason, first, alert, e);
            Typed(code, {}, {}) && (Quiet(code) || NoDebt(code))
  {
    var entry := Audit(AuditEntry(p, w, delta, if delta >= 0 then StockAdded else StockRemoved, Note(reason)));
    var log := Then(entry, Commit);
    if first && delta >= 0 {
      var insert := OnStock(p, w, InsertStock(Inventory(delta, 0, None, false)));
      Guard(entry, Commit, Stop(IntegrityError), Learn(insert, {}), {});
      Guard(insert, log, Stop(IntegrityError), {}, {});
      AdjustBalances(p, w, delta, insert, entry);
    } else if !first {
      var adjust := OnStock(p, w, AdjustAvailable(delta));
      var due := Unchecked(adjust, {});
      Guard(entry, Commit, Stop(IntegrityError), Learn(adjust, {}), {});
      assert due - {(p, w)} == {};
      CheckLowTyped(p, w, delta, alert, e, log, Learn(adjust, {}), due);
      Guard(adjust, CheckLow(p, w, delta, alert, e, log), Stop(InvalidRequest), {}, {});
      AdjustBalances(p, w, delta, adjust, entry);
    }
  }

  lemma AdjustBalances(p: ProductId, w: WarehouseId, delta: int, change: Stmt, entry: Stmt)
    requires change == OnStock(p, w, AdjustAvailable(delta))
          || (delta >= 0 && change == OnStock(p, w, InsertStock(Inventory(delta, 0, None, false))))
    requires entry.Audit? && entry.entry.product == p && entry.entry.warehouse == w && entry.entry.change == delta
    requires entry.entry.kind == if delta >= 0 then StockAdded else StockRemoved
    ensures forall l :: Change(change, l) + Change(entry, l) == 0
  {
  }

  lemma ThresholdTyped(cfg: Config, p: ProductId, w: WarehouseId, threshold: int, first: bool)
    ensures var code := ThresholdCode(cfg, p, w, threshold, first);
            Typed(code, {}, {}) && (Quiet(code) || NoDebt(code))
  {
    if threshold >= 0 {
      var insert := OnStock(p, w, InsertStock(Inventory(0, 0, Some(threshold), true)));
      Guard(insert, Commit, Stop(IntegrityError), {}, {});
      Guard(OnStock(p, w, SetThreshold(threshold)), Commit, Stop(NothingToDo), {}, {});
      assert forall l :: Change(insert, l) == 0;
    }
  }

  lemma {:induction false} PublishTyped(events: seq<EventId>, facts: set<Fact>)
    ensures var p := PublishEvents(events, Commit); Typed(p, facts, {}) && NoDebt(p) && !Quiet(p)
    decreases |events|
  {
    if events != [] {
      var send, publish := Send(events[0]), OnEvent(events[0], MarkPublished);
      var rest := PublishEvents(events[1..], Commit);
      PublishTyped(events[1..], Learn(publish, Learn(send, facts)));
      Guard(publish, rest, Stop(IntegrityError), Learn(send, facts), {});
      Guard(send, Then(publish, rest), Stop(IntegrityError), facts, {});
    }
  }

  lemma {:induction false} LockEventsTyped(events: seq<EventId>, all: seq<EventId>, facts: set<Fact>)
    ensures var p := LockEvents(events, PublishEvents(all, Commit)); Typed(p, facts, {}) && NoDebt(p) && !Quiet(p)
    decreases |events|
  {
    if events == [] {
      PublishTyped(all, facts);
    } else {
      var lock := OnEvent(events[0], LockPending);
      LockEventsTyped(events[1..], all, Learn(lock, facts));
      Guard(lock, LockEvents(events[1..], PublishEvents(all, Commit)), Stop(OtherRead), facts, {});
    }
  }

  lemma CodeTyped(cfg: Config, tx: Tx)
    requires Legal(tx)
    ensures Typed(Code(cfg, tx), {}, {})
    ensures Quiet(Code(cfg, tx)) || NoDebt(Code(cfg, tx))
  {
    match tx
    case Create(payload, user, key, o, e, now, picks) => CreateTyped(cfg, payload, user, key, o, e, now, picks);
    case Cancel(o, user, found) => CancelTyped(o, user, found);
    case Begin(o) => BeginTyped(o);
    case Finish(o, attempt, token, found) => FinishTyped(cfg, o, attempt, token, found);
    case Record(o, attempt, reason) => RecordTyped(o, attempt, reason);
    case Expire(now, claims) => if claims != [] { ExpireTyped(now, claims); }
    case Adjust(p, w, delta, reason, first, alert, e) => AdjustTyped(cfg, p, w, delta, reason, first, alert, e);
    case Threshold(p, w, threshold, first) => ThresholdTyped(cfg, p, w, threshold, first);
    case Relay(events) => if events != [] { LockEventsTyped(events, events, {}); }
  }
}

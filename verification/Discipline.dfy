/** A typing judgement on transaction code. A well-typed tree keeps every ledger balanced, raises the
    low-stock flag after each decrease, and never meets an ignored guard that fails: whatever
    the database it starts from, and whoever else is running. */
module Discipline {
  import opened Schema
  import opened Statements
  import opened Transactions
  import opened Ledgers

  /** What a transaction has learned on its way to a statement. */
  datatype Fact =
    | Owns(row: Row)
    | Known(id: ReservationId, r: Reservation)
    | StillActive(active: ReservationId)
    | OrderExists(order: OrderId)

  ghost predicate Holds(db: State, f: Fact) {
    match f
    case Owns(_) => true
    case Known(id, r) => IsRow(db, id, r)
    case StillActive(id) => IsActive(db, id)
    case OrderExists(o) => o in db.orders
  }

  /** A tree none of whose paths commits. */
  predicate Quiet(p: Prog) {
    match p
    case Commit => false
    case Stop(_) => true
    case Do(_, yes, no) => Quiet(yes) && Quiet(no)
  }

  predicate Settles(s: Stmt) {
    s.OnReservation? && (s.reservation.MarkReleased? || s.reservation.MarkConsumed? || s.reservation.SetReleased?)
  }

  predicate Marks(s: Stmt) {
    s.OnReservation? && (s.reservation.MarkReleased? || s.reservation.MarkConsumed?)
  }

  predicate GivesBack(s: Stmt) { s.OnStock? && (s.stock.Release? || s.stock.Consume?) }

  ghost function News(s: Stmt): set<Fact> {
    match s
    case SelectActive(o, found) =>
      (set i | 0 <= i < |found| :: Known(found[i].0, found[i].1)) + {OrderExists(o)}
    case OnReservation(id, op) =>
      if op.LockExpired? then {Known(id, op.r), StillActive(id), OrderExists(op.r.order)} else {}
    case OnOrder(o, _) => {OrderExists(o)}
    case InsertOrder(o, _) => {OrderExists(o)}
    case _ => {}
  }

  ghost function Kept(s: Stmt, facts: set<Fact>): set<Fact> {
    if Settles(s) then facts - {StillActive(s.id)} else facts
  }

  ghost function Learn(s: Stmt, facts: set<Fact>): set<Fact> {
    Kept(s, facts) + (set k | k in Rows(s) :: Owns(k)) + News(s)
  }

  /** What a statement takes for granted. */
  ghost predicate Needs(s: Stmt, facts: set<Fact>) {
    match s
    case OnReservation(id, op) => (
      match op
      case InsertReservation(r) => OrderExists(r.order) in facts
      case MarkReleased(r) => Known(id, r) in facts
      case MarkConsumed(r) => Known(id, r) in facts
      case SetReleased(r) => Known(id, r) in facts && StillActive(id) in facts
      case LockExpired(_, _) => true)
    case OnStock(_, _, op) => op.InsertStock? ==> FlagAgrees(op.initial)
    case SelectActive(o, _) => OrderExists(o) in facts
    case _ => true
  }

  /** The pairs whose stock went down and whose low-stock flag has not been looked at since. */
  function Unchecked(s: Stmt, due: set<Stock>): set<Stock> {
    if !s.OnStock? then due else
    match s.stock
    case TryReserve(q) => if q > 0 then due + {(s.p, s.w)} else due
    case AdjustAvailable(delta) => if delta < 0 then due + {(s.p, s.w)} else due
    case FlipLowStock => due - {(s.p, s.w)}
    case _ => due
  }

  /** A statement that always matches: a give-back covered by the ledger, a lock on an order known to exist. */
  ghost predicate Surely(s: Stmt, facts: set<Fact>) {
    GivesBack(s) || (s.OnOrder? && s.order.LockOrder? && OrderExists(s.o) in facts)
  }

  /** When the code may carry on after a statement matched nothing: the answer cannot change before the commit. */
  ghost predicate MayMiss(s: Stmt, facts: set<Fact>) {
    !LooksElsewhere(s) && (Marks(s) || forall k | k in Rows(s) :: Owns(k) in facts)
  }

  ghost predicate SameDebt(a: Prog, s: Stmt, b: Prog) {
    forall l :: Debt(a, l) == Change(s, l) + Debt(b, l)
  }

  ghost predicate Typed(p: Prog, facts: set<Fact>, due: set<Stock>) {
    match p
    case Commit => due == {}
    case Stop(_) => true
    case Do(s, yes, no) =>
      && Needs(s, facts)
      && Typed(yes, Learn(s, facts), Unchecked(s, due))
      && (GivesBack(s) ==> s.stock.q > 0 && Debt(yes, Held(s.p, s.w)) <= 0)
      && (Quiet(yes) ==> Quiet(no))
      && (Quiet(no) || Surely(s, facts) ||
          (MayMiss(s, facts) && Typed(no, Kept(s, facts), Unchecked(s, due)) && SameDebt(no, s, yes)))
  }

  // ---- what a typed tree can count on half-way ----

  /** A configured threshold at or above the stock means the flag is up; an unconfigured one, that it is down. */
  predicate FlagAgrees(row: Inventory) {
    (AtOrBelow(row) ==> row.low) && (row.low ==> row.threshold.Some?)
  }

  ghost predicate LowStock(db: State, due: set<Stock>) {
    forall k | k in db.inventory ::
      && (k !in due ==> FlagAgrees(db.inventory[k]))
      && (db.inventory[k].low ==> db.inventory[k].threshold.Some?)
  }

  ghost predicate OrdersKnown(db: State) {
    forall id | id in db.reservations :: db.reservations[id].order in db.orders
  }

  ghost predicate Balanced(db: State, p: Prog) {
    forall l :: Slack(db, l) + Debt(p, l) == 0
  }

  ghost predicate Midway(db: State, p: Prog, facts: set<Fact>, due: set<Stock>) {
    && (forall f | f in facts :: Holds(db, f))
    && LowStock(db, due)
    && OrdersKnown(db)
    && (!Quiet(p) ==> Balanced(db, p))
  }

  lemma NeedsFit(db: State, s: Stmt, facts: set<Fact>)
    requires Needs(s, facts) && forall f | f in facts :: Holds(db, f)
    ensures Fits(db, s)
  {
    if s.OnReservation? {
      match s.reservation
      case MarkReleased(r) => assert Holds(db, Known(s.id, r));
      case MarkConsumed(r) => assert Holds(db, Known(s.id, r));
      case SetReleased(r) => assert Holds(db, Known(s.id, r)) && Holds(db, StillActive(s.id));
      case _ =>
    }
  }

  lemma FactsSurvive(db: State, s: Stmt, facts: set<Fact>)
    requires Ok(db, s) && forall f | f in facts :: Holds(db, f)
    ensures forall f | f in Kept(s, facts) :: Holds(Exec(db, s), f)
  {
    forall f | f in Kept(s, facts)
      ensures Holds(Exec(db, s), f)
    {
      assert Holds(db, f);
      if s.OnReservation? { ReservationsKeepShape(db, s.id, s.reservation); }
    }
  }

  lemma ReservationsKeepShape(db: State, id: ReservationId, op: ReservationOp)
    requires Ok(db, OnReservation(id, op))
    ensures var db' := Exec(db, OnReservation(id, op));
            forall i | i in db.reservations ::
              && i in db'.reservations
              && db'.reservations[i] == db.reservations[i].(status := db'.reservations[i].status)
              && (i != id || op.InsertReservation? || op.LockExpired? ==> db'.reservations[i] == db.reservations[i])
  {
  }

  lemma NewsHold(db: State, s: Stmt)
    requires Ok(db, s) && OrdersKnown(db)
    requires s.SelectActive? ==> s.o in db.orders
    ensures forall f | f in News(s) :: Holds(Exec(db, s), f)
  {
    match s
    case OnOrder(o, op) =>
    case InsertOrder(o, _) =>
    case OnReservation(id, op) =>
      if op.LockExpired? { assert Exec(db, s) == db; }
    case SelectActive(o, found) =>
    case _ =>
  }

  lemma LowStockKept(db: State, s: Stmt, facts: set<Fact>, due: set<Stock>)
    requires Ok(db, s) && Needs(s, facts) && LowStock(db, due)
    ensures LowStock(Exec(db, s), Unchecked(s, due))
  {
    if s.OnStock? {
      var k := (s.p, s.w);
      var before := Look(db.inventory, k);
      var hit := OnStockRow(s.stock, before);
      FlagKept(s.stock, before, k in due);
    }
  }

  lemma FlagKept(op: StockOp, before: Option<Inventory>, due: bool)
    requires OnStockRow(op, before).Put?
    requires before.Some? ==>
      (due || FlagAgrees(before.value)) && (before.value.low ==> before.value.threshold.Some?)
    requires op.InsertStock? ==> FlagAgrees(op.initial)
    ensures var after := OnStockRow(op, before).row;
      && (after.low ==> after.threshold.Some?)
      && (FlagAgrees(after) || (op.TryReserve? && op.q > 0) || (op.AdjustAvailable? && op.delta < 0)
          || (due && !op.FlipLowStock?))
  {
  }

  lemma OrdersStayKnown(db: State, s: Stmt, facts: set<Fact>)
    requires Ok(db, s) && Needs(s, facts) && OrdersKnown(db) && forall f | f in facts :: Holds(db, f)
    ensures OrdersKnown(Exec(db, s))
  {
    if s.OnReservation? {
      ReservationsKeepShape(db, s.id, s.reservation);
      if s.reservation.InsertReservation? { assert Holds(db, OrderExists(s.reservation.initial.order)); }
    }
  }

  /** A give-back finds what it gives back, because the ledger says it is held. */
  lemma GiveBackMatches(db: State, s: Stmt, yes: Prog, no: Prog)
    requires GivesBack(s) && s.stock.q > 0 && Debt(yes, Held(s.p, s.w)) <= 0
    requires Balanced(db, Do(s, yes, no))
    ensures Ok(db, s)
  {
    var l := Held(s.p, s.w);
    assert Slack(db, l) + Debt(Do(s, yes, no), l) == 0;
    HeldSumNotPositive(l, db.reservations);
    AuditSilentOn(l, db.audit);
  }

  lemma {:induction false} HeldSumNotPositive(l: Ledger, m: map<ReservationId, Reservation>)
    requires l.Held?
    ensures ReservationSum(l, m) <= 0
    decreases |m|
  {
    if m == map[] {
      assert ReservationSum(l, m) == 0;
    } else {
      var id :| id in m && ReservationSum(l, m) == ReservationWeight(l, m[id]) + ReservationSum(l, m - {id});
      HeldSumNotPositive(l, m - {id});
      assert ReservationWeight(l, m[id]) <= 0;
    }
  }

  lemma {:induction false} AuditSilentOn(l: Ledger, log: seq<AuditEntry>)
    requires l.Held?
    ensures AuditSum(l, log) == 0
  {
    if log != [] { AuditSilentOn(l, log[..|log| - 1]); }
  }

  lemma SurelyMatches(db: State, p: Prog, facts: set<Fact>, due: set<Stock>)
    requires p.Do? && Typed(p, facts, due) && Midway(db, p, facts, due) && !Quiet(p) && Surely(p.s, facts)
    ensures Ok(db, p.s)
  {
    if GivesBack(p.s) {
      GiveBackMatches(db, p.s, p.yes, p.no);
    } else {
      assert Holds(db, OrderExists(p.s.o));
    }
  }

  /** A typed tree stays half-way sound when its statement matches ... */
  lemma StepMatched(db: State, p: Prog, facts: set<Fact>, due: set<Stock>)
    requires p.Do? && Typed(p, facts, due) && Midway(db, p, facts, due) && Ok(db, p.s)
    ensures Typed(p.yes, Learn(p.s, facts), Unchecked(p.s, due))
    ensures Midway(Exec(db, p.s), p.yes, Learn(p.s, facts), Unchecked(p.s, due))
  {
    var s := p.s;
    NeedsFit(db, s, facts);
    FactsSurvive(db, s, facts);
    if s.SelectActive? { assert Holds(db, OrderExists(s.o)); }
    NewsHold(db, s);
    LowStockKept(db, s, facts, due);
    OrdersStayKnown(db, s, facts);
    if !Quiet(p.yes) {
      assert Balanced(db, p);
      forall l
        ensures Slack(Exec(db, s), l) + Debt(p.yes, l) == 0
      {
        SlackMoves(db, s, l);
        assert Slack(db, l) + Debt(p, l) == 0;
      }
    }
  }

  /** ... and when it does not, unless the tree only looks on from there. */
  lemma StepMissed(db: State, p: Prog, facts: set<Fact>, due: set<Stock>)
    requires p.Do? && Typed(p, facts, due) && Midway(db, p, facts, due) && !Ok(db, p.s) && !Quiet(p.no)
    ensures MayMiss(p.s, facts)
    ensures Typed(p.no, Kept(p.s, facts), Unchecked(p.s, due))
    ensures Midway(db, p.no, Kept(p.s, facts), Unchecked(p.s, due))
  {
    if Surely(p.s, facts) { SurelyMatches(db, p, facts, due); }
    forall l
      ensures Slack(db, l) + Debt(p.no, l) == 0
    {
      assert Slack(db, l) + Debt(p, l) == 0;
      assert Debt(p.no, l) == Change(p.s, l) + Debt(p.yes, l);
    }
    assert LowStock(db, Unchecked(p.s, due));
  }

  /** Run alone, a typed transaction commits with every ledger balanced and every flag right. */
  lemma {:induction false} TypedRun(db: State, p: Prog, facts: set<Fact>, due: set<Stock>)
    requires Typed(p, facts, due) && Midway(db, p, facts, due) && Run(db, p).Committed?
    ensures Midway(Run(db, p).db, Commit, {}, {})
    decreases p
  {
    if p.Do? {
      if Ok(db, p.s) {
        StepMatched(db, p, facts, due);
        TypedRun(Exec(db, p.s), p.yes, Learn(p.s, facts), Unchecked(p.s, due));
      } else {
        if Quiet(p.no) { QuietStops(db, p.no); }
        StepMissed(db, p, facts, due);
        TypedRun(db, p.no, Kept(p.s, facts), Unchecked(p.s, due));
      }
    }
  }

  lemma {:induction false} QuietStops(db: State, p: Prog)
    requires Quiet(p)
    ensures Run(db, p).Stopped?
    decreases p
  {
    if p.Do? {
      if Ok(db, p.s) { QuietStops(Exec(db, p.s), p.yes); } else { QuietStops(db, p.no); }
    }
  }
}

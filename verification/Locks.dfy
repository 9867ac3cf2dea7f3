/** What one transaction has written and not yet committed, and what row locks protect. */
module Locks {
  import opened Schema
  import opened Statements

  // ---- uncommitted writes ----

  /** The rows one transaction has written and not committed. */
  datatype Delta = Delta(
    inventory: map<Stock, Inventory>,
    reservations: map<ReservationId, Reservation>,
    orders: map<OrderId, Order>,
    orderKeys: map<string, OrderId>,
    keys: map<string, KeyRow>,
    events: map<EventId, Event>,
    audit: seq<AuditEntry>,
    alerts: seq<Alert>,
    deadLetters: seq<DeadLetter>,
    workers: map<OrderId, Worker>)

  const NOTHING := Delta(map[], map[], map[], map[], map[], map[], [], [], [], map[])

  /** The database with the writes of one transaction on top. */
  function Merge(db: State, d: Delta): State {
    db.(inventory := db.inventory + d.inventory,
        reservations := db.reservations + d.reservations,
        orders := db.orders + d.orders,
        orderKeys := db.orderKeys + d.orderKeys,
        keys := db.keys + d.keys,
        events := db.events + d.events,
        audit := db.audit + d.audit,
        alerts := db.alerts + d.alerts,
        deadLetters := db.deadLetters + d.deadLetters,
        workers := db.workers + d.workers)
  }

  function Compose(d: Delta, e: Delta): Delta {
    Delta(d.inventory + e.inventory, d.reservations + e.reservations, d.orders + e.orders,
          d.orderKeys + e.orderKeys, d.keys + e.keys, d.events + e.events,
          d.audit + e.audit, d.alerts + e.alerts, d.deadLetters + e.deadLetters, d.workers + e.workers)
  }

  lemma UnionAssociates<K, V>(a: map<K, V>, b: map<K, V>, c: map<K, V>)
    ensures a + b + c == a + (b + c)
  {
  }

  lemma MergeCompose(db: State, d: Delta, e: Delta)
    ensures Merge(Merge(db, d), e) == Merge(db, Compose(d, e))
  {
    UnionAssociates(db.inventory, d.inventory, e.inventory);
    UnionAssociates(db.reservations, d.reservations, e.reservations);
    UnionAssociates(db.orders, d.orders, e.orders);
    UnionAssociates(db.orderKeys, d.orderKeys, e.orderKeys);
    UnionAssociates(db.keys, d.keys, e.keys);
    UnionAssociates(db.events, d.events, e.events);
    UnionAssociates(db.workers, d.workers, e.workers);
    assert db.audit + d.audit + e.audit == db.audit + (d.audit + e.audit);
    assert db.alerts + d.alerts + e.alerts == db.alerts + (d.alerts + e.alerts);
    assert db.deadLetters + d.deadLetters + e.deadLetters == db.deadLetters + (d.deadLetters + e.deadLetters);
  }

  lemma PlusNothing<K, V>(m: map<K, V>)
    ensures m + map[] == m
  {
  }

  lemma PlusOne<K, V>(m: map<K, V>, k: K, v: V)
    ensures m + map[k := v] == m[k := v]
  {
  }

  /** Empty parts of a delta change nothing. */
  lemma EmptyParts(db: State)
    ensures db.inventory + map[] == db.inventory && db.reservations + map[] == db.reservations
    ensures db.orders + map[] == db.orders && db.orderKeys + map[] == db.orderKeys && db.keys + map[] == db.keys
    ensures db.events + map[] == db.events && db.workers + map[] == db.workers
    ensures db.audit + [] == db.audit && db.alerts + [] == db.alerts && db.deadLetters + [] == db.deadLetters
  {
    PlusNothing(db.inventory);
    PlusNothing(db.reservations);
    PlusNothing(db.orders);
    PlusNothing(db.orderKeys);
    PlusNothing(db.keys);
    PlusNothing(db.events);
    PlusNothing(db.workers);
  }

  lemma MergeNothing(db: State)
    ensures Merge(db, NOTHING) == db
  {
    EmptyParts(db);
  }

  function Written<K, V>(k: K, hit: Hit<V>): map<K, V> { if hit.Put? then map[k := hit.row] else map[] }

  /** What a statement that matched writes. */
  ghost function WritesOf(db: State, s: Stmt): Delta
    requires Ok(db, s)
  {
    match s
    case OnStock(p, w, op) =>
      NOTHING.(inventory := Written((p, w), OnStockRow(op, Look(db.inventory, (p, w)))))
    case OnReservation(id, op) =>
      NOTHING.(reservations := Written(id, OnReservationRow(op, Look(db.reservations, id))))
    case OnOrder(o, op) => NOTHING.(orders := Written(o, OnOrderRow(op, Look(db.orders, o))))
    case OnKey(key, op) => NOTHING.(keys := Written(key, OnKeyRow(op, Look(db.keys, key))))
    case OnEvent(e, op) => NOTHING.(events := Written(e, OnEventRow(op, Look(db.events, e))))
    case OnWorker(o, op) => NOTHING.(workers := Written(o, OnWorkerRow(op, Look(db.workers, o))))
    case InsertOrder(o, row) =>
      NOTHING.(orders := map[o := row], orderKeys := if row.key.Some? then map[row.key.value := o] else map[])
    case StartProcessing(o) =>
      NOTHING.(orders := map[o := Started(db.orders[o])],
               workers := map[o := Charging(db.orders[o].attempts + 1, db.orders[o].token)])
    case RaiseAlert(p, w, id, e) =>
      var alert := AlertFor(id, p, w, db.inventory[(p, w)]);
      NOTHING.(alerts := [alert], events := map[e := Event(LowStockAlertCreated(alert), false)])
    case Audit(entry) => NOTHING.(audit := [entry])
    case InsertDeadLetter(letter) => NOTHING.(deadLetters := [letter])
    case SelectActive(_, _) => NOTHING
    case Send(_) => NOTHING
    case Sample(_) => NOTHING
  }

  /** Writing rows in place and merging them in later come to the same. */
  lemma ExecIsMerge(db: State, s: Stmt)
    requires Ok(db, s)
    ensures Exec(db, s) == Merge(db, WritesOf(db, s))
  {
    if s.InsertOrder? || s.StartProcessing? || s.RaiseAlert? {
      InsertIsMerge(db, s);
    } else if s.Audit? || s.InsertDeadLetter? || LooksElsewhere(s) {
      EmptyParts(db);
    } else {
      RowIsMerge(db, s);
    }
  }

  lemma WrittenIsStored<K, V>(m: map<K, V>, k: K, hit: Hit<V>)
    ensures m + Written(k, hit) == Store(m, k, hit)
  {
    if hit.Put? { PlusOne(m, k, hit.row); } else { PlusNothing(m); }
  }

  lemma RowIsMerge(db: State, s: Stmt)
    requires Ok(db, s)
    requires s.OnStock? || s.OnReservation? || s.OnOrder? || s.OnKey? || s.OnEvent? || s.OnWorker?
    ensures Exec(db, s) == Merge(db, WritesOf(db, s))
  {
    EmptyParts(db);
    match s
    case OnStock(p, w, op) =>
      WrittenIsStored(db.inventory, (p, w), OnStockRow(op, Look(db.inventory, (p, w))));
    case OnReservation(id, op) =>
      WrittenIsStored(db.reservations, id, OnReservationRow(op, Look(db.reservations, id)));
    case OnOrder(o, op) => WrittenIsStored(db.orders, o, OnOrderRow(op, Look(db.orders, o)));
    case OnKey(key, op) => WrittenIsStored(db.keys, key, OnKeyRow(op, Look(db.keys, key)));
    case OnEvent(e, op) => WrittenIsStored(db.events, e, OnEventRow(op, Look(db.events, e)));
    case OnWorker(o, op) => WrittenIsStored(db.workers, o, OnWorkerRow(op, Look(db.workers, o)));
  }

  lemma InsertIsMerge(db: State, s: Stmt)
    requires Ok(db, s) && (s.InsertOrder? || s.StartProcessing? || s.RaiseAlert?)
    ensures Exec(db, s) == Merge(db, WritesOf(db, s))
  {
    EmptyParts(db);
    var d := WritesOf(db, s);
    match s
    case InsertOrder(o, row) =>
      PlusOne(db.orders, o, row);
      if row.key.Some? { PlusOne(db.orderKeys, row.key.value, o); }
      assert Merge(db, d) == db.(orders := db.orders + d.orders, orderKeys := db.orderKeys + d.orderKeys);
    case StartProcessing(o) =>
      PlusOne(db.orders, o, Started(db.orders[o]));
      PlusOne(db.workers, o, Charging(db.orders[o].attempts + 1, db.orders[o].token));
      assert Merge(db, d) == db.(orders := db.orders + d.orders, workers := db.workers + d.workers);
    case RaiseAlert(p, w, id, e) =>
      PlusOne(db.events, e, Event(LowStockAlertCreated(AlertFor(id, p, w, db.inventory[(p, w)])), false));
      assert Merge(db, d) == db.(alerts := db.alerts + d.alerts, events := db.events + d.events);
  }

  // ---- locality: what row locks protect ----

  predicate SameRow(a: State, b: State, k: Row) {
    match k
    case StockRow(p, w) => Look(a.inventory, (p, w)) == Look(b.inventory, (p, w))
    case ReservationRow(id) => Look(a.reservations, id) == Look(b.reservations, id)
    case OrderRow(o) => Look(a.orders, o) == Look(b.orders, o)
    case OrderKeyRow(key) => Look(a.orderKeys, key) == Look(b.orderKeys, key)
    case KeyRowOf(key) => Look(a.keys, key) == Look(b.keys, key)
    case EventRow(e) => Look(a.events, e) == Look(b.events, e)
    case WorkerRow(o) => Look(a.workers, o) == Look(b.workers, o)
  }

  ghost predicate SameRows(a: State, b: State, rows: set<Row>) {
    forall k | k in rows :: SameRow(a, b, k)
  }

  /** Every row a delta writes is in `rows`. */
  ghost predicate Within(d: Delta, rows: set<Row>) {
    && (forall p, w | (p, w) in d.inventory :: StockRow(p, w) in rows)
    && (forall id | id in d.reservations :: ReservationRow(id) in rows)
    && (forall o | o in d.orders :: OrderRow(o) in rows)
    && (forall key | key in d.orderKeys :: OrderKeyRow(key) in rows)
    && (forall key | key in d.keys :: KeyRowOf(key) in rows)
    && (forall e | e in d.events :: EventRow(e) in rows)
    && (forall o | o in d.workers :: WorkerRow(o) in rows)
  }

  /** A statement's result depends on the rows it owns and on nothing else. */
  lemma EffectIsLocal(a: State, b: State, s: Stmt)
    requires SameRows(a, b, Rows(s)) && !LooksElsewhere(s)
    ensures Ok(a, s) == Ok(b, s)
    ensures Ok(a, s) ==> WritesOf(a, s) == WritesOf(b, s)
  {
    if s.InsertOrder? || s.StartProcessing? || s.RaiseAlert? {
      InsertsAreLocal(a, b, s);
    } else {
      match s
      case OnStock(p, w, _) => assert SameRow(a, b, StockRow(p, w));
      case OnReservation(id, _) => assert SameRow(a, b, ReservationRow(id));
      case OnOrder(o, _) => assert SameRow(a, b, OrderRow(o));
      case OnKey(key, _) => assert SameRow(a, b, KeyRowOf(key));
      case OnEvent(e, _) => assert SameRow(a, b, EventRow(e));
      case OnWorker(o, _) => assert SameRow(a, b, WorkerRow(o));
      case _ =>
    }
  }

  lemma InsertsAreLocal(a: State, b: State, s: Stmt)
    requires SameRows(a, b, Rows(s)) && (s.InsertOrder? || s.StartProcessing? || s.RaiseAlert?)
    ensures Ok(a, s) == Ok(b, s)
    ensures Ok(a, s) ==> WritesOf(a, s) == WritesOf(b, s)
  {
    match s
    case InsertOrder(o, row) =>
      assert SameRow(a, b, OrderRow(o));
      if row.key.Some? { assert SameRow(a, b, OrderKeyRow(row.key.value)); }
    case StartProcessing(o) => assert SameRow(a, b, OrderRow(o));
    case RaiseAlert(p, w, _, e) => assert SameRow(a, b, StockRow(p, w)) && SameRow(a, b, EventRow(e));
  }

  lemma WritesStayWithin(db: State, s: Stmt)
    requires Ok(db, s)
    ensures Within(WritesOf(db, s), Rows(s))
  {
  }

  lemma MergeKeepsSameRow(a: State, b: State, d: Delta, k: Row)
    requires SameRow(a, b, k)
    ensures SameRow(Merge(a, d), Merge(b, d), k)
  {
    match k
    case StockRow(_, _) =>
    case ReservationRow(_) =>
    case OrderRow(_) =>
    case OrderKeyRow(_) =>
    case KeyRowOf(_) =>
    case EventRow(_) =>
    case WorkerRow(_) =>
  }

  lemma MergeLeavesOtherRows(db: State, d: Delta, rows: set<Row>, k: Row)
    requires Within(d, rows) && k !in rows
    ensures SameRow(db, Merge(db, d), k)
  {
  }

  lemma WithinCompose(d: Delta, e: Delta, rows: set<Row>)
    requires Within(d, rows) && Within(e, rows)
    ensures Within(Compose(d, e), rows)
  {
  }
}

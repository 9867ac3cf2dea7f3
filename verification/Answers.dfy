/** What a placed order leaves in every table and what its customer is told, row by row and value by value; and
    that the answer kept for its key says the same ever after. */
module Answers {
  import opened Schema
  import opened Transactions
  import opened Effects
  import opened Invariant
  import opened Runs
  import opened Creation
  import opened Lifecycle
  import opened Idempotency
  import opened LowStock
  import opened Logs
  import opened Requests

  // ---- the answer ----

  /** The response to an order of these lines: who, what, how many of each, at what price, and the sum. */
  predicate AnswersFor(response: Response, o: OrderId, prices: map<ProductId, nat>, lines: seq<Line>) {
    && (forall l | l in lines :: l.product in prices)
    && response.id == o && response.status.Reserved? && response.total == PriceOf(prices, lines)
    && |response.items| == |lines|
    && forall i | 0 <= i < |lines| ::
        && response.items[i].product == lines[i].product && response.items[i].quantity == lines[i].quantity
        && response.items[i].unitPrice == prices[lines[i].product]
  }

  /** Every line at the catalogue's price, and the total their sum. */
  predicate AtListPrice(row: Order, prices: map<ProductId, nat>) {
    && (forall i | 0 <= i < |row.items| ::
          row.items[i].product in prices && row.items[i].unitPrice == prices[row.items[i].product])
    && (forall l | l in LinesOf(row.items) :: l.product in prices)
    && row.total == PriceOf(prices, LinesOf(row.items))
  }

  ghost predicate AllPriced(db: State) { forall o | o in db.orders :: AtListPrice(db.orders[o], db.cfg.prices) }

  lemma PricedAnswer(o: OrderId, row: Order, prices: map<ProductId, nat>)
    requires AtListPrice(row, prices)
    ensures AnswersFor(FirstAnswer(o, row), o, prices, LinesOf(row.items))
  {
  }

  // ---- prices over runs ----

  lemma NewOrderPriced(cfg: Config, tx: Tx)
    requires tx.Create? && Legal(tx) && AllKnown(cfg, tx.payload.items)
    ensures AtListPrice(OrderOf(cfg, tx), cfg.prices) && LinesOf(OrderOf(cfg, tx).items) == tx.payload.items
  {
    TotalIsPrice(cfg.prices, tx.payload.items, tx.picks);
    var items := OrderOf(cfg, tx).items;
    assert forall i | 0 <= i < |items| :: tx.payload.items[i] in tx.payload.items;
    assert LinesOf(items) == tx.payload.items;
  }

  lemma SamePrice(a: Order, b: Order, prices: map<ProductId, nat>)
    requires AtListPrice(a, prices) && b.items == a.items && b.total == a.total
    ensures AtListPrice(b, prices)
  {
  }

  lemma StepKeepsPrices(db: State, s: Step, db': State)
    requires Inv(db) && AllPriced(db) && Next(db, s, db')
    ensures AllPriced(db')
  {
    assert Evolves(db, db') by { NextKeepsInv(db, s, db'); }
    forall o | o in db'.orders
      ensures AtListPrice(db'.orders[o], db'.cfg.prices)
    {
      if o in db.orders {
        SamePrice(db.orders[o], db'.orders[o], db.cfg.prices);
      } else {
        StepAddsOrder(db, s, db', o);
        CreateEffect(db, s.tx);
        NewOrderPriced(db.cfg, s.tx);
      }
    }
  }

  lemma {:induction false} RunsKeepPrices(states: seq<State>, steps: seq<Step>, n: nat)
    requires IsRun(states, steps) && n < |states|
    ensures AllPriced(states[n])
  {
    if n > 0 {
      RunsKeepPrices(states, steps, n - 1);
      RunsKeepInv(states, steps, n - 1);
      StepKeepsPrices(states[n - 1], steps[n - 1], states[n]);
    }
  }

  /** The answer kept under a key is the right one for the request the key was used with. */
  lemma StoredAnswers(db: State, key: string)
    requires Inv(db) && AllPriced(db) && key in db.keys
    ensures var row := db.keys[key];
      row.Done? && row.order in db.orders && AnswersFor(row.response, row.order, db.cfg.prices, row.hash.items)
  {
    assert KeyOk(key, db.keys[key], db.orders);
    PricedAnswer(db.keys[key].order, db.orders[db.keys[key].order], db.cfg.prices);
  }

  lemma StoredAnswersInRun(states: seq<State>, steps: seq<Step>, n: nat, key: string)
    requires IsRun(states, steps) && n < |states| && key in states[n].keys
    ensures var row := states[n].keys[key];
      && row.Done? && row.order in states[n].orders
      && AnswersFor(row.response, row.order, states[n].cfg.prices, row.hash.items)
  {
    RunsKeepPrices(states, steps, n);
    RunsKeepInv(states, steps, n);
    StoredAnswers(states[n], key);
  }

  /** Once an order is placed under a key, what every later request with the key would be told is the answer to
      that order: its id, its lines, its prices and its total, whatever has become of it since. */
  lemma RepeatsAreAnswered(states: seq<State>, steps: seq<Step>, i: nat, j: nat)
    requires IsRun(states, steps) && i < j < |states| && steps[i].Does? && steps[i].tx.Create?
    requires Claims(steps[i].tx.key)
    ensures var first, db := steps[i].tx, states[j];
      && first.key.value in db.keys && db.keys[first.key.value].Done? && db.keys[first.key.value].hash == first.payload
      && AnswersFor(db.keys[first.key.value].response, first.order, db.cfg.prices, first.payload.items)
  {
    assert Next(states[i], steps[i], states[i + 1]);
    RepeatsGetTheFirstAnswer(states, steps, i, j, steps[i].tx);
    StoredAnswersInRun(states, steps, j, steps[i].tx.key.value);
  }

  // ---- requests one at a time ----

  lemma PricesStay(a: State, b: State)
    requires AllPriced(a) && b.cfg == a.cfg
    requires forall o | o in b.orders ::
      o in a.orders && b.orders[o].items == a.orders[o].items && b.orders[o].total == a.orders[o].total
    ensures AllPriced(b)
  {
    forall o | o in b.orders
      ensures AtListPrice(b.orders[o], b.cfg.prices)
    {
      SamePrice(a.orders[o], b.orders[o], a.cfg.prices);
    }
  }

  lemma EndsPriced(before: State, tx: Tx, answer: Answer, after: State)
    requires Inv(before) && AllPriced(before) && Legal(tx) && Ends(before, Code(before.cfg, tx), answer, after)
    ensures AllPriced(after)
  {
    if answer.Accepted? { StepKeepsPrices(before, Does(tx), after); }
  }

  // ---- the tables ----

  predicate ItemFor(item: Item, line: Line, pick: Pick, prices: map<ProductId, nat>) {
    && item.product == line.product && Some(item.warehouse) == pick.warehouse && item.quantity == line.quantity
    && line.product in prices && item.unitPrice == prices[line.product]
  }

  predicate OrderFor(row: Order, payload: Payload, user: User, key: Option<string>, picks: seq<Pick>,
                     prices: map<ProductId, nat>) {
    && row.status.Reserved? && row.owner == user.id && row.token == payload.token && row.attempts == 0 && row.key == key
    && (forall l | l in payload.items :: l.product in prices) && row.total == PriceOf(prices, payload.items)
    && |row.items| == |payload.items| == |picks|
    && forall i | 0 <= i < |picks| :: ItemFor(row.items[i], payload.items[i], picks[i], prices)
  }

  /** One ACTIVE reservation for a line, due at `due`. */
  predicate ReservationFits(r: Reservation, o: OrderId, line: Line, pick: Pick, due: int) {
    && r.order == o && r.product == line.product && Some(r.warehouse) == pick.warehouse && r.quantity == line.quantity
    && r.expiresAt == due && r.status.Active?
  }

  /** One new reservation per line, under the ids picked; the others as before. */
  predicate ReservationsFit(a: map<ReservationId, Reservation>, b: map<ReservationId, Reservation>, o: OrderId,
                            lines: seq<Line>, picks: seq<Pick>, due: int)
    requires |lines| == |picks|
  {
    && b.Keys == a.Keys + (set i | 0 <= i < |picks| :: picks[i].reservation)
    && (forall id | id in a :: b[id] == a[id])
    && (forall i | 0 <= i < |lines| :: picks[i].reservation !in a
                                       && ReservationFits(b[picks[i].reservation], o, lines[i], picks[i], due))
  }

  /** `q` units moved from available to reserved, and the flag up if that is at or below the threshold. */
  predicate RowTaken(a: Inventory, b: Inventory, q: nat) {
    && b.available == a.available - q && b.reserved == a.reserved + q && b.threshold == a.threshold
    && (b.low <==> a.low || (a.threshold.Some? && b.available <= a.threshold.value))
  }

  predicate StockFits(a: map<Stock, Inventory>, b: map<Stock, Inventory>, lines: seq<Line>, picks: seq<Pick>)
    requires |lines| == |picks|
  {
    && b.Keys == a.Keys
    && (forall i | 0 <= i < |lines| ::
          && picks[i].warehouse.Some? && (lines[i].product, picks[i].warehouse.value) in a
          && var k := (lines[i].product, picks[i].warehouse.value); RowTaken(a[k], b[k], lines[i].quantity))
    && (forall k | k in a && (forall i | 0 <= i < |lines| :: k != (lines[i].product, Chosen(picks[i]))) :: b[k] == a[k])
  }

  /** One entry per line, of minus its quantity, about the order. */
  predicate LogFits(a: seq<AuditEntry>, b: seq<AuditEntry>, o: OrderId, lines: seq<Line>, picks: seq<Pick>)
    requires |lines| == |picks|
  {
    && a <= b && |b| == |a| + |lines|
    && forall i | 0 <= i < |lines| :: picks[i].warehouse.Some? && b[|a| + i] ==
        AuditEntry(lines[i].product, picks[i].warehouse.value, -(lines[i].quantity as int), InventoryReserved,
                   OrderRef(o))
  }

  /** One PENDING ORDER_RESERVED event; whatever else is new is a PENDING low-stock event. */
  predicate EventsFit(a: map<EventId, Event>, b: map<EventId, Event>, o: OrderId, e: EventId) {
    && e !in a && e in b && b[e] == Event(OrderReserved(o), false) && (forall x | x in a :: x in b && b[x] == a[x])
    && (forall x | x in b && x !in a && x != e :: b[x].body.LowStockAlertCreated? && !b[x].published)
  }

  /** The order's own row, and its idempotency key in the unique index. */
  predicate OrderFits(a: State, b: State, payload: Payload, user: User, key: Option<string>, o: OrderId,
                      picks: seq<Pick>) {
    && o !in a.orders && o in b.orders && b.orders == a.orders[o := b.orders[o]]
    && OrderFor(b.orders[o], payload, user, key, picks, a.cfg.prices)
    && b.orderKeys == (if key.Some? then a.orderKeys[key.value := o] else a.orderKeys)
  }

  /** The answer kept for the key, unless it is absent or empty. */
  predicate KeyFits(a: map<string, KeyRow>, b: map<string, KeyRow>, payload: Payload, key: Option<string>, o: OrderId,
                    response: Response) {
    b == if key.Some? && key.value != "" then a[key.value := Done(payload, o, response)] else a
  }

  /** The order `o` for `payload`, in every table, and the answer to it. */
  ghost predicate PlacedInFull(a: State, b: State, payload: Payload, user: User, key: Option<string>, o: OrderId,
                               e: EventId, now: int, picks: seq<Pick>, response: Response) {
    && |picks| == |payload.items|
    && OrderFits(a, b, payload, user, key, o, picks)
    && ReservationsFit(a.reservations, b.reservations, o, payload.items, picks, now + a.cfg.timeout)
    && StockFits(a.inventory, b.inventory, payload.items, picks)
    && LogFits(a.audit, b.audit, o, payload.items, picks)
    && EventsFit(a.events, b.events, o, e)
    && AnswersFor(response, o, a.cfg.prices, payload.items)
    && KeyFits(a.keys, b.keys, payload, key, o, response)
  }

  lemma AddedRows(a: map<ReservationId, Reservation>, b: map<ReservationId, Reservation>, o: OrderId, lines: seq<Line>,
                  picks: seq<Pick>, due: int)
    requires |lines| == |picks| && AddsRows(a, b, ReservationsFor(lines, picks, o, due))
    requires forall i | 0 <= i < |picks| :: picks[i].warehouse.Some?
    ensures ReservationsFit(a, b, o, lines, picks, due)
  {
    var rows := ReservationsFor(lines, picks, o, due);
    forall i | 0 <= i < |lines|
      ensures picks[i].reservation !in a && picks[i].reservation in b
      ensures ReservationFits(b[picks[i].reservation], o, lines[i], picks[i], due)
    {
      assert rows[i].0 !in a && b[rows[i].0] == rows[i].1;
    }
    forall id | id in b && id !in a
      ensures exists i :: 0 <= i < |picks| && picks[i].reservation == id
    {
      var i :| 0 <= i < |rows| && rows[i].0 == id;
      assert picks[i].reservation == id;
    }
  }

  lemma TakenFits(a: map<Stock, Inventory>, b: map<Stock, Inventory>, lines: seq<Line>, picks: seq<Pick>)
    requires |lines| == |picks| && AllFit(a, lines, picks) && StockTaken(a, b, lines, picks)
    ensures StockFits(a, b, lines, picks)
  {
    forall i | 0 <= i < |lines|
      ensures picks[i].warehouse.Some? && (lines[i].product, picks[i].warehouse.value) in a
      ensures var k := (lines[i].product, picks[i].warehouse.value); RowTaken(a[k], b[k], lines[i].quantity)
    {
      assert LineFits(a, lines[i], picks[i]);
    }
  }

  lemma NewOrderFits(cfg: Config, tx: Tx)
    requires tx.Create? && Legal(tx) && AllKnown(cfg, tx.payload.items)
    requires forall i | 0 <= i < |tx.picks| :: tx.picks[i].warehouse.Some?
    ensures OrderFor(OrderOf(cfg, tx), tx.payload, tx.user, tx.key, tx.picks, cfg.prices)
    ensures AnswersFor(Serialize(tx.order, OrderOf(cfg, tx)), tx.order, cfg.prices, tx.payload.items)
  {
    NewOrderPriced(cfg, tx);
    PricedAnswer(tx.order, OrderOf(cfg, tx), cfg.prices);
    forall i | 0 <= i < |tx.picks|
      ensures ItemFor(OrderOf(cfg, tx).items[i], tx.payload.items[i], tx.picks[i], cfg.prices)
    {
      assert tx.payload.items[i] in tx.payload.items;
    }
  }

  lemma AllPicked(inventory: map<Stock, Inventory>, lines: seq<Line>, picks: seq<Pick>)
    requires |lines| == |picks| && AllFit(inventory, lines, picks)
    ensures forall i | 0 <= i < |picks| :: picks[i].warehouse.Some?
  {
    forall i | 0 <= i < |picks|
      ensures picks[i].warehouse.Some?
    {
      assert LineFits(inventory, lines[i], picks[i]);
    }
  }

  lemma LinesLogged(db: State, lines: seq<Line>, picks: seq<Pick>, o: OrderId, db': State)
    requires |lines| == |picks| && ProperLines(lines) && AllFit(db.inventory, lines, picks)
    requires db'.audit == TookAll(db, lines, picks, o).audit
    ensures LogFits(db.audit, db'.audit, o, lines, picks)
  {
    AllPicked(db.inventory, lines, picks);
    TookAllLogged(db, lines, picks, o);
    forall i | 0 <= i < |lines|
      ensures db'.audit[|db.audit| + i] == LineEntries(lines, picks, o)[i]
    {
    }
  }

  lemma CreatedOrder(a: State, b: State, tx: Tx)
    requires Effects.Created(a, b, tx) && forall i | 0 <= i < |tx.picks| :: tx.picks[i].warehouse.Some?
    ensures var response := Serialize(tx.order, OrderOf(a.cfg, tx));
      && OrderFits(a, b, tx.payload, tx.user, tx.key, tx.order, tx.picks)
      && AnswersFor(response, tx.order, a.cfg.prices, tx.payload.items)
      && KeyFits(a.keys, b.keys, tx.payload, tx.key, tx.order, response)
  {
    NewOrderFits(a.cfg, tx);
  }

  lemma CreatedRest(a: State, b: State, tx: Tx)
    requires Effects.Created(a, b, tx) && forall i | 0 <= i < |tx.picks| :: tx.picks[i].warehouse.Some?
    ensures ReservationsFit(a.reservations, b.reservations, tx.order, tx.payload.items, tx.picks,
                            tx.now + a.cfg.timeout)
    ensures EventsFit(a.events, b.events, tx.order, tx.event)
  {
    AddedRows(a.reservations, b.reservations, tx.order, tx.payload.items, tx.picks, tx.now + a.cfg.timeout);
  }

  /** From the claim on: all lines fit, and what they took is all that moved and all that was logged. */
  lemma BodyFits(db: State, tx: Tx, db': State)
    requires tx.Create? && Legal(tx) && Run(db, BodyOf(db.cfg, tx)) == Committed(db')
    ensures forall i | 0 <= i < |tx.picks| :: tx.picks[i].warehouse.Some?
    ensures StockFits(db.inventory, db'.inventory, tx.payload.items, tx.picks)
    ensures LogFits(db.audit, db'.audit, tx.order, tx.payload.items, tx.picks)
  {
    BodyTakes(db, tx);
    var taken := TookAll(db, tx.payload.items, tx.picks, tx.order);
    AllPicked(db.inventory, tx.payload.items, tx.picks);
    TookAllStock(db, tx.payload.items, tx.picks, tx.order);
    InsertKeepsStock(taken, tx);
    TakenFits(db.inventory, db'.inventory, tx.payload.items, tx.picks);
    InsertLogsNothing(taken, tx, db');
    LinesLogged(db, tx.payload.items, tx.picks, tx.order, db');
  }

  lemma InsertLogsNothing(db: State, tx: Tx, db': State)
    requires tx.Create? && Legal(tx) && AllKnown(db.cfg, tx.payload.items)
    requires Run(db, InsertOf(db.cfg, tx)) == Committed(db')
    ensures db'.audit == db.audit
  {
    InsertRowsLog(tx.order, OrderOf(db.cfg, tx), RowsOf(db.cfg, tx), tx.event, tx.key, {});
    RunLogsNothing(db, InsertOf(db.cfg, tx));
  }

  lemma BodyOfCommitted(db: State, tx: Tx, db': State)
    requires Next(db, Does(tx), db') && tx.Create?
    ensures Run(Claimed(db, tx), BodyOf(db.cfg, tx)) == Committed(db')
  {
    if Claims(tx.key) { ClaimRun(db, tx, BodyOf(db.cfg, tx)); }
  }

  /** Every creation that ever commits: the order is in every table what its request says, no other row moved,
      and the answer to it is the right one. */
  lemma CommittedInFull(db: State, tx: Tx, db': State)
    requires Next(db, Does(tx), db') && tx.Create?
    ensures AllKnown(db.cfg, tx.payload.items)
    ensures PlacedInFull(db, db', tx.payload, tx.user, tx.key, tx.order, tx.event, tx.now, tx.picks,
                         Serialize(tx.order, OrderOf(db.cfg, tx)))
  {
    BodyOfCommitted(db, tx, db');
    BodyFits(Claimed(db, tx), tx, db');
    CreateEffect(db, tx);
    CreatedOrder(db, db', tx);
    CreatedRest(db, db', tx);
  }

  /** What create_order answers: the new order, in full, or what was answered to the first request with the key. */
  ghost predicate Answered(a: State, b: State, tx: Tx, reply: Reply)
    requires tx.Create?
  {
    match reply
    case Created(response) =>
      PlacedInFull(a, b, tx.payload, tx.user, tx.key, tx.order, tx.event, tx.now, tx.picks, response)
    case Cached(response) =>
      && b == a && tx.key.Some? && tx.key.value in a.keys && a.keys[tx.key.value].Done?
      && a.keys[tx.key.value].order in a.orders
      && AnswersFor(response, a.keys[tx.key.value].order, a.cfg.prices, tx.payload.items)
    case Denied(_) => b == a
  }

  lemma CreateAnswers(before: State, tx: Tx, reply: Reply, after: State)
    requires Inv(before) && AllPriced(before) && CreateEnds(before, tx, reply, after)
    ensures Answered(before, after, tx, reply)
  {
    if reply.Created? { CommittedInFull(before, tx, after); }
    if reply.Cached? { StoredAnswers(before, tx.key.value); }
  }
}

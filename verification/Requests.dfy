/** What a request or a delivery asks for and how it may end, and what the steps of each service add up to. */
module Requests {
  import opened Schema
  import opened Statements
  import opened Transactions
  import opened Effects
  import opened Invariant
  import opened Creation
  import opened Deliveries

  /** `after` is `before` once `s` was executed, and `ok` is whether it matched. */
  ghost predicate Did(before: State, s: Stmt, ok: bool, after: State) {
    ok == Ok(before, s) && after == if ok then Exec(before, s) else before
  }

  /** The ids generated for one order line. */
  datatype LineIds = LineIds(reservation: ReservationId, alert: AlertId, event: EventId)

  function PickOf(w: Option<WarehouseId>, ids: LineIds): Pick { Pick(w, ids.reservation, ids.alert, ids.event) }

  predicate PicksFor(picks: seq<Pick>, ids: seq<LineIds>) {
    |picks| == |ids| && forall i | 0 <= i < |ids| :: picks[i] == PickOf(picks[i].warehouse, ids[i])
  }

  predicate FreshLineEvents(events: map<EventId, Event>, ids: seq<LineIds>) {
    && (forall i | 0 <= i < |ids| :: ids[i].event !in events)
    && (forall i, j | 0 <= i < j < |ids| :: ids[i].event != ids[j].event)
  }

  /** Some one warehouse can serve the whole line. */
  ghost predicate Servable(inventory: map<Stock, Inventory>, line: Line) {
    exists w :: HasEnough(inventory, line.product, w, line.quantity)
  }

  /** `w` can serve the whole line, and no warehouse that can has more. */
  ghost predicate MostStocked(inventory: map<Stock, Inventory>, line: Line, w: WarehouseId) {
    && HasEnough(inventory, line.product, w, line.quantity)
    && forall x | HasEnough(inventory, line.product, x, line.quantity) ::
        inventory[(line.product, x)].available <= inventory[(line.product, w)].available
  }

  ghost predicate FromTheMostStocked(inventory: map<Stock, Inventory>, line: Line, pick: Pick) {
    pick.warehouse.Some? && MostStocked(inventory, line, pick.warehouse.value)
  }

  /** Ids that are nowhere in use, as `generate_id` makes them. */
  predicate FreshFor(db: State, o: OrderId, e: EventId, ids: seq<LineIds>) {
    && o !in db.orders && e !in db.events
    && FreshLineEvents(db.events, ids) && (forall i | 0 <= i < |ids| :: ids[i].event != e)
    && (forall i | 0 <= i < |ids| :: ids[i].reservation !in db.reservations)
    && (forall i, j | 0 <= i < j < |ids| :: ids[i].reservation != ids[j].reservation)
  }

  /** What create_order asks of the tables as they are: a free key, known products, and for every line one
      warehouse with enough. */
  ghost predicate CanPlace(db: State, payload: Payload, key: Option<string>) {
    && (key.Some? ==> key.value !in db.orderKeys) && (Claims(key) ==> key.value !in db.keys)
    && AllKnown(db.cfg, payload.items)
    && forall i | 0 <= i < |payload.items| :: Servable(db.inventory, payload.items[i])
  }

  predicate KeyTakenBy(db: State, key: Option<string>) { key.Some? && key.value != "" && key.value in db.keys }

  ghost predicate AllServable(db: State, payload: Payload) {
    forall i | 0 <= i < |payload.items| :: Servable(db.inventory, payload.items[i])
  }

  /** Where the code gets to picking warehouses, the picks fit unless some line cannot be served. */
  ghost predicate PickedWell(db: State, payload: Payload, key: Option<string>, picks: seq<Pick>) {
    |picks| == |payload.items| &&
    (!KeyTakenBy(db, key) && AllKnown(db.cfg, payload.items) ==>
       (AllFit(db.inventory, payload.items, picks) <==> AllServable(db, payload)))
  }

  /** What create_order returns or raises. */
  datatype Reply = Created(response: Response) | Cached(response: Response) | Denied(why: Ending)

  function AnswerOf(reply: Reply): Answer {
    match reply
    case Created(_) => Accepted
    case Cached(_) => Refused(Replayed)
    case Denied(why) => Refused(why)
  }

  /** How a request ended. */
  datatype Answer = Accepted | Refused(why: Ending)

  ghost predicate Ends(before: State, p: Prog, answer: Answer, after: State) {
    match Run(before, p)
    case Committed(db) => answer == Accepted && after == db
    case Stopped(why) => answer == Refused(why) && after == before
  }

  predicate Stores(row: KeyRow, payload: Payload, response: Response) {
    row.Done? && row.hash == payload && row.response == response
  }

  /** The answer is the transaction's: the new order's, the one stored under the key, or a refusal; and only
      the first of these leaves anything behind. */
  ghost predicate CreateEnds(before: State, tx: Tx, reply: Reply, after: State) {
    && tx.Create? && Legal(tx) && Ends(before, Code(before.cfg, tx), AnswerOf(reply), after)
    && match reply
       case Created(response) =>
         Effects.Created(before, after, tx) && response == Serialize(tx.order, after.orders[tx.order])
       case Cached(response) =>
         && after == before && Claims(tx.key) && tx.key.value in before.keys
         && Stores(before.keys[tx.key.value], tx.payload, response)
       case Denied(_) => after == before
  }

  /** The reply and the tables are what `Refusal` and `Placed` say. */
  ghost predicate Replies(before: State, tx: Tx, reply: Reply, after: State) {
    && tx.Create? && Legal(tx)
    && match Refusal(before, tx)
       case None => AllKnown(before.cfg, tx.payload.items) && AllFit(before.inventory, tx.payload.items, tx.picks)
         && after == Placed(before, tx) && reply == Created(Serialize(tx.order, OrderOf(before.cfg, tx)))
       case Some(why) =>
         if why.Replayed? then reply == Cached(before.keys[tx.key.value].response) else reply == Denied(why)
  }

  /** Which refusal it is, from what the caller can see. */
  ghost predicate RefusedRightly(db: State, payload: Payload, key: Option<string>, reply: Reply) {
    var taken := KeyTakenBy(db, key);
    var known := forall l | l in payload.items :: l.product in db.cfg.prices;
    && (reply.Cached? <==> taken && db.keys[key.value].hash == payload && db.keys[key.value].Done?)
    && (reply == Denied(HashMismatch) <==> taken && db.keys[key.value].hash != payload)
    && (reply == Denied(KeyConflict) <==> taken && db.keys[key.value].hash == payload && !db.keys[key.value].Done?)
    && (reply == Denied(ProductNotFound) <==> !taken && !known)
    && (reply == Denied(InsufficientInventory) <==> !taken && known && !AllServable(db, payload))
    && (reply == Denied(IntegrityError) <==>
          !taken && known && AllServable(db, payload) && key.Some? && key.value in db.orderKeys)
  }

  lemma RepliesRefuse(before: State, tx: Tx, reply: Reply, after: State)
    requires Replies(before, tx, reply, after) && tx.now <= before.clock
    requires PickedWell(before, tx.payload, tx.key, tx.picks)
    ensures RefusedRightly(before, tx.payload, tx.key, reply)
  {
  }

  lemma RepliesEnd(before: State, tx: Tx, reply: Reply, after: State)
    requires FreshIds(before, tx) && Replies(before, tx, reply, after) && (!reply.Created? ==> after == before)
    ensures CreateEnds(before, tx, reply, after)
  {
    CreateExact(before, tx);
    if reply.Created? { CreateEffect(before, tx); }
  }

  lemma CreateSound(before: State, tx: Tx, reply: Reply, after: State)
    requires Inv(before) && CreateEnds(before, tx, reply, after)
    ensures Inv(after)
  {
    EndsSound(before, tx, AnswerOf(reply), after);
  }

  /** From the claim on, the reply is the whole request's. */
  lemma RepliesFrom(before: State, tx: Tx, reply: Reply, after: State)
    requires tx.Create? && Legal(tx) && AllKnown(before.cfg, tx.payload.items) && tx.now <= before.clock
    requires Claims(tx.key) ==> tx.key.value !in before.keys
    requires reply ==
      if !AllFit(before.inventory, tx.payload.items, tx.picks) then Denied(InsufficientInventory)
      else if tx.key.Some? && tx.key.value in before.orderKeys then Denied(IntegrityError)
      else Created(Serialize(tx.order, OrderOf(before.cfg, tx)))
    requires reply.Created? ==>
      after == WithAnswer(TookAll(Claimed(before, tx), tx.payload.items, tx.picks, tx.order), tx)
    ensures Replies(before, tx, reply, after)
  {
  }

  lemma RowsStillFresh(db: State, taken: State, tx: Tx, ids: seq<LineIds>)
    requires tx.Create? && Legal(tx) && FreshFor(db, tx.order, tx.event, ids) && PicksFor(tx.picks, ids)
    requires taken.cfg == db.cfg && taken.reservations == db.reservations
    ensures FreshRows(taken.reservations, RowsOf(taken.cfg, tx))
  {
  }

  lemma FreshTx(db: State, tx: Tx, ids: seq<LineIds>)
    requires tx.Create? && Legal(tx) && FreshFor(db, tx.order, tx.event, ids) && PicksFor(tx.picks, ids)
    ensures FreshIds(db, tx)
  {
  }

  /** Half-way through the loop: the first `i` lines are taken. */
  ghost predicate Taking(t0: State, lines: seq<Line>, ids: seq<LineIds>, picks: seq<Pick>, i: nat, o: OrderId,
                         now: State) {
    && i <= |lines| == |ids| && PicksFor(picks, ids[..i]) && ProperLines(lines[..i])
    && AllFit(t0.inventory, lines[..i], picks) && now == TookAll(t0, lines[..i], picks, o)
    && (forall j | 0 <= j < i :: FromTheMostStocked(t0.inventory, lines[j], picks[j]))
  }

  /** The next line finds the stock there was at the start, and its event id is still free. */
  lemma StillTheSame(t0: State, lines: seq<Line>, ids: seq<LineIds>, picks: seq<Pick>, i: nat, o: OrderId, now: State)
    requires Taking(t0, lines, ids, picks, i, o, now) && i < |lines| && ProperLines(lines)
    requires FreshLineEvents(t0.events, ids)
    ensures Servable(now.inventory, lines[i]) <==> Servable(t0.inventory, lines[i])
    ensures forall w :: MostStocked(now.inventory, lines[i], w) <==> MostStocked(t0.inventory, lines[i], w)
    ensures ids[i].event !in now.events
  {
    var p := lines[i].product;
    LastFindsTheSame(t0, lines[..i], picks, o, p);
    assert forall w: WarehouseId, q: nat :: HasEnough(now.inventory, p, w, q) <==> HasEnough(t0.inventory, p, w, q);
    assert forall j | 0 <= j < i :: picks[j].event == ids[..i][j].event == ids[j].event;
    TookAllElsewhere(t0, lines[..i], picks, o);
  }

  lemma NotServable(inventory: map<Stock, Inventory>, lines: seq<Line>, ids: seq<LineIds>, picks: seq<Pick>, i: nat)
    requires i < |lines| == |ids| && |picks| == i && PicksFor(picks, ids[..i])
    requires !Servable(inventory, lines[i])
    ensures var all := picks + seq(|lines| - i, j requires 0 <= j < |lines| - i => PickOf(None, ids[i + j]));
      PicksFor(all, ids) && !AllFit(inventory, lines, all)
  {
    var all := picks + seq(|lines| - i, j requires 0 <= j < |lines| - i => PickOf(None, ids[i + j]));
    assert !LineFits(inventory, lines[i], all[i]);
    forall j | 0 <= j < |ids|
      ensures all[j] == PickOf(all[j].warehouse, ids[j])
    {
      if j < i { assert ids[..i][j] == ids[j]; } else { assert all[j] == PickOf(None, ids[i + (j - i)]); }
    }
  }

  lemma Priced(prices: map<ProductId, nat>, lines: seq<Line>, picks: seq<Pick>, i: nat, pick: Pick)
    requires i < |lines| && |picks| == i && pick.warehouse.Some? && forall l | l in lines :: l.product in prices
    ensures forall l | l in lines[..i] :: l.product in prices
    ensures forall l | l in lines[..i + 1] :: l.product in prices
    ensures lines[i].product in prices
    ensures var item := Item(lines[i].product, pick.warehouse.value, lines[i].quantity, prices[lines[i].product]);
      var items := ItemsFor(prices, lines[..i], picks);
      && ItemsFor(prices, lines[..i + 1], picks + [pick]) == items + [item]
      && Total(items + [item]) == Total(items) + item.unitPrice * item.quantity
  {
    var item := Item(lines[i].product, pick.warehouse.value, lines[i].quantity, prices[lines[i].product]);
    var items := ItemsFor(prices, lines[..i], picks);
    assert (items + [item])[..i] == items;
  }

  lemma LineTaken(t0: State, lines: seq<Line>, ids: seq<LineIds>, picks: seq<Pick>, i: nat, w: WarehouseId, o: OrderId,
                  t1: State, t2: State)
    requires Taking(t0, lines, ids, picks, i, o, t1) && i < |lines| && ProperLines(lines)
    requires MostStocked(t0.inventory, lines[i], w) && HasEnough(t1.inventory, lines[i].product, w, lines[i].quantity)
    requires t2 == Took(t1, lines[i].product, w, lines[i].quantity, PickOf(Some(w), ids[i]), o)
    ensures Taking(t0, lines, ids, picks + [PickOf(Some(w), ids[i])], i + 1, o, t2)
  {
    PicksFit(t0.inventory, lines, ids, picks, i, w);
    TookOneLine(t0, lines, picks, i, PickOf(Some(w), ids[i]), o);
  }

  lemma TookOneLine(t0: State, lines: seq<Line>, picks: seq<Pick>, i: nat, pick: Pick, o: OrderId)
    requires i < |lines| && |picks| == i && pick.warehouse.Some? && ProperLines(lines[..i + 1])
    requires ProperLines(lines[..i]) && AllFit(t0.inventory, lines[..i], picks)
    requires AllFit(t0.inventory, lines[..i + 1], picks + [pick])
    ensures var t1, w := TookAll(t0, lines[..i], picks, o), pick.warehouse.value;
      && HasEnough(t1.inventory, lines[i].product, w, lines[i].quantity)
      && TookAll(t0, lines[..i + 1], picks + [pick], o) == Took(t1, lines[i].product, w, lines[i].quantity, pick, o)
  {
    assert lines[..i + 1][..i] == lines[..i] && (picks + [pick])[..i] == picks;
    TookOneMore(t0, lines[..i + 1], picks + [pick], o);
  }

  lemma PicksFit(inventory: map<Stock, Inventory>, lines: seq<Line>, ids: seq<LineIds>, picks: seq<Pick>, i: nat,
                 w: WarehouseId)
    requires i < |lines| == |ids| && PicksFor(picks, ids[..i]) && AllFit(inventory, lines[..i], picks)
    requires MostStocked(inventory, lines[i], w)
    ensures var picks' := picks + [PickOf(Some(w), ids[i])];
      PicksFor(picks', ids[..i + 1]) && AllFit(inventory, lines[..i + 1], picks')
  {
    var picks' := picks + [PickOf(Some(w), ids[i])];
    forall j | 0 <= j < i + 1
      ensures LineFits(inventory, lines[..i + 1][j], picks'[j])
      ensures picks'[j] == PickOf(picks'[j].warehouse, ids[..i + 1][j])
    {
      if j < i {
        assert LineFits(inventory, lines[..i][j], picks[j]);
        assert picks[j] == PickOf(picks[j].warehouse, ids[..i][j]);
      }
    }
  }

  lemma TakingEnds(t0: State, lines: seq<Line>, ids: seq<LineIds>, picks: seq<Pick>, o: OrderId, now: State)
    requires Taking(t0, lines, ids, picks, |lines|, o, now) && ProperLines(lines)
    ensures PicksFor(picks, ids) && AllFit(t0.inventory, lines, picks) && now == TookAll(t0, lines, picks, o)
    ensures forall i | 0 <= i < |lines| ::
      FromTheMostStocked(t0.inventory, lines[i], picks[i]) && Servable(t0.inventory, lines[i])
  {
    assert lines[..|lines|] == lines && ids[..|lines|] == ids;
    forall i | 0 <= i < |lines|
      ensures Servable(t0.inventory, lines[i])
    {
      assert FromTheMostStocked(t0.inventory, lines[i], picks[i]);
    }
  }

  /** What process_order reports. */
  datatype Delivery = Ignored | Ended(status: OrderStatus) | RetryIn(seconds: nat)

  function DeliveryFor(cfg: Config, attempt: nat, token: string, backoff: seq<nat>): Delivery
    requires attempt > 0 && backoff != []
  {
    var status := StatusAfter(cfg, attempt, token);
    if status.Reserved? then RetryIn(if attempt <= |backoff| then backoff[attempt - 1] else backoff[|backoff| - 1])
    else Ended(status)
  }

  /** All that one uninterrupted delivery of a RESERVED order's message does to the tables other than stock. */
  ghost predicate Processed(before: State, o: OrderId, after: State)
    requires o in before.orders
  {
    var n, token := before.orders[o].attempts + 1, before.orders[o].token;
    var s := SettlementOf(before.cfg, n, token);
    && after.orders == before.orders[o := before.orders[o].(status := s.status, attempts := n)]
    && after.reservations == (
      if s.reservations.None? then before.reservations else SettleOrder(before.reservations, o, s.reservations.value))
    && after.deadLetters == before.deadLetters +
         (if s.worker.Recording? then [DeadLetter(o, s.worker.reason, n)] else [])
    && WorkerOf(after, o).Idle?
    && (s.reservations.None? ==> after == before.(orders := after.orders, workers := after.workers))
    && after.keys == before.keys && after.events == before.events && after.alerts == before.alerts
  }

  lemma OutcomeFinishes(db: State, o: OrderId, attempt: nat, token: string, found: seq<Found>)
    requires WorkerOf(db, o) == Charging(attempt, token) && o in db.orders
    ensures Run(db, FinishCode(db.cfg, o, attempt, token, found)) == Run(db, Outcome(db.cfg, o, attempt, token, found))
  {
    var resume, lock := OnWorker(o, Resume(Charging(attempt, token))), OnOrder(o, LockOrder);
    var body := Outcome(db.cfg, o, attempt, token, found);
    RunDo(db, resume, Do(lock, body, Stop(OrderNotFound)), Stop(NothingToDo));
    RunDo(db, lock, body, Stop(OrderNotFound));
  }

  lemma BeginSound(before: State, o: OrderId, after: State)
    requires Inv(before)
    requires var taken := o in before.orders && before.orders[o].status.Reserved?;
      Ends(before, BeginCode(o), if taken then Accepted else Refused(NothingToDo), after)
    ensures Inv(after) && SomethingEach(after.reservations)
    ensures if o in before.orders && before.orders[o].status.Reserved?
      then after == before.(orders := before.orders[o := Started(before.orders[o])],
                            workers := before.workers[o := Charging(before.orders[o].attempts + 1,
                                                                    before.orders[o].token)])
      else after == before
  {
    var taken := o in before.orders && before.orders[o].status.Reserved?;
    BeginEffect(before, o);
    EndsSound(before, Begin(o), if taken then Accepted else Refused(NothingToDo), after);
  }

  lemma ChargedSound(t1: State, o: OrderId, n: nat, token: string, found: seq<Found>, t2: State, t3: State)
    requires Inv(t1) && o in t1.orders && ActiveRowsOf(found, o)
    requires Run(t1, FinishCode(t1.cfg, o, n, token, found)) == Committed(t2)
    requires var w := SettlementOf(t1.cfg, n, token).worker;
      if w.Recording? then Run(t2, RecordCode(o, n, w.reason)) == Committed(t3) else t3 == t2
    ensures Inv(t3)
  {
    EndsSound(t1, Finish(o, n, token, found), Accepted, t2);
    var w := SettlementOf(t1.cfg, n, token).worker;
    FinishEffect(t1, o, n, token, found);
    if w.Recording? { EndsSound(t2, Record(o, n, w.reason), Accepted, t3); }
  }

  lemma ChargedMeans(t0: State, t1: State, found: seq<Found>, t2: State, t3: State, o: OrderId)
    requires o in t0.orders && ActiveRowsOf(found, o)
    requires t1 == t0.(orders := t0.orders[o := Started(t0.orders[o])],
                       workers := t0.workers[o := Charging(t0.orders[o].attempts + 1, t0.orders[o].token)])
    requires Run(t1, FinishCode(t1.cfg, o, t0.orders[o].attempts + 1, t0.orders[o].token, found)) == Committed(t2)
    requires var w := SettlementOf(t1.cfg, t0.orders[o].attempts + 1, t0.orders[o].token).worker;
      if w.Recording? then Run(t2, RecordCode(o, t0.orders[o].attempts + 1, w.reason)) == Committed(t3) else t3 == t2
    ensures Processed(t0, o, t3)
  {
    var n, token := t0.orders[o].attempts + 1, t0.orders[o].token;
    var w := SettlementOf(t1.cfg, n, token).worker;
    FinishEffect(t1, o, n, token, found);
    ClosedBy(t0, t1, t2, o);
    if w.Recording? { RecordEffect(t2, o, n, w.reason); }
  }

  /** The same up to the second commit, with the worker still to write its dead letter. */
  ghost predicate Closed(before: State, o: OrderId, after: State)
    requires o in before.orders
  {
    var n, token := before.orders[o].attempts + 1, before.orders[o].token;
    var s := SettlementOf(before.cfg, n, token);
    && after.orders == before.orders[o := before.orders[o].(status := s.status, attempts := n)]
    && after.reservations == (
      if s.reservations.None? then before.reservations else SettleOrder(before.reservations, o, s.reservations.value))
    && after.deadLetters == before.deadLetters
    && WorkerOf(after, o) == s.worker
    && (s.reservations.None? ==> after == before.(orders := after.orders, workers := after.workers))
    && after.keys == before.keys && after.events == before.events && after.alerts == before.alerts
  }

  lemma ClosedBy(t0: State, t1: State, t2: State, o: OrderId)
    requires o in t0.orders
    requires t1 == t0.(orders := t0.orders[o := Started(t0.orders[o])],
                       workers := t0.workers[o := Charging(t0.orders[o].attempts + 1, t0.orders[o].token)])
    requires Finished(t1, t2, o, SettlementOf(t1.cfg, t0.orders[o].attempts + 1, t0.orders[o].token))
    ensures Closed(t0, o, t2)
  {
  }

  lemma EndsSound(before: State, tx: Tx, answer: Answer, after: State)
    requires Inv(before) && Legal(tx) && Ends(before, Code(before.cfg, tx), answer, after)
    ensures Inv(after)
  {
    if answer.Accepted? { TransactionKeepsInv(before, tx); }
  }

  lemma CancelSound(before: State, o: OrderId, user: User, found: seq<Found>, answer: Answer, after: State)
    requires Inv(before) && ActiveRowsOf(found, o) && Ends(before, CancelCode(o, user, found), answer, after)
    requires MayCancel(before, o, user) ==> Covers(before, o, found)
    ensures Inv(after) && (answer.Accepted? <==> MayCancel(before, o, user))
    ensures answer.Accepted? ==> CancelledBy(before, after, o)
  {
    CancelEffect(before, o, user, found);
    EndsSound(before, Cancel(o, user, found), answer, after);
  }

  /** What an order still holds, selected and settled, and then `k`. */
  function SettleThen(o: OrderId, found: seq<Found>, how: ReservationStatus, k: Prog): Prog {
    Do(SelectActive(o, found), Settle(found, o, how, k), Stop(OtherRead))
  }

  lemma SelectedRuns(db: State, o: OrderId, found: seq<Found>, how: ReservationStatus, k: Prog)
    requires Covers(db, o, found)
    ensures Run(db, SettleThen(o, found, how, k)) == Run(db, Settle(found, o, how, k))
  {
    assert Ok(db, SelectActive(o, found));
  }

  lemma CancelRuns(db: State, o: OrderId, user: User, found: seq<Found>)
    ensures Run(db, CancelCode(o, user, found)) ==
      if o !in db.orders then Stopped(OrderNotFound)
      else if user.role.Client? && db.orders[o].owner != user.id then Stopped(Forbidden)
      else if !db.orders[o].status.Pending? && !db.orders[o].status.Reserved? then Stopped(CannotCancel)
      else Run(db, SettleThen(o, found, Released, Then(OnOrder(o, SetStatus(Cancelled)), Commit)))
  {
    var lock, see, may := OnOrder(o, LockOrder), OnOrder(o, IsVisible(user)), OnOrder(o, IsCancellable);
    var close := Then(OnOrder(o, SetStatus(Cancelled)), Commit);
    var settle := Do(SelectActive(o, found), Settle(found, o, Released, close), Stop(OtherRead));
    var allowed := Do(may, settle, Stop(CannotCancel));
    RunDo(db, lock, Do(see, allowed, Stop(Forbidden)), Stop(OrderNotFound));
    RunDo(db, see, allowed, Stop(Forbidden));
    RunDo(db, may, settle, Stop(CannotCancel));
  }
}

/** Runs that show where the code stops short of what one might expect of it. */
module Scenarios {
  import opened Schema
  import opened Statements
  import opened Transactions
  import opened Effects
  import opened Invariant
  import opened Runs
  import opened Creation
  import opened LowStock
  import opened StockSteps
  import opened Alerts
  import opened Lifecycle

  /** One product at one price, one warehouse. */
  const SHOP := Config(map[0 := 100], {0}, 3, 10)

  function Empty(): State { State(SHOP, map[], map[], map[], map[], map[], map[], [], [], [], map[], {}, 0) }

  /** Five units delivered, to be watched from four units down. */
  function Stocked(): State {
    Empty().(inventory := map[(0, 0) := Inventory(5, 0, Some(4), false)],
             audit := [AuditEntry(0, 0, 5, StockAdded, Note("delivery"))])
  }

  function Delivery(): Tx { Adjust(0, 0, 5, "delivery", true, 0, 0) }
  function Watch(): Tx { Threshold(0, 0, 4, false) }

  lemma StockedRun()
    ensures var mid := Stocked().(inventory := map[(0, 0) := Inventory(5, 0, None, false)]);
      IsRun([Empty(), mid, Stocked()], [Does(Delivery()), Does(Watch())])
  {
    var insert := OnStock(0, 0, InsertStock(Inventory(5, 0, None, false)));
    var log := Audit(AuditEntry(0, 0, 5, StockAdded, Note("delivery")));
    RunDo(Empty(), insert, Then(log, Commit), Stop(IntegrityError));
    RunDo(Exec(Empty(), insert), log, Commit, Stop(IntegrityError));
    var mid := Stocked().(inventory := map[(0, 0) := Inventory(5, 0, None, false)]);
    assert Next(Empty(), Does(Delivery()), mid);
    RunDo(mid, OnStock(0, 0, SetThreshold(4)), Commit, Stop(NothingToDo));
    assert Next(mid, Does(Watch()), Stocked());
  }

  /** One unit ordered. */
  function OneUnit(key: Option<string>, token: string): Tx {
    Create(Payload([Line(0, 1)], token), User(7, Client), key, 0, 0, 0, [Pick(Some(0), 0, 0, 1)])
  }

  lemma OneUnitLegal(key: Option<string>, token: string)
    ensures FreshIds(Stocked(), OneUnit(key, token)) && Refusal(Stocked(), OneUnit(key, token)).None?
  {
    var tx := OneUnit(key, token);
    assert AllFit(Stocked().inventory, tx.payload.items, tx.picks);
  }

  function Ordered(key: Option<string>, token: string): State {
    OneUnitLegal(key, token);
    Placed(Stocked(), OneUnit(key, token))
  }

  function UnitHeld(): Reservation { Reservation(0, 0, 0, 1, 10, Active) }

  lemma OrderedRun(key: Option<string>, token: string) returns (states: seq<State>, steps: seq<Step>)
    ensures IsRun(states, steps) && states[|states| - 1] == Ordered(key, token)
  {
    OneUnitLegal(key, token);
    CreateExact(Stocked(), OneUnit(key, token));
    StockedRun();
    var mid := Stocked().(inventory := map[(0, 0) := Inventory(5, 0, None, false)]);
    states, steps := [Empty(), mid, Stocked()], [Does(Delivery()), Does(Watch())];
    ExtendRun(states, steps, Does(OneUnit(key, token)), Ordered(key, token));
    states, steps := states + [Ordered(key, token)], steps + [Does(OneUnit(key, token))];
  }

  lemma OrderedRows(key: Option<string>, token: string)
    ensures var db := Ordered(key, token);
      && db.cfg == SHOP && db.clock == 0 && db.workers == map[]
      && db.orders.Keys == {0} && db.orders[0].status.Reserved?
      && db.orders[0].attempts == 0 && db.orders[0].token == token
      && db.reservations == map[0 := UnitHeld()]
      && (key.Some? ==> key.value in db.orderKeys) && (!Claims(key) ==> db.keys == map[])
  {
    OneUnitLegal(key, token);
    PlacedMeans(Stocked(), OneUnit(key, token));
    CreatedRows(Ordered(key, token), key, token);
  }

  lemma CreatedRows(db: State, key: Option<string>, token: string)
    requires Created(Stocked(), db, OneUnit(key, token))
    ensures db.cfg == SHOP && db.clock == 0 && db.workers == map[]
    ensures db.orders.Keys == {0} && db.orders[0].status.Reserved? && db.orders[0].attempts == 0
    ensures db.orders[0].token == token
    ensures db.reservations == map[0 := UnitHeld()]
    ensures (key.Some? ==> key.value in db.orderKeys) && (!Claims(key) ==> db.keys == map[])
  {
    var rows := RowsOf(SHOP, OneUnit(key, token));
    assert rows == [(0, UnitHeld())];
    assert AddsRows(map[], db.reservations, rows);
    forall id | id in db.reservations
      ensures id == 0
    {
      assert Listed(rows, id);
    }
    assert rows[0].0 in db.reservations && db.reservations[rows[0].0] == rows[0].1;
  }

  lemma OrderedStock(key: Option<string>, token: string)
    ensures Ordered(key, token).inventory == map[(0, 0) := Inventory(4, 1, Some(4), true)]
  {
    var tx := OneUnit(key, token);
    OneUnitLegal(key, token);
    PlacedMeans(Stocked(), tx);
    assert LineFits(Stocked().inventory, tx.payload.items[0], tx.picks[0]);
    TakenStock(Ordered(key, token).inventory);
  }

  lemma TakenStock(inventory: map<Stock, Inventory>)
    requires AllFit(Stocked().inventory, [Line(0, 1)], [Pick(Some(0), 0, 0, 1)])
    requires StockTaken(Stocked().inventory, inventory, [Line(0, 1)], [Pick(Some(0), 0, 0, 1)])
    ensures inventory == map[(0, 0) := Inventory(4, 1, Some(4), true)]
  {
    assert LineFits(Stocked().inventory, [Line(0, 1)][0], [Pick(Some(0), 0, 0, 1)][0]);
  }

  // ---- an expiry batch overtakes a payment ----

  /** Whatever its order's status, an overdue ACTIVE reservation can be claimed. */
  lemma SweepOne(db: State, now: int, id: ReservationId, r: Reservation) returns (db': State)
    requires now <= db.clock && IsActive(db, id) && db.reservations[id] == r && r.expiresAt < now && r.quantity > 0
    ensures Next(db, Does(Expire(now, [(id, r)])), db') && Swept(db, db', [(id, r)])
    ensures db'.reservations == db.reservations[id := r.(status := Released)]
  {
    var claims := [(id, r)];
    assert Overdue(db, claims, now);
    ExpireEffect(db, now, claims);
    db' := Run(db, ExpireCode(now, claims)).db;
    assert claims[0].0 == id;
    assert Listed(claims, id);
  }

  // each of these takes a run one step further

  ghost function Last(states: seq<State>): State
    requires states != []
  {
    states[|states| - 1]
  }

  lemma ThenBegin(states: seq<State>, steps: seq<Step>, o: OrderId) returns (db': State)
    requires IsRun(states, steps) && o in Last(states).orders && Last(states).orders[o].status.Reserved?
    ensures IsRun(states + [db'], steps + [Does(Begin(o))])
    ensures var db := Last(states);
      db' == db.(orders := db.orders[o := Started(db.orders[o])],
                 workers := db.workers[o := Charging(db.orders[o].attempts + 1, db.orders[o].token)])
  {
    BeginEffect(Last(states), o);
    db' := After(Last(states), BeginCode(o));
    ExtendRun(states, steps, Does(Begin(o)), db');
  }

  lemma ThenSweep(states: seq<State>, steps: seq<Step>, now: int, id: ReservationId, r: Reservation)
    returns (mid: State, db': State)
    requires IsRun(states, steps) && Last(states).clock <= now && IsActive(Last(states), id)
    requires Last(states).reservations[id] == r && r.expiresAt < now && r.quantity > 0
    ensures IsRun(states + [mid] + [db'], steps + [Tick(now)] + [Does(Expire(now, [(id, r)]))])
    ensures mid == Last(states).(clock := now) && Swept(mid, db', [(id, r)])
    ensures db'.reservations == mid.reservations[id := r.(status := Released)]
  {
    mid := Last(states).(clock := now);
    ExtendRun(states, steps, Tick(now), mid);
    db' := SweepOne(mid, now, id, r);
    ExtendRun(states + [mid], steps + [Tick(now)], Does(Expire(now, [(id, r)])), db');
  }

  lemma ThenFinish(states: seq<State>, steps: seq<Step>, o: OrderId, n: nat, token: string) returns (db': State)
    requires IsRun(states, steps) && o in Last(states).orders && WorkerOf(Last(states), o) == Charging(n, token)
    requires forall id | id in Last(states).reservations :: !IsActive(Last(states), id)
    ensures IsRun(states + [db'], steps + [Does(Finish(o, n, token, []))])
    ensures o in db'.orders && db'.orders[o].status == SettlementOf(Last(states).cfg, n, token).status
    ensures db'.reservations == Last(states).reservations
  {
    db' := FinishWithNone(Last(states), o, n, token);
    ExtendRun(states, steps, Does(Finish(o, n, token, [])), db');
  }

  lemma FinishWithNone(db: State, o: OrderId, n: nat, token: string) returns (db': State)
    requires o in db.orders && WorkerOf(db, o) == Charging(n, token)
    requires forall id | id in db.reservations :: !IsActive(db, id)
    ensures Next(db, Does(Finish(o, n, token, [])), db')
    ensures o in db'.orders && db'.orders[o].status == SettlementOf(db.cfg, n, token).status
    ensures db'.reservations == db.reservations
  {
    FinishEffect(db, o, n, token, []);
    db' := Run(db, FinishCode(db.cfg, o, n, token, [])).db;
  }

  /** The worker takes the order, and its reservation expires. */
  lemma OvertakenPayment(token: string) returns (states: seq<State>, steps: seq<Step>)
    ensures IsRun(states, steps)
    ensures var last := states[|steps|];
      && last.cfg == SHOP && 0 in last.orders && WorkerOf(last, 0) == Charging(1, token)
      && last.reservations == map[0 := UnitHeld().(status := Released)]
  {
    states, steps := OrderedRun(None, token);
    OrderedRows(None, token);
    var a := ThenBegin(states, steps, 0);
    states, steps := states + [a], steps + [Does(Begin(0))];
    var b, c := ThenSweep(states, steps, 11, 0, UnitHeld());
    states, steps := states + [b] + [c], steps + [Tick(11)] + [Does(Expire(11, [(0, UnitHeld())]))];
  }

  /** A COMPLETED order can hold a RELEASED reservation, and an order sent back to RESERVED for another
      payment attempt can have none that is ACTIVE. */
  lemma OvertakenOrder(token: string) returns (states: seq<State>, steps: seq<Step>)
    ensures IsRun(states, steps)
    ensures var last := states[|steps|];
      && 0 in last.orders && (token == "success" ==> last.orders[0].status.Completed?)
      && (token == "fail_retryable" ==> last.orders[0].status.Reserved?)
      && last.reservations == map[0 := UnitHeld().(status := Released)]
  {
    states, steps := OvertakenPayment(token);
    var d := ThenFinish(states, steps, 0, 1, token);
    states, steps := states + [d], steps + [Does(Finish(0, 1, token, []))];
  }

  /** Five units and a flag raised at four: the one order there was has expired. */
  ghost predicate Stale(db: State) {
    && db.cfg == SHOP && db.clock == 11
    && db.orders.Keys == {0} && db.reservations.Keys == {0} && db.events.Keys <= {0, 1}
    && (0, 0) in db.inventory && db.inventory[(0, 0)].low
    && db.inventory[(0, 0)].threshold == Some(4) && db.inventory[(0, 0)].available == 5
  }

  /** After an expiry batch the low-stock flag can be up on stock above its threshold. */
  lemma StaleFlag() returns (states: seq<State>, steps: seq<Step>)
    ensures IsRun(states, steps) && Stale(states[|steps|])
  {
    states, steps := OrderedRun(None, "success");
    OrderedRows(None, "success");
    OrderedStock(None, "success");
    OrderedEvents(None, "success");
    var a, b := ThenSweep(states, steps, 11, 0, UnitHeld());
    states, steps := states + [a] + [b], steps + [Tick(11)] + [Does(Expire(11, [(0, UnitHeld())]))];
    StaleAfterSweep(states, steps, a, b);
  }

  lemma StaleAfterSweep(states: seq<State>, steps: seq<Step>, a: State, b: State)
    requires IsRun(states, steps) && |steps| >= 2 && states[|steps| - 1] == a && states[|steps|] == b
    requires steps[|steps| - 1] == Does(Expire(11, [(0, UnitHeld())]))
    requires a.inventory == map[(0, 0) := Inventory(4, 1, Some(4), true)]
    ensures (0, 0) in b.inventory
    ensures b.inventory[(0, 0)].low && b.inventory[(0, 0)].threshold == Some(4) && b.inventory[(0, 0)].available == 5
  {
    FlagStays(states, steps, |steps| - 1, 11, [(0, UnitHeld())], 0, 0);
    UnitClaimed();
  }

  lemma UnitClaimed()
    ensures ClaimedUnits([(0, UnitHeld())], 0, 0) == 1
  {
    var claims := [(0, UnitHeld())];
    assert ClaimedUnits(claims, 0, 0) == 1 + ClaimedUnits(claims[1..], 0, 0);
  }

  lemma FlagStays(states: seq<State>, steps: seq<Step>, i: nat, now: int, claims: seq<Found>, p: ProductId,
                  w: WarehouseId)
    requires IsRun(states, steps) && i < |steps| && steps[i] == Does(Expire(now, claims))
    requires (p, w) in states[i].inventory
    ensures (p, w) in states[i + 1].inventory
    ensures var a, b := states[i].inventory[(p, w)], states[i + 1].inventory[(p, w)];
      b == a.(available := a.available + ClaimedUnits(claims, p, w), reserved := b.reserved)
  {
    assert Inv(states[i]) by { RunsKeepInv(states, steps, i); }
    ExpireMoved(states[i], steps[i], states[i + 1]);
    ExpireGivesBack(states[i], Expire(now, claims), p, w);
  }

  /** The same request once more, with new ids. */
  function SameAgain(key: Option<string>, token: string): Tx {
    Create(Payload([Line(0, 1)], token), User(7, Client), key, 1, 2, 0, [Pick(Some(0), 1, 0, 3)])
  }

  /** Then the next crossing of the threshold raises no alert. */
  lemma SilentCrossing() returns (states: seq<State>, steps: seq<Step>)
    ensures IsRun(states, steps) && steps != []
    ensures var a, b := states[|steps| - 1], states[|steps|];
      Crossed(a.inventory, b.inventory, (0, 0)) && AlertCount(b.alerts, (0, 0)) == AlertCount(a.alerts, (0, 0))
  {
    states, steps := StaleFlag();
    var db' := OrderAgain(Last(states));
    ExtendRun(states, steps, Does(SameAgain(None, "success")), db');
    var n := |steps|;
    states, steps := states + [db'], steps + [Does(SameAgain(None, "success"))];
    AlertsOverRuns(states, steps, n, (0, 0));
  }

  lemma OrderAgain(db: State) returns (db': State)
    requires Stale(db)
    ensures Next(db, Does(SameAgain(None, "success")), db') && Crossed(db.inventory, db'.inventory, (0, 0))
  {
    var tx := SameAgain(None, "success");
    assert AllFit(db.inventory, tx.payload.items, tx.picks);
    CreateExact(db, tx);
    db' := Placed(db, tx);
    PlacedMeans(db, tx);
    assert LineFits(db.inventory, tx.payload.items[0], tx.picks[0]);
  }

  /** A second order under the empty key, for the same thing, fails although the first one went through. */
  lemma EmptyKeyRepeat(token: string) returns (states: seq<State>, steps: seq<Step>)
    ensures IsRun(states, steps)
    ensures Run(states[|steps|], Code(SHOP, SameAgain(Some(""), token))) == Stopped(IntegrityError)
  {
    states, steps := OrderedRun(Some(""), token);
    var db := Ordered(Some(""), token);
    var again := SameAgain(Some(""), token);
    OrderedRows(Some(""), token);
    OrderedStock(Some(""), token);
    OrderedEvents(Some(""), token);
    CreateExact(db, again);
  }

  lemma OrderedEvents(key: Option<string>, token: string)
    ensures Ordered(key, token).events.Keys <= {0, 1}
  {
    var tx := OneUnit(key, token);
    OneUnitLegal(key, token);
    TookAllElsewhere(Claimed(Stocked(), tx), tx.payload.items, tx.picks, tx.order);
  }

  // ---- a unit used up, and a worker lost ----

  /** Once an order has used a unit up, `change` summed over the whole log is not what is available. */
  lemma UnitUsedUp() returns (states: seq<State>, steps: seq<Step>)
    ensures IsRun(states, steps)
    ensures var last := states[|steps|];
      Accounts.Logged(last.audit, 0, 0, None, Accounts.EVERY_KIND) != Accounts.AvailableAt(last, 0, 0)
  {
    states, steps := OrderedRun(None, "success");
    OrderedRows(None, "success");
    var a := ThenBegin(states, steps, 0);
    states, steps := states + [a], steps + [Does(Begin(0))];
    var b := CompleteOne(a, 0, 1, "success", 0, UnitHeld());
    ExtendRun(states, steps, Does(Finish(0, 1, "success", [(0, UnitHeld())])), b);
    states, steps := states + [b], steps + [Does(Finish(0, 1, "success", [(0, UnitHeld())]))];
    assert Inv(b) by { RunsKeepInv(states, steps, |steps|); }
    Accounts.WholeLogIsAvailableIffNothingUsed(b, 0, 0);
  }

  lemma CompleteOne(db: State, o: OrderId, n: nat, token: string, id: ReservationId, r: Reservation)
    returns (db': State)
    requires o in db.orders && WorkerOf(db, o) == Charging(n, token) && Charge(token).Approved?
    requires db.reservations == map[id := r] && r.status.Active? && r.order == o && r.quantity > 0
    ensures Next(db, Does(Finish(o, n, token, [(id, r)])), db')
    ensures db'.reservations == map[id := r.(status := Consumed)]
  {
    var found := [(id, r)];
    assert found[0].0 == id && Listed(found, id);
    assert Covers(db, o, found);
    FinishEffect(db, o, n, token, found);
    db' := Run(db, FinishCode(db.cfg, o, n, token, found)).db;
  }

  /** A worker that dies between its first two commits leaves its order PROCESSING with nobody to end it. */
  lemma LostWorker(token: string) returns (states: seq<State>, steps: seq<Step>)
    ensures IsRun(states, steps) && Stranded(states[|steps|], 0)
  {
    states, steps := OrderedRun(None, token);
    OrderedRows(None, token);
    var a := ThenBegin(states, steps, 0);
    states, steps := states + [a], steps + [Does(Begin(0))];
    var b := a.(workers := a.workers[0 := Idle]);
    ExtendRun(states, steps, Crash(0), b);
    states, steps := states + [b], steps + [Crash(0)];
  }
}

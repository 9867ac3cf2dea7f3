/** N customers after the last K units, in every interleaving of their orders: exactly min(N, K) are served. */
module LastUnits {
  import opened Schema
  import opened Statements
  import opened Transactions
  import opened Discipline
  import opened Runs
  import opened Interleaving
  import opened Creation

  // ---- one customer ----

  /** `tx` orders one unit of `p`, from `w`. */
  predicate WantsOne(db: State, tx: Tx, p: ProductId, w: WarehouseId) {
    && FreshIds(db, tx) && tx.payload.items == [Line(p, 1)] && tx.key.None? && tx.now <= db.clock
    && tx.picks[0].warehouse == Some(w)
  }

  predicate Sells(db: State, p: ProductId) { p in db.cfg.prices }

  function UnitsAt(db: State, p: ProductId, w: WarehouseId): nat {
    if (p, w) in db.inventory then db.inventory[(p, w)].available else 0
  }

  lemma UnitFits(db: State, tx: Tx, p: ProductId, w: WarehouseId)
    requires WantsOne(db, tx, p, w) && Sells(db, p)
    ensures AllFit(db.inventory, tx.payload.items, tx.picks) <==> UnitsAt(db, p, w) > 0
    ensures AllKnown(db.cfg, tx.payload.items)
  {
    assert tx.payload.items[0] == Line(p, 1);
    assert AllFit(db.inventory, tx.payload.items, tx.picks) <==>
      LineFits(db.inventory, tx.payload.items[0], tx.picks[0]);
  }

  /** Run alone, such an order stops if and only if there is no unit left. */
  lemma StopsIffNoneLeft(db: State, tx: Tx, p: ProductId, w: WarehouseId)
    requires WantsOne(db, tx, p, w) && Sells(db, p)
    ensures Run(db, Code(db.cfg, tx)) ==
      if UnitsAt(db, p, w) == 0 then Stopped(InsufficientInventory) else Committed(Placed(db, tx))
    ensures UnitsAt(db, p, w) > 0 ==> Refusal(db, tx).None?
  {
    UnitFits(db, tx, p, w);
    CreateExact(db, tx);
  }

  function EventsOf(tx: Tx): set<EventId>
    requires tx.Create?
  {
    {tx.event} + set i | 0 <= i < |tx.picks| :: tx.picks[i].event
  }

  function ReservationsOf(tx: Tx): set<ReservationId>
    requires tx.Create?
  {
    set i | 0 <= i < |tx.picks| :: tx.picks[i].reservation
  }

  /** Two orders have no id in common. */
  predicate Apart(a: Tx, b: Tx) {
    a.Create? && b.Create? && a.order != b.order && EventsOf(a) !! EventsOf(b) && ReservationsOf(a) !! ReservationsOf(b)
  }

  /** `b` has no ids but those of `a` and of `tx`. */
  predicate OnlyIdsOf(a: State, tx: Tx, b: State)
    requires tx.Create?
  {
    && b.cfg == a.cfg && b.clock == a.clock && b.orders.Keys <= a.orders.Keys + {tx.order}
    && b.events.Keys <= a.events.Keys + EventsOf(tx) && b.reservations.Keys <= a.reservations.Keys + ReservationsOf(tx)
  }

  lemma {:induction false} WithRowsKeys(m: map<ReservationId, Reservation>, rows: seq<Found>, id: ReservationId)
    requires id in WithRows(m, rows)
    ensures id in m || exists i :: 0 <= i < |rows| && rows[i].0 == id
    decreases |rows|
  {
    if rows != [] {
      WithRowsKeys(m[rows[0].0 := rows[0].1], rows[1..], id);
      if i :| 0 <= i < |rows[1..]| && rows[1..][i].0 == id {
        assert rows[i + 1].0 == id;
      } else if id !in m {
        assert rows[0].0 == id;
      }
    }
  }

  lemma AnswerIds(a: State, tx: Tx, taken: State)
    requires tx.Create? && Legal(tx) && AllKnown(taken.cfg, tx.payload.items) && OnlyIdsOf(a, tx, taken)
    requires taken.reservations == a.reservations
    ensures OnlyIdsOf(a, tx, WithAnswer(taken, tx))
  {
    var rows, db' := RowsOf(taken.cfg, tx), WithAnswer(taken, tx);
    forall id | id in db'.reservations && id !in a.reservations
      ensures id in ReservationsOf(tx)
    {
      WithRowsKeys(taken.reservations, rows, id);
      var i :| 0 <= i < |rows| && rows[i].0 == id;
      assert tx.picks[i].reservation == id;
    }
  }

  lemma PlacedIds(db: State, tx: Tx)
    requires FreshIds(db, tx) && Refusal(db, tx).None?
    ensures OnlyIdsOf(db, tx, Placed(db, tx))
  {
    TakenIds(db, Claimed(db, tx), tx);
    AnswerIds(db, tx, TookAll(Claimed(db, tx), tx.payload.items, tx.picks, tx.order));
  }

  lemma TakenIds(db: State, claimed: State, tx: Tx)
    requires tx.Create? && Legal(tx) && FreshEvents(db.events, tx.picks) && claimed == db.(keys := claimed.keys)
    requires AllFit(claimed.inventory, tx.payload.items, tx.picks)
    ensures var taken := TookAll(claimed, tx.payload.items, tx.picks, tx.order);
      OnlyIdsOf(db, tx, taken) && taken.reservations == db.reservations
  {
    TookAllElsewhere(claimed, tx.payload.items, tx.picks, tx.order);
  }

  lemma StillWants(a: State, tx: Tx, b: State, other: Tx, p: ProductId, w: WarehouseId)
    requires WantsOne(a, other, p, w) && Apart(tx, other) && OnlyIdsOf(a, tx, b)
    ensures WantsOne(b, other, p, w)
  {
    assert forall i | 0 <= i < |other.picks| ::
      other.picks[i].event in EventsOf(other) && other.picks[i].reservation in ReservationsOf(other);
    assert other.event in EventsOf(other);
  }

  /** One order committed: one unit and one order more, and the other customers' ids are still free. */
  lemma ServedOne(db: State, tx: Tx, db': State, p: ProductId, w: WarehouseId)
    requires WantsOne(db, tx, p, w) && Sells(db, p) && Next(db, Does(tx), db')
    ensures Sells(db', p) && UnitsAt(db', p, w) + 1 == UnitsAt(db, p, w) && |db'.orders| == |db.orders| + 1
    ensures OnlyIdsOf(db, tx, db')
  {
    StopsIffNoneLeft(db, tx, p, w);
    UnitFits(db, tx, p, w);
    PlacedIds(db, tx);
    PlacedMeans(db, tx);
    assert LineFits(db.inventory, tx.payload.items[0], tx.picks[0]);
    assert tx.payload.items[0] == Line(p, 1);
  }

  // ---- the race ----

  /** How many were entered, how many committed, how many gave up. */
  datatype Tally = Tally(entered: nat, served: nat, failed: nat)

  function TallyAfter(y: Tally, m: Move): Tally {
    match m
    case Open(_, _) => y.(entered := y.entered + 1)
    case CommitIt(_) => y.(served := y.served + 1)
    case Abort(_) => y.(failed := y.failed + 1)
    case _ => y
  }

  function Tallied(moves: seq<Move>, a: nat, b: nat): Tally
    requires a <= b <= |moves|
  {
    if a == b then Tally(0, 0, 0) else TallyAfter(Tallied(moves, a, b - 1), moves[b - 1])
  }

  predicate ApartFrom(tx: Tx, live: map<nat, Txn>) { forall u | u in live :: Apart(tx, live[u].tx) }

  /** Only customers who want one unit come in, with ids of their own, and none gives up before its code does. */
  predicate FairMove(x: World, m: Move, p: ProductId, w: WarehouseId) {
    match m
    case Open(_, tx) => WantsOne(x.db, tx, p, w) && ApartFrom(tx, x.live)
    case Abort(t) => t in x.live ==> x.live[t].conf.rest.Stop?
    case _ => true
  }

  /** A customer who can only give up any more found nothing left. */
  predicate CustomerOk(db: State, n: Txn, p: ProductId, w: WarehouseId) {
    WantsOne(db, n.tx, p, w) && (Quiet(n.conf.rest) ==> UnitsAt(db, p, w) == 0)
  }

  predicate AllCustomers(db: State, live: map<nat, Txn>, p: ProductId, w: WarehouseId) {
    forall t | t in live :: CustomerOk(db, live[t], p, w)
  }

  predicate AllApart(live: map<nat, Txn>) {
    forall t, u | t in live && u in live && t != u :: Apart(live[t].tx, live[u].tx)
  }

  predicate CustomersOk(x: World, p: ProductId, w: WarehouseId) { AllCustomers(x.db, x.live, p, w) && AllApart(x.live) }

  /** A commit takes a unit and adds an order; giving up means there is no unit. */
  predicate Counted(x: World, m: Move, x': World, p: ProductId, w: WarehouseId) {
    var served, ended := if m.CommitIt? then 1 else 0, if m.CommitIt? || m.Abort? then 1 else 0;
    && Sells(x'.db, p) && UnitsAt(x'.db, p, w) + served == UnitsAt(x.db, p, w)
    && |x'.db.orders| == |x.db.orders| + served
    && |x'.live| + ended == |x.live| + (if m.Open? then 1 else 0)
    && (m.Abort? ==> UnitsAt(x.db, p, w) == 0)
  }

  /** `k` units and `n` orders to begin with. */
  predicate CountsOk(x: World, y: Tally, k: nat, n: nat, p: ProductId, w: WarehouseId) {
    && UnitsAt(x.db, p, w) + y.served == k && |x.db.orders| == n + y.served
    && y.entered == y.served + y.failed + |x.live| && (y.failed > 0 ==> UnitsAt(x.db, p, w) == 0)
  }

  /** Code that can only give up, where the same order run alone would commit if a unit were left. */
  lemma GivesUpIfNoneLeft(db: State, tx: Tx, view: State, rest: Prog, p: ProductId, w: WarehouseId)
    requires WantsOne(db, tx, p, w) && Sells(db, p) && Quiet(rest) && Run(db, Code(db.cfg, tx)) == Run(view, rest)
    ensures UnitsAt(db, p, w) == 0
  {
    QuietStops(view, rest);
    StopsIffNoneLeft(db, tx, p, w);
  }

  lemma AdvanceKeepsCustomer(db: State, n: Txn, next: Txn, p: ProductId, w: WarehouseId)
    requires TxnOk(db, n) && n.conf.rest.Do? && Sells(db, p) && CustomerOk(db, n, p, w)
    requires next.tx == n.tx && next.conf == Advance(db, n.conf)
    ensures CustomerOk(db, next, p, w)
  {
    if Quiet(next.conf.rest) && !Quiet(n.conf.rest) {
      LiveRuns(db, n);
      AdvanceIsExec(db, n.conf);
      RunDo(View(db, n.conf), n.conf.rest.s, n.conf.rest.yes, n.conf.rest.no);
      GivesUpIfNoneLeft(db, n.tx, View(db, next.conf), next.conf.rest, p, w);
    }
  }

  lemma OneMoreApart(live: map<nat, Txn>, t: nat, n: Txn)
    requires AllApart(live) && t !in live && ApartFrom(n.tx, live)
    ensures AllApart(live[t := n]) && |live[t := n]| == |live| + 1
  {
    assert live[t := n].Keys == live.Keys + {t};
    forall u | u in live
      ensures Apart(live[u].tx, n.tx)
    {
      assert Apart(n.tx, live[u].tx);
    }
  }

  lemma GoesOnApart(live: map<nat, Txn>, t: nat, n: Txn)
    requires AllApart(live) && t in live && n.tx == live[t].tx
    ensures AllApart(live[t := n]) && |live[t := n]| == |live|
  {
    assert live[t := n].Keys == live.Keys;
  }

  lemma OneFewerApart(live: map<nat, Txn>, t: nat)
    requires AllApart(live) && t in live
    ensures AllApart(live - {t}) && |live - {t}| + 1 == |live|
  {
    assert (live - {t}).Keys == live.Keys - {t};
  }

  lemma OpensAsCustomer(db: State, tx: Tx, p: ProductId, w: WarehouseId)
    requires WantsOne(db, tx, p, w) && Sells(db, p)
    ensures CustomerOk(db, Txn(tx, Start(db.cfg, tx), [], Process(tx)), p, w)
  {
    var rest := Code(db.cfg, tx);
    if Quiet(rest) { GivesUpIfNoneLeft(db, tx, db, rest, p, w); }
  }

  lemma OpenAdds(x: World, m: Move, x': World)
    requires Moves(x, m, x') && m.Open?
    ensures Legal(m.tx) && m.t !in x.live && x'.db == x.db
    ensures x'.live == x.live[m.t := Txn(m.tx, Start(x.db.cfg, m.tx), [], Process(m.tx))]
  {
  }

  lemma OpenKeepsRace(x: World, m: Move, x': World, p: ProductId, w: WarehouseId)
    requires Moves(x, m, x') && m.Open? && FairMove(x, m, p, w) && CustomersOk(x, p, w) && Sells(x.db, p)
    ensures CustomersOk(x', p, w) && Counted(x, m, x', p, w)
  {
    OpenAdds(x, m, x');
    NewCustomer(x.db, x.live, m.t, m.tx, p, w);
  }

  lemma NewCustomer(db: State, live: map<nat, Txn>, t: nat, tx: Tx, p: ProductId, w: WarehouseId)
    requires AllCustomers(db, live, p, w) && AllApart(live) && Sells(db, p)
    requires t !in live && WantsOne(db, tx, p, w) && ApartFrom(tx, live)
    ensures var next := live[t := Txn(tx, Start(db.cfg, tx), [], Process(tx))];
      AllCustomers(db, next, p, w) && AllApart(next) && |next| == |live| + 1
  {
    var n := Txn(tx, Start(db.cfg, tx), [], Process(tx));
    OneMoreApart(live, t, n);
    OpensAsCustomer(db, tx, p, w);
    OneMoreCustomer(db, live, t, n, p, w);
  }

  lemma OneMoreCustomer(db: State, live: map<nat, Txn>, t: nat, n: Txn, p: ProductId, w: WarehouseId)
    requires AllCustomers(db, live, p, w) && CustomerOk(db, n, p, w)
    ensures AllCustomers(db, live[t := n], p, w)
  {
    forall u | u in live && u != t
      ensures CustomerOk(db, live[t := n][u], p, w)
    {
      assert CustomerOk(db, live[u], p, w);
    }
  }

  lemma StatementAdvances(x: World, m: Move, x': World)
    requires LiveOk(x.db, x.live) && Moves(x, m, x') && (m.Match? || m.Miss?)
    ensures x'.db == x.db && m.t in x.live && m.t in x'.live && x'.live == x.live[m.t := x'.live[m.t]]
    ensures TxnOk(x.db, x.live[m.t]) && x.live[m.t].conf.rest.Do?
    ensures x'.live[m.t].tx == x.live[m.t].tx && x'.live[m.t].conf == Advance(x.db, x.live[m.t].conf)
  {
  }

  lemma StatementKeepsRace(x: World, m: Move, x': World, p: ProductId, w: WarehouseId)
    requires LiveOk(x.db, x.live) && Moves(x, m, x') && (m.Match? || m.Miss?) && CustomersOk(x, p, w) && Sells(x.db, p)
    ensures CustomersOk(x', p, w) && Counted(x, m, x', p, w)
  {
    StatementAdvances(x, m, x');
    NextAnswer(x.db, x.live, m.t, x'.live[m.t], p, w);
  }

  lemma NextAnswer(db: State, live: map<nat, Txn>, t: nat, n: Txn, p: ProductId, w: WarehouseId)
    requires t in live && TxnOk(db, live[t]) && live[t].conf.rest.Do? && Sells(db, p)
    requires n.tx == live[t].tx && n.conf == Advance(db, live[t].conf)
    requires AllCustomers(db, live, p, w) && AllApart(live)
    ensures AllCustomers(db, live[t := n], p, w) && AllApart(live[t := n]) && |live[t := n]| == |live|
  {
    GoesOnApart(live, t, n);
    assert CustomerOk(db, live[t], p, w);
    AdvanceKeepsCustomer(db, live[t], n, p, w);
  }

  lemma CommitServes(x: World, m: Move, x': World, p: ProductId, w: WarehouseId)
    requires LiveOk(x.db, x.live) && Moves(x, m, x') && m.CommitIt? && CustomersOk(x, p, w) && Sells(x.db, p)
    ensures var tx := x.live[m.t].tx;
      WantsOne(x.db, tx, p, w) && Sells(x'.db, p) && OnlyIdsOf(x.db, tx, x'.db)
    ensures UnitsAt(x'.db, p, w) + 1 == UnitsAt(x.db, p, w) && |x'.db.orders| == |x.db.orders| + 1
  {
    assert CustomerOk(x.db, x.live[m.t], p, w);
    CommitShows(x.db, x.live[m.t]);
    ServedOne(x.db, x.live[m.t].tx, x'.db, p, w);
  }

  lemma OthersStillWant(a: State, live: map<nat, Txn>, t: nat, b: State, p: ProductId, w: WarehouseId)
    requires AllCustomers(a, live, p, w) && AllApart(live) && t in live && live[t].tx.Create?
    requires OnlyIdsOf(a, live[t].tx, b) && UnitsAt(a, p, w) > 0
    ensures AllCustomers(b, live - {t}, p, w)
  {
    forall u | u in live && u != t
      ensures CustomerOk(b, live[u], p, w)
    {
      assert CustomerOk(a, live[u], p, w) && Apart(live[t].tx, live[u].tx);
      StillWants(a, live[t].tx, b, live[u].tx, p, w);
    }
  }

  lemma CommitKeepsRace(x: World, m: Move, x': World, p: ProductId, w: WarehouseId)
    requires LiveOk(x.db, x.live) && Moves(x, m, x') && m.CommitIt? && CustomersOk(x, p, w) && Sells(x.db, p)
    ensures CustomersOk(x', p, w) && Counted(x, m, x', p, w)
  {
    OneFewerApart(x.live, m.t);
    CommitServes(x, m, x', p, w);
    OthersStillWant(x.db, x.live, m.t, x'.db, p, w);
  }

  lemma AbortMovesNothing(x: World, m: Move, x': World)
    requires Moves(x, m, x') && m.Abort? && x.live[m.t].tx.Create?
    ensures x'.db == x.db && x'.live == x.live - {m.t}
  {
  }

  lemma AbortKeepsRace(x: World, m: Move, x': World, p: ProductId, w: WarehouseId)
    requires Moves(x, m, x') && m.Abort? && FairMove(x, m, p, w) && CustomersOk(x, p, w) && Sells(x.db, p)
    ensures CustomersOk(x', p, w) && Counted(x, m, x', p, w)
  {
    assert CustomerOk(x.db, x.live[m.t], p, w);
    AbortMovesNothing(x, m, x');
    OneFewerApart(x.live, m.t);
  }

  /** Nothing moved but the clock, the broker and the workers. */
  predicate SameTables(a: State, b: State) {
    b == a.(workers := b.workers, broker := b.broker, clock := b.clock) && a.clock <= b.clock
  }

  lemma SameTablesSameWants(a: State, b: State, live: map<nat, Txn>, p: ProductId, w: WarehouseId)
    requires SameTables(a, b) && AllCustomers(a, live, p, w)
    ensures AllCustomers(b, live, p, w)
  {
    forall u | u in live
      ensures CustomerOk(b, live[u], p, w)
    {
      assert CustomerOk(a, live[u], p, w);
    }
  }

  lemma AroundMovesNoTable(x: World, m: Move, x': World)
    requires Moves(x, m, x') && m.Around?
    ensures SameTables(x.db, x'.db) && x'.live == x.live
  {
  }

  lemma AroundKeepsRace(x: World, m: Move, x': World, p: ProductId, w: WarehouseId)
    requires Moves(x, m, x') && m.Around? && CustomersOk(x, p, w) && Sells(x.db, p)
    ensures CustomersOk(x', p, w) && Counted(x, m, x', p, w)
  {
    AroundMovesNoTable(x, m, x');
    SameTablesSameWants(x.db, x'.db, x.live, p, w);
  }

  lemma MoveCounts(x: World, m: Move, x': World, p: ProductId, w: WarehouseId)
    requires LiveOk(x.db, x.live) && Moves(x, m, x') && FairMove(x, m, p, w) && CustomersOk(x, p, w) && Sells(x.db, p)
    ensures CustomersOk(x', p, w) && Counted(x, m, x', p, w)
  {
    match m
    case Open(_, _) => OpenKeepsRace(x, m, x', p, w);
    case Match(_) => StatementKeepsRace(x, m, x', p, w);
    case Miss(_, _) => StatementKeepsRace(x, m, x', p, w);
    case CommitIt(_) => CommitKeepsRace(x, m, x', p, w);
    case Abort(_) => AbortKeepsRace(x, m, x', p, w);
    case Around(_) => AroundKeepsRace(x, m, x', p, w);
  }

  predicate Racing(x: World, p: ProductId, w: WarehouseId) { CustomersOk(x, p, w) && Sells(x.db, p) }

  predicate RaceGoesOn(x: World, m: Move, x': World, p: ProductId, w: WarehouseId) {
    Racing(x, p, w) ==> Racing(x', p, w) && Counted(x, m, x', p, w)
  }

  lemma MoveInRun(worlds: seq<World>, moves: seq<Move>, i: nat, p: ProductId, w: WarehouseId)
    requires IsInterleaving(worlds, moves) && i < |moves| && FairMove(worlds[i], moves[i], p, w)
    ensures RaceGoesOn(worlds[i], moves[i], worlds[i + 1], p, w)
  {
    InterleavingsKeepInv(worlds, moves, i);
    if Racing(worlds[i], p, w) { MoveCounts(worlds[i], moves[i], worlds[i + 1], p, w); }
  }

  lemma {:induction false} StillRacing(worlds: seq<World>, moves: seq<Move>, a: nat, b: nat, p: ProductId,
                                       w: WarehouseId)
    requires a <= b <= |moves| < |worlds| && Racing(worlds[a], p, w)
    requires forall i | a <= i < b :: RaceGoesOn(worlds[i], moves[i], worlds[i + 1], p, w)
    ensures Racing(worlds[b], p, w)
  {
    if a < b {
      StillRacing(worlds, moves, a, b - 1, p, w);
      assert RaceGoesOn(worlds[b - 1], moves[b - 1], worlds[b], p, w);
    }
  }

  lemma {:induction false} CountsSoFar(worlds: seq<World>, moves: seq<Move>, a: nat, b: nat, p: ProductId,
                                       w: WarehouseId)
    requires a <= b <= |moves| < |worlds| && worlds[a].live == map[]
    requires forall i | a <= i < b :: Counted(worlds[i], moves[i], worlds[i + 1], p, w)
    ensures CountsOk(worlds[b], Tallied(moves, a, b), UnitsAt(worlds[a].db, p, w), |worlds[a].db.orders|, p, w)
  {
    if a < b {
      CountsSoFar(worlds, moves, a, b - 1, p, w);
      assert Counted(worlds[b - 1], moves[b - 1], worlds[b], p, w);
    }
  }

  lemma AllCounted(worlds: seq<World>, moves: seq<Move>, a: nat, b: nat, p: ProductId, w: WarehouseId)
    requires a <= b <= |moves| < |worlds| && worlds[a].live == map[] && Sells(worlds[a].db, p)
    requires forall i | a <= i < b :: RaceGoesOn(worlds[i], moves[i], worlds[i + 1], p, w)
    ensures forall i | a <= i < b :: Counted(worlds[i], moves[i], worlds[i + 1], p, w)
  {
    forall i | a <= i < b
      ensures Counted(worlds[i], moves[i], worlds[i + 1], p, w)
    {
      StillRacing(worlds, moves, a, i, p, w);
      assert RaceGoesOn(worlds[i], moves[i], worlds[i + 1], p, w);
    }
  }

  /** N customers after the last K units, whatever the interleaving: once all of them are through, exactly
      min(N, K) orders are there and exactly that many units are gone. */
  lemma OrderRace(worlds: seq<World>, moves: seq<Move>, a: nat, b: nat, p: ProductId, w: WarehouseId)
    requires IsInterleaving(worlds, moves) && a <= b <= |moves| && worlds[a].live == map[] && Sells(worlds[a].db, p)
    requires forall i | a <= i < b :: FairMove(worlds[i], moves[i], p, w)
    requires worlds[b].live == map[]
    ensures var y, k := Tallied(moves, a, b), UnitsAt(worlds[a].db, p, w);
      && y.served == Min(y.entered, k) && y.failed == y.entered - Min(y.entered, k)
      && UnitsAt(worlds[b].db, p, w) == k - Min(y.entered, k)
      && |worlds[b].db.orders| == |worlds[a].db.orders| + Min(y.entered, k)
  {
    forall i | a <= i < b
      ensures RaceGoesOn(worlds[i], moves[i], worlds[i + 1], p, w)
    {
      MoveInRun(worlds, moves, i, p, w);
    }
    AllCounted(worlds, moves, a, b, p, w);
    CountsSoFar(worlds, moves, a, b, p, w);
  }
}

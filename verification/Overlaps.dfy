/** Two customers at once after one last unit: an interleaving in which both orders are under way together. */
module Overlaps {
  import opened Schema
  import opened Statements
  import opened Transactions
  import opened Discipline
  import opened Runs
  import opened Locks
  import opened Interleaving
  import opened Creation
  import opened LastUnits
  import opened Scenarios

  // ---- taking an interleaving further ----

  ghost function Latest(worlds: seq<World>): World
    requires worlds != []
  {
    worlds[|worlds| - 1]
  }

  lemma OneMore(worlds: seq<World>, moves: seq<Move>, m: Move, w: World)
    requires IsInterleaving(worlds, moves) && Moves(Latest(worlds), m, w)
    ensures IsInterleaving(worlds + [w], moves + [m])
  {
    var worlds', moves' := worlds + [w], moves + [m];
    forall i | 0 <= i < |moves'|
      ensures Moves(worlds'[i], moves'[i], worlds'[i + 1])
    {
      if i < |moves| { assert Moves(worlds[i], moves[i], worlds[i + 1]); }
    }
  }

  /** Nobody but `t` holds a lock. */
  ghost predicate Unhindered(w: World, t: nat) {
    t in w.live && forall u | u in w.live && u != t :: w.live[u].locks == {}
  }

  /** Only `t` got further, without committing anything. */
  ghost predicate OnlyMoved(a: World, t: nat, b: World) {
    && t in a.live && b.db == a.db && b.live.Keys == a.live.Keys && b.live[t].tx == a.live[t].tx
    && (forall u | u in a.live && u != t :: b.live[u] == a.live[u])
    && Run(View(b.db, b.live[t].conf), b.live[t].conf.rest) == Run(View(a.db, a.live[t].conf), a.live[t].conf.rest)
  }

  /** One statement of `t`, which nobody stands in the way of. */
  lemma NextStatement(a: World, t: nat) returns (m: Move, b: World)
    requires Unhindered(a, t) && a.live[t].conf.rest.Do?
    ensures (m == Match(t) || m == Move.Miss(t, false)) && Moves(a, m, b) && OnlyMoved(a, t, b) && Unhindered(b, t)
    ensures b.live[t].conf == Advance(a.db, a.live[t].conf) && b.live[t].path != []
    ensures b.live[t].locks <= a.live[t].locks + Rows(a.live[t].conf.rest.s)
  {
    var n := a.live[t];
    var s := n.conf.rest.s;
    AdvanceIsExec(a.db, n.conf);
    RunDo(View(a.db, n.conf), s, n.conf.rest.yes, n.conf.rest.no);
    if Ok(View(a.db, n.conf), s) {
      m := Match(t);
      b := World(a.db, a.live[t := Txn(n.tx, Matched(a.db, n.conf), n.path + [true], n.locks + Rows(s))]);
    } else {
      m := Move.Miss(t, false);
      b := World(a.db, a.live[t := Txn(n.tx, Missed(n.conf), n.path + [false], n.locks)]);
    }
  }

  ghost predicate Continues(worlds: seq<World>, moves: seq<Move>, worlds': seq<World>, moves': seq<Move>) {
    && worlds <= worlds' && moves <= moves'
    && forall i | |moves| <= i < |moves'| :: moves'[i].Match? || moves'[i].Miss?
  }

  /** `t` runs on to its end, whoever else is under way. */
  lemma {:induction false} RunsOn(worlds: seq<World>, moves: seq<Move>, t: nat)
    returns (worlds': seq<World>, moves': seq<Move>)
    requires IsInterleaving(worlds, moves) && Unhindered(Latest(worlds), t)
    ensures IsInterleaving(worlds', moves') && Continues(worlds, moves, worlds', moves')
    ensures OnlyMoved(Latest(worlds), t, Latest(worlds')) && !Latest(worlds').live[t].conf.rest.Do?
    decreases Latest(worlds).live[t].conf.rest
  {
    if Latest(worlds).live[t].conf.rest.Do? {
      var m, w := NextStatement(Latest(worlds), t);
      OneMore(worlds, moves, m, w);
      worlds', moves' := RunsOn(worlds + [w], moves + [m], t);
    } else {
      worlds', moves' := worlds, moves;
    }
  }

  /** From its first statement to its commit. */
  lemma RunsToCommit(worlds: seq<World>, moves: seq<Move>, t: nat, db: State)
    returns (worlds': seq<World>, moves': seq<Move>)
    requires IsInterleaving(worlds, moves) && Unhindered(Latest(worlds), t)
    requires var w := Latest(worlds); Run(View(w.db, w.live[t].conf), w.live[t].conf.rest) == Committed(db)
    ensures IsInterleaving(worlds', moves') && Continues(worlds, moves, worlds', moves')
    ensures OnlyMoved(Latest(worlds), t, Latest(worlds'))
    ensures Moves(Latest(worlds'), CommitIt(t), World(db, Latest(worlds').live - {t}))
  {
    worlds', moves' := RunsOn(worlds, moves, t);
  }

  /** One whole transaction when nobody else is under way. */
  lemma AloneToCommit(worlds: seq<World>, moves: seq<Move>, tx: Tx, db: State)
    returns (worlds': seq<World>, moves': seq<Move>)
    requires IsInterleaving(worlds, moves) && Latest(worlds).live == map[] && Next(Latest(worlds).db, Does(tx), db)
    ensures IsInterleaving(worlds', moves') && Latest(worlds') == World(db, map[])
  {
    var w := Latest(worlds);
    var w1 := World(w.db, w.live[0 := Txn(tx, Start(w.db.cfg, tx), [], Process(tx))]);
    OneMore(worlds, moves, Open(0, tx), w1);
    MergeNothing(w.db);
    worlds', moves' := RunsToCommit(worlds + [w1], moves + [Open(0, tx)], 0, db);
    var w2 := World(db, Latest(worlds').live - {0});
    OneMore(worlds', moves', CommitIt(0), w2);
    worlds', moves' := worlds' + [w2], moves' + [CommitIt(0)];
  }

  // ---- two customers ----

  /** One unit on the shelf. */
  function OneLeft(): State {
    Empty().(inventory := map[(0, 0) := Inventory(1, 0, None, false)],
             audit := [AuditEntry(0, 0, 1, StockAdded, Note("delivery"))])
  }

  function FirstCustomer(): Tx {
    Create(Payload([Line(0, 1)], "success"), User(7, Client), None, 0, 0, 0, [Pick(Some(0), 0, 0, 1)])
  }

  function SecondCustomer(): Tx {
    Create(Payload([Line(0, 1)], "success"), User(8, Client), None, 1, 2, 0, [Pick(Some(0), 1, 0, 3)])
  }

  lemma UnitDelivered()
    ensures Next(Empty(), Does(Adjust(0, 0, 1, "delivery", true, 0, 0)), OneLeft())
  {
    var insert := OnStock(0, 0, InsertStock(Inventory(1, 0, None, false)));
    var log := Audit(AuditEntry(0, 0, 1, StockAdded, Note("delivery")));
    RunDo(Empty(), insert, Then(log, Commit), Stop(IntegrityError));
    RunDo(Exec(Empty(), insert), log, Commit, Stop(IntegrityError));
  }

  lemma OneLeftOpen() returns (worlds: seq<World>, moves: seq<Move>)
    ensures IsInterleaving(worlds, moves) && Latest(worlds) == World(OneLeft(), map[])
  {
    UnitDelivered();
    worlds, moves := AloneToCommit([World(Empty(), map[])], [], Adjust(0, 0, 1, "delivery", true, 0, 0), OneLeft());
  }

  lemma BothWant()
    ensures WantsOne(OneLeft(), FirstCustomer(), 0, 0) && WantsOne(OneLeft(), SecondCustomer(), 0, 0)
    ensures Apart(FirstCustomer(), SecondCustomer()) && Apart(SecondCustomer(), FirstCustomer())
    ensures Sells(OneLeft(), 0) && UnitsAt(OneLeft(), 0, 0) == 1
  {
    assert FirstCustomer().picks[0].event == 1 && SecondCustomer().picks[0].event == 3;
    assert EventsOf(FirstCustomer()) == {0, 1} && EventsOf(SecondCustomer()) == {2, 3};
    assert ReservationsOf(FirstCustomer()) == {0} && ReservationsOf(SecondCustomer()) == {1};
  }

  /** Their code begins by reading the clock, which locks nothing. */
  lemma BeginsWithClock(tx: Tx)
    requires tx == FirstCustomer() || tx == SecondCustomer()
    ensures var p := Code(SHOP, tx); p.Do? && p.s == Sample(0)
  {
    BodyShape(SHOP, tx);
  }

  ghost predicate FairFrom(worlds: seq<World>, moves: seq<Move>, a: nat) {
    |worlds| == |moves| + 1 && forall i {:trigger moves[i]} | a <= i < |moves| ::
      FairMove(worlds[i], moves[i], 0, 0)
  }

  lemma FairMore(worlds: seq<World>, moves: seq<Move>, a: nat, m: Move, w: World)
    requires FairFrom(worlds, moves, a) && FairMove(Latest(worlds), m, 0, 0)
    ensures FairFrom(worlds + [w], moves + [m], a)
  {
    var worlds', moves' := worlds + [w], moves + [m];
    forall i | a <= i < |moves'|
      ensures FairMove(worlds'[i], moves'[i], 0, 0)
    {
      if i < |moves| { assert FairMove(worlds[i], moves[i], 0, 0); }
    }
  }

  lemma FairContinues(worlds: seq<World>, moves: seq<Move>, worlds': seq<World>, moves': seq<Move>, a: nat)
    requires FairFrom(worlds, moves, a) && Continues(worlds, moves, worlds', moves') && |worlds'| == |moves'| + 1
    ensures FairFrom(worlds', moves', a)
  {
    forall i | a <= i < |moves'|
      ensures FairMove(worlds'[i], moves'[i], 0, 0)
    {
      if i < |moves| { assert FairMove(worlds[i], moves[i], 0, 0); }
    }
  }

  /** Both are under way, each past its first statement, and without a lock yet. */
  ghost predicate UnderWay(w: World, db: State, first: Txn, second: Txn) {
    && w.db == db && w.live.Keys == {1, 2} && w.live[1].tx == first.tx && w.live[2].tx == second.tx
    && w.live[1].locks == {} && w.live[2].locks == {} && w.live[1].path != [] && w.live[2].path != []
    && Run(View(db, w.live[1].conf), w.live[1].conf.rest) == Run(View(db, first.conf), first.conf.rest)
  }

  /** What one sees of it. */
  predicate Together(w: World) {
    && w.db.orders == map[] && w.live.Keys == {1, 2}
    && w.live[1].tx == FirstCustomer() && w.live[2].tx == SecondCustomer()
    && w.live[1].path != [] && w.live[2].path != []
  }

  function First(): Txn { Txn(FirstCustomer(), Start(SHOP, FirstCustomer()), [], {}) }
  function Second(): Txn { Txn(SecondCustomer(), Start(SHOP, SecondCustomer()), [], {}) }

  lemma BothOpen(worlds: seq<World>, moves: seq<Move>) returns (worlds': seq<World>, moves': seq<Move>)
    requires IsInterleaving(worlds, moves) && Latest(worlds) == World(OneLeft(), map[])
    ensures IsInterleaving(worlds', moves') && worlds <= worlds' && moves <= moves' && |moves'| == |moves| + 2
    ensures FairFrom(worlds', moves', |moves|)
    ensures Latest(worlds') == World(OneLeft(), map[1 := First(), 2 := Second()])
  {
    BothWant();
    var first, second := First(), Second();
    var w1, m1 := World(OneLeft(), map[1 := first]), Open(1, FirstCustomer());
    OneMore(worlds, moves, m1, w1);
    FairMore(worlds, moves, |moves|, m1, w1);
    var w2, m2 := World(OneLeft(), map[1 := first, 2 := second]), Open(2, SecondCustomer());
    assert w2.live == w1.live[2 := second];
    OneMore(worlds + [w1], moves + [m1], m2, w2);
    FairMore(worlds + [w1], moves + [m1], |moves|, m2, w2);
    worlds', moves' := worlds + [w1] + [w2], moves + [m1] + [m2];
  }

  lemma OneFairMore(worlds: seq<World>, moves: seq<Move>, a: nat, m: Move, w: World)
    requires IsInterleaving(worlds, moves) && FairFrom(worlds, moves, a)
    requires Moves(Latest(worlds), m, w) && FairMove(Latest(worlds), m, 0, 0)
    ensures IsInterleaving(worlds + [w], moves + [m]) && FairFrom(worlds + [w], moves + [m], a)
  {
    OneMore(worlds, moves, m, w);
    FairMore(worlds, moves, a, m, w);
  }

  lemma OneFairStatement(worlds: seq<World>, moves: seq<Move>, a: nat, t: nat) returns (m: Move, w: World)
    requires IsInterleaving(worlds, moves) && FairFrom(worlds, moves, a)
    requires Unhindered(Latest(worlds), t) && Latest(worlds).live[t].conf.rest.Do?
    ensures IsInterleaving(worlds + [w], moves + [m]) && FairFrom(worlds + [w], moves + [m], a)
    ensures OnlyMoved(Latest(worlds), t, w) && w.live[t].path != []
    ensures w.live[t].locks <= Latest(worlds).live[t].locks + Rows(Latest(worlds).live[t].conf.rest.s)
  {
    m, w := NextStatement(Latest(worlds), t);
    OneFairMore(worlds, moves, a, m, w);
  }

  lemma BothBegin(worlds: seq<World>, moves: seq<Move>, a: nat, db: State, first: Txn, second: Txn)
    returns (worlds': seq<World>, moves': seq<Move>)
    requires IsInterleaving(worlds, moves) && FairFrom(worlds, moves, a)
    requires Latest(worlds) == World(db, map[1 := first, 2 := second]) && first.locks == {} && second.locks == {}
    requires first.conf.rest.Do? && Rows(first.conf.rest.s) == {}
    requires second.conf.rest.Do? && Rows(second.conf.rest.s) == {}
    ensures IsInterleaving(worlds', moves') && FairFrom(worlds', moves', a)
    ensures worlds <= worlds' && moves <= moves' && |moves'| == |moves| + 2
    ensures UnderWay(Latest(worlds'), db, first, second)
  {
    var m1, w1 := OneFairStatement(worlds, moves, a, 1);
    var m2, w2 := OneFairStatement(worlds + [w1], moves + [m1], a, 2);
    worlds', moves' := worlds + [w1] + [w2], moves + [m1] + [m2];
  }

  lemma FirstFits() returns (db: State)
    ensures Run(View(OneLeft(), First().conf), First().conf.rest) == Committed(db)
    ensures Next(OneLeft(), Does(FirstCustomer()), db)
  {
    BothWant();
    MergeNothing(OneLeft());
    StopsIffNoneLeft(OneLeft(), FirstCustomer(), 0, 0);
    db := Placed(OneLeft(), FirstCustomer());
  }

  lemma FairToCommit(worlds: seq<World>, moves: seq<Move>, a: nat, t: nat, db: State)
    returns (worlds': seq<World>, moves': seq<Move>, w: World)
    requires IsInterleaving(worlds, moves) && FairFrom(worlds, moves, a) && Unhindered(Latest(worlds), t)
    requires var x := Latest(worlds); Run(View(x.db, x.live[t].conf), x.live[t].conf.rest) == Committed(db)
    ensures IsInterleaving(worlds' + [w], moves' + [CommitIt(t)]) && FairFrom(worlds' + [w], moves' + [CommitIt(t)], a)
    ensures worlds <= worlds' && moves <= moves' && w.db == db && w.live == Latest(worlds).live - {t}
  {
    worlds', moves' := RunsToCommit(worlds, moves, t, db);
    FairContinues(worlds, moves, worlds', moves', a);
    w := World(db, Latest(worlds').live - {t});
    assert w.live == Latest(worlds).live - {t};
    OneFairMore(worlds', moves', a, CommitIt(t), w);
  }

  lemma FirstRunsFreely(w: World, db: State)
    requires UnderWay(w, OneLeft(), First(), Second())
    requires Run(View(OneLeft(), First().conf), First().conf.rest) == Committed(db)
    ensures Unhindered(w, 1) && Run(View(w.db, w.live[1].conf), w.live[1].conf.rest) == Committed(db)
    ensures (w.live - {1}).Keys == {2} && (w.live - {1})[2].tx == SecondCustomer()
  {
  }

  /** The first one commits under the eyes of the second. */
  lemma FirstServed(worlds: seq<World>, moves: seq<Move>, a: nat) returns (worlds': seq<World>, moves': seq<Move>)
    requires IsInterleaving(worlds, moves) && FairFrom(worlds, moves, a)
    requires UnderWay(Latest(worlds), OneLeft(), First(), Second())
    ensures IsInterleaving(worlds', moves') && FairFrom(worlds', moves', a) && worlds <= worlds' && moves <= moves'
    ensures var w := Latest(worlds');
      && Next(OneLeft(), Does(FirstCustomer()), w.db) && w.live.Keys == {2} && w.live[2].tx == SecondCustomer()
  {
    var db := FirstFits();
    FirstRunsFreely(Latest(worlds), db);
    var w;
    worlds', moves', w := FairToCommit(worlds, moves, a, 1, db);
    worlds', moves' := worlds' + [w], moves' + [CommitIt(1)];
  }

  lemma NothingLeft(w: World)
    requires WorldOk(w) && Next(OneLeft(), Does(FirstCustomer()), w.db)
    requires 2 in w.live && w.live[2].tx == SecondCustomer()
    ensures Run(View(w.db, w.live[2].conf), w.live[2].conf.rest).Stopped?
  {
    BothWant();
    var n := w.live[2];
    if Quiet(n.conf.rest) {
      QuietStops(View(w.db, n.conf), n.conf.rest);
    } else {
      ServedOne(OneLeft(), FirstCustomer(), w.db, 0, 0);
      StillWants(OneLeft(), FirstCustomer(), w.db, SecondCustomer(), 0, 0);
      LiveRuns(w.db, n);
      StopsIffNoneLeft(w.db, SecondCustomer(), 0, 0);
    }
  }

  lemma SecondStops(worlds: seq<World>, moves: seq<Move>)
    requires IsInterleaving(worlds, moves)
    requires var w := Latest(worlds);
      && Next(OneLeft(), Does(FirstCustomer()), w.db) && w.live.Keys == {2} && w.live[2].tx == SecondCustomer()
    ensures var w := Latest(worlds); Run(View(w.db, w.live[2].conf), w.live[2].conf.rest).Stopped?
  {
    InterleavingsKeepInv(worlds, moves, |worlds| - 1);
    NothingLeft(Latest(worlds));
  }

  lemma FairToStop(worlds: seq<World>, moves: seq<Move>, a: nat, t: nat)
    returns (worlds': seq<World>, moves': seq<Move>, w: World)
    requires IsInterleaving(worlds, moves) && FairFrom(worlds, moves, a) && Unhindered(Latest(worlds), t)
    requires var x := Latest(worlds);
      Run(View(x.db, x.live[t].conf), x.live[t].conf.rest).Stopped? && x.live[t].tx.Create?
    ensures IsInterleaving(worlds' + [w], moves' + [Abort(t)]) && FairFrom(worlds' + [w], moves' + [Abort(t)], a)
    ensures worlds <= worlds' && moves <= moves' && w == World(Latest(worlds).db, Latest(worlds).live - {t})
  {
    worlds', moves' := RunsOn(worlds, moves, t);
    FairContinues(worlds, moves, worlds', moves', a);
    w := World(Latest(worlds').db, Latest(worlds').live - {t});
    assert w.live == Latest(worlds).live - {t};
    OneFairMore(worlds', moves', a, Abort(t), w);
  }

  lemma SecondRefused(worlds: seq<World>, moves: seq<Move>, a: nat) returns (worlds': seq<World>, moves': seq<Move>)
    requires IsInterleaving(worlds, moves) && FairFrom(worlds, moves, a)
    requires var w := Latest(worlds);
      && Next(OneLeft(), Does(FirstCustomer()), w.db) && w.live.Keys == {2} && w.live[2].tx == SecondCustomer()
    ensures IsInterleaving(worlds', moves') && FairFrom(worlds', moves', a) && worlds <= worlds' && moves <= moves'
    ensures Latest(worlds') == World(Latest(worlds).db, map[])
  {
    SecondStops(worlds, moves);
    var w;
    worlds', moves', w := FairToStop(worlds, moves, a, 2);
    worlds', moves' := worlds' + [w], moves' + [Abort(2)];
  }

  lemma BothStarted() returns (worlds: seq<World>, moves: seq<Move>, a: nat)
    ensures IsInterleaving(worlds, moves) && a < |moves| && FairFrom(worlds, moves, a)
    ensures worlds[a] == World(OneLeft(), map[]) && UnderWay(Latest(worlds), OneLeft(), First(), Second())
  {
    worlds, moves := OneLeftOpen();
    a := |moves|;
    worlds, moves := BothOpen(worlds, moves);
    BeginsWithClock(FirstCustomer());
    BeginsWithClock(SecondCustomer());
    worlds, moves := BothBegin(worlds, moves, a, OneLeft(), First(), Second());
  }

  lemma BothEnd(worlds: seq<World>, moves: seq<Move>, a: nat) returns (worlds': seq<World>, moves': seq<Move>)
    requires IsInterleaving(worlds, moves) && FairFrom(worlds, moves, a)
    requires UnderWay(Latest(worlds), OneLeft(), First(), Second())
    ensures IsInterleaving(worlds', moves') && FairFrom(worlds', moves', a) && worlds <= worlds' && moves <= moves'
    ensures Latest(worlds').live == map[] && Next(OneLeft(), Does(FirstCustomer()), Latest(worlds').db)
  {
    var worlds1, moves1 := FirstServed(worlds, moves, a);
    worlds', moves' := SecondRefused(worlds1, moves1, a);
  }

  lemma StillThere(begun: seq<World>, worlds: seq<World>, a: nat)
    requires begun <= worlds && a < |begun|
    requires begun[a] == World(OneLeft(), map[]) && UnderWay(Latest(begun), OneLeft(), First(), Second())
    ensures worlds[a] == World(OneLeft(), map[]) && Together(worlds[|begun| - 1])
  {
    assert worlds[|begun| - 1] == Latest(begun);
  }

  lemma LastUnitGone(db: State)
    requires Next(OneLeft(), Does(FirstCustomer()), db)
    ensures UnitsAt(db, 0, 0) == 0 && |db.orders| == 1
  {
    BothWant();
    ServedOne(OneLeft(), FirstCustomer(), db, 0, 0);
  }

  /** Two orders for one last unit, none of them there at `a` and both of them under way at `c`. In the end the
      unit is gone and exactly one order is there; and from `a` on every move is of the kind OrderRace is about. */
  lemma OneOfTwo() returns (worlds: seq<World>, moves: seq<Move>, a: nat, c: nat)
    ensures IsInterleaving(worlds, moves) && FairFrom(worlds, moves, a) && a < c < |worlds|
    ensures worlds[a] == World(OneLeft(), map[]) && Together(worlds[c])
    ensures Latest(worlds).live == map[] && UnitsAt(Latest(worlds).db, 0, 0) == 0 && |Latest(worlds).db.orders| == 1
  {
    var begun, before;
    begun, before, a := BothStarted();
    c := |begun| - 1;
    worlds, moves := BothEnd(begun, before, a);
    assert worlds[a] == World(OneLeft(), map[]) && Together(worlds[c]) by { StillThere(begun, worlds, a); }
    LastUnitGone(Latest(worlds).db);
  }
}

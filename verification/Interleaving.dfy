/** Many transactions at once. Each owns row locks until it ends, sees the committed rows under its own
    uncommitted writes, and may be aborted before any statement. Every such interleaving commits exactly
    what running the committed transactions one after the other, in commit order, would have committed. */
module Interleaving {
  import opened Schema
  import opened Statements
  import opened Transactions
  import opened Discipline
  import opened WellTyped
  import opened Invariant
  import opened Runs
  import opened Locks

  // ---- one transaction under way ----

  /** Its uncommitted writes, the code still to run, and what it has learned. */
  datatype Conf = Conf(writes: Delta, rest: Prog, facts: set<Fact>, due: set<Stock>)

  function View(db: State, c: Conf): State { Merge(db, c.writes) }

  function Start(cfg: Config, tx: Tx): Conf
    requires Legal(tx)
  {
    Conf(NOTHING, Code(cfg, tx), {}, {})
  }

  ghost function Matched(db: State, c: Conf): Conf
    requires c.rest.Do? && Ok(View(db, c), c.rest.s)
  {
    var s := c.rest.s;
    Conf(Compose(c.writes, WritesOf(View(db, c), s)), c.rest.yes, Learn(s, c.facts), Unchecked(s, c.due))
  }

  ghost function Missed(c: Conf): Conf
    requires c.rest.Do?
  {
    Conf(c.writes, c.rest.no, Kept(c.rest.s, c.facts), Unchecked(c.rest.s, c.due))
  }

  ghost function Advance(db: State, c: Conf): Conf
    requires c.rest.Do?
  {
    if Ok(View(db, c), c.rest.s) then Matched(db, c) else Missed(c)
  }

  /** An answer nobody else can change any more: its rows are locked, or a reservation is no longer ACTIVE. */
  ghost predicate Firm(db: State, c: Conf, locks: set<Row>)
    requires c.rest.Do?
  {
    var s, ok := c.rest.s, Ok(View(db, c), c.rest.s);
    || (Rows(s) <= locks && (ok || !LooksElsewhere(s)))
    || (Marks(s) && !ok && s.id in View(db, c).reservations)
  }

  /** Replays, against the committed rows `db`, the answers a transaction got; None if one would differ. */
  ghost function Walk(db: State, c: Conf, path: seq<bool>, locks: set<Row>): Option<Conf>
    decreases |path|
  {
    if path == [] then Some(c)
    else if !c.rest.Do? || Ok(View(db, c), c.rest.s) != path[0] || !Firm(db, c, locks) then None
    else Walk(db, Advance(db, c), path[1..], locks)
  }

  /** `path` is the answers so far. */
  datatype Txn = Txn(tx: Tx, conf: Conf, path: seq<bool>, locks: set<Row>)

  /** A worker process runs one transaction at a time. */
  function Process(tx: Tx): set<Row> {
    if tx.Finish? || tx.Record? then {WorkerRow(tx.order)} else {}
  }

  datatype World = World(db: State, live: map<nat, Txn>)

  datatype Move =
    | Open(t: nat, tx: Tx)
    | Match(t: nat)              // the next statement matches, and its rows are free to lock
    | Miss(t: nat, lock: bool)   // it matches nothing; whether a lock stays behind does not matter
    | CommitIt(t: nat)
    | Abort(t: nat)              // exception, deadlock victim, crash, or nothing to do
    | Around(step: Step)         // the clock, the broker, a worker dying between its transactions

  ghost predicate Free(w: World, t: nat, rows: set<Row>) {
    forall u | u in w.live && u != t :: w.live[u].locks !! rows
  }

  /** What an abort leaves behind: the tables as they were; a worker's memory dies with it. */
  function AbortStep(tx: Tx): Option<Step> {
    if tx.Finish? || tx.Record? then Some(Crash(tx.order)) else None
  }

  ghost predicate Moves(w: World, m: Move, w': World) {
    match m
    case Open(t, tx) =>
      && t !in w.live && Legal(tx) && Free(w, t, Process(tx))
      && w' == World(w.db, w.live[t := Txn(tx, Start(w.db.cfg, tx), [], Process(tx))])
    case Match(t) =>
      && t in w.live && w.live[t].conf.rest.Do?
      && var n := w.live[t]; var s := n.conf.rest.s;
      && Ok(View(w.db, n.conf), s) && Free(w, t, Rows(s))
      && w' == World(w.db, w.live[t := Txn(n.tx, Matched(w.db, n.conf), n.path + [true], n.locks + Rows(s))])
    case Miss(t, lock) =>
      && t in w.live && w.live[t].conf.rest.Do?
      && var n := w.live[t]; var s := n.conf.rest.s;
      && !Ok(View(w.db, n.conf), s) && (lock ==> Free(w, t, Rows(s)))
      && w' == World(w.db, w.live[t := Txn(n.tx, Missed(n.conf), n.path + [false],
                                           if lock then n.locks + Rows(s) else n.locks)])
    case CommitIt(t) =>
      && t in w.live && w.live[t].conf.rest.Commit?
      && w' == World(View(w.db, w.live[t].conf), w.live - {t})
    case Abort(t) =>
      && t in w.live && w'.live == w.live - {t}
      && (match AbortStep(w.live[t].tx)
          case None => w'.db == w.db
          case Some(step) => Next(w.db, step, w'.db))
    case Around(step) =>
      && !step.Does? && Next(w.db, step, w'.db) && w'.live == w.live
      && (step.Crash? ==> forall u | u in w.live :: WorkerRow(step.order) !in w.live[u].locks)
  }

  // ---- what holds throughout ----

  /** Unless it can no longer commit, a transaction's answers are the ones it would get if it ran now, alone. */
  ghost predicate TxnOk(db: State, n: Txn) {
    && Legal(n.tx) && Within(n.conf.writes, n.locks) && Process(n.tx) <= n.locks
    && (Quiet(n.conf.rest) || Walk(db, Start(db.cfg, n.tx), n.path, n.locks) == Some(n.conf))
  }

  ghost predicate LiveOk(db: State, live: map<nat, Txn>) {
    && (forall t | t in live :: TxnOk(db, live[t]))
    && (forall t, u | t in live && u in live && t != u :: live[t].locks !! live[u].locks)
  }

  ghost predicate WorldOk(w: World) { Inv(w.db) && LiveOk(w.db, w.live) }

  // ---- replaying a path ----

  lemma {:induction false} QuietWalk(db: State, c: Conf, path: seq<bool>, locks: set<Row>)
    requires Quiet(c.rest) && Walk(db, c, path, locks).Some?
    ensures Quiet(Walk(db, c, path, locks).value.rest)
    decreases |path|
  {
    if path != [] { QuietWalk(db, Advance(db, c), path[1..], locks); }
  }

  lemma {:induction false} WalkMoreLocks(db: State, c: Conf, path: seq<bool>, locks: set<Row>, more: set<Row>)
    requires Walk(db, c, path, locks).Some? && locks <= more
    ensures Walk(db, c, path, more) == Walk(db, c, path, locks)
    decreases |path|
  {
    if path != [] { WalkMoreLocks(db, Advance(db, c), path[1..], locks, more); }
  }

  lemma {:induction false} WalkOn(db: State, c: Conf, path: seq<bool>, locks: set<Row>, ok: bool)
    requires Walk(db, c, path, locks).Some?
    requires var d := Walk(db, c, path, locks).value;
      d.rest.Do? && Ok(View(db, d), d.rest.s) == ok && Firm(db, d, locks)
    ensures Walk(db, c, path + [ok], locks) == Some(Advance(db, Walk(db, c, path, locks).value))
    decreases |path|
  {
    if path == [] {
      assert (path + [ok])[1..] == [];
      assert Walk(db, Advance(db, c), [], locks) == Some(Advance(db, c));
    } else {
      assert (path + [ok])[1..] == path[1..] + [ok];
      WalkOn(db, Advance(db, c), path[1..], locks, ok);
    }
  }

  lemma AdvanceIsExec(db: State, c: Conf)
    requires c.rest.Do?
    ensures View(db, Advance(db, c)) ==
      if Ok(View(db, c), c.rest.s) then Exec(View(db, c), c.rest.s) else View(db, c)
  {
    if Ok(View(db, c), c.rest.s) {
      ExecIsMerge(View(db, c), c.rest.s);
      MergeCompose(db, c.writes, WritesOf(View(db, c), c.rest.s));
    }
  }

  /** Running on from where a path leads is running alone from its start. */
  lemma {:induction false} WalkRuns(db: State, c: Conf, path: seq<bool>, locks: set<Row>)
    requires Walk(db, c, path, locks).Some?
    ensures var d := Walk(db, c, path, locks).value; Run(View(db, c), c.rest) == Run(View(db, d), d.rest)
    decreases |path|
  {
    if path != [] {
      AdvanceIsExec(db, c);
      RunDo(View(db, c), c.rest.s, c.rest.yes, c.rest.no);
      WalkRuns(db, Advance(db, c), path[1..], locks);
    }
  }

  /** What a transaction under way will come to is what it would come to run alone, now. */
  lemma LiveRuns(db: State, n: Txn)
    requires TxnOk(db, n) && !Quiet(n.conf.rest)
    ensures Run(db, Code(db.cfg, n.tx)) == Run(View(db, n.conf), n.conf.rest)
  {
    MergeNothing(db);
    WalkRuns(db, Start(db.cfg, n.tx), n.path, n.locks);
  }

  ghost predicate OwnsLocks(facts: set<Fact>, locks: set<Row>) {
    forall k | Owns(k) in facts :: k in locks
  }

  ghost predicate ConfOk(db: State, c: Conf, locks: set<Row>) {
    && Typed(c.rest, c.facts, c.due) && Midway(View(db, c), c.rest, c.facts, c.due)
    && OwnsLocks(c.facts, locks)
  }

  lemma StartOk(db: State, tx: Tx, locks: set<Row>)
    requires Inv(db) && Legal(tx)
    ensures ConfOk(db, Start(db.cfg, tx), locks)
  {
    CodeTyped(db.cfg, tx);
    MergeNothing(db);
    MidwayAtStart(db, Code(db.cfg, tx));
  }

  lemma AdvanceOk(db: State, c: Conf, locks: set<Row>)
    requires c.rest.Do? && ConfOk(db, c, locks) && Firm(db, c, locks)
    ensures ConfOk(db, Advance(db, c), locks) || Quiet(Advance(db, c).rest)
  {
    AdvanceIsExec(db, c);
    var view := View(db, c);
    if Ok(view, c.rest.s) {
      StepMatched(view, c.rest, c.facts, c.due);
      assert Rows(c.rest.s) <= locks;
    } else if !Quiet(c.rest.no) {
      StepMissed(view, c.rest, c.facts, c.due);
    }
  }

  /** Where a path leads, the code is still typed and the view is sound, unless it can no longer commit. */
  lemma {:induction false} WalkOk(db: State, c: Conf, path: seq<bool>, locks: set<Row>)
    requires ConfOk(db, c, locks) && Walk(db, c, path, locks).Some? && !Quiet(Walk(db, c, path, locks).value.rest)
    ensures ConfOk(db, Walk(db, c, path, locks).value, locks)
    decreases |path|
  {
    if path != [] {
      AdvanceOk(db, c, locks);
      if Quiet(Advance(db, c).rest) { QuietWalk(db, Advance(db, c), path[1..], locks); }
      WalkOk(db, Advance(db, c), path[1..], locks);
    }
  }

  // ---- what others commit does not change my answers ----

  lemma SameView(a: State, b: State, c: Conf, locks: set<Row>, rows: set<Row>)
    requires SameRows(a, b, locks) && rows <= locks
    ensures SameRows(View(a, c), View(b, c), rows)
  {
    forall k | k in rows
      ensures SameRow(View(a, c), View(b, c), k)
    {
      assert SameRow(a, b, k);
      MergeKeepsSameRow(a, b, c.writes, k);
    }
  }

  ghost predicate SameStep(a: State, b: State, c: Conf)
    requires c.rest.Do?
  {
    var s := c.rest.s;
    && Ok(View(b, c), s) == Ok(View(a, c), s)
    && (Ok(View(a, c), s) ==> WritesOf(View(b, c), s) == WritesOf(View(a, c), s))
  }

  /** A statement already answered firmly gets the same answer and writes the same rows. */
  lemma SameAnswer(a: State, b: State, c: Conf, locks: set<Row>)
    requires c.rest.Do? && Firm(a, c, locks) && SameRows(a, b, locks) && Evolves(a, b) && OrdersKnown(b)
    ensures Firm(b, c, locks) && Ok(View(b, c), c.rest.s) == Ok(View(a, c), c.rest.s)
    ensures Advance(b, c) == Advance(a, c)
  {
    SameFirmStep(a, b, c, locks);
    if Marks(c.rest.s) && !Ok(View(a, c), c.rest.s) && c.rest.s.id in View(a, c).reservations {
      SettledStays(a, b, c, c.rest.s.id);
    }
  }

  lemma SameFirmStep(a: State, b: State, c: Conf, locks: set<Row>)
    requires c.rest.Do? && Firm(a, c, locks) && SameRows(a, b, locks) && Evolves(a, b) && OrdersKnown(b)
    ensures SameStep(a, b, c)
  {
    var s := c.rest.s;
    if Marks(s) && !(Rows(s) <= locks) {
      SettledStays(a, b, c, s.id);
    } else if !LooksElsewhere(s) {
      SameView(a, b, c, locks, Rows(s));
      EffectIsLocal(View(a, c), View(b, c), s);
    } else {
      SameLook(a, b, c, locks);
    }
  }

  lemma SameLook(a: State, b: State, c: Conf, locks: set<Row>)
    requires c.rest.Do? && LooksElsewhere(c.rest.s) && Ok(View(a, c), c.rest.s) && Rows(c.rest.s) <= locks
    requires SameRows(a, b, locks) && Evolves(a, b) && OrdersKnown(b)
    ensures SameStep(a, b, c)
  {
    var s := c.rest.s;
    match s
    case SelectActive(o, found) =>
      assert OrderRow(o) in Rows(s);
      SelectionStays(a, b, c, o, found);
    case Send(_) =>
    case Sample(_) =>
  }

  lemma SettledStays(a: State, b: State, c: Conf, id: ReservationId)
    requires Evolves(a, b) && id in View(a, c).reservations && !View(a, c).reservations[id].status.Active?
    ensures id in View(b, c).reservations && !View(b, c).reservations[id].status.Active?
  {
  }

  lemma RowStays(a: State, b: State, c: Conf, id: ReservationId, r: Reservation)
    requires Evolves(a, b) && IsRow(View(a, c), id, r)
    ensures IsRow(View(b, c), id, r)
  {
  }

  /** No order gains an ACTIVE reservation while its row is locked. */
  lemma NoNewActive(a: State, b: State, c: Conf, o: OrderId, id: ReservationId)
    requires Evolves(a, b) && OrdersKnown(b) && SameRow(a, b, OrderRow(o))
    requires IsActive(View(b, c), id) && View(b, c).reservations[id].order == o
    ensures IsActive(View(a, c), id) && View(a, c).reservations[id].order == o
  {
  }

  lemma SelectionStays(a: State, b: State, c: Conf, o: OrderId, found: seq<Found>)
    requires Evolves(a, b) && OrdersKnown(b) && SameRow(a, b, OrderRow(o)) && Covers(View(a, c), o, found)
    ensures Covers(View(b, c), o, found)
  {
    forall i | 0 <= i < |found|
      ensures IsRow(View(b, c), found[i].0, found[i].1)
    {
      RowStays(a, b, c, found[i].0, found[i].1);
    }
    forall id | IsActive(View(b, c), id) && View(b, c).reservations[id].order == o
      ensures Listed(found, id)
    {
      NoNewActive(a, b, c, o, id);
    }
  }

  lemma {:induction false} WalkStays(a: State, b: State, c: Conf, path: seq<bool>, locks: set<Row>)
    requires SameRows(a, b, locks) && Evolves(a, b) && OrdersKnown(b) && Walk(a, c, path, locks).Some?
    ensures Walk(b, c, path, locks) == Walk(a, c, path, locks)
    decreases |path|
  {
    if path != [] {
      SameAnswer(a, b, c, locks);
      WalkStays(a, b, Advance(a, c), path[1..], locks);
    }
  }

  lemma OthersKeepTxn(a: State, b: State, n: Txn)
    requires TxnOk(a, n) && SameRows(a, b, n.locks) && Evolves(a, b) && OrdersKnown(b)
    ensures TxnOk(b, n)
  {
    if !Quiet(n.conf.rest) { WalkStays(a, b, Start(a.cfg, n.tx), n.path, n.locks); }
  }

  // ---- each move ----

  /** The step of the one-at-a-time run that a move stands for, if it commits anything. */
  function Shows(w: World, m: Move): Option<Step> {
    match m
    case CommitIt(t) => if t in w.live then Some(Does(w.live[t].tx)) else None
    case Abort(t) => if t in w.live then AbortStep(w.live[t].tx) else None
    case Around(step) => Some(step)
    case _ => None
  }

  lemma MatchKeepsTxn(db: State, n: Txn)
    requires TxnOk(db, n) && Inv(db) && n.conf.rest.Do? && Ok(View(db, n.conf), n.conf.rest.s)
    ensures TxnOk(db, Txn(n.tx, Matched(db, n.conf), n.path + [true], n.locks + Rows(n.conf.rest.s)))
  {
    var s, locks := n.conf.rest.s, n.locks + Rows(n.conf.rest.s);
    WritesStayWithin(View(db, n.conf), s);
    WithinMore(n.conf.writes, n.locks, locks);
    WithinMore(WritesOf(View(db, n.conf), s), Rows(s), locks);
    WithinCompose(n.conf.writes, WritesOf(View(db, n.conf), s), locks);
    if !Quiet(n.conf.rest) {
      WalkMoreLocks(db, Start(db.cfg, n.tx), n.path, n.locks, locks);
      WalkOn(db, Start(db.cfg, n.tx), n.path, locks, true);
    }
  }

  lemma WithinMore(d: Delta, rows: set<Row>, more: set<Row>)
    requires Within(d, rows) && rows <= more
    ensures Within(d, more)
  {
  }

  lemma MissKeepsTxn(db: State, n: Txn, locks: set<Row>)
    requires TxnOk(db, n) && Inv(db) && n.conf.rest.Do? && !Ok(View(db, n.conf), n.conf.rest.s) && n.locks <= locks
    ensures TxnOk(db, Txn(n.tx, Missed(n.conf), n.path + [false], locks))
  {
    WithinMore(n.conf.writes, n.locks, locks);
    if !Quiet(n.conf.rest.no) {
      var c := Start(db.cfg, n.tx);
      StartOk(db, n.tx, n.locks);
      WalkOk(db, c, n.path, n.locks);
      StepMissed(View(db, n.conf), n.conf.rest, n.conf.facts, n.conf.due);
      MissIsFirm(db, n.conf, n.locks);
      WalkMoreLocks(db, c, n.path, n.locks, locks);
      WalkOn(db, c, n.path, locks, false);
    }
  }

  lemma MissIsFirm(db: State, c: Conf, locks: set<Row>)
    requires c.rest.Do? && ConfOk(db, c, locks) && MayMiss(c.rest.s, c.facts) && !Ok(View(db, c), c.rest.s)
    ensures Firm(db, c, locks)
  {
    var s := c.rest.s;
    if Marks(s) {
      assert Holds(View(db, c), Known(s.id, s.reservation.r));
    } else {
      forall k | k in Rows(s)
        ensures k in locks
      {
        assert Owns(k) in c.facts;
      }
    }
  }

  lemma CommitShows(db: State, n: Txn)
    requires TxnOk(db, n) && n.conf.rest.Commit?
    ensures Next(db, Does(n.tx), View(db, n.conf))
  {
    LiveRuns(db, n);
  }

  lemma CommitLeavesRows(db: State, n: Txn, locks: set<Row>)
    requires TxnOk(db, n) && n.locks !! locks
    ensures SameRows(db, View(db, n.conf), locks)
  {
    forall k | k in locks
      ensures SameRow(db, View(db, n.conf), k)
    {
      MergeLeavesOtherRows(db, n.conf.writes, n.locks, k);
    }
  }

  lemma AroundLeavesRows(db: State, s: Step, db': State, locks: set<Row>)
    requires Next(db, s, db') && !s.Does? && (s.Crash? ==> WorkerRow(s.order) !in locks)
    ensures SameRows(db, db', locks)
  {
    forall k | k in locks
      ensures SameRow(db, db', k)
    {
    }
  }

  /** When the committed state moves on, so do all transactions that are not touched. */
  lemma OthersOk(w: World, w': World, s: Step)
    requires WorldOk(w) && Next(w.db, s, w'.db) && w'.live.Keys <= w.live.Keys
    requires forall t | t in w'.live :: w'.live[t] == w.live[t] && SameRows(w.db, w'.db, w'.live[t].locks)
    ensures WorldOk(w')
  {
    NextKeepsInv(w.db, s, w'.db);
    forall t | t in w'.live
      ensures TxnOk(w'.db, w'.live[t])
    {
      OthersKeepTxn(w.db, w'.db, w.live[t]);
    }
  }

  lemma TxnMoves(w: World, t: nat, n: Txn)
    requires LiveOk(w.db, w.live) && TxnOk(w.db, n) && Free(w, t, n.locks)
    ensures LiveOk(w.db, w.live[t := n])
  {
    var live := w.live[t := n];
    forall u | u in live
      ensures TxnOk(w.db, live[u])
    {
      if u != t { assert TxnOk(w.db, w.live[u]); }
    }
  }

  lemma StartMoveOk(w: World, m: Move, w': World)
    requires WorldOk(w) && Moves(w, m, w') && m.Open?
    ensures WorldOk(w')
  {
    var n := Txn(m.tx, Start(w.db.cfg, m.tx), [], Process(m.tx));
    assert Within(NOTHING, Process(m.tx));
    assert TxnOk(w.db, n);
    TxnMoves(w, m.t, n);
  }

  lemma StatementMoveOk(w: World, m: Move, w': World)
    requires WorldOk(w) && Moves(w, m, w') && (m.Match? || m.Miss?)
    ensures WorldOk(w')
  {
    var n := w.live[m.t];
    var locks := if m.Match? || m.lock then n.locks + Rows(n.conf.rest.s) else n.locks;
    if m.Match? {
      MatchKeepsTxn(w.db, n);
    } else {
      MissKeepsTxn(w.db, n, locks);
    }
    StillFree(w, m.t, locks);
    TxnMoves(w, m.t, w'.live[m.t]);
  }

  lemma StillFree(w: World, t: nat, locks: set<Row>)
    requires WorldOk(w) && t in w.live && w.live[t].conf.rest.Do?
    requires locks == w.live[t].locks || (locks == w.live[t].locks + Rows(w.live[t].conf.rest.s) &&
                                          Free(w, t, Rows(w.live[t].conf.rest.s)))
    ensures Free(w, t, locks)
  {
    forall u | u in w.live && u != t
      ensures w.live[u].locks !! locks
    {
      assert w.live[u].locks !! w.live[t].locks;
    }
  }

  lemma CommitMoveOk(w: World, m: Move, w': World)
    requires WorldOk(w) && Moves(w, m, w') && m.CommitIt?
    ensures WorldOk(w') && Next(w.db, Does(w.live[m.t].tx), w'.db)
  {
    var n := w.live[m.t];
    CommitShows(w.db, n);
    forall u | u in w'.live
      ensures SameRows(w.db, w'.db, w'.live[u].locks)
    {
      CommitLeavesRows(w.db, n, w.live[u].locks);
    }
    OthersOk(w, w', Does(n.tx));
  }

  lemma AbortMoveOk(w: World, m: Move, w': World)
    requires WorldOk(w) && Moves(w, m, w') && m.Abort?
    ensures WorldOk(w')
  {
    var n := w.live[m.t];
    if AbortStep(n.tx).Some? {
      forall u | u in w'.live
        ensures SameRows(w.db, w'.db, w'.live[u].locks)
      {
        assert w.live[u].locks !! n.locks && WorkerRow(n.tx.order) in n.locks;
        AroundLeavesRows(w.db, AbortStep(n.tx).value, w'.db, w.live[u].locks);
      }
      OthersOk(w, w', AbortStep(n.tx).value);
    }
  }

  lemma AroundMoveOk(w: World, m: Move, w': World)
    requires WorldOk(w) && Moves(w, m, w') && m.Around?
    ensures WorldOk(w')
  {
    forall u | u in w'.live
      ensures SameRows(w.db, w'.db, w'.live[u].locks)
    {
      AroundLeavesRows(w.db, m.step, w'.db, w.live[u].locks);
    }
    OthersOk(w, w', m.step);
  }

  /** Every move keeps the world sound, and changes committed state only as one step of a one-at-a-time run. */
  lemma MoveRefines(w: World, m: Move, w': World)
    requires WorldOk(w) && Moves(w, m, w')
    ensures WorldOk(w')
    ensures match Shows(w, m) case None => w'.db == w.db case Some(s) => Next(w.db, s, w'.db)
  {
    match m
    case Open(_, _) => StartMoveOk(w, m, w');
    case Match(_) => StatementMoveOk(w, m, w');
    case Miss(_, _) => StatementMoveOk(w, m, w');
    case CommitIt(_) => CommitMoveOk(w, m, w');
    case Abort(_) => AbortMoveOk(w, m, w');
    case Around(_) => AroundMoveOk(w, m, w');
  }

  // ---- whole interleavings ----

  ghost predicate IsInterleaving(worlds: seq<World>, moves: seq<Move>) {
    && |worlds| == |moves| + 1 && Init(worlds[0].db) && worlds[0].live == map[]
    && forall i | 0 <= i < |moves| :: Moves(worlds[i], moves[i], worlds[i + 1])
  }

  /** The one-at-a-time run an interleaving amounts to: the states committed, in commit order. */
  ghost function SerialStates(worlds: seq<World>, moves: seq<Move>): seq<State>
    requires |worlds| == |moves| + 1
    decreases |moves|
  {
    var n := |moves|;
    if n == 0 then [worlds[0].db] else
    var shown := Shows(worlds[n - 1], moves[n - 1]);
    SerialStates(worlds[..n], moves[..n - 1]) + (if shown.Some? then [worlds[n].db] else [])
  }

  ghost function SerialSteps(worlds: seq<World>, moves: seq<Move>): seq<Step>
    requires |worlds| == |moves| + 1
    decreases |moves|
  {
    var n := |moves|;
    if n == 0 then [] else
    var shown := Shows(worlds[n - 1], moves[n - 1]);
    SerialSteps(worlds[..n], moves[..n - 1]) + (if shown.Some? then [shown.value] else [])
  }

  /** Serializability: the committed states of any interleaving are those of a run of whole transactions. */
  lemma {:induction false} Serializable(worlds: seq<World>, moves: seq<Move>)
    requires IsInterleaving(worlds, moves)
    ensures WorldOk(worlds[|moves|])
    ensures var states := SerialStates(worlds, moves);
      IsRun(states, SerialSteps(worlds, moves)) && states[|states| - 1] == worlds[|moves|].db
    decreases |moves|
  {
    var n := |moves|;
    if n == 0 {
      InitOk(worlds[0].db);
    } else {
      Serializable(worlds[..n], moves[..n - 1]);
      MoveRefines(worlds[n - 1], moves[n - 1], worlds[n]);
      var states, steps := SerialStates(worlds[..n], moves[..n - 1]), SerialSteps(worlds[..n], moves[..n - 1]);
      var shown := Shows(worlds[n - 1], moves[n - 1]);
      if shown.Some? {
        ExtendRun(states, steps, shown.value, worlds[n].db);
      }
    }
  }

  /** Every world of every interleaving is sound. */
  lemma InterleavingsKeepInv(worlds: seq<World>, moves: seq<Move>, i: nat)
    requires IsInterleaving(worlds, moves) && i < |worlds|
    ensures WorldOk(worlds[i])
  {
    assert IsInterleaving(worlds[..i + 1], moves[..i]);
    Serializable(worlds[..i + 1], moves[..i]);
  }
}

/** What holds at every statement of every interleaving. */
module Concurrency {
  import opened Schema
  import opened Statements
  import opened Discipline
  import opened Invariant
  import opened Locks
  import opened GiveBacks
  import opened Interleaving

  ghost predicate AllCommit(w: World) { forall t | t in w.live :: GiveBacksCommit(w.live[t].conf.rest) }

  lemma MoveKeepsCommits(w: World, m: Move, w': World)
    requires Moves(w, m, w') && AllCommit(w)
    ensures AllCommit(w')
  {
    if m.Open? { CodeCommits(w.db.cfg, m.tx); }
  }

  lemma {:induction false} LiveCodeCommits(worlds: seq<World>, moves: seq<Move>, i: nat)
    requires IsInterleaving(worlds, moves) && i < |worlds|
    ensures AllCommit(worlds[i])
  {
    if i > 0 {
      LiveCodeCommits(worlds, moves, i - 1);
      MoveKeepsCommits(worlds[i - 1], moves[i - 1], worlds[i]);
    }
  }

  // ---- the guards ----

  /** The guards of `release` and `consume`, whose answers the code ignores, never fail: not in any
      interleaving, not at any statement of any transaction. */
  lemma IgnoredGuardsHold(worlds: seq<World>, moves: seq<Move>, i: nat, t: nat)
    requires IsInterleaving(worlds, moves) && i < |worlds| && t in worlds[i].live
    requires var c := worlds[i].live[t].conf; c.rest.Do? && GivesBack(c.rest.s)
    ensures Ok(View(worlds[i].db, worlds[i].live[t].conf), worlds[i].live[t].conf.rest.s)
  {
    InterleavingsKeepInv(worlds, moves, i);
    LiveCodeCommits(worlds, moves, i);
    GuardsHold(worlds[i].db, worlds[i].live[t]);
  }

  lemma GuardsHold(db: State, n: Txn)
    requires Inv(db) && TxnOk(db, n) && n.conf.rest.Do? && GivesBack(n.conf.rest.s) && !Quiet(n.conf.rest)
    ensures Ok(View(db, n.conf), n.conf.rest.s)
  {
    StartOk(db, n.tx, n.locks);
    WalkOk(db, Start(db.cfg, n.tx), n.path, n.locks);
    SurelyMatches(View(db, n.conf), n.conf.rest, n.conf.facts, n.conf.due);
  }

  /** The re-lock of process_order, which does not look at the status again, always finds PROCESSING, in
      every interleaving and for as long as the transaction is under way. */
  lemma RelockFindsProcessing(worlds: seq<World>, moves: seq<Move>, i: nat, t: nat)
    requires IsInterleaving(worlds, moves) && i < |worlds| && t in worlds[i].live
    requires var n := worlds[i].live[t]; n.tx.Finish? && n.path != [] && !Quiet(n.conf.rest)
    ensures var tx, orders := worlds[i].live[t].tx, worlds[i].db.orders;
      && tx.order in orders && orders[tx.order].status.Processing?
      && orders[tx.order].attempts == tx.attempt && orders[tx.order].token == tx.token
  {
    InterleavingsKeepInv(worlds, moves, i);
    FinishOwns(worlds[i].db, worlds[i].live[t]);
  }

  lemma FinishOwns(db: State, n: Txn)
    requires Inv(db) && TxnOk(db, n) && n.tx.Finish? && n.path != [] && !Quiet(n.conf.rest)
    ensures var o := n.tx.order;
      && o in db.orders && db.orders[o].status.Processing?
      && db.orders[o].attempts == n.tx.attempt && db.orders[o].token == n.tx.token
  {
    var c, o := Start(db.cfg, n.tx), n.tx.order;
    MergeNothing(db);
    if !n.path[0] { QuietWalk(db, Missed(c), n.path[1..], n.locks); }
    assert Owned(db.workers[o], db.orders[o], o, db.deadLetters, db.cfg);
  }
}

/** Competing for stock, in every interleaving: what is granted and what is left add up to what was there. */
module Races {
  import opened Schema
  import opened Transactions
  import opened Effects
  import opened Runs
  import opened Interleaving
  import opened Creation
  import opened LowStock

  // ---- what one committed order takes ----

  function AvailableIn(t: StockTable, p: ProductId, w: WarehouseId): nat {
    if (p, w) in t then t[(p, w)].available else 0
  }

  function Wants(line: Line, pick: Pick, p: ProductId, w: WarehouseId): nat {
    if line.product == p && pick.warehouse == Some(w) then line.quantity else 0
  }

  /** The units these lines take at (p, w). */
  function TakenBy(lines: seq<Line>, picks: seq<Pick>, p: ProductId, w: WarehouseId): nat
    requires |lines| == |picks|
    decreases |lines|
  {
    if lines == [] then 0 else Wants(lines[0], picks[0], p, w) + TakenBy(lines[1..], picks[1..], p, w)
  }

  lemma {:induction false} TakenByNone(lines: seq<Line>, picks: seq<Pick>, p: ProductId, w: WarehouseId)
    requires |lines| == |picks| && forall i | 0 <= i < |lines| :: Wants(lines[i], picks[i], p, w) == 0
    ensures TakenBy(lines, picks, p, w) == 0
    decreases |lines|
  {
    if lines != [] {
      assert forall i | 0 <= i < |lines[1..]| :: lines[1..][i] == lines[i + 1] && picks[1..][i] == picks[i + 1];
      TakenByNone(lines[1..], picks[1..], p, w);
    }
  }

  lemma {:induction false} TakenByOne(lines: seq<Line>, picks: seq<Pick>, p: ProductId, w: WarehouseId, i: nat)
    requires i < |lines| == |picks| && ProperLines(lines) && Wants(lines[i], picks[i], p, w) > 0
    ensures TakenBy(lines, picks, p, w) == lines[i].quantity
    decreases |lines|
  {
    assert forall j | 0 <= j < |lines[1..]| :: lines[1..][j] == lines[j + 1] && picks[1..][j] == picks[j + 1];
    if i == 0 {
      TakenByNone(lines[1..], picks[1..], p, w);
    } else {
      TakenByOne(lines[1..], picks[1..], p, w, i - 1);
    }
  }

  lemma TakenFromRow(a: StockTable, b: StockTable, lines: seq<Line>, picks: seq<Pick>, p: ProductId, w: WarehouseId)
    requires |lines| == |picks| && ProperLines(lines) && AllFit(a, lines, picks) && StockTaken(a, b, lines, picks)
    ensures AvailableIn(b, p, w) + TakenBy(lines, picks, p, w) == AvailableIn(a, p, w)
  {
    if i :| 0 <= i < |lines| && Wants(lines[i], picks[i], p, w) > 0 {
      assert LineFits(a, lines[i], picks[i]);
      TakenByOne(lines, picks, p, w, i);
    } else {
      TakenByNone(lines, picks, p, w);
      forall i | 0 <= i < |lines|
        ensures (p, w) != (lines[i].product, Chosen(picks[i]))
      {
        assert LineFits(a, lines[i], picks[i]) && Wants(lines[i], picks[i], p, w) == 0;
      }
    }
  }

  /** A committed create_order takes just that, with or without a key. */
  lemma CommittedTakes(db: State, tx: Tx, db': State, p: ProductId, w: WarehouseId)
    requires Next(db, Does(tx), db') && tx.Create?
    ensures AvailableIn(db'.inventory, p, w) + TakenBy(tx.payload.items, tx.picks, p, w) ==
      AvailableIn(db.inventory, p, w)
  {
    if Claims(tx.key) { ClaimRun(db, tx, BodyOf(db.cfg, tx)); }
    var claimed := Claimed(db, tx);
    BodyTakes(claimed, tx);
    var taken := TookAll(claimed, tx.payload.items, tx.picks, tx.order);
    TookAllStock(claimed, tx.payload.items, tx.picks, tx.order);
    InsertKeepsStock(taken, tx);
    TakenFromRow(db.inventory, taken.inventory, tx.payload.items, tx.picks, p, w);
  }

  // ---- only orders, of any shape, with aborts anywhere ----

  predicate AllOrders(w: World) { forall t | t in w.live :: w.live[t].tx.Create? }

  /** Only orders are under way at `a`, and only orders are opened up to `b`. */
  predicate OnlyOrders(worlds: seq<World>, moves: seq<Move>, a: nat, b: nat)
    requires a <= b <= |moves| < |worlds|
  {
    AllOrders(worlds[a]) && forall i | a <= i < b && moves[i].Open? :: moves[i].tx.Create?
  }

  /** What move `m` grants at (p, w) for good. */
  function GrantedBy(w0: World, m: Move, p: ProductId, w: WarehouseId): nat {
    if m.CommitIt? && m.t in w0.live && w0.live[m.t].tx.Create? && Legal(w0.live[m.t].tx)
    then TakenBy(w0.live[m.t].tx.payload.items, w0.live[m.t].tx.picks, p, w) else 0
  }

  function Granted(worlds: seq<World>, moves: seq<Move>, a: nat, b: nat, p: ProductId, w: WarehouseId): nat
    requires a <= b <= |moves| < |worlds|
  {
    if a == b then 0 else Granted(worlds, moves, a, b - 1, p, w) + GrantedBy(worlds[b - 1], moves[b - 1], p, w)
  }

  predicate GrantFits(w0: World, m: Move, w1: World, p: ProductId, w: WarehouseId) {
    AvailableIn(w1.db.inventory, p, w) + GrantedBy(w0, m, p, w) == AvailableIn(w0.db.inventory, p, w)
  }

  lemma MoveKeepsOrders(w0: World, m: Move, w1: World)
    requires Moves(w0, m, w1) && AllOrders(w0) && (m.Open? ==> m.tx.Create?)
    ensures AllOrders(w1) && (!m.CommitIt? ==> w1.db.inventory == w0.db.inventory)
  {
  }

  lemma CommitGrants(db: State, n: Txn, p: ProductId, w: WarehouseId)
    requires TxnOk(db, n) && n.conf.rest.Commit? && n.tx.Create?
    ensures AvailableIn(View(db, n.conf).inventory, p, w) + TakenBy(n.tx.payload.items, n.tx.picks, p, w)
      == AvailableIn(db.inventory, p, w)
  {
    CommitShows(db, n);
    CommittedTakes(db, n.tx, View(db, n.conf), p, w);
  }

  lemma MoveGrants(w0: World, m: Move, w1: World, p: ProductId, w: WarehouseId)
    requires LiveOk(w0.db, w0.live) && Moves(w0, m, w1) && AllOrders(w0) && (m.Open? ==> m.tx.Create?)
    ensures GrantFits(w0, m, w1, p, w)
  {
    if m.CommitIt? {
      CommitGrants(w0.db, w0.live[m.t], p, w);
    } else {
      MoveKeepsOrders(w0, m, w1);
    }
  }

  lemma {:induction false} OrdersStay(worlds: seq<World>, moves: seq<Move>, a: nat, b: nat)
    requires IsInterleaving(worlds, moves) && a <= b <= |moves| && OnlyOrders(worlds, moves, a, b)
    ensures AllOrders(worlds[b])
  {
    if a < b {
      OrdersStay(worlds, moves, a, b - 1);
      MoveKeepsOrders(worlds[b - 1], moves[b - 1], worlds[b]);
    }
  }

  lemma GrantInRun(worlds: seq<World>, moves: seq<Move>, i: nat, p: ProductId, w: WarehouseId)
    requires IsInterleaving(worlds, moves) && i < |moves| && (moves[i].Open? ==> moves[i].tx.Create?)
    requires AllOrders(worlds[i])
    ensures GrantFits(worlds[i], moves[i], worlds[i + 1], p, w)
  {
    InterleavingsKeepInv(worlds, moves, i);
    MoveGrants(worlds[i], moves[i], worlds[i + 1], p, w);
  }

  lemma {:induction false} GrantsAddUp(worlds: seq<World>, moves: seq<Move>, a: nat, b: nat, p: ProductId,
                                       w: WarehouseId)
    requires a <= b <= |moves| < |worlds|
    requires forall i | a <= i < b :: GrantFits(worlds[i], moves[i], worlds[i + 1], p, w)
    ensures AvailableIn(worlds[b].db.inventory, p, w) + Granted(worlds, moves, a, b, p, w)
      == AvailableIn(worlds[a].db.inventory, p, w)
  {
    if a < b { GrantsAddUp(worlds, moves, a, b - 1, p, w); }
  }

  /** In every stretch of every interleaving in which only orders are placed, of any shape and with aborts
      anywhere, what is granted and what is left add up to what was there; so no more is granted than that. */
  lemma GrantsFit(worlds: seq<World>, moves: seq<Move>, a: nat, b: nat, p: ProductId, w: WarehouseId)
    requires IsInterleaving(worlds, moves) && a <= b <= |moves| && OnlyOrders(worlds, moves, a, b)
    ensures AvailableIn(worlds[b].db.inventory, p, w) + Granted(worlds, moves, a, b, p, w)
      == AvailableIn(worlds[a].db.inventory, p, w)
  {
    forall i | a <= i < b
      ensures GrantFits(worlds[i], moves[i], worlds[i + 1], p, w)
    {
      OrdersStay(worlds, moves, a, i);
      GrantInRun(worlds, moves, i, p, w);
    }
    GrantsAddUp(worlds, moves, a, b, p, w);
  }
}

/** Competing for stock, in every interleaving: a request is granted if and only if the committed row has enough. */
module NoOversell {
  import opened Schema
  import opened Statements
  import opened Transactions
  import opened Effects
  import opened Locks
  import opened Interleaving
  import opened Creation

  // ---- a request is answered by the committed row ----

  function StockOf(s: Stmt): set<Stock> { if s.OnStock? then {(s.p, s.w)} else {} }

  /** No path reserves from a row it has worked on before, or from one of `keys`. */
  predicate ReservesOnce(p: Prog, keys: set<Stock>) {
    match p
    case Do(s, yes, no) =>
      && (s.OnStock? && s.stock.TryReserve? ==> (s.p, s.w) !in keys)
      && ReservesOnce(yes, keys + StockOf(s)) && ReservesOnce(no, keys)
    case _ => true
  }

  predicate NeverReserves(p: Prog) {
    match p
    case Do(s, yes, no) => !(s.OnStock? && s.stock.TryReserve?) && NeverReserves(yes) && NeverReserves(no)
    case _ => true
  }

  lemma {:induction false} NoneIsOnce(p: Prog, keys: set<Stock>)
    requires NeverReserves(p)
    ensures ReservesOnce(p, keys)
    decreases p
  {
    if p.Do? {
      NoneIsOnce(p.yes, keys + StockOf(p.s));
      NoneIsOnce(p.no, keys);
    }
  }

  lemma {:induction false} FewerKeys(p: Prog, keys: set<Stock>, fewer: set<Stock>)
    requires ReservesOnce(p, keys) && fewer <= keys
    ensures ReservesOnce(p, fewer)
    decreases p
  {
    if p.Do? {
      FewerKeys(p.yes, keys + StockOf(p.s), fewer + StockOf(p.s));
      FewerKeys(p.no, keys, fewer);
    }
  }

  lemma NoneGoesOn(s: Stmt, yes: Prog, why: Ending)
    requires NeverReserves(yes) && !(s.OnStock? && s.stock.TryReserve?)
    ensures NeverReserves(Do(s, yes, Stop(why)))
  {
    var no := Stop(why);
    assert NeverReserves(no);
  }

  lemma {:induction false} InsertAllReservesNone(rows: seq<Found>, k: Prog)
    requires NeverReserves(k)
    ensures NeverReserves(InsertAll(rows, k))
    decreases |rows|
  {
    if rows != [] { InsertAllReservesNone(rows[1..], k); }
  }

  lemma InsertRowsReserveNone(cfg: Config, tx: Tx)
    requires tx.Create? && Legal(tx) && AllKnown(cfg, tx.payload.items)
    ensures NeverReserves(InsertOf(cfg, tx))
  {
    var row := OrderOf(cfg, tx);
    var last := LastStep(tx.key, tx.order, row);
    var announce := Then(OnEvent(tx.event, InsertEvent(OrderReserved(tx.order))), last);
    if Claims(tx.key) {
      NoneGoesOn(OnKey(tx.key.value, CompleteKey(tx.order, Serialize(tx.order, row))), Commit, IntegrityError);
    }
    NoneGoesOn(OnEvent(tx.event, InsertEvent(OrderReserved(tx.order))), last, IntegrityError);
    InsertAllReservesNone(RowsOf(cfg, tx), announce);
  }

  /** The lines name distinct products. */
  lemma {:induction false} LinesReserveOnce(lines: seq<Line>, picks: seq<Pick>, o: OrderId, k: Prog, keys: set<Stock>)
    requires |lines| == |picks| && ProperLines(lines) && NeverReserves(k)
    requires forall i, key | 0 <= i < |lines| && key in keys :: key.0 != lines[i].product
    ensures ReservesOnce(ReserveLines(lines, picks, o, k), keys)
    decreases |lines|
  {
    if lines == [] {
      NoneIsOnce(k, keys);
    } else if picks[0].warehouse.Some? {
      var p, w, q := lines[0].product, picks[0].warehouse.value, lines[0].quantity;
      var rest, keys' := ReserveLines(lines[1..], picks[1..], o, k), keys + {(p, w)};
      LinesReserveOnce(lines[1..], picks[1..], o, k, keys');
      assert keys' + {(p, w)} == keys' && keys' + {} == keys';
      var raise := Then(RaiseAlert(p, w, picks[0].alert, picks[0].event), rest);
      assert ReservesOnce(raise, keys');
      var check := CheckLow(p, w, -(q as int), picks[0].alert, picks[0].event, rest);
      assert ReservesOnce(check, keys');
      assert ReservesOnce(Then(Audit(Entry(p, w, -(q as int), InventoryReserved, o)), check), keys');
    }
  }

  lemma CreateReservesOnce(cfg: Config, tx: Tx)
    requires tx.Create? && Legal(tx)
    ensures ReservesOnce(Code(cfg, tx), {})
  {
    BodyReservesOnce(cfg, tx);
    if Claims(tx.key) {
      KeyTakenReservesNone(tx.key.value, tx.payload);
      assert {} + StockOf(OnKey(tx.key.value, InsertKey(tx.payload))) == {};
    }
  }

  lemma BodyReservesOnce(cfg: Config, tx: Tx)
    requires tx.Create? && Legal(tx)
    ensures ReservesOnce(BodyOf(cfg, tx), {})
  {
    BodyShape(cfg, tx);
    if AllKnown(cfg, tx.payload.items) {
      InsertRowsReserveNone(cfg, tx);
      LinesReserveOnce(tx.payload.items, tx.picks, tx.order, InsertOf(cfg, tx), {});
      assert {} + StockOf(Sample(tx.now)) == {};
    }
  }

  lemma KeyTakenReservesNone(key: string, payload: Payload)
    ensures ReservesOnce(KeyTaken(key, payload), {})
  {
    var answer := Do(OnKey(key, IsCompleted), Stop(Replayed), Stop(KeyConflict));
    NoneGoesOn(OnKey(key, IsCompleted), Stop(Replayed), KeyConflict);
    NoneGoesOn(OnKey(key, HashMatches(payload)), answer, HashMismatch);
    NoneGoesOn(OnKey(key, LockKey), Do(OnKey(key, HashMatches(payload)), answer, Stop(HashMismatch)), InvalidRequest);
    NoneIsOnce(KeyTaken(key, payload), {});
  }

  /** What each create_order under way has still to reserve, it has not touched. */
  ghost predicate AllReserveOnce(w: World) {
    forall t | t in w.live && w.live[t].tx.Create? ::
      ReservesOnce(w.live[t].conf.rest, w.live[t].conf.writes.inventory.Keys)
  }

  lemma MoveKeepsOnce(w: World, m: Move, w': World)
    requires Moves(w, m, w') && AllReserveOnce(w)
    ensures AllReserveOnce(w')
  {
    if m.Open? && m.tx.Create? {
      CreateReservesOnce(w.db.cfg, m.tx);
      assert NOTHING.inventory.Keys == {};
    } else if m.Match? && w.live[m.t].tx.Create? {
      MatchKeepsOnce(w.db, w.live[m.t].conf);
    }
  }

  lemma MatchKeepsOnce(db: State, c: Conf)
    requires c.rest.Do? && Ok(View(db, c), c.rest.s) && ReservesOnce(c.rest, c.writes.inventory.Keys)
    ensures ReservesOnce(Matched(db, c).rest, Matched(db, c).writes.inventory.Keys)
  {
    var keys := c.writes.inventory.Keys;
    FewerKeys(c.rest.yes, keys + StockOf(c.rest.s), Matched(db, c).writes.inventory.Keys);
  }

  lemma {:induction false} LiveReserveOnce(worlds: seq<World>, moves: seq<Move>, i: nat)
    requires IsInterleaving(worlds, moves) && i < |worlds|
    ensures AllReserveOnce(worlds[i])
  {
    if i > 0 {
      LiveReserveOnce(worlds, moves, i - 1);
      MoveKeepsOnce(worlds[i - 1], moves[i - 1], worlds[i]);
    }
  }

  /** At its turn in any interleaving a request to reserve is granted if and only if the committed row has
      enough, whatever else the transaction has written: a refusal always means less was there than was asked. */
  lemma RefusedOnlyWhenShort(worlds: seq<World>, moves: seq<Move>, i: nat, t: nat, p: ProductId, w: WarehouseId, q: nat)
    requires IsInterleaving(worlds, moves) && i < |worlds| && t in worlds[i].live && worlds[i].live[t].tx.Create?
    requires var c := worlds[i].live[t].conf; c.rest.Do? && c.rest.s == OnStock(p, w, TryReserve(q))
    ensures Ok(View(worlds[i].db, worlds[i].live[t].conf), OnStock(p, w, TryReserve(q)))
      <==> HasEnough(worlds[i].db.inventory, p, w, q)
  {
    LiveReserveOnce(worlds, moves, i);
  }
}

/** What the turns of expire_reservations add up to. */
module Sweeps {
  import opened Schema
  import opened Statements
  import opened Transactions
  import opened Effects
  import opened Invariant
  import opened Runs
  import opened Logs
  import opened Accounts
  import opened Answers

  predicate IsOverdue(r: Reservation, now: int) { r.status.Active? && r.expiresAt < now }

  predicate NoneOverdue(rs: map<ReservationId, Reservation>, now: int) {
    forall id | id in rs :: !IsOverdue(rs[id], now)
  }

  /** Every overdue row of `rs` is among the claims. */
  ghost predicate AllListed(claims: seq<Found>, rs: map<ReservationId, Reservation>, now: int) {
    forall id | id in rs && IsOverdue(rs[id], now) :: Listed(claims, id)
  }

  /** One more row looked at, and claimed if it is overdue. */
  lemma ListedToo(claims: seq<Found>, rs: map<ReservationId, Reservation>, ids: set<ReservationId>, id: ReservationId,
                  now: int)
    requires id in rs && id !in ids && AllListed(claims, rs - (ids + {id}), now)
    ensures IsOverdue(rs[id], now) ==> AllListed(claims + [(id, rs[id])], rs - ids, now)
    ensures !IsOverdue(rs[id], now) ==> AllListed(claims, rs - ids, now)
  {
    var more := claims + [(id, rs[id])];
    forall x | x in rs - ids && IsOverdue(rs[x], now)
      ensures Listed(more, x) && (x != id ==> Listed(claims, x))
    {
      if x == id {
        assert more[|claims|].0 == id;
      } else {
        assert x in rs - (ids + {id});
        var i :| 0 <= i < |claims| && claims[i].0 == x;
        assert more[i].0 == x;
      }
    }
  }

  function ActiveIds(rs: map<ReservationId, Reservation>): set<ReservationId> {
    set id | id in rs && rs[id].status.Active?
  }

  /** The number of ACTIVE reservations. */
  function ActiveCount(rs: map<ReservationId, Reservation>): nat { |ActiveIds(rs)| }

  /** Only overdue ACTIVE rows changed, to RELEASED. */
  predicate SweptTo(a: map<ReservationId, Reservation>, b: map<ReservationId, Reservation>, now: int) {
    b.Keys == a.Keys &&
    forall id | id in a :: b[id] == a[id] || (IsOverdue(a[id], now) && b[id] == a[id].(status := Released))
  }

  /** `id` went from ACTIVE to RELEASED. */
  predicate LetGo(a: map<ReservationId, Reservation>, b: map<ReservationId, Reservation>, id: ReservationId) {
    id in a && id in b && a[id].status.Active? && b[id].status.Released?
  }

  /** Some reservation of `o` did. */
  ghost predicate LostRow(a: map<ReservationId, Reservation>, b: map<ReservationId, Reservation>, o: OrderId) {
    exists id :: LetGo(a, b, id) && a[id].order == o
  }

  /** The RESERVED orders that lost a reservation are EXPIRED, and no other order changed. */
  ghost predicate OrdersSwept(a: State, b: State) {
    b.orders.Keys == a.orders.Keys &&
    forall o | o in a.orders ::
      b.orders[o] == if a.orders[o].status.Reserved? && LostRow(a.reservations, b.reservations, o)
                     then a.orders[o].(status := Expired) else a.orders[o]
  }

  lemma NothingSwept(a: State, b: State)
    requires b.orders == a.orders && b.reservations == a.reservations && b.inventory == a.inventory && Inv(a)
    ensures OrdersSwept(a, b) && OnlyGaveBack(a, b)
  {
    forall p, w
      ensures ReservedAt(b, p, w) == Units(b.reservations, p, w, None, {Active})
    {
      ReservedIsHeld(a, p, w);
    }
  }

  lemma SweptPrices(a: State, b: State)
    requires AllPriced(a) && b.cfg == a.cfg && OrdersSwept(a, b)
    ensures AllPriced(b)
  {
    PricesStay(a, b);
  }

  lemma ClaimsLost(db: State, now: int, claims: seq<Found>, o: OrderId)
    requires Overdue(db, claims, now)
    ensures Touches(claims, o) <==> LostRow(db.reservations, ReleaseFound(db.reservations, claims), o)
  {
    var after := ReleaseFound(db.reservations, claims);
    if i :| 0 <= i < |claims| && claims[i].1.order == o {
      assert IsActive(db, claims[i].0) && Listed(claims, claims[i].0);
      assert LetGo(db.reservations, after, claims[i].0);
    }
    if id :| LetGo(db.reservations, after, id) && db.reservations[id].order == o {
      var i :| 0 <= i < |claims| && claims[i].0 == id;
      assert claims[i].1.order == o;
    }
  }

  lemma BatchSweeps(before: State, now: int, claims: seq<Found>, after: State)
    requires Run(before, ExpireCode(now, claims)) == Committed(after)
    ensures OrdersSwept(before, after)
  {
    ExpireEffect(before, now, claims);
    forall o | o in before.orders
      ensures Touches(claims, o) <==> LostRow(before.reservations, after.reservations, o)
    {
      ClaimsLost(before, now, claims, o);
    }
  }

  /** Two sweeps one after the other are one. */
  lemma SweptTwice(a: State, b: State, c: State, now: int)
    requires SweptTo(a.reservations, b.reservations, now) && SweptTo(b.reservations, c.reservations, now)
    requires OrdersSwept(a, b) && OrdersSwept(b, c)
    ensures OrdersSwept(a, c)
  {
    forall o | o in a.orders
      ensures LostRow(a.reservations, c.reservations, o) <==>
        LostRow(a.reservations, b.reservations, o) || LostRow(b.reservations, c.reservations, o)
    {
      LostInEither(a.reservations, b.reservations, c.reservations, o, now);
    }
  }

  lemma LostInEither(a: map<ReservationId, Reservation>, b: map<ReservationId, Reservation>,
                     c: map<ReservationId, Reservation>, o: OrderId, now: int)
    requires SweptTo(a, b, now) && SweptTo(b, c, now)
    ensures LostRow(a, c, o) <==> LostRow(a, b, o) || LostRow(b, c, o)
  {
    if id :| LetGo(a, c, id) && a[id].order == o {
      assert LetGo(a, b, id) || LetGo(b, c, id);
    }
    if id :| LetGo(a, b, id) && a[id].order == o { assert LetGo(a, c, id); }
    if id :| LetGo(b, c, id) && b[id].order == o { assert LetGo(a, c, id); }
  }

  lemma ListedOneMore(claims: seq<Found>, i: nat)
    requires i < |claims|
    ensures forall id :: Listed(claims[..i + 1], id) <==> Listed(claims[..i], id) || id == claims[i].0
  {
    forall id
      ensures Listed(claims[..i + 1], id) <==> Listed(claims[..i], id) || id == claims[i].0
    {
      assert claims[..i + 1][i] == claims[i];
      if Listed(claims[..i], id) {
        var j :| 0 <= j < |claims[..i]| && claims[..i][j].0 == id;
        assert claims[..i + 1][j].0 == id;
      }
      if Listed(claims[..i + 1], id) && id != claims[i].0 {
        var j :| 0 <= j < |claims[..i + 1]| && claims[..i + 1][j].0 == id;
        assert claims[..i][j].0 == id;
      }
    }
  }

  function IdsOf(claims: seq<Found>): set<ReservationId> { set i | 0 <= i < |claims| :: claims[i].0 }

  lemma {:induction false} DistinctIds(claims: seq<Found>)
    requires Distinct(claims)
    ensures |IdsOf(claims)| == |claims|
    decreases |claims|
  {
    if claims != [] {
      var n := |claims| - 1;
      DistinctIds(claims[..n]);
      assert IdsOf(claims) == IdsOf(claims[..n]) + {claims[n].0};
    }
  }

  /** Each claimed row is one ACTIVE row less. */
  lemma ReleaseCounts(rs: map<ReservationId, Reservation>, claims: seq<Found>)
    requires Distinct(claims)
    requires forall i | 0 <= i < |claims| :: claims[i].0 in rs && rs[claims[i].0].status.Active?
    ensures ActiveCount(ReleaseFound(rs, claims)) + |claims| == ActiveCount(rs)
  {
    DistinctIds(claims);
    var left, ids := ActiveIds(ReleaseFound(rs, claims)), IdsOf(claims);
    forall id
      ensures Listed(claims, id) <==> id in ids
    {
    }
    assert left !! ids;
    assert left + ids == ActiveIds(rs);
  }

  /** The claim's two statements, and what is left to run after them. */
  lemma ClaimedBatch(db: State, now: int, claims: seq<Found>)
    requires now <= db.clock && Overdue(db, claims, now)
    ensures claims != [] ==>
      Run(db, ExpireCode(now, claims)) ==
        Run(db.(reservations := ReleaseFound(db.reservations, claims)), GiveBackAll(claims, Commit))
    ensures claims == [] ==> ReleaseFound(db.reservations, claims) == db.reservations
  {
    var give := GiveBackAll(claims, Commit);
    RunDo(db, Sample(now), LockAll(claims, now, ReleaseClaimed(claims, give)), Stop(OtherRead));
    LockAllRun(db, claims, now, ReleaseClaimed(claims, give));
    ReleaseClaimedRun(db, claims, give);
  }

  lemma TickSound(before: State, after: State)
    requires Inv(before) && before.clock <= after.clock && after == before.(clock := after.clock)
    ensures Inv(after)
  {
    NextKeepsInv(before, Tick(after.clock), after);
  }

  lemma SweepSound(before: State, now: int, claims: seq<Found>, after: State)
    requires Inv(before) && now == before.clock && Legal(Expire(now, claims))
    requires claims == [] ==> after == before
    requires claims != [] ==> Run(before, ExpireCode(now, claims)) == Committed(after)
    ensures Inv(after) && SweptTo(before.reservations, after.reservations, now)
    ensures ActiveCount(after.reservations) + |claims| == ActiveCount(before.reservations)
    ensures claims != [] ==> !NoneOverdue(before.reservations, now)
    ensures OrdersSwept(before, after) && OnlyGaveBack(before, after)
  {
    if claims == [] {
      NothingSwept(before, after);
    } else {
      TransactionKeepsInv(before, Expire(now, claims));
      SweepMeans(before, now, claims, after);
      BatchSweeps(before, now, claims, after);
      StepGivesBack(before, Does(Expire(now, claims)), after);
    }
  }

  lemma SweepMeans(before: State, now: int, claims: seq<Found>, after: State)
    requires Distinct(claims) && claims != [] && Run(before, ExpireCode(now, claims)) == Committed(after)
    ensures SweptTo(before.reservations, after.reservations, now) && !NoneOverdue(before.reservations, now)
    ensures ActiveCount(after.reservations) + |claims| == ActiveCount(before.reservations)
  {
    ExpireEffect(before, now, claims);
    ReleaseCounts(before.reservations, claims);
    assert IsOverdue(before.reservations[claims[0].0], now);
    forall id | Listed(claims, id)
      ensures id in before.reservations && IsOverdue(before.reservations[id], now)
    {
      var i :| 0 <= i < |claims| && claims[i].0 == id;
    }
  }

  /** What the turns so far of expire_reservations add up to. */
  ghost predicate Sweeping(before: State, now: State, total: nat) {
    && before.clock <= now.clock && SweptTo(before.reservations, now.reservations, now.clock)
    && ActiveCount(now.reservations) + total == ActiveCount(before.reservations)
    && (total == 0 ==> now == before.(clock := now.clock))
    && (total > 0 ==> !NoneOverdue(before.reservations, now.clock))
    && OrdersSwept(before, now) && OnlyGaveBack(before, now)
  }

  lemma SweepingStarts(db: State)
    requires Inv(db)
    ensures Sweeping(db, db, 0)
  {
    NothingSwept(db, db);
  }

  lemma SweepingOn(before: State, a: State, total: nat, n: nat, b: State)
    requires Sweeping(before, a, total) && a.clock <= b.clock && SweptTo(a.reservations, b.reservations, b.clock)
    requires ActiveCount(b.reservations) + n == ActiveCount(a.reservations)
    requires if n == 0 then b == a.(clock := b.clock) else !NoneOverdue(a.reservations, b.clock)
    requires OrdersSwept(a, b) && OnlyGaveBack(a, b)
    ensures Sweeping(before, b, total + n)
  {
    SweptTwice(before, a, b, b.clock);
    if n > 0 {
      var id :| id in a.reservations && IsOverdue(a.reservations[id], b.clock);
      assert IsOverdue(before.reservations[id], b.clock);
    } else if total > 0 {
      var id :| id in before.reservations && IsOverdue(before.reservations[id], a.clock);
      assert IsOverdue(before.reservations[id], b.clock);
    }
  }

  /** An EXPIRED order's reservations are all overdue, so once none is, it holds nothing. */
  lemma ExpiredHoldNothing(db: State)
    requires Inv(db) && NoneOverdue(db.reservations, db.clock)
    ensures forall id | id in db.reservations && db.reservations[id].status.Active? ::
      db.reservations[id].order in db.orders && !db.orders[db.reservations[id].order].status.Expired?
  {
  }
}

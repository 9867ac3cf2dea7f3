/** The outbox over whole runs: each order is announced once, and nothing counts as published that was not
    handed to the broker before. */
module Outbox {
  import opened Schema
  import opened Statements
  import opened Transactions
  import opened Effects
  import opened Invariant
  import opened Runs

  /** Every committed order has exactly one ORDER_RESERVED event. */
  lemma AnnouncedOnce(states: seq<State>, steps: seq<Step>, n: nat, o: OrderId) returns (e: EventId)
    requires IsRun(states, steps) && n <= |steps| && o in states[n].orders
    ensures forall d :: d in states[n].events && states[n].events[d].body == OrderReserved(o) <==> d == e
  {
    RunsKeepInv(states, steps, n);
    assert Announced(states[n].events, o);
    e :| e in states[n].events && states[n].events[e].body == OrderReserved(o);
  }

  lemma ExecKeepsSurroundings(db: State, s: Stmt)
    requires Ok(db, s)
    ensures var db' := Exec(db, s); db'.broker == db.broker && db'.clock == db.clock && db'.cfg == db.cfg
  {
  }

  /** No transaction touches the broker, the clock or the settings. */
  lemma {:induction false} RunKeepsSurroundings(db: State, p: Prog)
    requires Run(db, p).Committed?
    ensures var db' := Run(db, p).db; db'.broker == db.broker && db'.clock == db.clock && db'.cfg == db.cfg
    decreases p
  {
    if p.Do? {
      RunDo(db, p.s, p.yes, p.no);
      if Ok(db, p.s) {
        ExecKeepsSurroundings(db, p.s);
        RunKeepsSurroundings(Exec(db, p.s), p.yes);
      } else {
        RunKeepsSurroundings(db, p.no);
      }
    }
  }

  /** The step hands over `e`, which is there and PENDING. */
  ghost predicate HandsOver(db: State, s: Step, e: EventId) {
    s == Enqueue(e) && e in db.events && !db.events[e].published
  }

  lemma {:induction false} SentBefore(states: seq<State>, steps: seq<Step>, n: nat, e: EventId) returns (i: nat)
    requires IsRun(states, steps) && n <= |steps| && e in states[n].broker
    ensures i < n && HandsOver(states[i], steps[i], e)
  {
    var s := if n > 0 then steps[n - 1] else Tick(0);
    if n > 0 && s == Enqueue(e) {
      assert Next(states[n - 1], s, states[n]);
      i := n - 1;
    } else {
      assert n > 0;
      if s.Does? { RunKeepsSurroundings(states[n - 1], Code(states[n - 1].cfg, s.tx)); }
      i := SentBefore(states, steps, n - 1, e);
    }
  }

  /** A PUBLISHED event was handed to the broker at some earlier step, when its row was written and PENDING. */
  lemma PublishedWasSent(states: seq<State>, steps: seq<Step>, n: nat, e: EventId) returns (i: nat)
    requires IsRun(states, steps) && n <= |steps| && e in states[n].events && states[n].events[e].published
    ensures i < n && HandsOver(states[i], steps[i], e)
  {
    assert OutboxOk(states[n].events, states[n].orders.Keys, states[n].broker) by { RunsKeepInv(states, steps, n); }
    i := SentBefore(states, steps, n, e);
  }

  // ---- polls ----

  function PendingIds(events: map<EventId, Event>): set<EventId> { set e | e in events && !events[e].published }

  function SetOf(batch: seq<EventId>): set<EventId> { set e | e in batch }

  /** `n` events, a full batch if there are as many, went from PENDING to PUBLISHED. */
  predicate Drains(a: map<EventId, Event>, b: map<EventId, Event>, n: nat) {
    n == Min(RELAY_BATCH, |PendingIds(a)|) && PendingIds(b) <= PendingIds(a) && |PendingIds(b)| == |PendingIds(a)| - n
  }

  /** However large the backlog, every poll that gets through takes a full batch off it until it is empty. */
  lemma {:induction false} PollsEmptyBacklog(tables: seq<map<EventId, Event>>, counts: seq<nat>, n: nat)
    requires n <= |counts| < |tables| && forall i | 0 <= i < |counts| :: Drains(tables[i], tables[i + 1], counts[i])
    ensures var backlog := |PendingIds(tables[0])|;
      |PendingIds(tables[n])| == if backlog <= n * RELAY_BATCH then 0 else backlog - n * RELAY_BATCH
  {
    if n > 0 {
      PollsEmptyBacklog(tables, counts, n - 1);
      assert Drains(tables[n - 1], tables[n], counts[n - 1]);
    }
  }

  lemma PublishCounts(events: map<EventId, Event>, batch: seq<EventId>)
    requires SetOf(batch) <= PendingIds(events) && |SetOf(batch)| == |batch|
    ensures PendingIds(PublishFound(events, batch)) <= PendingIds(events)
    ensures |PendingIds(PublishFound(events, batch))| == |PendingIds(events)| - |batch|
    ensures PendingIds(events) <= SetOf(batch) ==> |batch| == |PendingIds(events)|
    ensures |batch| <= |PendingIds(events)|
  {
    var left, ids := PendingIds(PublishFound(events, batch)), SetOf(batch);
    assert left !! ids;
    assert left + ids == PendingIds(events);
  }

  lemma {:induction false} AtMostSoMany(batch: seq<EventId>)
    ensures |SetOf(batch)| <= |batch|
    decreases |batch|
  {
    if batch != [] {
      AtMostSoMany(batch[1..]);
      assert SetOf(batch) == {batch[0]} + SetOf(batch[1..]);
    }
  }

  /** As many different events as positions, in every part of a batch that repeats none. */
  lemma PartOfBatch(batch: seq<EventId>, i: nat)
    requires i <= |batch| == |SetOf(batch)|
    ensures |SetOf(batch[..i])| == i
  {
    AtMostSoMany(batch[..i]);
    AtMostSoMany(batch[i..]);
    assert batch == batch[..i] + batch[i..];
    assert SetOf(batch) == SetOf(batch[..i]) + SetOf(batch[i..]);
  }

  /** `sent` went from PENDING to PUBLISHED, and no other row changed. */
  predicate Published(a: map<EventId, Event>, b: map<EventId, Event>, sent: set<EventId>) {
    && b.Keys == a.Keys
    && forall e | e in a :: b[e] == if e in sent then a[e].(published := true) else a[e]
  }

  lemma OneMorePublished(events: map<EventId, Event>, batch: seq<EventId>, i: nat)
    requires i < |batch| && batch[i] in events
    ensures batch[i] in PublishFound(events, batch[..i])
    ensures PublishFound(events, batch[..i + 1]) ==
      PublishFound(events, batch[..i])[batch[i] := events[batch[i]].(published := true)]
    ensures SetOf(batch[..i + 1]) == SetOf(batch[..i]) + {batch[i]}
  {
    assert batch[..i + 1] == batch[..i] + [batch[i]];
  }

  /** What publishing a whole batch comes to. */
  lemma BatchDrains(events: map<EventId, Event>, batch: seq<EventId>)
    requires SetOf(batch) <= PendingIds(events) && |SetOf(batch)| == |batch| <= RELAY_BATCH
    requires |batch| < RELAY_BATCH ==> PendingIds(events) <= SetOf(batch)
    ensures |batch| == Min(50, |PendingIds(events)|)
    ensures forall e | e in batch :: e in events && !events[e].published
    ensures Drains(events, PublishFound(events, batch), |batch|)
    ensures Published(events, PublishFound(events, batch), SetOf(batch))
  {
    PublishCounts(events, batch);
    forall e | e in batch
      ensures e in PendingIds(events)
    {
      assert e in SetOf(batch);
    }
  }

  /** The broker may hold more than the tables say was published. */
  lemma BrokerGrows(a: State, b: State)
    requires Inv(a) && a.broker <= b.broker && b == a.(broker := b.broker)
    ensures Inv(b)
  {
    StockFrame(a, b);
  }

  lemma RelaySound(before: State, batch: seq<EventId>, after: State)
    requires Inv(before) && |batch| <= RELAY_BATCH && AllPending(before, batch)
    requires before.broker <= after.broker && forall e | e in batch :: e in after.broker
    requires after == before.(broker := after.broker, events := PublishFound(before.events, batch))
    ensures Inv(after)
  {
    var enqueued := before.(broker := after.broker);
    BrokerGrows(before, enqueued);
    if batch == [] {
      assert PublishFound(before.events, batch) == before.events;
    } else {
      PublishedSound(enqueued, batch, after);
    }
  }

  lemma PublishedSound(before: State, batch: seq<EventId>, after: State)
    requires Inv(before) && |batch| <= RELAY_BATCH && batch != [] && AllPending(before, batch)
    requires forall e | e in batch :: e in before.broker
    requires after == before.(events := PublishFound(before.events, batch))
    ensures Inv(after)
  {
    RelayEffect(before, batch);
    TransactionKeepsInv(before, Relay(batch));
  }
}

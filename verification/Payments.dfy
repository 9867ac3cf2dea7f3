/** What a delivery makes of an order, token by token. */
module Payments {
  import opened Schema
  import opened Statements
  import opened Transactions
  import opened Effects
  import opened Invariant
  import opened Runs
  import opened Deliveries
  import opened Requests
  import opened Logs
  import opened Outbox
  import opened Answers

  /** Every ACTIVE reservation of `o` became `how`, and no other row changed. */
  predicate HeldBecame(a: map<ReservationId, Reservation>, b: map<ReservationId, Reservation>, o: OrderId,
                       how: ReservationStatus) {
    b.Keys == a.Keys &&
    forall id | id in a ::
      b[id] == if a[id].order == o && a[id].status.Active? then a[id].(status := how) else a[id]
  }

  /** The order ends in `status` on attempt `n`, and all it still held becomes `how`. */
  predicate EndsAs(a: State, o: OrderId, n: nat, status: OrderStatus, how: ReservationStatus, b: State) {
    && o in a.orders && b.orders == a.orders[o := a.orders[o].(status := status, attempts := n)]
    && HeldBecame(a.reservations, b.reservations, o, how)
  }

  /** The order is back where the next delivery finds it, and nothing else moved. */
  predicate ToBeRetried(a: State, o: OrderId, n: nat, b: State) {
    && o in a.orders && b.orders == a.orders[o := a.orders[o].(status := Reserved, attempts := n)]
    && b == a.(orders := b.orders, workers := b.workers)
  }

  /** What the payment for attempt `n` leads to. */
  predicate PaidFor(a: State, o: OrderId, n: nat, token: string, b: State) {
    if token == "fail" then EndsAs(a, o, n, Failed, Released, b)
    else if token == "fail_retryable" then
      if n < a.cfg.maxAttempts then ToBeRetried(a, o, n, b) else EndsAs(a, o, n, Failed, Released, b)
    else EndsAs(a, o, n, Completed, Consumed, b)
  }

  /** The reason an order failed for, on its last attempt if it can be retried at all. */
  function ReasonFor(token: string): string {
    if token == "fail" then "Simulated payment declined" else "Simulated transient payment provider error"
  }

  /** Whether attempt `n` leaves a dead letter. */
  predicate LeavesLetter(cfg: Config, n: nat, token: string) {
    (token == "fail" || token == "fail_retryable") && n >= cfg.maxAttempts
  }

  lemma SettledHeld(rs: map<ReservationId, Reservation>, o: OrderId, how: ReservationStatus)
    ensures HeldBecame(rs, SettleOrder(rs, o, how), o, how)
  {
  }

  // ---- the second half, as a step of any run ----

  lemma FinishPays(db: State, o: OrderId, n: nat, token: string, found: seq<Found>, db': State)
    requires Next(db, Does(Finish(o, n, token, found)), db') && (o in db.orders ==> db.orders[o].attempts == n)
    ensures PaidFor(db, o, n, token, db')
    ensures WorkerOf(db', o) == if LeavesLetter(db.cfg, n, token) then Recording(n, ReasonFor(token)) else Idle
  {
    FinishEffect(db, o, n, token, found);
    SettledHeld(db.reservations, o, Released);
    SettledHeld(db.reservations, o, Consumed);
  }

  /** Whatever else the run does, the second half of a delivery settles the order by its token, once, and leaves
      word of a dead letter to write exactly when a failed payment has used the attempts up. */
  lemma FinishByToken(db: State, o: OrderId, n: nat, token: string, found: seq<Found>, db': State)
    requires Inv(db) && Next(db, Does(Finish(o, n, token, found)), db')
    ensures o in db.orders && db.orders[o].status.Processing? && db.orders[o].attempts == n
    ensures db.orders[o].token == token && PaidFor(db, o, n, token, db')
    ensures WorkerOf(db', o) == if LeavesLetter(db.cfg, n, token) then Recording(n, ReasonFor(token)) else Idle
  {
    FinishEffect(db, o, n, token, found);
    assert Owned(db.workers[o], db.orders[o], o, db.deadLetters, db.cfg);
    FinishPays(db, o, n, token, found, db');
  }

  /** ... and the third commit writes that letter. */
  lemma RecordByToken(db: State, o: OrderId, n: nat, reason: string, db': State)
    requires Next(db, Does(Record(o, n, reason)), db')
    ensures WorkerOf(db, o) == Recording(n, reason)
    ensures db' == db.(deadLetters := db.deadLetters + [DeadLetter(o, reason, n)], workers := db.workers[o := Idle])
  {
    RecordEffect(db, o, n, reason);
  }

  lemma StartedThenPaid(a: State, mid: State, o: OrderId, n: nat, token: string, b: State)
    requires o in a.orders && mid == a.(orders := a.orders[o := Started(a.orders[o])], workers := mid.workers)
    requires PaidFor(mid, o, n, token, b)
    ensures PaidFor(a, o, n, token, b)
  {
  }

  lemma HalvesByToken(a: State, o: OrderId, mid: State, found: seq<Found>, b: State)
    requires o in a.orders && Next(a, Does(Begin(o)), mid) && Next(mid, SecondHalf(a, o, found), b)
    ensures var n, token := a.orders[o].attempts + 1, a.orders[o].token;
      && a.orders[o].status.Reserved? && PaidFor(a, o, n, token, b)
      && WorkerOf(b, o) == if LeavesLetter(a.cfg, n, token) then Recording(n, ReasonFor(token)) else Idle
  {
    BeginEffect(a, o);
    FinishPays(mid, o, a.orders[o].attempts + 1, a.orders[o].token, found, b);
    StartedThenPaid(a, mid, o, a.orders[o].attempts + 1, a.orders[o].token, b);
  }

  /** Both halves of one delivery: "fail" and a last "fail_retryable" end the order FAILED with all it held
      RELEASED, an earlier "fail_retryable" leaves it RESERVED as it was, any other token completes it. */
  lemma DeliveryByToken(a: State, o: OrderId, b: State)
    requires Delivers(a, o, b)
    ensures var n, token := a.orders[o].attempts + 1, a.orders[o].token;
      && a.orders[o].status.Reserved? && PaidFor(a, o, n, token, b)
      && WorkerOf(b, o) == if LeavesLetter(a.cfg, n, token) then Recording(n, ReasonFor(token)) else Idle
  {
    var mid, found :| Next(a, Does(Begin(o)), mid) && Next(mid, SecondHalf(a, o, found), b);
    HalvesByToken(a, o, mid, found, b);
  }

  // ---- one uninterrupted delivery, to its last commit ----

  /** What process_order reports: the end of the order, or the delay for this attempt, or the last one there is. */
  predicate Reports(cfg: Config, n: nat, token: string, backoff: seq<nat>, delivery: Delivery)
    requires n > 0 && backoff != []
  {
    if token == "fail" then delivery == Ended(Failed)
    else if token == "fail_retryable" then
      delivery == if n < cfg.maxAttempts then RetryIn(backoff[Min(n, |backoff|) - 1]) else Ended(Failed)
    else delivery == Ended(Completed)
  }

  lemma ReportsByToken(cfg: Config, n: nat, token: string, backoff: seq<nat>)
    requires n > 0 && backoff != []
    ensures Reports(cfg, n, token, backoff, DeliveryFor(cfg, n, token, backoff))
  {
  }

  lemma ProcessedByToken(a: State, o: OrderId, b: State)
    requires o in a.orders && Processed(a, o, b)
    ensures var n, token := a.orders[o].attempts + 1, a.orders[o].token;
      && PaidFor(a, o, n, token, b)
      && b.deadLetters == a.deadLetters +
         (if LeavesLetter(a.cfg, n, token) then [DeadLetter(o, ReasonFor(token), n)] else [])
  {
    SettledHeld(a.reservations, o, Released);
    SettledHeld(a.reservations, o, Consumed);
  }

  lemma GaveBackTwice(a: State, b: State, c: State)
    requires OnlyGaveBack(a, b) && OnlyGaveBack(b, c)
    ensures OnlyGaveBack(a, c)
  {
  }

  lemma CommitGivesBack(db: State, tx: Tx, db': State)
    requires Inv(db) && Legal(tx) && Run(db, Code(db.cfg, tx)) == Committed(db') && KindsOf(tx) <= SETTLING
    ensures OnlyGaveBack(db, db') && Inv(db')
  {
    StepGivesBack(db, Does(tx), db');
    NextKeepsInv(db, Does(tx), db');
  }

  lemma ChargedGivesBack(t1: State, o: OrderId, n: nat, token: string, found: seq<Found>, t2: State, t3: State)
    requires Inv(t1) && ActiveRowsOf(found, o) && Run(t1, FinishCode(t1.cfg, o, n, token, found)) == Committed(t2)
    requires var w := SettlementOf(t1.cfg, n, token).worker;
      if w.Recording? then Run(t2, RecordCode(o, n, w.reason)) == Committed(t3) else t3 == t2
    ensures OnlyGaveBack(t1, t3)
  {
    CommitGivesBack(t1, Finish(o, n, token, found), t2);
    var w := SettlementOf(t1.cfg, n, token).worker;
    if w.Recording? {
      CommitGivesBack(t2, Record(o, n, w.reason), t3);
      GaveBackTwice(t1, t2, t3);
    }
  }

  /** What is known of a delivery once it ran: its three commits. */
  ghost predicate ThreeCommits(t0: State, o: OrderId, t1: State, found: seq<Found>, t2: State, t3: State)
    requires o in t0.orders
  {
    var n, token := t0.orders[o].attempts + 1, t0.orders[o].token;
    var w := SettlementOf(t1.cfg, n, token).worker;
    && Run(t0, BeginCode(o)) == Committed(t1) && ActiveRowsOf(found, o)
    && t1 == t0.(orders := t0.orders[o := Started(t0.orders[o])], workers := t0.workers[o := Charging(n, token)])
    && Run(t1, FinishCode(t1.cfg, o, n, token, found)) == Committed(t2)
    && if w.Recording? then Run(t2, RecordCode(o, n, w.reason)) == Committed(t3) else t3 == t2
  }

  lemma DeliverySound(t0: State, o: OrderId, t1: State, found: seq<Found>, t2: State, t3: State)
    requires Inv(t0) && o in t0.orders && ThreeCommits(t0, o, t1, found, t2, t3)
    ensures Inv(t3) && OnlyGaveBack(t0, t3)
  {
    var n, token := t0.orders[o].attempts + 1, t0.orders[o].token;
    CommitGivesBack(t0, Begin(o), t1);
    ChargedSound(t1, o, n, token, found, t2, t3);
    ChargedGivesBack(t1, o, n, token, found, t2, t3);
    GaveBackTwice(t0, t1, t3);
  }

  /** One uninterrupted delivery of a RESERVED order, to its last commit. */
  ghost predicate DeliveredByToken(a: State, o: OrderId, b: State, delivery: Delivery, backoff: seq<nat>)
    requires o in a.orders && backoff != []
  {
    var n, token := a.orders[o].attempts + 1, a.orders[o].token;
    && PaidFor(a, o, n, token, b) && Reports(a.cfg, n, token, backoff, delivery) && WorkerOf(b, o).Idle?
    && b.deadLetters == a.deadLetters +
         (if LeavesLetter(a.cfg, n, token) then [DeadLetter(o, ReasonFor(token), n)] else [])
  }

  lemma DeliveryMeans(t0: State, o: OrderId, t1: State, found: seq<Found>, t2: State, t3: State, backoff: seq<nat>)
    requires o in t0.orders && ThreeCommits(t0, o, t1, found, t2, t3) && backoff != []
    ensures Processed(t0, o, t3)
    ensures DeliveredByToken(t0, o, t3,
                             DeliveryFor(t0.cfg, t0.orders[o].attempts + 1, t0.orders[o].token, backoff), backoff)
  {
    ChargedMeans(t0, t1, found, t2, t3, o);
    ProcessedByToken(t0, o, t3);
    ReportsByToken(t0.cfg, t0.orders[o].attempts + 1, t0.orders[o].token, backoff);
  }

  /** Prices and totals are not touched by a delivery. */
  lemma ProcessedPrices(a: State, o: OrderId, b: State)
    requires o in a.orders && Processed(a, o, b) && AllPriced(a) && b.cfg == a.cfg
    ensures AllPriced(b)
  {
    PricesStay(a, b);
  }

  lemma DeliveryKeepsConfig(t0: State, o: OrderId, t1: State, found: seq<Found>, t2: State, t3: State)
    requires o in t0.orders && ThreeCommits(t0, o, t1, found, t2, t3)
    ensures t3.cfg == t0.cfg
  {
    var n, token := t0.orders[o].attempts + 1, t0.orders[o].token;
    RunKeepsSurroundings(t1, FinishCode(t1.cfg, o, n, token, found));
    var w := SettlementOf(t1.cfg, n, token).worker;
    if w.Recording? { RunKeepsSurroundings(t2, RecordCode(o, n, w.reason)); }
  }

  /** All of it together. */
  lemma DeliveryDone(t0: State, o: OrderId, t1: State, found: seq<Found>, t2: State, t3: State, delivery: Delivery,
                     backoff: seq<nat>)
    requires Inv(t0) && AllPriced(t0) && o in t0.orders && ThreeCommits(t0, o, t1, found, t2, t3) && backoff != []
    requires delivery == DeliveryFor(t0.cfg, t0.orders[o].attempts + 1, t0.orders[o].token, backoff)
    ensures Inv(t3) && AllPriced(t3) && OnlyGaveBack(t0, t3)
    ensures Processed(t0, o, t3) && DeliveredByToken(t0, o, t3, delivery, backoff)
  {
    DeliverySound(t0, o, t1, found, t2, t3);
    DeliveryMeans(t0, o, t1, found, t2, t3, backoff);
    DeliveryKeepsConfig(t0, o, t1, found, t2, t3);
    ProcessedPrices(t0, o, t3);
  }

  /** Cancelled: the order and all it held, and nothing else but stock and its log. */
  lemma CancelledInFull(a: State, o: OrderId, b: State)
    requires o in a.orders && CancelledBy(a, b, o)
    ensures EndsAs(a, o, a.orders[o].attempts, Cancelled, Released, b)
    ensures b == a.(inventory := b.inventory, reservations := b.reservations, audit := b.audit, orders := b.orders)
  {
    SettledHeld(a.reservations, o, Released);
  }
}

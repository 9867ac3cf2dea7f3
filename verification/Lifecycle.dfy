/** The life of an order and of its reservations, over whole runs: what may follow what, who may cause it,
    and how often. */
module Lifecycle {
  import opened Schema
  import opened Statements
  import opened Transactions
  import opened Effects
  import opened Invariant
  import opened Runs

  // ---- the order state machine ----

  /** What a committed step makes of an order's row. */
  ghost function OrderAfter(cfg: Config, row: Order, s: Step, o: OrderId): Order {
    if !s.Does? then row else
    match s.tx
    case Cancel(x, _, _) => if x == o then row.(status := Cancelled) else row
    case Begin(x) => if x == o then Started(row) else row
    case Finish(x, attempt, token, _) =>
      if x == o then row.(status := SettlementOf(cfg, attempt, token).status) else row
    case Expire(_, claims) => if Touches(claims, o) && row.status.Reserved? then row.(status := Expired) else row
    case _ => row
  }

  /** The rows on which the step can commit at all. */
  ghost predicate OrderMay(row: Order, s: Step, o: OrderId) {
    s.Does? ==>
      match s.tx
      case Cancel(x, _, _) => x == o ==> row.status.Pending? || row.status.Reserved?
      case Begin(x) => x == o ==> row.status.Reserved?
      case Finish(x, attempt, token, _) =>
        x == o ==> row.status.Processing? && row.attempts == attempt && row.token == token
      case _ => true
  }

  lemma CancelOrBeginOnOrder(db: State, tx: Tx, o: OrderId)
    requires Legal(tx) && Run(db, Code(db.cfg, tx)).Committed? && o in db.orders && (tx.Cancel? || tx.Begin?)
    ensures var db' := Run(db, Code(db.cfg, tx)).db;
      && o in db'.orders && OrderMay(db.orders[o], Does(tx), o)
      && db'.orders[o] == OrderAfter(db.cfg, db.orders[o], Does(tx), o)
  {
    match tx
    case Cancel(x, user, found) => CancelEffect(db, x, user, found);
    case Begin(x) => BeginEffect(db, x);
  }

  lemma CreateOrExpireOnOrder(db: State, tx: Tx, o: OrderId)
    requires Legal(tx) && Run(db, Code(db.cfg, tx)).Committed? && o in db.orders && (tx.Create? || tx.Expire?)
    ensures var db' := Run(db, Code(db.cfg, tx)).db;
      && o in db'.orders && OrderMay(db.orders[o], Does(tx), o)
      && db'.orders[o] == OrderAfter(db.cfg, db.orders[o], Does(tx), o)
  {
    if tx.Create? { CreateEffect(db, tx); } else { ExpireEffect(db, tx.now, tx.claims); }
  }

  lemma FinishOnOrder(db: State, tx: Tx, o: OrderId)
    requires RowsOk(db) && Legal(tx) && Run(db, Code(db.cfg, tx)).Committed? && o in db.orders && tx.Finish?
    ensures var db' := Run(db, Code(db.cfg, tx)).db;
      && o in db'.orders && OrderMay(db.orders[o], Does(tx), o)
      && db'.orders[o] == OrderAfter(db.cfg, db.orders[o], Does(tx), o)
  {
    FinishEffect(db, tx.order, tx.attempt, tx.token, tx.found);
    assert Owned(db.workers[tx.order], db.orders[tx.order], tx.order, db.deadLetters, db.cfg);
  }

  lemma SmallTxOnOrder(db: State, tx: Tx)
    requires Legal(tx) && Run(db, Code(db.cfg, tx)).Committed?
    requires tx.Adjust? || tx.Threshold? || tx.Relay? || tx.Record?
    ensures Run(db, Code(db.cfg, tx)).db.orders == db.orders
  {
    match tx
    case Adjust(p, w, delta, reason, first, alert, e) => AdjustEffect(db, p, w, delta, reason, first, alert, e);
    case Threshold(p, w, threshold, first) => ThresholdEffect(db, p, w, threshold, first);
    case Relay(events) => RelayEffect(db, events);
    case Record(x, attempt, reason) => RecordEffect(db, x, attempt, reason);
  }

  /** Every committed step does to every order what the state machine says, from where it says. */
  lemma StepOnOrder(db: State, s: Step, db': State, o: OrderId)
    requires Inv(db) && Next(db, s, db') && o in db.orders
    ensures o in db'.orders && OrderMay(db.orders[o], s, o) && db'.orders[o] == OrderAfter(db.cfg, db.orders[o], s, o)
  {
    if s.Does? {
      if s.tx.Create? || s.tx.Expire? {
        CreateOrExpireOnOrder(db, s.tx, o);
      } else if s.tx.Cancel? || s.tx.Begin? {
        CancelOrBeginOnOrder(db, s.tx, o);
      } else if s.tx.Finish? {
        FinishOnOrder(db, s.tx, o);
      } else {
        SmallTxOnOrder(db, s.tx);
      }
    }
  }

  /** An order appears only by create_order, RESERVED and never yet attempted. */
  lemma StepAddsOrder(db: State, s: Step, db': State, o: OrderId)
    requires Inv(db) && Next(db, s, db') && o !in db.orders && o in db'.orders
    ensures s.Does? && s.tx.Create? && s.tx.order == o && db'.orders[o].status.Reserved? && db'.orders[o].attempts == 0
  {
    assert s.Does?;
    if s.tx.Create? {
      CreateEffect(db, s.tx);
    } else if s.tx.Cancel? || s.tx.Begin? || s.tx.Finish? || s.tx.Expire? {
      OrderTxAddsNone(db, s.tx);
    } else {
      SmallTxOnOrder(db, s.tx);
    }
  }

  lemma OrderTxAddsNone(db: State, tx: Tx)
    requires Legal(tx) && Run(db, Code(db.cfg, tx)).Committed?
    requires tx.Cancel? || tx.Begin? || tx.Finish? || tx.Expire?
    ensures Run(db, Code(db.cfg, tx)).db.orders.Keys == db.orders.Keys
  {
    match tx
    case Cancel(x, user, found) => CancelEffect(db, x, user, found);
    case Begin(x) => BeginEffect(db, x);
    case Finish(x, attempt, token, found) => FinishEffect(db, x, attempt, token, found);
    case Expire(now, claims) => ExpireEffect(db, now, claims);
  }

  // ---- whole runs ----

  /** COMPLETED, FAILED, CANCELLED and EXPIRED orders stay exactly as they are, over every run. */
  lemma TerminalIsFinal(states: seq<State>, steps: seq<Step>, i: nat, j: nat, o: OrderId)
    requires IsRun(states, steps) && i <= j < |states|
    requires o in states[i].orders && Terminal(states[i].orders[o].status)
    ensures o in states[j].orders && states[j].orders[o] == states[i].orders[o]
  {
    RunsEvolve(states, steps, i, j);
  }

  /** A reservation leaves ACTIVE at most once; what it became, released or consumed, it stays. */
  lemma LeavesActiveOnce(states: seq<State>, steps: seq<Step>, i: nat, j: nat, id: ReservationId)
    requires IsRun(states, steps) && i <= j < |states|
    requires id in states[i].reservations && !states[i].reservations[id].status.Active?
    ensures id in states[j].reservations && states[j].reservations[id] == states[i].reservations[id]
  {
    RunsEvolve(states, steps, i, j);
  }

  /** Finished orders hold no stock; stock is used up only by COMPLETED orders; and what an EXPIRED order
      still holds is overdue, although a batch may have split its reservations. */
  lemma StockFollowsStatus(states: seq<State>, steps: seq<Step>, i: nat, id: ReservationId)
    requires IsRun(states, steps) && i < |states| && id in states[i].reservations
    ensures var r := states[i].reservations[id];
      && r.order in states[i].orders
      && (r.status.Active? ==> !HoldsNothing(states[i].orders[r.order].status))
      && (r.status.Consumed? ==> states[i].orders[r.order].status.Completed?)
      && (states[i].orders[r.order].status.Expired? ==> r.expiresAt < states[i].clock)
  {
    RunsKeepInv(states, steps, i);
  }

  /** At most one dead letter per order, and only for one that FAILED with its attempts used up. */
  lemma OneDeadLetter(states: seq<State>, steps: seq<Step>, i: nat, j: nat, k: nat)
    requires IsRun(states, steps) && i < |states| && j < |states[i].deadLetters| && k < |states[i].deadLetters|
    ensures var l := states[i].deadLetters[j];
      && l.order in states[i].orders && states[i].orders[l.order].status.Failed?
      && l.attempts == states[i].orders[l.order].attempts >= states[i].cfg.maxAttempts
      && (states[i].deadLetters[k].order == l.order ==> k == j)
  {
    RunsKeepInv(states, steps, i);
  }

  // ---- who owns a PROCESSING order ----

  /** Only the activation that took a PROCESSING order can move it: no cancellation, expiry, duplicate
      delivery or other worker does. */
  lemma OnlyTheOwnerMoves(db: State, s: Step, db': State, o: OrderId)
    requires Inv(db) && Next(db, s, db') && o in db.orders && db.orders[o].status.Processing?
    ensures o in db'.orders
    ensures db'.orders[o] != db.orders[o] <==> s.Does? && s.tx.Finish? && s.tx.order == o
    ensures db'.orders[o] != db.orders[o] ==>
      && WorkerOf(db, o) == Charging(s.tx.attempt, s.tx.token)
      && s.tx.attempt == db.orders[o].attempts && s.tx.token == db.orders[o].token
  {
    StepOnOrder(db, s, db', o);
    if s.Does? && s.tx.Finish? { FinishEffect(db, s.tx.order, s.tx.attempt, s.tx.token, s.tx.found); }
  }

  /** A new activation never displaces another one: an order that can be taken is nobody's. */
  lemma TakenOrdersAreFree(db: State, o: OrderId)
    requires Inv(db) && o in db.orders && db.orders[o].status.Reserved?
    ensures WorkerOf(db, o).Idle?
  {
    assert o in db.workers && !db.workers[o].Idle? ==> Owned(db.workers[o], db.orders[o], o, db.deadLetters, db.cfg);
  }

  // ---- a worker that dies in between ----

  lemma WorkerTxOnWorkers(db: State, tx: Tx, o: OrderId)
    requires Legal(tx) && Run(db, Code(db.cfg, tx)).Committed? && (tx.Begin? || tx.Finish? || tx.Record?)
    ensures WorkerOf(Run(db, Code(db.cfg, tx)).db, o) == WorkerOf(db, o) || (
      tx.order == o && if tx.Begin? then o in db.orders && db.orders[o].status.Reserved? else !WorkerOf(db, o).Idle?)
  {
    match tx
    case Begin(x) => BeginEffect(db, x);
    case Finish(x, attempt, token, found) => FinishEffect(db, x, attempt, token, found);
    case Record(x, attempt, reason) => RecordEffect(db, x, attempt, reason);
  }

  lemma OtherTxOnWorkers(db: State, tx: Tx)
    requires Legal(tx) && Run(db, Code(db.cfg, tx)).Committed? && !tx.Begin? && !tx.Finish? && !tx.Record?
    ensures Run(db, Code(db.cfg, tx)).db.workers == db.workers
  {
    match tx
    case Create(_, _, _, _, _, _, _) => CreateEffect(db, tx);
    case Cancel(x, user, found) => CancelEffect(db, x, user, found);
    case Expire(now, claims) => ExpireEffect(db, now, claims);
    case Adjust(p, w, delta, reason, first, alert, e) => AdjustEffect(db, p, w, delta, reason, first, alert, e);
    case Threshold(p, w, threshold, first) => ThresholdEffect(db, p, w, threshold, first);
    case Relay(events) => RelayEffect(db, events);
  }

  /** A PROCESSING order that nobody remembers. */
  ghost predicate Stranded(db: State, o: OrderId) {
    o in db.orders && db.orders[o].status.Processing? && WorkerOf(db, o).Idle?
  }

  lemma StrandedStays(db: State, s: Step, db': State, o: OrderId)
    requires Inv(db) && Next(db, s, db') && Stranded(db, o)
    ensures Stranded(db', o) && db'.orders[o] == db.orders[o]
  {
    OnlyTheOwnerMoves(db, s, db', o);
    if s.Does? {
      if s.tx.Begin? || s.tx.Finish? || s.tx.Record? {
        WorkerTxOnWorkers(db, s.tx, o);
      } else {
        OtherTxOnWorkers(db, s.tx);
      }
    }
  }

  lemma StrandedInRun(states: seq<State>, steps: seq<Step>, i: nat, o: OrderId)
    requires IsRun(states, steps) && i < |steps| && Stranded(states[i], o)
    ensures Stranded(states[i + 1], o) && states[i + 1].orders[o] == states[i].orders[o]
  {
    RunsKeepInv(states, steps, i);
    StrandedStays(states[i], steps[i], states[i + 1], o);
  }

  /** A stranded order is never touched again. */
  lemma {:induction false} StrandedForGood(states: seq<State>, steps: seq<Step>, i: nat, j: nat, o: OrderId)
    requires IsRun(states, steps) && i <= j < |states| && Stranded(states[i], o)
    ensures Stranded(states[j], o) && states[j].orders[o] == states[i].orders[o]
    decreases j - i
  {
    if i < j {
      StrandedForGood(states, steps, i, j - 1, o);
      StrandedInRun(states, steps, j - 1, o);
    }
  }

  lemma CrashStrands(db: State, o: OrderId, db': State)
    requires Next(db, Crash(o), db') && o in db.orders && db.orders[o].status.Processing?
    ensures Stranded(db', o) && db'.orders == db.orders
  {
  }

  /** If the worker dies between its first and its second commit, the order stays PROCESSING, as it is, over
      the whole rest of the run. */
  lemma LostWorkerStrands(states: seq<State>, steps: seq<Step>, i: nat, j: nat, o: OrderId)
    requires IsRun(states, steps) && i < j < |states| && steps[i] == Crash(o)
    requires o in states[i].orders && states[i].orders[o].status.Processing?
    ensures Stranded(states[j], o) && states[j].orders[o] == states[i].orders[o]
  {
    assert Next(states[i], steps[i], states[i + 1]);
    CrashStrands(states[i], o, states[i + 1]);
    StrandedForGood(states, steps, i + 1, j, o);
  }

  // ---- attempts ----

  /** How often the first `n` steps take order `o` into PROCESSING. */
  function Starts(steps: seq<Step>, n: nat, o: OrderId): nat
    requires n <= |steps|
  {
    if n == 0 then 0 else Starts(steps, n - 1, o) + (if steps[n - 1] == Does(Begin(o)) then 1 else 0)
  }

  function AttemptsOf(db: State, o: OrderId): nat { if o in db.orders then db.orders[o].attempts else 0 }

  lemma CountStep(db: State, s: Step, db': State, o: OrderId)
    requires Inv(db) && Next(db, s, db')
    ensures AttemptsOf(db', o) == AttemptsOf(db, o) + if s == Does(Begin(o)) then 1 else 0
  {
    if o in db.orders {
      StepOnOrder(db, s, db', o);
    } else if o in db'.orders {
      StepAddsOrder(db, s, db', o);
    } else if s == Does(Begin(o)) {
      BeginEffect(db, o);
    }
  }

  lemma CountInRun(states: seq<State>, steps: seq<Step>, i: nat, o: OrderId)
    requires IsRun(states, steps) && i < |steps|
    ensures AttemptsOf(states[i + 1], o) == AttemptsOf(states[i], o) + if steps[i] == Does(Begin(o)) then 1 else 0
  {
    RunsKeepInv(states, steps, i);
    CountStep(states[i], steps[i], states[i + 1], o);
  }

  /** A count that goes up with each start is the number of starts. */
  lemma {:induction false} CountsAddUp(counts: seq<int>, steps: seq<Step>, n: nat, o: OrderId)
    requires n <= |steps| < |counts| && counts[0] == 0
    requires forall i | 0 <= i < |steps| :: counts[i + 1] == counts[i] + if steps[i] == Does(Begin(o)) then 1 else 0
    ensures counts[n] == Starts(steps, n, o)
  {
    if n > 0 { CountsAddUp(counts, steps, n - 1, o); }
  }

  /** `processing_attempts` counts the times the order entered PROCESSING ... */
  lemma AttemptsCountStarts(states: seq<State>, steps: seq<Step>, n: nat, o: OrderId)
    requires IsRun(states, steps) && n <= |steps|
    ensures AttemptsOf(states[n], o) == Starts(steps, n, o)
  {
    var counts := seq(|states|, i requires 0 <= i < |states| => AttemptsOf(states[i], o) as int);
    forall i | 0 <= i < |steps|
      ensures counts[i + 1] == counts[i] + if steps[i] == Does(Begin(o)) then 1 else 0
    {
      CountInRun(states, steps, i, o);
    }
    CountsAddUp(counts, steps, n, o);
  }

  /** ... which happens at most `payment_max_attempts` times (once, if that is less than 1). */
  lemma StartsAreLimited(states: seq<State>, steps: seq<Step>, n: nat, o: OrderId)
    requires IsRun(states, steps) && n <= |steps|
    ensures Starts(steps, n, o) <= AttemptLimit(states[0].cfg)
  {
    AttemptsCountStarts(states, steps, n, o);
    RunsKeepInv(states, steps, n);
    RunsEvolve(states, steps, 0, n);
  }

  /** What is left of an order's life: remaining attempts, then status. */
  function Rank(cfg: Config, row: Order): int {
    var left := AttemptLimit(cfg) - row.attempts;
    if Terminal(row.status) then 0 else if row.status.Processing? then 2 * left + 2 else 2 * left + 1
  }

  /** Every step that moves an order brings it nearer to its end. */
  lemma RankFalls(db: State, s: Step, db': State, o: OrderId)
    requires Inv(db) && Next(db, s, db') && o in db.orders
    ensures o in db'.orders
    ensures db'.orders[o] == db.orders[o] || 0 <= Rank(db.cfg, db'.orders[o]) < Rank(db.cfg, db.orders[o])
  {
    StepOnOrder(db, s, db', o);
    NextKeepsInv(db, s, db');
    RankMoves(db.cfg, db.orders[o], s, o);
  }

  lemma RankMoves(cfg: Config, row: Order, s: Step, o: OrderId)
    requires OrderMay(row, s, o) && row.attempts <= AttemptLimit(cfg)
    requires row.status.Pending? || row.status.Reserved? ==> row.attempts < AttemptLimit(cfg)
    ensures var row' := OrderAfter(cfg, row, s, o); row' == row || 0 <= Rank(cfg, row') < Rank(cfg, row)
  {
  }

  /** Whether order `o`, there before, is not what it was. */
  predicate Changed(a: State, b: State, o: OrderId) { o in a.orders && (o !in b.orders || a.orders[o] != b.orders[o]) }

  /** How often order `o` moves in the first `n` steps. */
  function Changes(states: seq<State>, n: nat, o: OrderId): nat
    requires n < |states|
  {
    if n == 0 then 0 else Changes(states, n - 1, o) + (if Changed(states[n - 1], states[n], o) then 1 else 0)
  }

  /** What an order's moves so far leave of its rank; an order yet to come has it all. */
  function RankOf(db: State, o: OrderId): int {
    if o in db.orders then Rank(db.cfg, db.orders[o]) else 2 * AttemptLimit(db.cfg) + 1
  }

  lemma RankStep(db: State, s: Step, db': State, o: OrderId)
    requires Inv(db) && Next(db, s, db')
    ensures db'.cfg == db.cfg
    ensures RankOf(db', o) + (if Changed(db, db', o) then 1 else 0) <= RankOf(db, o)
  {
    if o in db.orders {
      RankFalls(db, s, db', o);
    } else if o in db'.orders {
      StepAddsOrder(db, s, db', o);
    }
    assert Evolves(db, db') by { NextKeepsInv(db, s, db'); }
  }

  lemma RankIsNat(db: State, o: OrderId)
    requires WorkersOk(db.workers, db.orders, db.deadLetters, db.cfg)
    ensures 0 <= RankOf(db, o)
  {
  }

  lemma RankInRun(states: seq<State>, steps: seq<Step>, i: nat, o: OrderId)
    requires IsRun(states, steps) && i < |steps|
    ensures states[i + 1].cfg == states[i].cfg
    ensures RankOf(states[i + 1], o) + (if Changed(states[i], states[i + 1], o) then 1 else 0) <= RankOf(states[i], o)
  {
    RunsKeepInv(states, steps, i);
    RankStep(states[i], steps[i], states[i + 1], o);
  }

  lemma {:induction false} ChangesUseRank(states: seq<State>, steps: seq<Step>, n: nat, o: OrderId)
    requires IsRun(states, steps) && n <= |steps|
    ensures states[n].cfg == states[0].cfg
    ensures Changes(states, n, o) + RankOf(states[n], o) <= 2 * AttemptLimit(states[0].cfg) + 1
  {
    if n > 0 {
      ChangesUseRank(states, steps, n - 1, o);
      RankInRun(states, steps, n - 1, o);
    }
  }

  /** No order ever moves more than twice per allowed attempt and once more, however often its message is
      delivered and whatever else goes on. */
  lemma OrdersMoveFinitely(states: seq<State>, steps: seq<Step>, n: nat, o: OrderId)
    requires IsRun(states, steps) && n <= |steps|
    ensures Changes(states, n, o) <= 2 * AttemptLimit(states[0].cfg) + 1
  {
    ChangesUseRank(states, steps, n, o);
    RunsKeepInv(states, steps, n);
    RankIsNat(states[n], o);
  }
}

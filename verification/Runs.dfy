/** Runs: whole transactions, one at a time, with crashes, the broker and the clock in between. */
module Runs {
  import opened Schema
  import opened Transactions
  import opened Ledgers
  import opened Invariant

  datatype Step =
    | Does(tx: Tx)              // a transaction that commits
    | Tick(now: int)
    | Enqueue(event: EventId)   // the relay hands a PENDING event to the broker; no rollback takes it back
    | Crash(order: OrderId)     // a worker process dies between two of its transactions

  ghost predicate Next(db: State, s: Step, db': State) {
    match s
    case Does(tx) => Legal(tx) && Run(db, Code(db.cfg, tx)) == Committed(db')
    case Tick(now) => db.clock <= now && db' == db.(clock := now)
    case Enqueue(e) => e in db.events && !db.events[e].published && db' == db.(broker := db.broker + {e})
    case Crash(o) => db' == db.(workers := db.workers[o := Idle])
  }

  /** An empty database: nothing stocked, ordered, logged or under way. */
  predicate Init(db: State) {
    db == State(db.cfg, map[], map[], map[], map[], map[], map[], [], [], [], map[], {}, db.clock)
  }

  ghost predicate IsRun(states: seq<State>, steps: seq<Step>) {
    && |states| == |steps| + 1 && Init(states[0])
    && forall i | 0 <= i < |steps| :: Next(states[i], steps[i], states[i + 1])
  }

  lemma InitOk(db: State)
    requires Init(db)
    ensures Inv(db)
  {
    forall l
      ensures Slack(db, l) == 0
    {
      assert ReservationSum(l, map[]) == 0 && AuditSum(l, []) == 0;
    }
  }

  /** Stock accounts look at three tables only. */
  lemma StockFrame(a: State, b: State)
    requires StockOk(a) && a.inventory == b.inventory && a.reservations == b.reservations && a.audit == b.audit
    ensures StockOk(b)
  {
    forall l
      ensures Slack(b, l) == 0
    {
      assert Slack(a, l) == 0;
    }
  }

  lemma CrashKeepsWorkers(workers: map<OrderId, Worker>, orders: map<OrderId, Order>, letters: seq<DeadLetter>,
                          cfg: Config, o: OrderId)
    requires WorkersOk(workers, orders, letters, cfg)
    ensures WorkersOk(workers[o := Idle], orders, letters, cfg)
  {
  }

  lemma SurroundingsKeepRows(db: State, s: Step, db': State)
    requires RowsOk(db) && Next(db, s, db') && !s.Does?
    ensures RowsOk(db')
  {
    match s
    case Tick(_) =>
    case Enqueue(_) =>
    case Crash(o) => CrashKeepsWorkers(db.workers, db.orders, db.deadLetters, db.cfg, o);
  }

  lemma SurroundingsEvolve(db: State, s: Step, db': State)
    requires Next(db, s, db') && !s.Does?
    ensures Evolves(db, db')
  {
  }

  lemma SurroundingsKeepInv(db: State, s: Step, db': State)
    requires Inv(db) && Next(db, s, db') && !s.Does?
    ensures Inv(db') && Evolves(db, db')
  {
    StockFrame(db, db');
    SurroundingsKeepRows(db, s, db');
    SurroundingsEvolve(db, s, db');
  }

  lemma NextKeepsInv(db: State, s: Step, db': State)
    requires Inv(db) && Next(db, s, db')
    ensures Inv(db') && Evolves(db, db')
  {
    if s.Does? {
      TransactionKeepsInv(db, s.tx);
      TransactionEvolves(db, s.tx);
    } else {
      SurroundingsKeepInv(db, s, db');
    }
  }

  /** The invariant holds in every state of every run. */
  lemma {:induction false} RunsKeepInv(states: seq<State>, steps: seq<Step>, i: nat)
    requires IsRun(states, steps) && i < |states|
    ensures Inv(states[i])
  {
    if i == 0 {
      InitOk(states[0]);
    } else {
      RunsKeepInv(states, steps, i - 1);
      NextKeepsInv(states[i - 1], steps[i - 1], states[i]);
    }
  }

  /** Later states only move forward from earlier ones. */
  lemma {:induction false} RunsEvolve(states: seq<State>, steps: seq<Step>, i: nat, j: nat)
    requires IsRun(states, steps) && i <= j < |states|
    ensures Evolves(states[i], states[j])
    decreases j - i
  {
    if i < j {
      RunsEvolve(states, steps, i, j - 1);
      RunsKeepInv(states, steps, j - 1);
      NextKeepsInv(states[j - 1], steps[j - 1], states[j]);
      EvolvesTransitive(states[i], states[j - 1], states[j]);
    }
  }

  lemma ExtendRun(states: seq<State>, steps: seq<Step>, s: Step, db: State)
    requires IsRun(states, steps) && Next(states[|states| - 1], s, db)
    ensures IsRun(states + [db], steps + [s])
  {
    var states', steps' := states + [db], steps + [s];
    forall i | 0 <= i < |steps'|
      ensures Next(states'[i], steps'[i], states'[i + 1])
    {
      if i < |steps| { assert Next(states[i], steps[i], states[i + 1]); }
    }
  }
}

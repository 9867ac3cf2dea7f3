/** The low-stock flag over whole runs: without expiry it is the stateless rule and alerts are written at
    crossings exactly; with expiry, alerts still alternate with resets, and the rule breaks just when an
    expiry batch lifts flagged stock above its threshold. */
module Alerts {
  import opened Schema
  import opened Statements
  import opened Transactions
  import opened Invariant
  import opened Runs
  import opened LowStock
  import opened StockSteps

  // ---- runs without expiry ----

  /** The stateless rule. */
  predicate FlagsExact(t: StockTable) { forall k | k in t :: t[k].low <==> AtOrBelow(t[k]) }

  predicate Crossed(a: StockTable, b: StockTable, k: Stock) {
    k in a && k in b && b[k].available < a[k].available && Above(a[k]) && AtOrBelow(b[k])
  }

  predicate NoExpiry(steps: seq<Step>, n: nat)
    requires n <= |steps|
  {
    forall i | 0 <= i < n :: !IsExpire(steps[i])
  }

  lemma {:induction false} NoneGoesStale(states: seq<State>, steps: seq<Step>, n: nat)
    requires IsRun(states, steps) && n <= |steps| && NoExpiry(steps, n)
    ensures NoneStale(states[n].inventory)
  {
    if n > 0 {
      NoneGoesStale(states, steps, n - 1);
      if IsThreshold(steps[n - 1]) {
        ThresholdMoved(states[n - 1], steps[n - 1], states[n]);
      } else {
        StepMoved(states[n - 1], steps[n - 1], states[n]);
      }
    }
  }

  /** As long as nothing expires, the flag is the rule: up exactly when stock is at or below its threshold. */
  lemma FlagIsTheRule(states: seq<State>, steps: seq<Step>, n: nat)
    requires IsRun(states, steps) && n <= |steps| && NoExpiry(steps, n)
    ensures FlagsExact(states[n].inventory)
  {
    NoneGoesStale(states, steps, n);
    RunsKeepInv(states, steps, n);
  }

  /** One alert for each crossing, with the quantity and threshold it was crossed at; none for anything else. */
  ghost predicate AlertedAtCrossings(a: State, b: State) {
    && a.alerts <= b.alerts
    && (forall k :: AlertCount(b.alerts, k) ==
         AlertCount(a.alerts, k) + (if Crossed(a.inventory, b.inventory, k) then 1 else 0))
    && (forall i | |a.alerts| <= i < |b.alerts| ::
          Reports(b.alerts[i], b.inventory) && Crossed(a.inventory, b.inventory, PairOf(b.alerts[i])))
  }

  lemma RaisedIsCrossed(a: StockTable, b: StockTable, k: Stock)
    requires FlagsExact(a) && FlagsExact(b) && Steady(a, b)
    ensures Raised(a, b, k) <==> Crossed(a, b, k)
  {
  }

  lemma MovedAlerts(a: State, b: State)
    requires Moved(a, b) && FlagsExact(a.inventory) && FlagsExact(b.inventory)
    ensures AlertedAtCrossings(a, b)
  {
    forall k
      ensures Raised(a.inventory, b.inventory, k) <==> Crossed(a.inventory, b.inventory, k)
    {
      RaisedIsCrossed(a.inventory, b.inventory, k);
    }
  }

  /** As long as nothing expires, alerts are written exactly at the crossings, and never for a new threshold. */
  lemma AlertsAtCrossings(states: seq<State>, steps: seq<Step>, n: nat)
    requires IsRun(states, steps) && n < |steps| && NoExpiry(steps, n + 1)
    ensures AlertedAtCrossings(states[n], states[n + 1])
  {
    FlagIsTheRule(states, steps, n);
    FlagIsTheRule(states, steps, n + 1);
    if IsThreshold(steps[n]) {
      ThresholdMoved(states[n], steps[n], states[n + 1]);
    } else {
      StepMoved(states[n], steps[n], states[n + 1]);
      MovedAlerts(states[n], states[n + 1]);
    }
  }

  // ---- all runs ----

  /** A batch keeps the flags right if and only if it lifts no flagged stock above its threshold. */
  lemma ExpiryKeepsTheRule(db: State, tx: Tx)
    requires Inv(db) && FlagsExact(db.inventory)
    requires tx.Expire? && Legal(tx) && Run(db, Code(db.cfg, tx)).Committed?
    ensures FlagsExact(Run(db, Code(db.cfg, tx)).db.inventory) <==>
      forall k | k in db.inventory && AtOrBelow(db.inventory[k]) ::
        db.inventory[k].available + ClaimedUnits(tx.claims, k.0, k.1) <= db.inventory[k].threshold.value
  {
    var db' := Run(db, Code(db.cfg, tx)).db;
    ExpireStock(db, tx.now, tx.claims);
    forall k | k in db.inventory
      ensures db'.inventory[k].available == db.inventory[k].available + ClaimedUnits(tx.claims, k.0, k.1)
    {
      ExpireGivesBack(db, tx, k.0, k.1);
    }
  }

  /** Over every run: stock at or below a configured threshold is flagged, and only pairs with a threshold are. */
  lemma DueFlagsAreUp(states: seq<State>, steps: seq<Step>, n: nat, k: Stock)
    requires IsRun(states, steps) && n <= |steps| && k in states[n].inventory
    ensures AtOrBelow(states[n].inventory[k]) ==> states[n].inventory[k].low
    ensures states[n].inventory[k].low ==> states[n].inventory[k].threshold.Some?
  {
    assert D.LowStock(states[n], {}) by { RunsKeepInv(states, steps, n); }
    assert D.FlagAgrees(states[n].inventory[k]);
  }

  predicate FlagUp(db: State, k: Stock) { k in db.inventory && db.inventory[k].low }

  /** The flag was taken down because stock rose above the threshold, or the pair got a new threshold. */
  predicate Rearmed(a: State, s: Step, b: State, k: Stock) {
    && FlagUp(a, k) && k in b.inventory && !b.inventory[k].low
    && ((IsThreshold(s) && (s.tx.p, s.tx.w) == k) ||
        (b.inventory[k].threshold == a.inventory[k].threshold && Above(b.inventory[k])))
  }

  lemma FlagFalls(db: State, s: Step, db': State, k: Stock)
    requires Inv(db) && Next(db, s, db') && FlagUp(db, k)
    ensures FlagUp(db', k) || Rearmed(db, s, db', k)
  {
    if IsThreshold(s) {
      ThresholdMoved(db, s, db');
    } else if IsExpire(s) {
      ExpireMoved(db, s, db');
    } else {
      StepMoved(db, s, db');
    }
    assert D.LowStock(db', {}) by { NextKeepsInv(db, s, db'); }
    assert k in db'.inventory ==> D.FlagAgrees(db'.inventory[k]);
  }

  lemma NewAlertRaises(db: State, s: Step, db': State, k: Stock)
    requires Next(db, s, db') && AlertCount(db'.alerts, k) > AlertCount(db.alerts, k)
    ensures Raised(db.inventory, db'.inventory, k)
  {
    if IsThreshold(s) {
      ThresholdMoved(db, s, db');
    } else if IsExpire(s) {
      ExpireMoved(db, s, db');
    } else {
      StepMoved(db, s, db');
    }
  }

  lemma FlagFallsInRun(states: seq<State>, steps: seq<Step>, i: nat, k: Stock)
    requires IsRun(states, steps) && i < |steps| && FlagUp(states[i], k)
    ensures FlagUp(states[i + 1], k) || Rearmed(states[i], steps[i], states[i + 1], k)
  {
    RunsKeepInv(states, steps, i);
    FlagFalls(states[i], steps[i], states[i + 1], k);
  }

  lemma {:induction false} FellBetween(states: seq<State>, i: nat, j: nat, k: Stock) returns (m: nat)
    requires i <= j < |states| && FlagUp(states[i], k) && !FlagUp(states[j], k)
    ensures i <= m < j && FlagUp(states[m], k) && !FlagUp(states[m + 1], k)
    decreases j - i
  {
    if FlagUp(states[j - 1], k) { m := j - 1; } else { m := FellBetween(states, i, j - 1, k); }
  }

  /** Over every run, expiry included: between two alerts for the same pair, stock rose back above the
      threshold or the pair got a new threshold. */
  lemma RearmedBetweenAlerts(states: seq<State>, steps: seq<Step>, i: nat, j: nat, k: Stock) returns (m: nat)
    requires IsRun(states, steps) && i < j < |steps|
    requires AlertCount(states[i + 1].alerts, k) > AlertCount(states[i].alerts, k)
    requires AlertCount(states[j + 1].alerts, k) > AlertCount(states[j].alerts, k)
    ensures i < m < j && Rearmed(states[m], steps[m], states[m + 1], k)
  {
    NewAlertRaises(states[i], steps[i], states[i + 1], k);
    NewAlertRaises(states[j], steps[j], states[j + 1], k);
    m := FellBetween(states, i + 1, j, k);
    FlagFallsInRun(states, steps, m, k);
  }

  /** On every step of every kind: one alert if stock crosses its threshold downwards and the flag is not up
      already, and none else. So a crossing stays silent if and only if it finds the flag up. */
  lemma AlertIffUnflaggedCrossing(db: State, s: Step, db': State, k: Stock)
    requires Inv(db) && Next(db, s, db')
    ensures AlertCount(db'.alerts, k) == AlertCount(db.alerts, k) +
      (if Crossed(db.inventory, db'.inventory, k) && !db.inventory[k].low then 1 else 0)
  {
    if IsThreshold(s) {
      ThresholdMoved(db, s, db');
    } else if IsExpire(s) {
      ExpireMoved(db, s, db');
      ExpireGivesBack(db, s.tx, k.0, k.1);
    } else {
      StepMoved(db, s, db');
      assert D.LowStock(db', {}) by { NextKeepsInv(db, s, db'); }
      RaisedIffCrossed(db, db', k);
    }
  }

  lemma RaisedIffCrossed(a: State, b: State, k: Stock)
    requires D.LowStock(a, {}) && D.LowStock(b, {})
    requires Steady(a.inventory, b.inventory) && StaysFresh(a.inventory, b.inventory)
    ensures Raised(a.inventory, b.inventory, k) <==> Crossed(a.inventory, b.inventory, k) && !a.inventory[k].low
  {
    assert k in a.inventory ==> D.FlagAgrees(a.inventory[k]);
    assert k in b.inventory ==> D.FlagAgrees(b.inventory[k]);
  }

  /** ... which is so at every step of every run. */
  lemma AlertsOverRuns(states: seq<State>, steps: seq<Step>, n: nat, k: Stock)
    requires IsRun(states, steps) && n < |steps|
    ensures AlertCount(states[n + 1].alerts, k) == AlertCount(states[n].alerts, k) +
      (if Crossed(states[n].inventory, states[n + 1].inventory, k) && !states[n].inventory[k].low then 1 else 0)
  {
    RunsKeepInv(states, steps, n);
    AlertIffUnflaggedCrossing(states[n], steps[n], states[n + 1], k);
  }
}

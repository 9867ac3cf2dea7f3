/** Idempotency keys over whole runs: one order per key, the first answer for every repeat, and the one key
    that is not honoured. */
module Idempotency {
  import opened Schema
  import opened Statements
  import opened Transactions
  import opened Effects
  import opened Invariant
  import opened Runs
  import opened Creation

  /** What a create_order with a key already taken gets: the stored answer, or a refusal. The conflict answer
      is never given, because no committed key is in progress; and nothing is ever written. */
  lemma TakenKeyAnswers(db: State, tx: Tx)
    requires Inv(db) && tx.Create? && Legal(tx) && Claims(tx.key) && tx.key.value in db.keys
    ensures Run(db, Code(db.cfg, tx)) ==
      Stopped(if db.keys[tx.key.value].hash == tx.payload then Replayed else HashMismatch)
    ensures var stored := db.keys[tx.key.value];
      stored.Done? && stored.order in db.orders && stored.response == FirstAnswer(stored.order, db.orders[stored.order])
  {
    TakenKeyStops(db, tx);
  }

  lemma TakenKeyStops(db: State, tx: Tx)
    requires tx.Create? && Legal(tx) && Claims(tx.key) && tx.key.value in db.keys
    requires KeyOk(tx.key.value, db.keys[tx.key.value], db.orders)
    ensures Run(db, Code(db.cfg, tx)) ==
      Stopped(if db.keys[tx.key.value].hash == tx.payload then Replayed else HashMismatch)
  {
    var body := CreateBody(db.cfg, tx.payload, tx.user, tx.key, tx.order, tx.event, tx.now, tx.picks);
    RunDo(db, OnKey(tx.key.value, InsertKey(tx.payload)), body, KeyTaken(tx.key.value, tx.payload));
    KeyTakenStops(db, tx.key.value, tx.payload);
  }

  /** A key is taken exactly when a committed order carries it; a failed attempt leaves it free. */
  lemma TakenIffOrdered(db: State, key: string)
    requires Inv(db) && key != ""
    ensures key in db.keys <==> exists o :: o in db.orders && db.orders[o].key == Some(key)
  {
    if key in db.keys {
      assert KeyOk(key, db.keys[key], db.orders);
    }
    assert forall o | o in db.orders && db.orders[o].key == Some(key) :: Claims(db.orders[o].key);
  }

  /** No two committed orders carry the same key. */
  lemma OneOrderPerKey(states: seq<State>, steps: seq<Step>, n: nat, a: OrderId, b: OrderId)
    requires IsRun(states, steps) && n <= |steps| && a in states[n].orders && b in states[n].orders
    requires states[n].orders[a].key.Some? && states[n].orders[a].key == states[n].orders[b].key
    ensures a == b
  {
    RunsKeepInv(states, steps, n);
  }

  lemma CreateStores(db: State, tx: Tx, db': State)
    requires Next(db, Does(tx), db') && tx.Create? && Claims(tx.key)
    ensures tx.key.value !in db.keys && tx.key.value in db'.keys && tx.order in db'.orders
    ensures db'.keys[tx.key.value] == Done(tx.payload, tx.order, Serialize(tx.order, db'.orders[tx.order]))
  {
    CreateEffect(db, tx);
  }

  /** Once an order is committed under a key, every later request with that key is answered with the very
      response the first one got, if it asks for the same, and refused if not; it never commits anything. */
  lemma RepeatsGetTheFirstAnswer(states: seq<State>, steps: seq<Step>, i: nat, j: nat, again: Tx)
    requires IsRun(states, steps) && i < j < |states| && steps[i].Does? && steps[i].tx.Create?
    requires Claims(steps[i].tx.key)
    requires again.Create? && Legal(again) && again.key == steps[i].tx.key
    ensures var first, db := steps[i].tx, states[j];
      && first.order in states[i + 1].orders && again.key.value in db.keys
      && db.keys[again.key.value] ==
           Done(first.payload, first.order, Serialize(first.order, states[i + 1].orders[first.order]))
      && Run(db, Code(db.cfg, again)) == Stopped(if again.payload == first.payload then Replayed else HashMismatch)
  {
    CreateStores(states[i], steps[i].tx, states[i + 1]);
    RunsEvolve(states, steps, i + 1, j);
    assert Inv(states[j]) by { RunsKeepInv(states, steps, j); }
    TakenKeyAnswers(states[j], again);
  }

  /** The exception: a repeat is recognised if and only if its key is not the empty string. That key is stored
      on the order and must be unique there, but it is never claimed, so its repeats fail. */
  lemma RecognisedIffNotEmpty(db: State, o: OrderId, again: Tx)
    requires Inv(db) && FreshIds(db, again) && o in db.orders && again.key.Some? && db.orders[o].key == again.key
    requires again.payload == Payload(LinesOf(db.orders[o].items), db.orders[o].token)
    ensures Run(db, Code(db.cfg, again)) == Stopped(Replayed) <==> again.key.value != ""
    ensures Run(db, Code(db.cfg, again)).Stopped?
  {
    if again.key.value != "" {
      assert KeyOk(again.key.value, db.keys[again.key.value], db.orders);
      TakenKeyAnswers(db, again);
    } else {
      CreateExact(db, again);
    }
  }
}

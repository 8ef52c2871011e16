/** Idempotency keys: the same key with the same request gets the stored response, with another
    request a conflict, and no two executions of a key overlap.

    Callers of `IdempotencyStore.run` interleave at every await. A caller is a process here; any
    caller may take the next step, and `Lapse` is the expiry of a key, which only Redis has. */
module Idempotency {
  import opened Common

  datatype Record = PendingRun(hash: string) | Done(hash: string, response: string)

  /** Where a caller is: before reading, after finding nothing, executing, about to store its
      response, about to delete its lock, or finished. */
  datatype Stage =
    | Starting | Missed | Executing | Storing(response: string) | Releasing
    | Returned(response: string, own: bool) | Refused | Failed

  datatype Caller = Caller(key: string, hash: string, stage: Stage)

  datatype World = World(store: map<string, Record>, callers: map<nat, Caller>)

  datatype Step =
    | Arrive(id: nat, key: string, hash: string)
    | Read(id: nat)
    | Lock(id: nat)
    | Succeed(id: nat, response: string)
    | Throw(id: nat)
    | Store(id: nat)
    | Release(id: nat)
    | Lapse(key: string)

  function AfterRead(store: map<string, Record>, c: Caller): Stage {
    if c.key !in store then Missed
    else if store[c.key].hash != c.hash then Refused
    else if store[c.key].Done? then Returned(store[c.key].response, false)
    else Refused
  }

  function Move(w: World, id: nat, stage: Stage): World
    requires id in w.callers
  {
    w.(callers := w.callers[id := w.callers[id].(stage := stage)])
  }

  predicate AtStage(w: World, step: Step) {
    match step
    case Arrive(id, _, _) => id !in w.callers
    case Read(id) => id in w.callers && w.callers[id].stage == Starting
    case Lock(id) => id in w.callers && w.callers[id].stage == Missed
    case Succeed(id, _) => id in w.callers && w.callers[id].stage == Executing
    case Throw(id) => id in w.callers && w.callers[id].stage == Executing
    case Store(id) => id in w.callers && w.callers[id].stage.Storing?
    case Release(id) => id in w.callers && w.callers[id].stage == Releasing
    case Lapse(key) => key in w.store
  }

  /** One step; a step that is not that caller's next one does nothing. */
  function Next(w: World, step: Step): World {
    if !AtStage(w, step) then w
    else match step
      case Arrive(id, key, hash) => w.(callers := w.callers[id := Caller(key, hash, Starting)])
      case Read(id) => Move(w, id, AfterRead(w.store, w.callers[id]))
      case Lock(id) =>
        var c := w.callers[id];
        if c.key in w.store then Move(w, id, Refused)  // SET NX found the key taken
        else Move(w, id, Executing).(store := w.store[c.key := PendingRun(c.hash)])
      case Succeed(id, response) => Move(w, id, Storing(response))
      case Throw(id) => Move(w, id, Releasing)
      case Store(id) =>
        var c := w.callers[id];
        Move(w, id, Returned(c.stage.response, true)).(store := w.store[c.key := Done(c.hash, c.stage.response)])
      case Release(id) => Move(w, id, Failed).(store := w.store - {w.callers[id].key})
      case Lapse(key) => w.(store := w.store - {key})
  }

  function Run(w: World, steps: seq<Step>): World {
    if steps == [] then w else Next(Run(w, steps[..|steps| - 1]), steps[|steps| - 1])
  }

  const FRESH: World := World(map[], map[])

  // ------------------------------------------------------------------ safety

  /** The caller is between taking the lock and giving it up: its function is, or may be, running. */
  predicate InFlight(c: Caller) {
    c.stage.Executing? || c.stage.Storing? || c.stage.Releasing?
  }

  predicate FlightOf(w: World, id: nat, key: string) {
    id in w.callers && w.callers[id].key == key && InFlight(w.callers[id])
  }

  /** The execution whose response the key now carries. */
  predicate WonBy(w: World, id: nat, key: string) {
    id in w.callers && w.callers[id].key == key && w.callers[id].stage.Returned? && w.callers[id].stage.own
  }

  /** Every caller in flight owns the pending record of its key, alone. */
  ghost predicate LockInv(w: World) {
    && (forall id, key :: FlightOf(w, id, key) ==> key in w.store && w.store[key] == PendingRun(w.callers[id].hash))
    && (forall i, j, key :: FlightOf(w, i, key) && FlightOf(w, j, key) ==> i == j)
  }

  /** Every response handed out for a key is the stored one, and one execution produced it. */
  ghost predicate OnceInv(w: World) {
    && (forall id :: id in w.callers && w.callers[id].stage.Returned? ==>
          w.callers[id].key in w.store
          && w.store[w.callers[id].key] == Done(w.callers[id].hash, w.callers[id].stage.response))
    && (forall i, j, key :: WonBy(w, i, key) && WonBy(w, j, key) ==> i == j)
    && (forall key :: key in w.store && w.store[key].Done? ==> exists id :: WonBy(w, id, key))
    && (forall key :: key in w.store && w.store[key].PendingRun? ==> exists id :: FlightOf(w, id, key))
  }

  /** A lapse is harmless to the lock while nobody is in flight on that key. */
  predicate Harmless(w: World, step: Step) {
    step.Lapse? ==> forall id :: id in w.callers ==> !(w.callers[id].key == step.key && InFlight(w.callers[id]))
  }

  lemma {:induction false} LockStep(w: World, step: Step)
    requires LockInv(w) && Harmless(w, step)
    ensures LockInv(Next(w, step))
  {
    var v := Next(w, step);
    if AtStage(w, step) && step.Lock? && w.callers[step.id].key !in w.store {
      var k := w.callers[step.id].key;
      assert forall id :: !FlightOf(w, id, k);
      assert forall id, key :: FlightOf(v, id, key) ==> (id == step.id && key == k) || FlightOf(w, id, key);
    } else if AtStage(w, step) && (step.Store? || step.Release?) {
      assert FlightOf(w, step.id, w.callers[step.id].key);
      assert forall id, key :: FlightOf(v, id, key) ==> FlightOf(w, id, key) && id != step.id;
    } else if AtStage(w, step) && step.Lapse? {
      assert forall id, key :: FlightOf(v, id, key) ==> FlightOf(w, id, key) && key != step.key;
    } else {
      assert forall id, key :: FlightOf(v, id, key) ==> FlightOf(w, id, key);
    }
  }

  lemma {:induction false} OnceStep(w: World, step: Step)
    requires LockInv(w) && OnceInv(w) && !step.Lapse?
    ensures OnceInv(Next(w, step))
  {
    var v := Next(w, step);
    if AtStage(w, step) && step.Store? {
      StoreKeepsOnce(w, step.id);
    } else if AtStage(w, step) && step.Release? {
      ReleaseKeepsOnce(w, step.id);
    } else if AtStage(w, step) && step.Lock? && w.callers[step.id].key !in w.store {
      LockKeepsOnce(w, step.id);
    } else {
      QuietKeepsOnce(w, v, step);
    }
  }

  lemma {:induction false} QuietKeepsOnce(w: World, v: World, step: Step)
    requires LockInv(w) && OnceInv(w) && v == Next(w, step) && v.store == w.store
    requires !(AtStage(w, step) && (step.Store? || step.Release? || step.Lapse?))
    ensures OnceInv(v)
  {
    forall key | key in v.store && v.store[key].Done?
      ensures exists id :: WonBy(v, id, key)
    {
      var id :| WonBy(w, id, key);
      assert WonBy(v, id, key);
    }
    forall key | key in v.store && v.store[key].PendingRun?
      ensures exists id :: FlightOf(v, id, key)
    {
      var id :| FlightOf(w, id, key);
      assert FlightOf(v, id, key);
    }
    assert forall id, key :: WonBy(v, id, key) ==> WonBy(w, id, key);
  }

  lemma {:induction false} LockKeepsOnce(w: World, id: nat)
    requires OnceInv(w) && AtStage(w, Lock(id)) && w.callers[id].key !in w.store
    ensures OnceInv(Next(w, Lock(id)))
  {
    var v, k := Next(w, Lock(id)), w.callers[id].key;
    assert FlightOf(v, id, k);
    forall key | key in v.store && v.store[key].Done?
      ensures exists i :: WonBy(v, i, key)
    {
      var i :| WonBy(w, i, key);
      assert WonBy(v, i, key);
    }
    forall key | key in v.store && v.store[key].PendingRun? && key != k
      ensures exists i :: FlightOf(v, i, key)
    {
      var i :| FlightOf(w, i, key);
      assert FlightOf(v, i, key);
    }
    assert forall i, key :: WonBy(v, i, key) ==> WonBy(w, i, key);
  }

  lemma {:induction false} StoreKeepsOnce(w: World, id: nat)
    requires LockInv(w) && OnceInv(w) && AtStage(w, Store(id))
    ensures OnceInv(Next(w, Store(id)))
  {
    var v, k := Next(w, Store(id)), w.callers[id].key;
    assert FlightOf(w, id, k);
    assert WonBy(v, id, k);
    assert forall i :: !WonBy(w, i, k);
    forall key | key in v.store && v.store[key].Done? && key != k
      ensures exists i :: WonBy(v, i, key)
    {
      var i :| WonBy(w, i, key);
      assert WonBy(v, i, key);
    }
    forall key | key in v.store && v.store[key].PendingRun?
      ensures exists i :: FlightOf(v, i, key)
    {
      var i :| FlightOf(w, i, key);
      assert FlightOf(v, i, key);
    }
    assert forall i, key :: WonBy(v, i, key) ==> WonBy(w, i, key) || (i == id && key == k);
  }

  lemma {:induction false} ReleaseKeepsOnce(w: World, id: nat)
    requires LockInv(w) && OnceInv(w) && AtStage(w, Release(id))
    ensures OnceInv(Next(w, Release(id)))
  {
    var v, k := Next(w, Release(id)), w.callers[id].key;
    assert FlightOf(w, id, k);
    forall key | key in v.store && v.store[key].Done?
      ensures exists i :: WonBy(v, i, key)
    {
      var i :| WonBy(w, i, key);
      assert WonBy(v, i, key);
    }
    forall key | key in v.store && v.store[key].PendingRun?
      ensures exists i :: FlightOf(v, i, key)
    {
      var i :| FlightOf(w, i, key);
      assert FlightOf(v, i, key);
    }
    assert forall i, key :: WonBy(v, i, key) ==> WonBy(w, i, key);
  }

  /** A run in which no key ever lapses while a caller is in flight on it. */
  ghost predicate Punctual(steps: seq<Step>) {
    forall n :: 0 <= n < |steps| ==> Harmless(Run(FRESH, steps[..n]), steps[n])
  }

  lemma {:induction false} RunKeepsLock(steps: seq<Step>)
    requires Punctual(steps)
    ensures LockInv(Run(FRESH, steps))
  {
    if steps != [] {
      var init := steps[..|steps| - 1];
      assert forall n :: 0 <= n < |init| ==> init[..n] == steps[..n];
      RunKeepsLock(init);
      LockStep(Run(FRESH, init), steps[|steps| - 1]);
    }
  }

  /** Under every interleaving at most one execution of a key is in flight, as long as its lock does
      not lapse first. In memory nothing ever lapses. */
  lemma {:induction false} AtMostOneInFlight(steps: seq<Step>, i: nat, j: nat, key: string)
    requires Punctual(steps)
    requires FlightOf(Run(FRESH, steps), i, key) && FlightOf(Run(FRESH, steps), j, key)
    ensures i == j
  {
    RunKeepsLock(steps);
  }

  predicate NoLapse(steps: seq<Step>) {
    forall n :: 0 <= n < |steps| ==> !steps[n].Lapse?
  }

  lemma {:induction false} RunKeepsOnce(steps: seq<Step>)
    requires NoLapse(steps)
    ensures LockInv(Run(FRESH, steps)) && OnceInv(Run(FRESH, steps))
  {
    if steps != [] {
      var init := steps[..|steps| - 1];
      RunKeepsOnce(init);
      LockStep(Run(FRESH, init), steps[|steps| - 1]);
      OnceStep(Run(FRESH, init), steps[|steps| - 1]);
    }
  }

  /** Without lapses (the in-memory store), at most one execution of a key ever succeeds and every
      response returned for the key, whenever and to whomever, is that execution's response to that
      same request. */
  lemma {:induction false} EveryResponseIsTheOneRuns(steps: seq<Step>, i: nat) returns (winner: nat)
    requires NoLapse(steps)
    requires i in Run(FRESH, steps).callers && Run(FRESH, steps).callers[i].stage.Returned?
    ensures var w := Run(FRESH, steps); var key := w.callers[i].key;
            && WonBy(w, winner, key)
            && w.callers[winner].stage.response == w.callers[i].stage.response
            && w.callers[winner].hash == w.callers[i].hash
            && forall j :: WonBy(w, j, key) ==> j == winner
  {
    RunKeepsOnce(steps);
    var w := Run(FRESH, steps);
    winner :| WonBy(w, winner, w.callers[i].key);
  }

  lemma {:induction false} WonStays(w: World, step: Step, winner: nat, key: string)
    requires WonBy(w, winner, key)
    ensures WonBy(Next(w, step), winner, key)
    ensures Next(w, step).callers[winner] == w.callers[winner]
  {
  }

  lemma {:induction false} WinnerIsForever(steps: seq<Step>, more: seq<Step>, winner: nat, key: string)
    requires WonBy(Run(FRESH, steps), winner, key)
    ensures WonBy(Run(FRESH, steps + more), winner, key)
    ensures Run(FRESH, steps + more).callers[winner] == Run(FRESH, steps).callers[winner]
  {
    if more == [] {
      assert steps + more == steps;
    } else {
      var init, last := more[..|more| - 1], more[|more| - 1];
      WinnerIsForever(steps, init, winner, key);
      assert (steps + more)[..|steps + more| - 1] == steps + init;
      WonStays(Run(FRESH, steps + init), last, winner, key);
    }
  }

  /** The stored response is replayed: once an execution of a key has succeeded, and however the run goes on,
      every caller of that key that reads later gets its response if the request is the same, without
      executing anything, and a conflict if it is another. */
  lemma {:induction false} LaterCallersGetTheResponse(steps: seq<Step>, more: seq<Step>, winner: nat, key: string,
                                                      id: nat)
    requires NoLapse(steps) && NoLapse(more) && WonBy(Run(FRESH, steps), winner, key)
    requires var w := Run(FRESH, steps + more);
             id in w.callers && w.callers[id].key == key && w.callers[id].stage == Starting
    ensures var w := Run(FRESH, steps + more);
            var first := Run(FRESH, steps).callers[winner];
            && Next(w, Read(id)).store == w.store
            && Next(w, Read(id)).callers[id].stage ==
               if w.callers[id].hash == first.hash then Returned(first.stage.response, false) else Refused
  {
    WinnerIsForever(steps, more, winner, key);
    RunKeepsOnce(steps + more);
  }

  /** A caller that nobody precedes: if the key is free it executes, and whatever another caller of the key
      does before that execution has ended is refused. */
  lemma {:induction false} OthersWait(w: World, id: nat, other: nat, key: string)
    requires LockInv(w) && FlightOf(w, id, key)
    requires other in w.callers && w.callers[other].key == key
    ensures w.callers[other].stage == Starting ==> Next(w, Read(other)) == Move(w, other, Refused)
    ensures w.callers[other].stage == Missed ==> Next(w, Lock(other)) == Move(w, other, Refused)
  {
  }

  /** A key that nobody holds, because it is new or because its execution failed, is executed. */
  lemma {:induction false} FreeKeyIsExecuted(w: World, id: nat)
    requires id in w.callers && w.callers[id].key !in w.store && w.callers[id].stage == Starting
    ensures var v := Next(Next(w, Read(id)), Lock(id));
            && v.callers == w.callers[id := w.callers[id].(stage := Executing)]
            && v.store == w.store[w.callers[id].key := PendingRun(w.callers[id].hash)]
  {
    var w1 := Next(w, Read(id));
    assert w1.store == w.store && w1.callers == w.callers[id := w.callers[id].(stage := Missed)];
  }

  /** Once a key is taken, in flight or done, a caller with another request is refused, and reading
      or trying the lock changes nothing in the store. */
  lemma {:induction false} OtherRequestsConflict(w: World, id: nat)
    requires id in w.callers && w.callers[id].key in w.store
    requires w.store[w.callers[id].key].hash != w.callers[id].hash
    ensures w.callers[id].stage == Starting ==> Next(w, Read(id)) == Move(w, id, Refused)
    ensures w.callers[id].stage == Missed ==> Next(w, Lock(id)) == Move(w, id, Refused)
  {
  }

  /** A failed execution deletes its own pending record and nobody else's. */
  lemma {:induction false} ReleaseFreesOwnRecord(w: World, id: nat)
    requires LockInv(w) && AtStage(w, Release(id))
    ensures w.callers[id].key in w.store && w.store[w.callers[id].key] == PendingRun(w.callers[id].hash)
    ensures Next(w, Release(id)).store == w.store - {w.callers[id].key}
  {
    assert FlightOf(w, id, w.callers[id].key);
  }

  /** The lock's expiry is what the guarantee hangs on: from every reachable state, if the key of a
      caller in flight lapses, the next caller with that key executes beside it. */
  lemma {:induction false} LapseAdmitsASecond(w: World, first: nat, second: nat, hash: string)
    requires first in w.callers && InFlight(w.callers[first]) && w.callers[first].key in w.store
    requires second !in w.callers
    ensures var key := w.callers[first].key;
            var v := Next(Next(Next(Next(w, Lapse(key)), Arrive(second, key, hash)), Read(second)), Lock(second));
            FlightOf(v, first, key) && FlightOf(v, second, key) && first != second
  {
    var key := w.callers[first].key;
    var w1 := Next(w, Lapse(key));
    var w2 := Next(w1, Arrive(second, key, hash));
    assert w2.callers[second] == Caller(key, hash, Starting) && key !in w2.store;
    var w3 := Next(w2, Read(second));
    assert w3.callers[second].stage == Missed && w3.store == w2.store;
  }

  /** Keys of one scope are stored apart, and so are those of different scopes as long as no scope contains a
      colon. */
  lemma {:induction false} KeysAreApart(store: IdempotencyStore, scope: string, key: string, scope': string,
                                        key': string)
    requires scope == scope' || (':' !in scope && ':' !in scope')
    ensures store.RKey(scope, key) == store.RKey(scope', key') <==> scope == scope' && key == key'
  {
    var a, b := scope + ":" + key, scope' + ":" + key';
    var p := store.prefix + ":idem:";
    assert store.RKey(scope, key) == p + a && store.RKey(scope', key') == p + b;
    assert (p + a)[|p|..] == a && (p + b)[|p|..] == b;
    assert a[|scope|] == ':' && b[|scope'|] == ':';
    assert |scope| < |scope'| ==> b[|scope|] == scope'[|scope|] && b[|scope|] in scope';
    assert |scope'| < |scope| ==> a[|scope'|] == scope[|scope'|] && a[|scope'|] in scope;
    assert a[..|scope|] == scope && b[..|scope'|] == scope';
    assert a[|scope| + 1..] == key && b[|scope'| + 1..] == key';
  }

  // ------------------------------------------------------------------ one caller on its own

  datatype Outcome = Value(response: string) | Raises

  function Finish(outcome: Outcome): Step {
    if outcome.Value? then Succeed(0, outcome.response) else Throw(0)
  }

  /** What the machine does with a caller that nobody interrupts. */
  function Alone(store: map<string, Record>, key: string, hash: string, outcome: Outcome): World {
    Next(Next(Next(Next(Next(World(store, map[0 := Caller(key, hash, Starting)]), Read(0)), Lock(0)),
                   Finish(outcome)), Store(0)), Release(0))
  }

  class IdempotencyStore {
    const prefix: string
    var memory: map<string, Record>

    constructor (prefix: string)
      ensures memory == map[] && this.prefix == prefix
    {
      this.prefix := prefix;
      memory := map[];
    }

    method Get(k: string) returns (v: Option<Record>)
      ensures v == if k in memory then Some(memory[k]) else None
    {
      v := if k in memory then Some(memory[k]) else None;
    }

    method Set(k: string, v: Record, nx: bool) returns (ok: bool)
      modifies this
      ensures ok <==> !(nx && k in old(memory))
      ensures memory == if ok then old(memory)[k := v] else old(memory)
    {
      if nx && k in memory {
        return false;
      }
      memory := memory[k := v];
      ok := true;
    }

    method Delete(k: string)
      modifies this
      ensures memory == old(memory) - {k}
    {
      memory := memory - {k};
    }

    /** The key under which a caller's key is stored. */
    function RKey(scope: string, key: string): string {
      prefix + ":idem:" + scope + ":" + key
    }

    /** `run` with the outcome of `func`; `executed` says whether `func` was called at all. It does
        exactly what the machine does for a caller that nobody interrupts. */
    method RunOne(scope: string, key: string, hash: string, outcome: Outcome)
      returns (r: Result<string, Error>, executed: bool)
      modifies this
      ensures var rkey := RKey(scope, key);
              && executed == (rkey !in old(memory))
              && (rkey in old(memory) ==>
                    && memory == old(memory)
                    && r == if old(memory)[rkey].Done? && old(memory)[rkey].hash == hash
                            then Ok(old(memory)[rkey].response) else Err(Conflict))
              && (rkey !in old(memory) && outcome.Value? ==>
                    r == Ok(outcome.response) && memory == old(memory)[rkey := Done(hash, outcome.response)])
              && (rkey !in old(memory) && outcome.Raises? ==> r.Err? && memory == old(memory))
      ensures var w := Alone(old(memory), RKey(scope, key), hash, outcome);
              && memory == w.store
              && (r.Ok? <==> w.callers[0].stage.Returned?)
              && (r.Ok? ==> r.value == w.callers[0].stage.response)
    {
      var rkey := prefix + ":idem:" + scope + ":" + key;
      executed := false;
      ghost var start := World(memory, map[0 := Caller(rkey, hash, Starting)]);
      var existing := Get(rkey);
      if existing.Some? {
        if existing.value.hash != hash {
          return Err(Conflict), false;
        }
        if existing.value.Done? {
          return Ok(existing.value.response), false;
        }
        return Err(Conflict), false;
      }
      var locked := Set(rkey, PendingRun(hash), true);
      if !locked {
        return Err(Conflict), false;
      }
      executed := true;
      match outcome {
        case Raises =>
          Delete(rkey);
          r := Err(UpstreamUnavailable);
        case Value(response) =>
          var stored := Set(rkey, Done(hash, response), false);
          r := Ok(response);
      }
    }
  }

  /** Asking twice: after a response the same request gets the same one again, whatever a second execution
      would have come to, and nothing is executed or stored. Another request with that key conflicts. */
  method RunTwice(store: IdempotencyStore, scope: string, key: string, hash: string, hash2: string,
                  outcome: Outcome, outcome2: Outcome)
    returns (first: Result<string, Error>, second: Result<string, Error>, again: bool)
    modifies store
    ensures first.Ok? ==> !again && second == if hash2 == hash then first else Err(Conflict)
    ensures first.Ok? ==>
              store.memory == old(store.memory)[store.RKey(scope, key) := Done(hash, first.value)]
    ensures store.RKey(scope, key) !in old(store.memory) && outcome.Raises? ==>
              again && (outcome2.Value? ==> second == Ok(outcome2.response))
  {
    var executed: bool;
    first, executed := store.RunOne(scope, key, hash, outcome);
    second, again := store.RunOne(scope, key, hash2, outcome2);
  }
}

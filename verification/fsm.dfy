/**
 * The per-range initial-sync state-machine manager.
 *
 * A `Manager` owns one `StateMachine` per block range, keyed by the low 64
 * bits of the range's start number, together with `keys`, a cached list of
 * those start numbers kept strictly ascending, and `handlers`, the
 * (state, event) dispatch table. A `StateMachine` records the progress of
 * one range and moves between states only through `Trigger`, which runs the
 * registered handler and commits the state it returns.
 *
 * The wall clock is a `now` parameter wherever the source reads it.
 */
module Fsm {
  import opened Outcomes
  import opened Uint256
  import opened FsmIds
  import opened SortedSeq

  /** A peer identifier; the empty string when no peer is assigned. */
  type PeerId = string

  /** A clock reading, passed in where the source calls `time.Now()`. */
  type Time = int

  datatype Error =
    | MachineNotFound(start: U256)          // removeStateMachine on an absent start
    | NoMachines                            // highestStartSlot on an empty manager
    | NoHandlers(event: EventId, state: StateId)  // trigger in a state with no handler map
    | HandlerFailed(reason: string)         // whatever error a handler reports

  /** What a handler sees of the machine it runs on. */
  datatype MachineView<Block> =
    MachineView(start: U256, state: StateId, pid: PeerId, blocks: seq<Block>, updated: Time)

  /**
   * `eventHandlerFn`: given the machine and the event payload, the state to
   * move to, or an error.
   */
  type Handler<!Block, !Data> = (MachineView<Block>, Data) -> Result<StateId, Error>

  /** The numbers held by a list of integer objects. */
  function Values(ks: seq<Int>): (r: seq<int>) {
    seq(|ks|, i requires 0 <= i < |ks| => ks[i].value)
  }

  /** `x` put into a list ascending by value, at the place that keeps it ascending. */
  function InsertByValue(ks: seq<Int>, x: Int): (r: seq<Int>)
    requires StrictlyAscending(Values(ks)) && x.value !in Values(ks)
    ensures Values(r) == InsertSorted(Values(ks), x.value)
    ensures multiset(r) == multiset(ks) + multiset{x}
  {
    if ks == [] then [x]
    else if x.value < ks[0].value then
      assert Values([x] + ks) == [x.value] + Values(ks);
      [x] + ks
    else
      assert Values(ks[1..]) == Values(ks)[1..];
      var rest := InsertByValue(ks[1..], x);
      assert Values([ks[0]] + rest) == [ks[0].value] + Values(rest);
      assert ks == [ks[0]] + ks[1..];
      [ks[0]] + rest
  }

  /**
   * `sort.Slice(keys, less)` with `less` comparing values: the same objects,
   * ascending by value.
   */
  method SortByValue(ks: seq<Int>) returns (r: seq<Int>)
    requires Distinct(Values(ks))
    ensures StrictlyAscending(Values(r))
    ensures multiset(r) == multiset(ks)
  {
    r := [];
    var i := 0;
    while i < |ks|
      invariant 0 <= i <= |ks|
      invariant StrictlyAscending(Values(r))
      invariant Elems(Values(r)) == Elems(Values(ks[..i]))
      invariant multiset(r) == multiset(ks[..i])
    {
      forall x | x in Elems(Values(ks[..i])) ensures x != ks[i].value {
        var j :| 0 <= j < i && Values(ks[..i])[j] == x;
        assert Values(ks)[j] == x && Values(ks)[i] == ks[i].value;
      }
      assert ks[i].value !in Elems(Values(r));
      r := InsertByValue(r, ks[i]);
      assert ks[..i + 1] == ks[..i] + [ks[i]];
      assert Values(ks[..i + 1]) == Values(ks[..i]) + [ks[i].value];
      i := i + 1;
    }
    assert ks[..i] == ks;
  }

  /** `stateMachine`: the progress of one block range. */
  class StateMachine<Block, Data> {
    const smm: Manager<Block, Data>
    const start: Int
    var state: StateId
    var pid: PeerId
    var blocks: seq<Block>
    var updated: Time

    /** The record `addStateMachine` allocates: state `New`, no peer, no blocks. */
    constructor (smm: Manager<Block, Data>, start: Int, now: Time)
      ensures this.smm == smm && this.start == start
      ensures state == StateNew && pid == "" && blocks == [] && updated == now
    {
      this.smm := smm;
      this.start := start;
      state := StateNew;
      pid := "";
      blocks := [];
      updated := now;
    }

    /** The machine as its handlers see it. */
    function View(): (v: MachineView<Block>)
      reads this
    {
      MachineView(start.value, state, pid, blocks, updated)
    }

    /**
     * `setState`: moving to the current state changes nothing, not even the
     * timestamp; any other state is recorded with the time of the change.
     */
    method SetState(name: StateId, now: Time)
      modifies this
      ensures old(state) == name ==> unchanged(this)
      ensures old(state) != name ==> state == name && updated == now
      ensures pid == old(pid) && blocks == old(blocks)
    {
      if state == name {
        return;
      }
      state := name;
      updated := now;
    }

    /**
     * `trigger`: look up the handler map of the current state (an error if
     * there is none), run the handler for `event` if one is registered, and
     * commit the state it returns. An event without a handler succeeds and
     * changes nothing; a handler's error is passed on and changes nothing.
     */
    method Trigger(event: EventId, data: Data, now: Time) returns (err: Option<Error>)
      modifies this
      ensures pid == old(pid) && blocks == old(blocks)
      ensures old(state) !in smm.handlers ==>
        err == Some(NoHandlers(event, old(state))) && unchanged(this)
      ensures old(state) in smm.handlers && event !in smm.handlers[old(state)] ==>
        err == None && unchanged(this)
      ensures old(state) in smm.handlers && event in smm.handlers[old(state)] ==>
        var res := smm.handlers[old(state)][event](old(View()), data);
        if res.Failure? then err == Some(res.error) && unchanged(this)
        else err == None && state == res.value &&
             updated == (if res.value == old(state) then old(updated) else now)
    {
      if state !in smm.handlers {
        return Some(NoHandlers(event, state));
      }
      var hs := smm.handlers[state];
      if event in hs {
        var res := hs[event](View(), data);
        if res.Failure? {
          return Some(res.error);
        }
        SetState(res.value, now);
      }
      return None;
    }

    /**
     * `isFirst`, by value as its documentation describes: whether this
     * machine's start is the lowest start in the manager's index.
     */
    function IsFirst(): (r: bool)
      reads smm
      requires |smm.keys| > 0
      ensures smm.Valid() ==>
        (r <==> start.value in smm.machines && forall k :: k in smm.machines ==> start.value <= k)
    {
      smm.IndexFacts();
      start.value == smm.keys[0].value
    }

    /**
     * `isLast`, by value as its documentation describes: whether this
     * machine's start is the highest start in the manager's index.
     */
    function IsLast(): (r: bool)
      reads smm
      requires |smm.keys| > 0
      ensures smm.Valid() ==>
        (r <==> start.value in smm.machines && forall k :: k in smm.machines ==> k <= start.value)
    {
      smm.IndexFacts();
      start.value == smm.keys[|smm.keys| - 1].value
    }

    /**
     * `isFirst` as written: compares the start OBJECT with the first index
     * object. Identity implies equal values, so it can only be stricter than
     * the by-value `IsFirst`.
     */
    predicate IsFirstAsWritten(): (r: bool)
      reads smm
      requires |smm.keys| > 0
      ensures r ==> IsFirst()
    {
      start == smm.keys[0]
    }

    /**
     * `isLast` as written: compares the start OBJECT with the last index
     * object; like `IsFirstAsWritten`, only ever stricter than `IsLast`.
     */
    predicate IsLastAsWritten(): (r: bool)
      reads smm
      requires |smm.keys| > 0
      ensures r ==> IsLast()
    {
      start == smm.keys[|smm.keys| - 1]
    }
  }

  /** `stateMachineManager`: the machines of all ranges in flight. */
  class Manager<Block, Data> {
    var keys: seq<Int>
    var machines: map<U64, StateMachine<Block, Data>>
    var handlers: map<StateId, map<EventId, Handler<Block, Data>>>

    /**
     * Every machine belongs to this manager and sits under the low 64 bits
     * of its own start; no machine sits under two keys.
     */
    ghost predicate MachinesWellFormed()
      reads this
    {
      && (forall k :: k in machines ==> machines[k].smm == this && machines[k].start.Uint64() == k)
      && (forall k1, k2 :: k1 in machines && k2 in machines && k1 != k2 ==> machines[k1] != machines[k2])
    }

    /**
     * The manager invariant: `keys` lists exactly the keys of `machines`,
     * strictly ascending, in objects of its own (never a machine's start).
     */
    ghost predicate Valid()
      reads this
    {
      && MachinesWellFormed()
      && StrictlyAscending(Values(keys))
      && Elems(Values(keys)) == machines.Keys
      && (forall i, k :: 0 <= i < |keys| && k in machines ==> keys[i] != machines[k].start)
    }

    /** The index facts `IsFirst`, `IsLast` and `HighestStartSlot` rest on. */
    lemma IndexFacts()
      ensures Valid() && |keys| > 0 ==>
        && keys[0].value in machines && keys[|keys| - 1].value in machines
        && (forall k :: k in machines ==> keys[0].value <= k <= keys[|keys| - 1].value)
    {
      if Valid() && |keys| > 0 {
        HeadIsLeast(Values(keys));
        LastIsGreatest(Values(keys));
        assert Values(keys)[0] in Elems(Values(keys));
        assert Values(keys)[|keys| - 1] in Elems(Values(keys));
      }
    }

    /** `newStateMachineManager`: no machines, no handlers. */
    constructor ()
      ensures Valid()
      ensures keys == [] && machines == map[] && handlers == map[]
    {
      keys := [];
      machines := map[];
      handlers := map[];
    }

    /**
     * `addEventHandler`: registers `fn` for (`state`, `event`) unless a
     * handler is already registered for that pair, in which case the first
     * registration stays.
     */
    method AddEventHandler(event: EventId, state: StateId, fn: Handler<Block, Data>)
      modifies this
      ensures keys == old(keys) && machines == old(machines)
      ensures state in handlers && event in handlers[state]
      ensures old(state in handlers && event in handlers[state]) ==> handlers == old(handlers)
      ensures old(state !in handlers) ==> handlers == old(handlers)[state := map[event := fn]]
      ensures old(state in handlers && event !in handlers[state]) ==>
        var row: map<EventId, Handler<Block, Data>> := old(handlers)[state];
        handlers == old(handlers)[state := row[event := fn]]
    {
      if state !in handlers {
        handlers := handlers[state := map[]];
      }
      if event !in handlers[state] {
        var row: map<EventId, Handler<Block, Data>> := handlers[state];
        handlers := handlers[state := row[event := fn]];
      }
    }

    /**
     * `recalculateMachineAttribs`: rebuilds `keys` from the keys of
     * `machines`, one fresh integer per key, collected in whatever order the
     * map yields them and then sorted.
     */
    method RecalculateMachineAttribs()
      requires MachinesWellFormed()
      modifies this`keys
      ensures Valid()
      ensures forall i :: 0 <= i < |keys| ==> fresh(keys[i])
    {
      var ks := CollectKeys();
      var sorted := SortByValue(ks);
      SameObjectsSameValues(ks, sorted);
      forall i | 0 <= i < |sorted| ensures fresh(sorted[i]) {
        assert sorted[i] in multiset(ks);
      }
      keys := sorted;
    }

    /** The loop of `recalculateMachineAttribs`: one fresh integer per key of `machines`, in any order. */
    method CollectKeys() returns (ks: seq<Int>)
      ensures Distinct(Values(ks))
      ensures Elems(Values(ks)) == machines.Keys
      ensures forall i :: 0 <= i < |ks| ==> fresh(ks[i])
    {
      ks := [];
      var rest := machines.Keys;
      while rest != {}
        invariant rest <= machines.Keys
        invariant Distinct(Values(ks))
        invariant Elems(Values(ks)) == machines.Keys - rest
        invariant forall i :: 0 <= i < |ks| ==> fresh(ks[i])
        decreases rest
      {
        var key :| key in rest;
        var n := new Int.NewInt(key);
        assert Values(ks + [n]) == Values(ks) + [key];
        assert Elems(Values(ks) + [key]) == Elems(Values(ks)) + {key};
        ks := ks + [n];
        rest := rest - {key};
      }
    }

    /**
     * `addStateMachine`: a new machine in state `New` under the low 64 bits
     * of `startBlockNr`, replacing (not rejecting) any machine already there;
     * the index gains the key if it was new.
     */
    method AddStateMachine(startBlockNr: Int, now: Time) returns (m: StateMachine<Block, Data>)
      requires Valid()
      modifies this
      ensures Valid()
      ensures fresh(m) && fresh(m.start)
      ensures m.smm == this && m.start.value == startBlockNr.value
      ensures m.state == StateNew && m.pid == "" && m.blocks == [] && m.updated == now
      ensures machines == old(machines)[startBlockNr.Uint64() := m]
      ensures handlers == old(handlers)
      ensures FindStateMachine(startBlockNr) == Some(m)
      ensures |keys| > 0
    {
      var key := startBlockNr.Uint64();
      var start := startBlockNr.Clone();
      var fsm := new StateMachine(this, start, now);
      machines := machines[key := fsm];
      RecalculateMachineAttribs();
      m := machines[key];
      assert key in Elems(Values(keys));
    }

    /**
     * `removeStateMachine`: an error if no machine sits under the low 64 bits
     * of `startSlot`, and then nothing changes; otherwise the machine's blocks
     * are released, the machine is deleted and the index loses exactly its key.
     */
    method RemoveStateMachine(startSlot: Int) returns (err: Option<Error>)
      requires Valid()
      modifies this, (if startSlot.Uint64() in machines then {machines[startSlot.Uint64()]} else {})`blocks
      ensures Valid()
      ensures handlers == old(handlers)
      ensures err.Some? <==> old(startSlot.Uint64() !in machines)
      ensures err.Some? ==>
        err.value == MachineNotFound(startSlot.value) && machines == old(machines) && keys == old(keys)
      ensures err.None? ==>
        && machines == old(machines) - {startSlot.Uint64()}
        && old(machines)[startSlot.Uint64()].blocks == []
      ensures FindStateMachine(startSlot) == None
    {
      var key := startSlot.Uint64();
      if key !in machines {
        return Some(MachineNotFound(startSlot.value));
      }
      machines[key].blocks := [];
      machines := machines - {key};
      RecalculateMachineAttribs();
      return None;
    }

    /**
     * `removeAllStateMachines`: removes the machines one by one in the order
     * of a snapshot of the index; since the snapshot lists exactly the keys
     * present, no removal fails and the manager ends empty.
     */
    method RemoveAllStateMachines() returns (err: Option<Error>)
      requires Valid()
      modifies this, machines.Values`blocks
      ensures Valid()
      ensures err == None
      ensures machines == map[] && keys == []
      ensures handlers == old(handlers)
      ensures forall k :: k in old(machines) ==> old(machines)[k].blocks == []
    {
      var snapshot := keys;
      var i := 0;
      ghost var removed: set<U64> := {};
      while i < |snapshot|
        invariant 0 <= i <= |snapshot|
        invariant RemovalProgress(old(machines), removed)
        invariant handlers == old(handlers)
        invariant machines.Keys == Elems(Values(snapshot)[i..])
      {
        var key := snapshot[i];
        NextOfSuffix(Values(snapshot), i);
        var e := RemoveNext(key, old(machines), removed);
        if e.Some? {
          assert false;
        }
        removed := removed + {key.value};
        i := i + 1;
      }
      RecalculateMachineAttribs();
      ElemsEmpty(Values(keys));
      return None;
    }

    /**
     * Part way through `removeAllStateMachines`: the manager is valid, it holds
     * the machines of `orig` not yet removed, and every removed machine has
     * released its blocks.
     */
    ghost predicate RemovalProgress(orig: map<U64, StateMachine<Block, Data>>, removed: set<U64>)
      reads this, orig.Values
    {
      && Valid()
      && removed <= orig.Keys
      && machines == orig - removed
      && (forall k :: k in removed ==> orig[k].blocks == [])
      && (forall k1, k2 :: k1 in orig && k2 in orig && k1 != k2 ==> orig[k1] != orig[k2])
    }

    /** One step of `removeAllStateMachines`: removing a key that is present. */
    method RemoveNext(key: Int, ghost orig: map<U64, StateMachine<Block, Data>>, ghost removed: set<U64>)
      returns (err: Option<Error>)
      requires RemovalProgress(orig, removed) && key.value in machines
      modifies this, {machines[key.value]}`blocks
      ensures err == None
      ensures key.value < TWO_64 && RemovalProgress(orig, removed + {key.value})
      ensures machines == old(machines) - {key.value} && handlers == old(handlers)
    {
      assert key.Uint64() == key.value;
      err := RemoveStateMachine(key);
    }

    /** `findStateMachine`: the machine under the low 64 bits of `startSlot`, if any. */
    function FindStateMachine(startSlot: Int): (r: Option<StateMachine<Block, Data>>)
      reads this
      ensures r.Some? <==> startSlot.Uint64() in machines
      ensures r.Some? ==> r.value in machines.Values
      ensures Valid() && r.Some? ==> r.value.start.Uint64() == startSlot.Uint64() && r.value.smm == this
    {
      if startSlot.Uint64() in machines then Some(machines[startSlot.Uint64()]) else None
    }

    /**
     * `highestStartSlot`: an error on an empty manager; otherwise the start
     * of the machine under the greatest key.
     */
    function HighestStartSlot(): (r: Result<Int, Error>)
      reads this
      requires Valid()
      ensures r.Failure? <==> machines == map[]
      ensures r.Failure? ==> r.error == NoMachines
      ensures r.Success? ==>
        && r.value.Uint64() in machines
        && machines[r.value.Uint64()].start == r.value
        && forall k :: k in machines ==> k <= r.value.Uint64()
    {
      ElemsEmpty(Values(keys));
      IndexFacts();
      if |keys| == 0 then Failure(NoMachines)
      else Success(machines[keys[|keys| - 1].Uint64()].start)
    }

    /**
     * `allMachinesInState`: false on an empty manager, otherwise whether every
     * machine is in `state`; it reads and changes nothing else.
     */
    method AllMachinesInState(state: StateId) returns (r: bool)
      ensures r <==> machines != map[] && forall k :: k in machines ==> machines[k].state == state
    {
      if |machines| == 0 {
        return false;
      }
      var rest := machines.Keys;
      while rest != {}
        invariant rest <= machines.Keys
        invariant forall k :: k in machines && k !in rest ==> machines[k].state == state
        decreases rest
      {
        var k :| k in rest;
        if machines[k].state != state {
          return false;
        }
        rest := rest - {k};
      }
      return true;
    }
  }

  /** Two lists of the same objects hold the same numbers. */
  lemma SameObjectsSameValues(a: seq<Int>, b: seq<Int>)
    requires multiset(a) == multiset(b)
    ensures Elems(Values(a)) == Elems(Values(b))
  {
    forall x | x in Elems(Values(a)) ensures x in Elems(Values(b)) {
      var j :| 0 <= j < |a| && Values(a)[j] == x;
      assert a[j] in multiset(b);
      var i :| 0 <= i < |b| && b[i] == a[j];
      assert Values(b)[i] == x;
    }
    forall x | x in Elems(Values(b)) ensures x in Elems(Values(a)) {
      var j :| 0 <= j < |b| && Values(b)[j] == x;
      assert b[j] in multiset(a);
      var i :| 0 <= i < |a| && a[i] == b[j];
      assert Values(a)[i] == x;
    }
  }

  /**
   * When every machine's start is below 2^64, the highest start slot is the
   * greatest start number in the manager.
   */
  lemma HighestIsGreatestStart<Block, Data>(smm: Manager<Block, Data>)
    requires smm.Valid() && smm.machines != map[]
    requires forall k :: k in smm.machines ==> smm.machines[k].start.value < TWO_64
    ensures smm.HighestStartSlot().Success?
    ensures forall k :: k in smm.machines ==> smm.machines[k].start.value <= smm.HighestStartSlot().value.value
  {
  }

  /**
   * In a valid manager, the machine `findStateMachine` returns is the one
   * stored under the start's low 64 bits: no removed or foreign machine with
   * the same start can be returned.
   */
  lemma FoundIsStored<Block, Data>(smm: Manager<Block, Data>, startSlot: Int, m: StateMachine<Block, Data>)
    requires smm.Valid() && smm.FindStateMachine(startSlot) == Some(m)
    ensures m == smm.machines[startSlot.Uint64()]
  {
  }

  /**
   * The as-written `isFirst` and `isLast` never hold of a managed machine:
   * the index holds objects of its own, never a machine's start object.
   */
  lemma AsWrittenNeverHolds<Block, Data>(smm: Manager<Block, Data>, k: U64)
    requires smm.Valid() && k in smm.machines
    ensures !smm.machines[k].IsFirstAsWritten() && !smm.machines[k].IsLastAsWritten()
  {
  }
}

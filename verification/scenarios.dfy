/**
 * Client scenarios: concrete runs of the manager, proved from the contracts
 * of `Fsm` alone. The handlers registered here are small stand-ins (the
 * real ones pick peers, send requests and validate responses); what is
 * proved is the manager's and the machines' bookkeeping around them.
 */
module FsmScenarios {
  import opened Outcomes
  import opened Uint256
  import opened FsmIds
  import opened SortedSeq
  import opened Fsm

  /** A block is identified by its number; a payload is the list of block numbers received. */
  type Block = nat
  type Payload = seq<nat>

  /** Stand-in `tick` handler for `New`: the range is scheduled. */
  function ScheduleOnTick(v: MachineView<Block>, d: Payload): Result<StateId, Error> {
    Success(StateScheduled)
  }

  /** Stand-in `dataReceived` handler for `Scheduled`: parsed if the payload starts at the range start. */
  function ParseOnData(v: MachineView<Block>, d: Payload): Result<StateId, Error> {
    if |d| > 0 && d[0] == v.start then Success(StateDataParsed) else Success(StateSkipped)
  }

  /** Stand-in handler that refuses the event. */
  function Refuse(v: MachineView<Block>, d: Payload): Result<StateId, Error> {
    Failure(HandlerFailed("refused"))
  }

  /** Stand-in `tick` handler for `New` that skips the range. */
  function SkipOnTick(v: MachineView<Block>, d: Payload): Result<StateId, Error> {
    Success(StateSkipped)
  }

  /** `highestStartSlot` fails on an empty manager. */
  method HighestOfEmptyScenario() returns (r: Result<Int, Error>)
    ensures r == Failure(NoMachines)
  {
    var smm := new Manager<Block, Payload>();
    r := smm.HighestStartSlot();
  }

  /** A new manager holding machines at starts `a` and `b`, added in that order. */
  method PopulateTwo(a: U64, b: U64)
    returns (smm: Manager<Block, Payload>, ma: StateMachine<Block, Payload>, mb: StateMachine<Block, Payload>)
    requires a != b
    ensures fresh(smm)
    ensures smm.Valid() && smm.machines == map[a := ma, b := mb]
    ensures ma.smm == smm && mb.smm == smm
    ensures ma.start.value == a && mb.start.value == b
  {
    smm := new Manager<Block, Payload>();
    var sa := new Int.NewInt(a);
    ma := smm.AddStateMachine(sa, 0);
    var sb := new Int.NewInt(b);
    mb := smm.AddStateMachine(sb, 0);
  }

  /** A new manager holding machines at starts `a`, `b` and `c`, added in that order. */
  method PopulateThree(a: U64, b: U64, c: U64)
    returns (smm: Manager<Block, Payload>, ma: StateMachine<Block, Payload>,
             mb: StateMachine<Block, Payload>, mc: StateMachine<Block, Payload>)
    requires a != b && b != c && a != c
    ensures smm.Valid() && smm.machines.Keys == {a, b, c} && |smm.keys| > 0
    ensures smm.machines[a] == ma && smm.machines[b] == mb && smm.machines[c] == mc
    ensures ma.smm == smm && mb.smm == smm && mc.smm == smm
    ensures ma.start.value == a && mb.start.value == b && mc.start.value == c
  {
    smm, ma, mb := PopulateTwo(a, b);
    var sc := new Int.NewInt(c);
    mc := smm.AddStateMachine(sc, 0);
  }

  /** After adding 10, 50 and 30, `highestStartSlot` yields 50, the start of the machine added second. */
  method HighestStartSlotScenario() returns (highest: int)
    ensures highest == 50
  {
    var smm, m10, m50, m30 := PopulateThree(10, 50, 30);
    var r := smm.HighestStartSlot();
    highest := r.value.value;
  }

  /** With starts 5, 15 and 25, only the machine at 5 is first. */
  method FirstScenario() returns (first5: bool, first15: bool, first25: bool)
    ensures first5 && !first15 && !first25
  {
    var smm, m5, m15, m25 := PopulateThree(5, 15, 25);
    first5 := m5.IsFirst();
    first15 := m15.IsFirst();
    first25 := m25.IsFirst();
  }

  /** With starts 5, 15 and 25, only the machine at 25 is last; the one at 15 is neither first nor last. */
  method LastScenario() returns (last5: bool, last15: bool, last25: bool)
    ensures !last5 && !last15 && last25
  {
    var smm, m5, m15, m25 := PopulateThree(5, 15, 25);
    last5 := m5.IsLast();
    last15 := m15.IsLast();
    last25 := m25.IsLast();
  }

  /** The identity comparison of `isFirst` as written reports a lone machine as not first. */
  method FirstAsWrittenScenario() returns (byIdentity: bool, byValue: bool)
    ensures !byIdentity && byValue
  {
    var smm := new Manager<Block, Payload>();
    var s := new Int.NewInt(5);
    var m := smm.AddStateMachine(s, 0);
    assert smm.machines.Keys == {5};
    AsWrittenNeverHolds(smm, 5);
    byIdentity := m.IsFirstAsWritten();
    byValue := m.IsFirst();
  }

  /** A new range is scheduled on `tick`, and the change is stamped with the time of the event. */
  method ScheduleScenario() returns (scheduled: StateId, stamp: Time)
    ensures scheduled == StateScheduled && stamp == 1
  {
    var smm := new Manager<Block, Payload>();
    smm.AddEventHandler(EventTick, StateNew, ScheduleOnTick);
    var s := new Int.NewInt(100);
    var m := smm.AddStateMachine(s, 0);
    var e := m.Trigger(EventTick, [], 1);
    scheduled, stamp := m.state, m.updated;
  }

  /** A scheduled range is parsed on `dataReceived` because the payload starts at its start. */
  method ParseScenario() returns (parsed: StateId, stamp: Time)
    ensures parsed == StateDataParsed && stamp == 2
  {
    var smm := new Manager<Block, Payload>();
    smm.AddEventHandler(EventDataReceived, StateScheduled, ParseOnData);
    var s := new Int.NewInt(100);
    var m := smm.AddStateMachine(s, 0);
    m.SetState(StateScheduled, 1);
    var e := m.Trigger(EventDataReceived, [100, 101, 102], 2);
    parsed, stamp := m.state, m.updated;
  }

  /** Setting a machine's state stamps it; setting the same state again leaves the stamp alone. */
  method SetStateScenario() returns (sent: StateId, stamp: Time)
    ensures sent == StateSent && stamp == 3
  {
    var smm := new Manager<Block, Payload>();
    var s := new Int.NewInt(100);
    var m := smm.AddStateMachine(s, 0);
    m.SetState(StateSent, 3);
    m.SetState(StateSent, 4);
    sent, stamp := m.state, m.updated;
  }

  /** Once its range is done, removing the only machine leaves the manager empty. */
  method RemoveLastScenario() returns (err: Option<Error>, remaining: nat)
    ensures err == None && remaining == 0
  {
    var smm := new Manager<Block, Payload>();
    var s := new Int.NewInt(100);
    var m := smm.AddStateMachine(s, 0);
    err := smm.RemoveStateMachine(s);
    remaining := |smm.machines|;
  }

  /** A range delivered downstream is marked sent and removed; a caller still holding the machine sees it unchanged but for its released blocks. */
  method RemoveSentScenario() returns (err: Option<Error>, state: StateId, stamp: Time)
    ensures err == None && state == StateSent && stamp == 3
  {
    var smm := new Manager<Block, Payload>();
    var s := new Int.NewInt(100);
    var m := smm.AddStateMachine(s, 0);
    m.SetState(StateSent, 3);
    err := smm.RemoveStateMachine(s);
    state, stamp := m.state, m.updated;
  }

  /** With no handler map for the machine's state, `trigger` fails and the state stays. */
  method NoHandlerMapScenario() returns (err: Option<Error>, state: StateId)
    ensures err == Some(NoHandlers(EventTick, StateNew)) && state == StateNew
  {
    var smm := new Manager<Block, Payload>();
    var s := new Int.NewInt(7);
    var m := smm.AddStateMachine(s, 0);
    err := m.Trigger(EventTick, [], 1);
    state := m.state;
  }

  /** With a handler map for the state but no handler for the event, `trigger` succeeds and changes nothing. */
  method NoHandlerForEventScenario() returns (err: Option<Error>, state: StateId, stamp: Time)
    ensures err == None && state == StateNew && stamp == 0
  {
    var smm := new Manager<Block, Payload>();
    smm.AddEventHandler(EventDataReceived, StateNew, Refuse);
    var s := new Int.NewInt(7);
    var m := smm.AddStateMachine(s, 0);
    err := m.Trigger(EventTick, [], 1);
    state, stamp := m.state, m.updated;
  }

  /** A handler's error is returned and the state stays. */
  method HandlerErrorScenario() returns (err: Option<Error>, state: StateId)
    ensures err == Some(HandlerFailed("refused")) && state == StateNew
  {
    var smm := new Manager<Block, Payload>();
    smm.AddEventHandler(EventTick, StateNew, Refuse);
    var s := new Int.NewInt(7);
    var m := smm.AddStateMachine(s, 0);
    err := m.Trigger(EventTick, [], 1);
    state := m.state;
  }

  /** Of two handlers registered for one pair, the first registered is the one that runs. */
  method FirstRegistrationWinsScenario() returns (state: StateId)
    ensures state == StateScheduled
  {
    var smm := new Manager<Block, Payload>();
    smm.AddEventHandler(EventTick, StateNew, ScheduleOnTick);
    smm.AddEventHandler(EventTick, StateNew, SkipOnTick);
    var s := new Int.NewInt(7);
    var m := smm.AddStateMachine(s, 0);
    var e := m.Trigger(EventTick, [], 1);
    state := m.state;
  }

  /** Adding a start that is already present replaces its machine rather than failing. */
  method ReplaceScenario() returns (replaced: bool, count: nat)
    ensures replaced && count == 1
  {
    var smm := new Manager<Block, Payload>();
    var s := new Int.NewInt(7);
    var first := smm.AddStateMachine(s, 0);
    var second := smm.AddStateMachine(s, 1);
    replaced := smm.machines[7] == second && second != first;
    assert smm.machines.Keys == {7};
    count := |smm.machines|;
  }

  /** Removing an absent start fails and leaves the manager as it was. */
  method RemoveMissingScenario() returns (missing: Option<Error>, count: nat)
    ensures missing == Some(MachineNotFound(9)) && count == 1
  {
    var smm := new Manager<Block, Payload>();
    var s := new Int.NewInt(7);
    var m := smm.AddStateMachine(s, 0);
    var absent := new Int.NewInt(9);
    missing := smm.RemoveStateMachine(absent);
    assert smm.machines.Keys == {7};
    count := |smm.machines|;
  }

  /** `allMachinesInState` is false on an empty manager, whatever the state. */
  method UniformEmptyScenario() returns (empty: bool)
    ensures !empty
  {
    var smm := new Manager<Block, Payload>();
    empty := smm.AllMachinesInState(StateNew);
  }

  /**
   * `allMachinesInState` is true once every machine is in the state, and
   * false as soon as one moves on.
   */
  method UniformStateScenario() returns (before: bool, after: bool)
    ensures before && !after
  {
    var smm := new Manager<Block, Payload>();
    var s1 := new Int.NewInt(1);
    var m1 := smm.AddStateMachine(s1, 0);
    var s2 := new Int.NewInt(2);
    var m2 := smm.AddStateMachine(s2, 0);
    assert smm.machines.Keys == {1, 2};
    before := smm.AllMachinesInState(StateNew);
    m2.SetState(StateScheduled, 1);
    after := smm.AllMachinesInState(StateNew);
  }

  /** `removeAllStateMachines` empties a populated manager and reports no error. */
  method RemoveAllScenario() returns (err: Option<Error>, count: nat, highest: Result<Int, Error>)
    ensures err == None && count == 0
    ensures highest == Failure(NoMachines)
  {
    var smm := new Manager<Block, Payload>();
    var s1 := new Int.NewInt(3);
    var m1 := smm.AddStateMachine(s1, 0);
    var s2 := new Int.NewInt(4);
    var m2 := smm.AddStateMachine(s2, 0);
    err := smm.RemoveAllStateMachines();
    count := |smm.machines|;
    highest := smm.HighestStartSlot();
  }
}

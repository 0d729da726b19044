# Initial-sync state-machine manager, in Dafny

This project models the per-range state-machine manager of the node's initial block
synchronisation (`internal/sync/initial-sync/fsm.go`).

The sync engine fetches block ranges ("batches") from peers. It keeps one small finite
state machine per range, identified by the range's start block number. A machine is in one
of the five states declared at fsm.go:14-20: `new`, `scheduled`, `dataParsed`, `skipped` and
`sent`. Which moves between them happen is decided by the event handlers registered from
outside this file. `fsm.go` itself only creates machines in `new` and commits whatever state a
handler returns.

The manager has three parts:

- **`machines`**: the machines, keyed by the low 64 bits of their start.
- **`keys`**: a cached index of the keys of `machines` (the low 64 bits of the starts, not the starts themselves), kept strictly ascending.
- **`handlers`**: a `(state, event) → handler` dispatch table.

`trigger` looks up the handler for a machine's current state and the event, runs it, and
commits the state it returns, stamping the machine with the time of the change.

Modules:

- `Uint256` (`uint256.dfy`): the slice of `uint256.Int` the manager uses. A number is a
  heap **object** here, because the Go code passes `*uint256.Int` pointers around and
  compares them. `Uint64()` keeps the low 64 bits.
- `FsmIds` (`ids.dfy`): the `stateID` and `eventID` bytes, their constants and their
  diagnostic names.
- `SortedSeq` (`sorted.dfy`): strictly ascending integer sequences, plus the uniqueness
  lemma that pins down the index: two ascending sequences with the same elements are equal.
- `Fsm` (`fsm.dfy`): the classes `StateMachine` and `Manager`.
  - `Manager.Valid()` is the manager invariant: `keys` holds exactly the keys of
    `machines`, strictly ascending, each machine sits under the low 64 bits of its own
    start, and no machine sits under two keys. Every operation that changes the manager
    preserves it.
- `FsmScenarios` (`scenarios.dfy`): concrete runs of the manager with stand-in handlers,
  proved from the contracts of `Fsm` alone.

The wall clock (`time.Now()`) is an explicit `now: Time` parameter. A handler is a value
of type `(MachineView, Data) -> Result<StateId, Error>`, where `MachineView` is a snapshot
of the machine it runs on.

The model keeps these quirks of the code:

- **Duplicate start.** `addStateMachine` overwrites the machine already under a start
  rather than rejecting the call (fsm.go:76). See `AddStateMachine` and `ReplaceScenario`.
- **Missing handler.** `trigger` fails only when the state has no handler map at all
  (fsm.go:165-168). When the map exists but has no entry for the event, it succeeds and
  changes nothing (fsm.go:169-176). See `Trigger` and `NoHandlerForEventScenario`.
- **Second registration.** The first handler registered for a `(state, event)` pair wins,
  and later ones are ignored (fsm.go:69-71). See `AddEventHandler` and
  `FirstRegistrationWinsScenario`.

## Model

| member | source | states |
|---|---|---|
| Uint256.Int.NewInt | internal/sync/initial-sync/fsm.go:113 | `uint256.NewInt(key)` yields a new integer holding exactly the 64-bit key |
| Uint256.Int.Clone | internal/sync/initial-sync/fsm.go:78 | a clone is a fresh object with the same value, so it is never identical to the original |
| Uint256.Int.Uint64 | internal/sync/initial-sync/fsm.go:76 | the result is the unique 64-bit number congruent to the value modulo 2^64: values below 2^64 are kept, larger ones are truncated rather than rejected, and the result never exceeds the value |
| FsmIds.StateName | internal/sync/initial-sync/fsm.go:195-207 | the name is "stateUnknown" exactly when the byte is none of the five declared states |
| FsmIds.EventName | internal/sync/initial-sync/fsm.go:210-219 | the name is "eventUnknown" exactly when the byte is none of the two declared events |
| FsmIds.StateNamesDistinct | internal/sync/initial-sync/fsm.go:196-202 | different declared states have different names |
| FsmIds.EventNamesDistinct | internal/sync/initial-sync/fsm.go:211-214 | different declared events have different names |
| SortedSeq.HeadIsLeast | internal/sync/initial-sync/fsm.go:181 | the first element of a strictly ascending sequence is below or equal to every element |
| SortedSeq.LastIsGreatest | internal/sync/initial-sync/fsm.go:186 | the last element of a strictly ascending sequence is at least every element |
| SortedSeq.AscendingUnique | internal/sync/initial-sync/fsm.go:115-117 | two strictly ascending sequences with the same elements are equal, so the sorted index is determined by the key set alone, whatever order the map yields the keys in |
| SortedSeq.InsertSorted | internal/sync/initial-sync/fsm.go:83 | inserting a new key into an ascending index gives an ascending index with exactly one more element, the key |
| SortedSeq.Without | internal/sync/initial-sync/fsm.go:94 | removing a key from an ascending index gives an ascending index holding exactly the other elements |
| SortedSeq.IndexAfterInsert | internal/sync/initial-sync/fsm.go:75-85 | when the key set gains one new key, the rebuilt ascending index is exactly the old index with that key inserted in place |
| SortedSeq.IndexAfterRemove | internal/sync/initial-sync/fsm.go:88-96 | when the key set loses a key, the rebuilt ascending index is exactly the old index with that key taken out |
| SortedSeq.NextOfSuffix | internal/sync/initial-sync/fsm.go:100-104 | walking an ascending index, the element at position i belongs to the rest of the index from i, and the rest from i+1 is that minus the element |
| Fsm.InsertByValue | internal/sync/initial-sync/fsm.go:115-117 | one insertion step of the sort: the values become the ascending insertion of the new value, and the objects are the old objects plus the new one |
| Fsm.SortByValue | internal/sync/initial-sync/fsm.go:115-117 | `sort.Slice` by `Cmp`: the result is strictly ascending by value and a permutation of the same objects |
| Fsm.SameObjectsSameValues | internal/sync/initial-sync/fsm.go:115-118 | reordering the objects of the key list does not change the set of values it holds |
| Fsm.StateMachine.constructor | internal/sync/initial-sync/fsm.go:76-82 | a new machine is in state `new`, with no peer, no blocks and the current time |
| Fsm.StateMachine.SetState | internal/sync/initial-sync/fsm.go:155-161 | moving to the current state changes nothing, not even the timestamp; any other state is recorded with the time of the change; peer and blocks are untouched |
| Fsm.StateMachine.Trigger | internal/sync/initial-sync/fsm.go:164-177 | no handler map for the state: an error naming the event and state, and no change. No handler for the event: success and no change. The handler fails: its error, and no change. Otherwise the handler's state is committed through `setState`, stamped only if the state changed |
| Fsm.StateMachine.IsFirst | internal/sync/initial-sync/fsm.go:179-182 | corrected by-value `isFirst`: true exactly when the machine's start is a managed key and no managed key is lower |
| Fsm.StateMachine.IsLast | internal/sync/initial-sync/fsm.go:184-187 | corrected by-value `isLast`: true exactly when the machine's start is a managed key and no managed key is higher |
| Fsm.StateMachine.IsFirstAsWritten | internal/sync/initial-sync/fsm.go:180-182 | `isFirst` as written, comparing the start pointer with the first index object: whenever it holds, the by-value `IsFirst` holds too |
| Fsm.StateMachine.IsLastAsWritten | internal/sync/initial-sync/fsm.go:185-187 | `isLast` as written, comparing the start pointer with the last index object: whenever it holds, the by-value `IsLast` holds too |
| Fsm.Manager.IndexFacts | internal/sync/initial-sync/fsm.go:132 | in a valid non-empty manager, the first and last index entries are managed keys, and every key lies between them |
| Fsm.Manager.constructor | internal/sync/initial-sync/fsm.go:56-62 | a new manager has no machines, an empty index and no handlers, and satisfies the manager invariant |
| Fsm.Manager.AddEventHandler | internal/sync/initial-sync/fsm.go:65-72 | afterwards a handler is registered for the pair. An existing registration is kept, the first wins. Otherwise `fn` is added, creating the state's map if needed. Machines and index are untouched |
| Fsm.Manager.RecalculateMachineAttribs | internal/sync/initial-sync/fsm.go:110-119 | the index is rebuilt from fresh integers, one per key of `machines`, strictly ascending; this re-establishes the manager invariant |
| Fsm.Manager.CollectKeys | internal/sync/initial-sync/fsm.go:111-114 | the collected list holds each key of `machines` exactly once, in fresh objects |
| Fsm.Manager.AddStateMachine | internal/sync/initial-sync/fsm.go:75-85 | the invariant is preserved. A fresh `new` machine holding a clone of the start sits under the low 64 bits of the start, replacing any machine already there. Nothing else changes, and `findStateMachine` now returns the new machine |
| Fsm.Manager.RemoveStateMachine | internal/sync/initial-sync/fsm.go:88-96 | the invariant is preserved. An absent key gives a not-found error naming the start, and nothing changes. Otherwise the machine's blocks are released and exactly that key is deleted; of the removed machine only `blocks` may change, so its state, peer and timestamp stay as they were. Either way the start is no longer found |
| Fsm.Manager.RemoveAllStateMachines | internal/sync/initial-sync/fsm.go:99-107 | walking a snapshot of the index, no removal fails. The manager ends empty and valid with its handlers kept. Every removed machine has released its blocks, and nothing else of it changes |
| Fsm.Manager.RemoveNext | internal/sync/initial-sync/fsm.go:100-104 | one step of that loop: removing a key that is present succeeds and removes exactly that key, touching only the removed machine's blocks |
| Fsm.Manager.FindStateMachine | internal/sync/initial-sync/fsm.go:122-125 | a machine is found exactly when one sits under the low 64 bits of the start, and the machine found is one the manager holds. In a valid manager, that makes it the one managed machine whose own start has those low bits |
| Fsm.Manager.HighestStartSlot | internal/sync/initial-sync/fsm.go:128-134 | fails with "no machines" exactly when the manager is empty. Otherwise it returns the start object of the machine under the greatest key |
| Fsm.Manager.AllMachinesInState | internal/sync/initial-sync/fsm.go:137-147 | true exactly when the manager is non-empty and every machine is in the given state |
| Fsm.FoundIsStored | internal/sync/initial-sync/fsm.go:123-124 | in a valid manager, the machine found for a start is exactly the one stored under its low 64 bits |
| Fsm.HighestIsGreatestStart | internal/sync/initial-sync/fsm.go:127-134 | when every start fits in 64 bits, the highest start slot is the greatest start of any machine |
| Fsm.AsWrittenNeverHolds | internal/sync/initial-sync/fsm.go:179-187 | `isFirst` and `isLast` as written, comparing pointers, are false for every machine of a valid manager |
| FsmScenarios.HighestOfEmptyScenario | internal/sync/initial-sync/fsm.go:129-131 | `highestStartSlot` fails on an empty manager |
| FsmScenarios.HighestStartSlotScenario | internal/sync/initial-sync/fsm.go:128-134 | after adding starts 10, 50 and 30, the highest start slot is 50 |
| FsmScenarios.FirstScenario | internal/sync/initial-sync/fsm.go:179-182 | with starts 5, 15 and 25, the machine at 5 is first and the others are not |
| FsmScenarios.LastScenario | internal/sync/initial-sync/fsm.go:184-187 | with starts 5, 15 and 25, the machine at 25 is last and the others are not, so the machine at 15 is neither first nor last |
| FsmScenarios.FirstAsWrittenScenario | internal/sync/initial-sync/fsm.go:179-182 | the only machine of a manager is first by value, but not first by the pointer comparison as written |
| FsmScenarios.ScheduleScenario | internal/sync/initial-sync/fsm.go:164-177 | a registered `tick` handler moves a new machine to `scheduled`, stamped with the event's time |
| FsmScenarios.ParseScenario | internal/sync/initial-sync/fsm.go:164-177 | a registered `dataReceived` handler moves a scheduled machine to `dataParsed`, stamped with the event's time |
| FsmScenarios.SetStateScenario | internal/sync/initial-sync/fsm.go:155-161 | setting `sent` stamps the machine; setting `sent` again leaves the stamp alone |
| FsmScenarios.RemoveLastScenario | internal/sync/initial-sync/fsm.go:88-96 | removing the only machine succeeds and leaves the manager empty |
| FsmScenarios.RemoveSentScenario | internal/sync/initial-sync/fsm.go:88-96 | a machine marked `sent` and then removed is still `sent`, with its timestamp, for a caller that holds it |
| FsmScenarios.NoHandlerMapScenario | internal/sync/initial-sync/fsm.go:165-168 | with no handler map for the state, `trigger` fails and the state stays |
| FsmScenarios.NoHandlerForEventScenario | internal/sync/initial-sync/fsm.go:169-176 | with a handler map but no handler for the event, `trigger` succeeds and changes neither state nor stamp |
| FsmScenarios.HandlerErrorScenario | internal/sync/initial-sync/fsm.go:170-173 | a handler's error is returned and the state stays |
| FsmScenarios.FirstRegistrationWinsScenario | internal/sync/initial-sync/fsm.go:69-71 | of two handlers registered for one pair, the first is the one that runs |
| FsmScenarios.ReplaceScenario | internal/sync/initial-sync/fsm.go:76 | adding a start twice replaces the machine: one machine, the second one |
| FsmScenarios.RemoveMissingScenario | internal/sync/initial-sync/fsm.go:89-91 | removing an absent start fails with not-found and leaves the machine count alone |
| FsmScenarios.UniformEmptyScenario | internal/sync/initial-sync/fsm.go:138-140 | `allMachinesInState` is false on an empty manager |
| FsmScenarios.UniformStateScenario | internal/sync/initial-sync/fsm.go:141-146 | `allMachinesInState` is true while every machine is `new`, and false once one moves on |
| FsmScenarios.RemoveAllScenario | internal/sync/initial-sync/fsm.go:99-107 | `removeAllStateMachines` empties a populated manager without error, after which `highestStartSlot` fails |

## Left out

- Handler bodies: the real `tick` and `dataReceived` handlers pick peers, send requests and validate responses, and they live outside `fsm.go`. Only the stand-ins in `FsmScenarios` appear here.
- Handler side effects: a Go handler gets the `*stateMachine` itself. It may set any of its fields (`pid`, `blocks`, but also `state` or even `start`), and through `m.smm` it may read or change the manager. The modelled handler sees only a `MachineView` snapshot and returns the next state, so `Trigger` keeps `pid` and `blocks` unchanged and commits no state but the returned one.
- Mutable integers: a Go `uint256.Int` can be changed in place, but `Uint256.Int.value` is a constant. `highestStartSlot` hands out the managed machine's own `start` pointer (fsm.go:133), so a caller writing through it would change that machine's start and could break the rule that each machine sits under the low 64 bits of its start. The model cannot express such a write, and `Manager.Valid()` assumes it never happens.
- Fsm.StateMachine.Trigger: the handler's `data interface{}` becomes a type parameter `Data`; dynamic typing of payloads is not modelled.
- `stateMachineManager.String` and `stateMachine.String` (fsm.go:150-152, 190-192): `fmt` formatting of maps and pointers is not modelled.
- `time.Now()`: the clock is a parameter, so the model does not capture monotonicity of timestamps.
- Locking and concurrency: `fsm.go` takes no locks, and the model treats all operations as happening one at a time.
- Fsm.SortByValue: the model sorts a sequence by insertion and does not update a slice in place with `sort.Slice`'s algorithm. Only the result is modelled: the same objects, ascending by value.
- Fsm.Manager.HighestStartSlot: on an empty manager Go also returns a fresh `uint256.NewInt(0)` beside the error. The model returns only the error, since that placeholder value carries no information.
- Fsm.Manager.RemoveStateMachine: the error's message text is replaced by the `MachineNotFound` constructor carrying the start.
- Fsm.Manager.RemoveAllStateMachines: Go's early return on a failed removal is modelled as an unreachable branch, proved unreachable.
- Capacity hints (`lookaheadSteps` in `make`) change no behaviour and are left out.
- The rest of the package (the queue and driver that use the manager, the blocks fetcher, peer scoring, chain insertion) is not part of this model.

## Findings

| source | as written | input that shows it | evidently intended | confidence | as-written member | corrected member |
|---|---|---|---|---|---|---|
| internal/sync/initial-sync/fsm.go:180-182 | `isFirst` compares the `*uint256.Int` pointer `m.start` with `m.smm.keys[0]`. `start` is a clone made by `addStateMachine`, and the index entries are fresh `uint256.NewInt` objects, so the pointers never match | a manager holding one machine with start 5: `isFirst` returns false although 5 is the lowest start | compare values: true when the machine's start is the lowest key | high (not executed) | Fsm.StateMachine.IsFirstAsWritten, FsmScenarios.FirstAsWrittenScenario | Fsm.StateMachine.IsFirst |
| internal/sync/initial-sync/fsm.go:185-187 | `isLast` compares the pointer `m.start` with the last index object, and can never match for the same reason | a manager holding one machine with start 5: `isLast` returns false although 5 is the highest start | compare values: true when the machine's start is the highest key | high (not executed) | Fsm.StateMachine.IsLastAsWritten, Fsm.AsWrittenNeverHolds | Fsm.StateMachine.IsLast |

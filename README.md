# Accumulator store of the portablegabi pallet, in Dafny

This project models the runtime pallet that keeps, for every attester, an
append-only log of opaque byte blobs called accumulators. Replacing an
accumulator is how an attester revokes an attestation.

The pallet's storage has two maps:

- `AccumulatorList`, keyed by (attester, u64 index), holding byte vectors.
- `AccumulatorCount`, keyed by attester, holding a u64 that reads as 0 for an attester that never appended.

Its one dispatchable, `update_accumulator`, reads the attester's counter and
computes `counter + 1` with checked u64 arithmetic. It fails with
"accumulator overflow" when that sum overflows. It fails with
"inconsistent accumulator counter" when slot (attester, counter) is already
occupied. Otherwise it stores the payload in that slot, sets the count to
`counter + 1` and deposits the event `Updated(attester, counter + 1, payload)`.

Files:

- `portablegabi.dfy`, module `Portablegabi`. It holds the storage types, the
  value-level specification `Update` of one call, the lemmas about a single
  call, and the class `Store`. `Store` holds the two maps and the event log as
  fields, and its method `UpdateAccumulator` changes them in place. That method
  is proved equal to `Update` on the storage before the call. The pallet's unit
  test is the method `ItWorksForDefaultValue`.
- `replay.dfy`, module `Replay`. It replays a sequence of calls (`Run`) and
  proves what the sequence does to each attester's log and to the event log.
  `Log(s, a)` is an attester's log, read off slots `0 .. count - 1`.

The central invariant is `Dense(s, a)`: slot (a, i) is present exactly when
`i < count(a)`. Every call preserves it, for every attester. On a dense
attester the "inconsistent accumulator counter" guard never fires.

The account id is a type parameter, because the pallet is generic over the
runtime's `AccountId`. The unit test instantiates it with `int`, standing in
for the test runtime's `u64` ids.

## Model

| member | source | states |
|---|---|---|
| `Portablegabi.Store.constructor` | src/lib.rs:17-27 | storage starts with both maps empty and no events, so every attester is dense |
| `Portablegabi.Store.AccumulatorCount` | src/lib.rs:23-25 | the count getter returns the stored count, or 0 for an absent attester |
| `Portablegabi.Store.AccumulatorList` | src/lib.rs:19-21 | the list getter returns `Some(bytes)` exactly when slot (a, i) is present, and then its stored bytes |
| `Portablegabi.Store.UpdateAccumulator` | src/lib.rs:36-56 | the in-place call gives the same result and new storage as `Update`; on error all three fields are unchanged; on success exactly one slot, one count and one event change; every dense attester stays dense |
| `Portablegabi.UpdateOutcome` | src/lib.rs:41-55 | the call fails with "accumulator overflow" iff the counter is u64::MAX; it fails with "inconsistent accumulator counter" iff the counter is below u64::MAX and slot (a, counter) is present; otherwise it returns Ok |
| `Portablegabi.UpdateFailureIsNoOp` | src/lib.rs:44-55 | on either error the maps and the event log are exactly as before |
| `Portablegabi.UpdateSuccess` | src/lib.rs:46-52 | on success the payload sits at index = prior counter, the count becomes counter + 1, and exactly one `Updated(a, counter + 1, payload)` is appended to the events |
| `Portablegabi.UpdateFrame` | src/lib.rs:48-50 | other attesters' counts are unchanged, no slot other than (a, prior counter) is added, removed or rewritten, and no slot is ever removed |
| `Portablegabi.UpdatePreservesDense` | src/lib.rs:46-50 | any call keeps the density invariant of every attester that had it |
| `Portablegabi.DenseNeverInconsistent` | src/lib.rs:48-54 | for a dense attester the duplicate-slot guard never fires, and the call succeeds iff the counter is below u64::MAX |
| `Portablegabi.ItWorksForDefaultValue` | src/lib.rs:153-188 | three appends by account 1 of [1,2,3], [4,5,6], [7,8,9] all return Ok; the count is then 3 and slots 0, 1, 2 hold those payloads in order |
| `Replay.GenesisDense` | src/lib.rs:23-25 | at genesis every attester is dense with an empty log |
| `Replay.UpdateAppendsToLog` | src/lib.rs:41-52 | a call by a dense attester below u64::MAX succeeds and its log becomes the old log plus the payload |
| `Replay.UpdateKeepsOtherLog` | src/lib.rs:48-50 | a call by another attester, whatever its outcome, leaves a dense attester's log and density unchanged |
| `Replay.RunAppendsPayloads` | src/lib.rs:41-50 | replaying any call sequence appends exactly the attester's own payloads, in submission order, to its log, while its count fits in u64 |
| `Replay.IndexAssignment` | src/lib.rs:41-50 | from genesis, the k-th payload an attester submits is stored at index k; its count equals its number of calls; no slot at or beyond that count exists |
| `Replay.NeverAppendedHasZeroCount` | src/lib.rs:39-41 | from genesis, an attester that never called has count 0 and no stored slot, whatever other attesters did |
| `Replay.StepSucceeds` | src/lib.rs:41-52 | when every attester is dense and below u64::MAX, a call returns Ok, keeps everyone dense, moves only the caller's count (by one) and deposits exactly `Updated(caller, new count, payload)` |
| `Replay.RunAllSucceed` | src/lib.rs:44-52 | in a replay from a state where every attester is dense and no counter can reach u64::MAX, every call returns Ok, and the event log grows by exactly one event per call, keeping the earlier events |
| `Replay.RunEventAt` | src/lib.rs:46-51 | in such a replay the j-th new event carries the j-th call's attester and payload, and as count that attester's count before the replay plus its number of calls among the first j + 1 |
| `Replay.RunEmitsOneEventPerCall` | src/lib.rs:44-52 | the whole event log of such a replay: every call returns Ok, the earlier events are kept, and exactly one event per call follows in call order, each with that call's attester, payload and the attester's new count |

## Left out

- `ensure_signed(origin)` (src/lib.rs:37) is authentication done by the runtime. The attester is an already authenticated input, so the "bad origin" error is not modelled.
- The `#[weight = 1]` annotation and the `opaque_blake2_256` storage hasher have no behaviour of their own. Keys are plain Dafny map keys.
- The `decl_storage!`, `decl_module!` and `decl_event!` macros and the `Trait` configuration are framework plumbing. `deposit_event` is modelled as appending to the `events` field.
- The test's mock runtime (src/lib.rs:91-151) is not modelled: weights, block parameters and genesis building. The test starts from empty storage.
- The host runtime's transactional rollback is not modelled. Neither failure path writes anything before it returns.
- Return value: `update_accumulator` returns `Ok(())`, not the index it wrote. The model follows that. The index is the prior counter, which `UpdateSuccess` states.
- Byte vectors have no size limit here. A limit would come from the runtime's transaction-size policy, which is not part of this model.

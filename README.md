# multipromise — completion tracking of concurrent API calls

This project models the core of `simulateApiCalls` in `index.ts`. The function
starts `apiCallCount` simulated API calls at once and keeps one state record per
call: its `id`, whether it is `complete`, and its `result`. It then loops. Each
time round, it races the promises of the still-incomplete records. It looks up
the winner's record by id with `find` and throws "This should never happen" if
no record holds that id. Otherwise it marks the record complete, stores the
result, counts the completion and logs `Finished (k/N)`. At the end it returns
the records' results in id order. Each simulated call resolves with its own id
and that id's decimal string (`id.toString()`).

Modules:

- `Wrappers` (`wrappers.dfy`): `Option` and `Result`. `Result.Failure` carries the
  message of the error the source throws.
- `Decimal` (`decimal.dfy`): `NatToString`, the decimal rendering `id.toString()`
  produces for non-negative integer ids. `DigitsValue` is its inverse. Both round
  trips are proved, and so is injectivity.
- `MultiPromise` (`multipromise.dfy`): the records, the `find` lookup
  (`FindById`, a loop over the array), the in-place update (`RecordCompletion`)
  and the race loop (`SimulateApiCalls`, a `while` loop over an array of
  records). Beside them are the specification functions and lemmas: the count of
  complete records, the loop invariant `Bookkeeping`, and the progress trace.

The race itself is not modelled. It is an oracle: `raceWinners[k]` is the id reported
by the promise that settles first in iteration `k`. `RaceOracle` states what
`Promise.race` over the incomplete records guarantees. An id that names a
record is never reported twice, because only incomplete records take part in
the race. A reported id that no record holds stands for a faulty computation,
which is the only way to reach the source's "This should never happen" throw.
The progress output is the returned sequence of `(k, N)` pairs, one per
`console.log` call.

## Model

| member | source | states |
|---|---|---|
| `Decimal.NatToString` | index.ts:14 | the result is a canonical decimal numeral: digits only, and no leading zero except in "0"; it has one digit exactly when the id is below 10 |
| `Decimal.NatToStringRoundTrip` | index.ts:14 | reading back the string of an id gives the id |
| `Decimal.CanonicalRoundTrip` | index.ts:14 | every canonical numeral is the string of the number it denotes, so the rendering is onto the canonical numerals |
| `Decimal.NatToStringInjective` | index.ts:14 | distinct ids are rendered as distinct strings |
| `MultiPromise.SimulateApiCall` | index.ts:12-15 | a call resolves with its own id and a canonical numeral that denotes that id |
| `MultiPromise.InitialState` | index.ts:28-33 | the record created for call `id`: it holds `id`, is incomplete and has result ""; `InitialStates` states this for every record of the array |
| `MultiPromise.InitialStates` | index.ts:27-33 | there are exactly `apiCallCount` records; record `i` has id `i`, is incomplete and has result ""; none is counted complete |
| `MultiPromise.CountComplete` | index.ts:35-37 | the number of complete records never exceeds the number of records |
| `MultiPromise.CountCompleteExtremes` | index.ts:37-50 | the count is 0 exactly when no record is complete, and it equals the number of records exactly when all are complete |
| `MultiPromise.CountCompleteMark` | index.ts:46-50 | completing an incomplete record raises the count by exactly one, and no complete record becomes incomplete |
| `MultiPromise.MarkComplete` | index.ts:46-47 | completing record `k` keeps the number of records and record `k`'s id, sets it complete with the given result, and leaves every other record as it was; `CountCompleteMark` and `MarkCompleteTracked` state what this does to the count and the invariant |
| `MultiPromise.MarkCompleteTracked` | index.ts:44-47 | storing a record's own result keeps every record's id and result consistent with its completion flag, and counts one more completion |
| `MultiPromise.FindFrom` | index.ts:44 | a scan from slot `k` that finds something finds a slot at or after `k` holding the id; `FindFromSpec` adds that it is the first such slot and that a miss means there is none |
| `MultiPromise.FirstWithId` | index.ts:44 | a record that `find` by id returns holds that id; `FirstWithIdSpec` adds that it is the first one and that a miss means no record holds the id |
| `MultiPromise.FirstWithIdSpec` | index.ts:44 | `find` by id yields the first record holding the id; it misses exactly when no record holds it |
| `MultiPromise.FirstWithIdIndexed` | index.ts:44-45 | over the tracked records, the lookup yields record `id` when `id < N` and misses otherwise |
| `MultiPromise.FindById` | index.ts:44 | the linear scan returns exactly what `find` by id selects |
| `MultiPromise.RecordCompletion` | index.ts:44-47 | on a miss it fails with "This should never happen" and changes nothing; on a hit it marks the first matching record complete with the winner's result and leaves every other record unchanged |
| `MultiPromise.FirstFaultSpec` | index.ts:39-45 | the run aborts at the first iteration whose reported id no record holds; every earlier report names a record; there is no abort exactly when every report names a record |
| `MultiPromise.RaceOracle` | index.ts:39-41 | the race reports one id per iteration and never reports a record's id twice; `PermutationIsAdmissibleRace` shows that every order in which the calls can settle, each id once, is admitted and has no fault |
| `MultiPromise.PermutationIsAdmissibleRace` | index.ts:39-41 | any sequence of the ids `0..N-1`, each exactly once, is a race the oracle admits, and none of its reports is faulty |
| `MultiPromise.BookkeepingInit` | index.ts:27-35 | the fresh records and a counter of 0 satisfy the loop invariant |
| `MultiPromise.BookkeepingStep` | index.ts:39-50 | if the winner names a record, the lookup finds that record, the record was still incomplete (so no record is written twice), and the invariant holds again with the counter one higher; otherwise the lookup misses, at the first faulty iteration |
| `MultiPromise.BookkeepingDone` | index.ts:37-54 | when the counter reaches `N`, every record is complete and the projection is the results in id order |
| `MultiPromise.Results` | index.ts:54 | the projection has one result per record, and over tracked records element `i` is the decimal string of `i` if record `i` is complete and "" otherwise; `ResultsInIdOrder` gives the final value |
| `MultiPromise.ResultsInIdOrder` | index.ts:54 | once every record is complete, element `i` of the projection is the decimal string of `i`, whatever the completion order |
| `MultiPromise.ExpectedResultsIdentify` | index.ts:54 | the returned results are pairwise distinct, and element `i` reads back as `i` |
| `MultiPromise.ProgressTrace` | index.ts:50-51 | after `k` completions there are `k` progress messages; `ProgressTraceShape` gives each message |
| `MultiPromise.ProgressTraceShape` | index.ts:50-51 | after `k` completions there are exactly `k` progress messages, and message `i` is `(i + 1, N)`, so they count up one by one |
| `MultiPromise.SimulateApiCalls` | index.ts:25-55 | the run succeeds exactly when no report is faulty; it then returns the decimal strings of `0..N-1` in id order, whatever the completion order, with progress `(1,N) … (N,N)`; otherwise it fails with "This should never happen" after exactly as many progress messages as iterations completed before the fault; a count of 2^32 or more fails with `Array`'s "Invalid array length" before any call starts |
| `MultiPromise.EmptyScenario` | index.ts:37 | with no calls the loop does not run: no progress and empty results |
| `MultiPromise.SingleCallScenario` | index.ts:37-54 | one call gives the single message `(1, 1)` and the results `["0"]` |
| `MultiPromise.ThreeCallsScenario` | index.ts:37-54 | three calls finishing in the order 1, 2, 0 give messages `(1,3), (2,3), (3,3)` and the results `["0", "1", "2"]` |
| `MultiPromise.UnknownIdScenario` | index.ts:44-45 | if a computation reports id 7 among three calls, the run aborts with the error after one progress message |
| `MultiPromise.OversizedScenario` | index.ts:27 | with 2^32 calls the array cannot be created: the run fails with "Invalid array length" and no progress message |

## Left out

- `Promise.race`, `setTimeout` and the async scheduling (index.ts:13-15, 39-41) are not modelled. They only decide the completion order, which is the `raceWinners` parameter.
- `rndMs` (index.ts:5-9) is left out. It uses `Math.random` and floating point, and the delay it gives only affects the completion order.
- `waitForInput` and the `process.stdin` handling (index.ts:18-21) are terminal I/O and are left out.
- The text of the `console.log` lines (index.ts:51, 59, 63) is not rendered. The progress output is kept as `(k, N)` pairs.
- The module-level call `simulateApiCalls(10)` and its `.then` chain (index.ts:57-63) are glue and are left out.
- The `promise` field of each record is dropped, because the race oracle stands in for it.
- Records are datatype values stored in an array slot. `find` returns the slot's index instead of a reference to the record, and the update writes the slot. The source keeps no other reference to a record, so no aliasing is lost.
- `apiCallCount` is a `nat`. A negative or fractional count, for which `Array(apiCallCount)` (index.ts:27) throws a `RangeError`, is not modelled. A count of 2^32 or more, for which it throws the same error, is modelled as the failure "Invalid array length" (`OversizedScenario`).
- `NatToString` gives plain decimal digits. JavaScript switches to exponent notation from 10^21 upward, far beyond any id here.
- `SimulateApiCalls` requires `RaceOracle`, so the race never reports a record that is already complete. With `Promise.race` over the incomplete records this cannot happen, and the model does not say what the loop would do if it did.
- A promise that resolves with the id of a different launched record is not modelled either. Every promise resolves with its own id (index.ts:14), and the fault case covers only ids that no record holds.

## Notes

- The program itself only calls `simulateApiCalls(10)` (index.ts:57). A count of 0 is still allowed: the loop then runs zero times and the result is empty (`EmptyScenario`).

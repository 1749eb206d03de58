/**
 * The completion tracker of `simulateApiCalls`: `apiCallCount` simulated API
 * calls are started together, a race repeatedly reports which still-pending
 * call settled next, the matching state record is marked complete with its
 * result, a progress message `Finished (k/N)` is emitted, and finally the
 * results are returned in id order.
 *
 * The race itself (timers and `Promise.race`) is not modelled: it is an
 * oracle, the sequence `raceWinners` of the ids reported by the winning
 * promise at each iteration.
 */
module MultiPromise {
  import opened Wrappers
  import opened Decimal

  /** What a simulated API call resolves with. */
  datatype ApiCallResult = ApiCallResult(id: nat, result: string)

  /** One trackable state record (its promise is left to the race oracle). */
  datatype ApiResultState = ApiResultState(id: nat, complete: bool, result: string)

  /** The message of the error thrown when the race reports an id no record holds. */
  const NeverHappens := "This should never happen"

  /** `Array(n)` throws a `RangeError` unless `n` is below this bound (2^32). */
  const ArrayLengthLimit: nat := 0x1_0000_0000

  /** The message of that `RangeError`. */
  const InvalidArrayLength := "Invalid array length"

  /** A simulated API call resolves with its own id and the decimal string of that id. */
  function SimulateApiCall(id: nat): (r: ApiCallResult)
    ensures r.id == id
    ensures Canonical(r.result) && DigitsValue(r.result) == id
  {
    NatToStringRoundTrip(id);
    ApiCallResult(id, NatToString(id))
  }

  // ---------------------------------------------------------------------------
  // The race, as an oracle

  /**
   * What the race may report. It only considers promises whose record is
   * still incomplete, and each promise resolves with its own id, so an id
   * that names a record is never reported twice. An id no record holds
   * models a computation that reports an unknown identity.
   */
  predicate RaceOracle(raceWinners: seq<nat>, apiCallCount: nat) {
    && |raceWinners| >= apiCallCount
    && forall i, j :: 0 <= i < j < apiCallCount && raceWinners[j] < apiCallCount ==>
         raceWinners[i] != raceWinners[j]
  }

  /**
   * The first iteration, from `k` on, at which the race reports an id that
   * no record holds, or `apiCallCount` if there is none.
   */
  function FaultFrom(raceWinners: seq<nat>, apiCallCount: nat, k: nat): nat
    requires |raceWinners| >= apiCallCount
    decreases apiCallCount - k
  {
    if k >= apiCallCount then apiCallCount
    else if raceWinners[k] >= apiCallCount then k
    else FaultFrom(raceWinners, apiCallCount, k + 1)
  }

  /** The iteration at which the run aborts, or `apiCallCount` if it does not. */
  function FirstFault(raceWinners: seq<nat>, apiCallCount: nat): nat
    requires |raceWinners| >= apiCallCount
  {
    FaultFrom(raceWinners, apiCallCount, 0)
  }

  /** The scan from `k` stops at the first unknown id at or after `k`, or at the end. */
  lemma {:induction false} FaultFromSpec(raceWinners: seq<nat>, apiCallCount: nat, k: nat)
    requires |raceWinners| >= apiCallCount && k <= apiCallCount
    ensures k <= FaultFrom(raceWinners, apiCallCount, k) <= apiCallCount
    ensures forall j :: k <= j < FaultFrom(raceWinners, apiCallCount, k) ==> raceWinners[j] < apiCallCount
    ensures FaultFrom(raceWinners, apiCallCount, k) < apiCallCount ==>
      raceWinners[FaultFrom(raceWinners, apiCallCount, k)] >= apiCallCount
    decreases apiCallCount - k
  {
    if k < apiCallCount && raceWinners[k] < apiCallCount {
      FaultFromSpec(raceWinners, apiCallCount, k + 1);
    }
  }

  /**
   * The run aborts at the first iteration whose reported id no record holds:
   * every earlier report names a record, and there is no abort exactly when
   * every report does.
   */
  lemma FirstFaultSpec(raceWinners: seq<nat>, apiCallCount: nat)
    requires |raceWinners| >= apiCallCount
    ensures FirstFault(raceWinners, apiCallCount) <= apiCallCount
    ensures forall j :: 0 <= j < FirstFault(raceWinners, apiCallCount) ==> raceWinners[j] < apiCallCount
    ensures FirstFault(raceWinners, apiCallCount) < apiCallCount ==>
      raceWinners[FirstFault(raceWinners, apiCallCount)] >= apiCallCount
    ensures FirstFault(raceWinners, apiCallCount) == apiCallCount <==>
      forall j :: 0 <= j < apiCallCount ==> raceWinners[j] < apiCallCount
  {
    FaultFromSpec(raceWinners, apiCallCount, 0);
  }

  /**
   * Every order in which the `apiCallCount` calls could settle, each id
   * exactly once, is a race the oracle admits, and none of it is a fault.
   */
  lemma PermutationIsAdmissibleRace(raceWinners: seq<nat>, apiCallCount: nat)
    requires |raceWinners| == apiCallCount
    requires forall j :: 0 <= j < apiCallCount ==> raceWinners[j] < apiCallCount
    requires forall i, j :: 0 <= i < j < apiCallCount ==> raceWinners[i] != raceWinners[j]
    ensures RaceOracle(raceWinners, apiCallCount)
    ensures FirstFault(raceWinners, apiCallCount) == apiCallCount
  {
    FirstFaultSpec(raceWinners, apiCallCount);
  }

  // ---------------------------------------------------------------------------
  // The state records

  /**
   * Record `i` holds id `i`; a complete record holds the decimal string of
   * its id, an incomplete one the empty string.
   */
  ghost predicate Tracked(s: seq<ApiResultState>) {
    forall i :: 0 <= i < |s| ==>
      && s[i].id == i
      && s[i].result == (if s[i].complete then NatToString(i) else "")
  }

  /**
   * Every record the race will still report, from iteration `k` on, is
   * incomplete: the race never hands back a call that already finished.
   */
  ghost predicate Pending(s: seq<ApiResultState>, raceWinners: seq<nat>, k: nat)
    requires |raceWinners| >= |s|
  {
    forall j {:trigger s[raceWinners[j]]} :: k <= j < |s| && raceWinners[j] < |s| ==> !s[raceWinners[j]].complete
  }

  /** The number of records whose call has finished. */
  function CountComplete(s: seq<ApiResultState>): (c: nat)
    ensures c <= |s|
  {
    if s == [] then 0 else (if s[0].complete then 1 else 0) + CountComplete(s[1..])
  }

  /** The state record created for call `id`: not complete, empty result. */
  function InitialState(id: nat): ApiResultState {
    ApiResultState(id, false, "")
  }

  /** The records just after the calls for `apiCallCount` ids were started. */
  function InitialStates(apiCallCount: nat): (s: seq<ApiResultState>)
    ensures |s| == apiCallCount
    ensures forall i :: 0 <= i < apiCallCount ==> s[i].id == i && !s[i].complete && s[i].result == ""
    ensures Tracked(s) && CountComplete(s) == 0
  {
    var s := seq(apiCallCount, id requires 0 <= id => InitialState(id));
    CountCompleteExtremes(s);
    s
  }

  /** Record `k` after its call finished with `result`. */
  function MarkComplete(s: seq<ApiResultState>, k: nat, result: string): (t: seq<ApiResultState>)
    requires k < |s|
    ensures |t| == |s|
    ensures t[k].id == s[k].id && t[k].complete && t[k].result == result
    ensures forall i :: 0 <= i < |s| && i != k ==> t[i] == s[i]
  {
    s[k := s[k].(complete := true, result := result)]
  }

  /** The final projection of the records to their results. */
  function Results(s: seq<ApiResultState>): (r: seq<string>)
    ensures |r| == |s|
    ensures Tracked(s) ==> forall i :: 0 <= i < |s| ==> r[i] == (if s[i].complete then NatToString(i) else "")
  {
    seq(|s|, i requires 0 <= i < |s| => s[i].result)
  }

  /** The results in id order: element `i` is the decimal string of `i`. */
  function ExpectedResults(apiCallCount: nat): seq<string> {
    seq(apiCallCount, i requires 0 <= i => NatToString(i))
  }

  /** The progress messages `(k, N)` after `k` completions out of `N`. */
  function ProgressTrace(k: nat, apiCallCount: nat): (t: seq<(nat, nat)>)
    ensures |t| == k
  {
    if k == 0 then [] else ProgressTrace(k - 1, apiCallCount) + [(k, apiCallCount)]
  }

  /** No call counted complete means none is; all counted complete means all are. */
  lemma {:induction false} CountCompleteExtremes(s: seq<ApiResultState>)
    ensures CountComplete(s) == 0 <==> forall i :: 0 <= i < |s| ==> !s[i].complete
    ensures CountComplete(s) == |s| <==> forall i :: 0 <= i < |s| ==> s[i].complete
  {
    if s != [] {
      CountCompleteExtremes(s[1..]);
      assert forall i :: 1 <= i < |s| ==> s[i] == s[1..][i - 1];
    }
  }

  /**
   * Completing an incomplete record raises the count by exactly one, and no
   * record that was complete becomes incomplete.
   */
  lemma {:induction false} CountCompleteMark(s: seq<ApiResultState>, k: nat, result: string)
    requires k < |s| && !s[k].complete
    ensures CountComplete(MarkComplete(s, k, result)) == CountComplete(s) + 1
    ensures forall i :: 0 <= i < |s| && s[i].complete ==> MarkComplete(s, k, result)[i].complete
  {
    var t := MarkComplete(s, k, result);
    if k == 0 {
      assert t[1..] == s[1..];
    } else {
      assert t[1..] == MarkComplete(s[1..], k - 1, result);
      CountCompleteMark(s[1..], k - 1, result);
    }
  }

  /** Completing an incomplete record with its own result keeps the records tracked. */
  lemma MarkCompleteTracked(s: seq<ApiResultState>, id: nat)
    requires Tracked(s) && id < |s| && !s[id].complete
    ensures Tracked(MarkComplete(s, id, NatToString(id)))
    ensures CountComplete(MarkComplete(s, id, NatToString(id))) == CountComplete(s) + 1
  {
    var t := MarkComplete(s, id, NatToString(id));
    CountCompleteMark(s, id, NatToString(id));
    forall i | 0 <= i < |t|
      ensures t[i].id == i && t[i].result == (if t[i].complete then NatToString(i) else "")
    {
      if i != id {
        assert t[i] == s[i];
      }
    }
  }

  /**
   * Once every record is complete the projection is in id order, whatever
   * order the calls finished in.
   */
  lemma ResultsInIdOrder(s: seq<ApiResultState>)
    requires Tracked(s) && CountComplete(s) == |s|
    ensures Results(s) == ExpectedResults(|s|)
  {
    CountCompleteExtremes(s);
  }

  /** The results are pairwise distinct, and each one reads back as its index. */
  lemma ExpectedResultsIdentify(apiCallCount: nat)
    ensures |ExpectedResults(apiCallCount)| == apiCallCount
    ensures forall i :: 0 <= i < apiCallCount ==> DigitsValue(ExpectedResults(apiCallCount)[i]) == i
    ensures forall i, j :: 0 <= i < j < apiCallCount ==>
      ExpectedResults(apiCallCount)[i] != ExpectedResults(apiCallCount)[j]
  {
    forall i | 0 <= i < apiCallCount
      ensures DigitsValue(ExpectedResults(apiCallCount)[i]) == i
    {
      NatToStringRoundTrip(i);
    }
  }

  /** The k-th progress message is `(k, N)`: exactly one per completion, counting up. */
  lemma {:induction false} ProgressTraceShape(k: nat, apiCallCount: nat)
    ensures |ProgressTrace(k, apiCallCount)| == k
    ensures forall i :: 0 <= i < k ==> ProgressTrace(k, apiCallCount)[i] == (i + 1, apiCallCount)
  {
    if k > 0 {
      ProgressTraceShape(k - 1, apiCallCount);
    }
  }

  // ---------------------------------------------------------------------------
  // Finding a record by id

  /** The first record at or after index `k` that holds `id`, scanning upward. */
  function FindFrom(s: seq<ApiResultState>, id: nat, k: nat): (r: Option<nat>)
    ensures r.Some? ==> k <= r.value < |s| && s[r.value].id == id
    decreases |s| - k
  {
    if k >= |s| then None
    else if s[k].id == id then Some(k)
    else FindFrom(s, id, k + 1)
  }

  /** What `find` by id selects: the first record holding `id`, if there is one. */
  function FirstWithId(s: seq<ApiResultState>, id: nat): (r: Option<nat>)
    ensures r.Some? ==> r.value < |s| && s[r.value].id == id
  {
    FindFrom(s, id, 0)
  }

  /** The scan from `k` finds the first match at or after `k`, and misses only when there is none. */
  lemma {:induction false} FindFromSpec(s: seq<ApiResultState>, id: nat, k: nat)
    ensures FindFrom(s, id, k).Some? ==>
      && k <= FindFrom(s, id, k).value < |s|
      && s[FindFrom(s, id, k).value].id == id
      && forall j :: k <= j < FindFrom(s, id, k).value ==> s[j].id != id
    ensures FindFrom(s, id, k).None? <==> forall j :: k <= j < |s| ==> s[j].id != id
    decreases |s| - k
  {
    if k < |s| && s[k].id != id {
      FindFromSpec(s, id, k + 1);
    }
  }

  /** `find` by id returns the first record holding `id`, and misses exactly when no record does. */
  lemma FirstWithIdSpec(s: seq<ApiResultState>, id: nat)
    ensures FirstWithId(s, id).Some? ==>
      && FirstWithId(s, id).value < |s|
      && s[FirstWithId(s, id).value].id == id
      && forall j :: 0 <= j < FirstWithId(s, id).value ==> s[j].id != id
    ensures FirstWithId(s, id).None? <==> forall j :: 0 <= j < |s| ==> s[j].id != id
  {
    FindFromSpec(s, id, 0);
  }

  /**
   * Over tracked records, the lookup finds the record of every launched id
   * and misses exactly the ids that were never launched.
   */
  lemma FirstWithIdIndexed(s: seq<ApiResultState>, id: nat)
    requires Tracked(s)
    ensures FirstWithId(s, id) == if id < |s| then Some(id) else None
  {
    FirstWithIdSpec(s, id);
    if id < |s| {
      assert s[id].id == id;
    }
  }

  /** `Array.prototype.find` by id: a linear scan for the first record holding `id`. */
  method FindById(apiResultStates: array<ApiResultState>, id: nat) returns (found: Option<nat>)
    ensures found == FirstWithId(apiResultStates[..], id)
  {
    var k := 0;
    while k < apiResultStates.Length
      invariant k <= apiResultStates.Length
      invariant FindFrom(apiResultStates[..], id, k) == FirstWithId(apiResultStates[..], id)
    {
      if apiResultStates[k].id == id {
        return Some(k);
      }
      k := k + 1;
    }
    return None;
  }

  /**
   * Looks up the record of the race winner and stores its result in place.
   * A winner whose id no record holds is an error, and nothing is updated.
   */
  method RecordCompletion(apiResultStates: array<ApiResultState>, winner: ApiCallResult)
    returns (r: Result<nat>)
    modifies apiResultStates
    ensures r.Failure? <==> FirstWithId(old(apiResultStates[..]), winner.id).None?
    ensures r.Failure? ==>
      r.message == NeverHappens && apiResultStates[..] == old(apiResultStates[..])
    ensures r.Success? ==>
      && FirstWithId(old(apiResultStates[..]), winner.id) == Some(r.value)
      && r.value < apiResultStates.Length
      && apiResultStates[..] == MarkComplete(old(apiResultStates[..]), r.value, winner.result)
  {
    var found := FindById(apiResultStates, winner.id);
    if found.None? {
      return Failure(NeverHappens);
    }
    FirstWithIdSpec(apiResultStates[..], winner.id);
    var k := found.value;
    apiResultStates[k] := apiResultStates[k].(complete := true);
    apiResultStates[k] := apiResultStates[k].(result := winner.result);
    r := Success(k);
  }

  // ---------------------------------------------------------------------------
  // The race loop

  /**
   * The invariant of the race loop after `k` iterations: the records are
   * tracked, the counter `k` equals the number of complete records, every
   * record the race still reports is incomplete, and no report so far named
   * an unknown id.
   */
  ghost predicate Bookkeeping(s: seq<ApiResultState>, raceWinners: seq<nat>, apiCallCount: nat, k: nat) {
    && |s| == apiCallCount
    && |raceWinners| >= apiCallCount
    && Tracked(s)
    && Pending(s, raceWinners, k)
    && CountComplete(s) == k
    && FaultFrom(raceWinners, apiCallCount, k) == FirstFault(raceWinners, apiCallCount)
  }

  /** Before the first iteration, the freshly initialised records satisfy the invariant. */
  lemma BookkeepingInit(raceWinners: seq<nat>, apiCallCount: nat)
    requires |raceWinners| >= apiCallCount
    ensures Bookkeeping(InitialStates(apiCallCount), raceWinners, apiCallCount, 0)
  {
  }

  /** After the last iteration every record is complete and the results are in id order. */
  lemma BookkeepingDone(s: seq<ApiResultState>, raceWinners: seq<nat>, apiCallCount: nat)
    requires Bookkeeping(s, raceWinners, apiCallCount, apiCallCount)
    ensures forall i :: 0 <= i < apiCallCount ==> s[i].complete
    ensures Results(s) == ExpectedResults(apiCallCount)
    ensures FirstFault(raceWinners, apiCallCount) == apiCallCount
  {
    CountCompleteExtremes(s);
    ResultsInIdOrder(s);
  }

  /**
   * One iteration of the race loop. If the winner names a record, the lookup
   * finds exactly that record, it was still incomplete (so no record is
   * written twice), and completing it keeps the invariant with the counter
   * one higher. If it names no record, the lookup misses, and this is the
   * first iteration at which that happens.
   */
  lemma BookkeepingStep(s: seq<ApiResultState>, raceWinners: seq<nat>, apiCallCount: nat, k: nat)
    requires RaceOracle(raceWinners, apiCallCount)
    requires Bookkeeping(s, raceWinners, apiCallCount, k) && k < apiCallCount
    ensures raceWinners[k] < apiCallCount ==>
      && FirstWithId(s, raceWinners[k]) == Some(raceWinners[k])
      && !s[raceWinners[k]].complete
      && Bookkeeping(MarkComplete(s, raceWinners[k], NatToString(raceWinners[k])), raceWinners, apiCallCount, k + 1)
    ensures raceWinners[k] >= apiCallCount ==>
      && FirstWithId(s, raceWinners[k]).None?
      && FirstFault(raceWinners, apiCallCount) == k
  {
    var id := raceWinners[k];
    FirstWithIdIndexed(s, id);
    if id < apiCallCount {
      var t := MarkComplete(s, id, NatToString(id));
      MarkCompleteTracked(s, id);
      forall j | k + 1 <= j < |t| && raceWinners[j] < |t|
        ensures !t[raceWinners[j]].complete
      {
        assert raceWinners[j] != id;
      }
    }
  }

  /**
   * Starts `apiCallCount` calls, records each completion the race reports,
   * and returns the results in id order, with one progress message
   * `(k, apiCallCount)` per completion. If the race reports an id that no
   * record holds, the run aborts with the "should never happen" error. A
   * count too large for an array fails before any call is started.
   */
  method SimulateApiCalls(apiCallCount: nat, raceWinners: seq<nat>)
    returns (r: Result<seq<string>>, progress: seq<(nat, nat)>)
    requires RaceOracle(raceWinners, apiCallCount)
    ensures apiCallCount >= ArrayLengthLimit ==> r == Failure(InvalidArrayLength) && progress == []
    ensures apiCallCount < ArrayLengthLimit ==>
      (r.Success? <==> FirstFault(raceWinners, apiCallCount) == apiCallCount)
    ensures r.Success? ==>
      && r.value == ExpectedResults(apiCallCount)
      && progress == ProgressTrace(apiCallCount, apiCallCount)
    ensures r.Failure? && apiCallCount < ArrayLengthLimit ==>
      && r.message == NeverHappens
      && |progress| == FirstFault(raceWinners, apiCallCount) < apiCallCount
      && progress == ProgressTrace(|progress|, apiCallCount)
  {
    if apiCallCount >= ArrayLengthLimit {
      return Failure(InvalidArrayLength), [];
    }
    var apiResultStates := new ApiResultState[apiCallCount](InitialState);
    assert apiResultStates[..] == InitialStates(apiCallCount);
    BookkeepingInit(raceWinners, apiCallCount);
    var apiCallsCompleted: nat := 0;
    progress := [];
    while apiCallsCompleted < apiCallCount
      invariant apiCallsCompleted <= apiCallCount
      invariant Bookkeeping(apiResultStates[..], raceWinners, apiCallCount, apiCallsCompleted)
      invariant progress == ProgressTrace(apiCallsCompleted, apiCallCount)
    {
      // the race: the first still-pending call to settle reports its id and result
      var id := raceWinners[apiCallsCompleted];
      var winner := SimulateApiCall(id);
      ghost var before := apiResultStates[..];
      BookkeepingStep(before, raceWinners, apiCallCount, apiCallsCompleted);
      var settled := RecordCompletion(apiResultStates, winner);
      if settled.Failure? {
        ProgressTraceShape(apiCallsCompleted, apiCallCount);
        r := Failure(settled.message);
        return;
      }
      assert apiResultStates[..] == MarkComplete(before, id, NatToString(id));
      apiCallsCompleted := apiCallsCompleted + 1;
      progress := progress + [(apiCallsCompleted, apiCallCount)];
    }
    BookkeepingDone(apiResultStates[..], raceWinners, apiCallCount);
    r := Success(Results(apiResultStates[..]));
  }

  // ---------------------------------------------------------------------------
  // Scenarios

  /** No calls: the loop does not run, nothing is reported, the results are empty. */
  method EmptyScenario() returns (r: Result<seq<string>>, progress: seq<(nat, nat)>)
    ensures r == Success([]) && progress == []
  {
    r, progress := SimulateApiCalls(0, []);
  }

  /** One call: one progress message `(1, 1)` and the results `["0"]`. */
  method SingleCallScenario() returns (r: Result<seq<string>>, progress: seq<(nat, nat)>)
    ensures r == Success(["0"]) && progress == [(1, 1)]
  {
    r, progress := SimulateApiCalls(1, [0]);
    assert ExpectedResults(1) == [NatToString(0)];
  }

  /** Three calls finishing in the order 1, 2, 0: the results are still in id order. */
  method ThreeCallsScenario() returns (r: Result<seq<string>>, progress: seq<(nat, nat)>)
    ensures r == Success(["0", "1", "2"]) && progress == [(1, 3), (2, 3), (3, 3)]
  {
    r, progress := SimulateApiCalls(3, [1, 2, 0]);
    assert ExpectedResults(3) == [NatToString(0), NatToString(1), NatToString(2)];
  }

  /** A computation reporting id 7 among three calls: the run aborts after one completion. */
  method UnknownIdScenario() returns (r: Result<seq<string>>, progress: seq<(nat, nat)>)
    ensures r == Failure(NeverHappens) && progress == [(1, 3)]
  {
    r, progress := SimulateApiCalls(3, [1, 7, 0]);
  }

  /** 2^32 calls, settling in id order: the array cannot be created, so nothing starts. */
  method OversizedScenario() returns (r: Result<seq<string>>, progress: seq<(nat, nat)>)
    ensures r == Failure(InvalidArrayLength) && progress == []
  {
    var inOrder := seq(ArrayLengthLimit, i requires 0 <= i => i as nat);
    r, progress := SimulateApiCalls(ArrayLengthLimit, inOrder);
  }
}

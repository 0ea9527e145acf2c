/**
 * The prediction status holder of react-frontend/src/hooks/usePrediction.ts: one
 * `{result, loading, error}` record, overwritten wholesale by `predict`, `reset` and
 * `setError`. The network call is replaced by its outcome, which the caller supplies.
 */
module UsePrediction {
  import opened Options

  /** `PredictionResult`: the predicted class and its confidence. */
  datatype PredictionResult = PredictionResult(prediction: real, confidence: real)

  /** `PredictionState`; `result == None` is `result: null`. */
  datatype PredictionState = PredictionState(result: Option<PredictionResult>, loading: bool, error: string)

  /** A value thrown by `fetch` or `response.json()`: an `Error` object or anything else. */
  datatype Thrown = ErrorObject(message: string) | NonErrorValue

  /** How a promise settles. */
  datatype Settled<T> = Fulfilled(value: T) | Rejected(reason: Thrown)

  /**
   * What the network does with one request: `fetch` rejects, or a response arrives with its
   * `ok` flag and the settlement of `response.json()`.
   */
  datatype FetchOutcome =
    | NetworkRejected(reason: Thrown)
    | Responded(ok: bool, body: Settled<PredictionResult>)

  /** The message thrown for a response whose status is not ok. */
  const FETCH_FAILED_MESSAGE: string := "予測の取得に失敗しました"

  /** The message shown when something other than an `Error` is thrown. */
  const UNKNOWN_ERROR_MESSAGE: string := "エラーが発生しました"

  /** `fetchPrediction`, given what the network does. */
  function FetchPrediction(outcome: FetchOutcome): (r: Settled<PredictionResult>)
    ensures r.Fulfilled? <==> outcome.Responded? && outcome.ok && outcome.body.Fulfilled?
    ensures r.Fulfilled? ==> r.value == outcome.body.value
    ensures outcome.Responded? && !outcome.ok ==> r == Rejected(ErrorObject(FETCH_FAILED_MESSAGE))
    ensures outcome.Responded? && outcome.ok ==> r == outcome.body
    ensures outcome.NetworkRejected? ==> r == Rejected(outcome.reason)
  {
    match outcome
    case NetworkRejected(reason) => Rejected(reason)
    case Responded(ok, body) =>
      if !ok then Rejected(ErrorObject(FETCH_FAILED_MESSAGE)) else body
  }

  /** `err instanceof Error ? err.message : 'エラーが発生しました'`. */
  function ErrorText(err: Thrown): (text: string)
    ensures err.ErrorObject? ==> text == err.message
    ensures err.NonErrorValue? ==> text == UNKNOWN_ERROR_MESSAGE
    ensures text == "" ==> err.ErrorObject? && err.message == ""
  {
    match err
    case ErrorObject(message) => message
    case NonErrorValue => UNKNOWN_ERROR_MESSAGE
  }

  /** The state before any call, and after `reset`. */
  const IDLE: PredictionState := PredictionState(None, false, "")

  /** The state `predict` enters before awaiting. */
  const LOADING: PredictionState := PredictionState(None, true, "")

  /** The state `predict` leaves after its await settles. */
  function SettledState(settled: Settled<PredictionResult>): (s: PredictionState)
    ensures !s.loading
    ensures s.result.Some? <==> settled.Fulfilled?
    ensures settled.Fulfilled? ==> s == PredictionState(Some(settled.value), false, "")
    ensures settled.Rejected? && settled.reason.NonErrorValue? ==> s.error == UNKNOWN_ERROR_MESSAGE
    ensures settled.Rejected? && settled.reason.ErrorObject? ==> s.error == settled.reason.message
  {
    match settled
    case Fulfilled(result) => PredictionState(Some(result), false, "")
    case Rejected(err) => PredictionState(None, false, ErrorText(err))
  }

  /** The invariant of every state: loading shows neither result nor error, and an error hides any result. */
  predicate Consistent(s: PredictionState)
  {
    (s.loading ==> s.result.None? && s.error == "") &&
    (s.error != "" ==> s.result.None?)
  }

  /** The writes the hook makes to its state slot. */
  datatype StateWrite =
    | BeginPredict                                // `predict`, before its await
    | FinishPredict(outcome: FetchOutcome)        // `predict`, after its await
    | Reset                                       // `reset`
    | SetError(message: string)                   // `setError`

  /** The state after one write; each write replaces the whole record. */
  function Apply(s: PredictionState, w: StateWrite): (next: PredictionState)
    ensures Consistent(next)
    ensures w.BeginPredict? ==> next.loading && next.result.None? && next.error == ""
    ensures w.Reset? ==> next == IDLE
    ensures w.SetError? ==> next.result.None? && !next.loading && next.error == w.message
    ensures w.FinishPredict? ==>
      !next.loading &&
      (next.result.Some? <==> w.outcome.Responded? && w.outcome.ok && w.outcome.body.Fulfilled?)
  {
    match w
    case BeginPredict => LOADING
    case FinishPredict(outcome) => SettledState(FetchPrediction(outcome))
    case Reset => IDLE
    case SetError(message) => PredictionState(None, false, message)
  }

  /** The writes applied one after another, left to right. */
  function Run(s: PredictionState, writes: seq<StateWrite>): PredictionState
    decreases |writes|
  {
    if writes == [] then s else Run(Apply(s, writes[0]), writes[1..])
  }

  /** Running two writes is applying the first, then the second. */
  lemma RunTwo(s: PredictionState, first: StateWrite, second: StateWrite)
    ensures Run(s, [first, second]) == Apply(Apply(s, first), second)
  {
    var s1 := Apply(s, first);
    assert [first, second][1..] == [second];
    assert Run(s, [first, second]) == Run(s1, [second]);
    assert [second][1..] == [];
    assert Run(s1, [second]) == Run(Apply(s1, second), []);
  }

  /** Running `a + b` is running `a`, then `b`. */
  lemma {:induction false} RunAppend(s: PredictionState, a: seq<StateWrite>, b: seq<StateWrite>)
    ensures Run(s, a + b) == Run(Run(s, a), b)
    decreases |a|
  {
    if a == [] {
      assert a + b == b;
    } else {
      assert (a + b)[1..] == a[1..] + b;
      RunAppend(Apply(s, a[0]), a[1..], b);
    }
  }

  /** Every state reachable from a consistent one, whatever order the writes arrive in, is consistent. */
  lemma {:induction false} RunKeepsConsistent(s: PredictionState, writes: seq<StateWrite>)
    requires Consistent(s)
    ensures Consistent(Run(s, writes))
    decreases |writes|
  {
    if writes != [] {
      RunKeepsConsistent(Apply(s, writes[0]), writes[1..]);
    }
  }

  /** In particular every state the hook can reach from its initial state is consistent. */
  lemma ReachableStatesConsistent(writes: seq<StateWrite>)
    ensures Consistent(Run(IDLE, writes))
  {
    RunKeepsConsistent(IDLE, writes);
  }

  /**
   * A submission answered with a non-ok status clears the shown prediction and shows the
   * fixed failure message; a following successful submission clears the error and shows
   * the new result.
   */
  lemma FailureThenSuccess(s: PredictionState, r: PredictionResult, body: Settled<PredictionResult>)
    ensures Run(s, [BeginPredict, FinishPredict(Responded(false, body))])
         == PredictionState(None, false, FETCH_FAILED_MESSAGE)
    ensures Run(s, [BeginPredict, FinishPredict(Responded(false, body)),
                    BeginPredict, FinishPredict(Responded(true, Fulfilled(r)))])
         == PredictionState(Some(r), false, "")
  {
    var failed := FinishPredict(Responded(false, body));
    var succeeded := FinishPredict(Responded(true, Fulfilled(r)));
    var afterFailure := PredictionState(None, false, FETCH_FAILED_MESSAGE);
    RunTwo(s, BeginPredict, failed);
    assert Apply(Apply(s, BeginPredict), failed) == afterFailure;
    RunTwo(afterFailure, BeginPredict, succeeded);
    RunAppend(s, [BeginPredict, failed], [BeginPredict, succeeded]);
    assert [BeginPredict, failed] + [BeginPredict, succeeded] == [BeginPredict, failed, BeginPredict, succeeded];
  }

  /**
   * Nothing discards a stale response: a `reset` issued while a request is in flight is
   * overwritten when that request's response arrives.
   */
  lemma StaleResponseOverwritesReset(s: PredictionState, r: PredictionResult)
    ensures Run(s, [BeginPredict, Reset, FinishPredict(Responded(true, Fulfilled(r)))])
         == PredictionState(Some(r), false, "")
  {
    var finished := FinishPredict(Responded(true, Fulfilled(r)));
    RunTwo(Apply(s, BeginPredict), Reset, finished);
    assert [BeginPredict, Reset, finished][1..] == [Reset, finished];
  }

  /** The hook: one state slot, written through `setState`. */
  class PredictionHook {
    var state: PredictionState

    /** `useState({result: null, loading: false, error: ''})`. */
    constructor ()
      ensures state == IDLE
    {
      state := IDLE;
    }

    /** The first half of `predict`: enter loading, dropping any earlier result or error. */
    method BeginPredict()
      modifies this
      ensures state == PredictionState(None, true, "")
      ensures state == Apply(old(state), StateWrite.BeginPredict)
    {
      state := LOADING;
    }

    /**
     * The second half of `predict`, once `fetchPrediction` settles. It does not require
     * that the hook is still loading: a response may arrive after a `reset` or a later
     * `predict`.
     */
    method FinishPredict(outcome: FetchOutcome)
      modifies this
      ensures state == Apply(old(state), StateWrite.FinishPredict(outcome))
      ensures !state.loading
      ensures FetchPrediction(outcome).Fulfilled? ==> state == PredictionState(Some(FetchPrediction(outcome).value), false, "")
      ensures FetchPrediction(outcome).Rejected? ==> state == PredictionState(None, false, ErrorText(FetchPrediction(outcome).reason))
    {
      state := SettledState(FetchPrediction(outcome));
    }

    /** `predict` with no other write between its two halves. */
    method Predict(outcome: FetchOutcome)
      modifies this
      ensures state == Run(old(state), [StateWrite.BeginPredict, StateWrite.FinishPredict(outcome)])
      ensures state == SettledState(FetchPrediction(outcome))
    {
      BeginPredict();
      FinishPredict(outcome);
      RunTwo(old(state), StateWrite.BeginPredict, StateWrite.FinishPredict(outcome));
    }

    /** `reset`. */
    method Reset()
      modifies this
      ensures state == PredictionState(None, false, "")
      ensures state == Apply(old(state), StateWrite.Reset)
    {
      state := IDLE;
    }

    /** `setError`. */
    method SetError(message: string)
      modifies this
      ensures state == PredictionState(None, false, message)
      ensures state == Apply(old(state), StateWrite.SetError(message))
    {
      state := PredictionState(None, false, message);
    }
  }
}

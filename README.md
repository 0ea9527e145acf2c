# Client-side logic of the PyTorch/React prediction demo, in Dafny

This project models the four pieces of logic in the React front end that go beyond rendering:

- **Feature validation** (`feature_validation.dfy`, module `FeatureValidation`): the `Result` sum type, the non-empty checks on the feature form's text inputs, conversion of one input and of the whole vector to numbers (which stops at the first input that is not a number), and the copy-on-write point update of the input vector.
- **Tab state machine** (`tab_types.dfy`, `use_tabs.dfy`, modules `TabTypes` and `UseTabs`): four fixed tab ids, an active pointer and one context per tab. `createInitialState` and `transition` are pure functions. The hook `useTabs` is a class `TabsHook` whose held state each callback replaces with the result of `transition`.
- **Result transformer** (`bearing_types.dfy`, `bearing_prediction.dfy`, modules `BearingTypes` and `BearingPrediction`): `transformResponse` pairs each section's class names with their parsed probabilities. It then picks the recommended index with the left-to-right `reduce`, where the first maximum wins. The fixed response of `mockPredictAPI` serves as a test vector.
- **Prediction status holder** (`use_prediction.dfy`, module `UsePrediction`): the `{result, loading, error}` record of `usePrediction`, as a class `PredictionHook`. `predict` starts loading and then settles. `reset` and `setError` are also modelled. A pure function `Apply` over the hook's state writes, and `Run` over sequences of them, carry the invariant about every reachable state.

JavaScript's `parseFloat` is left uninterpreted. Every operation that parses takes it as a parameter `parse: string -> Option<real>`, where `None` stands for NaN (module `JsNumbers`). JavaScript's `>` on numbers is `JsNumbers.Greater`, which is false whenever either side is NaN. The network is replaced by the outcome of the call (`UsePrediction.FetchOutcome`), which the caller supplies.

Three behaviours of the code that are easy to misread:

- A network failure does not produce a fixed message. `fetch` rejects with an `Error`, and `predict` shows that error's own message. Only a response whose status is not ok gets the fixed message `予測の取得に失敗しました`. Something thrown that is not an `Error` gets `エラーが発生しました`.
- `transformResponse` does not need the two arrays of a section to have equal length. A position past the end of `Probabilities` reads `undefined`, which parses to NaN, and the model says so (`BearingPrediction.ProbabilityAt`).
- An empty section yields recommended index 0, which names no item. The model states this case and does not exclude it.

## Model

| member | source | states |
|---|---|---|
| FeatureValidation.InvalidNumberMessage | react-frontend/src/utils/featureValidation.ts:17 | the message is the input in double quotes followed by the fixed suffix, so it embeds the input at positions 1 to its length |
| FeatureValidation.IsNonEmpty | react-frontend/src/utils/featureValidation.ts:7 | true exactly when the string has at least one character |
| FeatureValidation.AreAllFeaturesValid | react-frontend/src/utils/featureValidation.ts:10-11 | true exactly when no input is the empty string (so true for no inputs) |
| FeatureValidation.ParseNumber | react-frontend/src/utils/featureValidation.ts:14-19 | succeeds exactly when the parse is not NaN, with the parsed value; otherwise fails with the message that embeds the input |
| FeatureValidation.FindFirstFailure | react-frontend/src/utils/featureValidation.ts:26 | finds nothing exactly when every result succeeded; otherwise finds a failure with only successes before it |
| FeatureValidation.SuccessData | react-frontend/src/utils/featureValidation.ts:33-35 | never longer than its input; when every result succeeded, it holds every result's data in order |
| FeatureValidation.ParseAll | react-frontend/src/utils/featureValidation.ts:23 | one parse result per input, each the `parseNumber` of that input |
| FeatureValidation.ParseFeatures | react-frontend/src/utils/featureValidation.ts:22-38 | succeeds exactly when every input parses, with same length and the parse of input i at position i; on failure, the error is the message of the lowest-indexed input that does not parse |
| FeatureValidation.UpdateAtIndex | react-frontend/src/utils/featureValidation.ts:41-42 | same length as the input; for an index in range, the input with that one position replaced; for any other index, equal to the input |
| FeatureValidation.ParseFeaturesStopsAtFirstFailure | react-frontend/src/utils/featureValidation.ts:25-30 | `["1","2","x","4","5"]` fails with the message for `"x"`, whatever the later inputs parse to |
| FeatureValidation.ParseFeaturesAllNumbers | react-frontend/src/utils/featureValidation.ts:32-37 | `["1","2","3","4","5"]` converts to `[1,2,3,4,5]` |
| FeatureValidation.UpdateAtIndexExample | react-frontend/src/utils/featureValidation.ts:41-42 | updating position 1 of `["a","b","c"]` with `"Z"` gives `["a","Z","c"]` |
| TabTypes.TabContexts.With | react-frontend/src/hooks/useTabs.ts:26-29 | the replaced tab has the new context; every other tab keeps its context |
| UseTabs.CreateInitialContext | react-frontend/src/hooks/useTabs.ts:5 | the initial context's input is empty |
| UseTabs.CreateInitialState | react-frontend/src/hooks/useTabs.ts:8-16 | tab 1 is active and all four tabs have an empty input |
| UseTabs.Transition | react-frontend/src/hooks/useTabs.ts:19-33 | `SWITCH_TAB` sets the active tab and keeps all contexts; `UPDATE_CONTEXT` keeps the active tab, sets the named tab's input and keeps every other tab's context |
| UseTabs.SwitchTabIdempotent | react-frontend/src/hooks/useTabs.ts:20-22 | switching to a tab twice is switching once |
| UseTabs.UpdateContextLastWriteWins | react-frontend/src/hooks/useTabs.ts:23-31 | of two updates of the same tab, only the last one is visible |
| UseTabs.RunPreservesUntouchedContext | react-frontend/src/hooks/useTabs.ts:19-33 | any run of events that never updates a tab leaves that tab's context as it was |
| UseTabs.SwitchBackRestoresContext | react-frontend/src/hooks/useTabs.ts:46-49 | switching away, running events that do not update the original tab, and switching back shows the original context again |
| UseTabs.RunLast | react-frontend/src/hooks/useTabs.ts:38-44 | running events and then one more event is the transition applied to the earlier run |
| UseTabs.SwitchThenUpdateExample | react-frontend/src/hooks/useTabs.ts:19-33 | from the initial state, switching to tab 3 and typing `x` there gives tab 3 active with input `x`, and tab 1 is unchanged |
| UseTabs.TabsHook.constructor | react-frontend/src/hooks/useTabs.ts:36 | the hook starts in the initial state |
| UseTabs.TabsHook.SwitchTab | react-frontend/src/hooks/useTabs.ts:38-40 | the new state is the transition of the old one: the tab is active and all contexts are unchanged, so the current context is the one that tab held before |
| UseTabs.TabsHook.UpdateTabContext | react-frontend/src/hooks/useTabs.ts:42-44 | the new state is the transition of the old one: same active tab, the named tab holds the new input, other tabs unchanged; the current context changes only when the active tab is the one updated |
| BearingPrediction.ProbabilityAt | react-frontend/src/utils/bearingPrediction.ts:10 | within the probabilities, the parse of the string at that position; past their end, NaN (the parse of `undefined`); the contract states what it computes |
| BearingPrediction.Items | react-frontend/src/utils/bearingPrediction.ts:9-12 | one item per class name; item i pairs class i with the parse of probability i, or NaN past the end of the probabilities |
| BearingPrediction.ArgMaxPrefix | react-frontend/src/utils/bearingPrediction.ts:14-18 | after k > 0 items the accumulator is below k; when those items are numbers it has the greatest probability among them, and every earlier item's is strictly smaller |
| BearingPrediction.RecommendedIndex | react-frontend/src/utils/bearingPrediction.ts:14-18 | 0 for no items; otherwise a valid index, the position of a maximum, with strictly smaller probabilities before it (first maximum wins) when all items are numbers |
| BearingPrediction.TransformSection | react-frontend/src/utils/bearingPrediction.ts:7-20 | the section carries its name and its items; the recommended index is 0 for an empty section and valid otherwise |
| BearingPrediction.TransformResponse | react-frontend/src/utils/bearingPrediction.ts:6-21 | exactly three sections, named Ring, Ball and Arrangement in that order, each transformed from the matching part of the response |
| BearingPrediction.NaNFirstPinsIndex | react-frontend/src/utils/bearingPrediction.ts:14-18 | when the first probability is NaN, the scan never moves off index 0 |
| BearingPrediction.NumberFirstPicksNumericMaximum | react-frontend/src/utils/bearingPrediction.ts:14-18 | when the first probability is a number, the chosen item is a number at least every numeric probability of the prefix, and above every numeric probability before it: NaN items are never chosen |
| BearingPrediction.RecommendedIsFirstMaximum | react-frontend/src/utils/bearingPrediction.ts:14-18 | in a non-empty section whose probabilities all parse, the recommended item is a maximum and every item before it is strictly smaller |
| BearingPrediction.MockRecommendations | react-frontend/src/utils/bearingPrediction.ts:28-41 | with decimal parsing, the mock response recommends index 1 for Ring, 0 for Ball and 0 for Arrangement |
| UsePrediction.FetchPrediction | react-frontend/src/hooks/usePrediction.ts:15-31 | fulfils exactly when a response arrives with ok set and its body decodes; for an ok response the result is exactly how `response.json()` settles, including its rejection; a not-ok response rejects with the fixed failure message; a network rejection passes through |
| UsePrediction.ErrorText | react-frontend/src/hooks/usePrediction.ts:63 | an `Error`'s own message, or the fixed fallback for anything else; the fallback is never empty, so an empty text means an `Error` with an empty message; the contract states what it computes |
| UsePrediction.SettledState | react-frontend/src/hooks/usePrediction.ts:50-65 | never loading; a result exactly on fulfilment, with an empty error; on rejection, the thrown error's message, or the fixed fallback for a non-`Error` value |
| UsePrediction.Apply | react-frontend/src/hooks/usePrediction.ts:44-84 | every write yields a consistent state; starting loads with no result or error; reset idles; `setError` shows only the message; finishing stops loading with a result exactly on success |
| UsePrediction.RunTwo | react-frontend/src/hooks/usePrediction.ts:42-66 | running two writes applies the first and then the second |
| UsePrediction.RunAppend | react-frontend/src/hooks/usePrediction.ts:42-84 | running two batches of writes in turn is running them joined |
| UsePrediction.RunKeepsConsistent | react-frontend/src/hooks/usePrediction.ts:44-84 | from a consistent state, any sequence of writes, in any order, ends in a consistent state |
| UsePrediction.ReachableStatesConsistent | react-frontend/src/hooks/usePrediction.ts:35-84 | every state reachable from the initial state: loading implies no result and no error, and an error implies no result |
| UsePrediction.FailureThenSuccess | react-frontend/src/hooks/usePrediction.ts:44-64 | a not-ok submission ends with no result and the fixed failure message; a following successful one ends with the new result and no error |
| UsePrediction.StaleResponseOverwritesReset | react-frontend/src/hooks/usePrediction.ts:42-75 | a reset made while a request is in flight is overwritten when that request succeeds later |
| UsePrediction.PredictionHook.constructor | react-frontend/src/hooks/usePrediction.ts:35-39 | the hook starts with no result, not loading and no error |
| UsePrediction.PredictionHook.BeginPredict | react-frontend/src/hooks/usePrediction.ts:44-48 | enter loading, dropping any earlier result or error |
| UsePrediction.PredictionHook.FinishPredict | react-frontend/src/hooks/usePrediction.ts:50-65 | on fulfilment show the result with no error; on rejection show no result and the error text; never loading afterwards; the hook need not still be loading |
| UsePrediction.PredictionHook.Predict | react-frontend/src/hooks/usePrediction.ts:42-66 | the state after both halves of `predict` is the settled state of the fetch outcome |
| UsePrediction.PredictionHook.Reset | react-frontend/src/hooks/usePrediction.ts:69-75 | back to no result, not loading, no error |
| UsePrediction.PredictionHook.SetError | react-frontend/src/hooks/usePrediction.ts:78-84 | no result, not loading, and the given message |

## Left out

- JavaScript `parseFloat`: its grammar, infinities and IEEE comparison are not modelled. It is a parameter, with `None` for NaN.
- The real `fetch` call, its request body and JSON encoding are not modelled, and neither is decoding the response. `FetchOutcome` stands for what the network did. A decoded body is taken to be a `PredictionResult`, although `response.json()` checks no shape (a `null` body, for one, is not modelled).
- The numeric features passed to `predict` only feed the network call, so `PredictionHook.Predict` does not take them.
- The 200 ms delay of `mockPredictAPI` and its unused input are not modelled. Only its fixed response (`BearingPrediction.MOCK_RESPONSE`) is kept.
- Interleaving of overlapping async responses is not modelled as concurrency. The model splits `predict` into its two writes, allows any order of writes, and proves the invariant for every order (`RunKeepsConsistent`).
- React's batching of state updates is not modelled. Each callback's write takes effect at once. `useCallback` and `useMemo` memoisation is not modelled either, because it does not change any value.
- The `return current` fallback of `transition` is left out: it only handles an event of no known type, and the `TabEvent` datatype has none.
- The parameter selection of a tab (`types/params.ts`, `ParameterSelector.tsx`) is not part of this model. No transition code exists for it.
- `App.tsx` is not part of this model. It has its own inline versions of parsing and fetching, which differ from the modelled ones: a bad input throws one generic message (`すべての値は数値である必要があります`) that does not name the input, and result, loading and error live in three separate state slots, with loading cleared in a `finally` block.
- `api.py` is not part of this model. It is the PyTorch model and the FastAPI server, with floating-point numerics.
- Rendering components (`MultiSectionBarChart`, `ParameterSelector`, `PredictionDisplay`, `HorizontalBarChart`, `TabPanel`, `TabBar`, `FeatureInput`, `ErrorDisplay`) are not part of this model. They only render.
- BearingPrediction.RecommendedIndex: the maximum property is stated only when every probability is a number. With NaN in first position no comparison ever succeeds, so the index stays 0 (`NaNFirstPinsIndex`); with a number in first position NaN items are skipped and the chosen item is a first maximum among the numbers (`NumberFirstPicksNumericMaximum`).
- FeatureValidation.UpdateAtIndex: the index is an integer. The source's `number` may also be fractional or NaN; then `i === index` never holds and the copy equals the input, which is the same result as the out-of-range case.

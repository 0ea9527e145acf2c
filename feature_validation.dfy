/**
 * Validation and conversion of the feature form's text inputs
 * (react-frontend/src/utils/featureValidation.ts). Every function is pure: arrays are
 * sequences and nothing is updated in place.
 */
module FeatureValidation {
  import opened Options
  import opened JsNumbers

  /** The tagged union `{success: true, data} | {success: false, error}`. */
  datatype Result<T, E> = Success(data: T) | Failure(error: E)

  /** What follows the quoted input in the message for an input that is not a number. */
  const NOT_A_NUMBER_SUFFIX: string := "\" は有効な数値ではありません"

  /** The message `"<s>" は有効な数値ではありません`. */
  function InvalidNumberMessage(s: string): (m: string)
    ensures |m| == |s| + 1 + |NOT_A_NUMBER_SUFFIX|
    ensures m[0] == '"' && m[1..|s| + 1] == s && m[|s| + 1..] == NOT_A_NUMBER_SUFFIX
  {
    "\"" + s + NOT_A_NUMBER_SUFFIX
  }

  /** `isNonEmpty`: the string is not the empty string. */
  function IsNonEmpty(s: string): (nonEmpty: bool)
    ensures nonEmpty <==> |s| > 0
  {
    s != ""
  }

  /** `areAllFeaturesValid`, i.e. `features.every(isNonEmpty)`, scanning left to right. */
  function AreAllFeaturesValid(features: seq<string>): (valid: bool)
    ensures valid <==> "" !in features
    ensures valid <==> forall i :: 0 <= i < |features| ==> |features[i]| > 0
  {
    if features == [] then true
    else IsNonEmpty(features[0]) && AreAllFeaturesValid(features[1..])
  }

  /** `parseNumber`: the parse of `s`, or the message naming `s` when it parses to NaN. */
  function ParseNumber(parse: ParseFloat, s: string): (r: Result<real, string>)
    ensures r.Success? <==> parse(s).Some?
    ensures r.Success? ==> r.data == parse(s).value
    ensures r.Failure? ==> r.error == InvalidNumberMessage(s) && r.error[1..|s| + 1] == s
  {
    var num := parse(s);
    if num.None? then Failure(InvalidNumberMessage(s)) else Success(num.value)
  }

  /** `results.find(result => !result.success)`: the leftmost failure, if any. */
  function FindFirstFailure<T, E>(results: seq<Result<T, E>>): (found: Option<Result<T, E>>)
    ensures found.None? <==> forall i :: 0 <= i < |results| ==> results[i].Success?
    ensures found.Some? ==>
      exists k :: 0 <= k < |results| && results[k] == found.value && found.value.Failure? &&
        forall j :: 0 <= j < k ==> results[j].Success?
  {
    if results == [] then None
    else if results[0].Failure? then Some(results[0])
    else
      FindFirstFailure(results[1..])
  }

  /** `results.filter(r => r.success).map(r => r.data)`: the data of the successes, in order. */
  function SuccessData<T, E>(results: seq<Result<T, E>>): (data: seq<T>)
    ensures |data| <= |results|
    ensures (forall i :: 0 <= i < |results| ==> results[i].Success?) ==>
      |data| == |results| && forall i :: 0 <= i < |results| ==> data[i] == results[i].data
  {
    if results == [] then []
    else
      var rest := SuccessData(results[1..]);
      if results[0].Success? then
        assert forall i :: 0 <= i < |results[1..]| ==> results[1..][i] == results[i + 1];
        [results[0].data] + rest
      else rest
  }

  /** `features.map(parseNumber)`. */
  function ParseAll(parse: ParseFloat, features: seq<string>): (results: seq<Result<real, string>>)
    ensures |results| == |features|
    ensures forall i :: 0 <= i < |features| ==> results[i] == ParseNumber(parse, features[i])
  {
    seq(|features|, i requires 0 <= i < |features| => ParseNumber(parse, features[i]))
  }

  /**
   * `parseFeatures`: succeeds exactly when every input parses, with the parses in order;
   * otherwise fails with the message of the leftmost input that does not parse.
   */
  function ParseFeatures(parse: ParseFloat, features: seq<string>): (r: Result<seq<real>, string>)
    ensures r.Success? <==> forall i :: 0 <= i < |features| ==> parse(features[i]).Some?
    ensures r.Success? ==>
      |r.data| == |features| &&
      forall i :: 0 <= i < |features| ==> r.data[i] == parse(features[i]).value
    ensures r.Failure? ==>
      exists k :: 0 <= k < |features| && parse(features[k]).None? &&
        (forall j :: 0 <= j < k ==> parse(features[j]).Some?) &&
        r.error == InvalidNumberMessage(features[k])
  {
    var results := ParseAll(parse, features);
    var firstError := FindFirstFailure(results);
    if firstError.Some? && firstError.value.Failure? then
      Failure(firstError.value.error)
    else
      Success(SuccessData(results))
  }

  /** `updateAtIndex`: a copy of `a` whose position `index` holds `value`, when that position exists. */
  function UpdateAtIndex<T>(a: seq<T>, index: int, value: T): (r: seq<T>)
    ensures |r| == |a|
    ensures 0 <= index < |a| ==> r == a[index := value]
    ensures !(0 <= index < |a|) ==> r == a
  {
    seq(|a|, i requires 0 <= i < |a| => if i == index then value else a[i])
  }

  /** A parse that fails stops the conversion before later inputs matter. */
  lemma ParseFeaturesStopsAtFirstFailure(parse: ParseFloat)
    requires parse("1") == Some(1.0) && parse("2") == Some(2.0) && parse("x") == None
    ensures ParseFeatures(parse, ["1", "2", "x", "4", "5"]) == Failure(InvalidNumberMessage("x"))
  {
    var fs := ["1", "2", "x", "4", "5"];
    var r := ParseFeatures(parse, fs);
    assert parse(fs[2]).None?;
    assert r.Failure?;
    var k :| 0 <= k < |fs| && parse(fs[k]).None? &&
      (forall j :: 0 <= j < k ==> parse(fs[j]).Some?) && r.error == InvalidNumberMessage(fs[k]);
    assert parse(fs[0]).Some? && parse(fs[1]).Some?;
    assert k == 2;
  }

  /** A vector of five well-formed inputs converts to the five numbers. */
  lemma ParseFeaturesAllNumbers(parse: ParseFloat)
    requires parse("1") == Some(1.0) && parse("2") == Some(2.0) && parse("3") == Some(3.0)
    requires parse("4") == Some(4.0) && parse("5") == Some(5.0)
    ensures ParseFeatures(parse, ["1", "2", "3", "4", "5"]) == Success([1.0, 2.0, 3.0, 4.0, 5.0])
  {
    var fs := ["1", "2", "3", "4", "5"];
    var r := ParseFeatures(parse, fs);
    assert forall i :: 0 <= i < |fs| ==> parse(fs[i]).Some?;
    assert r.data == [1.0, 2.0, 3.0, 4.0, 5.0];
  }

  /** Updating position 1 of `["a", "b", "c"]` replaces only that position. */
  lemma UpdateAtIndexExample()
    ensures UpdateAtIndex(["a", "b", "c"], 1, "Z") == ["a", "Z", "c"]
  {
  }
}

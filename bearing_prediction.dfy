/**
 * The result transformer of react-frontend/src/utils/bearingPrediction.ts: pairs each
 * section's class names with their parsed probabilities and picks the recommended class by a
 * left-to-right scan in which the first maximum wins.
 */
module BearingPrediction {
  import opened Options
  import opened JsNumbers
  import opened BearingTypes

  /** The sections in display order. */
  const SECTION_NAMES: seq<SectionName> := [Ring, Ball, Arrangement]

  /**
   * `parseFloat(section.Probabilities[i])`. Past the end of the array the element is
   * `undefined`, which parses to NaN.
   */
  function ProbabilityAt(parse: ParseFloat, probabilities: seq<string>, i: nat): (p: Option<real>)
    ensures i < |probabilities| ==> p == parse(probabilities[i])
    ensures i >= |probabilities| ==> p.None?
  {
    if i < |probabilities| then parse(probabilities[i]) else None
  }

  /** `section.Classes.map((cls, i) => ({probability: parseFloat(section.Probabilities[i]), className: cls}))`. */
  function Items(parse: ParseFloat, section: SectionPrediction): (items: seq<PredictionItem>)
    ensures |items| == |section.classes|
    ensures forall i :: 0 <= i < |items| ==> items[i].className == section.classes[i]
    ensures forall i :: 0 <= i < |items| && i < |section.probabilities| ==>
      items[i].probability == parse(section.probabilities[i])
    ensures forall i :: |section.probabilities| <= i < |items| ==> items[i].probability.None?
  {
    seq(|section.classes|, i requires 0 <= i < |section.classes| =>
      PredictionItem(ProbabilityAt(parse, section.probabilities, i), section.classes[i]))
  }

  /** Every probability among the first `k` items is a number. */
  predicate NumbersUpTo(items: seq<PredictionItem>, k: nat)
    requires k <= |items|
  {
    forall j :: 0 <= j < k ==> items[j].probability.Some?
  }

  /**
   * The accumulator of `items.reduce((maxIdx, item, idx, arr) =>
   * item.probability > arr[maxIdx].probability ? idx : maxIdx, 0)` after the first `k` items.
   * When those items are all numbers it is the leftmost position of their maximum.
   */
  function ArgMaxPrefix(items: seq<PredictionItem>, k: nat): (m: nat)
    requires k <= |items|
    ensures k == 0 ==> m == 0
    ensures k > 0 ==> m < k
    ensures k > 0 && NumbersUpTo(items, k) ==>
      (forall j :: 0 <= j < k ==> items[j].probability.value <= items[m].probability.value) &&
      (forall j :: 0 <= j < m ==> items[j].probability.value < items[m].probability.value)
  {
    if k == 0 then 0
    else
      var maxIdx := ArgMaxPrefix(items, k - 1);
      if Greater(items[k - 1].probability, items[maxIdx].probability) then k - 1 else maxIdx
  }

  /** Whether every item's probability is a number. */
  predicate AllNumbers(items: seq<PredictionItem>)
  {
    forall j :: 0 <= j < |items| ==> items[j].probability.Some?
  }

  /** The recommended index of a section: the reduce over all of its items. */
  function RecommendedIndex(items: seq<PredictionItem>): (m: nat)
    ensures items == [] ==> m == 0
    ensures items != [] ==> m < |items|
    ensures items != [] && AllNumbers(items) ==>
      (forall j :: 0 <= j < |items| ==> items[j].probability.value <= items[m].probability.value) &&
      (forall j :: 0 <= j < m ==> items[j].probability.value < items[m].probability.value)
  {
    assert AllNumbers(items) ==> NumbersUpTo(items, |items|);
    ArgMaxPrefix(items, |items|)
  }

  /** The display result of one section. */
  function TransformSection(parse: ParseFloat, name: SectionName, section: SectionPrediction): (r: SectionResult)
    ensures r.sectionName == name.Label()
    ensures r.items == Items(parse, section)
    ensures section.classes == [] ==> r.recommendedIndex == 0
    ensures section.classes != [] ==> r.recommendedIndex < |r.items|
  {
    var items := Items(parse, section);
    SectionResult(name.Label(), items, RecommendedIndex(items))
  }

  /** `transformResponse`: the three sections, Ring, Ball and Arrangement, in that order. */
  function TransformResponse(parse: ParseFloat, res: PredictionResponse): (r: seq<SectionResult>)
    ensures |r| == 3
    ensures r[0].sectionName == "Ring" && r[1].sectionName == "Ball" && r[2].sectionName == "Arrangement"
    ensures r[0] == TransformSection(parse, Ring, res.ring)
    ensures r[1] == TransformSection(parse, Ball, res.ball)
    ensures r[2] == TransformSection(parse, Arrangement, res.arrangement)
  {
    seq(|SECTION_NAMES|, k requires 0 <= k < |SECTION_NAMES| =>
      TransformSection(parse, SECTION_NAMES[k], res.Section(SECTION_NAMES[k])))
  }

  /**
   * A NaN in first position pins the scan there: no comparison against NaN is true, so the
   * accumulator never moves.
   */
  lemma {:induction false} NaNFirstPinsIndex(items: seq<PredictionItem>, k: nat)
    requires 0 < k <= |items|
    requires items[0].probability.None?
    ensures ArgMaxPrefix(items, k) == 0
  {
    if k > 1 {
      NaNFirstPinsIndex(items, k - 1);
    }
  }

  /**
   * When the first probability is a number, NaN items are never chosen: the scan stops on a
   * number that is at least every number in the prefix and above every number before it.
   */
  lemma {:induction false} NumberFirstPicksNumericMaximum(items: seq<PredictionItem>, k: nat)
    requires 0 < k <= |items|
    requires items[0].probability.Some?
    ensures var m := ArgMaxPrefix(items, k);
      items[m].probability.Some? &&
      (forall j :: 0 <= j < k && items[j].probability.Some? ==>
        items[j].probability.value <= items[m].probability.value) &&
      (forall j :: 0 <= j < m && items[j].probability.Some? ==>
        items[j].probability.value < items[m].probability.value)
  {
    if k > 1 {
      NumberFirstPicksNumericMaximum(items, k - 1);
    }
  }

  /** The recommended item of a non-empty section of numbers is a first maximum. */
  lemma RecommendedIsFirstMaximum(parse: ParseFloat, name: SectionName, section: SectionPrediction)
    requires section.classes != []
    requires forall i :: 0 <= i < |section.classes| ==> ProbabilityAt(parse, section.probabilities, i).Some?
    ensures var r := TransformSection(parse, name, section);
      var best := r.items[r.recommendedIndex].probability.value;
      r.recommendedIndex < |r.items| &&
      (forall j :: 0 <= j < |r.items| ==> r.items[j].probability.value <= best) &&
      (forall j :: 0 <= j < r.recommendedIndex ==> r.items[j].probability.value < best)
  {
  }

  /** The fixed response of `mockPredictAPI` (its 200 ms delay is not modelled). */
  const MOCK_RESPONSE: PredictionResponse := PredictionResponse(
    SectionPrediction(["0.015", "0.985", "0.000"], ["SHX", "SUJ2", "SUJ2EP"]),
    SectionPrediction(["0.900", "0.065", "0.035"], ["CERAMIC", "SUJ2", "SUJ2(EQTF)"]),
    SectionPrediction(["0.925", "0.065", "0.010"], ["DB", "DBB", "DBD"]))

  /** With decimal parsing, the mock response recommends SUJ2, CERAMIC and DB. */
  lemma MockRecommendations(parse: ParseFloat)
    requires parse("0.015") == Some(0.015) && parse("0.985") == Some(0.985) && parse("0.000") == Some(0.0)
    requires parse("0.900") == Some(0.9) && parse("0.065") == Some(0.065) && parse("0.035") == Some(0.035)
    requires parse("0.925") == Some(0.925) && parse("0.010") == Some(0.01)
    ensures var r := TransformResponse(parse, MOCK_RESPONSE);
      r[0].recommendedIndex == 1 && r[1].recommendedIndex == 0 && r[2].recommendedIndex == 0
  {
    var r := TransformResponse(parse, MOCK_RESPONSE);
    assert r[0].items == Items(parse, MOCK_RESPONSE.ring);
    assert r[0].recommendedIndex == ArgMaxPrefix(r[0].items, 3);
    assert r[1].recommendedIndex == ArgMaxPrefix(r[1].items, 3);
    assert r[2].recommendedIndex == ArgMaxPrefix(r[2].items, 3);
  }
}

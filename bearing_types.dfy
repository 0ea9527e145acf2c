/**
 * The bearing prediction's raw response and display types (react-frontend/src/types/bearing.ts).
 * Probabilities arrive as decimal strings; a parsed probability is a JavaScript number,
 * `None` standing for NaN.
 */
module BearingTypes {
  import opened Options

  /** `SectionPrediction`: two arrays the producer keeps positionally aligned. */
  datatype SectionPrediction = SectionPrediction(probabilities: seq<string>, classes: seq<string>)

  /** `SectionName`. */
  datatype SectionName = Ring | Ball | Arrangement
  {
    /** The name as the display shows it. */
    function Label(): string
    {
      match this
      case Ring => "Ring"
      case Ball => "Ball"
      case Arrangement => "Arrangement"
    }
  }

  /** `PredictionResponse`: one section per name. */
  datatype PredictionResponse = PredictionResponse(ring: SectionPrediction, ball: SectionPrediction, arrangement: SectionPrediction)
  {
    /** `res[name]`. */
    function Section(name: SectionName): SectionPrediction
    {
      match name
      case Ring => ring
      case Ball => ball
      case Arrangement => arrangement
    }
  }

  /** `PredictionItem`: a class name with its parsed probability. */
  datatype PredictionItem = PredictionItem(probability: Option<real>, className: string)

  /** `SectionResult`. */
  datatype SectionResult = SectionResult(sectionName: string, items: seq<PredictionItem>, recommendedIndex: nat)
}

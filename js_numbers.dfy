/**
 * JavaScript numbers as far as the front end relies on them. `parseFloat` is left
 * uninterpreted: every operation that parses takes it as a parameter. `None` stands
 * for NaN, `Some(x)` for the number x.
 */
module JsNumbers {
  import opened Options

  /** The shape of JavaScript's `parseFloat`: a string either yields a number or NaN. */
  type ParseFloat = string -> Option<real>

  /** JavaScript's `a > b` on numbers: false whenever either side is NaN. */
  predicate Greater(a: Option<real>, b: Option<real>)
  {
    a.Some? && b.Some? && a.value > b.value
  }
}

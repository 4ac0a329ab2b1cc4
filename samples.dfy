/**
 * The samples the reporters receive: a snapshot of a Counter or of a Stopwatch. Longs are
 * integers; a double is carried by the two renderings the reporters give it.
 */
module Samples {
  import opened Wrappers

  /**
   * A double value, opaque: its Double.toString text (used in CSV rows) and its
   * DecimalFormat("#.##") text with '.' as the decimal separator (used in Graphite lines).
   */
  datatype Double = Double(asString: string, asTwoDecimals: string)

  /** CounterSample; a null name is None. */
  datatype CounterSample = CounterSample(
    name: Option<string>,
    counter: int,
    min: int,
    max: int,
    minTimestamp: int,
    maxTimestamp: int,
    incrementSum: int,
    decrementSum: int)

  /** StopwatchSample; a null name is None. */
  datatype StopwatchSample = StopwatchSample(
    name: Option<string>,
    total: int,
    min: int,
    max: int,
    minTimestamp: int,
    maxTimestamp: int,
    active: int,
    maxActive: int,
    maxActiveTimestamp: int,
    last: int,
    mean: Double,
    standardDeviation: Double,
    variance: Double,
    varianceN: Double)

  /** Java's string conversion of a possibly null string, as `+` on strings does it. */
  function StringValueOf(s: Option<string>): (r: string)
    ensures s.Some? ==> r == s.value
    ensures s.None? ==> r == "null"
  {
    match s
    case Some(v) => v
    case None => "null"
  }
}

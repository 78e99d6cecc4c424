/** The policies that choose between a physical and a virtual snapshot. */
module Deciders {

  datatype Decider =
    | RandomDecider
    | AlwaysTrueDecider
    | AlwaysFalseDecider
    | ThresholdDecider(threshold: real)

  const DEFAULT_THRESHOLD := 5.0

  /** True asks for a physical snapshot. `coin` is the draw of the random policy. */
  predicate Decide(d: Decider, cumulativeExecTime: real, coin: bool) {
    match d
    case RandomDecider => coin
    case AlwaysTrueDecider => true
    case AlwaysFalseDecider => false
    case ThresholdDecider(threshold) => cumulativeExecTime >= threshold
  }
}

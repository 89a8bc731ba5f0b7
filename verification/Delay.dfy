/** The delay estimator's hypothesis about the path. */
module Delay {
  datatype DelayState = Normal | Overuse | Underuse
}

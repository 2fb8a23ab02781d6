/** The optional value used where `StatsStateMachine::getStats` and `getPopcorn` return a quiet NaN. */
module Wrappers {

  datatype Option<+T> = None | Some(value: T)
}

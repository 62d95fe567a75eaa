/** The optional value used for the engine's nullable fields and for the
    results of the question-text evaluator. */
module Wrappers {
  datatype Option<+T> = None | Some(value: T)
}

/** The optional-value type used for the nullable payloads of the syntax tree and the parser's results. */
module Wrappers {

  datatype Option<+T> = None | Some(value: T)
}

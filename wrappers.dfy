/** The optional values of the client's payloads (`hint?`, `options?`, a null `studyData`). */
module Wrappers {

  datatype Option<+T> = None | Some(value: T)
}

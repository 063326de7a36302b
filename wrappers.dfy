/** The usual optional-value datatype: a document field or a query result that may be absent. */
module Wrappers {

  datatype Option<+T> = None | Some(value: T)
}

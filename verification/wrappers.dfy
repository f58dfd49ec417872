/** The optional-value type used for every `Optional[...]` field and every
    field that may be absent from an input record. */
module Wrappers {

  datatype Option<+T> = None | Some(value: T)

}

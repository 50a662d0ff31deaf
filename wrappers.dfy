/** The optional-value datatype shared by the other modules. In the source a
    missing value is JavaScript's `undefined`; here it is `None`. */
module Wrappers {

  datatype Option<+T> = None | Some(value: T)

}

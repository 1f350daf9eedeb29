/** The optional-value datatype the model uses where the Java code allows a
    missing value (a `Throwable` whose message is `null`). */
module Wrappers {

  datatype Option<+T> = None | Some(value: T)
}

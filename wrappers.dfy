/** The Java `null` that the metadata store returns for "no value", made explicit. */
module Wrappers {

  datatype Option<+T> = None | Some(value: T)

}

/** Optional values: the Python `None` / missing-key cases of the client. */
module Wrappers {

  datatype Option<+T> = None | Some(value: T)
}

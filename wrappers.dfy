/** The optional value shared by the modules below: `null` / `undefined` in the site's code. */
module Wrappers {

  datatype Option<T> = None | Some(value: T)
}

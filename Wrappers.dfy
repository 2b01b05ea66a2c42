/** Optional values: JavaScript's `undefined`/`null` alternatives of the form's state and of the
    endpoint's JSON reply. */
module Wrappers {

  datatype Option<+T> = None | Some(value: T)
}

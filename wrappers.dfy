/** A value that may be missing: a storage key that was never set, a form field
    that did not parse, a lookup that found nothing. */
module Wrappers {

  datatype Option<+T> = None | Some(value: T)
}

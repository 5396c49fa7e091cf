/** Optional values: a session data key that may be absent, a message text that
    may be missing. */
module Wrappers {

  datatype Option<+T> = None | Some(value: T)

}

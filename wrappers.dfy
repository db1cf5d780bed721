/** Optional values: `None` stands for JavaScript's `undefined` (an absent property, a missing
    array element, a regular expression that did not match). */
module Wrappers {

  datatype Option<+T> = None | Some(value: T)
}

/** How the promise a hook hands back to Cordova ends. */
module Hooks {

  datatype Settlement<+T> =
    | Resolved(value: T)
    | Rejected
    | Pending   // an exception inside a `.then` callback: the deferred is never settled
    | Threw     // an exception escapes the hook function itself
}

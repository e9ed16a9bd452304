/** Optional values: JavaScript's `undefined`/`null` results and Java's `null` references. */
module Wrappers {
  datatype Option<T> = None | Some(value: T) {
    function GetOr(default: T): T { if Some? then value else default }
  }
}

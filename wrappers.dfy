/** Optional values: a JavaScript property that is omitted or `undefined` is `None`. */
module Wrappers {

  datatype Option<+T> = None | Some(value: T) {

    /** The carried value, or `default` when absent: the meaning of a
        destructuring default such as `{ amount = 0 }` or `(text = "")`. */
    function GetOr(default: T): T {
      match this
      case Some(v) => v
      case None => default
    }

    /** Right-biased choice: `that` when present, otherwise this value.
        This is what an object spread `{ ...a, ...b }` does to one key. */
    function Or(that: Option<T>): Option<T> {
      if that.Some? then that else this
    }
  }
}

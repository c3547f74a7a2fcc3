/** A value that may be missing. In a record field `None` stands for
    JavaScript's `null`, or for an optional key that is absent; in a
    `Partial<T>` patch it stands for a key the patch does not carry. */
module Wrappers {

  datatype Option<+T> = None | Some(value: T) {

    /** The carried value when there is one, `fallback` when it is missing:
        the per-key choice a spread `{ ...base, ...patch }` makes. */
    function ValueOr(fallback: T): (r: T)
      ensures Some? ==> r == value
      ensures None? ==> r == fallback
    {
      if Some? then value else fallback
    }
  }
}

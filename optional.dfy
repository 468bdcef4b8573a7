/** An optional value: a JavaScript property that may be `undefined`, or a
    parse that may fail. Failure-compatible, so `:-` can be used with it. */
module Optional {

  datatype Option<+T> = None | Some(value: T) {

    predicate IsFailure() {
      None?
    }

    function PropagateFailure<U>(): Option<U>
      requires None?
    {
      None
    }

    function Extract(): T
      requires Some?
    {
      value
    }

    /** The value, or `default` when it is absent (JavaScript's `x ?? default`
        for a destructuring default). */
    function GetOr(default: T): T {
      match this
      case Some(v) => v
      case None => default
    }
  }
}

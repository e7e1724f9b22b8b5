/** Shared value types: optional values, results, HTTP error replies and the
    JavaScript notion of a "truthy" request field. */
module Common {

  datatype Option<T> = None | Some(value: T) {
    /** The value, or `d` when absent (JavaScript `x ?? d` on a present-or-undefined value). */
    function GetOr(d: T): T {
      if Some? then value else d
    }
  }

  datatype Result<T, E> = Ok(value: T) | Err(error: E)

  /** An error reply of a route handler: the HTTP status and the `error` text of its JSON body. */
  datatype Failure = Failure(status: int, message: string)

  /** A string-valued request field is truthy when it is present and non-empty. */
  predicate IsTruthy(s: Option<string>) {
    s.Some? && s.value != ""
  }

  /** A numeric request field is truthy when it is present and non-zero
      (NaN is not modelled: numbers are integers here). */
  predicate IsTruthyNum(n: Option<int>) {
    n.Some? && n.value != 0
  }

  /** `a || b` on an optional string: `a` when it is truthy, else `b`. */
  function OrElse(a: Option<string>, b: Option<string>): (r: Option<string>)
    ensures IsTruthy(a) ==> r == a
    ensures !IsTruthy(a) ==> r == b
  {
    if IsTruthy(a) then a else b
  }

  /** A toast shown to the user: its title, its text, and whether it is the
      destructive (error) variant. */
  datatype Notice = Notice(title: string, description: string, destructive: bool)
}

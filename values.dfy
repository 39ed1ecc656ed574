/** Small value types shared by the model: optional values, results of calls
    that may throw, and JSON members that may be undefined or null. */
module Values {

  /** A value that may be missing (the JavaScript `undefined` of a default-able binding). */
  datatype Option<+T> = None | Some(value: T) {
    function GetOr(default: T): T {
      match this
      case Some(v) => v
      case None => default
    }
  }

  /** The outcome of a call that may throw: the value, or what was thrown. */
  datatype Result<+T, +E> = Success(value: T) | Failure(error: E)

  /** A member of a JSON object declared `x?: T | null`: left out, null, or a value. */
  datatype Field<+T> = Absent | Null | Present(value: T)

  /** JavaScript truthiness of a string-typed member: present and not "". */
  predicate TruthyText(f: Field<string>) {
    f.Present? && f.value != ""
  }

  /** `f || ""` on a string-typed member. */
  function OrEmpty(f: Field<string>): (s: string)
    ensures TruthyText(f) ==> s == f.value
    ensures !TruthyText(f) ==> s == ""
  {
    if f.Present? then f.value else ""
  }
}

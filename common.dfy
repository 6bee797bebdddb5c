/** Small shared vocabulary: JavaScript's "maybe absent" values. */
module Common {

  /** A value that may be absent (`null` / `undefined` in the source). */
  datatype Option<+T> = None | Some(value: T) {
    /** `x ?? d`: the value, or the default when absent. */
    function GetOr(default: T): T {
      match this
      case Some(v) => v
      case None => default
    }
  }

  /** `{ jobId, status, timestamp }`: one entry of a user's application history, as stored and served. */
  datatype Application = Application(jobId: string, status: string, timestamp: int)

  function Min(a: int, b: int): int {
    if a <= b then a else b
  }
}

/** Small shared vocabulary: optional values, results with an error, and the
    opaque clock values the system stamps records with. */
module Common {

  /** Python's `Optional[T]`: `None` or a present value. */
  datatype Option<+T> = None | Some(value: T) {
    function GetOr(default: T): T {
      match this
      case Some(v) => v
      case None => default
    }
  }

  /** A value, or the exception the Python code would raise instead. */
  datatype Result<+T, +E> = Success(value: T) | Failure(error: E)

  /** The AttributeError Python raises when a record lacks the attribute read. */
  datatype AttributeError = MissingAttribute(owner: string, attribute: string)

  /** A wall-clock instant, in whole seconds. The core never looks inside one;
      only the simulation's synthetic user offsets it by fixed durations. */
  type Timestamp = int

  /** `max(lo, min(hi, x))`, the clamp written out in every bounded update. */
  function Clamp(lo: real, hi: real, x: real): (r: real)
    requires lo <= hi
    ensures lo <= r <= hi
    ensures lo <= x <= hi ==> r == x
    ensures x < lo ==> r == lo
    ensures hi < x ==> r == hi
  {
    if x < lo then lo else if hi < x then hi else x
  }

  /** Clamping keeps the order of its arguments. */
  lemma ClampMonotone(lo: real, hi: real, x: real, y: real)
    requires lo <= hi && x <= y
    ensures Clamp(lo, hi, x) <= Clamp(lo, hi, y)
  {
  }
}

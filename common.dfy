/** Small value types and integer/real helpers shared by the model. */
module Common {

  /** A nullable column or an optional argument. */
  datatype Option<+T> = None | Some(value: T) {
    function GetOr(default: T): T {
      match this
      case Some(v) => v
      case None => default
    }
  }

  /** The value of an operation, or the error it raises. */
  datatype Result<+T, +E> = Ok(value: T) | Err(error: E)

  /** A check that either passes or raises. */
  datatype Outcome<+E> = Pass | Fail(error: E)

  /** Python truthiness of a nullable non-negative integer column: None and 0 are falsy. */
  predicate Truthy(o: Option<nat>) {
    o.Some? && o.value != 0
  }

  /** `a or b` on two nullable integer columns. */
  function Or(a: Option<nat>, b: Option<nat>): (r: Option<nat>)
    ensures Truthy(a) ==> r == a
    ensures !Truthy(a) ==> r == b
    ensures Truthy(r) <==> Truthy(a) || Truthy(b)
  {
    if Truthy(a) then a else b
  }

  /** Ceiling of n / d for a positive divisor. */
  function CeilDiv(n: int, d: int): (r: int)
    requires d > 0
    ensures (r - 1) * d < n <= r * d
    ensures n >= 0 ==> r >= 0
  {
    (n + d - 1) / d
  }

  /** `math.ceil` on an exact rational value. */
  function CeilReal(x: real): (r: int)
    ensures x <= r as real < x + 1.0
    ensures x > 0.0 ==> r >= 1
  {
    if x.Floor as real == x then x.Floor else x.Floor + 1
  }
}

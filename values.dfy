/** JavaScript values as the prediction store meets them: optional fields, and the
    "truthy or fall back" reading that the store's `a || b` chains give them. */
module Values {

  datatype Option<+T> = None | Some(value: T)

  /** A numeric field of a backend record: absent (`undefined`/`null`) or a number.
      The numbers are opaque: the store never computes with them. */
  datatype Num = Missing | Value(v: real)

  /** A number is truthy when it is present and not zero. */
  predicate Truthy(n: Num) {
    n.Value? && n.v != 0.0
  }

  /** A string field is truthy when it is present and not empty. */
  predicate Filled(s: Option<string>) {
    s.Some? && s.value != ""
  }

  /** `n || 0` */
  function OrZero(n: Num): (r: real)
    ensures Truthy(n) ==> r == n.v
    ensures !Truthy(n) ==> r == 0.0
  {
    if Truthy(n) then n.v else 0.0
  }

  /** `x || d` for an integer field such as `pages` or `total`. */
  function IntOr(x: Option<int>, d: int): (r: int)
    ensures x.Some? && x.value != 0 ==> r == x.value
    ensures x.None? || x.value == 0 ==> r == d
  {
    if x.Some? && x.value != 0 then x.value else d
  }

  /** `ns[0] || ns[1] || ... || 0`: the first truthy number, else zero. */
  function FirstTruthy(ns: seq<Num>): (r: real)
    ensures (forall i | 0 <= i < |ns| :: !Truthy(ns[i])) ==> r == 0.0
    ensures forall i | 0 <= i < |ns| && Truthy(ns[i]) && (forall j | 0 <= j < i :: !Truthy(ns[j])) :: r == ns[i].v
  {
    if ns == [] then 0.0
    else if Truthy(ns[0]) then ns[0].v
    else
      assert forall i | 1 <= i < |ns| :: ns[1..][i - 1] == ns[i];
      FirstTruthy(ns[1..])
  }
}

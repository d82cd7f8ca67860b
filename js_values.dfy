/** JavaScript number semantics the visualiser relies on: numbers that may be
    NaN or infinite, Math.round, the `x | 0` idiom, the out-of-range read of a
    typed array, and the Option/Result wrappers used for thrown errors. */
module JsValues {

  /** A JavaScript number. Finite doubles are modelled as reals (no rounding). */
  datatype Num = Finite(value: real) | NaN | Inf(negative: bool)

  datatype Option<T> = None | Some(value: T)

  /** The outcome of an operation that may throw: its value, or the error it throws. */
  datatype Result<T, E> = Ok(value: T) | Err(error: E)

  function Min(a: int, b: int): int { if a < b then a else b }

  function Max(a: int, b: int): int { if a < b then b else a }

  /** Math.round: the nearest integer, halves rounded toward +infinity. */
  function Round(x: real): (r: int)
    ensures r as real - 0.5 <= x < r as real + 0.5
  {
    (x + 0.5).Floor
  }

  /** Truncation toward zero (the first half of `x | 0`). */
  function Trunc(x: real): (r: int)
    ensures 0.0 <= x ==> 0 <= r && r as real <= x < r as real + 1.0
    ensures x < 0.0 ==> r <= 0 && r as real - 1.0 < x <= r as real
  {
    if x >= 0.0 then x.Floor else -((-x).Floor)
  }

  const TWO_31: int := 0x8000_0000
  const TWO_32: int := 0x1_0000_0000

  /** `x | 0` on a finite number (ToInt32): truncate toward zero, then wrap
      into the signed 32-bit range. */
  function ToInt32(x: real): (r: int)
    ensures -TWO_31 <= r < TWO_31
    ensures (r - Trunc(x)) % TWO_32 == 0
    ensures -(TWO_31 as real) < x < TWO_31 as real ==> r == Trunc(x)
  {
    var m := Trunc(x) % TWO_32;
    if m >= TWO_31 then m - TWO_32 else m
  }

  /** `0.5 * a + 0.5 * b` on JavaScript numbers. */
  function Mean(a: Num, b: Num): (r: Num)
    ensures r.Finite? <==> a.Finite? && b.Finite?
    ensures r.Finite? ==> r.value == (a.value + b.value) / 2.0
    ensures (a.NaN? || b.NaN?) ==> r.NaN?
  {
    match (a, b)
    case (Finite(x), Finite(y)) => Finite(0.5 * x + 0.5 * y)
    case (NaN, _) => NaN
    case (_, NaN) => NaN
    case (Inf(n1), Inf(n2)) => if n1 == n2 then Inf(n1) else NaN
    case (Inf(n1), Finite(_)) => Inf(n1)
    case (Finite(_), Inf(n2)) => Inf(n2)
  }

  /** Reading index `k` of a typed array: past the end the read yields
      `undefined`, which arithmetic turns into NaN. */
  function At(s: seq<Num>, k: nat): (r: Num)
    ensures k >= |s| ==> r.NaN?
    ensures k < |s| ==> r == s[k]
  {
    if k < |s| then s[k] else NaN
  }

  /** Round commutes with a whole-number shift. */
  lemma RoundShift(x: real, n: int)
    ensures Round(x + n as real) == Round(x) + n
  {
  }

  /** Round is monotone. */
  lemma RoundMonotone(x: real, y: real)
    requires x <= y
    ensures Round(x) <= Round(y)
  {
  }

  /** Trunc is monotone. */
  lemma TruncMonotone(x: real, y: real)
    requires x <= y
    ensures Trunc(x) <= Trunc(y)
  {
  }
}

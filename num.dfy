/** Values shared by every module: an optional value and a provider outcome. */
module Basics {
  datatype Option<T> = None | Some(value: T)

  /** What one call to an external data provider produced: a decoded record, or
      any failure (network error, non-2xx status, undecodable body, or a
      TypeError while reading the body). */
  datatype Outcome<T> = Ok(record: T) | Fail
}

/** JavaScript numbers, stated over the reals. */
module Num {
  /** A finite value, NaN, or an infinity (minus infinity when `negative`).
      Signed zero, the finite range of IEEE doubles and their rounding are not
      modelled: a finite result is the exact real one. */
  datatype Num = Fin(v: real) | NaN | Inf(negative: bool)

  /** Unary minus. */
  function Neg(a: Num): (r: Num)
    ensures r.Fin? <==> a.Fin?
    ensures a.Fin? ==> r.v == -a.v
  {
    match a
    case Fin(x) => Fin(-x)
    case NaN => NaN
    case Inf(n) => Inf(!n)
  }

  /** `a + b`: NaN is absorbing and opposite infinities give NaN. */
  function Add(a: Num, b: Num): (r: Num)
    ensures r.Fin? <==> a.Fin? && b.Fin?
    ensures r.Fin? ==> r.v == a.v + b.v
    ensures a.NaN? || b.NaN? ==> r.NaN?
  {
    if a.NaN? || b.NaN? then NaN
    else if a.Fin? && b.Fin? then Fin(a.v + b.v)
    else if a.Fin? then b
    else if b.Fin? then a
    else if a.negative == b.negative then a
    else NaN
  }

  /** `a - b`. */
  function Sub(a: Num, b: Num): (r: Num)
    ensures r.Fin? <==> a.Fin? && b.Fin?
    ensures r.Fin? ==> r.v == a.v - b.v
    ensures a.NaN? || b.NaN? ==> r.NaN?
  {
    Add(a, Neg(b))
  }

  /** `a * b`: an infinity times zero is NaN. */
  function Mul(a: Num, b: Num): (r: Num)
    ensures r.Fin? <==> a.Fin? && b.Fin?
    ensures r.Fin? ==> r.v == a.v * b.v
    ensures a.NaN? || b.NaN? ==> r.NaN?
  {
    if a.NaN? || b.NaN? then NaN
    else if a.Fin? && b.Fin? then Fin(a.v * b.v)
    else if a.Inf? && b.Inf? then Inf(a.negative != b.negative)
    else if a.Inf? then (if b.v == 0.0 then NaN else Inf(a.negative != (b.v < 0.0)))
    else if a.v == 0.0 then NaN
    else Inf(b.negative != (a.v < 0.0))
  }

  /** `a / b`: a non-zero finite value over zero is an infinity of its sign,
      zero over zero is NaN (the zero divisor is taken as +0). */
  function Div(a: Num, b: Num): (r: Num)
    ensures r.Fin? <==> a.Fin? && (b.Inf? || (b.Fin? && b.v != 0.0))
    ensures a.Fin? && b.Fin? && b.v != 0.0 ==> r == Fin(a.v / b.v)
    ensures a.Fin? && b == Fin(0.0) ==> (r.NaN? <==> a.v == 0.0)
    ensures a.NaN? || b.NaN? ==> r.NaN?
  {
    if a.NaN? || b.NaN? then NaN
    else if a.Fin? && b.Fin? then
      (if b.v != 0.0 then Fin(a.v / b.v)
       else if a.v > 0.0 then Inf(false)
       else if a.v < 0.0 then Inf(true)
       else NaN)
    else if a.Fin? then Fin(0.0)
    else if b.Fin? then Inf(a.negative != (b.v < 0.0))
    else NaN
  }

  /** The least integer not below `x`. */
  function CeilInt(x: real): (n: int)
    ensures x <= n as real < x + 1.0
  {
    -((-x).Floor)
  }

  /** `Math.ceil`: exact on finite values, the identity on NaN and infinities. */
  function Ceil(a: Num): (r: Num)
    ensures r.Fin? <==> a.Fin?
    ensures a.Fin? ==> a.v <= r.v < a.v + 1.0 && r.v == CeilInt(a.v) as real
  {
    match a
    case Fin(x) => Fin(CeilInt(x) as real)
    case _ => a
  }

  /** `Math.floor` on a finite value. */
  function FloorInt(x: real): (n: int)
    ensures n as real <= x < n as real + 1.0
  {
    x.Floor
  }

  function Max(x: real, y: real): (m: real)
    ensures m >= x && m >= y && (m == x || m == y)
  {
    if x >= y then x else y
  }

  function Min(x: real, y: real): (m: real)
    ensures m <= x && m <= y && (m == x || m == y)
  {
    if x <= y then x else y
  }

  /** `(change / base) * 100`, the percentage formula every quote builder uses. */
  function Percent(change: real, base: real): (p: Num)
    ensures base != 0.0 ==> p == Fin(100.0 * change / base)
    ensures base == 0.0 ==> (p.NaN? <==> change == 0.0) && !p.Fin?
  {
    Mul(Div(Fin(change), Fin(base)), Fin(100.0))
  }

  /** A value `Math.random()` can return. */
  predicate IsRandom(x: real) {
    0.0 <= x < 1.0
  }

  /** The sum of a sequence. Additions are exact, so the order in which the
      source folds them does not matter. */
  function Sum(s: seq<real>): real {
    if s == [] then 0.0 else s[0] + Sum(s[1..])
  }

  lemma {:induction false} SumAppend(s: seq<real>, t: seq<real>)
    ensures Sum(s + t) == Sum(s) + Sum(t)
  {
    if s != [] {
      assert (s + t)[1..] == s[1..] + t;
      SumAppend(s[1..], t);
    } else {
      assert s + t == t;
    }
  }
}

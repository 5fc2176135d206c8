/** The JavaScript semantics the source relies on: decoded JSON values,
    truthiness and `||`, `parseFloat`/`parseInt`, `toFixed(2)`,
    `toUpperCase` and `replace` with a one-character pattern. */
module Js {
  import opened Basics
  import opened Num

  /** A JSON value as `response.json()` decodes it, plus `undefined`. */
  datatype Value =
    | Undefined
    | Null
    | Bool(b: bool)
    | Number(n: Num)
    | Str(s: string)
    | Arr(items: seq<Value>)
    | Obj(fields: map<string, Value>)

  /** A JavaScript object literal, as the client builds its results. */
  type Object = map<string, Value>

  /** Truthiness: `undefined`, `null`, `false`, `0`, `NaN` and `""` are falsy. */
  predicate Truthy(v: Value) {
    match v
    case Undefined => false
    case Null => false
    case Bool(b) => b
    case Number(n) => !n.NaN? && n != Fin(0.0)
    case Str(s) => s != ""
    case Arr(_) => true
    case Obj(_) => true
  }

  /** `a || b`. */
  function Or(a: Value, b: Value): (r: Value)
    ensures Truthy(a) ==> r == a
    ensures !Truthy(a) ==> r == b
  {
    if Truthy(a) then a else b
  }

  /** `a || d` where `a` is a number field that may be absent. */
  function OrElse(a: Option<real>, d: real): (r: real)
    ensures a.Some? && a.value != 0.0 ==> r == a.value
    ensures a.None? || a == Some(0.0) ==> r == d
  {
    if a.Some? && a.value != 0.0 then a.value else d
  }

  /** Reading a property of `undefined` or `null` throws a TypeError. */
  predicate Nullish(v: Value) {
    v.Undefined? || v.Null?
  }

  /** `v[key]` for a value that is not nullish: an object's own field, else
      `undefined` (prototype properties are not modelled). */
  function Prop(v: Value, key: string): (r: Value)
    ensures v.Obj? && key in v.fields ==> r == v.fields[key]
    ensures !(v.Obj? && key in v.fields) ==> r == Undefined
  {
    if v.Obj? && key in v.fields then v.fields[key] else Undefined
  }

  /** `a[i]` on an array: `undefined` out of range. */
  function At(a: seq<Value>, i: int): (r: Value)
    ensures 0 <= i < |a| ==> r == a[i]
    ensures !(0 <= i < |a|) ==> r == Undefined
  {
    if 0 <= i < |a| then a[i] else Undefined
  }

  // ---------------------------------------------------------------------------
  // Numerals

  /** StrWhiteSpaceChar: the white space and line terminators that
      `parseFloat` and `parseInt` skip. */
  predicate IsSpace(c: char) {
    c == '\t' || c == '\n' || c == '\U{000B}' || c == '\U{000C}' || c == '\r' || c == ' '
    || c == '\U{00A0}' || c == '\U{1680}' || ('\U{2000}' <= c <= '\U{200A}')
    || c == '\U{2028}' || c == '\U{2029}' || c == '\U{202F}' || c == '\U{205F}'
    || c == '\U{3000}' || c == '\U{FEFF}'
  }

  /** The value of a digit character in radix up to 36, or -1. */
  function DigitValue(c: char): (d: int)
    ensures -1 <= d < 36
  {
    if '0' <= c <= '9' then c as int - '0' as int
    else if 'a' <= c <= 'z' then c as int - 'a' as int + 10
    else if 'A' <= c <= 'Z' then c as int - 'A' as int + 10
    else -1
  }

  predicate IsDigitIn(c: char, radix: nat) {
    0 <= DigitValue(c) < radix
  }

  predicate AllDigits(ds: string, radix: nat) {
    forall k | 0 <= k < |ds| :: IsDigitIn(ds[k], radix)
  }

  /** The first index at or after `i` whose character is not white space. */
  function SkipSpace(s: string, i: nat): (j: nat)
    requires i <= |s|
    ensures i <= j <= |s|
    ensures forall k | i <= k < j :: IsSpace(s[k])
    ensures j < |s| ==> !IsSpace(s[j])
    decreases |s| - i
  {
    if i < |s| && IsSpace(s[i]) then SkipSpace(s, i + 1) else i
  }

  /** The end of the longest run of radix digits that starts at `i`. */
  function DigitsEnd(s: string, i: nat, radix: nat): (j: nat)
    requires i <= |s|
    ensures i <= j <= |s|
    ensures AllDigits(s[i..j], radix)
    ensures j < |s| ==> !IsDigitIn(s[j], radix)
    decreases |s| - i
  {
    if i < |s| && IsDigitIn(s[i], radix) then
      var j := DigitsEnd(s, i + 1, radix);
      assert s[i..j] == [s[i]] + s[i + 1..j];
      j
    else i
  }

  /** The number a run of radix digits denotes, most significant first. */
  function DigitsValue(ds: string, radix: nat): nat
    requires AllDigits(ds, radix)
  {
    if ds == [] then 0
    else DigitsValue(ds[..|ds| - 1], radix) * radix + DigitValue(ds[|ds| - 1])
  }

  function Pow10(e: nat): (p: nat)
    ensures p >= 1
  {
    if e == 0 then 1 else 10 * Pow10(e - 1)
  }

  /** `m` times ten to the power `e`. */
  function Scale(m: real, e: int): real {
    if e >= 0 then m * Pow10(e) as real else m / Pow10(-e) as real
  }

  /** Whether `s` holds `w` at index `i`. */
  predicate HasAt(s: string, i: nat, w: string) {
    i + |w| <= |s| && s[i..i + |w|] == w
  }

  /** Index after an optional `+` or `-` at `i`, and whether it was `-`. */
  function SignEnd(s: string, i: nat): (j: nat)
    requires i <= |s|
    ensures i <= j <= |s|
  {
    if i < |s| && (s[i] == '+' || s[i] == '-') then i + 1 else i
  }

  predicate MinusAt(s: string, i: nat) {
    i < |s| && s[i] == '-'
  }

  /** The exponent part that follows a decimal mantissa ending at `k`, or 0
      when no complete exponent part is there. */
  function ExponentAt(s: string, k: nat): int
    requires k <= |s|
  {
    if k < |s| && (s[k] == 'e' || s[k] == 'E') then
      var e1 := SignEnd(s, k + 1);
      var e2 := DigitsEnd(s, e1, 10);
      if e2 == e1 then 0
      else if MinusAt(s, k + 1) then -(DigitsValue(s[e1..e2], 10) as int)
      else DigitsValue(s[e1..e2], 10) as int
    else 0
  }

  /** `parseFloat` of a string: the longest prefix, after leading white space,
      that is a StrDecimalLiteral; NaN when there is none. */
  function ParseFloatText(s: string): Num {
    var i := SkipSpace(s, 0);
    var i1 := SignEnd(s, i);
    if HasAt(s, i1, "Infinity") then Inf(MinusAt(s, i))
    else Signed(MinusAt(s, i), Decimal(s, i1))
  }

  /** The longest StrUnsignedDecimalLiteral from `i` on (digits, an optional
      point with optional fraction digits, an optional exponent part); NaN
      when neither the whole nor the fraction part has a digit. */
  function Decimal(s: string, i: nat): Num
    requires i <= |s|
  {
    var j := DigitsEnd(s, i, 10);
    var dot := j < |s| && s[j] == '.';
    var f := if dot then j + 1 else j;
    var k := if dot then DigitsEnd(s, f, 10) else j;
    if j == i && k == f then NaN
    else Fin(Scale(Mantissa(DigitsValue(s[i..j], 10), DigitsValue(s[f..k], 10), k - f), ExponentAt(s, k)))
  }

  /** `whole.fraction`, where the fraction has `digits` digits. */
  function Mantissa(whole: nat, fraction: nat, digits: nat): real {
    whole as real + fraction as real / Pow10(digits) as real
  }

  /** A leading `-` negates a finite value. */
  function Signed(neg: bool, x: Num): Num {
    if neg && x.Fin? then Fin(-x.v) else x
  }

  lemma MantissaWhole(w: nat)
    ensures Mantissa(w, 0, 0) == w as real
  {
    assert Pow10(0) == 1;
    assert 0 as real / 1 as real == 0.0;
  }

  lemma ScaleZero(m: real)
    ensures Scale(m, 0) == m
  {
  }

  /** `parseInt` of a string with no radix argument: a `0x`/`0X` prefix after
      the sign selects radix 16, otherwise radix 10. */
  function ParseIntText(s: string): (r: Num)
    ensures r.Fin? || r.NaN?
    ensures r.Fin? ==> r.v == r.v.Floor as real
  {
    var i := SkipSpace(s, 0);
    var neg := MinusAt(s, i);
    var i1 := SignEnd(s, i);
    var hex := i1 + 1 < |s| && s[i1] == '0' && (s[i1 + 1] == 'x' || s[i1 + 1] == 'X');
    var radix := if hex then 16 else 10;
    var b := if hex then i1 + 2 else i1;
    var e := DigitsEnd(s, b, radix);
    if e == b then NaN
    else
      var n := DigitsValue(s[b..e], radix);
      var m: int := if neg then -(n as int) else n;
      Fin(m as real)
  }

  /** `parseFloat(v)`: the argument is first converted to a string. A number
      converts to a string that parses back to itself; `undefined`, `null`,
      booleans and objects convert to text with no numeral. */
  function ParseFloat(v: Value): (r: Num)
    ensures v.Number? ==> r == v.n
    ensures v.Undefined? || v.Null? || v.Bool? || v.Obj? ==> r.NaN?
  {
    match v
    case Number(n) => n
    case Str(s) => ParseFloatText(s)
    case _ => NaN
  }

  /** Truncation toward zero, as `parseInt` of a number's decimal text gives. */
  function Trunc(x: real): (n: int)
    ensures 0.0 <= x ==> n as real <= x < n as real + 1.0
    ensures x < 0.0 ==> n as real - 1.0 < x <= n as real
  {
    if x >= 0.0 then x.Floor else -((-x).Floor)
  }

  /** `parseInt(v)`: a finite number loses its fraction; an infinity's text
      (`Infinity`) has no digits. */
  function ParseInt(v: Value): (r: Num)
    ensures r.Fin? || r.NaN?
    ensures r.Fin? ==> r.v == r.v.Floor as real
    ensures v.Number? && v.n.Fin? ==> r == Fin(Trunc(v.n.v) as real)
  {
    match v
    case Number(Fin(x)) => Fin(Trunc(x) as real)
    case Str(s) => ParseIntText(s)
    case _ => NaN
  }

  function DigitChar(d: nat): (c: char)
    requires d < 10
    ensures IsDigitIn(c, 10) && DigitValue(c) == d
  {
    ('0' as int + d) as char
  }

  /** The decimal text of a natural number, without leading zeros. */
  function NatText(n: nat): (s: string)
    ensures |s| >= 1 && AllDigits(s, 10)
    ensures !IsSpace(s[0]) && s[0] != '+' && s[0] != '-'
  {
    if n < 10 then [DigitChar(n)] else NatText(n / 10) + [DigitChar(n % 10)]
  }

  lemma {:induction false} NatTextValue(n: nat)
    ensures DigitsValue(NatText(n), 10) == n
  {
    if n >= 10 {
      var s := NatText(n);
      assert s[..|s| - 1] == NatText(n / 10);
      NatTextValue(n / 10);
    }
  }

  /** A run of digits that reaches the end of the string is read to the end. */
  lemma {:induction false} DigitsEndOfDigits(s: string, i: nat, radix: nat)
    requires i <= |s|
    requires forall k | i <= k < |s| :: IsDigitIn(s[k], radix)
    ensures DigitsEnd(s, i, radix) == |s|
    decreases |s| - i
  {
    if i < |s| {
      DigitsEndOfDigits(s, i + 1, radix);
    }
  }

  /** A run of digits followed by a non-digit, or by the end, is read exactly. */
  lemma {:induction false} DigitsEndAt(s: string, i: nat, j: nat, radix: nat)
    requires i <= j <= |s|
    requires forall k | i <= k < j :: IsDigitIn(s[k], radix)
    requires j < |s| ==> !IsDigitIn(s[j], radix)
    ensures DigitsEnd(s, i, radix) == j
    decreases j - i
  {
    if i < j {
      DigitsEndAt(s, i + 1, j, radix);
    }
  }

  lemma NotHasAt(s: string, i: nat, w: string)
    requires i < |s| && |w| > 0 && s[i] != w[0]
    ensures !HasAt(s, i, w)
  {
  }

  /** `parseInt` of a non-empty run of decimal digits with nothing before
      it is the number the digits denote. */
  lemma ParseIntWhole(s: string, w: nat)
    requires |s| >= 1 && AllDigits(s, 10) && !IsSpace(s[0]) && s[0] != '+' && s[0] != '-'
    requires DigitsValue(s, 10) == w
    ensures ParseIntText(s) == Fin(w as real)
  {
    assert SkipSpace(s, 0) == 0;
    assert SignEnd(s, 0) == 0;
    assert 1 < |s| ==> IsDigitIn(s[1], 10);
    DigitsEndOfDigits(s, 0, 10);
    assert s[0..|s|] == s;
  }

  /** A run of decimal digits up to the end of the string is read as the
      number it denotes. */
  lemma DecimalDigitsOnly(s: string, i: nat, w: nat)
    requires i < |s| && DigitsEnd(s, i, 10) == |s|
    requires AllDigits(s[i..], 10) && DigitsValue(s[i..], 10) == w
    ensures Decimal(s, i) == Fin(w as real)
  {
    var j := |s|;
    assert s[i..j] == s[i..];
    assert DigitsValue(s[j..j], 10) == 0;
    assert ExponentAt(s, j) == 0;
    MantissaWhole(w);
    ScaleZero(w as real);
  }

  /** `parseFloat` of a non-empty run of decimal digits with nothing before
      it is the number the digits denote. */
  lemma ParseFloatWhole(s: string, w: nat)
    requires |s| >= 1 && AllDigits(s, 10) && !IsSpace(s[0]) && s[0] != '+' && s[0] != '-'
    requires DigitsValue(s, 10) == w
    ensures ParseFloatText(s) == Fin(w as real)
  {
    assert SkipSpace(s, 0) == 0;
    assert SignEnd(s, 0) == 0;
    assert !MinusAt(s, 0);
    NotHasAt(s, 0, "Infinity");
    DigitsEndOfDigits(s, 0, 10);
    assert s[0..] == s;
    DecimalDigitsOnly(s, 0, w);
  }

  /** `parseInt` reads back the decimal text of every natural number. */
  lemma ParseIntNatText(n: nat)
    ensures ParseInt(Str(NatText(n))) == Fin(n as real)
  {
    NatTextValue(n);
    ParseIntWhole(NatText(n), n);
  }

  /** `parseFloat` reads back the decimal text of every natural number. */
  lemma ParseFloatNatText(n: nat)
    ensures ParseFloat(Str(NatText(n))) == Fin(n as real)
  {
    NatTextValue(n);
    ParseFloatWhole(NatText(n), n);
  }

  /** `parseFloat` of text that starts with digits, a point and more digits,
      with no exponent after them. */
  lemma ParseFloatPointed(s: string, j: nat, k: nat, whole: nat, fraction: nat)
    requires j + 1 < k <= |s| && s[j] == '.'
    requires SkipSpace(s, 0) == 0 && SignEnd(s, 0) == 0 && !HasAt(s, 0, "Infinity")
    requires DigitsEnd(s, 0, 10) == j && DigitsEnd(s, j + 1, 10) == k
    requires ExponentAt(s, k) == 0
    requires DigitsValue(s[0..j], 10) == whole && DigitsValue(s[j + 1..k], 10) == fraction
    ensures ParseFloatText(s) == Fin(whole as real + fraction as real / Pow10(k - j - 1) as real)
  {
    assert !MinusAt(s, 0);
    var m := Mantissa(whole, fraction, k - j - 1);
    assert Decimal(s, 0) == Fin(Scale(m, 0));
    ScaleZero(m);
  }


  // ---------------------------------------------------------------------------
  // Number.prototype.toFixed(2), read back with Number()

  /** The hundredth nearest to a non-negative `y`, the larger one on a tie. */
  function RoundCents(y: real): real {
    ((y * 100.0 + 0.5).Floor as real) / 100.0
  }

  /** `Number(x.toFixed(2))`: the magnitude is rounded to the nearest
      hundredth, ties away from zero, and the sign put back. */
  function ToFixed2(x: real): real {
    if x < 0.0 then -RoundCents(-x) else RoundCents(x)
  }

  /** A whole number of hundredths. */
  predicate IsCents(x: real) {
    (x * 100.0).Floor as real == x * 100.0
  }

  lemma IntegerIsCents(n: int)
    ensures IsCents(n as real / 100.0)
  {
    assert (n as real / 100.0) * 100.0 == n as real;
  }

  lemma RoundCentsNearest(y: real)
    ensures IsCents(RoundCents(y))
    ensures y - 0.005 < RoundCents(y) <= y + 0.005
  {
    var n := (y * 100.0 + 0.5).Floor;
    IntegerIsCents(n);
  }

  /** `toFixed(2)` lands on a hundredth within half a hundredth of its input. */
  lemma ToFixed2Nearest(x: real)
    ensures IsCents(ToFixed2(x))
    ensures -0.005 <= ToFixed2(x) - x <= 0.005
  {
    if x < 0.0 {
      RoundCentsNearest(-x);
      var n := (-x * 100.0 + 0.5).Floor;
      assert ToFixed2(x) == (-n) as real / 100.0;
      IntegerIsCents(-n);
    } else {
      RoundCentsNearest(x);
    }
  }

  lemma RoundCentsMonotone(x: real, y: real)
    requires x <= y
    ensures RoundCents(x) <= RoundCents(y)
  {
    assert (x * 100.0 + 0.5).Floor <= (y * 100.0 + 0.5).Floor;
  }

  /** `toFixed(2)` never reverses an order. */
  lemma ToFixed2Monotone(x: real, y: real)
    requires x <= y
    ensures ToFixed2(x) <= ToFixed2(y)
  {
    if x < 0.0 && y < 0.0 {
      RoundCentsMonotone(-y, -x);
    } else if x < 0.0 {
      RoundCentsMonotone(0.0, -x);
      RoundCentsMonotone(0.0, y);
    } else {
      RoundCentsMonotone(x, y);
    }
  }

  /** A value that already is a whole number of hundredths is kept. */
  lemma ToFixed2Cents(k: int)
    ensures ToFixed2(k as real / 100.0) == k as real / 100.0
  {
    var x := k as real / 100.0;
    if k < 0 {
      assert (-x * 100.0 + 0.5).Floor == -k;
    } else {
      assert (x * 100.0 + 0.5).Floor == k;
    }
  }

  /** Adding whole hundredths to a non-negative value commutes with
      `toFixed(2)`. */
  lemma ToFixed2Shift(x: real, k: nat)
    requires x >= 0.0
    ensures ToFixed2(x + k as real / 100.0) == ToFixed2(x) + k as real / 100.0
  {
    var a := x * 100.0 + 0.5;
    assert (x + k as real / 100.0) * 100.0 + 0.5 == a + k as real;
    assert (a + k as real).Floor == a.Floor + k;
  }

  /** The rounded value is non-negative exactly when the input is above
      minus half a hundredth (a tiny negative value shows as `-0.00`). */
  lemma ToFixed2NonNegative(x: real)
    ensures ToFixed2(x) >= 0.0 <==> x > -0.005
  {
    if x < 0.0 {
      if x > -0.005 {
        assert (-x * 100.0 + 0.5).Floor == 0;
      } else {
        assert (-x * 100.0 + 0.5).Floor >= 1;
      }
    }
  }

  // ---------------------------------------------------------------------------
  // Strings

  predicate IsLowerAscii(c: char) {
    'a' <= c <= 'z'
  }

  function UpperChar(c: char): (u: char)
    ensures !IsLowerAscii(u)
    ensures !IsLowerAscii(c) ==> u == c
  {
    if IsLowerAscii(c) then (c as int - 32) as char else c
  }

  /** `s.toUpperCase()` for ASCII letters: same length, every lower-case
      letter replaced by its capital, every other character kept. */
  function ToUpper(s: string): (r: string)
    ensures |r| == |s|
    ensures forall i | 0 <= i < |s| :: !IsLowerAscii(r[i])
    ensures forall i | 0 <= i < |s| :: !IsLowerAscii(s[i]) ==> r[i] == s[i]
    ensures forall i | 0 <= i < |s| :: IsLowerAscii(s[i]) ==> r[i] as int == s[i] as int - 32
  {
    seq(|s|, i requires 0 <= i < |s| => UpperChar(s[i]))
  }

  /** Upper-casing twice is upper-casing once. */
  lemma ToUpperIdempotent(s: string)
    ensures ToUpper(ToUpper(s)) == ToUpper(s)
  {
  }

  /** `s.replace(c, '')` for a one-character pattern: the first occurrence of
      `c`, if any, is removed. */
  function RemoveFirst(s: string, c: char): (r: string)
    ensures c !in s ==> r == s
    ensures c in s ==> |r| == |s| - 1
  {
    if s == [] then []
    else if s[0] == c then s[1..]
    else [s[0]] + RemoveFirst(s[1..], c)
  }

  /** When the first `c` sits at index `i`, exactly that character goes. */
  lemma {:induction false} RemoveFirstAt(s: string, c: char, i: nat)
    requires i < |s| && s[i] == c && c !in s[..i]
    ensures RemoveFirst(s, c) == s[..i] + s[i + 1..]
  {
    if i > 0 {
      assert s[1..][..i - 1] == s[1..i];
      assert c !in s[1..][..i - 1];
      RemoveFirstAt(s[1..], c, i - 1);
      assert s[1..][i - 1 + 1..] == s[i + 1..];
      assert [s[0]] + s[1..i] == s[..i];
    }
  }
}

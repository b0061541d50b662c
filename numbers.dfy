/** JavaScript numbers as the components see them: a finite value, one of the
    two infinities, or NaN.  The arithmetic below follows the IEEE-754
    special-value rules for +, -, *, / and JavaScript's Math.min/Math.max;
    finite values are exact reals (rounding is not modelled) and zero carries
    no sign (a division by zero treats the zero as +0). */
module Numbers {

  datatype Num = Fin(v: real) | PosInf | NegInf | NaN

  function Neg(a: Num): Num {
    match a
    case Fin(x) => Fin(-x)
    case PosInf => NegInf
    case NegInf => PosInf
    case NaN => NaN
  }

  /** The infinity of the given sign. */
  function InfWithSign(positive: bool): Num {
    if positive then PosInf else NegInf
  }

  function Add(a: Num, b: Num): (r: Num)
    ensures r.Fin? <==> a.Fin? && b.Fin?
  {
    match (a, b)
    case (Fin(x), Fin(y)) => Fin(x + y)
    case (NaN, _) => NaN
    case (_, NaN) => NaN
    case (PosInf, NegInf) => NaN
    case (NegInf, PosInf) => NaN
    case (PosInf, _) => PosInf
    case (NegInf, _) => NegInf
    case (_, PosInf) => PosInf
    case (_, NegInf) => NegInf
  }

  function Sub(a: Num, b: Num): (r: Num)
    ensures r.Fin? <==> a.Fin? && b.Fin?
  {
    Add(a, Neg(b))
  }

  function Mul(a: Num, b: Num): (r: Num)
    ensures r.Fin? <==> a.Fin? && b.Fin?
  {
    match (a, b)
    case (Fin(x), Fin(y)) => Fin(x * y)
    case (NaN, _) => NaN
    case (_, NaN) => NaN
    case (Fin(x), _) => if x == 0.0 then NaN else InfWithSign((x > 0.0) == b.PosInf?)
    case (_, Fin(y)) => if y == 0.0 then NaN else InfWithSign((y > 0.0) == a.PosInf?)
    case (_, _) => InfWithSign(a == b)
  }

  function Div(a: Num, b: Num): (r: Num)
    ensures r.Fin? <==> a.Fin? && ((b.Fin? && b.v != 0.0) || b.PosInf? || b.NegInf?)
  {
    match (a, b)
    case (Fin(x), Fin(y)) =>
      if y != 0.0 then Fin(x / y)
      else if x == 0.0 then NaN
      else InfWithSign(x > 0.0)
    case (NaN, _) => NaN
    case (_, NaN) => NaN
    case (Fin(_), _) => Fin(0.0)
    case (_, Fin(y)) => InfWithSign((y >= 0.0) == a.PosInf?)
    case (_, _) => NaN
  }

  /** Math.pow(a, 2); for every special value it agrees with a * a. */
  function Pow2(a: Num): (r: Num)
    ensures r.Fin? <==> a.Fin?
  {
    Mul(a, a)
  }

  /** The order JavaScript compares non-NaN numbers by. */
  predicate Below(a: Num, b: Num)
    requires !a.NaN? && !b.NaN?
  {
    match (a, b)
    case (Fin(x), Fin(y)) => x < y
    case (NegInf, _) => !b.NegInf?
    case (_, PosInf) => !a.PosInf?
    case (_, _) => false
  }

  /** Math.max(a, b). */
  function Max2(a: Num, b: Num): Num {
    if a.NaN? || b.NaN? then NaN else if Below(a, b) then b else a
  }

  /** Math.min(a, b). */
  function Min2(a: Num, b: Num): Num {
    if a.NaN? || b.NaN? then NaN else if Below(b, a) then b else a
  }

  /** Math.max(...s): -Infinity for an empty list, NaN as soon as one element is NaN. */
  function MaxOf(s: seq<Num>): Num {
    if |s| == 0 then NegInf else Max2(MaxOf(s[..|s| - 1]), s[|s| - 1])
  }

  /** Math.min(...s): +Infinity for an empty list. */
  function MinOf(s: seq<Num>): Num {
    if |s| == 0 then PosInf else Min2(MinOf(s[..|s| - 1]), s[|s| - 1])
  }

  /** Lifts a list of (always finite) samples. */
  function Lift(s: seq<real>): (r: seq<Num>)
    ensures |r| == |s| && forall k :: 0 <= k < |s| ==> r[k] == Fin(s[k])
  {
    seq(|s|, k requires 0 <= k < |s| => Fin(s[k]))
  }

  /** Math.log2, given the real logarithm `lg` on the positive reals. */
  function Log2(lg: Log2Fn, a: Num): Num {
    match a
    case Fin(x) => if x > 0.0 then Fin(lg(x)) else if x == 0.0 then NegInf else NaN
    case PosInf => PosInf
    case _ => NaN
  }

  /** The base-2 logarithm, kept abstract: only the laws the components rely on
      are assumed of it, that log2(1) = 0 and that it strictly increases on the
      positive reals.  The monotonicity law is used through Log2Increasing
      only, which keeps it out of the arithmetic proofs that do not need it. */
  type Log2Fn = f: real -> real | f(1.0) == 0.0
    && (forall a: real, b: real {:trigger ArgsOrdered(a, b)} :: 0.0 < a && ArgsOrdered(a, b) ==> f(a) < f(b))
    witness (x: real) => x - 1.0

  /** a < b, as a named fact the monotonicity law above is triggered on. */
  ghost predicate ArgsOrdered(a: real, b: real) { a < b }

  lemma Log2Increasing(lg: Log2Fn, a: real, b: real)
    requires 0.0 < a < b
    ensures lg(a) < lg(b)
  {
    assert ArgsOrdered(a, b);
  }

  /** The exponential, kept abstract: exp(0) = 1 and exp is positive.  The
      positivity law is used through ExpPositive only. */
  type ExpFn = f: real -> real | f(0.0) == 1.0
    && (forall x: real {:trigger ExpArg(x)} :: ExpArg(x) ==> f(x) > 0.0)
    witness (x: real) => 1.0

  /** Names an argument of the exponential, for the positivity law above. */
  ghost predicate ExpArg(x: real) { true }

  lemma ExpPositive(exp: ExpFn, x: real)
    ensures exp(x) > 0.0
  {
    assert ExpArg(x);
  }

  /** Math.ceil on a real. */
  function Ceil(x: real): (r: int)
    ensures x <= r as real < x + 1.0
  {
    -((-x).Floor)
  }

  /** Math.max(...s) over finite values agrees with the largest element. */
  lemma {:induction false} MaxOfFinite(s: seq<real>)
    requires |s| > 0
    ensures MaxOf(Lift(s)).Fin?
    ensures exists k :: 0 <= k < |s| && MaxOf(Lift(s)).v == s[k]
    ensures forall k :: 0 <= k < |s| ==> s[k] <= MaxOf(Lift(s)).v
  {
    var n := |s|;
    assert Lift(s)[..n - 1] == Lift(s[..n - 1]);
    if n == 1 {
      assert MaxOf(Lift(s)) == Max2(NegInf, Fin(s[0]));
    } else {
      MaxOfFinite(s[..n - 1]);
      var m := MaxOf(Lift(s[..n - 1]));
      var k :| 0 <= k < n - 1 && m.v == s[..n - 1][k];
      if m.v < s[n - 1] {
        assert MaxOf(Lift(s)).v == s[n - 1];
      } else {
        assert MaxOf(Lift(s)).v == s[k];
      }
    }
  }

  /** Math.min(...s) over finite values agrees with the smallest element. */
  lemma {:induction false} MinOfFinite(s: seq<real>)
    requires |s| > 0
    ensures MinOf(Lift(s)).Fin?
    ensures exists k :: 0 <= k < |s| && MinOf(Lift(s)).v == s[k]
    ensures forall k :: 0 <= k < |s| ==> MinOf(Lift(s)).v <= s[k]
  {
    var n := |s|;
    assert Lift(s)[..n - 1] == Lift(s[..n - 1]);
    if n == 1 {
      assert MinOf(Lift(s)) == Min2(PosInf, Fin(s[0]));
    } else {
      MinOfFinite(s[..n - 1]);
      var m := MinOf(Lift(s[..n - 1]));
      var k :| 0 <= k < n - 1 && m.v == s[..n - 1][k];
      if s[n - 1] < m.v {
        assert MinOf(Lift(s)).v == s[n - 1];
      } else {
        assert MinOf(Lift(s)).v == s[k];
      }
    }
  }

  /** One NaN anywhere makes Math.max(...s) NaN. */
  lemma {:induction false} MaxOfNaN(s: seq<Num>, k: nat)
    requires k < |s| && s[k].NaN?
    ensures MaxOf(s).NaN?
  {
    if k < |s| - 1 {
      MaxOfNaN(s[..|s| - 1], k);
    }
  }

  /** A +Infinity element (and no NaN) makes Math.max(...s) +Infinity. */
  lemma {:induction false} MaxOfPosInf(s: seq<Num>, k: nat)
    requires k < |s| && s[k].PosInf?
    ensures MaxOf(s).PosInf? || MaxOf(s).NaN?
  {
    if k < |s| - 1 {
      MaxOfPosInf(s[..|s| - 1], k);
    }
  }

  /** Math.trunc on a real: rounds toward zero. */
  function Trunc(y: real): int {
    if y >= 0.0 then y.Floor else -((-y).Floor)
  }

  /** JavaScript's `x % m` on numbers: the remainder of a division truncated
      toward zero, so it takes the sign of x. */
  function JsRem(x: real, m: real): real
    requires m != 0.0
  {
    x - m * (Trunc(x / m) as real)
  }

  /** For a non-negative time, `Math.floor(t / 60)` and `Math.floor(t % 60)`
      are the quotient and remainder of the whole seconds of t by 60. */
  lemma FloorBy60(t: real)
    requires t >= 0.0
    ensures (t / 60.0).Floor == t.Floor / 60
    ensures JsRem(t, 60.0).Floor == t.Floor % 60
    ensures JsRem(t, 60.0) >= 0.0
  {
    var n, h := t.Floor, (t / 60.0).Floor;
    assert h * 60 <= n < (h + 1) * 60;
    DivUnique(n, 60, h);
    assert JsRem(t, 60.0) == t - (h * 60) as real;
  }

  /** The same for 3600 seconds (hours). */
  lemma FloorBy3600(t: real)
    requires t >= 0.0
    ensures (t / 3600.0).Floor == t.Floor / 3600
    ensures JsRem(t, 3600.0).Floor == t.Floor % 3600
    ensures JsRem(t, 3600.0) >= 0.0
  {
    var n, h := t.Floor, (t / 3600.0).Floor;
    assert h * 3600 <= n < (h + 1) * 3600;
    DivUnique(n, 3600, h);
    assert JsRem(t, 3600.0) == t - (h * 3600) as real;
  }

  lemma DivUnique(n: int, c: int, h: int)
    requires c > 0 && h * c <= n < (h + 1) * c
    ensures n / c == h && n % c == n - h * c
  {
    var q, r := n / c, n % c;
    assert n == q * c + r && 0 <= r < c;
    if q < h {
      MulLe(q + 1, h, c);
    } else if q > h {
      MulLe(h + 1, q, c);
    }
  }

  lemma MulLe(a: int, b: int, c: int)
    requires a <= b && c > 0
    ensures a * c <= b * c
  {
  }

}

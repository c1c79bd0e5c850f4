/** Floating-point values as the sampler sees them.  Only the distinction
    between finite values, the two infinities and NaN matters to the
    bookkeeping; finite values are modelled as exact reals. */
module Numbers {

  datatype Num = Finite(v: real) | PosInf | NegInf | NaN {

    predicate IsInf() { PosInf? || NegInf? }

    predicate IsNaN() { NaN? }
  }

  /** IEEE-754 division of a finite dividend by a finite divisor: a zero
      divisor gives an infinity of the dividend's sign, or NaN for 0/0. */
  function Divide(a: real, b: real): Num
  {
    if b != 0.0 then Finite(a / b)
    else if a > 0.0 then PosInf
    else if a < 0.0 then NegInf
    else NaN
  }

  /** Sum of a sequence of reals, accumulated left to right. */
  function Sum(s: seq<real>): real
  {
    if s == [] then 0.0 else Sum(s[..|s| - 1]) + s[|s| - 1]
  }

  /** The real values of a sequence of finite numbers. */
  function Values(s: seq<Num>): (r: seq<real>)
    requires forall i :: 0 <= i < |s| ==> s[i].Finite?
    ensures |r| == |s|
    ensures forall i :: 0 <= i < |s| ==> Finite(r[i]) == s[i]
  {
    seq(|s|, i requires 0 <= i < |s| => s[i].v)
  }

  lemma {:induction false} SumAppend(a: seq<real>, b: seq<real>)
    ensures Sum(a + b) == Sum(a) + Sum(b)
    decreases |b|
  {
    if b == [] {
      assert a + b == a;
    } else {
      var b' := b[..|b| - 1];
      assert (a + b)[..|a + b| - 1] == a + b';
      SumAppend(a, b');
    }
  }
}

/**
 * CIVector.multiply(value:): a new vector of the same length whose every
 * component is scaled by a factor. A CIVector is modelled by its list of
 * components.
 */
module CIVectorOps {

  /** The components of `v` scaled by `factor`. */
  function Scaled(v: seq<real>, factor: real): (r: seq<real>)
    ensures |r| == |v|
    ensures forall i :: 0 <= i < |v| ==> r[i] == v[i] * factor
  {
    if |v| == 0 then [] else [v[0] * factor] + Scaled(v[1..], factor)
  }

  /** multiply(value:): appends the scaled components one by one. */
  method Multiply(v: seq<real>, value: real) returns (r: seq<real>)
    ensures r == Scaled(v, value)
  {
    var n := |v|;
    var targetArray: seq<real> := [];
    for i := 0 to n
      invariant |targetArray| == i
      invariant forall j :: 0 <= j < i ==> targetArray[j] == v[j] * value
    {
      targetArray := targetArray + [v[i] * value];
    }
    r := targetArray;
  }

  /** Scaling by one changes nothing. */
  lemma ScaledByOne(v: seq<real>)
    ensures Scaled(v, 1.0) == v
  {
  }

  /** Scaling by a and then by b is scaling by a·b. */
  lemma {:induction false} ScaledTwice(v: seq<real>, a: real, b: real)
    ensures Scaled(Scaled(v, a), b) == Scaled(v, a * b)
  {
    var twice := Scaled(Scaled(v, a), b);
    var direct := Scaled(v, a * b);
    forall i | 0 <= i < |v|
      ensures twice[i] == direct[i]
    {
      ScaledTwiceAt(v, a, b, i);
    }
  }

  /** One component of `ScaledTwice`. */
  lemma ScaledTwiceAt(v: seq<real>, a: real, b: real, i: nat)
    requires i < |v|
    ensures Scaled(Scaled(v, a), b)[i] == Scaled(v, a * b)[i]
  {
    var x := v[i];
    assert Scaled(v, a)[i] == x * a;
    Associative(x, a, b);
  }

  lemma Associative(x: real, a: real, b: real)
    ensures (x * a) * b == x * (a * b)
  {
  }

  /** Scaling by zero gives the zero vector of the same length. */
  lemma ScaledByZero(v: seq<real>)
    ensures Scaled(v, 0.0) == seq(|v|, _ => 0.0)
  {
  }
}

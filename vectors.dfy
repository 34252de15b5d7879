/** Element-wise arithmetic on vectors of reals, and the dot product that every
    gate of the GRU reduces to. These are the value-level counterparts of the
    vector primitives `vAdd`, `vSub`, `vProd` and `vMult`. */
module Vectors {

  /** Sum of a vector, accumulated from the first element to the last. */
  function Sum(s: seq<real>): real
  {
    if |s| == 0 then 0.0 else Sum(s[..|s| - 1]) + s[|s| - 1]
  }

  function Add(a: seq<real>, b: seq<real>): seq<real>
    requires |a| == |b|
  {
    seq(|a|, i requires 0 <= i < |a| => a[i] + b[i])
  }

  function Sub(a: seq<real>, b: seq<real>): seq<real>
    requires |a| == |b|
  {
    seq(|a|, i requires 0 <= i < |a| => a[i] - b[i])
  }

  /** Element-wise (Hadamard) product. */
  function Mul(a: seq<real>, b: seq<real>): seq<real>
    requires |a| == |b|
  {
    seq(|a|, i requires 0 <= i < |a| => a[i] * b[i])
  }

  function Scale(c: real, a: seq<real>): seq<real>
  {
    seq(|a|, i requires 0 <= i < |a| => c * a[i])
  }

  /** The value `x` repeated `n` times (also SIMD's `v_type(x)` for a lane of width `n`). */
  function Broadcast(x: real, n: nat): seq<real>
  {
    seq(n, _ => x)
  }

  function Zeros(n: nat): seq<real>
  {
    Broadcast(0.0, n)
  }

  function Ones(n: nat): seq<real>
  {
    Broadcast(1.0, n)
  }

  /** Inner product: the sum of the element-wise products. */
  function Dot(a: seq<real>, b: seq<real>): real
    requires |a| == |b|
  {
    Sum(Mul(a, b))
  }

  /** Summation distributes over concatenation. */
  lemma {:induction false} SumAppend(a: seq<real>, b: seq<real>)
    ensures Sum(a + b) == Sum(a) + Sum(b)
    decreases |b|
  {
    if |b| > 0 {
      var b' := b[..|b| - 1];
      assert (a + b)[..|a + b| - 1] == a + b';
      SumAppend(a, b');
    } else {
      assert a + b == a;
    }
  }

  /** A vector of zeros sums to zero. */
  lemma {:induction false} SumZeros(n: nat)
    ensures Sum(Zeros(n)) == 0.0
  {
    if n > 0 {
      assert Zeros(n)[..n - 1] == Zeros(n - 1);
      SumZeros(n - 1);
    }
  }

  /** The dot product of concatenations is the sum of the dot products of the parts. */
  lemma DotAppend(a1: seq<real>, a2: seq<real>, b1: seq<real>, b2: seq<real>)
    requires |a1| == |b1| && |a2| == |b2|
    ensures Dot(a1 + a2, b1 + b2) == Dot(a1, b1) + Dot(a2, b2)
  {
    var m := Mul(a1 + a2, b1 + b2);
    assert forall i :: 0 <= i < |m| ==> m[i] == (Mul(a1, b1) + Mul(a2, b2))[i] by {
      forall i | 0 <= i < |m| ensures m[i] == (Mul(a1, b1) + Mul(a2, b2))[i] {
        if i < |a1| {
        } else {
          assert (a1 + a2)[i] == a2[i - |a1|] && (b1 + b2)[i] == b2[i - |a1|];
        }
      }
    }
    assert m == Mul(a1, b1) + Mul(a2, b2);
    SumAppend(Mul(a1, b1), Mul(a2, b2));
  }

  /** A zero weight row contributes nothing, whatever it multiplies. */
  lemma DotZerosLeft(b: seq<real>)
    ensures Dot(Zeros(|b|), b) == 0.0
  {
    assert Mul(Zeros(|b|), b) == Zeros(|b|);
    SumZeros(|b|);
  }

  /** Zero padding of a weight row leaves its dot product with the unpadded
      prefix of the other operand unchanged; the padded part of `y` is ignored. */
  lemma DotZeroPadded(a: seq<real>, k: nat, y: seq<real>)
    requires |y| == |a| + k
    ensures Dot(a + Zeros(k), y) == Dot(a, y[..|a|])
  {
    assert y == y[..|a|] + y[|a|..];
    DotAppend(a, Zeros(k), y[..|a|], y[|a|..]);
    DotZerosLeft(y[|a|..]);
  }
}

/** The in-place vector primitives the dynamic layer calls (`vMult`, `vAdd`,
    `vSub`, `vProd`, `vCopy`, and the vector `sigmoid` and `tanh`). Each reads
    its inputs as values before it writes `out`, so an input may be the same
    buffer as `out`, which is how the layer uses them. */
module VectorOps {
  import opened Vectors
  import opened Activations

  /** Multiplies `a` and `b` element-wise into the scratch buffer `prod` and
      returns the sum of the products. */
  method VMult(a: seq<real>, b: seq<real>, prod: array<real>) returns (r: real)
    requires |a| == |b| <= prod.Length
    modifies prod
    ensures r == Dot(a, b)
    ensures prod[..|a|] == Mul(a, b) && prod[|a|..] == old(prod[|a|..])
  {
    var n := |a|;
    for i := 0 to n
      invariant forall k :: 0 <= k < i ==> prod[k] == a[k] * b[k]
      invariant prod[n..] == old(prod[n..])
    {
      prod[i] := a[i] * b[i];
    }
    assert forall k :: 0 <= k < n ==> prod[..n][k] == Mul(a, b)[k];
    assert prod[..n] == Mul(a, b);
    r := 0.0;
    for i := 0 to n
      invariant r == Sum(prod[..i])
    {
      assert prod[..i + 1][..i] == prod[..i];
      r := r + prod[i];
    }
  }

  method VAdd(in1: seq<real>, in2: seq<real>, out: array<real>)
    requires |in1| == |in2| == out.Length
    modifies out
    ensures out[..] == Add(in1, in2)
  {
    for i := 0 to out.Length
      invariant out[..i] == Add(in1, in2)[..i]
    {
      out[i] := in1[i] + in2[i];
    }
  }

  method VSub(in1: seq<real>, in2: seq<real>, out: array<real>)
    requires |in1| == |in2| == out.Length
    modifies out
    ensures out[..] == Sub(in1, in2)
  {
    for i := 0 to out.Length
      invariant out[..i] == Sub(in1, in2)[..i]
    {
      out[i] := in1[i] - in2[i];
    }
  }

  method VProd(in1: seq<real>, in2: seq<real>, out: array<real>)
    requires |in1| == |in2| == out.Length
    modifies out
    ensures out[..] == Mul(in1, in2)
  {
    for i := 0 to out.Length
      invariant forall k :: 0 <= k < i ==> out[k] == in1[k] * in2[k]
    {
      out[i] := in1[i] * in2[i];
    }
    assert forall k :: 0 <= k < out.Length ==> out[..][k] == Mul(in1, in2)[k];
    assert out[..] == Mul(in1, in2);
  }

  method VCopy(in1: seq<real>, out: array<real>)
    requires |in1| == out.Length
    modifies out
    ensures out[..] == in1
  {
    for i := 0 to out.Length
      invariant out[..i] == in1[..i]
    {
      out[i] := in1[i];
    }
  }

  method VSigmoid(tr: Transcendentals, in1: seq<real>, out: array<real>)
    requires tr.Valid() && |in1| == out.Length
    modifies out
    ensures out[..] == Sigmoids(tr, in1)
  {
    for i := 0 to out.Length
      invariant out[..i] == Sigmoids(tr, in1)[..i]
    {
      out[i] := Sigmoid(tr, in1[i]);
    }
  }

  method VTanh(tr: Transcendentals, in1: seq<real>, out: array<real>)
    requires |in1| == out.Length
    modifies out
    ensures out[..] == Tanhs(tr, in1)
  {
    for i := 0 to out.Length
      invariant out[..i] == Tanhs(tr, in1)[..i]
    {
      out[i] := Tanh(tr, in1[i]);
    }
  }

  /** Sets every element of `out` to `value` (`std::fill`). */
  method Fill(out: array<real>, value: real)
    modifies out
    ensures forall i :: 0 <= i < out.Length ==> out[i] == value
  {
    for i := 0 to out.Length
      invariant forall k :: 0 <= k < i ==> out[k] == value
    {
      out[i] := value;
    }
  }
}

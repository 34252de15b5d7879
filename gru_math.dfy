/** The GRU cell as a function of the input and the previous hidden state: the
    specification that both layer forms are proved against. */
module GruMath {
  import opened Vectors
  import opened Activations

  /** The weights of one gate: kernel rows `W` (one per output, `in_size` long),
      recurrent rows `U` (one per output, `out_size` long) and the two bias
      vectors `b[0]` (kernel side) and `b[1]` (recurrent side). */
  datatype WeightSet = WeightSet(W: seq<seq<real>>, U: seq<seq<real>>, b0: seq<real>, b1: seq<real>)
  {
    ghost predicate Shaped(inSize: nat, outSize: nat)
    {
      |W| == outSize && (forall i :: 0 <= i < outSize ==> |W[i]| == inSize) &&
      |U| == outSize && (forall i :: 0 <= i < outSize ==> |U[i]| == outSize) &&
      |b0| == outSize && |b1| == outSize
    }

    ghost predicate IsZero()
    {
      (forall i :: 0 <= i < |W| ==> W[i] == Zeros(|W[i]|)) &&
      (forall i :: 0 <= i < |U| ==> U[i] == Zeros(|U[i]|)) &&
      b0 == Zeros(|b0|) && b1 == Zeros(|b1|)
    }
  }

  /** The update (`z`), reset (`r`) and candidate (`c`) gate weights. */
  datatype GruWeights = GruWeights(z: WeightSet, r: WeightSet, c: WeightSet)
  {
    ghost predicate Shaped(inSize: nat, outSize: nat)
    {
      z.Shaped(inSize, outSize) && r.Shaped(inSize, outSize) && c.Shaped(inSize, outSize)
    }

    ghost predicate IsZero()
    {
      z.IsZero() && r.IsZero() && c.IsZero()
    }
  }

  /** W[t]·x + U[t]·h for every output t: a gate's input before its biases. */
  function GatePre(g: WeightSet, x: seq<real>, h: seq<real>): seq<real>
    requires g.Shaped(|x|, |h|)
  {
    seq(|h|, t requires 0 <= t < |h| => Dot(g.W[t], x) + Dot(g.U[t], h))
  }

  /** W[t]·x for every output t. */
  function KernelPre(g: WeightSet, x: seq<real>, h: seq<real>): seq<real>
    requires g.Shaped(|x|, |h|)
  {
    seq(|h|, t requires 0 <= t < |h| => Dot(g.W[t], x))
  }

  /** U[t]·h for every output t. */
  function RecurrentPre(g: WeightSet, x: seq<real>, h: seq<real>): seq<real>
    requires g.Shaped(|x|, |h|)
  {
    seq(|h|, t requires 0 <= t < |h| => Dot(g.U[t], h))
  }

  /** Update or reset gate, element i: sigmoid(W[i]·x + U[i]·h + b[0][i] + b[1][i]). */
  function Gate(tr: Transcendentals, g: WeightSet, x: seq<real>, h: seq<real>, i: nat): real
    requires tr.Valid() && g.Shaped(|x|, |h|) && i < |h|
  {
    Sigmoid(tr, Dot(g.W[i], x) + Dot(g.U[i], h) + g.b0[i] + g.b1[i])
  }

  /** Candidate state from its two pre-activations: the recurrent part is
      scaled by the reset gate `r`, the kernel part is added after it. */
  function CandidateOf(tr: Transcendentals, kernel: real, recurrent: real, r: real): real
  {
    Tanh(tr, recurrent * r + kernel)
  }

  /** Candidate state, element i, with the split bias: b[1] joins the
      recurrent term inside the reset-gate product, b[0] joins the kernel term
      outside it: tanh((U[i]·h + b[1][i])·r + W[i]·x + b[0][i]). */
  function Candidate(tr: Transcendentals, g: WeightSet, r: real, x: seq<real>, h: seq<real>, i: nat): real
    requires g.Shaped(|x|, |h|) && i < |h|
  {
    CandidateOf(tr, Dot(g.W[i], x) + g.b0[i], Dot(g.U[i], h) + g.b1[i], r)
  }

  /** The new state element: (1 - z)·c + z·h. */
  function Blend(z: real, c: real, hv: real): real
  {
    (1.0 - z) * c + z * hv
  }

  /** One GRU step: h'[i] = (1 - z[i])·c[i] + z[i]·h[i]. */
  function GruStep(tr: Transcendentals, ws: GruWeights, x: seq<real>, h: seq<real>): seq<real>
    requires tr.Valid() && ws.Shaped(|x|, |h|)
  {
    seq(|h|, i requires 0 <= i < |h| =>
      Blend(Gate(tr, ws.z, x, h, i), Candidate(tr, ws.c, Gate(tr, ws.r, x, h, i), x, h, i), h[i]))
  }

  /** The hidden state after feeding the inputs `xs` one after the other. */
  function Run(tr: Transcendentals, ws: GruWeights, xs: seq<seq<real>>, h: seq<real>, inSize: nat): (h': seq<real>)
    requires tr.Valid() && ws.Shaped(inSize, |h|)
    requires forall t :: 0 <= t < |xs| ==> |xs[t]| == inSize
    ensures |h'| == |h|
    decreases |xs|
  {
    if |xs| == 0 then h
    else GruStep(tr, ws, xs[|xs| - 1], Run(tr, ws, xs[..|xs| - 1], h, inSize))
  }

  /** v·(1/2)^n */
  function Halved(v: real, n: nat): real
  {
    if n == 0 then v else 0.5 * Halved(v, n - 1)
  }

  /** A gate whose weights and biases are all zero is open halfway. */
  lemma ZeroGateIsHalf(tr: Transcendentals, g: WeightSet, x: seq<real>, h: seq<real>, i: nat)
    requires tr.Valid() && g.Shaped(|x|, |h|) && g.IsZero() && tr.exp(0.0) == 1.0
    requires i < |h|
    ensures Gate(tr, g, x, h, i) == 0.5
  {
    assert g.W[i] == Zeros(|x|) && g.U[i] == Zeros(|h|);
    DotZerosLeft(x);
    DotZerosLeft(h);
    assert g.b0[i] == 0.0 && g.b1[i] == 0.0;
  }

  /** A candidate whose weights and biases are all zero is tanh(0). */
  lemma ZeroCandidateIsZero(tr: Transcendentals, g: WeightSet, r: real, x: seq<real>, h: seq<real>, i: nat)
    requires g.Shaped(|x|, |h|) && g.IsZero() && Tanh(tr, 0.0) == 0.0
    requires i < |h|
    ensures Candidate(tr, g, r, x, h, i) == 0.0
  {
    assert g.W[i] == Zeros(|x|) && g.U[i] == Zeros(|h|);
    DotZerosLeft(x);
    DotZerosLeft(h);
    assert g.b0[i] == 0.0 && g.b1[i] == 0.0;
    assert CandidateOf(tr, 0.0, 0.0, r) == Tanh(tr, 0.0 * r + 0.0);
  }

  lemma ZeroWeightsStepAt(tr: Transcendentals, ws: GruWeights, x: seq<real>, h: seq<real>, i: nat)
    requires tr.Valid() && ws.Shaped(|x|, |h|) && ws.IsZero()
    requires tr.exp(0.0) == 1.0 && Tanh(tr, 0.0) == 0.0
    requires i < |h|
    ensures GruStep(tr, ws, x, h)[i] == 0.5 * h[i]
  {
    ZeroGateIsHalf(tr, ws.z, x, h, i);
    ZeroCandidateIsZero(tr, ws.c, Gate(tr, ws.r, x, h, i), x, h, i);
  }

  /** With every weight and bias zero, sigmoid(0) = 1/2 and tanh(0) = 0, so one
      step halves the hidden state, whatever the input. */
  lemma ZeroWeightsHalveState(tr: Transcendentals, ws: GruWeights, x: seq<real>, h: seq<real>)
    requires tr.Valid() && ws.Shaped(|x|, |h|) && ws.IsZero()
    requires tr.exp(0.0) == 1.0 && Tanh(tr, 0.0) == 0.0
    ensures GruStep(tr, ws, x, h) == Scale(0.5, h)
  {
    var h' := GruStep(tr, ws, x, h);
    forall i | 0 <= i < |h|
      ensures h'[i] == Scale(0.5, h)[i]
    {
      ZeroWeightsStepAt(tr, ws, x, h, i);
    }
  }

  lemma ZeroWeightsRunStep(tr: Transcendentals, ws: GruWeights, xs: seq<seq<real>>, h: seq<real>, inSize: nat, i: nat)
    requires tr.Valid() && ws.Shaped(inSize, |h|) && ws.IsZero()
    requires tr.exp(0.0) == 1.0 && Tanh(tr, 0.0) == 0.0
    requires forall t :: 0 <= t < |xs| ==> |xs[t]| == inSize
    requires |xs| > 0 && i < |h|
    ensures Run(tr, ws, xs, h, inSize)[i] == 0.5 * Run(tr, ws, xs[..|xs| - 1], h, inSize)[i]
  {
    ZeroWeightsStepAt(tr, ws, xs[|xs| - 1], Run(tr, ws, xs[..|xs| - 1], h, inSize), i);
  }

  /** Repeated steps with zero weights: after n inputs every element of the
      state is scaled by (1/2)^n, so the state decays towards zero. */
  lemma {:induction false} ZeroWeightsRunDecays(tr: Transcendentals, ws: GruWeights, xs: seq<seq<real>>, h: seq<real>, inSize: nat, i: nat)
    requires tr.Valid() && ws.Shaped(inSize, |h|) && ws.IsZero()
    requires tr.exp(0.0) == 1.0 && Tanh(tr, 0.0) == 0.0
    requires forall t :: 0 <= t < |xs| ==> |xs[t]| == inSize
    requires i < |h|
    ensures Run(tr, ws, xs, h, inSize)[i] == Halved(h[i], |xs|)
    decreases |xs|
  {
    if |xs| > 0 {
      var xs' := xs[..|xs| - 1];
      ZeroWeightsRunDecays(tr, ws, xs', h, inSize, i);
      ZeroWeightsRunStep(tr, ws, xs, h, inSize, i);
    }
  }

  /** The new state is a convex combination of the candidate and the old state,
      so with a tanh bounded by 1 a state inside [-1, 1] stays inside it. */
  lemma StepKeepsStateBounded(tr: Transcendentals, ws: GruWeights, x: seq<real>, h: seq<real>)
    requires tr.Valid() && tr.TanhBounded() && ws.Shaped(|x|, |h|)
    requires forall i :: 0 <= i < |h| ==> -1.0 <= h[i] <= 1.0
    ensures var h' := GruStep(tr, ws, x, h);
      |h'| == |h| && forall i :: 0 <= i < |h'| ==> -1.0 <= h'[i] <= 1.0
  {
    var h' := GruStep(tr, ws, x, h);
    forall i | 0 <= i < |h|
      ensures -1.0 <= h'[i] <= 1.0
    {
      var z := Gate(tr, ws.z, x, h, i);
      var c := Candidate(tr, ws.c, Gate(tr, ws.r, x, h, i), x, h, i);
      assert 0.0 < z < 1.0;
      assert -1.0 <= c <= 1.0;
      ConvexBound(z, c, h[i]);
    }
  }

  lemma ConvexBound(z: real, a: real, b: real)
    requires 0.0 <= z <= 1.0 && -1.0 <= a <= 1.0 && -1.0 <= b <= 1.0
    ensures -1.0 <= Blend(z, a, b) <= 1.0
  {
    var w := 1.0 - z;
    MulNonNegative(w, 1.0 - a);
    MulNonNegative(w, a + 1.0);
    MulNonNegative(z, 1.0 - b);
    MulNonNegative(z, b + 1.0);
  }

  lemma MulNonNegative(p: real, q: real)
    requires p >= 0.0 && q >= 0.0
    ensures p * q >= 0.0
  {
  }
}

/** The static layer computes the same GRU step as the dynamic one: under the
    packing of the logical weights into lanes, the next `outs` of either
    `forward` overload, laid end to end, is `GruStep` of the flattened input
    and state. */
module GruEquivalence {
  import opened Vectors
  import opened Activations
  import opened GruMath
  import opened Lanes
  import opened GruLayerStatic

  /** Lane element `e` of output lane `j` of a product with packed rows is the
      dot product of logical row `e + j·v` with the first `n` values of the
      vector. */
  lemma PackedMatMulAt(mat: seq<seq<seq<real>>>, rows: seq<seq<real>>, vec: seq<seq<real>>,
                       v: nat, L: nat, n: nat, j: nat, e: nat)
    requires v > 0 && Shaped(vec, v) && PacksRows(mat, rows, v, |vec|)
    requires forall r :: 0 <= r < |rows| ==> |rows[r]| == n
    requires n <= |vec| * v && L * v <= |rows| && j < L && e < v
    ensures Conformable(mat, vec) && RowOf(e, j, v) < |rows|
    ensures MatMulSpec(mat, vec, v, L)[j][e] == Dot(rows[RowOf(e, j, v)], Flatten(vec)[..n])
  {
    assert MatShaped(mat, |mat|, |vec|, v) by {
      forall r | 0 <= r < |mat|
        ensures Fits(mat[r], v, |vec|)
      {
        assert mat[r] == Pack(rows[r], v, |vec|);
      }
    }
    ShapedConformable(mat, vec, v, |vec|);
    RowOfInRange(e, j, v, L);
    var r := RowOf(e, j, v);
    assert MatMulSpec(mat, vec, v, L)[j][e] == RowDot(mat[r], vec);
    assert mat[r] == Pack(rows[r], v, |vec|);
    PackedRowDot(rows[r], vec, v);
  }

  /** Lane element `i + j·v` of a packed vector is element `i + j·v` of the vector. */
  lemma PackAt(s: seq<real>, v: nat, L: nat, j: nat, e: nat)
    requires j < L && e < v && RowOf(e, j, v) < |s|
    ensures Pack(s, v, L)[j][e] == s[RowOf(e, j, v)]
  {
  }

  lemma GateLaneAt(tr: Transcendentals, g: WeightSet, rec: seq<seq<real>>, b: seq<seq<real>>, k: seq<seq<real>>,
                   v: nat, x: seq<real>, h: seq<real>, j: nat, e: nat, r: nat)
    requires tr.Valid() && g.Shaped(|x|, |h|) && Shaped(rec, v) && Fits(b, v, |rec|) && Fits(k, v, |rec|)
    requires j < |rec| && e < v && r < |h|
    requires rec[j][e] == Dot(g.U[r], h) && b[j][e] == g.b0[r] + g.b1[r] && k[j][e] == Dot(g.W[r], x)
    ensures GateLanes(tr, rec, b, k, v)[j][e] == Gate(tr, g, x, h, r)
  {
    assert rec[j][e] + b[j][e] + k[j][e] == Dot(g.W[r], x) + Dot(g.U[r], h) + g.b0[r] + g.b1[r];
  }

  lemma GateLaneSingleAt(tr: Transcendentals, g: WeightSet, rec: seq<seq<real>>, b: seq<seq<real>>, w: seq<seq<real>>,
                         x1: seq<real>, v: nat, x: seq<real>, h: seq<real>, j: nat, e: nat, r: nat)
    requires tr.Valid() && g.Shaped(|x|, |h|) && Shaped(rec, v) && Fits(b, v, |rec|) && Fits(w, v, |rec|) && |x1| == v
    requires j < |rec| && e < v && r < |h|
    requires rec[j][e] == Dot(g.U[r], h) && b[j][e] == g.b0[r] + g.b1[r] && w[j][e] * x1[e] == Dot(g.W[r], x)
    ensures GateLanesSingle(tr, rec, b, w, x1, v)[j][e] == Gate(tr, g, x, h, r)
  {
    var f := Fma(w[j], x1, Add(rec[j], b[j]));
    assert f[e] == w[j][e] * x1[e] + (rec[j][e] + b[j][e]);
    var a := Dot(g.W[r], x) + Dot(g.U[r], h) + g.b0[r] + g.b1[r];
    assert f[e] == a;
    assert GateLanesSingle(tr, rec, b, w, x1, v)[j][e] == Sigmoid(tr, f[e]);
  }

  lemma CandidateLaneAt(tr: Transcendentals, g: WeightSet, rt: seq<seq<real>>, ct: seq<seq<real>>, bh1: seq<seq<real>>,
                        kside: seq<seq<real>>, v: nat, rg: real, x: seq<real>, h: seq<real>, j: nat, e: nat, r: nat)
    requires g.Shaped(|x|, |h|) && Shaped(rt, v) && Fits(ct, v, |rt|) && Fits(bh1, v, |rt|) && Fits(kside, v, |rt|)
    requires j < |rt| && e < v && r < |h|
    requires rt[j][e] == rg && ct[j][e] == Dot(g.U[r], h) && bh1[j][e] == g.b1[r]
    requires kside[j][e] == Dot(g.W[r], x) + g.b0[r]
    ensures CandidateLanes(tr, rt, ct, bh1, kside, v)[j][e] == Candidate(tr, g, rg, x, h, r)
  {
    var kk, uu := Dot(g.W[r], x) + g.b0[r], Dot(g.U[r], h) + g.b1[r];
    assert Candidate(tr, g, rg, x, h, r) == CandidateOf(tr, kk, uu, rg) == Tanh(tr, uu * rg + kk);
    var f := Fma(rt[j], Add(ct[j], bh1[j]), kside[j]);
    assert f[e] == rt[j][e] * (ct[j][e] + bh1[j][e]) + kside[j][e];
    assert f[e] == uu * rg + kk;
    assert CandidateLanes(tr, rt, ct, bh1, kside, v)[j][e] == Tanh(tr, f[e]);
  }

  lemma BlendLaneAt(zt: seq<seq<real>>, ht: seq<seq<real>>, outs: seq<seq<real>>, v: nat, j: nat, e: nat)
    requires Shaped(zt, v) && Fits(ht, v, |zt|) && Fits(outs, v, |zt|) && j < |zt| && e < v
    ensures BlendLanes(zt, ht, outs, v)[j][e] == Blend(zt[j][e], ht[j][e], outs[j][e])
  {
  }

  /** The lane layout shared by the static lemmas: `ins` and `outs` as lane
      arrays of the layer's sizes, `out_size` a multiple of `v`. */
  ghost predicate LaneSizes(ins: seq<seq<real>>, outs: seq<seq<real>>, inSize: nat, outSize: nat, v: nat)
  {
    v > 0 && outSize % v == 0 && Fits(ins, v, CeilDiv(inSize, v)) && Fits(outs, v, CeilDiv(outSize, v))
  }

  /** Update or reset gate, lane element `e` of lane `j`, computed from the
      packed rows and bias by the general `forward`. */
  lemma PackedGateAt(tr: Transcendentals, g: WeightSet, U: seq<seq<seq<real>>>, W: seq<seq<seq<real>>>, b: seq<seq<real>>,
                     ins: seq<seq<real>>, outs: seq<seq<real>>, inSize: nat, outSize: nat, v: nat, j: nat, e: nat)
    requires tr.Valid() && LaneSizes(ins, outs, inSize, outSize, v) && g.Shaped(inSize, outSize)
    requires PacksRows(U, g.U, v, CeilDiv(outSize, v)) && PacksRows(W, g.W, v, CeilDiv(inSize, v))
    requires b == Pack(Add(g.b0, g.b1), v, CeilDiv(outSize, v))
    requires j < CeilDiv(outSize, v) && e < v
    ensures Conformable(U, outs) && Conformable(W, ins) && RowOf(e, j, v) < outSize
    ensures GateLanes(tr, MatMulSpec(U, outs, v, CeilDiv(outSize, v)), b, MatMulSpec(W, ins, v, CeilDiv(outSize, v)), v)[j][e]
         == Gate(tr, g, Flatten(ins)[..inSize], Flatten(outs), RowOf(e, j, v))
  {
    var L := CeilDiv(outSize, v);
    var h := Flatten(outs);
    assert h[..outSize] == h;
    PackedMatMulAt(U, g.U, outs, v, L, outSize, j, e);
    PackedMatMulAt(W, g.W, ins, v, L, inSize, j, e);
    PackAt(Add(g.b0, g.b1), v, L, j, e);
    GateLaneAt(tr, g, MatMulSpec(U, outs, v, L), b, MatMulSpec(W, ins, v, L), v,
               Flatten(ins)[..inSize], h, j, e, RowOf(e, j, v));
  }

  /** Update or reset gate, lane element `e` of lane `j`, computed by the
      single-input `forward` from the broadcast input. */
  lemma PackedGateSingleAt(tr: Transcendentals, g: WeightSet, U: seq<seq<seq<real>>>, w: seq<seq<real>>, b: seq<seq<real>>,
                           x0: real, outs: seq<seq<real>>, outSize: nat, v: nat, j: nat, e: nat)
    requires tr.Valid() && LaneSizes([Broadcast(x0, v)], outs, 1, outSize, v) && g.Shaped(1, outSize)
    requires PacksRows(U, g.U, v, CeilDiv(outSize, v)) && w == Pack(Column(g.W), v, CeilDiv(outSize, v))
    requires b == Pack(Add(g.b0, g.b1), v, CeilDiv(outSize, v))
    requires j < CeilDiv(outSize, v) && e < v
    ensures Conformable(U, outs) && RowOf(e, j, v) < outSize
    ensures GateLanesSingle(tr, MatMulSpec(U, outs, v, CeilDiv(outSize, v)), b, w, Broadcast(x0, v), v)[j][e]
         == Gate(tr, g, [x0], Flatten(outs), RowOf(e, j, v))
  {
    var L := CeilDiv(outSize, v);
    var h := Flatten(outs);
    var r := RowOf(e, j, v);
    assert h[..outSize] == h;
    PackedMatMulAt(U, g.U, outs, v, L, outSize, j, e);
    PackAt(Add(g.b0, g.b1), v, L, j, e);
    PackAt(Column(g.W), v, L, j, e);
    DotSingle(g.W[r], [x0]);
    GateLaneSingleAt(tr, g, MatMulSpec(U, outs, v, L), b, w, Broadcast(x0, v), v, [x0], h, j, e, r);
  }

  /** Candidate, lane element `e` of lane `j`, given the kernel side of the
      candidate at that element. */
  lemma PackedCandidateAt(tr: Transcendentals, g: WeightSet, U: seq<seq<seq<real>>>, bh1: seq<seq<real>>,
                          rt: seq<seq<real>>, kside: seq<seq<real>>, x: seq<real>, rg: real,
                          outs: seq<seq<real>>, outSize: nat, v: nat, j: nat, e: nat)
    requires v > 0 && outSize % v == 0 && Fits(outs, v, CeilDiv(outSize, v)) && g.Shaped(|x|, outSize)
    requires PacksRows(U, g.U, v, CeilDiv(outSize, v)) && bh1 == Pack(g.b1, v, CeilDiv(outSize, v))
    requires Fits(rt, v, CeilDiv(outSize, v)) && Fits(kside, v, CeilDiv(outSize, v))
    requires j < CeilDiv(outSize, v) && e < v && RowOf(e, j, v) < outSize
    requires rt[j][e] == rg && kside[j][e] == Dot(g.W[RowOf(e, j, v)], x) + g.b0[RowOf(e, j, v)]
    ensures Conformable(U, outs)
    ensures CandidateLanes(tr, rt, MatMulSpec(U, outs, v, CeilDiv(outSize, v)), bh1, kside, v)[j][e]
         == Candidate(tr, g, rg, x, Flatten(outs), RowOf(e, j, v))
  {
    var L := CeilDiv(outSize, v);
    var h := Flatten(outs);
    assert h[..outSize] == h;
    PackedMatMulAt(U, g.U, outs, v, L, outSize, j, e);
    PackAt(g.b1, v, L, j, e);
    CandidateLaneAt(tr, g, rt, MatMulSpec(U, outs, v, L), bh1, kside, v, rg, x, h, j, e, RowOf(e, j, v));
  }

  /** Lane element `e` of output lane `j` after the general `forward` is
      element `e + j·v` of the GRU step. */
  lemma StaticStepAt(tr: Transcendentals, pw: PackedWeights, ws: GruWeights, ins: seq<seq<real>>, outs: seq<seq<real>>,
                     inSize: nat, outSize: nat, v: nat, j: nat, e: nat)
    requires tr.Valid() && StepReady(pw, ins, outs, inSize, outSize, v)
    requires ws.Shaped(inSize, outSize) && Packs(pw, ws, inSize, outSize, v)
    requires j < CeilDiv(outSize, v) && e < v
    ensures RowOf(e, j, v) < outSize
    ensures StaticStep(tr, pw, ins, outs, inSize, outSize, v)[j][e]
         == GruStep(tr, ws, Flatten(ins)[..inSize], Flatten(outs))[RowOf(e, j, v)]
  {
    StepReadyConformable(pw, ins, outs, inSize, outSize, v);
    var L := CeilDiv(outSize, v);
    var x, h := Flatten(ins)[..inSize], Flatten(outs);
    var r := RowOf(e, j, v);
    RowOfInRange(e, j, v, L);
    FlattenIndex(outs, v);

    var zt := GateLanes(tr, MatMulSpec(pw.Uz, outs, v, L), pw.bz, MatMulSpec(pw.Wz, ins, v, L), v);
    var rt := GateLanes(tr, MatMulSpec(pw.Ur, outs, v, L), pw.br, MatMulSpec(pw.Wr, ins, v, L), v);
    var ht := CandidateLanes(tr, rt, MatMulSpec(pw.Uh, outs, v, L), pw.bh1, AddLanes(pw.bh0, MatMulSpec(pw.Wh, ins, v, L), v), v);
    PackedGateAt(tr, ws.z, pw.Uz, pw.Wz, pw.bz, ins, outs, inSize, outSize, v, j, e);
    StaticCandidateAt(tr, pw, ws, ins, outs, inSize, outSize, v, j, e);
    BlendLaneAt(zt, ht, outs, v, j, e);
    assert StaticStep(tr, pw, ins, outs, inSize, outSize, v) == BlendLanes(zt, ht, outs, v);
  }

  /** The candidate lanes of the general `forward`, at lane element `e` of
      lane `j`, hold the candidate of row `e + j·v` under the reset gate of
      that row. */
  lemma StaticCandidateAt(tr: Transcendentals, pw: PackedWeights, ws: GruWeights, ins: seq<seq<real>>, outs: seq<seq<real>>,
                          inSize: nat, outSize: nat, v: nat, j: nat, e: nat)
    requires tr.Valid() && StepReady(pw, ins, outs, inSize, outSize, v)
    requires ws.Shaped(inSize, outSize) && Packs(pw, ws, inSize, outSize, v)
    requires j < CeilDiv(outSize, v) && e < v
    ensures RowOf(e, j, v) < outSize && |Flatten(ins)| >= inSize && |Flatten(outs)| == outSize
    ensures Conformable(pw.Ur, outs) && Conformable(pw.Wr, ins) && Conformable(pw.Uh, outs) && Conformable(pw.Wh, ins)
    ensures var L := CeilDiv(outSize, v);
            var x, h := Flatten(ins)[..inSize], Flatten(outs);
            var rt := GateLanes(tr, MatMulSpec(pw.Ur, outs, v, L), pw.br, MatMulSpec(pw.Wr, ins, v, L), v);
            CandidateLanes(tr, rt, MatMulSpec(pw.Uh, outs, v, L), pw.bh1, AddLanes(pw.bh0, MatMulSpec(pw.Wh, ins, v, L), v), v)[j][e]
            == Candidate(tr, ws.c, Gate(tr, ws.r, x, h, RowOf(e, j, v)), x, h, RowOf(e, j, v))
  {
    StepReadyConformable(pw, ins, outs, inSize, outSize, v);
    var L := CeilDiv(outSize, v);
    var x, h := Flatten(ins)[..inSize], Flatten(outs);
    var r := RowOf(e, j, v);
    RowOfInRange(e, j, v, L);
    var rt := GateLanes(tr, MatMulSpec(pw.Ur, outs, v, L), pw.br, MatMulSpec(pw.Wr, ins, v, L), v);
    var kside := AddLanes(pw.bh0, MatMulSpec(pw.Wh, ins, v, L), v);
    PackedGateAt(tr, ws.r, pw.Ur, pw.Wr, pw.br, ins, outs, inSize, outSize, v, j, e);
    PackedMatMulAt(pw.Wh, ws.c.W, ins, v, L, inSize, j, e);
    PackAt(ws.c.b0, v, L, j, e);
    assert kside[j][e] == Dot(ws.c.W[r], x) + ws.c.b0[r];
    PackedCandidateAt(tr, ws.c, pw.Uh, pw.bh1, rt, kside, x, Gate(tr, ws.r, x, h, r), outs, outSize, v, j, e);
  }

  /** A length-one dot product is a single product. */
  lemma DotSingle(a: seq<real>, b: seq<real>)
    requires |a| == |b| == 1
    ensures Dot(a, b) == a[0] * b[0]
  {
    var m := Mul(a, b);
    assert m[..0] == [];
    assert Sum(m) == Sum(m[..0]) + m[0];
  }

  /** One broadcast lane flattens to the broadcast value, first element first. */
  lemma FlattenBroadcast(x0: real, v: nat)
    requires v > 0
    ensures Flatten([Broadcast(x0, v)])[..1] == [x0]
  {
    assert [Broadcast(x0, v)][..0] == [];
  }

  /** The kernel side of the single-input candidate, `fma(Wh_1, ins[0], bh0)`,
      at lane element `e` of lane `j`. */
  lemma KernelSideSingleAt(g: WeightSet, w: seq<seq<real>>, bh0: seq<seq<real>>, x0: real, outSize: nat, v: nat, j: nat, e: nat)
    requires v > 0 && g.Shaped(1, outSize) && CeilDiv(outSize, v) * v == outSize
    requires w == Pack(Column(g.W), v, CeilDiv(outSize, v)) && bh0 == Pack(g.b0, v, CeilDiv(outSize, v))
    requires j < CeilDiv(outSize, v) && e < v
    ensures RowOf(e, j, v) < outSize
    ensures FmaLanes(w, Broadcast(x0, v), bh0, v)[j][e] == Dot(g.W[RowOf(e, j, v)], [x0]) + g.b0[RowOf(e, j, v)]
  {
    var L := CeilDiv(outSize, v);
    RowOfInRange(e, j, v, L);
    PackAt(Column(g.W), v, L, j, e);
    PackAt(g.b0, v, L, j, e);
    DotSingle(g.W[RowOf(e, j, v)], [x0]);
  }

  /** Lane element `e` of output lane `j` after the single-input `forward`
      with the input broadcast to every lane element is element `e + j·v` of
      the GRU step. */
  lemma StaticStepSingleAt(tr: Transcendentals, pw: PackedWeights, ws: GruWeights, x0: real, outs: seq<seq<real>>,
                           outSize: nat, v: nat, j: nat, e: nat)
    requires tr.Valid() && StepReady(pw, [Broadcast(x0, v)], outs, 1, outSize, v)
    requires ws.Shaped(1, outSize) && PacksRecurrent(pw, ws, 1, outSize, v) && PacksSingle(pw, ws, outSize, v)
    requires j < CeilDiv(outSize, v) && e < v
    ensures RowOf(e, j, v) < outSize
    ensures StaticStepSingle(tr, pw, [Broadcast(x0, v)], outs, outSize, v)[j][e]
         == GruStep(tr, ws, [x0], Flatten(outs))[RowOf(e, j, v)]
  {
    var ins := [Broadcast(x0, v)];
    StepReadyConformable(pw, ins, outs, 1, outSize, v);
    var L := CeilDiv(outSize, v);
    var x, h := [x0], Flatten(outs);
    var r := RowOf(e, j, v);
    RowOfInRange(e, j, v, L);
    FlattenIndex(outs, v);

    var zt := GateLanesSingle(tr, MatMulSpec(pw.Uz, outs, v, L), pw.bz, pw.Wz1, ins[0], v);
    var rt := GateLanesSingle(tr, MatMulSpec(pw.Ur, outs, v, L), pw.br, pw.Wr1, ins[0], v);
    var kside := FmaLanes(pw.Wh1, ins[0], pw.bh0, v);
    var ht := CandidateLanes(tr, rt, MatMulSpec(pw.Uh, outs, v, L), pw.bh1, kside, v);
    PackedGateSingleAt(tr, ws.z, pw.Uz, pw.Wz1, pw.bz, x0, outs, outSize, v, j, e);
    PackedGateSingleAt(tr, ws.r, pw.Ur, pw.Wr1, pw.br, x0, outs, outSize, v, j, e);
    KernelSideSingleAt(ws.c, pw.Wh1, pw.bh0, x0, outSize, v, j, e);
    PackedCandidateAt(tr, ws.c, pw.Uh, pw.bh1, rt, kside, x, Gate(tr, ws.r, x, h, r), outs, outSize, v, j, e);
    BlendLaneAt(zt, ht, outs, v, j, e);
    assert StaticStepSingle(tr, pw, ins, outs, outSize, v) == BlendLanes(zt, ht, outs, v);
  }

  /** Lanes that agree element by element with a packed vector are that
      packed vector. */
  lemma LanesArePack(lanes: seq<seq<real>>, s: seq<real>, v: nat, L: nat)
    requires v > 0 && Fits(lanes, v, L) && |s| == L * v
    requires forall j, e :: 0 <= j < L && 0 <= e < v ==> RowOf(e, j, v) < |s| && lanes[j][e] == s[RowOf(e, j, v)]
    ensures Flatten(lanes) == s
  {
    forall j | 0 <= j < L
      ensures lanes[j] == Pack(s, v, L)[j]
    {
      forall e | 0 <= e < v
        ensures lanes[j][e] == Pack(s, v, L)[j][e]
      {
        PackAt(s, v, L, j, e);
      }
    }
    assert lanes == Pack(s, v, L);
    FlattenPack(s, v, L);
    assert s + Zeros(0) == s;
  }

  /** The general `forward` computes a GRU step on the flattened input and
      state, when the packed weights hold the logical ones (with `bz` and
      `br` the sums of the two bias vectors); only the first `in_size` input
      values count, whatever the padding of the last input lane holds. */
  lemma StaticStepMatchesGruStep(tr: Transcendentals, pw: PackedWeights, ws: GruWeights, ins: seq<seq<real>>, outs: seq<seq<real>>,
                                 inSize: nat, outSize: nat, v: nat)
    requires tr.Valid() && StepReady(pw, ins, outs, inSize, outSize, v)
    requires ws.Shaped(inSize, outSize) && Packs(pw, ws, inSize, outSize, v)
    ensures Flatten(StaticStep(tr, pw, ins, outs, inSize, outSize, v))
         == GruStep(tr, ws, Flatten(ins)[..inSize], Flatten(outs))
  {
    var L := CeilDiv(outSize, v);
    var s := StaticStep(tr, pw, ins, outs, inSize, outSize, v);
    var g := GruStep(tr, ws, Flatten(ins)[..inSize], Flatten(outs));
    forall j, e | 0 <= j < L && 0 <= e < v
      ensures RowOf(e, j, v) < |g| && s[j][e] == g[RowOf(e, j, v)]
    {
      StaticStepAt(tr, pw, ws, ins, outs, inSize, outSize, v, j, e);
    }
    LanesArePack(s, g, v, L);
  }

  /** The single-input `forward` computes a GRU step on the one input, when
      that input is broadcast to every lane element of `ins[0]` and the
      packed recurrent weights, biases and single-input columns hold the
      logical ones. */
  lemma StaticStepSingleMatchesGruStep(tr: Transcendentals, pw: PackedWeights, ws: GruWeights, x0: real, outs: seq<seq<real>>,
                                       outSize: nat, v: nat)
    requires tr.Valid() && StepReady(pw, [Broadcast(x0, v)], outs, 1, outSize, v)
    requires ws.Shaped(1, outSize) && PacksRecurrent(pw, ws, 1, outSize, v) && PacksSingle(pw, ws, outSize, v)
    ensures Flatten(StaticStepSingle(tr, pw, [Broadcast(x0, v)], outs, outSize, v))
         == GruStep(tr, ws, [x0], Flatten(outs))
  {
    var L := CeilDiv(outSize, v);
    var s := StaticStepSingle(tr, pw, [Broadcast(x0, v)], outs, outSize, v);
    var g := GruStep(tr, ws, [x0], Flatten(outs));
    forall j, e | 0 <= j < L && 0 <= e < v
      ensures RowOf(e, j, v) < |g| && s[j][e] == g[RowOf(e, j, v)]
    {
      StaticStepSingleAt(tr, pw, ws, x0, outs, outSize, v, j, e);
    }
    LanesArePack(s, g, v, L);
  }

  /** With one input broadcast to its lane, the single-input overload
      produces the same next `outs` as the general overload would: the
      broadcast `fma(W_1[i], ins[0], ·)` adds exactly the one-column kernel
      product. */
  lemma SingleInputOverloadAgrees(tr: Transcendentals, pw: PackedWeights, ws: GruWeights, x0: real, outs: seq<seq<real>>,
                                  outSize: nat, v: nat)
    requires tr.Valid() && StepReady(pw, [Broadcast(x0, v)], outs, 1, outSize, v)
    requires ws.Shaped(1, outSize) && Packs(pw, ws, 1, outSize, v) && PacksSingle(pw, ws, outSize, v)
    ensures StaticStepSingle(tr, pw, [Broadcast(x0, v)], outs, outSize, v)
         == StaticStep(tr, pw, [Broadcast(x0, v)], outs, 1, outSize, v)
  {
    var ins := [Broadcast(x0, v)];
    var s1 := StaticStepSingle(tr, pw, ins, outs, outSize, v);
    var s := StaticStep(tr, pw, ins, outs, 1, outSize, v);
    StaticStepSingleMatchesGruStep(tr, pw, ws, x0, outs, outSize, v);
    StaticStepMatchesGruStep(tr, pw, ws, ins, outs, 1, outSize, v);
    FlattenBroadcast(x0, v);
    PackFlatten(s1, v);
    PackFlatten(s, v);
  }
}

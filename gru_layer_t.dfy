/** The static GRU layer: sizes fixed at compile time, weights packed into
    SIMD lanes, a hidden state `outs` of `v_out_size` lanes, and lane arrays
    `zt`, `rt`, `ct`, `ht` and `kernel_outs` that `forward` overwrites. */
module GruLayerStatic {
  import opened Vectors
  import opened Activations
  import opened GruMath
  import opened Lanes

  /** `fma(a, b, c)` on one lane: a·b + c element by element. */
  function Fma(a: seq<real>, b: seq<real>, c: seq<real>): seq<real>
    requires |a| == |b| == |c|
  {
    Add(Mul(a, b), c)
  }

  /** The packed weights of the static layer. `Wz`, `Wr`, `Wh` hold
      `out_size` kernel rows of `v_in_size` lanes, `Uz`, `Ur`, `Uh` hold
      `out_size` recurrent rows of `v_out_size` lanes; `Wz_1`, `Wr_1`, `Wh_1`
      are the single-input kernel columns and `bz`, `br`, `bh0`, `bh1` the
      biases, each `v_out_size` lanes. */
  datatype PackedWeights = PackedWeights(
    Wz: seq<seq<seq<real>>>, Wr: seq<seq<seq<real>>>, Wh: seq<seq<seq<real>>>,
    Wz1: seq<seq<real>>, Wr1: seq<seq<real>>, Wh1: seq<seq<real>>,
    Uz: seq<seq<seq<real>>>, Ur: seq<seq<seq<real>>>, Uh: seq<seq<seq<real>>>,
    bz: seq<seq<real>>, br: seq<seq<real>>, bh0: seq<seq<real>>, bh1: seq<seq<real>>)
  {
    /** The array dimensions the member declarations give them. */
    ghost predicate Shaped(inSize: nat, outSize: nat, v: nat)
      requires v > 0
    {
      var lin, lout := CeilDiv(inSize, v), CeilDiv(outSize, v);
      MatShaped(Wz, outSize, lin, v) && MatShaped(Wr, outSize, lin, v) && MatShaped(Wh, outSize, lin, v) &&
      Fits(Wz1, v, lout) && Fits(Wr1, v, lout) && Fits(Wh1, v, lout) &&
      MatShaped(Uz, outSize, lout, v) && MatShaped(Ur, outSize, lout, v) && MatShaped(Uh, outSize, lout, v) &&
      Fits(bz, v, lout) && Fits(br, v, lout) && Fits(bh0, v, lout) && Fits(bh1, v, lout)
    }
  }

  /** Each packed row is the logical row cut into `L` zero-padded lanes. */
  ghost predicate PacksRows(mat: seq<seq<seq<real>>>, rows: seq<seq<real>>, v: nat, L: nat)
  {
    |mat| == |rows| && forall r :: 0 <= r < |rows| ==> mat[r] == Pack(rows[r], v, L)
  }

  /** How the packed weights hold the logical weights of the dynamic layer.
      The weight setters are not part of this model; this relation, in
      particular that `bz` and `br` hold the sum of the two bias vectors, is
      the hypothesis under which the static layer computes a GRU step. */
  ghost predicate Packs(pw: PackedWeights, ws: GruWeights, inSize: nat, outSize: nat, v: nat)
    requires v > 0 && ws.Shaped(inSize, outSize)
  {
    var lin := CeilDiv(inSize, v);
    PacksRows(pw.Wz, ws.z.W, v, lin) && PacksRows(pw.Wr, ws.r.W, v, lin) && PacksRows(pw.Wh, ws.c.W, v, lin) &&
    PacksRecurrent(pw, ws, inSize, outSize, v)
  }

  /** The recurrent rows and the biases, which both `forward` overloads use. */
  ghost predicate PacksRecurrent(pw: PackedWeights, ws: GruWeights, inSize: nat, outSize: nat, v: nat)
    requires v > 0 && ws.Shaped(inSize, outSize)
  {
    var lout := CeilDiv(outSize, v);
    PacksRows(pw.Uz, ws.z.U, v, lout) && PacksRows(pw.Ur, ws.r.U, v, lout) && PacksRows(pw.Uh, ws.c.U, v, lout) &&
    pw.bz == Pack(Add(ws.z.b0, ws.z.b1), v, lout) && pw.br == Pack(Add(ws.r.b0, ws.r.b1), v, lout) &&
    pw.bh0 == Pack(ws.c.b0, v, lout) && pw.bh1 == Pack(ws.c.b1, v, lout)
  }

  /** The single input column of a one-input kernel matrix. */
  function Column(rows: seq<seq<real>>): seq<real>
    requires forall r :: 0 <= r < |rows| ==> |rows[r]| == 1
  {
    seq(|rows|, r requires 0 <= r < |rows| => rows[r][0])
  }

  /** With one input, `Wz_1`, `Wr_1`, `Wh_1` hold the kernel column packed
      into lanes. */
  ghost predicate PacksSingle(pw: PackedWeights, ws: GruWeights, outSize: nat, v: nat)
    requires v > 0 && ws.Shaped(1, outSize)
  {
    var lout := CeilDiv(outSize, v);
    pw.Wz1 == Pack(Column(ws.z.W), v, lout) && pw.Wr1 == Pack(Column(ws.r.W), v, lout) &&
    pw.Wh1 == Pack(Column(ws.c.W), v, lout)
  }

  /** The gate loop of the general `forward`: sigmoid(rec + b + k), lane by lane. */
  function GateLanes(tr: Transcendentals, rec: seq<seq<real>>, b: seq<seq<real>>, k: seq<seq<real>>, v: nat): seq<seq<real>>
    requires tr.Valid() && Shaped(rec, v) && Fits(b, v, |rec|) && Fits(k, v, |rec|)
  {
    seq(|rec|, i requires 0 <= i < |rec| => Sigmoids(tr, Add(Add(rec[i], b[i]), k[i])))
  }

  /** The gate loop of the single-input `forward`: sigmoid(fma(w, x, rec + b)). */
  function GateLanesSingle(tr: Transcendentals, rec: seq<seq<real>>, b: seq<seq<real>>, w: seq<seq<real>>, x: seq<real>, v: nat): seq<seq<real>>
    requires tr.Valid() && Shaped(rec, v) && Fits(b, v, |rec|) && Fits(w, v, |rec|) && |x| == v
  {
    seq(|rec|, i requires 0 <= i < |rec| => Sigmoids(tr, Fma(w[i], x, Add(rec[i], b[i]))))
  }

  /** Lane-wise sum `a[i] + b[i]`. */
  function AddLanes(a: seq<seq<real>>, b: seq<seq<real>>, v: nat): seq<seq<real>>
    requires Shaped(a, v) && Fits(b, v, |a|)
  {
    seq(|a|, i requires 0 <= i < |a| => Add(a[i], b[i]))
  }

  /** Lane-wise `fma(w[i], x, c[i])`. */
  function FmaLanes(w: seq<seq<real>>, x: seq<real>, c: seq<seq<real>>, v: nat): seq<seq<real>>
    requires Shaped(w, v) && |x| == v && Fits(c, v, |w|)
  {
    seq(|w|, i requires 0 <= i < |w| => Fma(w[i], x, c[i]))
  }

  /** The candidate loop: tanh(fma(rt, ct + bh1, kside)), where `kside` is the
      kernel side `bh0 + kernel_outs` (or `fma(Wh_1, ins[0], bh0)` with one
      input). */
  function CandidateLanes(tr: Transcendentals, rt: seq<seq<real>>, ct: seq<seq<real>>, bh1: seq<seq<real>>, kside: seq<seq<real>>, v: nat): seq<seq<real>>
    requires Shaped(rt, v) && Fits(ct, v, |rt|) && Fits(bh1, v, |rt|) && Fits(kside, v, |rt|)
  {
    seq(|rt|, i requires 0 <= i < |rt| => Tanhs(tr, Fma(rt[i], Add(ct[i], bh1[i]), kside[i])))
  }

  /** The output loop: fma(1 - zt, ht, zt·outs). */
  function BlendLanes(zt: seq<seq<real>>, ht: seq<seq<real>>, outs: seq<seq<real>>, v: nat): seq<seq<real>>
    requires Shaped(zt, v) && Fits(ht, v, |zt|) && Fits(outs, v, |zt|)
  {
    seq(|zt|, i requires 0 <= i < |zt| => Fma(Sub(Ones(v), zt[i]), ht[i], Mul(zt[i], outs[i])))
  }

  /** The conditions under which the lane computations of `forward` are defined. */
  ghost predicate StepReady(pw: PackedWeights, ins: seq<seq<real>>, outs: seq<seq<real>>, inSize: nat, outSize: nat, v: nat)
  {
    v > 0 && outSize % v == 0 && pw.Shaped(inSize, outSize, v) &&
    Fits(ins, v, CeilDiv(inSize, v)) && Fits(outs, v, CeilDiv(outSize, v))
  }

  lemma StepReadyConformable(pw: PackedWeights, ins: seq<seq<real>>, outs: seq<seq<real>>, inSize: nat, outSize: nat, v: nat)
    requires StepReady(pw, ins, outs, inSize, outSize, v)
    ensures CeilDiv(outSize, v) * v == outSize
    ensures Conformable(pw.Uz, outs) && Conformable(pw.Ur, outs) && Conformable(pw.Uh, outs)
    ensures Conformable(pw.Wz, ins) && Conformable(pw.Wr, ins) && Conformable(pw.Wh, ins)
  {
    var lin, lout := CeilDiv(inSize, v), CeilDiv(outSize, v);
    ShapedConformable(pw.Uz, outs, v, lout);
    ShapedConformable(pw.Ur, outs, v, lout);
    ShapedConformable(pw.Uh, outs, v, lout);
    ShapedConformable(pw.Wz, ins, v, lin);
    ShapedConformable(pw.Wr, ins, v, lin);
    ShapedConformable(pw.Wh, ins, v, lin);
  }

  /** The next `outs` of the general `forward` (`in_size > 1`), as lane values. */
  function StaticStep(tr: Transcendentals, pw: PackedWeights, ins: seq<seq<real>>, outs: seq<seq<real>>,
                      inSize: nat, outSize: nat, v: nat): seq<seq<real>>
    requires tr.Valid() && StepReady(pw, ins, outs, inSize, outSize, v)
  {
    StepReadyConformable(pw, ins, outs, inSize, outSize, v);
    var L := CeilDiv(outSize, v);
    var zt := GateLanes(tr, MatMulSpec(pw.Uz, outs, v, L), pw.bz, MatMulSpec(pw.Wz, ins, v, L), v);
    var rt := GateLanes(tr, MatMulSpec(pw.Ur, outs, v, L), pw.br, MatMulSpec(pw.Wr, ins, v, L), v);
    var ht := CandidateLanes(tr, rt, MatMulSpec(pw.Uh, outs, v, L), pw.bh1, AddLanes(pw.bh0, MatMulSpec(pw.Wh, ins, v, L), v), v);
    BlendLanes(zt, ht, outs, v)
  }

  /** The next `outs` of the single-input `forward` (`in_size == 1`). */
  function StaticStepSingle(tr: Transcendentals, pw: PackedWeights, ins: seq<seq<real>>, outs: seq<seq<real>>,
                            outSize: nat, v: nat): seq<seq<real>>
    requires tr.Valid() && StepReady(pw, ins, outs, 1, outSize, v) && |ins| > 0
  {
    StepReadyConformable(pw, ins, outs, 1, outSize, v);
    var L := CeilDiv(outSize, v);
    var zt := GateLanesSingle(tr, MatMulSpec(pw.Uz, outs, v, L), pw.bz, pw.Wz1, ins[0], v);
    var rt := GateLanesSingle(tr, MatMulSpec(pw.Ur, outs, v, L), pw.br, pw.Wr1, ins[0], v);
    var ht := CandidateLanes(tr, rt, MatMulSpec(pw.Uh, outs, v, L), pw.bh1, FmaLanes(pw.Wh1, ins[0], pw.bh0, v), v);
    BlendLanes(zt, ht, outs, v)
  }

  // ---------------------------------------------------------------------
  // The matrix-vector products

  /** Rows `i + j·v` of the running sums that the matrix loops have finished
      once they have visited lane element `i` of output lanes `0..j`, and
      every lane element before `i` in all output lanes: finished rows hold
      their row product, the others are still zero. */
  ghost predicate SumsProgress(sums: seq<real>, mat: seq<seq<seq<real>>>, vec: seq<seq<real>>,
                               v: nat, L: nat, i: nat, j: nat)
    requires Conformable(mat, vec)
  {
    forall i', j' :: 0 <= i' < v && 0 <= j' < L ==>
      RowOf(i', j', v) < |sums| && RowOf(i', j', v) < |mat| &&
      sums[RowOf(i', j', v)] == if i' < i || (i' == i && j' < j) then RowDot(mat[RowOf(i', j', v)], vec) else 0.0
  }

  lemma AllRowsInRange(v: nat, L: nat)
    ensures forall i, j :: 0 <= i < v && 0 <= j < L ==> RowOf(i, j, v) < L * v
  {
    forall i, j | 0 <= i < v && 0 <= j < L
      ensures RowOf(i, j, v) < L * v
    {
      RowOfInRange(i, j, v, L);
    }
  }

  /** Finishing row `i + j·v` moves the progress on by one output lane. */
  lemma SumsProgressStep(sums: seq<real>, mat: seq<seq<seq<real>>>, vec: seq<seq<real>>,
                         v: nat, L: nat, i: nat, j: nat)
    requires Conformable(mat, vec) && i < v && j < L
    requires SumsProgress(sums, mat, vec, v, L, i, j)
    ensures RowOf(i, j, v) < |sums| && RowOf(i, j, v) < |mat| && sums[RowOf(i, j, v)] == 0.0
    ensures SumsProgress(sums[RowOf(i, j, v) := RowDot(mat[RowOf(i, j, v)], vec)], mat, vec, v, L, i, j + 1)
  {
    var p := RowOf(i, j, v);
    var s' := sums[p := RowDot(mat[p], vec)];
    forall i', j' | 0 <= i' < v && 0 <= j' < L
      ensures RowOf(i', j', v) < |s'| && RowOf(i', j', v) < |mat| &&
        s'[RowOf(i', j', v)] == if i' < i || (i' == i && j' < j + 1) then RowDot(mat[RowOf(i', j', v)], vec) else 0.0
    {
      if RowOf(i', j', v) == p {
        RowOfInjective(i', j', i, j, v);
      }
    }
  }

  /** Having visited every output lane for lane element `i` is the same as
      starting lane element `i + 1`. */
  lemma SumsProgressNextElement(sums: seq<real>, mat: seq<seq<seq<real>>>, vec: seq<seq<real>>,
                                v: nat, L: nat, i: nat)
    requires Conformable(mat, vec)
    requires SumsProgress(sums, mat, vec, v, L, i, L)
    ensures SumsProgress(sums, mat, vec, v, L, i + 1, 0)
  {
  }

  /** The row product over the first `k + 1` lanes extends the one over the
      first `k`. */
  lemma RowDotPrefix(row: seq<seq<real>>, vec: seq<seq<real>>, k: nat)
    requires |row| == |vec| && k < |row| && forall m :: 0 <= m < |row| ==> |row[m]| == |vec[m]|
    ensures RowDot(row[..k + 1], vec[..k + 1]) == RowDot(row[..k], vec[..k]) + Sum(Mul(row[k], vec[k]))
  {
    assert row[..k + 1][..k] == row[..k];
    assert vec[..k + 1][..k] == vec[..k];
  }

  /** The innermost loop: adds `hadd(row[k] * vec[k])` for every lane `k` to
      `sums[p]`. */
  method AccumulateRow(sums: array<real>, p: nat, row: seq<seq<real>>, vec: seq<seq<real>>)
    requires p < sums.Length
    requires |row| == |vec| && forall k :: 0 <= k < |row| ==> |row[k]| == |vec[k]|
    modifies sums
    ensures sums[..] == old(sums[..])[p := old(sums[p]) + RowDot(row, vec)]
  {
    ghost var s0 := sums[..];
    for k := 0 to |vec|
      invariant sums[..] == s0[p := s0[p] + RowDot(row[..k], vec[..k])]
    {
      RowDotPrefix(row, vec, k);
      sums[p] := sums[p] + Sum(Mul(row[k], vec[k]));
    }
    assert row[..|vec|] == row && vec[..|vec|] == vec;
  }

  /** `load_aligned(sums + j·v)` for every output lane `j`. */
  method LoadLanes(sums: array<real>, v: nat, L: nat, out: array<seq<real>>)
    requires v > 0 && sums.Length == L * v && out.Length == L
    modifies out
    ensures out[..] == Pack(sums[..], v, L)
  {
    for j := 0 to L
      invariant forall j' :: 0 <= j' < j ==> out[j'] == Pack(sums[..], v, L)[j']
    {
      RowOfInRange(v - 1, j, v, L);
      out[j] := sums[j * v .. j * v + v];
      assert forall i :: 0 <= i < v ==> out[j][i] == Pack(sums[..], v, L)[j][i];
    }
    assert forall j :: 0 <= j < L ==> out[..][j] == Pack(sums[..], v, L)[j];
  }

  /** The loops over `j` and `k` for one lane element `i`: rows
      `i + j·v` of every output lane `j` get their row product. */
  method SumElementRows(sums: array<real>, mat: seq<seq<seq<real>>>, vec: seq<seq<real>>, v: nat, L: nat, i: nat)
    requires Conformable(mat, vec) && i < v && sums.Length == |mat|
    requires SumsProgress(sums[..], mat, vec, v, L, i, 0)
    modifies sums
    ensures SumsProgress(sums[..], mat, vec, v, L, i + 1, 0)
  {
    for j := 0 to L
      invariant SumsProgress(sums[..], mat, vec, v, L, i, j)
    {
      SumsProgressStep(sums[..], mat, vec, v, L, i, j);
      AccumulateRow(sums, i + j * v, mat[i + j * v], vec);
    }
    SumsProgressNextElement(sums[..], mat, vec, v, L, i);
  }

  /** The triple loop of the matrix products: afterwards `sums[r]` is the
      row product of row `r`, for every row. */
  method RowSums(vec: seq<seq<real>>, mat: seq<seq<seq<real>>>, v: nat, L: nat) returns (sums: array<real>)
    requires v > 0 && L * v == |mat| && Conformable(mat, vec)
    ensures sums.Length == |mat|
    ensures forall r :: 0 <= r < |mat| ==> sums[r] == RowDot(mat[r], vec)
  {
    AllRowsInRange(v, L);
    sums := new real[|mat|](_ => 0.0);
    for i := 0 to v
      invariant SumsProgress(sums[..], mat, vec, v, L, i, 0)
    {
      SumElementRows(sums, mat, vec, v, L, i);
    }
    forall r | 0 <= r < |mat|
      ensures sums[r] == RowDot(mat[r], vec)
    {
      RowOfSplit(r, v);
      if r / v >= L {
        MulMonotone(L, r / v, v);
      }
      assert sums[..][RowOf(r % v, r / v, v)] == RowDot(mat[RowOf(r % v, r / v, v)], vec);
    }
  }

  /** `recurrent_mat_mul` and `kernel_mat_mul`: the running sums start at
      zero; for every lane element `i` and output lane `j`, row `i + j·v` of
      the matrix is multiplied lane by lane with the vector and each lane's
      horizontal sum is added to `sums[i + j·v]`; then output lane `j` is
      loaded from `sums[j·v .. j·v + v]`. Every row the loops touch exists
      only when the row count is a multiple of `v` (see
      `Lanes.RowIndexInBoundsIff`). */
  method LaneMatMul(vec: seq<seq<real>>, mat: seq<seq<seq<real>>>, v: nat, L: nat, out: array<seq<real>>)
    requires v > 0 && |mat| % v == 0 && L == CeilDiv(|mat|, v) && out.Length == L
    requires Conformable(mat, vec)
    modifies out
    ensures out[..] == MatMulSpec(mat, vec, v, L)
  {
    var sums := RowSums(vec, mat, v, L);
    LoadLanes(sums, v, L, out);
    forall j | 0 <= j < L
      ensures out[j] == MatMulSpec(mat, vec, v, L)[j]
    {
      forall i | 0 <= i < v
        ensures out[j][i] == MatMulSpec(mat, vec, v, L)[j][i]
      {
        RowOfInRange(i, j, v, L);
        assert out[j][i] == sums[RowOf(i, j, v)];
      }
    }
    assert out[..] == MatMulSpec(mat, vec, v, L);
  }

  // ---------------------------------------------------------------------
  // The element loops of `forward`

  /** `g[i] = sigmoid(g[i] + b[i] + k[i])` for every lane. */
  method GateLoop(tr: Transcendentals, g: array<seq<real>>, b: seq<seq<real>>, k: seq<seq<real>>, v: nat)
    requires tr.Valid() && Shaped(g[..], v) && Fits(b, v, g.Length) && Fits(k, v, g.Length)
    modifies g
    ensures g[..] == GateLanes(tr, old(g[..]), b, k, v)
  {
    for i := 0 to g.Length
      invariant g[..i] == GateLanes(tr, old(g[..]), b, k, v)[..i]
      invariant g[i..] == old(g[i..])
    {
      assert g[i] == old(g[..])[i];
      g[i] := Sigmoids(tr, Add(Add(g[i], b[i]), k[i]));
    }
  }

  /** `g[i] = sigmoid(fma(w[i], x, g[i] + b[i]))` for every lane. */
  method GateLoopSingle(tr: Transcendentals, g: array<seq<real>>, b: seq<seq<real>>, w: seq<seq<real>>, x: seq<real>, v: nat)
    requires tr.Valid() && Shaped(g[..], v) && Fits(b, v, g.Length) && Fits(w, v, g.Length) && |x| == v
    modifies g
    ensures g[..] == GateLanesSingle(tr, old(g[..]), b, w, x, v)
  {
    for i := 0 to g.Length
      invariant g[..i] == GateLanesSingle(tr, old(g[..]), b, w, x, v)[..i]
      invariant g[i..] == old(g[i..])
    {
      assert g[i] == old(g[..])[i];
      g[i] := Sigmoids(tr, Fma(w[i], x, Add(g[i], b[i])));
    }
  }

  /** `ht[i] = tanh(fma(rt[i], ct[i] + bh1[i], kside[i]))` for every lane. */
  method CandidateLoop(tr: Transcendentals, rt: seq<seq<real>>, ct: seq<seq<real>>, bh1: seq<seq<real>>,
                       kside: seq<seq<real>>, v: nat, ht: array<seq<real>>)
    requires Fits(rt, v, ht.Length) && Fits(ct, v, ht.Length) && Fits(bh1, v, ht.Length) && Fits(kside, v, ht.Length)
    modifies ht
    ensures ht[..] == CandidateLanes(tr, rt, ct, bh1, kside, v)
  {
    for i := 0 to ht.Length
      invariant ht[..i] == CandidateLanes(tr, rt, ct, bh1, kside, v)[..i]
    {
      ht[i] := Tanhs(tr, Fma(rt[i], Add(ct[i], bh1[i]), kside[i]));
    }
  }

  /** `outs[i] = fma(1 - zt[i], ht[i], zt[i] * outs[i])` for every lane. */
  method BlendLoop(zt: seq<seq<real>>, ht: seq<seq<real>>, v: nat, outs: array<seq<real>>)
    requires Fits(zt, v, outs.Length) && Fits(ht, v, outs.Length) && Shaped(outs[..], v)
    modifies outs
    ensures outs[..] == BlendLanes(zt, ht, old(outs[..]), v)
  {
    for i := 0 to outs.Length
      invariant outs[..i] == BlendLanes(zt, ht, old(outs[..]), v)[..i]
      invariant outs[i..] == old(outs[i..])
    {
      assert outs[i] == old(outs[..])[i];
      outs[i] := Fma(Sub(Ones(v), zt[i]), ht[i], Mul(zt[i], outs[i]));
    }
  }

  class GruLayerT {
    const inSize: nat
    const outSize: nat
    /** Lanes per SIMD register. */
    const v: nat
    const vInSize: nat
    const vOutSize: nat

    const weights: PackedWeights

    /** The hidden state, `v_out_size` lanes. */
    const outs: array<seq<real>>

    // intermediate lanes
    const zt: array<seq<real>>
    const rt: array<seq<real>>
    const ct: array<seq<real>>
    const ht: array<seq<real>>
    const kernelOuts: array<seq<real>>

    /** Sizes, lane counts, weight shapes and distinct buffers; `out_size`
        is a multiple of `v_size`, which the matrix loops need. */
    ghost predicate Layout()
      reads this
    {
      v > 0 && outSize % v == 0 &&
      vInSize == CeilDiv(inSize, v) && vOutSize == CeilDiv(outSize, v) &&
      weights.Shaped(inSize, outSize, v) &&
      outs.Length == vOutSize && zt.Length == vOutSize && rt.Length == vOutSize &&
      ct.Length == vOutSize && ht.Length == vOutSize && kernelOuts.Length == vOutSize &&
      outs != zt && outs != rt && outs != ct && outs != ht && outs != kernelOuts &&
      zt != rt && zt != ct && zt != ht && zt != kernelOuts &&
      rt != ct && rt != ht && rt != kernelOuts &&
      ct != ht && ct != kernelOuts &&
      ht != kernelOuts
    }

    ghost predicate Valid()
      reads this, outs
    {
      Layout() && Fits(outs[..], v, vOutSize)
    }

    /** The hidden state as a vector of `out_size` values. */
    function State(): (h: seq<real>)
      reads this, outs
      requires Valid()
      ensures |h| == outSize
    {
      Flatten(outs[..])
    }

    /** A layer holding the given packed weights, with a zero state. `gru_xsimd.h`
        declares the constructor without a body; the zero state is assumed, and callers
        reset the layer before use. */
    constructor (inSize: nat, outSize: nat, v: nat, weights: PackedWeights)
      requires v > 0 && outSize % v == 0 && weights.Shaped(inSize, outSize, v)
      ensures Valid() && fresh(outs) && fresh(zt) && fresh(rt) && fresh(ct) && fresh(ht) && fresh(kernelOuts)
      ensures this.inSize == inSize && this.outSize == outSize && this.v == v && this.weights == weights
      ensures State() == Zeros(outSize)
    {
      var lout := CeilDiv(outSize, v);
      this.inSize, this.outSize, this.v := inSize, outSize, v;
      this.vInSize, this.vOutSize := CeilDiv(inSize, v), lout;
      this.weights := weights;
      outs := new seq<real>[lout](_ => Zeros(v));
      zt := new seq<real>[lout](_ => Zeros(v));
      rt := new seq<real>[lout](_ => Zeros(v));
      ct := new seq<real>[lout](_ => Zeros(v));
      ht := new seq<real>[lout](_ => Zeros(v));
      kernelOuts := new seq<real>[lout](_ => Zeros(v));
      new;
      ZeroLanesFlatten(outs[..], v, lout);
    }

    /** Zeroes the hidden state; the weights are constant. */
    method Reset()
      requires Valid()
      modifies outs
      ensures Valid() && State() == Zeros(outSize)
    {
      for i := 0 to outs.Length
        invariant forall k :: 0 <= k < i ==> outs[k] == Zeros(v)
        invariant Shaped(outs[..], v)
      {
        outs[i] := Zeros(v);
      }
      ZeroLanesFlatten(outs[..], v, vOutSize);
    }

    /** The general `forward` (`in_size > 1`): the three gates from the
        recurrent and kernel products, then the new state into `outs`. */
    method Forward(tr: Transcendentals, ins: seq<seq<real>>)
      requires Valid() && tr.Valid() && inSize > 1 && Fits(ins, v, vInSize)
      modifies outs, zt, rt, ct, ht, kernelOuts
      ensures Valid()
      ensures outs[..] == StaticStep(tr, weights, ins, old(outs[..]), inSize, outSize, v)
    {
      ghost var h0 := outs[..];
      StepReadyConformable(weights, ins, h0, inSize, outSize, v);
      var L := vOutSize;
      // zt
      LaneMatMul(outs[..], weights.Uz, v, L, zt);
      LaneMatMul(ins, weights.Wz, v, L, kernelOuts);
      GateLoop(tr, zt, weights.bz, kernelOuts[..], v);
      // rt
      LaneMatMul(outs[..], weights.Ur, v, L, rt);
      LaneMatMul(ins, weights.Wr, v, L, kernelOuts);
      GateLoop(tr, rt, weights.br, kernelOuts[..], v);
      // h_hat
      LaneMatMul(outs[..], weights.Uh, v, L, ct);
      LaneMatMul(ins, weights.Wh, v, L, kernelOuts);
      CandidateLoop(tr, rt[..], ct[..], weights.bh1, AddLanes(weights.bh0, kernelOuts[..], v), v, ht);
      // output
      BlendLoop(zt[..], ht[..], v, outs);
    }

    /** The single-input `forward` (`in_size == 1`): the kernel products are
        `fma(W_1[i], ins[0], ·)` instead of a matrix product. */
    method ForwardSingle(tr: Transcendentals, ins: seq<seq<real>>)
      requires Valid() && tr.Valid() && inSize == 1 && Fits(ins, v, vInSize)
      modifies outs, zt, rt, ct, ht, kernelOuts
      ensures Valid()
      ensures outs[..] == StaticStepSingle(tr, weights, ins, old(outs[..]), outSize, v)
    {
      ghost var h0 := outs[..];
      StepReadyConformable(weights, ins, h0, inSize, outSize, v);
      CeilDivOne(v);
      var L := vOutSize;
      // zt
      LaneMatMul(outs[..], weights.Uz, v, L, zt);
      GateLoopSingle(tr, zt, weights.bz, weights.Wz1, ins[0], v);
      // rt
      LaneMatMul(outs[..], weights.Ur, v, L, rt);
      GateLoopSingle(tr, rt, weights.br, weights.Wr1, ins[0], v);
      // h_hat
      LaneMatMul(outs[..], weights.Uh, v, L, ct);
      CandidateLoop(tr, rt[..], ct[..], weights.bh1, FmaLanes(weights.Wh1, ins[0], weights.bh0, v), v, ht);
      // output
      BlendLoop(zt[..], ht[..], v, outs);
    }
  }

  /** One input fits in one lane. */
  lemma CeilDivOne(v: nat)
    requires v > 0
    ensures CeilDiv(1, v) == 1
  {
  }

  /** Lanes of zeros flatten to zeros. */
  lemma {:induction false} ZeroLanesFlatten(lanes: seq<seq<real>>, v: nat, L: nat)
    requires |lanes| == L && forall j :: 0 <= j < L ==> lanes[j] == Zeros(v)
    ensures Shaped(lanes, v) && Flatten(lanes) == Zeros(L * v)
  {
    if L > 0 {
      var front := lanes[..L - 1];
      ZeroLanesFlatten(front, v, L - 1);
      assert Flatten(lanes) == Zeros((L - 1) * v) + Zeros(v);
      assert (L - 1) * v + v == L * v;
      assert Zeros((L - 1) * v) + Zeros(v) == Zeros(L * v);
    }
  }
}

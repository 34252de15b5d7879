/** The dynamic GRU layer: sizes chosen at run time, a hidden state `ht1` and
    scratch buffers that `Forward` overwrites in a fixed order. */
module GruLayerDynamic {
  import opened Vectors
  import opened Activations
  import opened VectorOps
  import opened GruMath
  import Lanes

  /** Kernel weights of gate `g` (0 = z, 1 = r, 2 = c) taken from the
      `in_size × 3·out_size` matrix the setter receives: row k of the gate is
      column `k + g·out_size` of that matrix. */
  function GateColumns(vals: seq<seq<real>>, g: nat, outSize: nat): seq<seq<real>>
    requires g < 3 && forall i :: 0 <= i < |vals| ==> |vals[i]| == 3 * outSize
  {
    seq(outSize, k requires 0 <= k < outSize =>
      seq(|vals|, i requires 0 <= i < |vals| => vals[i][GateColumn(k, g, outSize)]))
  }

  /** The setter-matrix column that holds row `k` of gate `g`. */
  function GateColumn(k: nat, g: nat, outSize: nat): nat
  {
    k + g * outSize
  }

  /** Bias slice of gate `g` from one row of the `2 × 3·out_size` bias matrix. */
  function GateSlice(row: seq<real>, g: nat, outSize: nat): seq<real>
    requires g < 3 && |row| == 3 * outSize
  {
    row[g * outSize .. (g + 1) * outSize]
  }

  /** Every entry of a setter matrix lands in exactly one gate: column j
      belongs to gate j / out_size, as its row j % out_size, and no other
      (gate, row) pair reads that column. */
  lemma GateColumnsCover(vals: seq<seq<real>>, outSize: nat, i: nat, j: nat)
    requires outSize > 0 && forall k :: 0 <= k < |vals| ==> |vals[k]| == 3 * outSize
    requires i < |vals| && j < 3 * outSize
    ensures j / outSize < 3
    ensures GateColumns(vals, j / outSize, outSize)[j % outSize][i] == vals[i][j]
    ensures forall g, k :: 0 <= g < 3 && 0 <= k < outSize && GateColumn(k, g, outSize) == j ==>
              g == j / outSize && k == j % outSize
  {
    DivModBlock(j, outSize);
    forall g, k | 0 <= g < 3 && 0 <= k < outSize && GateColumn(k, g, outSize) == j
      ensures g == j / outSize && k == j % outSize
    {
      ColumnBlockUnique(k, g, outSize);
    }
  }

  /** Column `k + g·n` with `k < n` is in block `g`, at offset `k`. */
  lemma ColumnBlockUnique(k: nat, g: nat, n: nat)
    requires k < n
    ensures (k + g * n) / n == g && (k + g * n) % n == k
  {
    Lanes.DivUnique(k + g * n, n, g, k);
  }

  lemma DivModBlock(j: nat, n: nat)
    requires 0 < n && j < 3 * n
    ensures j / n < 3 && j % n + (j / n) * n == j
  {
  }

  /** The three bias slices of a bias row, in gate order, are the row. */
  lemma GateSlicesCover(row: seq<real>, outSize: nat)
    requires |row| == 3 * outSize
    ensures GateSlice(row, 0, outSize) + GateSlice(row, 1, outSize) + GateSlice(row, 2, outSize) == row
  {
    assert row == row[..outSize] + row[outSize..2 * outSize] + row[2 * outSize..];
  }

  /** The buffer operations of the dynamic forward pass, taken as values,
      compute one GRU step: given the matrix-vector products of the first
      loop, adding both biases and applying the sigmoid gives the gates,
      adding b[1] to U·h before the reset-gate product and b[0] after it gives
      the candidate, and (1 - z)·c + z·h gives the new state. */
  lemma InPlaceOpsComputeStep(tr: Transcendentals, ws: GruWeights, x: seq<real>, h: seq<real>,
                              zPre: seq<real>, rPre: seq<real>, cPre: seq<real>, uPre: seq<real>,
                              zt: seq<real>, rt: seq<real>, ct: seq<real>, out: seq<real>)
    requires tr.Valid() && ws.Shaped(|x|, |h|)
    requires zPre == GatePre(ws.z, x, h) && rPre == GatePre(ws.r, x, h)
    requires cPre == KernelPre(ws.c, x, h) && uPre == RecurrentPre(ws.c, x, h)
    requires zt == Sigmoids(tr, Add(Add(zPre, ws.z.b0), ws.z.b1))
    requires rt == Sigmoids(tr, Add(Add(rPre, ws.r.b0), ws.r.b1))
    requires ct == Tanhs(tr, Add(Add(Mul(Add(uPre, ws.c.b1), rt), cPre), ws.c.b0))
    requires out == Add(Mul(Sub(Ones(|h|), zt), ct), Mul(zt, h))
    ensures out == GruStep(tr, ws, x, h)
  {
    forall t | 0 <= t < |h|
      ensures out[t] == GruStep(tr, ws, x, h)[t]
    {
      GateFromBuffers(tr, ws.z, x, h, zPre, zt, t);
      GateFromBuffers(tr, ws.r, x, h, rPre, rt, t);
      CandidateFromBuffers(tr, ws.c, x, h, cPre, uPre, rt, ct, t);
      BlendFromBuffers(zt, ct, h, out, t);
    }
  }

  /** Element t of a gate buffer after both bias additions and the sigmoid. */
  lemma GateFromBuffers(tr: Transcendentals, g: WeightSet, x: seq<real>, h: seq<real>,
                        pre: seq<real>, gt: seq<real>, t: nat)
    requires tr.Valid() && g.Shaped(|x|, |h|) && t < |h| == |pre|
    requires pre[t] == Dot(g.W[t], x) + Dot(g.U[t], h)
    requires gt == Sigmoids(tr, Add(Add(pre, g.b0), g.b1))
    ensures gt[t] == Gate(tr, g, x, h, t)
  {
  }

  /** Element t of the candidate buffer after the reset-gate product, the two
      bias additions and the tanh. */
  lemma CandidateFromBuffers(tr: Transcendentals, g: WeightSet, x: seq<real>, h: seq<real>,
                             cPre: seq<real>, uPre: seq<real>, rt: seq<real>, ct: seq<real>, t: nat)
    requires g.Shaped(|x|, |h|) && t < |h| == |cPre| == |uPre| == |rt|
    requires cPre[t] == Dot(g.W[t], x)
    requires uPre[t] == Dot(g.U[t], h)
    requires ct == Tanhs(tr, Add(Add(Mul(Add(uPre, g.b1), rt), cPre), g.b0))
    ensures ct[t] == Candidate(tr, g, rt[t], x, h, t)
  {
    var pre := Add(Add(Mul(Add(uPre, g.b1), rt), cPre), g.b0)[t];
    var kk, uu := Dot(g.W[t], x) + g.b0[t], Dot(g.U[t], h) + g.b1[t];
    assert pre == uu * rt[t] + kk;
    assert ct[t] == Tanh(tr, uu * rt[t] + kk);
    assert Candidate(tr, g, rt[t], x, h, t) == CandidateOf(tr, kk, uu, rt[t]) == Tanh(tr, uu * rt[t] + kk);
  }

  /** Element t of the output after `(1 - z)·c` and `+ z·h`. */
  lemma BlendFromBuffers(zt: seq<real>, ct: seq<real>, h: seq<real>, out: seq<real>, t: nat)
    requires t < |h| == |zt| == |ct|
    requires out == Add(Mul(Sub(Ones(|h|), zt), ct), Mul(zt, h))
    ensures out[t] == Blend(zt[t], ct[t], h[t])
  {
    assert Sub(Ones(|h|), zt)[t] == 1.0 - zt[t];
  }

  /** Adds both biases of a gate to its buffer and applies the sigmoid. */
  method ActivateGate(tr: Transcendentals, g: WeightSet, buf: array<real>)
    requires tr.Valid() && |g.b0| == |g.b1| == buf.Length
    modifies buf
    ensures buf[..] == Sigmoids(tr, Add(Add(old(buf[..]), g.b0), g.b1))
  {
    VAdd(buf[..], g.b0, buf);
    VAdd(buf[..], g.b1, buf);
    VSigmoid(tr, buf[..], buf);
  }

  /** The candidate: b[1] is added to the recurrent products in `tmp` before
      the reset-gate product, the kernel products in `c` and b[0] after it,
      then tanh. */
  method ActivateCandidate(tr: Transcendentals, g: WeightSet, rt: seq<real>, tmp: array<real>, c: array<real>)
    requires tmp != c && |g.b0| == |g.b1| == |rt| == tmp.Length == c.Length
    modifies tmp, c
    ensures c[..] == Tanhs(tr, Add(Add(Mul(Add(old(tmp[..]), g.b1), rt), old(c[..])), g.b0))
  {
    VAdd(tmp[..], g.b1, tmp);
    VProd(tmp[..], rt, tmp);
    VAdd(tmp[..], c[..], c);
    VAdd(c[..], g.b0, c);
    VTanh(tr, c[..], c);
  }

  /** The new state (1 - z)·c + z·h into `out`, with `prod` as scratch for z·h. */
  method BlendState(ones: seq<real>, zt: seq<real>, ct: seq<real>, hOld: seq<real>, out: array<real>, prod: array<real>)
    requires out != prod && ones == Ones(|zt|)
    requires |zt| == |ct| == |hOld| == out.Length == prod.Length
    modifies out, prod
    ensures out[..] == Add(Mul(Sub(Ones(|zt|), zt), ct), Mul(zt, hOld))
  {
    VSub(ones, zt, out);
    VProd(out[..], ct, out);
    VProd(zt, hOld, prod);
    VAdd(out[..], prod[..], out);
  }

  class GruLayer {
    const inSize: nat
    const outSize: nat

    var zWeights: WeightSet
    var rWeights: WeightSet
    var cWeights: WeightSet

    /** The hidden state carried from one call to the next. */
    const ht1: array<real>

    // scratch buffers
    const zVec: array<real>
    const rVec: array<real>
    const cVec: array<real>
    const cTmp: array<real>
    const prodIn: array<real>
    const prodOut: array<real>
    const ones: array<real>

    ghost const Repr: set<object>

    ghost predicate Valid()
      reads this, Repr
    {
      Layout() && ones[..] == Ones(outSize)
    }

    /** Buffer sizes, distinct buffers and weight shapes: facts about the
        layer's fields alone, which no call to `Forward` or `Reset` changes. */
    ghost predicate Layout()
      reads this
    {
      Repr == {ht1, zVec, rVec, cVec, cTmp, prodIn, prodOut, ones} &&
      ht1.Length == outSize && zVec.Length == outSize && rVec.Length == outSize &&
      cVec.Length == outSize && cTmp.Length == outSize && prodOut.Length == outSize &&
      ones.Length == outSize && prodIn.Length == inSize &&
      ht1 != zVec && ht1 != rVec && ht1 != cVec && ht1 != cTmp && ht1 != prodIn && ht1 != prodOut && ht1 != ones &&
      zVec != rVec && zVec != cVec && zVec != cTmp && zVec != prodIn && zVec != prodOut && zVec != ones &&
      rVec != cVec && rVec != cTmp && rVec != prodIn && rVec != prodOut && rVec != ones &&
      cVec != cTmp && cVec != prodIn && cVec != prodOut && cVec != ones &&
      cTmp != prodIn && cTmp != prodOut && cTmp != ones &&
      prodIn != prodOut && prodIn != ones &&
      prodOut != ones &&
      Weights().Shaped(inSize, outSize)
    }

    function Weights(): GruWeights
      reads this
    {
      GruWeights(zWeights, rWeights, cWeights)
    }

    /** A layer with every weight and bias zero, a zero hidden state and `ones`
        filled with 1.0. `gru_xsimd.h` declares the constructor without a body; this
        starting state is assumed, and callers reset the layer before use. */
    constructor (inSize: nat, outSize: nat)
      ensures Valid() && fresh(Repr)
      ensures this.inSize == inSize && this.outSize == outSize
      ensures Weights().IsZero() && ht1[..] == Zeros(outSize)
    {
      this.inSize, this.outSize := inSize, outSize;
      var zero := WeightSet(seq(outSize, _ => Zeros(inSize)), seq(outSize, _ => Zeros(outSize)),
                            Zeros(outSize), Zeros(outSize));
      zWeights, rWeights, cWeights := zero, zero, zero;
      ht1 := new real[outSize](_ => 0.0);
      zVec := new real[outSize](_ => 0.0);
      rVec := new real[outSize](_ => 0.0);
      cVec := new real[outSize](_ => 0.0);
      cTmp := new real[outSize](_ => 0.0);
      prodIn := new real[inSize](_ => 0.0);
      prodOut := new real[outSize](_ => 0.0);
      ones := new real[outSize](_ => 1.0);
      Repr := {ht1, zVec, rVec, cVec, cTmp, prodIn, prodOut, ones};
      new;
      assert ht1[..] == Zeros(outSize);
      assert ones[..] == Ones(outSize);
    }

    /** Zeroes the hidden state; weights and biases are untouched. */
    method Reset()
      requires Valid()
      modifies ht1
      ensures Valid()
      ensures ht1[..] == Zeros(outSize)
      ensures Weights() == old(Weights())
    {
      Fill(ht1, 0.0);
      assert ht1[..] == Zeros(outSize);
    }

    /** Kernel weights from an `in_size × 3·out_size` matrix whose column
        blocks are the z, r and c gates. */
    method SetWVals(wVals: seq<seq<real>>)
      requires Valid()
      requires |wVals| == inSize && forall i :: 0 <= i < |wVals| ==> |wVals[i]| == 3 * outSize
      modifies this
      ensures Valid() && unchanged(Repr)
      ensures zWeights == old(zWeights).(W := GateColumns(wVals, 0, outSize))
      ensures rWeights == old(rWeights).(W := GateColumns(wVals, 1, outSize))
      ensures cWeights == old(cWeights).(W := GateColumns(wVals, 2, outSize))
    {
      zWeights := zWeights.(W := GateColumns(wVals, 0, outSize));
      rWeights := rWeights.(W := GateColumns(wVals, 1, outSize));
      cWeights := cWeights.(W := GateColumns(wVals, 2, outSize));
    }

    /** Recurrent weights from an `out_size × 3·out_size` matrix whose column
        blocks are the z, r and c gates. */
    method SetUVals(uVals: seq<seq<real>>)
      requires Valid()
      requires |uVals| == outSize && forall i :: 0 <= i < |uVals| ==> |uVals[i]| == 3 * outSize
      modifies this
      ensures Valid() && unchanged(Repr)
      ensures zWeights == old(zWeights).(U := GateColumns(uVals, 0, outSize))
      ensures rWeights == old(rWeights).(U := GateColumns(uVals, 1, outSize))
      ensures cWeights == old(cWeights).(U := GateColumns(uVals, 2, outSize))
    {
      zWeights := zWeights.(U := GateColumns(uVals, 0, outSize));
      rWeights := rWeights.(U := GateColumns(uVals, 1, outSize));
      cWeights := cWeights.(U := GateColumns(uVals, 2, outSize));
    }

    /** Biases from a `2 × 3·out_size` matrix: row 0 holds b[0] and row 1
        holds b[1] of the z, r and c gates, one block after the other. */
    method SetBVals(bVals: seq<seq<real>>)
      requires Valid()
      requires |bVals| == 2 && |bVals[0]| == 3 * outSize && |bVals[1]| == 3 * outSize
      modifies this
      ensures Valid() && unchanged(Repr)
      ensures zWeights == old(zWeights).(b0 := GateSlice(bVals[0], 0, outSize), b1 := GateSlice(bVals[1], 0, outSize))
      ensures rWeights == old(rWeights).(b0 := GateSlice(bVals[0], 1, outSize), b1 := GateSlice(bVals[1], 1, outSize))
      ensures cWeights == old(cWeights).(b0 := GateSlice(bVals[0], 2, outSize), b1 := GateSlice(bVals[1], 2, outSize))
    {
      zWeights := zWeights.(b0 := GateSlice(bVals[0], 0, outSize), b1 := GateSlice(bVals[1], 0, outSize));
      rWeights := rWeights.(b0 := GateSlice(bVals[0], 1, outSize), b1 := GateSlice(bVals[1], 1, outSize));
      cWeights := cWeights.(b0 := GateSlice(bVals[0], 2, outSize), b1 := GateSlice(bVals[1], 2, outSize));
    }

    /** Row i of the first loop of `forward`: the kernel and recurrent dot
        products of each gate, each computed with `vMult` through the scratch
        buffers `prod_in` and `prod_out`. */
    method RowProducts(input: seq<real>, i: nat) returns (zSum: real, rSum: real, cSum: real, uSum: real)
      requires Layout() && |input| == inSize && i < outSize
      modifies prodIn, prodOut
      ensures zSum == GatePre(zWeights, input, ht1[..])[i]
      ensures rSum == GatePre(rWeights, input, ht1[..])[i]
      ensures cSum == KernelPre(cWeights, input, ht1[..])[i]
      ensures uSum == RecurrentPre(cWeights, input, ht1[..])[i]
    {
      var a := VMult(zWeights.W[i], input, prodIn);
      var b := VMult(zWeights.U[i], ht1[..], prodOut);
      zSum := a + b;
      a := VMult(rWeights.W[i], input, prodIn);
      b := VMult(rWeights.U[i], ht1[..], prodOut);
      rSum := a + b;
      cSum := VMult(cWeights.W[i], input, prodIn);
      uSum := VMult(cWeights.U[i], ht1[..], prodOut);
    }

    /** The first loop of `forward`: the kernel and recurrent products of
        every gate row, into `z_vec`, `r_vec`, `c_vec` and `c_tmp`. */
    method PreActivations(input: seq<real>)
      requires Layout() && |input| == inSize
      modifies zVec, rVec, cVec, cTmp, prodIn, prodOut
      ensures zVec[..] == GatePre(zWeights, input, ht1[..])
      ensures rVec[..] == GatePre(rWeights, input, ht1[..])
      ensures cVec[..] == KernelPre(cWeights, input, ht1[..])
      ensures cTmp[..] == RecurrentPre(cWeights, input, ht1[..])
    {
      var i := 0;
      while i < outSize
        invariant 0 <= i <= outSize
        invariant zVec[..i] == GatePre(zWeights, input, ht1[..])[..i]
        invariant rVec[..i] == GatePre(rWeights, input, ht1[..])[..i]
        invariant cVec[..i] == KernelPre(cWeights, input, ht1[..])[..i]
        invariant cTmp[..i] == RecurrentPre(cWeights, input, ht1[..])[..i]
      {
        var zSum, rSum, cSum, uSum := RowProducts(input, i);
        zVec[i], rVec[i], cVec[i], cTmp[i] := zSum, rSum, cSum, uSum;
        i := i + 1;
      }
    }

    /** One GRU step: writes the new state to `h` and copies it into `ht1`.
        Every read of the old state happens before it is overwritten. */
    method Forward(tr: Transcendentals, input: seq<real>, h: array<real>)
      requires Valid() && tr.Valid()
      requires |input| == inSize && h.Length == outSize && h !in Repr
      modifies h, ht1, zVec, rVec, cVec, cTmp, prodIn, prodOut
      ensures Valid()
      ensures h[..] == GruStep(tr, Weights(), input, old(ht1[..]))
      ensures ht1[..] == h[..]
    {
      ghost var h0 := ht1[..];
      ghost var ws := Weights();
      PreActivations(input);
      ghost var zPre, rPre, cPre, uPre := zVec[..], rVec[..], cVec[..], cTmp[..];

      ActivateGate(tr, zWeights, zVec);
      ghost var zt := zVec[..];
      ActivateGate(tr, rWeights, rVec);
      ghost var rt := rVec[..];

      ActivateCandidate(tr, cWeights, rVec[..], cTmp, cVec);
      ghost var ct := cVec[..];
      BlendState(ones[..], zVec[..], cVec[..], ht1[..], h, prodOut);
      InPlaceOpsComputeStep(tr, ws, input, h0, zPre, rPre, cPre, uPre, zt, rt, ct, h[..]);
      VCopy(h[..], ht1);
    }
  }
}

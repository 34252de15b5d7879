/** SIMD lanes as the static layer sees them: a vector of `n` values is stored
    as `ceil_div(n, v_size)` lanes of `v_size` values each, the last lane
    padded. A lane is a `seq<real>` of length `v_size`; `hadd` is the sum of a
    lane and `fma(a, b, c)` is `a·b + c`, lane element by lane element. */
module Lanes {
  import opened Vectors

  /** The fewest lanes of `d` values that hold `n` values: `(n + d - 1) / d`.
      They hold exactly `n` values when `d` divides `n`. */
  function CeilDiv(n: nat, d: nat): (r: nat)
    requires d > 0
    ensures r * d >= n
    ensures r == 0 || (r - 1) * d < n
    ensures n % d == 0 ==> r * d == n
  {
    CeilDivBounds(n, d);
    (n + d - 1) / d
  }

  lemma CeilDivBounds(n: nat, d: nat)
    requires d > 0
    ensures var q := (n + d - 1) / d;
      q * d >= n && (q == 0 || (q - 1) * d < n) && (n % d == 0 ==> q * d == n)
  {
    var a := n + d - 1;
    var q, m := a / d, a % d;
    assert a == d * q + m && 0 <= m < d;
    assert q * d == a - m;
    assert q * d >= n;
    assert (q - 1) * d == q * d - d;
    if n % d == 0 {
      assert n == d * (n / d);
      DivUnique(a, d, n / d, d - 1);
    }
  }

  /** Quotient and remainder are unique. */
  lemma DivUnique(a: nat, d: nat, q: nat, m: nat)
    requires 0 <= m < d && a == d * q + m
    ensures a / d == q
  {
    var q', m' := a / d, a % d;
    assert a == d * q' + m' && 0 <= m' < d;
    if q' > q {
      MulMonotone(q + 1, q', d);
    } else if q' < q {
      MulMonotone(q' + 1, q, d);
    }
  }

  /** Row of lane element `i` of output lane `j`: `i + j·v_size`. */
  function RowOf(i: nat, j: nat, v: nat): nat
  {
    i + j * v
  }

  lemma {:induction false} RowOfInRange(i: nat, j: nat, v: nat, n: nat)
    requires i < v && j < n
    ensures RowOf(i, j, v) < n * v
  {
    MulMonotone(j + 1, n, v);
  }

  lemma MulMonotone(a: nat, b: nat, c: nat)
    requires a <= b
    ensures a * c <= b * c
  {
  }

  /** Distinct (element, lane) pairs name distinct rows. */
  lemma RowOfInjective(i: nat, j: nat, i': nat, j': nat, v: nat)
    requires i < v && i' < v
    requires RowOf(i, j, v) == RowOf(i', j', v)
    ensures i == i' && j == j'
  {
    if j < j' {
      MulMonotone(j + 1, j', v);
    } else if j' < j {
      MulMonotone(j' + 1, j, v);
    }
  }

  /** Every row is named by some (element, lane) pair. */
  lemma RowOfSplit(r: nat, v: nat)
    requires v > 0
    ensures r % v < v && RowOf(r % v, r / v, v) == r
  {
  }

  /** The matrix-vector loops visit rows `i + j·v_size` for every lane element
      `i` and output lane `j`; with `ceil_div(out_size, v_size)` output lanes
      all of them are rows of the matrix exactly when `out_size` is a multiple
      of `v_size`. */
  lemma RowIndexInBoundsIff(outSize: nat, v: nat)
    requires v > 0
    ensures (forall i, j :: 0 <= i < v && 0 <= j < CeilDiv(outSize, v) ==> RowOf(i, j, v) < outSize)
            <==> outSize % v == 0
  {
    var L := CeilDiv(outSize, v);
    if outSize % v == 0 {
      assert L * v == outSize by { CeilDivExact(outSize, v); }
      forall i, j | 0 <= i < v && 0 <= j < L
        ensures RowOf(i, j, v) < outSize
      {
        RowOfInRange(i, j, v, L);
      }
    } else {
      assert L > 0;
      assert L * v > outSize by { CeilDivExact(outSize, v); }
      var i, j := v - 1, L - 1;
      assert RowOf(i, j, v) == L * v - 1;
      assert !(RowOf(i, j, v) < outSize);
    }
  }

  /** `ceil_div` covers `n` exactly when `d` divides it. */
  lemma CeilDivExact(n: nat, d: nat)
    requires d > 0
    ensures CeilDiv(n, d) * d == n <==> n % d == 0
  {
    var r := CeilDiv(n, d);
    var q, m := n / d, n % d;
    assert n == d * q + m && 0 <= m < d;
    if m == 0 {
      if r > q {
        MulMonotone(q, r - 1, d);
      } else if r < q {
        MulMonotone(r + 1, q, d);
      }
    } else if r * d == n {
      MultipleModZero(r, d);
    }
  }

  /** A multiple of `d` leaves no remainder. */
  lemma MultipleModZero(r: nat, d: nat)
    requires d > 0
    ensures (r * d) % d == 0
  {
    var q, m := (r * d) / d, (r * d) % d;
    assert r * d == d * q + m && 0 <= m < d;
    if r > q {
      MulMonotone(q + 1, r, d);
    } else if r < q {
      MulMonotone(r + 1, q, d);
    }
  }

  /** All lanes are `v` wide. */
  ghost predicate Shaped(lanes: seq<seq<real>>, v: nat)
  {
    forall j :: 0 <= j < |lanes| ==> |lanes[j]| == v
  }

  /** Exactly `L` lanes, all `v` wide: a `v_type[L]` array. */
  ghost predicate Fits(lanes: seq<seq<real>>, v: nat, L: nat)
  {
    |lanes| == L && Shaped(lanes, v)
  }

  /** A `v_type[rows][L]` matrix: `rows` rows of `L` lanes each. */
  ghost predicate MatShaped(mat: seq<seq<seq<real>>>, rows: nat, L: nat, v: nat)
  {
    |mat| == rows && forall r :: 0 <= r < rows ==> Fits(mat[r], v, L)
  }

  /** Every row of `mat` pairs lane by lane with `vec`. */
  ghost predicate Conformable(mat: seq<seq<seq<real>>>, vec: seq<seq<real>>)
  {
    forall r :: 0 <= r < |mat| ==> |mat[r]| == |vec| && forall k :: 0 <= k < |vec| ==> |mat[r][k]| == |vec[k]|
  }

  lemma ShapedConformable(mat: seq<seq<seq<real>>>, vec: seq<seq<real>>, v: nat, L: nat)
    requires MatShaped(mat, |mat|, L, v) && Fits(vec, v, L)
    ensures Conformable(mat, vec)
  {
    forall r | 0 <= r < |mat|
      ensures |mat[r]| == |vec| && forall k :: 0 <= k < |vec| ==> |mat[r][k]| == |vec[k]|
    {
      assert Fits(mat[r], v, L);
    }
  }

  /** The lanes laid end to end; `L` lanes of width `v` give `L·v` values. */
  function Flatten(lanes: seq<seq<real>>): (s: seq<real>)
    ensures forall v :: Shaped(lanes, v) ==> |s| == |lanes| * v
  {
    if |lanes| == 0 then []
    else
      var n := |lanes| - 1;
      assert forall v :: Shaped(lanes, v) ==> Shaped(lanes[..n], v);
      Flatten(lanes[..n]) + lanes[n]
  }

  /** `L` lanes of `v` values taken from `s` in order, padded with zeros. */
  function Pack(s: seq<real>, v: nat, L: nat): (lanes: seq<seq<real>>)
    ensures |lanes| == L && Shaped(lanes, v)
  {
    seq(L, j requires 0 <= j < L =>
      seq(v, i requires 0 <= i < v => if RowOf(i, j, v) < |s| then s[RowOf(i, j, v)] else 0.0))
  }

  /** Lane element `i` of lane `j` sits at `i + j·v` of the flattened lanes. */
  lemma {:induction false} FlattenAt(lanes: seq<seq<real>>, v: nat, j: nat, i: nat)
    requires Shaped(lanes, v) && j < |lanes| && i < v
    ensures RowOf(i, j, v) < |Flatten(lanes)| && Flatten(lanes)[RowOf(i, j, v)] == lanes[j][i]
  {
    var n := |lanes| - 1;
    var front := lanes[..n];
    assert Shaped(front, v);
    assert Flatten(lanes) == Flatten(front) + lanes[n];
    assert |Flatten(front)| == n * v;
    if j < n {
      FlattenAt(front, v, j, i);
      assert front[j] == lanes[j];
    } else {
      assert RowOf(i, j, v) == n * v + i;
    }
  }

  lemma FlattenIndex(lanes: seq<seq<real>>, v: nat)
    requires Shaped(lanes, v)
    ensures forall j, i :: 0 <= j < |lanes| && 0 <= i < v ==>
      RowOf(i, j, v) < |Flatten(lanes)| && Flatten(lanes)[RowOf(i, j, v)] == lanes[j][i]
  {
    forall j, i | 0 <= j < |lanes| && 0 <= i < v
      ensures RowOf(i, j, v) < |Flatten(lanes)| && Flatten(lanes)[RowOf(i, j, v)] == lanes[j][i]
    {
      FlattenAt(lanes, v, j, i);
    }
  }

  /** Packing then flattening returns the vector followed by its padding. */
  lemma FlattenPack(s: seq<real>, v: nat, L: nat)
    requires v > 0 && |s| <= L * v
    ensures Flatten(Pack(s, v, L)) == s + Zeros(L * v - |s|)
  {
    var p := Pack(s, v, L);
    FlattenIndex(p, v);
    var f := Flatten(p);
    var t := s + Zeros(L * v - |s|);
    forall r | 0 <= r < L * v
      ensures f[r] == t[r]
    {
      RowOfSplit(r, v);
      var i, j := r % v, r / v;
      if j >= L {
        MulMonotone(L, j, v);
        assert false;
      }
      assert f[RowOf(i, j, v)] == p[j][i];
    }
  }

  /** Flattening then packing returns the lanes. */
  lemma PackFlatten(lanes: seq<seq<real>>, v: nat)
    requires Shaped(lanes, v)
    ensures Pack(Flatten(lanes), v, |lanes|) == lanes
  {
    FlattenIndex(lanes, v);
    var p := Pack(Flatten(lanes), v, |lanes|);
    forall j | 0 <= j < |lanes|
      ensures p[j] == lanes[j]
    {
      forall i | 0 <= i < v
        ensures p[j][i] == lanes[j][i]
      {
        RowOfInRange(i, j, v, |lanes|);
      }
    }
  }

  /** Sum over the lanes of `hadd(row[k] * vec[k])`: a matrix row stored as
      lanes times a vector stored as lanes. */
  function RowDot(row: seq<seq<real>>, vec: seq<seq<real>>): real
    requires |row| == |vec| && forall k :: 0 <= k < |row| ==> |row[k]| == |vec[k]|
  {
    if |row| == 0 then 0.0
    else
      var n := |row| - 1;
      RowDot(row[..n], vec[..n]) + Sum(Mul(row[n], vec[n]))
  }

  /** The lane-wise row product is the plain dot product of the flattened
      operands. */
  lemma {:induction false} RowDotFlatten(row: seq<seq<real>>, vec: seq<seq<real>>)
    requires |row| == |vec| && forall k :: 0 <= k < |row| ==> |row[k]| == |vec[k]|
    ensures |Flatten(row)| == |Flatten(vec)|
    ensures RowDot(row, vec) == Dot(Flatten(row), Flatten(vec))
  {
    if |row| > 0 {
      var n := |row| - 1;
      RowDotFlatten(row[..n], vec[..n]);
      DotAppend(Flatten(row[..n]), row[n], Flatten(vec[..n]), vec[n]);
    }
  }

  /** A packed weight row times the input lanes: the padding weights are zero,
      so only the first `|w|` input values count, whatever the padding lanes
      of the input hold. */
  lemma PackedRowDot(w: seq<real>, vec: seq<seq<real>>, v: nat)
    requires v > 0 && Shaped(vec, v) && |w| <= |vec| * v
    ensures RowDot(Pack(w, v, |vec|), vec) == Dot(w, Flatten(vec)[..|w|])
  {
    var p := Pack(w, v, |vec|);
    var k := |vec| * v - |w|;
    assert |Flatten(vec)| == |vec| * v;
    RowDotFlatten(p, vec);
    FlattenPack(w, v, |vec|);
    assert RowDot(p, vec) == Dot(w + Zeros(k), Flatten(vec));
    DotZeroPadded(w, k, Flatten(vec));
  }

  /** Product of a `|mat|`-row matrix stored as lanes with a vector stored as
      lanes: lane element `i` of output lane `j` is row `i + j·v` times the
      vector. */
  function MatMulSpec(mat: seq<seq<seq<real>>>, vec: seq<seq<real>>, v: nat, L: nat): (out: seq<seq<real>>)
    requires L * v <= |mat| && Conformable(mat, vec)
    ensures |out| == L && Shaped(out, v)
  {
    seq(L, j requires 0 <= j < L =>
      seq(v, i requires 0 <= i < v =>
        RowOfInRange(i, j, v, L);
        RowDot(mat[RowOf(i, j, v)], vec)))
  }
}

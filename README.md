# GRU layer (RTNeural, xsimd back-end) in Dafny

This project models the gated recurrent unit (GRU) layer of RTNeural's xsimd back-end
(`RTNeural/gru/gru_xsimd.h`). It covers both forms of the layer:

- **`GRULayer<T>`**, the dynamic layer. Its sizes are chosen at run time. Its weights are held
  per gate (z, r, c) as a `WeightSet` of kernel rows `W`, recurrent rows `U` and two bias
  vectors `b[0]`, `b[1]`. `forward` computes one GRU step with a fixed sequence of in-place
  vector operations on scratch buffers. It writes the new state to the caller's output array
  and copies it into the state `ht1`.
- **`GRULayerT<T, in, out>`**, the static layer. It stores everything as SIMD lanes of width
  `v_size`. A vector of length `n` is held as `ceil_div(n, v_size)` lanes. Matrices are held
  row by row, each row as lanes. `forward` (for `in_size > 1`) and its single-input overload
  (for `in_size == 1`) compute the same step lane by lane. They use a lane matrix-vector
  product that sums lane products with `hadd` into a scalar buffer. That buffer is then
  reloaded as lanes.

The reference meaning of a step is `GruMath.GruStep`. For every output row `i`:

- `z_i = sigmoid(W_z[i]·x + U_z[i]·h + bz0_i + bz1_i)`
- `r_i = sigmoid(W_r[i]·x + U_r[i]·h + br0_i + br1_i)`
- `c_i = tanh(r_i * (U_c[i]·h + bc1_i) + W_c[i]·x + bc0_i)`
- `h'_i = (1 - z_i) * c_i + z_i * h_i`

Both layer classes are proved against this function:

- The dynamic `Forward` leaves exactly `GruStep` of the old state in `h` and in `ht1`.
- The static `Forward`/`ForwardSingle` leave the lane-level step `StaticStep`/`StaticStepSingle`
  in `outs`.
- `GruEquivalence` proves that the lane-level step, flattened, is `GruStep` of the logical
  weights the lanes pack.

Arithmetic is over `real`. `exp` and `tanh` are parameters, bundled in `Activations.Transcendentals`.

Lane layout:

- A lane is a `seq<real>` of length `v`.
- Element `i` of lane `j` is logical index `i + j*v` (`Lanes.RowOf`).
- `Lanes.Pack` and `Lanes.Flatten` convert between a logical vector and its lanes.
- The lane matrix product is specified by `Lanes.MatMulSpec`.
- The scalar buffer `sums` in `recurrent_mat_mul`/`kernel_mat_mul` has `out_size` entries, and the
  loops write entry `i + j*v_size` for every lane `j < v_out_size` and element `i < v_size`.
  Those writes stay inside the buffer exactly when `out_size` is a multiple of `v_size`
  (`Lanes.RowIndexInBoundsIff`). The model therefore requires that of the static layer.

## Model

| member | source | states |
|---|---|---|
| Activations.Sigmoid | RTNeural/gru/gru_xsimd.h:291-294 | `1/(1+exp(-x))` lies strictly between 0 and 1, and is exactly 1/2 at 0 when exp(0) = 1 |
| VectorOps.VMult | RTNeural/gru/gru_xsimd.h:40-43 | returns the dot product of the two vectors and leaves their elementwise product in the scratch buffer |
| VectorOps.VAdd | RTNeural/gru/gru_xsimd.h:46-47 | the output buffer becomes the elementwise sum, also when it aliases an input |
| VectorOps.VSub | RTNeural/gru/gru_xsimd.h:60 | the output buffer becomes the elementwise difference |
| VectorOps.VProd | RTNeural/gru/gru_xsimd.h:55 | the output buffer becomes the elementwise product, also when it aliases an input |
| VectorOps.VCopy | RTNeural/gru/gru_xsimd.h:65 | the destination becomes a copy of the source |
| VectorOps.VSigmoid | RTNeural/gru/gru_xsimd.h:48 | every element is replaced by its sigmoid |
| VectorOps.VTanh | RTNeural/gru/gru_xsimd.h:58 | every element is replaced by its tanh |
| VectorOps.Fill | RTNeural/gru/gru_xsimd.h:30 | every element becomes the given value |
| GruMath.ZeroGateIsHalf | RTNeural/gru/gru_xsimd.h:46-52 | with all-zero gate weights and biases, the z and r gates are exactly 1/2 for any input and state |
| GruMath.ZeroCandidateIsZero | RTNeural/gru/gru_xsimd.h:54-58 | with all-zero candidate weights and biases, the candidate is 0 whatever the reset gate is |
| GruMath.ZeroWeightsStepAt | RTNeural/gru/gru_xsimd.h:36-66 | with all-zero weights, each new state element is half the old one |
| GruMath.ZeroWeightsHalveState | RTNeural/gru/gru_xsimd.h:36-66 | with all-zero weights, one step halves the whole state, whatever the input |
| GruMath.ZeroWeightsRunStep | RTNeural/gru/gru_xsimd.h:36-66 | with all-zero weights, one more input in the sequence halves each state element once more |
| GruMath.ZeroWeightsRunDecays | RTNeural/gru/gru_xsimd.h:36-66 | with all-zero weights, after n steps each state element is the initial one halved n times, whatever the inputs |
| GruMath.StepKeepsStateBounded | RTNeural/gru/gru_xsimd.h:60-63 | if tanh stays in [-1, 1] and the state is in [-1, 1], the new state is in [-1, 1]: it is a convex blend of the candidate and the old state |
| GruMath.ConvexBound | RTNeural/gru/gru_xsimd.h:60-63 | `(1-z)*c + z*h` with z in [0, 1] and c, h in [-1, 1] lies in [-1, 1] |
| GruLayerDynamic.GateColumnsCover | RTNeural/gru/gru_xsimd.h:68-80 | every entry of a `[n][3*out_size]` weight matrix lands in exactly one gate's rows: column j reaches gate j / out_size at row j % out_size, and no other (gate, row) pair reads column j |
| GruLayerDynamic.GateSlicesCover | RTNeural/gru/gru_xsimd.h:82-87 | the three gate slices of a `3*out_size` bias row put back together are the row |
| GruLayerDynamic.InPlaceOpsComputeStep | RTNeural/gru/gru_xsimd.h:46-63 | the buffer contents produced by the in-place bias, activation, product and blend sequence are exactly the GRU step |
| GruLayerDynamic.GateFromBuffers | RTNeural/gru/gru_xsimd.h:46-52 | the activated z or r buffer holds the gate value of each row |
| GruLayerDynamic.CandidateFromBuffers | RTNeural/gru/gru_xsimd.h:54-58 | after the bias, reset-product, add and tanh sequence, the c buffer holds the candidate of each row |
| GruLayerDynamic.BlendFromBuffers | RTNeural/gru/gru_xsimd.h:60-63 | the output buffer holds `(1 - z) * c + z * h` in each row |
| GruLayerDynamic.ActivateGate | RTNeural/gru/gru_xsimd.h:46-52 | adds both biases to the gate buffer in place and applies sigmoid |
| GruLayerDynamic.ActivateCandidate | RTNeural/gru/gru_xsimd.h:54-58 | leaves `tanh((U·h + b1) * r + W·x + b0)` in the c buffer |
| GruLayerDynamic.BlendState | RTNeural/gru/gru_xsimd.h:60-63 | leaves `(1 - z) * c + z * h` in the output, using the product buffer as scratch |
| GruLayerDynamic.GruLayer.constructor | RTNeural/gru/gru_xsimd.h:22-23 | a new layer of the given sizes has all-zero weights, a zero state and an all-ones `ones` buffer (assumed: the body is not part of this model) |
| GruLayerDynamic.GruLayer.Reset | RTNeural/gru/gru_xsimd.h:30 | the state becomes all zeros and the weights are unchanged |
| GruLayerDynamic.GruLayer.SetWVals | RTNeural/gru/gru_xsimd.h:89-94 | column block g of the `[in_size][3*out_size]` matrix becomes gate g's kernel rows (z, r, c order); everything else is unchanged |
| GruLayerDynamic.GruLayer.SetUVals | RTNeural/gru/gru_xsimd.h:96-101 | column block g of the `[out_size][3*out_size]` matrix becomes gate g's recurrent rows; everything else is unchanged |
| GruLayerDynamic.GruLayer.SetBVals | RTNeural/gru/gru_xsimd.h:103-108 | slice g of bias rows 0 and 1 becomes gate g's `b[0]` and `b[1]`; everything else is unchanged |
| GruLayerDynamic.GruLayer.RowProducts | RTNeural/gru/gru_xsimd.h:40-43 | the four dot products of output row i: z and r pre-activations, the c kernel part and the c recurrent part |
| GruLayerDynamic.GruLayer.PreActivations | RTNeural/gru/gru_xsimd.h:38-44 | fills zVec, rVec, cVec and cTmp with the pre-activations of every row |
| GruLayerDynamic.GruLayer.Forward | RTNeural/gru/gru_xsimd.h:36-66 | the output array holds the GRU step of the input and the old state, the state becomes that output, and the layer stays consistent |
| Lanes.CeilDiv | RTNeural/gru/gru_xsimd.h:163-165 | the lane count is the least r with r*v >= n, and r*v == n when v divides n |
| Lanes.CeilDivExact | RTNeural/gru/gru_xsimd.h:163-165 | the lanes hold exactly n elements iff v divides n |
| Lanes.RowIndexInBoundsIff | RTNeural/gru/gru_xsimd.h:261-272 | every index `i + j*v_size` the matrix-product loops touch is below out_size iff out_size is a multiple of v_size |
| Lanes.RowOfInjective | RTNeural/gru/gru_xsimd.h:262-267 | distinct (i, j) pairs name distinct rows, so each sums entry is written once |
| Lanes.RowOfSplit | RTNeural/gru/gru_xsimd.h:262-267 | every row r is reached, as `i = r % v`, `j = r / v` |
| Lanes.FlattenAt | RTNeural/gru/gru_xsimd.h:271-272 | element i of lane j sits at logical index `i + j*v` |
| Lanes.FlattenPack | RTNeural/gru/gru_xsimd.h:296-316 | packing a vector into L lanes and flattening gives the vector padded with zeros |
| Lanes.PackFlatten | RTNeural/gru/gru_xsimd.h:296-316 | flattening lanes and packing them again gives the same lanes |
| Lanes.RowDotFlatten | RTNeural/gru/gru_xsimd.h:266-267 | the sum over lanes of `hadd(row[k] * vec[k])` is the dot product of the flattened row and vector |
| Lanes.PackedRowDot | RTNeural/gru/gru_xsimd.h:282-283 | a packed weight row dotted lane-wise with a lane vector is the logical dot product over the first n elements: the zero padding contributes nothing |
| GruLayerStatic.SumsProgressStep | RTNeural/gru/gru_xsimd.h:262-268 | one inner iteration of the `i`, `j` loops fills entry `i + j*v` with its row's dot product and keeps the other entries as they were |
| GruLayerStatic.AccumulateRow | RTNeural/gru/gru_xsimd.h:266-267 | the `k` loop adds the row's lane dot product to sums entry p and changes nothing else |
| GruLayerStatic.SumElementRows | RTNeural/gru/gru_xsimd.h:264-268 | after the `j` loop for element i, all rows with element index up to i hold their dot products |
| GruLayerStatic.RowSums | RTNeural/gru/gru_xsimd.h:261-269 | after the `i` loop, every sums entry r holds the dot product of matrix row r with the vector |
| GruLayerStatic.LoadLanes | RTNeural/gru/gru_xsimd.h:271-272 | the output lanes are the sums buffer packed into lanes |
| GruLayerStatic.LaneMatMul | RTNeural/gru/gru_xsimd.h:259-289 | `recurrent_mat_mul`/`kernel_mat_mul` leave in out exactly `MatMulSpec`: lane j element i is the dot product of row `i + j*v` with the vector |
| GruLayerStatic.GateLoop | RTNeural/gru/gru_xsimd.h:190-197 | each gate lane becomes `sigmoid(rec + bias + kernel)` |
| GruLayerStatic.GateLoopSingle | RTNeural/gru/gru_xsimd.h:217-223 | each gate lane becomes `sigmoid(fma(W_1, ins[0], rec + bias))` |
| GruLayerStatic.CandidateLoop | RTNeural/gru/gru_xsimd.h:202-203 | each candidate lane becomes `tanh(fma(r, ct + bh1, kernel side))` |
| GruLayerStatic.BlendLoop | RTNeural/gru/gru_xsimd.h:206-207 | each state lane becomes `fma(1 - z, h_hat, z * outs)` of its old value |
| GruLayerStatic.GruLayerT.constructor | RTNeural/gru/gru_xsimd.h:171 | a new layer holds the given packed weights and a zero state (assumed: the body is not part of this model) |
| GruLayerStatic.GruLayerT.Reset | RTNeural/gru/gru_xsimd.h:179-180 | the state flattens to all zeros |
| GruLayerStatic.GruLayerT.Forward | RTNeural/gru/gru_xsimd.h:183-208 | for in_size > 1, the state lanes become the lane-level step of the input lanes and the old state |
| GruLayerStatic.GruLayerT.ForwardSingle | RTNeural/gru/gru_xsimd.h:210-233 | for in_size == 1, the state lanes become the single-input lane-level step |
| GruLayerStatic.ZeroLanesFlatten | RTNeural/gru/gru_xsimd.h:179-180 | zero lanes flatten to a zero vector |
| GruEquivalence.PackedMatMulAt | RTNeural/gru/gru_xsimd.h:259-289 | the lane matrix product over packed rows gives, at lane j element e, the logical row `e + j*v` dotted with the logical vector |
| GruEquivalence.GateLaneAt | RTNeural/gru/gru_xsimd.h:190-197 | a gate lane element computed from the right recurrent, bias and kernel parts is the logical gate value |
| GruEquivalence.GateLaneSingleAt | RTNeural/gru/gru_xsimd.h:217-223 | the same for the single-input gate built with fma |
| GruEquivalence.CandidateLaneAt | RTNeural/gru/gru_xsimd.h:202-203 | a candidate lane element is the logical candidate |
| GruEquivalence.BlendLaneAt | RTNeural/gru/gru_xsimd.h:206-207 | a state lane element after the blend is `(1 - z) * h_hat + z * h` |
| GruEquivalence.PackedGateAt | RTNeural/gru/gru_xsimd.h:188-197 | with packed U and W and bz = b0 + b1, a gate lane element of the static step is the logical gate of row `e + j*v` |
| GruEquivalence.PackedGateSingleAt | RTNeural/gru/gru_xsimd.h:216-223 | the same for the single-input overload when ins[0] is the input broadcast to every lane element |
| GruEquivalence.PackedCandidateAt | RTNeural/gru/gru_xsimd.h:200-203 | a candidate lane element of the static step is the logical candidate of row `e + j*v` |
| GruEquivalence.KernelSideSingleAt | RTNeural/gru/gru_xsimd.h:228 | `fma(Wh_1, ins[0], bh0)` with a broadcast input is the candidate's kernel part plus b0 |
| GruEquivalence.StaticCandidateAt | RTNeural/gru/gru_xsimd.h:194-203 | the candidate lane element of the general `forward` is the logical candidate of row `e + j*v` under that row's reset gate |
| GruEquivalence.StaticStepAt | RTNeural/gru/gru_xsimd.h:183-208 | lane j element e of the static step is element `e + j*v` of the GRU step |
| GruEquivalence.StaticStepSingleAt | RTNeural/gru/gru_xsimd.h:210-233 | the same for the single-input overload with a broadcast input |
| GruEquivalence.StaticStepMatchesGruStep | RTNeural/gru/gru_xsimd.h:183-208 | the static step, flattened, is the GRU step of the packed logical weights, the first in_size input elements and the flattened state |
| GruEquivalence.StaticStepSingleMatchesGruStep | RTNeural/gru/gru_xsimd.h:210-233 | the single-input static step with a broadcast input, flattened, is the GRU step of that one input |
| GruEquivalence.SingleInputOverloadAgrees | RTNeural/gru/gru_xsimd.h:183-233 | for in_size == 1 and a broadcast input, both forward overloads compute the same new state |
| GruEquivalence.LanesArePack | RTNeural/gru/gru_xsimd.h:271-272 | lanes that agree with a vector at every index `e + j*v` flatten to that vector |

## Left out

- Floating point: all arithmetic is over `real`. `T`, rounding, and the precision of xsimd's `exp` and `tanh` are not modelled.
- `exp` and `tanh` are parameters of type `Activations.Transcendentals`. The model assumes only that `exp` is positive, plus, where a lemma says so, `exp(0) = 1`, `tanh(0) = 0` or that `tanh` stays in [-1, 1].
- SIMD: the lane width `v_size` is a parameter. A lane is a sequence of `v` reals. `hadd`, `fma`, `load_aligned` and the `v_type(1.0)` broadcast are their lane-wise meanings. Alignment, the allocator and the choice of instruction set are not modelled.
- The vector primitives of `common.h` (`vMult`, `vAdd`, `vSub`, `vProd`, `vCopy`, `sigmoid`, `tanh`): `common.h` is not part of this model. They are written as elementwise loops with the obvious contracts.
- GruLayerDynamic.GruLayer.SetWVals, SetUVals, SetBVals: their bodies are not part of this model. The model assumes the column-block layout (z, then r, then c, each `out_size` wide) that the documented `3 * out_size` shapes suggest. The `T**` overloads (lines 73-87) take the same data and are not modelled separately.
- The getters `getWVal`, `getUVal` and `getBVal`, the copy constructor, the assignment operator, the `initializer_list` constructor, `getName` and `isActivation`: they read or copy data and compute nothing the model relies on.
- The static setters (lines 240-254): their bodies are not part of this model. They are replaced by the predicates `GruLayerStatic.Packs`, `PacksRecurrent` and `PacksSingle`, which relate the packed lanes to logical `GruWeights`. The equivalence lemmas take these as hypotheses. In particular they assume `bz` and `br` hold `b[0] + b[1]`, which lines 191 and 197 rely on because they add only one bias.
- GruLayerDynamic.GruLayer.constructor: its body (line 23 declares it) is not part of this model. The model assumes it starts with all-zero weights, a zero `ht1` and an all-ones `ones` buffer. The class documentation (lines 14-16) instead tells callers to call `reset()` before the first `forward`, so a zero state right after construction is an assumption, not a promise of the source. `Valid()`, and so `Forward`, relies on `ones` holding 1.0 everywhere.
- GruLayerStatic.GruLayerT.constructor: its body (line 171 declares it) is not part of this model. It takes the packed weights as a parameter instead of zero-initialising them through the setters, and it assumes `outs` starts at zero; the class documentation (lines 155-157) asks callers to call `reset()` first.
- GruLayerStatic.GruLayerT.Reset: the body at line 180 is not part of this model. It is modelled from its documentation as zeroing `outs`.
- GruLayerStatic.GruLayerT.ForwardSingle: it agrees with the general step only when `ins[0]` holds the single input in every lane element. `fma(Wz_1[i], ins[0], …)` is lane-wise, so any other `ins[0]` mixes lanes differently. `GruEquivalence.SingleInputOverloadAgrees` states this hypothesis explicitly.
- GruLayerStatic.LaneMatMul and the static layer require `out_size % v_size == 0`. When it fails, the source indexes `sums` and `mat` past their ends. `Lanes.RowIndexInBoundsIff` proves exactly when the accesses stay in bounds.
- GruLayerDynamic.GruLayer.Forward requires the output array to be distinct from the layer's own buffers.
- Other layer families (LSTM, dense, convolution), the Eigen and STL back-ends, model loading from JSON, and the benchmarks are outside this model.

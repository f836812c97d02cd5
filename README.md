# qcircuits circuit builders in Dafny

This project models the circuit-construction library `qcircuits/circuits.py`.
Its functions add quantum gates to a circuit object that the caller passes in.
They fall into these groups:

- **Encodings** put the input symbols `x0 .. x(n-1)` on a register:
  `simple_encoding_y/x/z`, `yz_arccos` and `ZZFeatureMap`.
- **Parametrised ansatz circuits** use the trainable symbols `theta0 .. theta(N-1)`:
  `qc10_pqc`, `qc10_pqc_local`, `qc10P_pqc`, `qc19_pqc`, `qc6_pqc`, `generic_pqc`, `TTN`, `MPS` and `SPSA2_PQC`.
- **Helpers**: `U3`, `NN_entangler`, `NN2_entangler` and `two_qubit_ry`.
- **Readout helpers**: `measure_all` and `measure_last`.

What matters in these builders is integer index arithmetic:

- which symbol each gate reads;
- which qubits it acts on;
- how the running `param_count` counters move.

## How the model is organised

- A register of n qubits is the indices `0 .. n-1`.
- A gate is a value of `Cirq.Gate`.
- An angle is a symbol: `Param(k)` is `theta_k` and `Input(k)` is `x_k`. `HalfPi`, `NegHalfPi` and `QuarterPi` stand for the fixed angles. No angle is ever evaluated.
- The circuit is the class `Cirq.Circuit`. Its field `ops` is the list of gates, and its method `Append` adds one gate.

Each builder is a method that appends gates to a `Circuit` with the same loops and counters as the source.

- Its postcondition ties the new gate list to a specification function of the inputs. For example, `circuit.ops == old(circuit.ops) + Qc10Ops(n, layers)`.
- Every `for` loop of the source appends a block of gates that depends on the loop index. The specification functions are built from one combinator for this, `Blocks.Repeat`. The facts about such loops are proved once in `Blocks` for any block.
- The properties that the builders promise are lemmas about the specification functions. They say:
  - how many gates are appended and in which pattern;
  - that every qubit index is inside the register and that two-qubit gates act on two different qubits (`WellFormed`);
  - which trainable symbols are read, in which order (`ParamUses`);
  - that every allocated symbol is read exactly once (`UsesEachOnce`), or which allocated symbols are never read.

## Model

| member | source | states |
|---|---|---|
| Cirq.Circuit.Append | qcircuits/circuits.py:18 | `circuit.append(gate)` puts the gate at the end of the circuit and changes nothing else |
| Cirq.ModWrap | qcircuits/circuits.py:86 | Python's `%` with a positive modulus, as used for ring indices such as `(n_qubits-2-i)%n_qubits`, wraps an index that is less than one register length out of range exactly once |
| Measure.MeasureAll | qcircuits/circuits.py:4-5 | `measure_all` returns m observables, the i-th on qubit i of the register |
| Measure.MeasureLast | qcircuits/circuits.py:6-7 | `measure_last` returns the observable on the last qubit of the register |
| Measure.MeasureAllDistinct | qcircuits/circuits.py:4-5 | `measure_all` returns m observables; the i-th is Z on qubit i < n, so all m are on different qubits |
| Measure.MeasureAllPrefix | qcircuits/circuits.py:4-5 | measuring k <= m qubits returns the first k observables of measuring m |
| Measure.MeasureLastOfAll | qcircuits/circuits.py:6-7 | `measure_last` is Z on the last qubit, which is the last observable `measure_all` returns on the whole register |
| Encodings.SimpleEncodingY | qcircuits/circuits.py:14-19 | the loop appends exactly `Encode(SimpleY, n)`: ry(x_idx) on each qubit idx, in qubit order |
| Encodings.YzArccosEncoding | qcircuits/circuits.py:20-26 | the loop appends exactly `Encode(YzArccos, n)`: ry(x_idx) then rz(x_idx) on each qubit, in qubit order |
| Encodings.SimpleEncodingZ | qcircuits/circuits.py:27-33 | the loop appends exactly `Encode(SimpleZ, n)`: H then rz(x_idx) on each qubit, in qubit order |
| Encodings.SimpleEncodingX | qcircuits/circuits.py:34-39 | the loop appends exactly `Encode(SimpleX, n)`: rx(x_idx) on each qubit, in qubit order |
| Encodings.EncodeStep | qcircuits/circuits.py:17-18 | one more loop iteration appends the gates of one more qubit |
| Encodings.EncodeAt | qcircuits/circuits.py:14-39 | an encoding has the same number of gates for every qubit (1 or 2); the gates of qubit q are at positions Width*q to Width*q + Width - 1 |
| Encodings.EncodeQubitFacts | qcircuits/circuits.py:14-39 | the gates of one qubit read no trainable symbol, act on that qubit only and rotate it by its own input symbol |
| Encodings.EncodeNoParams | qcircuits/circuits.py:14-39 | an encoding reads no trainable symbol |
| Encodings.EncodeWellFormed | qcircuits/circuits.py:14-39 | an encoding of n qubits stays inside the n-qubit register |
| Encodings.EncodeOwnInput | qcircuits/circuits.py:14-39 | every rotation of an encoding carries the input symbol `x_q` of the qubit q it rotates |
| Encodings.ZzFeatureMap | qcircuits/circuits.py:40-53 | the two loops append exactly `ZzFeatureMapOps(n)`: H and ZPow(2*x_q) on each qubit, then a CNOT–ZPow–CNOT triple on each pair (idx, idx+1) |
| Encodings.ZzHeadsAt | qcircuits/circuits.py:42-45 | the first loop appends 2 gates per qubit; those of qubit q are at positions 2q and 2q+1 |
| Encodings.ZzLinksAt | qcircuits/circuits.py:46-53 | the second loop appends 3 gates per pair; the triple for idx is at positions 3idx to 3idx+2 |
| Encodings.ZzHeadFacts | qcircuits/circuits.py:42-45 | the head of a qubit of the register is well formed and reads no trainable symbol |
| Encodings.ZzLinkFacts | qcircuits/circuits.py:46-53 | the triple for a pair of the register is well formed, reads no trainable symbol and only joins neighbours |
| Encodings.ZzHeadsWellFormed | qcircuits/circuits.py:42-45 | all heads stay inside the register and read no trainable symbol |
| Encodings.ZzLinksWellFormed | qcircuits/circuits.py:46-53 | the count triples fit a register of count+1 qubits and read no trainable symbol |
| Encodings.ZzLinksNeighbourly | qcircuits/circuits.py:46-53 | every entangler gate is a CNOT from idx to idx+1, or the phase 2(pi-x_idx)(pi-x_(idx+1)) on qubit idx+1 |
| Encodings.ZzFeatureMapLength | qcircuits/circuits.py:40-53 | for n > 0 the map has 2n head gates and 2n + 3(n-1) gates in all |
| Encodings.ZzFeatureMapLayout | qcircuits/circuits.py:40-53 | for n > 0 the map has 2n + 3(n-1) gates; the head of every qubit q is at 2q, and the triple for every pair idx is at 2n + 3idx |
| Encodings.ZzFeatureMapHead | qcircuits/circuits.py:42-45 | the head of qubit q is at positions 2q, 2q+1 of the map |
| Encodings.ZzFeatureMapLink | qcircuits/circuits.py:46-53 | the triple for idx < n-1 is at positions 2n+3idx to 2n+3idx+2 of the map |
| Encodings.ZzFeatureMapNeighbourly | qcircuits/circuits.py:46-53 | every gate after the 2n heads joins only adjacent qubits, with the phase on the second |
| Encodings.ZzFeatureMapFacts | qcircuits/circuits.py:40-53 | the map is well formed on n qubits and reads no trainable symbol |
| Helpers.U3 | qcircuits/circuits.py:265-270 | appends exactly rz(p2), rx(pi/2), rz(p0), rx(-pi/2), rz(p1) on the qubit |
| Helpers.U3Uses | qcircuits/circuits.py:265-270 | U3 appends 5 gates and reads its symbols in the order p2, p0, p1 |
| Helpers.U3WellFormed | qcircuits/circuits.py:265-270 | U3 on a qubit of the register is well formed |
| Helpers.NnEntangler | qcircuits/circuits.py:272-275 | the loop appends exactly `Ring(n, 1, n)`: CNOT(i % n, (i+1) % n) for i in [0, n) |
| Helpers.Nn2Entangler | qcircuits/circuits.py:277-280 | the loop appends exactly `Ring(n, 2, n)`: CNOT(i % n, (i+2) % n) for i in [0, n) |
| Helpers.RingStep | qcircuits/circuits.py:274-280 | one more iteration of an entangler loop appends one more CNOT |
| Helpers.RingLength | qcircuits/circuits.py:272-280 | an entangler appends n CNOTs |
| Helpers.RingShape | qcircuits/circuits.py:272-280 | the i-th CNOT runs from qubit i to i+stride, wrapping past the last qubit |
| Helpers.RingLinkFacts | qcircuits/circuits.py:275-280 | each CNOT reads no symbol and stays in the register; its two qubits differ when 0 < stride < n |
| Helpers.RingWellFormed | qcircuits/circuits.py:272-280 | an entangler reads no symbol and stays in the register; it is well formed when 0 < stride < n |
| Helpers.Nn2ClashOnTwoQubits | qcircuits/circuits.py:277-280 | on two qubits the first CNOT of `NN2_entangler` has control = target = 0, so the circuit is not well formed |
| Helpers.TwoQubitRy | qcircuits/circuits.py:282-285 | appends exactly ry(p0) on q0, ry(p1) on q1, CZ(q0, q1) |
| Helpers.TwoQubitRyUses | qcircuits/circuits.py:282-285 | the block has 3 gates and reads p0 then p1 |
| Helpers.TwoQubitRyWellFormed | qcircuits/circuits.py:282-285 | the block is well formed on two different qubits of the register |
| Rows.AppendRow | qcircuits/circuits.py:81-83 | the row loop appends exactly `Row(axis, base, n)`: a rotation by theta_(i+base) on each qubit i |
| Rows.RowStep | qcircuits/circuits.py:81-83 | one more iteration appends the rotation of one more qubit |
| Rows.RowFacts | qcircuits/circuits.py:87-89 | a row has one rotation per qubit, reads theta_base .. theta_(base+n-1) in qubit order and stays in the register |
| Rows.AppendPairRow | qcircuits/circuits.py:175-178 | the loop appends exactly `PairRow(a1, a2, base, n)`: on each qubit i, a rotation by theta_(2i+base) then one by theta_(2i+1+base) |
| Rows.PairRowStep | qcircuits/circuits.py:175-178 | one more iteration appends the two rotations of one more qubit |
| Rows.PairRowFacts | qcircuits/circuits.py:182-185 | a two-rotation row has 2n gates, reads the 2n symbols from base in order and stays in the register |
| Rows.AppendCzRing | qcircuits/circuits.py:85-86 | the ring loop appends exactly `CzRing(n, n)`: CZ((n-2-i)%n, (n-1-i)%n) for i in [0, n) |
| Rows.CzRingStep | qcircuits/circuits.py:85-86 | one more iteration appends one more CZ |
| Rows.CzRingShape | qcircuits/circuits.py:85-86 | the ring has n CZs; the i-th joins n-2-i and n-1-i, and the last joins n-1 and 0 |
| Rows.CzLinkFacts | qcircuits/circuits.py:86 | each CZ reads no symbol and stays in the register; its qubits differ when n >= 2 |
| Rows.CzRingFacts | qcircuits/circuits.py:85-86 | the ring reads no symbol and stays in the register; it is well formed when n >= 2 |
| Rows.CzRingClashOnOneQubit | qcircuits/circuits.py:85-86 | on one qubit the ring is the single gate CZ(0, 0), which is not well formed |
| Layers.Qc10Pqc | qcircuits/circuits.py:78-90 | appends exactly `Qc10Ops(n, L)`: the first row, then per layer the CZ ring and a row from theta_(n(l+1)) |
| Layers.AppendQc10Layer | qcircuits/circuits.py:84-89 | one layer iteration appends the ring and the row of layer l |
| Layers.CzRingShape0 | qcircuits/circuits.py:85-86 | the ring of every layer has n CZs |
| Layers.Qc10LayerFacts | qcircuits/circuits.py:84-89 | layer l has 2n gates and reads theta_(n(l+1)) .. theta_(n(l+1)+n-1) in qubit order |
| Layers.Qc10Uses | qcircuits/circuits.py:78-90 | `qc10_pqc` appends n + 2nL gates and reads exactly theta_0 .. theta_(n(1+L)-1), in allocation order |
| Layers.Qc10OnceEach | qcircuits/circuits.py:80-89 | each of the n(1+L) allocated symbols drives exactly one gate, and no other symbol is read |
| Layers.Qc10WellFormed | qcircuits/circuits.py:78-90 | every gate is in the register; with n >= 2 every CZ joins two different qubits |
| Layers.Qc10PqcLocal | qcircuits/circuits.py:138-152 | appends exactly `Qc10LocalOps(n, L)`: the layers before the last are those of `qc10_pqc`; the last is the CZ ring and one RY(theta_(nL)) on qubit n-1 |
| Layers.AppendQc10LocalLayers | qcircuits/circuits.py:144-151 | the layer loop appends all layers, with the last one cut short |
| Layers.AppendQc10LocalLayer | qcircuits/circuits.py:145-151 | a non-final iteration appends a `qc10_pqc` layer; the final one appends the ring and the rotation on the leftover `qubit` |
| Layers.LocalPrefixStep | qcircuits/circuits.py:144-151 | one more iteration of the layer loop appends one more layer |
| Layers.LocalPrefixDone | qcircuits/circuits.py:138-152 | the first row followed by all layers is the whole circuit |
| Layers.Qc10LocalUses | qcircuits/circuits.py:138-152 | `qc10_pqc_local` reads exactly theta_0 .. theta_(nL), in order (theta_0 .. theta_(n-1) when L = 0) |
| Layers.Qc10LocalLayeredUses | qcircuits/circuits.py:144-151 | with L > 0 the symbols read are exactly theta_0 .. theta_(nL), in order |
| Layers.Qc10LocalLength | qcircuits/circuits.py:138-152 | `qc10_pqc_local` appends n gates with no layer and 2nL + 1 with L > 0 layers: the first row, L-1 full layers, the last ring and one RY |
| Layers.Qc10LocalWellFormed | qcircuits/circuits.py:138-152 | every gate is in the register; with n >= 2 every CZ joins two different qubits |
| Layers.Qc10LocalUnused | qcircuits/circuits.py:140-151 | the last n-1 of the n(1+L) allocated symbols are never read |
| Layers.Qc10PPqc | qcircuits/circuits.py:171-186 | appends exactly `Qc10POps(n, L)`: the first RY–RX row, then per layer the CZ ring and an RY–RX row from theta_(2n(l+1)) |
| Layers.AppendQc10PLayer | qcircuits/circuits.py:179-185 | one layer iteration appends the ring and the two-rotation row of layer l |
| Layers.Qc10PLayerFacts | qcircuits/circuits.py:179-185 | layer l has 3n gates and reads the 2n symbols from theta_(2n(l+1)) in order |
| Layers.Qc10PUses | qcircuits/circuits.py:171-186 | `qc10P_pqc` appends 2n + 3nL gates and reads exactly theta_0 .. theta_(2n(1+L)-1), in order |
| Layers.Qc10POnceEach | qcircuits/circuits.py:173-185 | each of the 2n(1+L) allocated symbols drives exactly one gate, and no other symbol is read |
| Layers.Qc10PWellFormed | qcircuits/circuits.py:171-186 | every gate is in the register; with n >= 2 every CZ joins two different qubits |
| Controlled.AppendCountedRow | qcircuits/circuits.py:159-163 | the loop appends rx(theta_c), rz(theta_(c+1)) on each qubit and advances `param_count` by 2n |
| Controlled.CnotPowRingStep | qcircuits/circuits.py:164-168 | one more iteration appends the fractional CNOT ((n-1-i)%n -> (n-i)%n) with symbol base+i |
| Controlled.CnotPowRingShape | qcircuits/circuits.py:164-168 | the ring has n gates; the first runs n-1 -> 0, and the i-th (i > 0) runs n-1-i -> n-i with symbol base+i |
| Controlled.CnotPowLinkFacts | qcircuits/circuits.py:167 | each fractional CNOT reads symbol base+i and stays in the register; its qubits differ when n >= 2 |
| Controlled.CnotPowRingFacts | qcircuits/circuits.py:164-168 | the ring has n gates, reads theta_base .. theta_(base+n-1) in order and stays in the register; it is well formed when n >= 2 |
| Controlled.AppendCnotPowRing | qcircuits/circuits.py:164-168 | the loop appends the ring and advances `param_count` by n |
| Controlled.Qc19Pqc | qcircuits/circuits.py:154-169 | appends exactly `Qc19Ops(n, L)`, whose layer l reads its symbols from theta_(3nl) on |
| Controlled.AppendQc19Layer | qcircuits/circuits.py:158-168 | one layer iteration appends the rotation row and the fractional ring, and advances `param_count` by 3n |
| Controlled.Qc19LayerFacts | qcircuits/circuits.py:158-168 | a layer has 3n gates and reads its 3n symbols from base in order |
| Controlled.Qc19Uses | qcircuits/circuits.py:154-169 | `qc19_pqc` appends 3nL gates and reads exactly theta_0 .. theta_(3nL-1), in order |
| Controlled.Qc19OnceEach | qcircuits/circuits.py:156-168 | each of the 3nL allocated symbols drives exactly one gate, and no other symbol is read |
| Controlled.Qc19WellFormed | qcircuits/circuits.py:154-169 | every gate is in the register; with n >= 2 every fractional CNOT joins two different qubits |
| Controlled.Qc6Pqc | qcircuits/circuits.py:188-214 | appends exactly `Qc6Ops(n, L)`, whose layer l reads its symbols from theta_((n²+3n)l) on |
| Controlled.AppendQc6Layer | qcircuits/circuits.py:192-213 | one layer iteration appends two rotation rows around the n fans, and advances `param_count` by n²+3n |
| Controlled.AppendQc6Fans | qcircuits/circuits.py:200-207 | the outer loop appends n fans of n-1 fractional CNOTs and advances `param_count` by n(n-1) |
| Controlled.AppendQc6Fan | qcircuits/circuits.py:202-207 | the inner loop appends n-1 fractional CNOTs and advances `param_count` by n-1 |
| Controlled.Qc6Distinct | qcircuits/circuits.py:203-206 | the control of fan idx is n-1-idx; the target (n-2-idx-idy)%n is in the register and never equals the control |
| Controlled.Qc6Covers | qcircuits/circuits.py:202-206 | every qubit other than the control is the target of some step idy of the fan |
| Controlled.Qc6TargetsDistinct | qcircuits/circuits.py:202-206 | two different steps of a fan target two different qubits, so each other qubit is targeted exactly once per fan |
| Controlled.Qc6StepFacts | qcircuits/circuits.py:203-207 | step idy of a fan is one well-formed gate that reads symbol base+idy |
| Controlled.Qc6FanFacts | qcircuits/circuits.py:202-207 | a fan has n-1 gates, reads its n-1 symbols from base in order and is well formed |
| Controlled.Qc6FansFacts | qcircuits/circuits.py:200-207 | the n fans have n(n-1) gates, read their n(n-1) symbols from base in order and are well formed |
| Controlled.Qc6LayerFacts | qcircuits/circuits.py:192-213 | a layer has n²+3n gates, reads its n²+3n symbols from base in order and is well formed |
| Controlled.Qc6Uses | qcircuits/circuits.py:188-214 | `qc6_pqc` appends (n²+3n)L gates and reads exactly theta_0 .. theta_((n²+3n)L-1), in order |
| Controlled.Qc6LayersUses | qcircuits/circuits.py:188-214 | the L layers append Qc6Width(n) gates each and read the Qc6Width(n)*L allocated symbols in order |
| Controlled.Qc6OnceEach | qcircuits/circuits.py:190-213 | each of the (n²+3n)L allocated symbols drives exactly one gate, and no other symbol is read |
| Controlled.Qc6WellFormed | qcircuits/circuits.py:188-214 | `qc6_pqc` is well formed on every register size |
| Generic.AppendU3Row | qcircuits/circuits.py:97-100 | the loop appends one U3 per qubit i, on theta_(3g), theta_(3g+1), theta_(3g+2) with g = i + gate base |
| Generic.GenericPqc | qcircuits/circuits.py:92-106 | appends exactly `GenericOps(n, L)`: per layer NN ring, U3 row, NN2 ring, U3 row |
| Generic.AppendGenericLayer | qcircuits/circuits.py:95-105 | one layer iteration appends the two entanglers and the two U3 rows of layer l |
| Generic.U3Once | qcircuits/circuits.py:98-100 | a U3 on theta_k, theta_(k+1), theta_(k+2) reads each of those once and nothing else |
| Generic.U3RowOnce | qcircuits/circuits.py:97-100 | a U3 row from gate base g reads each symbol of theta_(3g) .. theta_(3g+3n-1) once and nothing else |
| Generic.U3RowFacts | qcircuits/circuits.py:97-100 | a U3 row has 5n gates and stays in the register |
| Generic.GenericLayerUses | qcircuits/circuits.py:95-105 | the symbols a layer reads are those of its two U3 rows, in order |
| Generic.GenericLayerOnce | qcircuits/circuits.py:95-105 | layer l reads each of theta_(6nl) .. theta_(6nl+6n-1) once and nothing else |
| Generic.GenericLength | qcircuits/circuits.py:92-106 | `generic_pqc` appends 12n gates per layer |
| Generic.GenericOnceEach | qcircuits/circuits.py:94-105 | each of the 6nL allocated symbols drives exactly one gate, and no other symbol is read |
| Generic.GenericWellFormed | qcircuits/circuits.py:92-106 | every gate is in the register; with n >= 3 every CNOT joins two different qubits |
| Generic.GenericClashOnTwoQubits | qcircuits/circuits.py:95-101 | on two qubits, with at least one layer, the circuit is not well formed |
| Trees.Ttn | qcircuits/circuits.py:108-123 | succeeds exactly when n is a positive power of two that is a multiple of 4, and then appends exactly `TtnOps(n)`; otherwise it appends nothing |
| Trees.AppendTtnLayer | qcircuits/circuits.py:117-122 | one layer iteration appends n/2^(l+1) `two_qubit_ry` blocks and advances `param_count` by twice that |
| Trees.HalvePow2 | qcircuits/circuits.py:117-120 | the integer divisions `n_qubits//(2**j)` on n = 2^k give exactly 2^(k-j) |
| Trees.Log2Pow2 | qcircuits/circuits.py:112 | the layer count `int(np.log2(n_qubits))` of n = 2^k is k |
| Trees.TtnShape | qcircuits/circuits.py:117-120 | layer l has 2^(k-l-1) blocks with stride 2^(l+1); block idx joins qubit0 = idx*2^(l+1)+2^l-1 < qubit1 = idx*2^(l+1)+2^(l+1)-1 < n |
| Trees.TtnQubits | qcircuits/circuits.py:119-120 | the qubit indices of every block are ordered and at most n |
| Trees.TtnBlockFacts | qcircuits/circuits.py:118-122 | every block has 3 gates, reads its 2 symbols from `param_count` in order and is well formed |
| Trees.TtnLayerFacts | qcircuits/circuits.py:116-122 | layer l has 3n/2^(l+1) gates, reads 2n/2^(l+1) consecutive symbols in order and is well formed |
| Trees.TtnBaseValue | qcircuits/circuits.py:113-122 | `param_count` starts layer l at 2n - 2^(k-l+1) |
| Trees.TtnLayersFacts | qcircuits/circuits.py:113-122 | the first layers read theta_0 up to the current `param_count`, in order, and are well formed |
| Trees.TtnLayerWellFormed | qcircuits/circuits.py:117-122 | a layer of any register size is well formed when its last block ends inside the register |
| Trees.TtnLayersWellFormed | qcircuits/circuits.py:116-122 | the layers together are well formed when each of them is |
| Trees.TtnLayersLength | qcircuits/circuits.py:116-122 | the first layers of a tree on 2^k qubits append 3 gates per pair of symbols they allocate from `param_count` |
| Trees.TtnLength | qcircuits/circuits.py:108-123 | for a supported n the tree appends 3(n-1) + 1 gates: n-1 blocks and the final RY |
| Trees.TtnOpsFromLayers | qcircuits/circuits.py:123 | the final RY on qubit n-1 reads `params[param_count]` as left by the layers, and the tree is well formed when its layers are |
| Trees.TtnWellFormed | qcircuits/circuits.py:108-123 | for a supported n the whole tree is well formed on the n-qubit register |
| Trees.TtnUses | qcircuits/circuits.py:113-123 | for a supported n the blocks read theta_0 .. theta_(2n-3) and the final RY reads theta_(2n-2), all in order |
| Trees.TtnOnceEach | qcircuits/circuits.py:114-123 | for a supported n each of the 2n-1 allocated symbols drives exactly one gate |
| Trees.TtnTwelveAdmitted | qcircuits/circuits.py:111-112 | the guard `n_qubits%4==0` admits 12, which is not a power of two; `int(np.log2(12))` is 3 |
| Trees.TtnTwelve | qcircuits/circuits.py:111-121 | with 12 qubits, block 4 of layer 0 joins qubits 12 and 13, so the gate list the source builds leaves the register |
| Trees.TtnThirtySixCounts | qcircuits/circuits.py:111-122 | the guard admits 36, which is no power of two; `int(np.log2(36))` is 5 and the five layers leave `param_count` at 68 |
| Trees.TtnThirtySix | qcircuits/circuits.py:111-123 | on 36 qubits the tree the source builds stays inside the register, and its final RY reads theta_68 |
| Trees.Mps | qcircuits/circuits.py:125-136 | succeeds exactly when n is a positive multiple of 4, and then appends exactly `MpsOps(n)`; otherwise it appends nothing |
| Trees.MpsBlockFacts | qcircuits/circuits.py:133-135 | block k is `two_qubit_ry` on qubits k, k+1 with theta_(2k), theta_(2k+1), and is well formed |
| Trees.MpsWellFormed | qcircuits/circuits.py:125-136 | `MPS` appends 3(n-1)+1 gates, all well formed |
| Trees.MpsUses | qcircuits/circuits.py:129-136 | `MPS` reads exactly theta_0 .. theta_(2n-2), in order; the final RY reads the last one |
| Trees.MpsOnceEach | qcircuits/circuits.py:131-136 | each of the 2(n-1)+1 allocated symbols drives exactly one gate |
| Spsa.SpsaAxis | qcircuits/circuits.py:228-238 | the draw selects Z exactly when it is above 2/3, Y exactly when it is in (1/3, 2/3], X exactly when it is at most 1/3 |
| Spsa.DrawsUsed | qcircuits/circuits.py:226-227 | the first p iterations of the layer loops take fewer than 2p values from the stream |
| Spsa.DrawsStep | qcircuits/circuits.py:226-227 | an iteration takes one value (`random_n`) if it is the very first, and two (`random_n`, `random_rot`) otherwise |
| Spsa.DrawsDistinct | qcircuits/circuits.py:226-227 | each iteration's `random_n` is a value of its own, never one another iteration spent on `random_rot` |
| Spsa.SpsaLength | qcircuits/circuits.py:218-243 | `SPSA2_PQC` appends n + nL + (n-1) gates on n > 0 qubits, and none on an empty register |
| Spsa.Spsa2Pqc | qcircuits/circuits.py:218-243 | appends exactly `SpsaOps(n, L, draws)`: the RY(pi/4) row, the L random-axis layers, then the CZ chain once |
| Spsa.AppendPrep | qcircuits/circuits.py:220-222 | the first loop appends RY(pi/4) on every qubit |
| Spsa.AppendSpsaLayer | qcircuits/circuits.py:225-238 | one layer takes `random_n` and, except for the very first qubit, `random_rot` from the stream; it appends a rotation by theta_(2i) about the axis `random_n` selects |
| Spsa.AppendCzChain | qcircuits/circuits.py:240-241 | the chain loop appends CZ(i, i+1) for each adjacent pair |
| Spsa.SpsaBlockUniform | qcircuits/circuits.py:225-238 | each iteration of a layer appends exactly one rotation, whichever branch the draw takes |
| Spsa.SpsaLayerAt | qcircuits/circuits.py:225-238 | a layer has n gates; gate i rotates qubit i by theta_(2i) about the axis that draw number DrawsUsed(n*layer+i) selects |
| Spsa.SpsaLayerUses | qcircuits/circuits.py:225-238 | the first i rotations of any layer read theta_0, theta_2, ..., theta_(2i-2) |
| Spsa.SpsaLayerEvens | qcircuits/circuits.py:225-238 | every layer reads the same even-numbered symbols, whatever the draws |
| Spsa.SpsaFixedGates | qcircuits/circuits.py:220-241 | the preparation row and the CZ chain read no trainable symbol |
| Spsa.SpsaLayersOccurrences | qcircuits/circuits.py:224-238 | over L layers, each even symbol below 2n is read L times and no other symbol is read |
| Spsa.SpsaUses | qcircuits/circuits.py:218-243 | `SPSA2_PQC` reads each even symbol below 2n exactly L times and no other symbol |
| Spsa.SpsaAllocated | qcircuits/circuits.py:219-238 | every symbol read is among the n(1+L) allocated |
| Spsa.SpsaDrawsAgree | qcircuits/circuits.py:226-238 | two draw streams that agree on every `random_n` draw give the same circuit; the `random_rot` draws are never used |
| Spsa.SpsaWellFormed | qcircuits/circuits.py:218-243 | the circuit is well formed on n qubits for every draw stream |

## Left out

- `qcircuits/train.py` is not part of this model. It is TensorFlow training orchestration with file I/O and floating-point statistics.
- The `print` calls of every builder are debug output and are not modelled.
- Real-valued gate semantics are not modelled. Angles, the exponents `params[k]/np.pi` and the ZZ phase `2*(pi-x_i)*(pi-x_j)` are symbols; no state is simulated.
- `sympy.symbols` is not modelled as an object. A symbol is its index, and the allocation `theta:N` is the range `Span(0, N)` against which reads are compared.
- The `qubits` list is replaced by its length n. The model assumes `len(qubits) == n_qubits`, and a qubit is its index.
- Cirq refuses a two-qubit gate whose operands repeat. The model does not raise; it states the condition as the predicate `Cirq.WellFormed` and proves when it holds. The lemmas `Rows.CzRingClashOnOneQubit`, `Helpers.Nn2ClashOnTwoQubits` and `Generic.GenericClashOnTwoQubits` show the register sizes on which the source would be refused.
- An index outside the register, which Python reports as an `IndexError`, is likewise stated with `Cirq.InRegister`.
- `SPSATEST_PQC` is not modelled. It calls `SPSA1_PQC`, `generate_random_qnn` and `symbol`, none of which is defined.
- `SPSA2_PQC` draws from `np.random.uniform()`. The model takes the stream of draws as the parameter `draws`, where `draws(j)` is the j-th value returned. The `return circuit` at its end returns the same object the caller passed in and is not modelled.
- Trees.Ttn: the floating-point `np.log2` and `2**(log2(n)+1)` are replaced by integer powers of two, which agree with them on powers of two. The method refuses every multiple of 4 that is not a power of two. The source fails part-way on some of them (12, 20, 24, ...) with an `IndexError` after some gates were appended (see Findings). It builds others, such as 36 and 68, and leaves allocated symbols unread; `Trees.TtnThirtySix` states the 36-qubit case.
- Trees.Ttn, Trees.Mps: a failed `assert` is modelled as `ok == false` with nothing appended. So is n = 0, on which `TTN` raises `OverflowError` from `int(np.log2(0))` and `MPS` raises `ValueError` from `sympy.symbols('theta:-1')`.
- Measure.MeasureAll: asking for more measurements than qubits raises `IndexError` in the source; the model requires m <= n instead.
- Measure.MeasureLast: the argument `n_measurements` is ignored by the source and is not a parameter of the model; an empty register is excluded by `requires n >= 1`.
- Layers.Qc10PqcLocal: with an empty register and at least one layer, `theta:0` allocates no symbol, so the final rotation's `params[0]` raises `IndexError`; the model requires `n > 0 || layers == 0`.
- Cirq places each appended gate into a moment (the `EARLIEST` insertion strategy). The model keeps the flat append order and not the moment layout.
- Default arguments (`n_qubits=4`, `n_layers=1`, `n_measurements=1`) are not modelled: every size is an explicit parameter. `TTN` and `MPS` ignore their `n_layers` argument and compute the layer count from n, so the model takes no layer count for them.
- `qc10_pqc`, `qc10P_pqc`, `qc19_pqc`, `qc6_pqc`, `generic_pqc` and `SPSA2_PQC` build their inner loops in helper methods such as `Rows.AppendRow` and `Controlled.AppendQc6Fan`. They append the same gates in the same order as the inline loops of the source.

## Findings

| source | as written | input that shows it | evidently intended | confidence | as-written member | corrected member |
|---|---|---|---|---|---|---|
| qcircuits/circuits.py:111-121 | The guard `n_qubits%4==0` admits every multiple of 4. The tree layout assumes n is a power of two. For 12 qubits, `int(np.log2(12))` is 3 and the layer-0 stride is 12//4 = 3. Block 4 of layer 0 then joins qubits 12 and 13 of a 12-qubit register. Some other sizes that are no power of two, such as 36, happen to fit. | n_qubits = 12 | TTN accepts only register sizes that are powers of two. `Trees.Ttn` applies that guard (`TtnSupported`), and on every such size each block stays inside the register. | not executed | Trees.TtnTwelve | Trees.Ttn, Trees.TtnWellFormed, Trees.TtnUses |

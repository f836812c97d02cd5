/** The information-encoding circuits: each puts the input symbols
    `x0 .. x(n-1)` onto an n-qubit register, qubit by qubit. */
module Encodings {
  import opened Cirq
  import opened Blocks

  /** The four single-qubit encodings, named after the function that appends them. */
  datatype Encoding = SimpleY | SimpleX | SimpleZ | YzArccos

  /** The gates an encoding appends for qubit q. */
  function EncodeQubit(e: Encoding, q: nat): seq<Gate>
  {
    match e
    case SimpleY => [Rot(Y, q, Input(q))]
    case SimpleX => [Rot(X, q, Input(q))]
    case SimpleZ => [H(q), Rot(Z, q, Input(q))]
    case YzArccos => [Rot(Y, q, Input(q)), Rot(Z, q, Input(q))]
  }

  /** How many gates an encoding appends per qubit. */
  function Width(e: Encoding): nat
  {
    if e == SimpleY || e == SimpleX then 1 else 2
  }

  /** The loop body of an encoding, as a function of the qubit index. */
  function EncodeBlock(e: Encoding): nat -> seq<Gate>
  {
    (q: nat) => EncodeQubit(e, q)
  }

  /** The gates an encoding appends for qubits 0..count-1, in qubit order. */
  function Encode(e: Encoding, count: nat): seq<Gate>
  {
    Repeat(count, EncodeBlock(e))
  }

  /** One more iteration of an encoding loop appends the gates of one more qubit. */
  lemma EncodeStep(e: Encoding, idx: nat)
    ensures Encode(e, idx + 1) == Encode(e, idx) + EncodeQubit(e, idx)
  {
    assert EncodeBlock(e)(idx) == EncodeQubit(e, idx);
  }

  /** `simple_encoding_y`: ry(x_idx) on every qubit idx. */
  method SimpleEncodingY(circuit: Circuit, n: nat)
    modifies circuit
    ensures circuit.ops == old(circuit.ops) + Encode(SimpleY, n)
  {
    for idx := 0 to n
      invariant circuit.ops == old(circuit.ops) + Encode(SimpleY, idx)
    {
      EncodeStep(SimpleY, idx);
      AppendAssoc(old(circuit.ops), Encode(SimpleY, idx), EncodeQubit(SimpleY, idx));
      circuit.Append(Rot(Y, idx, Input(idx)));
    }
  }

  /** `yz_arccos`: ry(x_idx) then rz(x_idx) on every qubit idx. */
  method YzArccosEncoding(circuit: Circuit, n: nat)
    modifies circuit
    ensures circuit.ops == old(circuit.ops) + Encode(YzArccos, n)
  {
    for idx := 0 to n
      invariant circuit.ops == old(circuit.ops) + Encode(YzArccos, idx)
    {
      EncodeStep(YzArccos, idx);
      AppendAssoc(old(circuit.ops), Encode(YzArccos, idx), EncodeQubit(YzArccos, idx));
      AppendAssoc(old(circuit.ops) + Encode(YzArccos, idx), [Rot(Y, idx, Input(idx))], [Rot(Z, idx, Input(idx))]);
      circuit.Append(Rot(Y, idx, Input(idx)));
      circuit.Append(Rot(Z, idx, Input(idx)));
    }
  }

  /** `simple_encoding_z`: H then rz(x_idx) on every qubit idx. */
  method SimpleEncodingZ(circuit: Circuit, n: nat)
    modifies circuit
    ensures circuit.ops == old(circuit.ops) + Encode(SimpleZ, n)
  {
    for idx := 0 to n
      invariant circuit.ops == old(circuit.ops) + Encode(SimpleZ, idx)
    {
      EncodeStep(SimpleZ, idx);
      AppendAssoc(old(circuit.ops), Encode(SimpleZ, idx), EncodeQubit(SimpleZ, idx));
      AppendAssoc(old(circuit.ops) + Encode(SimpleZ, idx), [H(idx)], [Rot(Z, idx, Input(idx))]);
      circuit.Append(H(idx));
      circuit.Append(Rot(Z, idx, Input(idx)));
    }
  }

  /** `simple_encoding_x`: rx(x_idx) on every qubit idx. */
  method SimpleEncodingX(circuit: Circuit, n: nat)
    modifies circuit
    ensures circuit.ops == old(circuit.ops) + Encode(SimpleX, n)
  {
    for idx := 0 to n
      invariant circuit.ops == old(circuit.ops) + Encode(SimpleX, idx)
    {
      EncodeStep(SimpleX, idx);
      AppendAssoc(old(circuit.ops), Encode(SimpleX, idx), EncodeQubit(SimpleX, idx));
      circuit.Append(Rot(X, idx, Input(idx)));
    }
  }

  /** The gates for qubit q occupy positions Width*q .. Width*q + Width - 1,
      so the encoding proceeds in qubit order with a fixed number of gates
      per qubit. */
  lemma EncodeAt(e: Encoding, count: nat, q: nat)
    requires q < count
    ensures |Encode(e, count)| == Width(e) * count
    ensures Width(e) * q + Width(e) <= |Encode(e, count)|
    ensures Encode(e, count)[Width(e) * q .. Width(e) * q + Width(e)] == EncodeQubit(e, q)
  {
    forall i | 0 <= i < count ensures |EncodeBlock(e)(i)| == Width(e) {
      assert EncodeBlock(e)(i) == EncodeQubit(e, i);
    }
    RepeatAt(count, EncodeBlock(e), Width(e), q);
    assert EncodeBlock(e)(q) == EncodeQubit(e, q);
  }

  /** A rotation that carries the input symbol of the qubit it rotates. */
  predicate OwnInput(g: Gate)
  {
    g.Rot? ==> g.angle == Input(g.q)
  }

  /** The gates of one qubit use no trainable symbol, act on that qubit only
      and rotate it by its own input symbol. */
  lemma EncodeQubitFacts(e: Encoding, q: nat, n: nat)
    requires q < n
    ensures ParamUses(EncodeQubit(e, q)) == []
    ensures WellFormed(EncodeQubit(e, q), n)
    ensures All(EncodeQubit(e, q), OwnInput)
  {
    var ops := EncodeQubit(e, q);
    assert Collect(ops, 1, GateParams) == [];
  }

  /** An encoding references no trainable symbol. */
  lemma EncodeNoParams(e: Encoding, count: nat)
    ensures ParamUses(Encode(e, count)) == []
  {
    forall i | 0 <= i < count ensures ParamUses(EncodeBlock(e)(i)) == [] {
      EncodeQubitFacts(e, i, count);
    }
    RepeatNoParams(count, EncodeBlock(e));
  }

  /** An encoding of count qubits stays inside a count-qubit register. */
  lemma EncodeWellFormed(e: Encoding, count: nat)
    ensures WellFormed(Encode(e, count), count)
  {
    forall i | 0 <= i < count ensures WellFormed(EncodeBlock(e)(i), count) {
      EncodeQubitFacts(e, i, count);
    }
    RepeatWellFormed(count, EncodeBlock(e), count);
  }

  /** Every rotation an encoding appends carries the input symbol of the
      qubit it rotates. */
  lemma EncodeOwnInput(e: Encoding, count: nat)
    ensures All(Encode(e, count), OwnInput)
  {
    forall i | 0 <= i < count ensures All(EncodeBlock(e)(i), OwnInput) {
      EncodeQubitFacts(e, i, count);
    }
    RepeatAll(count, EncodeBlock(e), OwnInput);
  }

  /** The adjacent-pair entangler of `ZZFeatureMap` for qubits idx, idx+1. */
  function ZzLink(idx: nat): seq<Gate>
  {
    [Cnot(idx, idx + 1), ZPow(idx + 1, ZzProduct(idx, idx + 1)), Cnot(idx, idx + 1)]
  }

  /** H then the phase 2*x_q on qubit q. */
  function ZzHead(q: nat): seq<Gate>
  {
    [H(q), ZPow(q, TwiceInput(q))]
  }

  /** The heads of qubits 0..count-1. */
  function ZzHeads(count: nat): seq<Gate>
  {
    Repeat(count, ZzHead)
  }

  /** The entanglers for the pairs (idx, idx+1), idx in [0, count). */
  function ZzLinks(count: nat): seq<Gate>
  {
    Repeat(count, ZzLink)
  }

  /** What `ZZFeatureMap` appends: the heads for every qubit, then the
      entanglers for idx in `range(n_qubits - 1)`, which is empty for n = 0. */
  function ZzFeatureMapOps(n: nat): seq<Gate>
  {
    ZzHeads(n) + ZzLinks(if n == 0 then 0 else n - 1)
  }

  method ZzFeatureMap(circuit: Circuit, n: nat)
    modifies circuit
    ensures circuit.ops == old(circuit.ops) + ZzFeatureMapOps(n)
  {
    for idx := 0 to n
      invariant circuit.ops == old(circuit.ops) + ZzHeads(idx)
    {
      assert ZzHeads(idx + 1) == ZzHeads(idx) + ZzHead(idx);
      AppendAssoc(old(circuit.ops), ZzHeads(idx), ZzHead(idx));
      AppendAssoc(old(circuit.ops) + ZzHeads(idx), [H(idx)], [ZPow(idx, TwiceInput(idx))]);
      circuit.Append(H(idx));
      circuit.Append(ZPow(idx, TwiceInput(idx)));
    }
    ghost var heads := circuit.ops;
    var links := if n == 0 then 0 else n - 1;
    for idx := 0 to links
      invariant circuit.ops == heads + ZzLinks(idx)
    {
      var idy := idx + 1;
      assert ZzLinks(idx + 1) == ZzLinks(idx) + ZzLink(idx);
      AppendAssoc(heads, ZzLinks(idx), ZzLink(idx));
      AppendAssoc(heads + ZzLinks(idx), [Cnot(idx, idy)], [ZPow(idy, ZzProduct(idx, idy)), Cnot(idx, idy)]);
      AppendAssoc(heads + ZzLinks(idx) + [Cnot(idx, idy)], [ZPow(idy, ZzProduct(idx, idy))], [Cnot(idx, idy)]);
      circuit.Append(Cnot(idx, idy));
      circuit.Append(ZPow(idy, ZzProduct(idx, idy)));
      circuit.Append(Cnot(idx, idy));
    }
  }

  /** The head of qubit q sits at positions 2q, 2q+1. */
  lemma ZzHeadsAt(count: nat, q: nat)
    requires q < count
    ensures |ZzHeads(count)| == 2 * count
    ensures ZzHeads(count)[2 * q .. 2 * q + 2] == ZzHead(q)
  {
    RepeatAt(count, ZzHead, 2, q);
  }

  /** The entangler of pair (idx, idx+1) sits at positions 3idx .. 3idx+2. */
  lemma ZzLinksAt(count: nat, idx: nat)
    requires idx < count
    ensures |ZzLinks(count)| == 3 * count
    ensures ZzLinks(count)[3 * idx .. 3 * idx + 3] == ZzLink(idx)
  {
    RepeatAt(count, ZzLink, 3, idx);
  }

  /** A gate of an adjacent-pair entangler: a CNOT from a qubit to its
      successor, or the product phase of two neighbours on the second one. */
  predicate Neighbourly(g: Gate)
  {
    match g
    case Cnot(c, t) => t == c + 1
    case ZPow(q, ph) => ph.ZzProduct? && ph.j == ph.i + 1 && q == ph.j
    case _ => false
  }

  lemma ZzLinkFacts(idx: nat, n: nat)
    requires idx + 1 < n
    ensures ParamUses(ZzLink(idx)) == []
    ensures WellFormed(ZzLink(idx), n)
    ensures All(ZzLink(idx), Neighbourly)
  {
    var ops := ZzLink(idx);
    assert Collect(ops, 1, GateParams) == [];
    assert Collect(ops, 2, GateParams) == [];
  }

  lemma ZzHeadFacts(q: nat, n: nat)
    requires q < n
    ensures ParamUses(ZzHead(q)) == []
    ensures WellFormed(ZzHead(q), n)
  {
    var ops := ZzHead(q);
    assert Collect(ops, 1, GateParams) == [];
  }

  /** Only neighbours are entangled. */
  lemma ZzLinksNeighbourly(count: nat)
    ensures All(ZzLinks(count), Neighbourly)
  {
    forall i | 0 <= i < count ensures All(ZzLink(i), Neighbourly) {
      ZzLinkFacts(i, count + 1);
    }
    RepeatAll(count, ZzLink, Neighbourly);
  }

  /** The entanglers stay inside a register one longer than the number of
      pairs, and use no trainable symbol. */
  lemma ZzLinksWellFormed(count: nat)
    ensures WellFormed(ZzLinks(count), count + 1)
    ensures ParamUses(ZzLinks(count)) == []
  {
    forall i | 0 <= i < count
      ensures WellFormed(ZzLink(i), count + 1)
      ensures ParamUses(ZzLink(i)) == []
    {
      ZzLinkFacts(i, count + 1);
    }
    RepeatWellFormed(count, ZzLink, count + 1);
    RepeatNoParams(count, ZzLink);
  }

  /** The heads stay inside the register and use no trainable symbol. */
  lemma ZzHeadsWellFormed(count: nat)
    ensures WellFormed(ZzHeads(count), count)
    ensures ParamUses(ZzHeads(count)) == []
  {
    forall i | 0 <= i < count
      ensures WellFormed(ZzHead(i), count)
      ensures ParamUses(ZzHead(i)) == []
    {
      ZzHeadFacts(i, count);
    }
    RepeatWellFormed(count, ZzHead, count);
    RepeatNoParams(count, ZzHead);
  }

  /** The feature map appends 2n + 3(n-1) gates: H and the phase 2*x_q for
      every qubit q in order, then one CNOT-phase-CNOT entangler for every
      adjacent pair (idx, idx+1) in order. */
  lemma ZzFeatureMapLayout(n: nat)
    requires n > 0
    ensures |ZzFeatureMapOps(n)| == 2 * n + 3 * (n - 1)
    ensures forall q :: 0 <= q < n ==> ZzFeatureMapOps(n)[2 * q .. 2 * q + 2] == ZzHead(q)
    ensures forall idx :: 0 <= idx < n - 1 ==>
              ZzFeatureMapOps(n)[2 * n + 3 * idx .. 2 * n + 3 * idx + 3] == ZzLink(idx)
  {
    ZzFeatureMapLength(n);
    forall q | 0 <= q < n ensures ZzFeatureMapOps(n)[2 * q .. 2 * q + 2] == ZzHead(q) {
      ZzFeatureMapHead(n, q);
    }
    forall idx | 0 <= idx < n - 1
      ensures ZzFeatureMapOps(n)[2 * n + 3 * idx .. 2 * n + 3 * idx + 3] == ZzLink(idx)
    {
      ZzFeatureMapLink(n, idx);
    }
  }

  lemma ZzFeatureMapLength(n: nat)
    requires n > 0
    ensures |ZzHeads(n)| == 2 * n
    ensures |ZzFeatureMapOps(n)| == 2 * n + 3 * (n - 1)
  {
    ZzHeadsAt(n, 0);
    if n > 1 { ZzLinksAt(n - 1, 0); } else { assert ZzLinks(0) == []; }
  }

  /** No gate after the heads joins qubits that are not neighbours. */
  lemma ZzFeatureMapNeighbourly(n: nat)
    requires n > 0
    ensures 2 * n <= |ZzFeatureMapOps(n)|
    ensures All(ZzFeatureMapOps(n)[2 * n..], Neighbourly)
  {
    ZzFeatureMapLength(n);
    ZzLinksNeighbourly(n - 1);
    assert ZzFeatureMapOps(n)[2 * n..] == ZzLinks(n - 1);
  }

  lemma ZzFeatureMapHead(n: nat, q: nat)
    requires q < n
    ensures 2 * q + 2 <= |ZzFeatureMapOps(n)|
    ensures ZzFeatureMapOps(n)[2 * q .. 2 * q + 2] == ZzHead(q)
  {
    var heads := ZzHeads(n);
    ZzHeadsAt(n, q);
    assert ZzFeatureMapOps(n)[2 * q .. 2 * q + 2] == heads[2 * q .. 2 * q + 2];
  }

  lemma ZzFeatureMapLink(n: nat, idx: nat)
    requires idx + 1 < n
    ensures 2 * n + 3 * idx + 3 <= |ZzFeatureMapOps(n)|
    ensures ZzFeatureMapOps(n)[2 * n + 3 * idx .. 2 * n + 3 * idx + 3] == ZzLink(idx)
  {
    var links := ZzLinks(n - 1);
    ZzHeadsAt(n, 0);
    ZzLinksAt(n - 1, idx);
    assert ZzFeatureMapOps(n) == ZzHeads(n) + links;
    assert ZzFeatureMapOps(n)[2 * n + 3 * idx .. 2 * n + 3 * idx + 3] == links[3 * idx .. 3 * idx + 3];
  }

  /** The feature map stays inside the register, never applies a two-qubit
      gate to one qubit twice, and references no trainable symbol. */
  lemma ZzFeatureMapFacts(n: nat)
    ensures WellFormed(ZzFeatureMapOps(n), n)
    ensures ParamUses(ZzFeatureMapOps(n)) == []
  {
    var links := if n == 0 then 0 else n - 1;
    ZzHeadsWellFormed(n);
    ZzLinksWellFormed(links);
    if n == 0 {
      assert ZzLinks(0) == [];
    }
    WellFormedConcat(ZzHeads(n), ZzLinks(links), n);
    ParamUsesConcat(ZzHeads(n), ZzLinks(links));
  }
}

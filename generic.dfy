/** `generic_pqc`: layers of a nearest-neighbour CNOT ring, a row of U3
    rotations, a next-nearest-neighbour CNOT ring and another row of U3
    rotations. */
module Generic {
  import opened Cirq
  import opened Blocks
  import opened Helpers

  /** The U3 of qubit i in a row whose gate numbers start at gateBase:
      gate n_gate = i + gateBase takes the symbols 3*n_gate, 3*n_gate+1
      and 3*n_gate+2 as its param0, param1 and param2. */
  function U3Block(gateBase: nat): nat -> seq<Gate>
  {
    (i: nat) => U3Ops(Param(3 * (i + gateBase)), Param(3 * (i + gateBase) + 1), Param(3 * (i + gateBase) + 2), i)
  }

  /** The first count U3 gates of a row. */
  function U3Row(gateBase: nat, count: nat): seq<Gate>
  {
    Repeat(count, U3Block(gateBase))
  }

  /** A U3 row on qubits 0..count-1 whose gate numbers start at gateBase. */
  method AppendU3Row(circuit: Circuit, gateBase: nat, count: nat)
    modifies circuit
    ensures circuit.ops == old(circuit.ops) + U3Row(gateBase, count)
  {
    for i := 0 to count
      invariant circuit.ops == old(circuit.ops) + U3Row(gateBase, i)
    {
      var k := 3 * (i + gateBase);
      assert U3Block(gateBase)(i) == U3Ops(Param(k), Param(k + 1), Param(k + 2), i);
      AppendAssoc(old(circuit.ops), U3Row(gateBase, i), U3Ops(Param(k), Param(k + 1), Param(k + 2), i));
      U3(circuit, Param(k), Param(k + 1), Param(k + 2), i);
    }
  }

  /** Layer l of `generic_pqc` on n qubits: its U3 rows hold gates
      2ln .. 2ln+n-1 and (2l+1)n .. (2l+1)n+n-1. */
  function GenericLayerOps(n: nat, l: nat): seq<Gate>
  {
    Ring(n, 1, n) + U3Row(2 * l * n, n) + Ring(n, 2, n) + U3Row((2 * l + 1) * n, n)
  }

  function GenericLayer(n: nat): nat -> seq<Gate>
  {
    (l: nat) => GenericLayerOps(n, l)
  }

  /** The gates `generic_pqc` appends. */
  function GenericOps(n: nat, layers: nat): seq<Gate>
  {
    Repeat(layers, GenericLayer(n))
  }

  /** `generic_pqc` */
  method GenericPqc(circuit: Circuit, n: nat, layers: nat)
    modifies circuit
    ensures circuit.ops == old(circuit.ops) + GenericOps(n, layers)
  {
    for layer := 0 to layers
      invariant circuit.ops == old(circuit.ops) + Repeat(layer, GenericLayer(n))
    {
      AppendAssoc(old(circuit.ops), Repeat(layer, GenericLayer(n)), GenericLayerOps(n, layer));
      AppendGenericLayer(circuit, n, layer);
    }
  }

  /** The body of the layer loop of `generic_pqc`. */
  method AppendGenericLayer(circuit: Circuit, n: nat, layer: nat)
    modifies circuit
    ensures circuit.ops == old(circuit.ops) + GenericLayerOps(n, layer)
  {
    var a := Ring(n, 1, n);
    var b := U3Row(2 * layer * n, n);
    var c := Ring(n, 2, n);
    var d := U3Row((2 * layer + 1) * n, n);
    NnEntangler(circuit, n);
    AppendU3Row(circuit, 2 * layer * n, n);
    AppendAssoc(old(circuit.ops), a, b);
    Nn2Entangler(circuit, n);
    AppendAssoc(old(circuit.ops), a + b, c);
    AppendU3Row(circuit, (2 * layer + 1) * n, n);
    AppendAssoc(old(circuit.ops), a + b + c, d);
  }

  /** A U3 on the symbols k, k+1, k+2 uses each of them exactly once and no other. */
  lemma U3Once(k: nat, q: nat, x: nat)
    ensures Occurrences(ParamUses(U3Ops(Param(k), Param(k + 1), Param(k + 2), q)), x) == InSpan(x, k, 3)
  {
    U3Uses(k, k + 1, k + 2, q);
    assert [k + 2, k, k + 1] == [k + 2] + [k] + [k + 1];
    OccurrencesConcat([k + 2] + [k], [k + 1], x);
    OccurrencesConcat([k + 2], [k], x);
    OccurrencesOne(k + 2, x);
    OccurrencesOne(k, x);
    OccurrencesOne(k + 1, x);
  }

  /** A U3 row uses each of the 3*count symbols from 3*gateBase exactly
      once, and no other symbol. */
  lemma U3RowOnce(gateBase: nat, count: nat, x: nat)
    ensures Occurrences(ParamUses(U3Row(gateBase, count)), x) == InSpan(x, 3 * gateBase, 3 * count)
  {
    var block := U3Block(gateBase);
    forall i | 0 <= i < count ensures CountAt(block, 3 * gateBase, 3, i, x) {
      U3Once(3 * (i + gateBase), i, x);
    }
    RepeatOnce(count, block, 3 * gateBase, 3, 3 * count, x);
  }

  /** A U3 row has five gates per qubit and stays on its own qubits. */
  lemma U3RowFacts(gateBase: nat, count: nat)
    ensures |U3Row(gateBase, count)| == 5 * count
    ensures WellFormed(U3Row(gateBase, count), count)
  {
    var block := U3Block(gateBase);
    forall i | 0 <= i < count
      ensures |block(i)| == 5
      ensures WellFormed(block(i), count)
    {
      U3WellFormed(Param(3 * (i + gateBase)), Param(3 * (i + gateBase) + 1), Param(3 * (i + gateBase) + 2), i, count);
    }
    RepeatLength(count, block, 5);
    RepeatWellFormed(count, block, count);
  }

  /** Only the U3 rows of a layer carry symbols. */
  lemma GenericLayerUses(n: nat, l: nat)
    ensures ParamUses(GenericLayerOps(n, l)) == ParamUses(U3Row(2 * l * n, n)) + ParamUses(U3Row((2 * l + 1) * n, n))
  {
    var a := Ring(n, 1, n);
    var b := U3Row(2 * l * n, n);
    var c := Ring(n, 2, n);
    var d := U3Row((2 * l + 1) * n, n);
    RingWellFormed(n, 1);
    RingWellFormed(n, 2);
    ParamUsesConcat(a, b);
    ParamUsesConcat(a + b, c);
    ParamUsesConcat(a + b + c, d);
    assert ParamUses(a + b + c) == ParamUses(b);
  }

  /** The U3 rows of layer l take the symbols from 6nl and from 6nl + 3n. */
  lemma GenericOffsets(n: nat, l: nat)
    ensures 3 * (2 * l * n) == 6 * n * l
    ensures 3 * ((2 * l + 1) * n) == 6 * n * l + 3 * n
  {
  }

  /** Layer l uses each of the 6n symbols from 6ln exactly once, and no other. */
  lemma GenericLayerOnce(n: nat, l: nat, x: nat)
    ensures CountAt(GenericLayer(n), 0, 6 * n, l, x)
  {
    var first := 2 * l * n;
    var second := (2 * l + 1) * n;
    var start := 6 * n * l;
    GenericOffsets(n, l);
    GenericLayerUses(n, l);
    U3RowOnce(first, n, x);
    U3RowOnce(second, n, x);
    OccurrencesConcat(ParamUses(U3Row(first, n)), ParamUses(U3Row(second, n)), x);
    assert InSpan(x, start, 3 * n) + InSpan(x, start + 3 * n, 3 * n) == InSpan(x, start, 6 * n);
    assert GenericLayer(n)(l) == GenericLayerOps(n, l);
  }

  /** `generic_pqc` appends 12n gates per layer (n + 5n + n + 5n). */
  lemma GenericLength(n: nat, layers: nat)
    ensures |GenericOps(n, layers)| == 12 * n * layers
  {
    var layer := GenericLayer(n);
    forall l | 0 <= l < layers ensures |layer(l)| == 12 * n {
      RingLength(n, 1);
      RingLength(n, 2);
      U3RowFacts(2 * l * n, n);
      U3RowFacts((2 * l + 1) * n, n);
    }
    RepeatLength(layers, layer, 12 * n);
  }

  /** Each of the 6nL symbols `generic_pqc` allocates drives exactly one
      gate, and no other symbol is used. */
  lemma GenericOnceEach(n: nat, layers: nat)
    ensures UsesEachOnce(GenericOps(n, layers), 6 * n * layers)
  {
    forall x: nat ensures Occurrences(ParamUses(GenericOps(n, layers)), x) == InSpan(x, 0, 6 * n * layers) {
      forall l | 0 <= l < layers ensures CountAt(GenericLayer(n), 0, 6 * n, l, x) {
        GenericLayerOnce(n, l, x);
      }
      RepeatOnce(layers, GenericLayer(n), 0, 6 * n, 6 * n * layers, x);
    }
  }

  /** Every gate of `generic_pqc` addresses a qubit of the register; with at
      least three qubits neither ring links a qubit to itself. */
  lemma GenericWellFormed(n: nat, layers: nat)
    ensures InRegister(GenericOps(n, layers), n)
    ensures n >= 3 ==> WellFormed(GenericOps(n, layers), n)
  {
    var layer := GenericLayer(n);
    forall l | 0 <= l < layers
      ensures InRegister(layer(l), n)
      ensures n >= 3 ==> WellFormed(layer(l), n)
    {
      var a := Ring(n, 1, n);
      var b := U3Row(2 * l * n, n);
      var c := Ring(n, 2, n);
      var d := U3Row((2 * l + 1) * n, n);
      RingWellFormed(n, 1);
      RingWellFormed(n, 2);
      U3RowFacts(2 * l * n, n);
      U3RowFacts((2 * l + 1) * n, n);
      InRegisterConcat(a, b, n);
      InRegisterConcat(a + b, c, n);
      InRegisterConcat(a + b + c, d, n);
      if n >= 3 {
        WellFormedConcat(a, b, n);
        WellFormedConcat(a + b, c, n);
        WellFormedConcat(a + b + c, d, n);
      }
    }
    RepeatInRegister(layers, layer, n);
    if n >= 3 {
      RepeatWellFormed(layers, layer, n);
    }
  }

  /** On two qubits `NN2_entangler` links each qubit to itself, so every
      `generic_pqc` with a layer is rejected there. */
  lemma GenericClashOnTwoQubits(layers: nat)
    requires layers > 0
    ensures !WellFormed(GenericOps(2, layers), 2)
  {
    var l := layers - 1;
    var a := Ring(2, 1, 2);
    var b := U3Row(2 * l * 2, 2);
    var c := Ring(2, 2, 2);
    var d := U3Row((2 * l + 1) * 2, 2);
    Nn2ClashOnTwoQubits();
    IllFormedConcat(a + b, c, 2);
    IllFormedConcat(a + b + c, d, 2);
    assert GenericLayer(2)(l) == a + b + c + d;
    IllFormedConcat(Repeat(l, GenericLayer(2)), a + b + c + d, 2);
  }
}

/** The QC10 family of ansatz circuits: a row of rotations on every qubit,
    then per layer a CZ ring followed by a fresh row of rotations. */
module Layers {
  import opened Cirq
  import opened Blocks
  import opened Rows

  /** Layer l of `qc10_pqc`: the CZ ring, then RY(theta_(i + n*(l+1))) on every qubit i. */
  function Qc10Layer(n: nat): nat -> seq<Gate>
  {
    (l: nat) => CzRing(n, n) + Row(Y, n * (l + 1), n)
  }

  /** The gates `qc10_pqc` appends for n qubits and the given number of layers. */
  function Qc10Ops(n: nat, layers: nat): seq<Gate>
  {
    Row(Y, 0, n) + Repeat(layers, Qc10Layer(n))
  }

  /** `qc10_pqc` */
  method Qc10Pqc(circuit: Circuit, n: nat, layers: nat)
    modifies circuit
    ensures circuit.ops == old(circuit.ops) + Qc10Ops(n, layers)
  {
    AppendRow(circuit, Y, 0, n);
    ghost var rows := circuit.ops;
    for layer := 0 to layers
      invariant circuit.ops == rows + Repeat(layer, Qc10Layer(n))
    {
      AppendAssoc(rows, Repeat(layer, Qc10Layer(n)), Qc10Layer(n)(layer));
      AppendQc10Layer(circuit, n, layer);
    }
    AppendAssoc(old(circuit.ops), Row(Y, 0, n), Repeat(layers, Qc10Layer(n)));
  }

  /** The body of the layer loop of `qc10_pqc`. */
  method AppendQc10Layer(circuit: Circuit, n: nat, layer: nat)
    modifies circuit
    ensures circuit.ops == old(circuit.ops) + Qc10Layer(n)(layer)
  {
    MulStep(n, layer + 1, layer + 2);
    var offset := n * (layer + 1);
    AppendAssoc(old(circuit.ops), CzRing(n, n), Row(Y, offset, n));
    AppendCzRing(circuit, n);
    AppendRow(circuit, Y, offset, n);
  }

  /** Each layer of `qc10_pqc` has 2n gates and uses the n symbols of its
      own row, n*(l+1) .. n*(l+1)+n-1, in qubit order. */
  lemma Qc10LayerFacts(n: nat, l: nat)
    ensures |Qc10Layer(n)(l)| == 2 * n
    ensures UsesSpanAt(Qc10Layer(n), n, n, l)
  {
    MulStep(n, l, l + 1);
    CzRingShape0(n);
    CzRingFacts(n);
    RowFacts(Y, n * (l + 1), n);
    ParamUsesConcat(CzRing(n, n), Row(Y, n * (l + 1), n));
  }

  /** The ring has one CZ per qubit. */
  lemma CzRingShape0(n: nat)
    ensures |CzRing(n, n)| == n
  {
    if n > 0 {
      CzRingShape(n, 0);
    }
  }

  /** `qc10_pqc` appends n + 2nL gates and uses each of its n(1+L) allocated
      symbols exactly once, in allocation order. */
  lemma Qc10Uses(n: nat, layers: nat)
    ensures |Qc10Ops(n, layers)| == n + 2 * n * layers
    ensures ParamUses(Qc10Ops(n, layers)) == Span(0, n * (1 + layers))
  {
    var layer := Qc10Layer(n);
    forall l | 0 <= l < layers
      ensures |layer(l)| == 2 * n
      ensures UsesSpanAt(layer, n, n, l)
    {
      Qc10LayerFacts(n, l);
    }
    RowFacts(Y, 0, n);
    RepeatLength(layers, layer, 2 * n);
    MulStep(n, layers, layers + 1);
    RepeatUses(layers, layer, n, n, n * layers);
    ParamUsesConcat(Row(Y, 0, n), Repeat(layers, layer));
    SpanConcat(0, n, n * layers);
  }

  /** Each symbol `qc10_pqc` allocates drives exactly one gate, and no other symbol is used. */
  lemma Qc10OnceEach(n: nat, layers: nat)
    ensures UsesEachOnce(Qc10Ops(n, layers), n * (1 + layers))
  {
    Qc10Uses(n, layers);
    InOrderUsesEachOnce(Qc10Ops(n, layers), n * (1 + layers));
  }

  /** Every gate of `qc10_pqc` addresses a qubit of the register, and with at
      least two qubits no CZ acts on one qubit twice. */
  lemma Qc10WellFormed(n: nat, layers: nat)
    ensures InRegister(Qc10Ops(n, layers), n)
    ensures n >= 2 ==> WellFormed(Qc10Ops(n, layers), n)
  {
    var layer := Qc10Layer(n);
    CzRingFacts(n);
    RowFacts(Y, 0, n);
    forall l | 0 <= l < layers
      ensures InRegister(layer(l), n)
      ensures n >= 2 ==> WellFormed(layer(l), n)
    {
      RowFacts(Y, n * (l + 1), n);
      InRegisterConcat(CzRing(n, n), Row(Y, n * (l + 1), n), n);
      if n >= 2 {
        WellFormedConcat(CzRing(n, n), Row(Y, n * (l + 1), n), n);
      }
    }
    RepeatInRegister(layers, layer, n);
    InRegisterConcat(Row(Y, 0, n), Repeat(layers, layer), n);
    if n >= 2 {
      RepeatWellFormed(layers, layer, n);
      WellFormedConcat(Row(Y, 0, n), Repeat(layers, layer), n);
    }
  }

  /** The gates `qc10_pqc_local` appends: the layers before the last are
      those of `qc10_pqc`; the last appends its CZ ring and then a single
      RY(theta_(n*L)) on the qubit the previous row loop stopped at, the last
      one.  With layers to build the register must be non-empty: an empty
      register allocates no symbol at all, so that rotation's `params[0]`
      is out of range. */
  function Qc10LocalOps(n: nat, layers: nat): seq<Gate>
    requires n > 0 || layers == 0
  {
    if layers == 0 then Row(Y, 0, n)
    else Qc10Ops(n, layers - 1) + LastLocalLayer(n, layers)
  }

  /** `qc10_pqc_local` */
  method Qc10PqcLocal(circuit: Circuit, n: nat, layers: nat)
    requires n > 0 || layers == 0
    modifies circuit
    ensures circuit.ops == old(circuit.ops) + Qc10LocalOps(n, layers)
  {
    AppendRow(circuit, Y, 0, n);
    if n > 0 && layers > 0 {
      // the row loop leaves its loop variable `qubit` on the last qubit
      var qubit := n - 1;
      AppendQc10LocalLayers(circuit, n, layers, qubit);
      LocalPrefixDone(n, layers);
      AppendAssoc(old(circuit.ops), Row(Y, 0, n), LocalPrefix(n, layers, layers));
    }
  }

  /** The layer loop of `qc10_pqc_local`. */
  method AppendQc10LocalLayers(circuit: Circuit, n: nat, layers: nat, qubit: nat)
    requires n > 0 && layers > 0 && qubit == n - 1
    modifies circuit
    ensures circuit.ops == old(circuit.ops) + LocalPrefix(n, layers, layers)
  {
    for layer := 0 to layers
      invariant circuit.ops == old(circuit.ops) + LocalPrefix(n, layers, layer)
    {
      LocalPrefixStep(n, layers, layer);
      AppendAssoc(old(circuit.ops), LocalPrefix(n, layers, layer), LocalLayer(n, layers, layer));
      AppendQc10LocalLayer(circuit, n, layers, layer, qubit);
    }
  }

  /** The last layer of `qc10_pqc_local`: the CZ ring and one rotation. */
  function LastLocalLayer(n: nat, layers: nat): seq<Gate>
    requires n > 0
  {
    CzRing(n, n) + [Rot(Y, n - 1, Param(n * layers))]
  }

  /** Layer `layer` of `qc10_pqc_local` out of layers. */
  function LocalLayer(n: nat, layers: nat, layer: nat): seq<Gate>
    requires n > 0
  {
    if layer + 1 < layers then Qc10Layer(n)(layer) else LastLocalLayer(n, layers)
  }

  /** The layers of `qc10_pqc_local` before `layer`. */
  function LocalPrefix(n: nat, layers: nat, layer: nat): seq<Gate>
    requires n > 0 && 0 < layers && layer <= layers
  {
    if layer < layers then Repeat(layer, Qc10Layer(n))
    else Repeat(layers - 1, Qc10Layer(n)) + LastLocalLayer(n, layers)
  }

  lemma LocalPrefixStep(n: nat, layers: nat, layer: nat)
    requires n > 0 && layer < layers
    ensures LocalPrefix(n, layers, layer + 1) == LocalPrefix(n, layers, layer) + LocalLayer(n, layers, layer)
  {
  }

  lemma LocalPrefixDone(n: nat, layers: nat)
    requires n > 0 && layers > 0
    ensures Qc10LocalOps(n, layers) == Row(Y, 0, n) + LocalPrefix(n, layers, layers)
  {
  }

  /** The body of the layer loop of `qc10_pqc_local`. */
  method AppendQc10LocalLayer(circuit: Circuit, n: nat, layers: nat, layer: nat, qubit: nat)
    requires n > 0 && qubit == n - 1 && layer < layers
    modifies circuit
    ensures circuit.ops == old(circuit.ops) + LocalLayer(n, layers, layer)
  {
    if layer != layers - 1 {
      AppendQc10Layer(circuit, n, layer);
    } else {
      MulStep(n, layer + 1, layer + 2);
      var last := Rot(Y, qubit, Param(n * (layer + 1)));
      AppendAssoc(old(circuit.ops), CzRing(n, n), [last]);
      AppendCzRing(circuit, n);
      circuit.Append(last);
    }
  }

  /** `qc10_pqc_local` uses the first n*L + 1 symbols exactly once each, in
      allocation order (all n of them when there is no layer). */
  lemma Qc10LocalUses(n: nat, layers: nat)
    requires n > 0 || layers == 0
    ensures ParamUses(Qc10LocalOps(n, layers)) == Span(0, if layers == 0 then n else n * layers + 1)
  {
    if layers == 0 {
      RowFacts(Y, 0, n);
    } else {
      Qc10LocalLayeredUses(n, layers);
    }
  }

  lemma Qc10LocalLayeredUses(n: nat, layers: nat)
    requires n > 0 && layers > 0
    ensures ParamUses(Qc10LocalOps(n, layers)) == Span(0, n * layers + 1)
  {
    var m := layers - 1;
    var k := n * layers;
    var front := Qc10Ops(n, m);
    var ring := CzRing(n, n);
    var last := [Rot(Y, n - 1, Param(k))];
    assert LastLocalLayer(n, layers) == ring + last;
    Qc10Uses(n, m);
    assert n * (1 + m) == k;
    CzRingFacts(n);
    assert ParamUses(last) == [k] by {
      assert Collect(last, 1, GateParams) == [k];
    }
    AppendAssoc(front, ring, last);
    ParamUsesConcat(front, ring);
    ParamUsesConcat(front + ring, last);
    assert ParamUses(front + ring) == Span(0, k);
    SpanConcat(0, k, 1);
    assert Span(k, 1) == [k];
  }

  /** `qc10_pqc_local` appends n + 2n(L-1) gates for its first row and full
      layers, then n CZs and one RY: 2nL + 1 gates once there is a layer. */
  lemma Qc10LocalLength(n: nat, layers: nat)
    requires n > 0 || layers == 0
    ensures |Qc10LocalOps(n, layers)| == if layers == 0 then n else 2 * n * layers + 1
  {
    if layers == 0 {
      RowFacts(Y, 0, n);
    } else {
      Qc10Uses(n, layers - 1);
      CzRingShape0(n);
      MulStep(2 * n, layers - 1, layers);
    }
  }

  /** Every gate of `qc10_pqc_local` addresses a qubit of the register, the
      closing rotation included, and with at least two qubits no CZ acts on
      one qubit twice. */
  lemma Qc10LocalWellFormed(n: nat, layers: nat)
    requires n > 0 || layers == 0
    ensures InRegister(Qc10LocalOps(n, layers), n)
    ensures n >= 2 ==> WellFormed(Qc10LocalOps(n, layers), n)
  {
    if layers == 0 {
      RowFacts(Y, 0, n);
    } else {
      var front := Qc10Ops(n, layers - 1);
      var ring := CzRing(n, n);
      var last := [Rot(Y, n - 1, Param(n * layers))];
      assert Qc10LocalOps(n, layers) == front + (ring + last);
      Qc10WellFormed(n, layers - 1);
      CzRingFacts(n);
      assert WellFormed(last, n);
      InRegisterConcat(ring, last, n);
      InRegisterConcat(front, ring + last, n);
      if n >= 2 {
        WellFormedConcat(ring, last, n);
        WellFormedConcat(front, ring + last, n);
      }
    }
  }

  /** Of the n(1+L) symbols `qc10_pqc_local` allocates, the last n-1 are
      never referenced. */
  lemma Qc10LocalUnused(n: nat, layers: nat, x: nat)
    requires n > 0 && layers > 0
    requires n * layers + 1 <= x
    ensures Occurrences(ParamUses(Qc10LocalOps(n, layers)), x) == 0
  {
    Qc10LocalUses(n, layers);
    SpanOccurrences(0, n * layers + 1, x);
  }

  /** Layer l of `qc10P_pqc`: the CZ ring, then on every qubit i
      RY(theta_(2i + 2n(l+1))) and RX(theta_(2i + 1 + 2n(l+1))). */
  function Qc10PLayer(n: nat): nat -> seq<Gate>
  {
    (l: nat) => CzRing(n, n) + PairRow(Y, X, 2 * n * (l + 1), n)
  }

  /** The gates `qc10P_pqc` appends. */
  function Qc10POps(n: nat, layers: nat): seq<Gate>
  {
    PairRow(Y, X, 0, n) + Repeat(layers, Qc10PLayer(n))
  }

  /** `qc10P_pqc` */
  method Qc10PPqc(circuit: Circuit, n: nat, layers: nat)
    modifies circuit
    ensures circuit.ops == old(circuit.ops) + Qc10POps(n, layers)
  {
    AppendPairRow(circuit, Y, X, 0, n);
    ghost var rows := circuit.ops;
    for layer := 0 to layers
      invariant circuit.ops == rows + Repeat(layer, Qc10PLayer(n))
    {
      AppendAssoc(rows, Repeat(layer, Qc10PLayer(n)), Qc10PLayer(n)(layer));
      AppendQc10PLayer(circuit, n, layer);
    }
    AppendAssoc(old(circuit.ops), PairRow(Y, X, 0, n), Repeat(layers, Qc10PLayer(n)));
  }

  /** The body of the layer loop of `qc10P_pqc`. */
  method AppendQc10PLayer(circuit: Circuit, n: nat, layer: nat)
    modifies circuit
    ensures circuit.ops == old(circuit.ops) + Qc10PLayer(n)(layer)
  {
    MulStep(2 * n, layer + 1, layer + 2);
    var offset := 2 * n * (layer + 1);
    AppendAssoc(old(circuit.ops), CzRing(n, n), PairRow(Y, X, offset, n));
    AppendCzRing(circuit, n);
    AppendPairRow(circuit, Y, X, offset, n);
  }

  lemma Qc10PLayerFacts(n: nat, l: nat)
    ensures |Qc10PLayer(n)(l)| == 3 * n
    ensures UsesSpanAt(Qc10PLayer(n), 2 * n, 2 * n, l)
  {
    MulStep(2 * n, l, l + 1);
    CzRingShape0(n);
    CzRingFacts(n);
    PairRowFacts(Y, X, 2 * n * (l + 1), n);
    ParamUsesConcat(CzRing(n, n), PairRow(Y, X, 2 * n * (l + 1), n));
  }

  /** `qc10P_pqc` appends 2n + 3nL gates and uses each of its 2n(1+L)
      allocated symbols exactly once, in allocation order. */
  lemma Qc10PUses(n: nat, layers: nat)
    ensures |Qc10POps(n, layers)| == 2 * n + 3 * n * layers
    ensures ParamUses(Qc10POps(n, layers)) == Span(0, 2 * n * (1 + layers))
  {
    var layer := Qc10PLayer(n);
    forall l | 0 <= l < layers
      ensures |layer(l)| == 3 * n
      ensures UsesSpanAt(layer, 2 * n, 2 * n, l)
    {
      Qc10PLayerFacts(n, l);
    }
    PairRowFacts(Y, X, 0, n);
    RepeatLength(layers, layer, 3 * n);
    MulStep(2 * n, layers, layers + 1);
    RepeatUses(layers, layer, 2 * n, 2 * n, 2 * n * layers);
    ParamUsesConcat(PairRow(Y, X, 0, n), Repeat(layers, layer));
    SpanConcat(0, 2 * n, 2 * n * layers);
  }

  /** Each symbol `qc10P_pqc` allocates drives exactly one gate, and no other symbol is used. */
  lemma Qc10POnceEach(n: nat, layers: nat)
    ensures UsesEachOnce(Qc10POps(n, layers), 2 * n * (1 + layers))
  {
    Qc10PUses(n, layers);
    InOrderUsesEachOnce(Qc10POps(n, layers), 2 * n * (1 + layers));
  }

  /** Every gate of `qc10P_pqc` addresses a qubit of the register, and with
      at least two qubits no CZ acts on one qubit twice. */
  lemma Qc10PWellFormed(n: nat, layers: nat)
    ensures InRegister(Qc10POps(n, layers), n)
    ensures n >= 2 ==> WellFormed(Qc10POps(n, layers), n)
  {
    var layer := Qc10PLayer(n);
    CzRingFacts(n);
    PairRowFacts(Y, X, 0, n);
    forall l | 0 <= l < layers
      ensures InRegister(layer(l), n)
      ensures n >= 2 ==> WellFormed(layer(l), n)
    {
      PairRowFacts(Y, X, 2 * n * (l + 1), n);
      InRegisterConcat(CzRing(n, n), PairRow(Y, X, 2 * n * (l + 1), n), n);
      if n >= 2 {
        WellFormedConcat(CzRing(n, n), PairRow(Y, X, 2 * n * (l + 1), n), n);
      }
    }
    RepeatInRegister(layers, layer, n);
    InRegisterConcat(PairRow(Y, X, 0, n), Repeat(layers, layer), n);
    if n >= 2 {
      RepeatWellFormed(layers, layer, n);
      WellFormedConcat(PairRow(Y, X, 0, n), Repeat(layers, layer), n);
    }
  }
}

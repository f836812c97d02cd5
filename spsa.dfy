/** `SPSA2_PQC`: an RY(pi/4) preparation row, layers of single-qubit
    rotations whose axes are chosen by uniform random draws, and a CZ chain.
    The random number stream is a parameter: draws(j) is the j-th value
    `np.random.uniform()` returns. */
module Spsa {
  import opened Cirq
  import opened Blocks

  /** The axis `random_n` selects: Z above 2/3, Y above 1/3, X otherwise. */
  function SpsaAxis(r: real): (a: Axis)
    ensures a == Z <==> r > 2.0 / 3.0
    ensures a == Y <==> 1.0 / 3.0 < r <= 2.0 / 3.0
    ensures a == X <==> r <= 1.0 / 3.0
  {
    if r > 2.0 / 3.0 then Z else if r > 1.0 / 3.0 then Y else X
  }

  /** How many values the first p iterations of the layer loops take from
      the stream: the first takes only `random_n`, every later one also
      takes `random_rot`.  So it is also the position of the `random_n`
      draw of iteration p. */
  function DrawsUsed(p: nat): (c: nat)
    ensures c < 2 * p || p == 0
  {
    if p == 0 then 0 else 2 * p - 1
  }

  /** One iteration of the layer loops takes one value from the stream if it
      is the very first, two otherwise. */
  lemma DrawsStep(p: nat)
    ensures DrawsUsed(p + 1) == DrawsUsed(p) + (if p == 0 then 1 else 2)
  {
  }

  /** Every iteration reads its axis from a value of its own, and never from
      a value an iteration spent on `random_rot`. */
  lemma DrawsDistinct(p: nat, q: nat)
    ensures p < q ==> DrawsUsed(p) < DrawsUsed(q)
    ensures p > 0 ==> DrawsUsed(q) != DrawsUsed(p) + 1
  {
  }

  /** The RY(pi/4) of qubit i in the preparation row. */
  function PrepBlock(): nat -> seq<Gate>
  {
    (i: nat) => [Rot(Y, i, QuarterPi)]
  }

  /** The rotation on qubit i in layer `layer`: about the drawn axis, by
      symbol 2i, whatever the layer. */
  function SpsaBlock(n: nat, draws: nat -> real, layer: nat): nat -> seq<Gate>
  {
    (i: nat) => [Rot(SpsaAxis(draws(DrawsUsed(n * layer + i))), i, Param(2 * i))]
  }

  function SpsaLayer(n: nat, draws: nat -> real): nat -> seq<Gate>
  {
    (layer: nat) => Repeat(n, SpsaBlock(n, draws, layer))
  }

  /** CZ(qubit i, qubit i+1) for each pair of `zip(qubits, qubits[1:])`. */
  function ChainBlock(): nat -> seq<Gate>
  {
    (i: nat) => [Cz(i, i + 1)]
  }

  function CzChain(n: nat): seq<Gate>
  {
    Repeat(if n == 0 then 0 else n - 1, ChainBlock())
  }

  /** The gates `SPSA2_PQC` appends. */
  function SpsaOps(n: nat, layers: nat, draws: nat -> real): seq<Gate>
  {
    Repeat(n, PrepBlock()) + Repeat(layers, SpsaLayer(n, draws)) + CzChain(n)
  }

  /** `SPSA2_PQC` */
  method Spsa2Pqc(circuit: Circuit, n: nat, layers: nat, draws: nat -> real)
    modifies circuit
    ensures circuit.ops == old(circuit.ops) + SpsaOps(n, layers, draws)
  {
    AppendPrep(circuit, n);
    ghost var prep := circuit.ops;
    var cursor := 0;
    for layer := 0 to layers
      invariant cursor == DrawsUsed(n * layer)
      invariant circuit.ops == prep + Repeat(layer, SpsaLayer(n, draws))
    {
      AppendAssoc(prep, Repeat(layer, SpsaLayer(n, draws)), Repeat(n, SpsaBlock(n, draws, layer)));
      cursor := AppendSpsaLayer(circuit, n, layer, draws, cursor);
      MulStep(n, layer, layer + 1);
    }
    AppendCzChain(circuit, n);
    AppendAssoc(old(circuit.ops), Repeat(n, PrepBlock()), Repeat(layers, SpsaLayer(n, draws)));
    AppendAssoc(old(circuit.ops), Repeat(n, PrepBlock()) + Repeat(layers, SpsaLayer(n, draws)), CzChain(n));
  }

  /** The preparation loop: RY(pi/4) on every qubit. */
  method AppendPrep(circuit: Circuit, n: nat)
    modifies circuit
    ensures circuit.ops == old(circuit.ops) + Repeat(n, PrepBlock())
  {
    for i := 0 to n
      invariant circuit.ops == old(circuit.ops) + Repeat(i, PrepBlock())
    {
      assert PrepBlock()(i) == [Rot(Y, i, QuarterPi)];
      AppendAssoc(old(circuit.ops), Repeat(i, PrepBlock()), [Rot(Y, i, QuarterPi)]);
      circuit.Append(Rot(Y, i, QuarterPi));
    }
  }

  /** The loop over `zip(qubits, qubits[1:])`. */
  method AppendCzChain(circuit: Circuit, n: nat)
    modifies circuit
    ensures circuit.ops == old(circuit.ops) + CzChain(n)
  {
    var pairs := if n == 0 then 0 else n - 1;
    for i := 0 to pairs
      invariant circuit.ops == old(circuit.ops) + Repeat(i, ChainBlock())
    {
      assert ChainBlock()(i) == [Cz(i, i + 1)];
      AppendAssoc(old(circuit.ops), Repeat(i, ChainBlock()), [Cz(i, i + 1)]);
      circuit.Append(Cz(i, i + 1));
    }
  }

  /** The body of the layer loop of `SPSA2_PQC`, reading the stream from
      cursor on; returns the stream position after it. */
  method AppendSpsaLayer(circuit: Circuit, n: nat, layer: nat, draws: nat -> real, cursor: nat) returns (next: nat)
    requires cursor == DrawsUsed(n * layer)
    modifies circuit
    ensures circuit.ops == old(circuit.ops) + Repeat(n, SpsaBlock(n, draws, layer))
    ensures next == DrawsUsed(n * layer + n)
  {
    next := cursor;
    for i := 0 to n
      invariant next == DrawsUsed(n * layer + i)
      invariant circuit.ops == old(circuit.ops) + Repeat(i, SpsaBlock(n, draws, layer))
    {
      var randomN := draws(next);
      next := next + 1;
      if i != 0 || layer != 0 {
        next := next + 1;
      }
      var g := Rot(SpsaAxis(randomN), i, Param(2 * i));
      assert SpsaBlock(n, draws, layer)(i) == [g];
      AppendAssoc(old(circuit.ops), Repeat(i, SpsaBlock(n, draws, layer)), [g]);
      circuit.Append(g);
    }
  }

  /** The symbols 0, 2, .., 2(count-1): those a layer refers to. */
  function Evens(count: nat): seq<nat>
  {
    if count == 0 then [] else Evens(count - 1) + [2 * (count - 1)]
  }

  /** Of the allocated symbols a layer uses exactly the even ones below 2n, once each. */
  lemma {:induction false} EvensOccurrences(count: nat, x: nat)
    ensures Occurrences(Evens(count), x) == if x % 2 == 0 && x < 2 * count then 1 else 0
  {
    if count > 0 {
      EvensOccurrences(count - 1, x);
      OccurrencesConcat(Evens(count - 1), [2 * (count - 1)], x);
      OccurrencesOne(2 * (count - 1), x);
    }
  }

  /** Whatever axes are drawn, a layer uses the symbols 0, 2, .., 2(n-1) in order. */
  lemma {:induction false} SpsaLayerUses(n: nat, draws: nat -> real, layer: nat, count: nat)
    ensures ParamUses(Repeat(count, SpsaBlock(n, draws, layer))) == Evens(count)
  {
    if count > 0 {
      var block := SpsaBlock(n, draws, layer);
      var i := count - 1;
      SpsaLayerUses(n, draws, layer, i);
      var g := Rot(SpsaAxis(draws(DrawsUsed(n * layer + i))), i, Param(2 * i));
      assert block(i) == [g];
      assert Collect([g], 1, GateParams) == [2 * i];
      ParamUsesConcat(Repeat(i, block), block(i));
    }
  }

  /** Neither the preparation row nor the CZ chain refers to a symbol. */
  lemma SpsaFixedGates(n: nat)
    ensures ParamUses(Repeat(n, PrepBlock())) == []
    ensures ParamUses(CzChain(n)) == []
  {
    forall i | 0 <= i < n ensures ParamUses(PrepBlock()(i)) == [] {
      assert PrepBlock()(i) == [Rot(Y, i, QuarterPi)];
      assert Collect([Rot(Y, i, QuarterPi)], 1, GateParams) == [];
    }
    RepeatNoParams(n, PrepBlock());
    forall i | 0 <= i < n ensures ParamUses(ChainBlock()(i)) == [] {
      assert ChainBlock()(i) == [Cz(i, i + 1)];
      assert Collect([Cz(i, i + 1)], 1, GateParams) == [];
    }
    RepeatNoParams(if n == 0 then 0 else n - 1, ChainBlock());
  }

  lemma SpsaLayerEvens(n: nat, draws: nat -> real, layer: nat)
    ensures ParamUses(SpsaLayer(n, draws)(layer)) == Evens(n)
  {
    SpsaLayerUses(n, draws, layer, n);
  }

  lemma {:induction false} SpsaLayersOccurrences(n: nat, layers: nat, draws: nat -> real, x: nat)
    ensures Occurrences(ParamUses(Repeat(layers, SpsaLayer(n, draws))), x) == if x % 2 == 0 && x < 2 * n then layers else 0
  {
    if layers > 0 {
      var l := layers - 1;
      var layer := SpsaLayer(n, draws);
      var front := Repeat(l, layer);
      SpsaLayersOccurrences(n, l, draws, x);
      SpsaLayerEvens(n, draws, l);
      EvensOccurrences(n, x);
      assert Repeat(layers, layer) == front + layer(l);
      ParamUsesConcat(front, layer(l));
      OccurrencesConcat(ParamUses(front), ParamUses(layer(l)), x);
    }
  }

  /** Whatever the draws, `SPSA2_PQC` refers to each even symbol below 2n
      once per layer and to no other symbol: the odd symbols and those from
      2n on that it allocates are never used. */
  lemma SpsaUses(n: nat, layers: nat, draws: nat -> real, x: nat)
    ensures Occurrences(ParamUses(SpsaOps(n, layers, draws)), x) == if x % 2 == 0 && x < 2 * n then layers else 0
  {
    var prep := Repeat(n, PrepBlock());
    var body := Repeat(layers, SpsaLayer(n, draws));
    SpsaFixedGates(n);
    SpsaLayersOccurrences(n, layers, draws, x);
    ParamUsesConcat(prep, body);
    ParamUsesConcat(prep + body, CzChain(n));
    assert ParamUses(SpsaOps(n, layers, draws)) == ParamUses(body);
  }

  /** Every symbol `SPSA2_PQC` refers to is among the n(1+L) it allocates. */
  lemma SpsaAllocated(n: nat, layers: nat, draws: nat -> real, x: nat)
    requires Occurrences(ParamUses(SpsaOps(n, layers, draws)), x) > 0
    ensures x < n * (1 + layers)
  {
    SpsaUses(n, layers, draws, x);
    MulMono(n, 2, 1 + layers);
  }

  /** Each iteration of a layer appends a single rotation. */
  lemma SpsaBlockUniform(n: nat, draws: nat -> real, layer: nat)
    ensures Uniform(SpsaBlock(n, draws, layer), 1, n)
  {
    var block := SpsaBlock(n, draws, layer);
    forall j | 0 <= j < n ensures |block(j)| == 1 {
      assert block(j) == [Rot(SpsaAxis(draws(DrawsUsed(n * layer + j))), j, Param(2 * j))];
    }
  }

  /** The rotation of qubit i in layer `layer` turns about the axis that the
      `random_n` draw of its iteration selects. */
  lemma SpsaLayerAt(n: nat, draws: nat -> real, layer: nat, i: nat)
    requires i < n
    ensures |Repeat(n, SpsaBlock(n, draws, layer))| == n
    ensures Repeat(n, SpsaBlock(n, draws, layer))[i] == Rot(SpsaAxis(draws(DrawsUsed(n * layer + i))), i, Param(2 * i))
  {
    var block := SpsaBlock(n, draws, layer);
    SpsaBlockUniform(n, draws, layer);
    RepeatAt(n, block, 1, i);
    assert Repeat(n, block)[i] == Repeat(n, block)[i .. i + 1][0];
  }

  /** The `random_rot` draws never reach the circuit: two streams that agree
      on every `random_n` draw give the same circuit. */
  lemma SpsaDrawsAgree(n: nat, layers: nat, d1: nat -> real, d2: nat -> real)
    requires forall p: nat :: p < n * layers ==> d1(DrawsUsed(p)) == d2(DrawsUsed(p))
    ensures SpsaOps(n, layers, d1) == SpsaOps(n, layers, d2)
  {
    forall l | 0 <= l < layers ensures SpsaLayer(n, d1)(l) == SpsaLayer(n, d2)(l) {
      forall i | 0 <= i < n ensures SpsaBlock(n, d1, l)(i) == SpsaBlock(n, d2, l)(i) {
        MulMono(n, l + 1, layers);
        MulStep(n, l, l + 1);
        assert d1(DrawsUsed(n * l + i)) == d2(DrawsUsed(n * l + i));
      }
      RepeatAgree(n, SpsaBlock(n, d1, l), SpsaBlock(n, d2, l));
    }
    RepeatAgree(layers, SpsaLayer(n, d1), SpsaLayer(n, d2));
  }

  /** `SPSA2_PQC` appends n preparation rotations, n rotations per layer and
      the n - 1 links of the chain. */
  lemma SpsaLength(n: nat, layers: nat, draws: nat -> real)
    ensures |SpsaOps(n, layers, draws)| == n + n * layers + (if n == 0 then 0 else n - 1)
  {
    forall i | 0 <= i < n ensures |PrepBlock()(i)| == 1 {
      assert PrepBlock()(i) == [Rot(Y, i, QuarterPi)];
    }
    RepeatLength(n, PrepBlock(), 1);
    forall l | 0 <= l < layers ensures |SpsaLayer(n, draws)(l)| == n {
      SpsaBlockUniform(n, draws, l);
      RepeatLength(n, SpsaBlock(n, draws, l), 1);
    }
    RepeatLength(layers, SpsaLayer(n, draws), n);
    var pairs := if n == 0 then 0 else n - 1;
    forall i | 0 <= i < pairs ensures |ChainBlock()(i)| == 1 {
      assert ChainBlock()(i) == [Cz(i, i + 1)];
    }
    RepeatLength(pairs, ChainBlock(), 1);
  }

  /** `SPSA2_PQC` is well formed on every register: the chain links each
      qubit to the next one. */
  lemma SpsaWellFormed(n: nat, layers: nat, draws: nat -> real)
    ensures WellFormed(SpsaOps(n, layers, draws), n)
  {
    forall i | 0 <= i < n ensures WellFormed(PrepBlock()(i), n) {
      assert PrepBlock()(i) == [Rot(Y, i, QuarterPi)];
    }
    RepeatWellFormed(n, PrepBlock(), n);
    forall l | 0 <= l < layers ensures WellFormed(SpsaLayer(n, draws)(l), n) {
      var block := SpsaBlock(n, draws, l);
      forall i | 0 <= i < n ensures WellFormed(block(i), n) {
        assert block(i) == [Rot(SpsaAxis(draws(DrawsUsed(n * l + i))), i, Param(2 * i))];
      }
      RepeatWellFormed(n, block, n);
    }
    RepeatWellFormed(layers, SpsaLayer(n, draws), n);
    var pairs := if n == 0 then 0 else n - 1;
    forall i | 0 <= i < pairs ensures WellFormed(ChainBlock()(i), n) {
      assert ChainBlock()(i) == [Cz(i, i + 1)];
    }
    RepeatWellFormed(pairs, ChainBlock(), n);
    WellFormedConcat(Repeat(n, PrepBlock()), Repeat(layers, SpsaLayer(n, draws)), n);
    WellFormedConcat(Repeat(n, PrepBlock()) + Repeat(layers, SpsaLayer(n, draws)), CzChain(n), n);
  }
}

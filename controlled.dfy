/** The ansatz circuits built from Rx-Rz rows and controlled-RX gates
    (`CNOT ** (theta / pi)`), which draw their symbols from a running
    counter `param_count`. */
module Controlled {
  import opened Cirq
  import opened Blocks
  import opened Rows

  /** The counted Rx-Rz row loop of `qc19_pqc` and `qc6_pqc`: RX(theta_pc)
      then RZ(theta_(pc+1)) on every qubit, the counter rising by one per
      rotation.  Returns the counter after the row. */
  method AppendCountedRow(circuit: Circuit, n: nat, paramCount: nat) returns (next: nat)
    modifies circuit
    ensures circuit.ops == old(circuit.ops) + PairRow(X, Z, paramCount, n)
    ensures next == paramCount + 2 * n
  {
    next := paramCount;
    for i := 0 to n
      invariant next == paramCount + 2 * i
      invariant circuit.ops == old(circuit.ops) + PairRow(X, Z, paramCount, i)
    {
      PairRowStep(X, Z, paramCount, i);
      var g1 := Rot(X, i, Param(next));
      AppendAssoc(old(circuit.ops), PairRow(X, Z, paramCount, i), [g1]);
      circuit.Append(g1);
      next := next + 1;
      var g2 := Rot(Z, i, Param(next));
      AppendAssoc(old(circuit.ops) + PairRow(X, Z, paramCount, i), [g1], [g2]);
      AppendAssoc(old(circuit.ops), PairRow(X, Z, paramCount, i), [g1, g2]);
      circuit.Append(g2);
      next := next + 1;
    }
  }

  /** The controlled rotation of iteration i of the `qc19_pqc` ring loop:
      from qubit (n-1-i) % n to qubit (n-i) % n, by symbol base + i. */
  function CnotPowLink(n: nat, base: nat): nat -> seq<Gate>
    requires n > 0
  {
    (i: nat) => [CnotPow((n - 1 - i) % n, (n - i) % n, base + i)]
  }

  /** The first count controlled rotations of that loop. */
  function CnotPowRing(n: nat, base: nat, count: nat): seq<Gate>
  {
    if n == 0 then [] else Repeat(count, CnotPowLink(n, base))
  }

  lemma CnotPowRingStep(n: nat, base: nat, i: nat)
    requires i < n
    ensures CnotPowRing(n, base, i + 1) == CnotPowRing(n, base, i) + [CnotPow((n - 1 - i) % n, (n - i) % n, base + i)]
  {
    assert CnotPowLink(n, base)(i) == [CnotPow((n - 1 - i) % n, (n - i) % n, base + i)];
  }

  /** The ring of controlled rotations walks down the register: the first
      runs from qubit n-1 to qubit 0, the i-th from qubit n-1-i to qubit
      n-i, and the i-th uses symbol base + i. */
  lemma CnotPowRingShape(n: nat, base: nat, i: nat)
    requires i < n
    ensures |CnotPowRing(n, base, n)| == n
    ensures CnotPowRing(n, base, n)[i] == if i == 0 then CnotPow(n - 1, 0, base) else CnotPow(n - 1 - i, n - i, base + i)
  {
    var link := CnotPowLink(n, base);
    forall j | 0 <= j < n ensures |link(j)| == 1 {
      assert link(j) == [CnotPow((n - 1 - j) % n, (n - j) % n, base + j)];
    }
    RepeatAt(n, link, 1, i);
    assert CnotPowRing(n, base, n)[i] == CnotPowRing(n, base, n)[i .. i + 1][0];
    assert link(i) == [CnotPow((n - 1 - i) % n, (n - i) % n, base + i)];
    ModWrap(n - 1 - i, n);
    ModWrap(n - i, n);
  }

  lemma CnotPowLinkFacts(n: nat, base: nat, i: nat)
    requires i < n
    ensures UsesSpanAt(CnotPowLink(n, base), base, 1, i)
    ensures |CnotPowLink(n, base)(i)| == 1
    ensures InRegister(CnotPowLink(n, base)(i), n)
    ensures n >= 2 ==> WellFormed(CnotPowLink(n, base)(i), n)
  {
    var link := CnotPowLink(n, base)(i);
    assert link == [CnotPow((n - 1 - i) % n, (n - i) % n, base + i)];
    assert Collect(link, 1, GateParams) == [base + i];
    ModWrap(n - 1 - i, n);
    ModWrap(n - i, n);
  }

  /** The ring uses the n symbols from base in order and stays inside the
      register; with two or more qubits control and target always differ. */
  lemma CnotPowRingFacts(n: nat, base: nat)
    ensures |CnotPowRing(n, base, n)| == n
    ensures ParamUses(CnotPowRing(n, base, n)) == Span(base, n)
    ensures InRegister(CnotPowRing(n, base, n), n)
    ensures n >= 2 ==> WellFormed(CnotPowRing(n, base, n), n)
  {
    if n > 0 {
      var link := CnotPowLink(n, base);
      forall i | 0 <= i < n
        ensures UsesSpanAt(link, base, 1, i)
        ensures |link(i)| == 1
        ensures InRegister(link(i), n)
        ensures n >= 2 ==> WellFormed(link(i), n)
      {
        CnotPowLinkFacts(n, base, i);
      }
      RepeatLength(n, link, 1);
      RepeatUses(n, link, base, 1, n);
      RepeatInRegister(n, link, n);
      if n >= 2 {
        RepeatWellFormed(n, link, n);
      }
    }
  }

  /** One layer of `qc19_pqc` whose counter starts at base: the Rx-Rz row,
      then the ring of controlled rotations. */
  function Qc19LayerOps(n: nat, base: nat): seq<Gate>
  {
    PairRow(X, Z, base, n) + CnotPowRing(n, base + 2 * n, n)
  }

  /** Layer l starts where the previous layers left the counter, at 3nl. */
  function Qc19Layer(n: nat): nat -> seq<Gate>
  {
    (l: nat) => Qc19LayerOps(n, 3 * n * l)
  }

  /** The gates `qc19_pqc` appends. */
  function Qc19Ops(n: nat, layers: nat): seq<Gate>
  {
    Repeat(layers, Qc19Layer(n))
  }

  /** `qc19_pqc` */
  method Qc19Pqc(circuit: Circuit, n: nat, layers: nat)
    modifies circuit
    ensures circuit.ops == old(circuit.ops) + Qc19Ops(n, layers)
  {
    var paramCount := 0;
    for layer := 0 to layers
      invariant paramCount == 3 * n * layer
      invariant circuit.ops == old(circuit.ops) + Repeat(layer, Qc19Layer(n))
    {
      AppendAssoc(old(circuit.ops), Repeat(layer, Qc19Layer(n)), Qc19LayerOps(n, paramCount));
      paramCount := AppendQc19Layer(circuit, n, paramCount);
      MulStep(3 * n, layer, layer + 1);
    }
  }

  /** The body of the layer loop of `qc19_pqc`; returns the counter after it. */
  method AppendQc19Layer(circuit: Circuit, n: nat, paramCount: nat) returns (next: nat)
    modifies circuit
    ensures circuit.ops == old(circuit.ops) + Qc19LayerOps(n, paramCount)
    ensures next == paramCount + 3 * n
  {
    next := AppendCountedRow(circuit, n, paramCount);
    next := AppendCnotPowRing(circuit, n, next);
    AppendAssoc(old(circuit.ops), PairRow(X, Z, paramCount, n), CnotPowRing(n, paramCount + 2 * n, n));
  }

  /** The ring loop of a `qc19_pqc` layer, counting symbols from paramCount. */
  method AppendCnotPowRing(circuit: Circuit, n: nat, paramCount: nat) returns (next: nat)
    modifies circuit
    ensures circuit.ops == old(circuit.ops) + CnotPowRing(n, paramCount, n)
    ensures next == paramCount + n
  {
    next := paramCount;
    for i := 0 to n
      invariant next == paramCount + i
      invariant circuit.ops == old(circuit.ops) + CnotPowRing(n, paramCount, i)
    {
      CnotPowRingStep(n, paramCount, i);
      var g := CnotPow((n - 1 - i) % n, (n - i) % n, next);
      AppendAssoc(old(circuit.ops), CnotPowRing(n, paramCount, i), [g]);
      circuit.Append(g);
      next := next + 1;
    }
  }

  /** A layer of `qc19_pqc` has 3n gates and uses the 3n symbols from its
      base in order. */
  lemma Qc19LayerFacts(n: nat, base: nat)
    ensures |Qc19LayerOps(n, base)| == 3 * n
    ensures ParamUses(Qc19LayerOps(n, base)) == Span(base, 3 * n)
  {
    PairRowFacts(X, Z, base, n);
    CnotPowRingFacts(n, base + 2 * n);
    ParamUsesConcat(PairRow(X, Z, base, n), CnotPowRing(n, base + 2 * n, n));
    SpanConcat(base, 2 * n, n);
  }

  /** `qc19_pqc` appends 3nL gates, and its counter walks through the 3nL
      allocated symbols in order, ending exactly at the allocation. */
  lemma Qc19Uses(n: nat, layers: nat)
    ensures |Qc19Ops(n, layers)| == 3 * n * layers
    ensures ParamUses(Qc19Ops(n, layers)) == Span(0, 3 * n * layers)
  {
    var layer := Qc19Layer(n);
    forall l | 0 <= l < layers
      ensures |layer(l)| == 3 * n
      ensures UsesSpanAt(layer, 0, 3 * n, l)
    {
      Qc19LayerFacts(n, 3 * n * l);
    }
    RepeatLength(layers, layer, 3 * n);
    RepeatUses(layers, layer, 0, 3 * n, 3 * n * layers);
  }

  /** Each symbol `qc19_pqc` allocates drives exactly one gate, and no other symbol is used. */
  lemma Qc19OnceEach(n: nat, layers: nat)
    ensures UsesEachOnce(Qc19Ops(n, layers), 3 * n * layers)
  {
    Qc19Uses(n, layers);
    InOrderUsesEachOnce(Qc19Ops(n, layers), 3 * n * layers);
  }

  /** Every gate of `qc19_pqc` addresses a qubit of the register, and with
      at least two qubits no controlled rotation targets its own control. */
  lemma Qc19WellFormed(n: nat, layers: nat)
    ensures InRegister(Qc19Ops(n, layers), n)
    ensures n >= 2 ==> WellFormed(Qc19Ops(n, layers), n)
  {
    var layer := Qc19Layer(n);
    forall l | 0 <= l < layers
      ensures InRegister(layer(l), n)
      ensures n >= 2 ==> WellFormed(layer(l), n)
    {
      var base := 3 * n * l;
      PairRowFacts(X, Z, base, n);
      CnotPowRingFacts(n, base + 2 * n);
      InRegisterConcat(PairRow(X, Z, base, n), CnotPowRing(n, base + 2 * n, n), n);
      if n >= 2 {
        WellFormedConcat(PairRow(X, Z, base, n), CnotPowRing(n, base + 2 * n, n), n);
      }
    }
    RepeatInRegister(layers, layer, n);
    if n >= 2 {
      RepeatWellFormed(layers, layer, n);
    }
  }

  /** The control qubit of fan idx of `qc6_pqc`. */
  function Qc6Control(n: nat, idx: nat): nat
    requires n > 0
  {
    (n - 1 - idx) % n
  }

  /** The target qubit of step idy of fan idx of `qc6_pqc`. */
  function Qc6Target(n: nat, idx: nat, idy: nat): nat
    requires n > 0
  {
    (n - 2 - idx - idy) % n
  }

  /** Step idy of fan idx, using symbol base + idy. */
  function Qc6Step(n: nat, idx: nat, base: nat): nat -> seq<Gate>
    requires n > 0
  {
    (idy: nat) => [CnotPow(Qc6Control(n, idx), Qc6Target(n, idx, idy), base + idy)]
  }

  /** The first count steps of the inner `for idy in range(n_qubits-1)` loop. */
  function Qc6Fan(n: nat, idx: nat, base: nat, count: nat): seq<Gate>
    requires n > 0
  {
    Repeat(count, Qc6Step(n, idx, base))
  }

  /** Fan idx, whose counter starts at base + (n-1)*idx. */
  function Qc6FanBlock(n: nat, base: nat): nat -> seq<Gate>
    requires n > 0
  {
    (idx: nat) => Qc6Fan(n, idx, Offset(base, n - 1, idx), n - 1)
  }

  /** The first count fans of the `for idx in range(n_qubits)` loop. */
  function Qc6Fans(n: nat, base: nat, count: nat): seq<Gate>
  {
    if n == 0 then [] else Repeat(count, Qc6FanBlock(n, base))
  }

  /** One layer of `qc6_pqc` whose counter starts at base: an Rx-Rz row,
      the n fans of n-1 controlled rotations, and another Rx-Rz row. */
  function Qc6LayerOps(n: nat, base: nat): seq<Gate>
  {
    PairRow(X, Z, base, n) + Qc6Fans(n, base + 2 * n, n) + PairRow(X, Z, base + 2 * n + (n - 1) * n, n)
  }

  /** The number of symbols one layer of `qc6_pqc` allocates: 2n + n(n-1) + 2n. */
  function Qc6Width(n: nat): nat
  {
    n * n + 3 * n
  }

  /** Layer l starts where the previous layers left the counter. */
  function Qc6Layer(n: nat): nat -> seq<Gate>
  {
    (l: nat) => Qc6LayerOps(n, Qc6Width(n) * l)
  }

  /** The gates `qc6_pqc` appends. */
  function Qc6Ops(n: nat, layers: nat): seq<Gate>
  {
    Repeat(layers, Qc6Layer(n))
  }

  /** `qc6_pqc` */
  method Qc6Pqc(circuit: Circuit, n: nat, layers: nat)
    modifies circuit
    ensures circuit.ops == old(circuit.ops) + Qc6Ops(n, layers)
  {
    var paramCount := 0;
    var width := Qc6Width(n);
    for layer := 0 to layers
      invariant paramCount == width * layer
      invariant circuit.ops == old(circuit.ops) + Repeat(layer, Qc6Layer(n))
    {
      AppendAssoc(old(circuit.ops), Repeat(layer, Qc6Layer(n)), Qc6LayerOps(n, paramCount));
      paramCount := AppendQc6Layer(circuit, n, paramCount);
      MulStep(width, layer, layer + 1);
    }
  }

  /** The body of the layer loop of `qc6_pqc`; returns the counter after it. */
  method AppendQc6Layer(circuit: Circuit, n: nat, paramCount: nat) returns (next: nat)
    modifies circuit
    ensures circuit.ops == old(circuit.ops) + Qc6LayerOps(n, paramCount)
    ensures next == paramCount + (n * n + 3 * n)
  {
    next := AppendCountedRow(circuit, n, paramCount);
    ghost var first := circuit.ops;
    next := AppendQc6Fans(circuit, n, next);
    ghost var fans := circuit.ops;
    Qc6Count(n);
    next := AppendCountedRow(circuit, n, next);
    AppendAssoc(PairRow(X, Z, paramCount, n), Qc6Fans(n, paramCount + 2 * n, n), PairRow(X, Z, paramCount + 2 * n + (n - 1) * n, n));
    AppendAssoc(old(circuit.ops), PairRow(X, Z, paramCount, n), Qc6Fans(n, paramCount + 2 * n, n));
    AppendAssoc(old(circuit.ops), PairRow(X, Z, paramCount, n) + Qc6Fans(n, paramCount + 2 * n, n), PairRow(X, Z, paramCount + 2 * n + (n - 1) * n, n));
  }

  /** A layer's counter advances by 2n + n(n-1) + 2n = n*n + 3n. */
  lemma Qc6Count(n: nat)
    ensures 0 <= (n - 1) * n
    ensures 2 * n + (n - 1) * n + 2 * n == n * n + 3 * n
  {
    if n > 0 {
      MulStep(n, n - 1, n);
    }
  }

  /** The middle loops of a `qc6_pqc` layer: a fan of n-1 controlled
      rotations from every qubit, counting symbols from paramCount. */
  method AppendQc6Fans(circuit: Circuit, n: nat, paramCount: nat) returns (next: nat)
    modifies circuit
    ensures circuit.ops == old(circuit.ops) + Qc6Fans(n, paramCount, n)
    ensures next == paramCount + (n - 1) * n
  {
    next := paramCount;
    if n == 0 {
      return;
    }
    for idx := 0 to n
      invariant next == Offset(paramCount, n - 1, idx)
      invariant circuit.ops == old(circuit.ops) + Qc6Fans(n, paramCount, idx)
    {
      assert Qc6FanBlock(n, paramCount)(idx) == Qc6Fan(n, idx, next, n - 1);
      AppendAssoc(old(circuit.ops), Qc6Fans(n, paramCount, idx), Qc6Fan(n, idx, next, n - 1));
      next := AppendQc6Fan(circuit, n, idx, next);
      MulStep(n - 1, idx, idx + 1);
    }
  }

  /** The inner loop: n-1 controlled rotations from the control of fan idx. */
  method AppendQc6Fan(circuit: Circuit, n: nat, idx: nat, paramCount: nat) returns (next: nat)
    requires n > 0
    modifies circuit
    ensures circuit.ops == old(circuit.ops) + Qc6Fan(n, idx, paramCount, n - 1)
    ensures next == paramCount + (n - 1)
  {
    next := paramCount;
    for idy := 0 to n - 1
      invariant next == paramCount + idy
      invariant circuit.ops == old(circuit.ops) + Qc6Fan(n, idx, paramCount, idy)
    {
      var g := CnotPow((n - 1 - idx) % n, (n - 2 - idx - idy) % n, next);
      assert Qc6Step(n, idx, paramCount)(idy) == [g];
      AppendAssoc(old(circuit.ops), Qc6Fan(n, idx, paramCount, idy), [g]);
      circuit.Append(g);
      next := next + 1;
    }
  }

  /** In fan idx the control is qubit n-1-idx, and step idy targets the
      qubit idy+1 places below it, wrapping around: never the control itself. */
  lemma Qc6Distinct(n: nat, idx: nat, idy: nat)
    requires idx < n && idy + 1 < n
    ensures Qc6Control(n, idx) == n - 1 - idx
    ensures Qc6Target(n, idx, idy) == if idx + idy + 2 <= n then n - 2 - idx - idy else 2 * n - 2 - idx - idy
    ensures Qc6Target(n, idx, idy) < n
    ensures Qc6Target(n, idx, idy) != Qc6Control(n, idx)
  {
    ModWrap(n - 1 - idx, n);
    ModWrap(n - 2 - idx - idy, n);
  }

  /** Every qubit other than the control of fan idx is the target of the
      step given here: each fan reaches all the other qubits. */
  lemma Qc6Covers(n: nat, idx: nat, q: nat) returns (idy: nat)
    requires idx < n && q < n && q != n - 1 - idx
    ensures idy + 1 < n
    ensures Qc6Target(n, idx, idy) == q
  {
    if q < n - 1 - idx {
      idy := n - 2 - idx - q;
    } else {
      idy := 2 * n - 2 - idx - q;
    }
    Qc6Distinct(n, idx, idy);
  }

  /** Two different steps of a fan target different qubits, so with
      `Qc6Covers` each other qubit is targeted exactly once per fan. */
  lemma Qc6TargetsDistinct(n: nat, idx: nat, a: nat, b: nat)
    requires idx < n && a + 1 < n && b + 1 < n && a != b
    ensures Qc6Target(n, idx, a) != Qc6Target(n, idx, b)
  {
    Qc6Distinct(n, idx, a);
    Qc6Distinct(n, idx, b);
  }

  lemma Qc6StepFacts(n: nat, idx: nat, base: nat, idy: nat)
    requires idx < n && idy + 1 < n
    ensures UsesSpanAt(Qc6Step(n, idx, base), base, 1, idy)
    ensures |Qc6Step(n, idx, base)(idy)| == 1
    ensures WellFormed(Qc6Step(n, idx, base)(idy), n)
  {
    var step := Qc6Step(n, idx, base)(idy);
    assert step == [CnotPow(Qc6Control(n, idx), Qc6Target(n, idx, idy), base + idy)];
    assert Collect(step, 1, GateParams) == [base + idy];
    Qc6Distinct(n, idx, idy);
  }

  /** A fan has n-1 gates, uses the n-1 symbols from its base in order and
      is well formed. */
  lemma Qc6FanFacts(n: nat, idx: nat, base: nat)
    requires idx < n
    ensures |Qc6Fan(n, idx, base, n - 1)| == n - 1
    ensures ParamUses(Qc6Fan(n, idx, base, n - 1)) == Span(base, n - 1)
    ensures WellFormed(Qc6Fan(n, idx, base, n - 1), n)
  {
    var step := Qc6Step(n, idx, base);
    forall idy | 0 <= idy < n - 1
      ensures UsesSpanAt(step, base, 1, idy)
      ensures |step(idy)| == 1
      ensures WellFormed(step(idy), n)
    {
      Qc6StepFacts(n, idx, base, idy);
    }
    RepeatLength(n - 1, step, 1);
    RepeatUses(n - 1, step, base, 1, n - 1);
    RepeatWellFormed(n - 1, step, n);
  }

  /** The fans have n(n-1) gates, use the n(n-1) symbols from base in order
      and are well formed. */
  lemma Qc6FansFacts(n: nat, base: nat)
    ensures 0 <= (n - 1) * n
    ensures |Qc6Fans(n, base, n)| == (n - 1) * n
    ensures ParamUses(Qc6Fans(n, base, n)) == Span(base, (n - 1) * n)
    ensures WellFormed(Qc6Fans(n, base, n), n)
  {
    Qc6Count(n);
    if n > 0 {
      var fan := Qc6FanBlock(n, base);
      forall idx | 0 <= idx < n
        ensures UsesSpanAt(fan, base, n - 1, idx)
        ensures |fan(idx)| == n - 1
        ensures WellFormed(fan(idx), n)
      {
        Qc6FanFacts(n, idx, Offset(base, n - 1, idx));
      }
      RepeatLength(n, fan, n - 1);
      RepeatUses(n, fan, base, n - 1, (n - 1) * n);
      RepeatWellFormed(n, fan, n);
    }
  }

  /** A layer of `qc6_pqc` has n*n + 3n gates, uses the n*n + 3n symbols
      from its base in order, and is well formed. */
  lemma Qc6LayerFacts(n: nat, base: nat)
    ensures |Qc6LayerOps(n, base)| == n * n + 3 * n
    ensures ParamUses(Qc6LayerOps(n, base)) == Span(base, n * n + 3 * n)
    ensures WellFormed(Qc6LayerOps(n, base), n)
  {
    var mid := (n - 1) * n;
    var first := PairRow(X, Z, base, n);
    var fans := Qc6Fans(n, base + 2 * n, n);
    var last := PairRow(X, Z, base + 2 * n + mid, n);
    Qc6Count(n);
    PairRowFacts(X, Z, base, n);
    Qc6FansFacts(n, base + 2 * n);
    PairRowFacts(X, Z, base + 2 * n + mid, n);
    ParamUsesConcat(first, fans);
    ParamUsesConcat(first + fans, last);
    SpanConcat(base, 2 * n, mid);
    SpanConcat(base, 2 * n + mid, 2 * n);
    WellFormedConcat(first, fans, n);
    WellFormedConcat(first + fans, last, n);
  }

  /** `qc6_pqc` appends (n*n + 3n)L gates, and its counter walks through the
      (n*n + 3n)L allocated symbols in order, ending exactly at the allocation. */
  lemma Qc6Uses(n: nat, layers: nat)
    ensures |Qc6Ops(n, layers)| == (n * n + 3 * n) * layers
    ensures ParamUses(Qc6Ops(n, layers)) == Span(0, (n * n + 3 * n) * layers)
  {
    Qc6LayersUses(n, layers);
  }

  /** The layers, each Qc6Width(n) symbols wide, read their symbols in order. */
  lemma Qc6LayersUses(n: nat, layers: nat)
    ensures |Qc6Ops(n, layers)| == Qc6Width(n) * layers
    ensures ParamUses(Qc6Ops(n, layers)) == Span(0, Qc6Width(n) * layers)
  {
    var layer := Qc6Layer(n);
    var width := Qc6Width(n);
    forall l | 0 <= l < layers
      ensures |layer(l)| == width
      ensures UsesSpanAt(layer, 0, width, l)
    {
      Qc6LayerFacts(n, width * l);
    }
    RepeatLength(layers, layer, width);
    RepeatUses(layers, layer, 0, width, width * layers);
  }

  /** Each symbol `qc6_pqc` allocates drives exactly one gate, and no other symbol is used. */
  lemma Qc6OnceEach(n: nat, layers: nat)
    ensures UsesEachOnce(Qc6Ops(n, layers), (n * n + 3 * n) * layers)
  {
    Qc6Uses(n, layers);
    InOrderUsesEachOnce(Qc6Ops(n, layers), (n * n + 3 * n) * layers);
  }

  /** `qc6_pqc` is well formed on every register size: a one-qubit register
      has no controlled rotation at all. */
  lemma Qc6WellFormed(n: nat, layers: nat)
    ensures WellFormed(Qc6Ops(n, layers), n)
  {
    var layer := Qc6Layer(n);
    forall l | 0 <= l < layers ensures WellFormed(layer(l), n) {
      Qc6LayerFacts(n, Qc6Width(n) * l);
    }
    RepeatWellFormed(layers, layer, n);
  }
}

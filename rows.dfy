/** The rows of single-qubit rotations and the CZ ring that the layered
    ansatz circuits repeat. */
module Rows {
  import opened Cirq
  import opened Blocks

  /** One rotation about axis on qubit i, by the symbol base + i. */
  function RotBlock(axis: Axis, base: nat): nat -> seq<Gate>
  {
    (i: nat) => [Rot(axis, i, Param(i + base))]
  }

  /** `for i, qubit in enumerate(qubits): circuit.append(r(params[i + base])(qubit))`,
      over the first count qubits. */
  function Row(axis: Axis, base: nat, count: nat): seq<Gate>
  {
    Repeat(count, RotBlock(axis, base))
  }

  /** The row loop: a rotation about axis on each of qubits 0..count-1. */
  method AppendRow(circuit: Circuit, axis: Axis, base: nat, count: nat)
    modifies circuit
    ensures circuit.ops == old(circuit.ops) + Row(axis, base, count)
  {
    for i := 0 to count
      invariant circuit.ops == old(circuit.ops) + Row(axis, base, i)
    {
      RowStep(axis, base, i);
      AppendAssoc(old(circuit.ops), Row(axis, base, i), [Rot(axis, i, Param(i + base))]);
      circuit.Append(Rot(axis, i, Param(i + base)));
    }
  }

  lemma RowStep(axis: Axis, base: nat, i: nat)
    ensures Row(axis, base, i + 1) == Row(axis, base, i) + [Rot(axis, i, Param(i + base))]
  {
    assert RotBlock(axis, base)(i) == [Rot(axis, i, Param(i + base))];
  }

  /** A row over count qubits has one rotation per qubit, uses the symbols
      base .. base+count-1 in qubit order and stays inside the register. */
  lemma RowFacts(axis: Axis, base: nat, count: nat)
    ensures |Row(axis, base, count)| == count
    ensures ParamUses(Row(axis, base, count)) == Span(base, count)
    ensures WellFormed(Row(axis, base, count), count)
  {
    var block := RotBlock(axis, base);
    forall i | 0 <= i < count
      ensures |block(i)| == 1
      ensures UsesSpanAt(block, base, 1, i)
      ensures WellFormed(block(i), count)
    {
      assert block(i) == [Rot(axis, i, Param(i + base))];
      assert Collect(block(i), 1, GateParams) == [i + base];
    }
    RepeatLength(count, block, 1);
    RepeatUses(count, block, base, 1, count);
    RepeatWellFormed(count, block, count);
  }

  /** Two rotations on qubit i, about a1 by symbol base + 2i and about a2 by
      symbol base + 2i + 1. */
  function PairBlock(a1: Axis, a2: Axis, base: nat): nat -> seq<Gate>
  {
    (i: nat) => [Rot(a1, i, Param(2 * i + base)), Rot(a2, i, Param(2 * i + 1 + base))]
  }

  /** The two-rotation row over the first count qubits. */
  function PairRow(a1: Axis, a2: Axis, base: nat, count: nat): seq<Gate>
  {
    Repeat(count, PairBlock(a1, a2, base))
  }

  /** The two-rotation row loop over qubits 0..count-1. */
  method AppendPairRow(circuit: Circuit, a1: Axis, a2: Axis, base: nat, count: nat)
    modifies circuit
    ensures circuit.ops == old(circuit.ops) + PairRow(a1, a2, base, count)
  {
    for i := 0 to count
      invariant circuit.ops == old(circuit.ops) + PairRow(a1, a2, base, i)
    {
      PairRowStep(a1, a2, base, i);
      var g1, g2 := Rot(a1, i, Param(2 * i + base)), Rot(a2, i, Param(2 * i + 1 + base));
      AppendAssoc(old(circuit.ops), PairRow(a1, a2, base, i), [g1, g2]);
      AppendAssoc(old(circuit.ops) + PairRow(a1, a2, base, i), [g1], [g2]);
      circuit.Append(g1);
      circuit.Append(g2);
    }
  }

  lemma PairRowStep(a1: Axis, a2: Axis, base: nat, i: nat)
    ensures PairRow(a1, a2, base, i + 1)
         == PairRow(a1, a2, base, i) + [Rot(a1, i, Param(2 * i + base)), Rot(a2, i, Param(2 * i + 1 + base))]
  {
    assert PairBlock(a1, a2, base)(i) == [Rot(a1, i, Param(2 * i + base)), Rot(a2, i, Param(2 * i + 1 + base))];
  }

  /** A two-rotation row has two gates per qubit, uses the 2*count symbols
      from base in order and stays inside the register. */
  lemma PairRowFacts(a1: Axis, a2: Axis, base: nat, count: nat)
    ensures |PairRow(a1, a2, base, count)| == 2 * count
    ensures ParamUses(PairRow(a1, a2, base, count)) == Span(base, 2 * count)
    ensures WellFormed(PairRow(a1, a2, base, count), count)
  {
    var block := PairBlock(a1, a2, base);
    forall i | 0 <= i < count
      ensures |block(i)| == 2
      ensures UsesSpanAt(block, base, 2, i)
      ensures WellFormed(block(i), count)
    {
      assert block(i) == [Rot(a1, i, Param(2 * i + base)), Rot(a2, i, Param(2 * i + 1 + base))];
      assert Collect(block(i), 1, GateParams) == [2 * i + base];
      assert ParamUses(block(i)) == [2 * i + base, 2 * i + 1 + base];
    }
    RepeatLength(count, block, 2);
    RepeatUses(count, block, base, 2, 2 * count);
    RepeatWellFormed(count, block, count);
  }

  /** The CZ of iteration i of the ring loop of `qc10_pqc`, `qc10_pqc_local`
      and `qc10P_pqc`: between qubits (n-2-i) % n and (n-1-i) % n. */
  function CzLink(n: nat): nat -> seq<Gate>
    requires n > 0
  {
    (i: nat) => [Cz((n - 2 - i) % n, (n - 1 - i) % n)]
  }

  /** The first count CZs of the ring loop on an n-qubit register. */
  function CzRing(n: nat, count: nat): seq<Gate>
  {
    if n == 0 then [] else Repeat(count, CzLink(n))
  }

  /** The ring loop `for i in range(n_qubits)` appending one CZ per step. */
  method AppendCzRing(circuit: Circuit, n: nat)
    modifies circuit
    ensures circuit.ops == old(circuit.ops) + CzRing(n, n)
  {
    for i := 0 to n
      invariant circuit.ops == old(circuit.ops) + CzRing(n, i)
    {
      CzRingStep(n, i);
      AppendAssoc(old(circuit.ops), CzRing(n, i), [Cz((n - 2 - i) % n, (n - 1 - i) % n)]);
      circuit.Append(Cz((n - 2 - i) % n, (n - 1 - i) % n));
    }
  }

  lemma CzRingStep(n: nat, i: nat)
    requires i < n
    ensures CzRing(n, i + 1) == CzRing(n, i) + [Cz((n - 2 - i) % n, (n - 1 - i) % n)]
  {
    assert CzLink(n)(i) == [Cz((n - 2 - i) % n, (n - 1 - i) % n)];
  }

  /** The ring walks down the register: the i-th CZ joins qubits n-2-i and
      n-1-i, and the last one closes the ring between qubits n-1 and 0. */
  lemma CzRingShape(n: nat, i: nat)
    requires i < n
    ensures |CzRing(n, n)| == n
    ensures CzRing(n, n)[i] == if i + 1 < n then Cz(n - 2 - i, n - 1 - i) else Cz(n - 1, 0)
  {
    var link := CzLink(n);
    forall j | 0 <= j < n ensures |link(j)| == 1 {
      assert link(j) == [Cz((n - 2 - j) % n, (n - 1 - j) % n)];
    }
    RepeatAt(n, link, 1, i);
    assert CzRing(n, n)[i] == CzRing(n, n)[i .. i + 1][0];
    assert link(i) == [Cz((n - 2 - i) % n, (n - 1 - i) % n)];
    ModWrap(n - 2 - i, n);
    ModWrap(n - 1 - i, n);
  }

  /** The ring uses no symbol and stays inside the register; it joins two
      different qubits at every step once the register has two qubits. */
  lemma CzRingFacts(n: nat)
    ensures ParamUses(CzRing(n, n)) == []
    ensures InRegister(CzRing(n, n), n)
    ensures n >= 2 ==> WellFormed(CzRing(n, n), n)
  {
    if n > 0 {
      var link := CzLink(n);
      forall i | 0 <= i < n
        ensures ParamUses(link(i)) == []
        ensures InRegister(link(i), n)
        ensures n >= 2 ==> WellFormed(link(i), n)
      {
        CzLinkFacts(n, i);
      }
      RepeatNoParams(n, link);
      RepeatInRegister(n, link, n);
      if n >= 2 {
        RepeatWellFormed(n, link, n);
      }
    }
  }

  lemma CzLinkFacts(n: nat, i: nat)
    requires i < n
    ensures ParamUses(CzLink(n)(i)) == []
    ensures InRegister(CzLink(n)(i), n)
    ensures n >= 2 ==> WellFormed(CzLink(n)(i), n)
  {
    var link := CzLink(n)(i);
    assert link == [Cz((n - 2 - i) % n, (n - 1 - i) % n)];
    assert Collect(link, 1, GateParams) == [];
    ModWrap(n - 2 - i, n);
    ModWrap(n - 1 - i, n);
  }

  /** On a single qubit the ring's only CZ acts on qubit 0 twice. */
  lemma CzRingClashOnOneQubit()
    ensures CzRing(1, 1) == [Cz(0, 0)]
    ensures !WellFormed(CzRing(1, 1), 1)
  {
    CzRingShape(1, 0);
    assert !Proper(CzRing(1, 1)[0]);
  }
}

/** The helper routines the ansatz circuits are assembled from: the U3
    decomposition, the ring entanglers and the two-qubit RY block. */
module Helpers {
  import opened Cirq
  import opened Blocks

  /** The five gates `U3(param0, param1, param2, circuit, qubit)` appends. */
  function U3Ops(p0: Angle, p1: Angle, p2: Angle, q: nat): seq<Gate>
  {
    [Rot(Z, q, p2), Rot(X, q, HalfPi), Rot(Z, q, p0), Rot(X, q, NegHalfPi), Rot(Z, q, p1)]
  }

  method U3(circuit: Circuit, p0: Angle, p1: Angle, p2: Angle, q: nat)
    modifies circuit
    ensures circuit.ops == old(circuit.ops) + U3Ops(p0, p1, p2, q)
  {
    circuit.Append(Rot(Z, q, p2));
    circuit.Append(Rot(X, q, HalfPi));
    circuit.Append(Rot(Z, q, p0));
    circuit.Append(Rot(X, q, NegHalfPi));
    circuit.Append(Rot(Z, q, p1));
  }

  /** A U3 on trainable symbols uses them in the order p2, p0, p1. */
  lemma U3Uses(k0: nat, k1: nat, k2: nat, q: nat)
    ensures |U3Ops(Param(k0), Param(k1), Param(k2), q)| == 5
    ensures ParamUses(U3Ops(Param(k0), Param(k1), Param(k2), q)) == [k2, k0, k1]
  {
    var ops := U3Ops(Param(k0), Param(k1), Param(k2), q);
    assert Collect(ops, 1, GateParams) == [k2];
    assert Collect(ops, 2, GateParams) == [k2];
    assert Collect(ops, 3, GateParams) == [k2, k0];
    assert Collect(ops, 4, GateParams) == [k2, k0];
  }

  /** A U3 acts on its one qubit only. */
  lemma U3WellFormed(p0: Angle, p1: Angle, p2: Angle, q: nat, n: nat)
    requires q < n
    ensures WellFormed(U3Ops(p0, p1, p2, q), n)
  {
  }

  /** The CNOT one iteration of a ring entangler appends: from qubit
      i % n to qubit (i + stride) % n. */
  function RingLink(n: nat, stride: nat): nat -> seq<Gate>
    requires n > 0
  {
    (i: nat) => [Cnot(i % n, (i + stride) % n)]
  }

  /** The first count CNOTs of `NN_entangler` (stride 1) or `NN2_entangler`
      (stride 2) on an n-qubit register. */
  function Ring(n: nat, stride: nat, count: nat): seq<Gate>
    requires count <= n
  {
    if count == 0 then [] else Repeat(count, RingLink(n, stride))
  }

  /** `NN_entangler`: a CNOT from every qubit to its successor on the ring. */
  method NnEntangler(circuit: Circuit, n: nat)
    modifies circuit
    ensures circuit.ops == old(circuit.ops) + Ring(n, 1, n)
  {
    for i := 0 to n
      invariant circuit.ops == old(circuit.ops) + Ring(n, 1, i)
    {
      RingStep(n, 1, i);
      AppendAssoc(old(circuit.ops), Ring(n, 1, i), [Cnot(i % n, (i + 1) % n)]);
      circuit.Append(Cnot(i % n, (i + 1) % n));
    }
  }

  /** `NN2_entangler`: a CNOT from every qubit to the qubit two places on. */
  method Nn2Entangler(circuit: Circuit, n: nat)
    modifies circuit
    ensures circuit.ops == old(circuit.ops) + Ring(n, 2, n)
  {
    for i := 0 to n
      invariant circuit.ops == old(circuit.ops) + Ring(n, 2, i)
    {
      RingStep(n, 2, i);
      AppendAssoc(old(circuit.ops), Ring(n, 2, i), [Cnot(i % n, (i + 2) % n)]);
      circuit.Append(Cnot(i % n, (i + 2) % n));
    }
  }

  /** One more iteration of the entangler loop appends one more CNOT. */
  lemma RingStep(n: nat, stride: nat, i: nat)
    requires i < n
    ensures Ring(n, stride, i + 1) == Ring(n, stride, i) + [Cnot(i % n, (i + stride) % n)]
  {
    assert RingLink(n, stride)(i) == [Cnot(i % n, (i + stride) % n)];
  }

  /** The ring has one CNOT per qubit. */
  lemma RingLength(n: nat, stride: nat)
    ensures |Ring(n, stride, n)| == n
  {
    if n > 0 {
      var link := RingLink(n, stride);
      forall i | 0 <= i < n ensures |link(i)| == 1 {
        assert link(i) == [Cnot(i % n, (i + stride) % n)];
      }
      RepeatLength(n, link, 1);
    }
  }

  /** The ring has one CNOT per qubit; the i-th runs from qubit i to the
      qubit stride places further on, wrapping past the last qubit. */
  lemma RingShape(n: nat, stride: nat, i: nat)
    requires stride <= n && i < n
    ensures |Ring(n, stride, n)| == n
    ensures Ring(n, stride, n)[i] == Cnot(i, if i + stride < n then i + stride else i + stride - n)
  {
    RepeatAt(n, RingLink(n, stride), 1, i);
    assert Ring(n, stride, n)[i] == Ring(n, stride, n)[i .. i + 1][0];
    ModWrap(i, n);
    ModWrap(i + stride, n);
  }

  /** The ring uses no symbol and stays inside the register, and its
      operands differ whenever the stride is shorter than the ring. */
  lemma RingWellFormed(n: nat, stride: nat)
    ensures ParamUses(Ring(n, stride, n)) == []
    ensures InRegister(Ring(n, stride, n), n)
    ensures 0 < stride < n ==> WellFormed(Ring(n, stride, n), n)
  {
    if n > 0 {
      var link := RingLink(n, stride);
      forall i | 0 <= i < n
        ensures ParamUses(link(i)) == []
        ensures InRegister(link(i), n)
        ensures 0 < stride < n ==> WellFormed(link(i), n)
      {
        RingLinkFacts(n, stride, i);
      }
      RepeatNoParams(n, link);
      RepeatInRegister(n, link, n);
      if 0 < stride < n {
        RepeatWellFormed(n, link, n);
      }
    }
  }

  lemma RingLinkFacts(n: nat, stride: nat, i: nat)
    requires i < n
    ensures ParamUses(RingLink(n, stride)(i)) == []
    ensures InRegister(RingLink(n, stride)(i), n)
    ensures 0 < stride < n ==> WellFormed(RingLink(n, stride)(i), n)
  {
    var link := RingLink(n, stride)(i);
    assert link == [Cnot(i % n, (i + stride) % n)];
    assert Collect(link, 1, GateParams) == [];
    ModWrap(i, n);
    if 0 < stride < n {
      ModWrap(i + stride, n);
    }
  }

  /** On two qubits the stride-2 ring sends every qubit to itself: the
      first CNOT of `NN2_entangler` has equal control and target. */
  lemma Nn2ClashOnTwoQubits()
    ensures Ring(2, 2, 2)[0] == Cnot(0, 0)
    ensures !WellFormed(Ring(2, 2, 2), 2)
  {
    RingShape(2, 2, 0);
    assert !Proper(Ring(2, 2, 2)[0]);
  }

  /** The three gates `two_qubit_ry(param0, param1, circuit, qubit0, qubit1)` appends. */
  function TwoQubitRyOps(p0: Angle, p1: Angle, q0: nat, q1: nat): seq<Gate>
  {
    [Rot(Y, q0, p0), Rot(Y, q1, p1), Cz(q0, q1)]
  }

  method TwoQubitRy(circuit: Circuit, p0: Angle, p1: Angle, q0: nat, q1: nat)
    modifies circuit
    ensures circuit.ops == old(circuit.ops) + TwoQubitRyOps(p0, p1, q0, q1)
  {
    circuit.Append(Rot(Y, q0, p0));
    circuit.Append(Rot(Y, q1, p1));
    circuit.Append(Cz(q0, q1));
  }

  /** The block uses its two symbols in order, rotations before the entangler. */
  lemma TwoQubitRyUses(k0: nat, k1: nat, q0: nat, q1: nat)
    ensures |TwoQubitRyOps(Param(k0), Param(k1), q0, q1)| == 3
    ensures ParamUses(TwoQubitRyOps(Param(k0), Param(k1), q0, q1)) == [k0, k1]
  {
    var ops := TwoQubitRyOps(Param(k0), Param(k1), q0, q1);
    assert Collect(ops, 1, GateParams) == [k0];
    assert Collect(ops, 2, GateParams) == [k0, k1];
  }

  /** The block is well formed on two different qubits of the register. */
  lemma TwoQubitRyWellFormed(p0: Angle, p1: Angle, q0: nat, q1: nat, n: nat)
    requires q0 < n && q1 < n && q0 != q1
    ensures WellFormed(TwoQubitRyOps(p0, p1, q0, q1), n)
  {
  }
}

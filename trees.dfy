/** The tensor-network circuits `TTN` (a binary tree of two-qubit RY
    blocks) and `MPS` (a chain of them), each closed by an RY on the last
    qubit.  Both assert that the register size is a multiple of 4. */
module Trees {
  import opened Cirq
  import opened Blocks
  import opened Helpers

  /** 2^k */
  function Pow2(k: nat): (r: nat)
    ensures r >= 1
  {
    if k == 0 then 1 else 2 * Pow2(k - 1)
  }

  /** `n // 2**j`, halving j times (flooring each time gives the same quotient). */
  function Halve(n: nat, j: nat): nat
  {
    if j == 0 then n else Halve(n, j - 1) / 2
  }

  /** `int(np.log2(n))` for n >= 1: the floor of the base-2 logarithm. */
  function Log2(n: nat): nat
  {
    if n <= 1 then 0 else 1 + Log2(n / 2)
  }

  predicate IsPow2(n: nat)
  {
    n > 0 && Pow2(Log2(n)) == n
  }

  /** The sizes `TTN` as written accepts: its assertion `n_qubits % 4 == 0`,
      and n > 0, since the logarithm of 0 cannot be turned into a layer count. */
  predicate TtnAdmitted(n: nat)
  {
    n % 4 == 0 && n > 0
  }

  /** The sizes on which the tree of `TTN` fits the register: a multiple of
      4 that is also a power of two. */
  predicate TtnSupported(n: nat)
  {
    n % 4 == 0 && IsPow2(n)
  }

  /** The distance between the blocks of layer l: `n_qubits // 2**(n_layers-layer-1)`. */
  function TtnStride(n: nat, levels: nat, l: nat): nat
    requires l < levels
  {
    Halve(n, levels - l - 1)
  }

  /** Block idx of layer l, whose symbols start at base: an RY pair on
      qubits idx*stride + 2^l - 1 and idx*stride + 2^(l+1) - 1. */
  function TtnBlock(n: nat, levels: nat, l: nat, base: nat): nat -> seq<Gate>
    requires l < levels
  {
    (idx: nat) => TwoQubitRyOps(Param(base + 2 * idx), Param(base + 2 * idx + 1),
                                idx * TtnStride(n, levels, l) + Pow2(l) - 1,
                                idx * TtnStride(n, levels, l) + Pow2(l + 1) - 1)
  }

  /** Layer l: `n_qubits // 2**(layer+1)` blocks. */
  function TtnLayer(n: nat, levels: nat, l: nat, base: nat): seq<Gate>
    requires l < levels
  {
    Repeat(Halve(n, l + 1), TtnBlock(n, levels, l, base))
  }

  /** The value of `param_count` when layer l starts. */
  function TtnBase(n: nat, l: nat): nat
  {
    if l == 0 then 0 else TtnBase(n, l - 1) + 2 * Halve(n, l)
  }

  /** The first count layers of the tree. */
  function TtnLayers(n: nat, levels: nat, count: nat): seq<Gate>
    requires count <= levels
  {
    if count == 0 then [] else TtnLayers(n, levels, count - 1) + TtnLayer(n, levels, count - 1, TtnBase(n, count - 1))
  }

  /** The gates `TTN` appends: the Log2(n) layers, then the closing RY on the last qubit. */
  function TtnOps(n: nat): seq<Gate>
    requires n > 0
  {
    TtnLayers(n, Log2(n), Log2(n)) + [Rot(Y, n - 1, Param(TtnBase(n, Log2(n))))]
  }

  /** `TTN`, refusing (and appending nothing) on a register it cannot build on. */
  method Ttn(circuit: Circuit, n: nat) returns (ok: bool)
    modifies circuit
    ensures ok <==> TtnSupported(n)
    ensures ok ==> circuit.ops == old(circuit.ops) + TtnOps(n)
    ensures !ok ==> circuit.ops == old(circuit.ops)
  {
    if !TtnSupported(n) {
      return false;
    }
    var levels := Log2(n);
    var paramCount := 0;
    for layer := 0 to levels
      invariant paramCount == TtnBase(n, layer)
      invariant circuit.ops == old(circuit.ops) + TtnLayers(n, levels, layer)
    {
      AppendAssoc(old(circuit.ops), TtnLayers(n, levels, layer), TtnLayer(n, levels, layer, paramCount));
      paramCount := AppendTtnLayer(circuit, n, levels, layer, paramCount);
    }
    circuit.Append(Rot(Y, n - 1, Param(paramCount)));
    AppendAssoc(old(circuit.ops), TtnLayers(n, levels, levels), [Rot(Y, n - 1, Param(paramCount))]);
    return true;
  }

  /** The body of the layer loop of `TTN`; returns `param_count` after it. */
  method AppendTtnLayer(circuit: Circuit, n: nat, levels: nat, layer: nat, paramCount: nat) returns (next: nat)
    requires layer < levels
    modifies circuit
    ensures circuit.ops == old(circuit.ops) + TtnLayer(n, levels, layer, paramCount)
    ensures next == paramCount + 2 * Halve(n, layer + 1)
  {
    next := paramCount;
    var gates := Halve(n, layer + 1);
    var stride := Halve(n, levels - layer - 1);
    for idx := 0 to gates
      invariant next == paramCount + 2 * idx
      invariant circuit.ops == old(circuit.ops) + Repeat(idx, TtnBlock(n, levels, layer, paramCount))
    {
      var q0 := idx * stride + Pow2(layer) - 1;
      var q1 := idx * stride + Pow2(layer + 1) - 1;
      var block := TwoQubitRyOps(Param(next), Param(next + 1), q0, q1);
      assert TtnBlock(n, levels, layer, paramCount)(idx) == block;
      AppendAssoc(old(circuit.ops), Repeat(idx, TtnBlock(n, levels, layer, paramCount)), block);
      TwoQubitRy(circuit, Param(next), Param(next + 1), q0, q1);
      next := next + 2;
    }
  }

  lemma {:induction false} Pow2Add(a: nat, b: nat)
    ensures Pow2(a + b) == Pow2(a) * Pow2(b)
  {
    if a > 0 {
      Pow2Add(a - 1, b);
    }
  }

  /** Halving 2^k j times leaves 2^(k-j). */
  lemma {:induction false} HalvePow2(k: nat, j: nat)
    requires j <= k
    ensures Halve(Pow2(k), j) == Pow2(k - j)
  {
    if j > 0 {
      HalvePow2(k, j - 1);
      assert Pow2(k - j + 1) == 2 * Pow2(k - j);
    }
  }

  lemma {:induction false} Log2Pow2(k: nat)
    ensures Log2(Pow2(k)) == k
  {
    if k > 0 {
      Log2Pow2(k - 1);
    }
  }

  /** On n = 2^k qubits, layer l has 2^(k-l-1) blocks spaced 2^(l+1)
      apart; block idx links qubit idx*2^(l+1) + 2^l - 1 to the qubit
      2^l further on, and both are qubits of the register. */
  lemma TtnShape(k: nat, l: nat, idx: nat)
    requires l < k && idx < Pow2(k - l - 1)
    ensures Halve(Pow2(k), l + 1) == Pow2(k - l - 1)
    ensures TtnStride(Pow2(k), k, l) == Pow2(l + 1)
    ensures idx * Pow2(l + 1) + Pow2(l) - 1 < idx * Pow2(l + 1) + Pow2(l + 1) - 1 < Pow2(k)
  {
    HalvePow2(k, l + 1);
    HalvePow2(k, k - l - 1);
    TtnQubits(k, l, idx);
  }

  lemma TtnQubits(k: nat, l: nat, idx: nat)
    requires l < k && idx < Pow2(k - l - 1)
    ensures idx * Pow2(l + 1) + Pow2(l) < idx * Pow2(l + 1) + Pow2(l + 1) <= Pow2(k)
  {
    var p := Pow2(l + 1);
    var m := Pow2(k - l - 1);
    assert p == 2 * Pow2(l);
    Pow2Add(k - l - 1, l + 1);
    assert k - l - 1 + (l + 1) == k;
    assert Pow2(k) == m * p;
    MulMono(p, idx + 1, m);
    MulStep(p, idx, idx + 1);
  }

  lemma TtnBlockFacts(k: nat, l: nat, base: nat, idx: nat)
    requires l < k && idx < Pow2(k - l - 1)
    ensures |TtnBlock(Pow2(k), k, l, base)(idx)| == 3
    ensures UsesSpanAt(TtnBlock(Pow2(k), k, l, base), base, 2, idx)
    ensures WellFormed(TtnBlock(Pow2(k), k, l, base)(idx), Pow2(k))
  {
    var n := Pow2(k);
    TtnShape(k, l, idx);
    var q0 := idx * Pow2(l + 1) + Pow2(l) - 1;
    var q1 := idx * Pow2(l + 1) + Pow2(l + 1) - 1;
    assert TtnBlock(n, k, l, base)(idx) == TwoQubitRyOps(Param(base + 2 * idx), Param(base + 2 * idx + 1), q0, q1);
    TwoQubitRyUses(base + 2 * idx, base + 2 * idx + 1, q0, q1);
    TwoQubitRyWellFormed(Param(base + 2 * idx), Param(base + 2 * idx + 1), q0, q1, n);
    assert Span(base + 2 * idx, 2) == [base + 2 * idx, base + 2 * idx + 1];
  }

  /** On n = 2^k qubits layer l has 2^(k-l-1) blocks, uses the next
      2^(k-l) symbols in order and is well formed. */
  lemma TtnLayerFacts(k: nat, l: nat, base: nat)
    requires l < k
    ensures |TtnLayer(Pow2(k), k, l, base)| == 3 * Halve(Pow2(k), l + 1)
    ensures ParamUses(TtnLayer(Pow2(k), k, l, base)) == Span(base, 2 * Halve(Pow2(k), l + 1))
    ensures WellFormed(TtnLayer(Pow2(k), k, l, base), Pow2(k))
  {
    var n := Pow2(k);
    var count := Pow2(k - l - 1);
    var block := TtnBlock(n, k, l, base);
    HalvePow2(k, l + 1);
    forall idx | 0 <= idx < count
      ensures |block(idx)| == 3
      ensures UsesSpanAt(block, base, 2, idx)
      ensures WellFormed(block(idx), n)
    {
      TtnBlockFacts(k, l, base, idx);
    }
    RepeatLength(count, block, 3);
    RepeatUses(count, block, base, 2, 2 * count);
    RepeatWellFormed(count, block, n);
  }

  /** On n = 2^k qubits, `param_count` starts layer l at 2n - 2^(k-l+1). */
  lemma {:induction false} TtnBaseValue(k: nat, l: nat)
    requires l <= k
    ensures TtnBase(Pow2(k), l) + 2 * Pow2(k - l) == 2 * Pow2(k)
  {
    if l > 0 {
      TtnBaseValue(k, l - 1);
      HalvePow2(k, l);
      assert Pow2(k - l + 1) == 2 * Pow2(k - l);
    }
  }

  /** The first count layers use the symbols 0 .. TtnBase - 1 in order and are well formed. */
  lemma {:induction false} TtnLayersFacts(k: nat, count: nat)
    requires count <= k
    ensures ParamUses(TtnLayers(Pow2(k), k, count)) == Span(0, TtnBase(Pow2(k), count))
    ensures WellFormed(TtnLayers(Pow2(k), k, count), Pow2(k))
  {
    if count > 0 {
      var n := Pow2(k);
      var l := count - 1;
      var base := TtnBase(n, l);
      var front := TtnLayers(n, k, l);
      var layer := TtnLayer(n, k, l, base);
      TtnLayersFacts(k, l);
      TtnLayerFacts(k, l, base);
      InOrderConcat(front, layer, base, 2 * Halve(n, count));
      WellFormedConcat(front, layer, n);
    }
  }

  /** Three gates for every two symbols: the first count layers have
      3/2 * TtnBase gates. */
  lemma {:induction false} TtnLayersLength(k: nat, count: nat)
    requires count <= k
    ensures 2 * |TtnLayers(Pow2(k), k, count)| == 3 * TtnBase(Pow2(k), count)
  {
    if count > 0 {
      var n := Pow2(k);
      var l := count - 1;
      TtnLayersLength(k, l);
      TtnLayerFacts(k, l, TtnBase(n, l));
    }
  }

  /** On a supported register `TTN` appends n - 1 blocks of three gates and
      the closing RY. */
  lemma TtnLength(n: nat)
    requires TtnSupported(n)
    ensures |TtnOps(n)| == 3 * (n - 1) + 1
  {
    var k := Log2(n);
    TtnLayersLength(k, k);
    TtnBaseValue(k, k);
  }

  /** On a supported register every gate of `TTN` addresses a qubit of the
      register, and every RY pair two different ones. */
  lemma TtnWellFormed(n: nat)
    requires TtnSupported(n)
    ensures WellFormed(TtnOps(n), n)
  {
    var k := Log2(n);
    TtnLayersFacts(k, k);
    WellFormedConcat(TtnLayers(n, k, k), [Rot(Y, n - 1, Param(TtnBase(n, k)))], n);
  }

  /** On a supported register the `param_count` of `TTN` walks through the
      2n - 1 symbols it allocates in order, the last one driving the closing RY. */
  lemma TtnUses(n: nat)
    requires TtnSupported(n)
    ensures ParamUses(TtnOps(n)) == Span(0, 2 * n - 1)
  {
    var k := Log2(n);
    var m := TtnBase(n, k);
    var last := [Rot(Y, n - 1, Param(m))];
    TtnLayersFacts(k, k);
    TtnBaseValue(k, k);
    assert m == 2 * n - 2;
    assert Collect(last, 1, GateParams) == [m];
    assert Span(m, 1) == [m];
    InOrderConcat(TtnLayers(n, k, k), last, m, 1);
  }

  /** Each symbol `TTN` allocates drives exactly one gate, and no other symbol is used. */
  lemma TtnOnceEach(n: nat)
    requires TtnSupported(n)
    ensures UsesEachOnce(TtnOps(n), 2 * n - 1)
  {
    TtnUses(n);
    InOrderUsesEachOnce(TtnOps(n), 2 * n - 1);
  }

  /** The assertion of `TTN` admits 12 qubits, but 12 is no power of two. */
  lemma TtnTwelveAdmitted()
    ensures Log2(12) == 3
    ensures TtnAdmitted(12) && !TtnSupported(12)
  {
    assert Log2(3) == 1;
    assert Log2(6) == 2;
    assert Pow2(3) == 8;
  }

  /** On 12 qubits layer 0 of `TTN` has six blocks spaced 12 // 4 = 3
      apart, and block 4 puts its RY pair on qubits 12 and 13 of the
      12-qubit register. */
  lemma TtnTwelve()
    ensures TtnAdmitted(12) && !TtnSupported(12)
    ensures TtnBlock(12, 3, 0, 0)(4) == TwoQubitRyOps(Param(8), Param(9), 12, 13)
    ensures !InRegister(TtnOps(12), 12)
  {
    TtnTwelveAdmitted();
    var block := TtnBlock(12, 3, 0, 0);
    assert Halve(12, 2) == 3;
    assert block(4) == TwoQubitRyOps(Param(8), Param(9), 12, 13);
    assert !Fits(block(4)[0], 12);
    OutOfRegisterConcat(Repeat(4, block), block(4), 12);
    OutOfRegisterConcat(Repeat(5, block), block(5), 12);
    assert Halve(12, 1) == 6;
    var first := TtnLayers(12, 3, 1);
    assert first == [] + Repeat(6, block);
    OutOfRegisterConcat([], Repeat(6, block), 12);
    var second := TtnLayers(12, 3, 2);
    assert second == first + TtnLayer(12, 3, 1, TtnBase(12, 1));
    OutOfRegisterConcat(first, TtnLayer(12, 3, 1, TtnBase(12, 1)), 12);
    var third := TtnLayers(12, 3, 3);
    assert third == second + TtnLayer(12, 3, 2, TtnBase(12, 2));
    OutOfRegisterConcat(second, TtnLayer(12, 3, 2, TtnBase(12, 2)), 12);
    assert TtnOps(12) == third + [Rot(Y, 11, Param(TtnBase(12, 3)))];
    OutOfRegisterConcat(third, [Rot(Y, 11, Param(TtnBase(12, 3)))], 12);
  }

  /** A layer whose last block ends inside the register fits it entirely,
      whatever the register size: the blocks move up by one stride each. */
  lemma TtnLayerWellFormed(n: nat, levels: nat, l: nat, base: nat, count: nat, stride: nat)
    requires l < levels && count == Halve(n, l + 1) && stride == TtnStride(n, levels, l)
    requires count > 0 ==> (count - 1) * stride + Pow2(l + 1) <= n
    ensures WellFormed(TtnLayer(n, levels, l, base), n)
  {
    var block := TtnBlock(n, levels, l, base);
    forall idx | 0 <= idx < count
      ensures WellFormed(block(idx), n)
    {
      TtnBlockFits(n, levels, l, base, idx);
    }
    RepeatWellFormed(count, block, n);
  }

  lemma TtnBlockFits(n: nat, levels: nat, l: nat, base: nat, idx: nat)
    requires l < levels && idx < Halve(n, l + 1)
    requires (Halve(n, l + 1) - 1) * TtnStride(n, levels, l) + Pow2(l + 1) <= n
    ensures WellFormed(TtnBlock(n, levels, l, base)(idx), n)
  {
    var stride := TtnStride(n, levels, l);
    var last := Halve(n, l + 1) - 1;
    var p := Pow2(l);
    assert Pow2(l + 1) == 2 * p;
    MulMono(stride, idx, last);
    var offset := idx * stride;
    assert offset <= last * stride;
    var q0 := offset + p - 1;
    var q1 := offset + 2 * p - 1;
    assert q0 < q1 < n;
    assert TtnBlock(n, levels, l, base)(idx) == TwoQubitRyOps(Param(base + 2 * idx), Param(base + 2 * idx + 1), q0, q1);
    TwoQubitRyWellFormed(Param(base + 2 * idx), Param(base + 2 * idx + 1), q0, q1, n);
  }

  /** A tree whose every layer fits the register fits it as a whole. */
  lemma {:induction false} TtnLayersWellFormed(n: nat, levels: nat, count: nat)
    requires count <= levels
    requires forall l :: 0 <= l < count ==> WellFormed(TtnLayer(n, levels, l, TtnBase(n, l)), n)
    ensures WellFormed(TtnLayers(n, levels, count), n)
  {
    if count > 0 {
      TtnLayersWellFormed(n, levels, count - 1);
      WellFormedConcat(TtnLayers(n, levels, count - 1), TtnLayer(n, levels, count - 1, TtnBase(n, count - 1)), n);
    }
  }

  /** 36 passes the assertion and is no power of two; `int(np.log2(36))` is
      5, and the five layers use 2 * (18 + 9 + 4 + 2 + 1) = 68 symbols. */
  lemma TtnThirtySixCounts()
    ensures TtnAdmitted(36) && !TtnSupported(36)
    ensures Log2(36) == 5
    ensures TtnBase(36, 5) == 68
    ensures Pow2(1) == 2 && Pow2(2) == 4 && Pow2(3) == 8 && Pow2(4) == 16 && Pow2(5) == 32
    ensures Halve(36, 0) == 36 && Halve(36, 1) == 18 && Halve(36, 2) == 9
    ensures Halve(36, 3) == 4 && Halve(36, 4) == 2 && Halve(36, 5) == 1
  {
    assert Log2(2) == 1 && Log2(4) == 2 && Log2(9) == 3 && Log2(18) == 4;
    assert Pow2(5) == 32;
    assert Halve(36, 1) == 18 && Halve(36, 2) == 9 && Halve(36, 3) == 4 && Halve(36, 4) == 2 && Halve(36, 5) == 1;
    assert TtnBase(36, 1) == 36 && TtnBase(36, 2) == 54 && TtnBase(36, 3) == 62 && TtnBase(36, 4) == 66;
  }

  /** Not every admitted size that is no power of two breaks the register:
      the tree on 36 qubits fits it, and its closing RY reads theta_68. */
  lemma TtnThirtySix(n: nat)
    requires n == 36
    ensures TtnAdmitted(n) && !TtnSupported(n)
    ensures WellFormed(TtnOps(n), n)
    ensures TtnOps(n)[|TtnOps(n)| - 1] == Rot(Y, n - 1, Param(68))
  {
    TtnThirtySixCounts();
    TtnThirtySixLayers(n);
    TtnOpsFromLayers(n, 5);
  }

  /** The closing RY reads the first symbol the layers leave over, and the
      tree fits the register as soon as its layers do. */
  lemma TtnOpsFromLayers(n: nat, levels: nat)
    requires n > 0 && levels == Log2(n)
    ensures TtnOps(n)[|TtnOps(n)| - 1] == Rot(Y, n - 1, Param(TtnBase(n, levels)))
    ensures WellFormed(TtnLayers(n, levels, levels), n) ==> WellFormed(TtnOps(n), n)
  {
    var last := [Rot(Y, n - 1, Param(TtnBase(n, levels)))];
    assert WellFormed(last, n);
    if WellFormed(TtnLayers(n, levels, levels), n) {
      WellFormedConcat(TtnLayers(n, levels, levels), last, n);
    }
  }

  /** The five layers of the 36-qubit tree together. */
  lemma TtnThirtySixLayers(n: nat)
    requires n == 36
    ensures WellFormed(TtnLayers(n, 5, 5), n)
  {
    forall l | 0 <= l < 5
      ensures WellFormed(TtnLayer(n, 5, l, TtnBase(n, l)), n)
    {
      TtnThirtySixLayer(n, l);
    }
    TtnLayersWellFormed(n, 5, 5);
  }

  /** Each of the five layers of the 36-qubit tree: 18, 9, 4, 2 and 1 blocks
      with strides 2, 4, 9, 18 and 36, the last block ending on qubit 35,
      35, 34, 33 and 31. */
  lemma TtnThirtySixLayer(n: nat, l: nat)
    requires n == 36 && l < 5
    ensures WellFormed(TtnLayer(n, 5, l, TtnBase(n, l)), n)
  {
    TtnThirtySixCounts();
    var base := TtnBase(n, l);
    if l == 0 {
      TtnLayerWellFormed(n, 5, 0, base, 18, 2);
    } else if l == 1 {
      TtnLayerWellFormed(n, 5, 1, base, 9, 4);
    } else if l == 2 {
      TtnLayerWellFormed(n, 5, 2, base, 4, 9);
    } else if l == 3 {
      TtnLayerWellFormed(n, 5, 3, base, 2, 18);
    } else {
      TtnLayerWellFormed(n, 5, 4, base, 1, 36);
    }
  }

  /** Block k of `MPS`: an RY pair on qubits k, k+1 with symbols 2k, 2k+1. */
  function MpsBlock(): nat -> seq<Gate>
  {
    (k: nat) => TwoQubitRyOps(Param(2 * k), Param(2 * k + 1), k, k + 1)
  }

  /** The sizes `MPS` accepts: its assertion `n_qubits % 4 == 0`, and n > 0,
      since on 0 qubits the closing RY has neither symbol nor qubit. */
  predicate MpsAdmitted(n: nat)
  {
    n % 4 == 0 && n > 0
  }

  /** The gates `MPS` appends: n-1 blocks down the chain, then the closing RY. */
  function MpsOps(n: nat): seq<Gate>
    requires n > 0
  {
    Repeat(n - 1, MpsBlock()) + [Rot(Y, n - 1, Param(2 * (n - 1)))]
  }

  /** `MPS`, refusing (and appending nothing) on a register it rejects. */
  method Mps(circuit: Circuit, n: nat) returns (ok: bool)
    modifies circuit
    ensures ok <==> MpsAdmitted(n)
    ensures ok ==> circuit.ops == old(circuit.ops) + MpsOps(n)
    ensures !ok ==> circuit.ops == old(circuit.ops)
  {
    if !MpsAdmitted(n) {
      return false;
    }
    var paramCount := 0;
    for layer := 0 to n - 1
      invariant paramCount == 2 * layer
      invariant circuit.ops == old(circuit.ops) + Repeat(layer, MpsBlock())
    {
      var block := TwoQubitRyOps(Param(paramCount), Param(paramCount + 1), layer, layer + 1);
      assert MpsBlock()(layer) == block;
      AppendAssoc(old(circuit.ops), Repeat(layer, MpsBlock()), block);
      TwoQubitRy(circuit, Param(paramCount), Param(paramCount + 1), layer, layer + 1);
      paramCount := paramCount + 2;
    }
    circuit.Append(Rot(Y, n - 1, Param(paramCount)));
    AppendAssoc(old(circuit.ops), Repeat(n - 1, MpsBlock()), [Rot(Y, n - 1, Param(paramCount))]);
    return true;
  }

  lemma MpsBlockFacts(n: nat, k: nat)
    requires k + 1 < n
    ensures |MpsBlock()(k)| == 3
    ensures UsesSpanAt(MpsBlock(), 0, 2, k)
    ensures WellFormed(MpsBlock()(k), n)
  {
    assert MpsBlock()(k) == TwoQubitRyOps(Param(2 * k), Param(2 * k + 1), k, k + 1);
    TwoQubitRyUses(2 * k, 2 * k + 1, k, k + 1);
    TwoQubitRyWellFormed(Param(2 * k), Param(2 * k + 1), k, k + 1, n);
    assert Span(2 * k, 2) == [2 * k, 2 * k + 1];
  }

  /** `MPS` appends 3(n-1) + 1 gates and is well formed. */
  lemma MpsWellFormed(n: nat)
    requires n > 0
    ensures |MpsOps(n)| == 3 * (n - 1) + 1
    ensures WellFormed(MpsOps(n), n)
  {
    var block := MpsBlock();
    forall k | 0 <= k < n - 1
      ensures |block(k)| == 3
      ensures WellFormed(block(k), n)
    {
      MpsBlockFacts(n, k);
    }
    RepeatLength(n - 1, block, 3);
    RepeatWellFormed(n - 1, block, n);
    WellFormedConcat(Repeat(n - 1, block), [Rot(Y, n - 1, Param(2 * (n - 1)))], n);
  }

  /** `MPS` walks through the 2n - 1 symbols it allocates in order, the
      last driving the closing RY. */
  lemma MpsUses(n: nat)
    requires n > 0
    ensures ParamUses(MpsOps(n)) == Span(0, 2 * n - 1)
  {
    var block := MpsBlock();
    forall k | 0 <= k < n - 1 ensures UsesSpanAt(block, 0, 2, k) {
      MpsBlockFacts(n, k);
    }
    var chain := Repeat(n - 1, block);
    var m := 2 * (n - 1);
    var last := [Rot(Y, n - 1, Param(m))];
    RepeatUses(n - 1, block, 0, 2, m);
    assert Collect(last, 1, GateParams) == [m];
    assert Span(m, 1) == [m];
    InOrderConcat(chain, last, m, 1);
  }

  /** Each symbol `MPS` allocates drives exactly one gate, and no other symbol is used. */
  lemma MpsOnceEach(n: nat)
    requires n > 0
    ensures UsesEachOnce(MpsOps(n), 2 * n - 1)
  {
    MpsUses(n);
    InOrderUsesEachOnce(MpsOps(n), 2 * n - 1);
  }
}

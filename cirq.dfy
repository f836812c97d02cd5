/** The part of the circuit library that the builders rely on: gates over a
    register whose qubits are the indices 0..n-1, rotation angles kept as
    symbols, and an append-only circuit object.  Parameter symbols
    `theta0 .. theta(N-1)` are identified by their index. */
module Cirq {

  /** Axis of the single-qubit rotations `rx`, `ry`, `rz`. */
  datatype Axis = X | Y | Z

  /** A rotation angle, never evaluated: the k-th trainable symbol `theta_k`,
      the k-th input symbol `x_k`, or one of the fixed angles pi/2, -pi/2, pi/4. */
  datatype Angle = Param(k: nat) | Input(k: nat) | HalfPi | NegHalfPi | QuarterPi

  /** Exponent of the Z-power gates of the ZZ feature map:
      `2*x_i`, or `2*(pi - x_i)*(pi - x_j)`. */
  datatype Phase = TwiceInput(i: nat) | ZzProduct(i: nat, j: nat)

  /** One operation on the register.  `CnotPow(c, t, k)` is the fractional
      gate `CNOT(c, t) ** (theta_k / pi)`. */
  datatype Gate =
    | Rot(axis: Axis, q: nat, angle: Angle)
    | H(q: nat)
    | ZPow(q: nat, phase: Phase)
    | Cnot(control: nat, target: nat)
    | Cz(left: nat, right: nat)
    | CnotPow(control: nat, target: nat, k: nat)

  /** Every operand of g is a qubit of an n-qubit register. */
  predicate Fits(g: Gate, n: nat)
  {
    match g
    case Rot(_, q, _) => q < n
    case H(q) => q < n
    case ZPow(q, _) => q < n
    case Cnot(c, t) => c < n && t < n
    case Cz(a, b) => a < n && b < n
    case CnotPow(c, t, _) => c < n && t < n
  }

  /** A two-qubit gate acts on two different qubits (the circuit library
      refuses a gate whose operands repeat). */
  predicate Proper(g: Gate)
  {
    match g
    case Cnot(c, t) => c != t
    case Cz(a, b) => a != b
    case CnotPow(c, t, _) => c != t
    case _ => true
  }

  /** Every gate of ops addresses only qubits 0..n-1. */
  predicate InRegister(ops: seq<Gate>, n: nat)
  {
    forall k :: 0 <= k < |ops| ==> Fits(ops[k], n)
  }

  /** Every gate of ops addresses only qubits 0..n-1, on distinct operands. */
  predicate WellFormed(ops: seq<Gate>, n: nat)
  {
    InRegister(ops, n) && forall k :: 0 <= k < |ops| ==> Proper(ops[k])
  }

  /** Every gate of ops satisfies p. */
  predicate All(ops: seq<Gate>, p: Gate -> bool)
  {
    forall k :: 0 <= k < |ops| ==> p(ops[k])
  }

  /** The trainable symbols a gate refers to. */
  function GateParams(g: Gate): seq<nat>
  {
    match g
    case Rot(_, _, a) => if a.Param? then [a.k] else []
    case CnotPow(_, _, k) => [k]
    case _ => []
  }

  /** f of each of the first i gates of ops, concatenated in gate order. */
  function Collect(ops: seq<Gate>, i: nat, f: Gate -> seq<nat>): seq<nat>
    requires i <= |ops|
  {
    if i == 0 then [] else Collect(ops, i - 1, f) + f(ops[i - 1])
  }

  /** The trainable symbols referenced by ops, in the order the gates use them. */
  function ParamUses(ops: seq<Gate>): seq<nat>
  {
    Collect(ops, |ops|, GateParams)
  }

  /** The indices start, start+1, ..., start+len-1: the symbols
      `sympy.symbols('theta:N')` allocates are Span(0, N). */
  function Span(start: nat, len: nat): seq<nat>
  {
    seq(len, j requires 0 <= j < len => start + j)
  }

  /** How many times x occurs in s. */
  function Occurrences(s: seq<nat>, x: nat): nat
  {
    if s == [] then 0 else Occurrences(s[..|s| - 1], x) + (if s[|s| - 1] == x then 1 else 0)
  }

  /** 1 when x is one of start .. start+len-1, and 0 otherwise. */
  function InSpan(x: nat, start: nat, len: nat): nat
  {
    if start <= x < start + len then 1 else 0
  }

  /** Every one of the `count` allocated symbols `theta0 .. theta(count-1)`
      is referenced exactly once, and no other symbol is referenced. */
  ghost predicate UsesEachOnce(ops: seq<Gate>, count: nat)
  {
    forall x: nat :: Occurrences(ParamUses(ops), x) == InSpan(x, 0, count)
  }

  /** The circuit under construction: an ordered, append-only list of gates. */
  class Circuit {
    var ops: seq<Gate>

    constructor ()
      ensures ops == []
    {
      ops := [];
    }

    /** `circuit.append(gate)` */
    method Append(g: Gate)
      modifies this
      ensures ops == old(ops) + [g]
    {
      ops := ops + [g];
    }
  }

  /** Appending in two steps appends the concatenation. */
  lemma AppendAssoc(a: seq<Gate>, b: seq<Gate>, c: seq<Gate>)
    ensures (a + b) + c == a + (b + c)
  {
  }

  lemma {:induction false} CollectAgree(s: seq<Gate>, t: seq<Gate>, i: nat, f: Gate -> seq<nat>)
    requires i <= |s| && i <= |t| && s[..i] == t[..i]
    ensures Collect(s, i, f) == Collect(t, i, f)
  {
    if i > 0 {
      assert s[i - 1] == s[..i][i - 1] == t[..i][i - 1] == t[i - 1];
      assert s[..i - 1] == s[..i][..i - 1];
      assert t[..i - 1] == t[..i][..i - 1];
      CollectAgree(s, t, i - 1, f);
    }
  }

  lemma {:induction false} CollectConcat(a: seq<Gate>, b: seq<Gate>, i: nat, f: Gate -> seq<nat>)
    requires i <= |b|
    ensures Collect(a + b, |a| + i, f) == Collect(a, |a|, f) + Collect(b, i, f)
  {
    if i == 0 {
      assert (a + b)[..|a|] == a[..|a|];
      CollectAgree(a + b, a, |a|, f);
    } else {
      CollectConcat(a, b, i - 1, f);
      assert (a + b)[|a| + i - 1] == b[i - 1];
    }
  }

  /** The symbols of a concatenation are those of its parts, in order. */
  lemma ParamUsesConcat(a: seq<Gate>, b: seq<Gate>)
    ensures ParamUses(a + b) == ParamUses(a) + ParamUses(b)
  {
    CollectConcat(a, b, |b|, GateParams);
  }

  lemma WellFormedConcat(a: seq<Gate>, b: seq<Gate>, n: nat)
    requires WellFormed(a, n) && WellFormed(b, n)
    ensures WellFormed(a + b, n)
  {
    forall k | 0 <= k < |a + b|
      ensures Fits((a + b)[k], n) && Proper((a + b)[k])
    {
      if k < |a| { assert (a + b)[k] == a[k]; } else { assert (a + b)[k] == b[k - |a|]; }
    }
  }

  lemma AllConcat(a: seq<Gate>, b: seq<Gate>, p: Gate -> bool)
    requires All(a, p) && All(b, p)
    ensures All(a + b, p)
  {
    forall k | 0 <= k < |a + b|
      ensures p((a + b)[k])
    {
      if k < |a| { assert (a + b)[k] == a[k]; } else { assert (a + b)[k] == b[k - |a|]; }
    }
  }

  /** A circuit that holds an ill-formed part is ill formed. */
  lemma IllFormedConcat(a: seq<Gate>, b: seq<Gate>, n: nat)
    requires !WellFormed(a, n) || !WellFormed(b, n)
    ensures !WellFormed(a + b, n)
  {
    if !WellFormed(a, n) {
      var k :| 0 <= k < |a| && !(Fits(a[k], n) && Proper(a[k]));
      assert (a + b)[k] == a[k];
    } else {
      var k :| 0 <= k < |b| && !(Fits(b[k], n) && Proper(b[k]));
      assert (a + b)[|a| + k] == b[k];
    }
  }

  /** A circuit that holds a gate outside the register leaves the register. */
  lemma OutOfRegisterConcat(a: seq<Gate>, b: seq<Gate>, n: nat)
    requires !InRegister(a, n) || !InRegister(b, n)
    ensures !InRegister(a + b, n)
  {
    if !InRegister(a, n) {
      var k :| 0 <= k < |a| && !Fits(a[k], n);
      assert (a + b)[k] == a[k];
    } else {
      var k :| 0 <= k < |b| && !Fits(b[k], n);
      assert (a + b)[|a| + k] == b[k];
    }
  }

  lemma InRegisterConcat(a: seq<Gate>, b: seq<Gate>, n: nat)
    requires InRegister(a, n) && InRegister(b, n)
    ensures InRegister(a + b, n)
  {
    forall k | 0 <= k < |a + b|
      ensures Fits((a + b)[k], n)
    {
      if k < |a| { assert (a + b)[k] == a[k]; } else { assert (a + b)[k] == b[k - |a|]; }
    }
  }

  /** Two adjacent spans join into one. */
  lemma SpanConcat(start: nat, k: nat, m: nat)
    ensures Span(start, k) + Span(start + k, m) == Span(start, k + m)
  {
    var s := Span(start, k) + Span(start + k, m);
    forall j | 0 <= j < k + m ensures s[j] == start + j {
      if j < k { assert s[j] == Span(start, k)[j]; } else { assert s[j] == Span(start + k, m)[j - k]; }
    }
  }

  /** Symbols used in order by two circuits in a row are used in order by both. */
  lemma InOrderConcat(a: seq<Gate>, b: seq<Gate>, base: nat, width: nat)
    requires ParamUses(a) == Span(0, base) && ParamUses(b) == Span(base, width)
    ensures ParamUses(a + b) == Span(0, base + width)
  {
    ParamUsesConcat(a, b);
    SpanConcat(0, base, width);
  }

  lemma {:induction false} OccurrencesConcat(a: seq<nat>, b: seq<nat>, x: nat)
    ensures Occurrences(a + b, x) == Occurrences(a, x) + Occurrences(b, x)
    decreases |b|
  {
    if b == [] {
      assert a + b == a;
    } else {
      var c := a + b;
      assert c[..|c| - 1] == a + b[..|b| - 1];
      OccurrencesConcat(a, b[..|b| - 1], x);
    }
  }

  lemma OccurrencesOne(y: nat, x: nat)
    ensures Occurrences([y], x) == if y == x then 1 else 0
  {
    assert [y][..0] == [];
  }

  /** A span holds each of its indices exactly once and nothing else. */
  lemma {:induction false} SpanOccurrences(start: nat, len: nat, x: nat)
    ensures Occurrences(Span(start, len), x) == InSpan(x, start, len)
  {
    if len > 0 {
      var s := Span(start, len);
      assert s[..len - 1] == Span(start, len - 1);
      SpanOccurrences(start, len - 1, x);
    }
  }

  /** Consuming the allocated symbols in allocation order uses each exactly once. */
  lemma InOrderUsesEachOnce(ops: seq<Gate>, count: nat)
    requires ParamUses(ops) == Span(0, count)
    ensures UsesEachOnce(ops, count)
  {
    forall x: nat ensures Occurrences(ParamUses(ops), x) == InSpan(x, 0, count) {
      SpanOccurrences(0, count, x);
    }
  }

  /** Python's and Dafny's `%` agree for a positive modulus: an index less
      than one register length outside 0..n-1 wraps around once. */
  lemma ModWrap(x: int, n: nat)
    requires -(n as int) <= x < 2 * n
    ensures x % n == if x < 0 then x + n else if x < n then x else x - n
  {
  }
}

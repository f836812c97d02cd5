/** The loop shape every builder uses: `for i in range(count)` appending a
    block of gates that depends on i.  The facts about the gates such a loop
    appends are proved here once, for any block. */
module Blocks {
  import opened Cirq

  /** The gates appended by a loop over i in [0, count) whose body appends block(i). */
  function Repeat(count: nat, block: nat -> seq<Gate>): seq<Gate>
  {
    if count == 0 then [] else Repeat(count - 1, block) + block(count - 1)
  }

  /** Each of the first count blocks has exactly width gates. */
  ghost predicate Uniform(block: nat -> seq<Gate>, width: nat, count: nat)
  {
    forall i {:trigger block(i)} :: 0 <= i < count ==> |block(i)| == width
  }

  lemma {:induction false} RepeatLength(count: nat, block: nat -> seq<Gate>, width: nat)
    requires Uniform(block, width, count)
    ensures |Repeat(count, block)| == width * count
  {
    if count > 0 {
      RepeatLength(count - 1, block, width);
      MulStep(width, count - 1, count);
    }
  }

  /** Stopping the loop earlier appends a prefix of the same gates. */
  lemma {:induction false} RepeatPrefix(m: nat, count: nat, block: nat -> seq<Gate>)
    requires m <= count
    ensures Repeat(m, block) <= Repeat(count, block)
    decreases count
  {
    if m < count {
      RepeatPrefix(m, count - 1, block);
    }
  }

  /** Loops whose bodies agree on every iteration they run append the same gates. */
  lemma {:induction false} RepeatAgree(count: nat, f: nat -> seq<Gate>, g: nat -> seq<Gate>)
    requires forall i {:trigger f(i)} :: 0 <= i < count ==> f(i) == g(i)
    ensures Repeat(count, f) == Repeat(count, g)
  {
    if count > 0 {
      RepeatAgree(count - 1, f, g);
      assert f(count - 1) == g(count - 1);
    }
  }

  lemma MulMono(w: nat, a: nat, b: nat)
    requires a <= b
    ensures w * a <= w * b
  {
  }

  /** The gates of iteration i occupy positions width*i .. width*i + width - 1. */
  lemma RepeatAt(count: nat, block: nat -> seq<Gate>, width: nat, i: nat)
    requires Uniform(block, width, count) && i < count
    ensures |Repeat(count, block)| == width * count
    ensures width * i + width <= width * count
    ensures Repeat(count, block)[width * i .. width * i + width] == block(i)
  {
    RepeatLength(count, block, width);
    RepeatLength(i, block, width);
    RepeatPrefix(i + 1, count, block);
    MulStep(width, i, i + 1);
    MulMono(width, i + 1, count);
    var r := Repeat(count, block);
    var pre := Repeat(i + 1, block);
    assert r[..|pre|] == pre;
    assert r[width * i .. width * i + width] == pre[width * i ..];
  }

  /** A loop whose every block stays inside the register, on distinct
      operands, appends a well-formed circuit. */
  lemma {:induction false} RepeatWellFormed(count: nat, block: nat -> seq<Gate>, n: nat)
    requires forall i {:trigger block(i)} :: 0 <= i < count ==> WellFormed(block(i), n)
    ensures WellFormed(Repeat(count, block), n)
  {
    if count > 0 {
      RepeatWellFormed(count - 1, block, n);
      WellFormedConcat(Repeat(count - 1, block), block(count - 1), n);
    }
  }

  lemma {:induction false} RepeatInRegister(count: nat, block: nat -> seq<Gate>, n: nat)
    requires forall i {:trigger block(i)} :: 0 <= i < count ==> InRegister(block(i), n)
    ensures InRegister(Repeat(count, block), n)
  {
    if count > 0 {
      RepeatInRegister(count - 1, block, n);
      InRegisterConcat(Repeat(count - 1, block), block(count - 1), n);
    }
  }

  lemma {:induction false} RepeatAll(count: nat, block: nat -> seq<Gate>, p: Gate -> bool)
    requires forall i {:trigger block(i)} :: 0 <= i < count ==> All(block(i), p)
    ensures All(Repeat(count, block), p)
  {
    if count > 0 {
      RepeatAll(count - 1, block, p);
      AllConcat(Repeat(count - 1, block), block(count - 1), p);
    }
  }

  /** A loop whose blocks carry no trainable symbol references none. */
  lemma {:induction false} RepeatNoParams(count: nat, block: nat -> seq<Gate>)
    requires forall i {:trigger block(i)} :: 0 <= i < count ==> ParamUses(block(i)) == []
    ensures ParamUses(Repeat(count, block)) == []
  {
    if count > 0 {
      RepeatNoParams(count - 1, block);
      ParamUsesConcat(Repeat(count - 1, block), block(count - 1));
    }
  }

  /** The first symbol of the i-th of a run of blocks that use width symbols each. */
  function Offset(base: nat, width: nat, i: nat): nat
  {
    base + width * i
  }

  lemma MulStep(w: nat, m: nat, count: nat)
    requires count == m + 1
    ensures 0 <= w * m
    ensures w * m + w == w * count
  {
  }

  /** Block i uses, in order, the width symbols from base + width*i. */
  ghost predicate UsesSpanAt(block: nat -> seq<Gate>, base: nat, width: nat, i: nat)
  {
    ParamUses(block(i)) == Span(Offset(base, width, i), width)
  }

  /** Block i uses x once if x is one of the width symbols from
      base + width*i, and not at all otherwise. */
  ghost predicate CountAt(block: nat -> seq<Gate>, base: nat, width: nat, i: nat, x: nat)
  {
    Occurrences(ParamUses(block(i)), x) == InSpan(x, Offset(base, width, i), width)
  }

  /** A loop whose i-th block uses the next width symbols in order, starting
      from base + width*i, uses the span of the total = width*count symbols
      from base. */
  lemma {:induction false} RepeatUses(count: nat, block: nat -> seq<Gate>, base: nat, width: nat, total: nat)
    requires total == width * count
    requires forall i :: 0 <= i < count ==> UsesSpanAt(block, base, width, i)
    ensures ParamUses(Repeat(count, block)) == Span(base, total)
  {
    if count > 0 {
      var m := count - 1;
      MulStep(width, m, count);
      RepeatUses(m, block, base, width, total - width);
      assert UsesSpanAt(block, base, width, m);
      ParamUsesConcat(Repeat(m, block), block(m));
      SpanConcat(base, total - width, width);
    }
  }

  /** As RepeatUses, for blocks that use their symbols in some order: the
      loop uses each symbol of the span exactly once, and no other. */
  lemma {:induction false} RepeatOnce(count: nat, block: nat -> seq<Gate>, base: nat, width: nat, total: nat, x: nat)
    requires total == width * count
    requires forall i :: 0 <= i < count ==> CountAt(block, base, width, i, x)
    ensures Occurrences(ParamUses(Repeat(count, block)), x) == InSpan(x, base, total)
  {
    if count > 0 {
      var m := count - 1;
      MulStep(width, m, count);
      RepeatOnce(m, block, base, width, total - width, x);
      assert CountAt(block, base, width, m, x);
      assert Repeat(count, block) == Repeat(m, block) + block(m);
      OnceConcat(Repeat(m, block), block(m), base, total - width, width, x);
    }
  }

  lemma OnceConcat(a: seq<Gate>, b: seq<Gate>, base: nat, front: nat, back: nat, x: nat)
    requires Occurrences(ParamUses(a), x) == InSpan(x, base, front)
    requires Occurrences(ParamUses(b), x) == InSpan(x, base + front, back)
    ensures Occurrences(ParamUses(a + b), x) == InSpan(x, base, front + back)
  {
    ParamUsesConcat(a, b);
    OccurrencesConcat(ParamUses(a), ParamUses(b), x);
  }
}

/** The readout helpers: the observables a model measures, on an n-qubit register. */
module Measure {

  /** The observable `cirq.Z(qubit)`. */
  datatype Observable = PauliZ(q: nat)

  /** `measure_all(qubits, n_measurements)`: Z on qubits 0 .. m-1.  Indexing
      past the register fails, so m may not exceed n. */
  function MeasureAll(n: nat, m: nat): (r: seq<Observable>)
    requires m <= n
    ensures |r| == m
    ensures forall i :: 0 <= i < m ==> r[i].q == i && r[i].q < n
  {
    seq(m, i requires 0 <= i < m => PauliZ(i))
  }

  /** `measure_last(qubits, n_measurements)`: Z on the last qubit, a single
      observable whatever n_measurements says.  An empty register has no
      last qubit. */
  function MeasureLast(n: nat): (r: Observable)
    requires n >= 1
    ensures r.q < n && r.q + 1 == n
  {
    PauliZ(n - 1)
  }

  /** `measure_all` measures m different qubits of the register, the i-th on qubit i. */
  lemma MeasureAllDistinct(n: nat, m: nat)
    requires m <= n
    ensures |MeasureAll(n, m)| == m
    ensures forall i :: 0 <= i < m ==> MeasureAll(n, m)[i].q == i < n
    ensures forall i, j :: 0 <= i < j < m ==> MeasureAll(n, m)[i] != MeasureAll(n, m)[j]
  {
  }

  /** Measuring fewer qubits reads a prefix of the observables. */
  lemma MeasureAllPrefix(n: nat, m: nat, k: nat)
    requires k <= m <= n
    ensures MeasureAll(n, k) == MeasureAll(n, m)[..k]
  {
  }

  /** `measure_last` reads the observable `measure_all` reads last on the
      whole register. */
  lemma MeasureLastOfAll(n: nat)
    requires n >= 1
    ensures MeasureLast(n) == MeasureAll(n, n)[n - 1]
    ensures MeasureLast(n) in MeasureAll(n, n)
  {
  }
}

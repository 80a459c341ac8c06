// The velocity pass as the arithmetic of numpy float arrays actually runs it
// when two bodies share a position. Dividing a float64 array by a zero float64
// does not raise ZeroDivisionError: the unit vector becomes 0/0 = NaN in every
// component and the strength G*m/0 becomes infinite. The handler meant to skip
// the pair therefore never runs. NaN then absorbs every later addition, and
// `norm(NaN) > max_force` is false, so the clamp never removes it either.

module NumpyDivision {
  import opened Vectors
  import opened Physics

  /** A float64 3-vector of the accumulator: finite, or NaN in every component. */
  datatype Reading = Finite(v: Vec3) | NaN

  /** One pair as the unguarded float arithmetic performs it. */
  function PairStepAsWritten(cfg: Config, f: Reading, pc: Vec3, po: Vec3, m: real): Reading
    requires cfg.Valid()
  {
    match f
    case NaN => NaN
    case Finite(v) => if pc == po then NaN else Finite(PairStep(cfg, v, pc, po, m))
  }

  /** The inner loop of the velocity pass over bodies 0 .. n-1, as written. */
  function AccumulateAsWritten(cfg: Config, ps: seq<Vec3>, ms: seq<real>, i: nat, n: nat): Reading
    requires cfg.Valid()
    requires |ps| == |ms| && i < |ps| && n <= |ps|
    decreases n
  {
    if n == 0 then
      Finite(Zero)
    else if n - 1 == i then
      AccumulateAsWritten(cfg, ps, ms, i, n - 1)
    else
      PairStepAsWritten(cfg, AccumulateAsWritten(cfg, ps, ms, i, n - 1), ps[i], ps[n - 1], ms[n - 1])
  }

  /** Once the accumulator is NaN, the rest of the inner loop keeps it NaN. */
  lemma {:induction false} NaNAbsorbs(cfg: Config, ps: seq<Vec3>, ms: seq<real>, i: nat, k: nat, n: nat)
    requires cfg.Valid()
    requires |ps| == |ms| && i < |ps| && k <= n <= |ps|
    requires AccumulateAsWritten(cfg, ps, ms, i, k) == NaN
    ensures AccumulateAsWritten(cfg, ps, ms, i, n) == NaN
    decreases n
  {
    if n > k {
      NaNAbsorbs(cfg, ps, ms, i, k, n - 1);
    }
  }

  /**
   * As written, one other body at the same position as body i makes body i's
   * increment NaN, instead of leaving that pair out.
   */
  lemma {:induction false} AsWrittenCoincidentPoisons(cfg: Config, ps: seq<Vec3>, ms: seq<real>, i: nat, j: nat)
    requires cfg.Valid()
    requires |ps| == |ms| && i < |ps| && j < |ps|
    requires j != i && ps[j] == ps[i]
    ensures AccumulateAsWritten(cfg, ps, ms, i, |ps|) == NaN
  {
    assert AccumulateAsWritten(cfg, ps, ms, i, j + 1) == NaN;
    NaNAbsorbs(cfg, ps, ms, i, j + 1, |ps|);
  }

  /** Away from coincident positions the as-written pass and the model agree. */
  lemma {:induction false} AsWrittenAgreesWhenApart(cfg: Config, ps: seq<Vec3>, ms: seq<real>, i: nat, n: nat)
    requires cfg.Valid()
    requires |ps| == |ms| && i < |ps| && n <= |ps|
    requires forall j :: 0 <= j < n && j != i ==> ps[j] != ps[i]
    ensures AccumulateAsWritten(cfg, ps, ms, i, n) == Finite(Accumulate(cfg, ps, ms, i, n))
    decreases n
  {
    if n > 0 {
      AsWrittenAgreesWhenApart(cfg, ps, ms, i, n - 1);
    }
  }

  /**
   * The smallest instance: two bodies at the same place. As written, body 0
   * receives NaN; with the pair skipped it receives nothing.
   */
  lemma CoincidentPairCounterexample(cfg: Config, p: Vec3)
    requires cfg.Valid()
    ensures AccumulateAsWritten(cfg, [p, p], [1.0, 1.0], 0, 2) == NaN
    ensures NetForce(cfg, [p, p], [1.0, 1.0], 0) == Zero
  {
    AsWrittenCoincidentPoisons(cfg, [p, p], [1.0, 1.0], 0, 1);
    AllCoincidentGivesZero(cfg, [p, p], [1.0, 1.0], 0, 2);
  }
}

// The integrator: one step first adds to every body's velocity the clamped,
// time-step-scaled gravitational pull of all the other bodies, computed from
// the positions at the start of the step, and then moves every body.

module Physics {
  import opened Vectors
  import opened Bodies

  /**
   * The simulation constants: the gravitational constant, the time step, the
   * cap on the velocity increment, and the square root the norms are taken with.
   */
  datatype Config = Config(g: real, timeStep: real, maxForce: real, sqrt: real -> real) {
    ghost predicate Valid() {
      0.0 < g && 0.0 < timeStep && 0.0 < maxForce && IsSqrt(sqrt)
    }
  }

  // ---------------------------------------------------------------------------
  // Specification of one velocity pass, over the positions and masses as values

  /** The distance between the bodies at pc and po (`radius`). */
  function Radius(cfg: Config, pc: Vec3, po: Vec3): real {
    Norm(cfg.sqrt, Sub(pc, po))
  }

  /** The unit vector pointing from pc towards po (`r_hat`). */
  function Direction(cfg: Config, pc: Vec3, po: Vec3): Vec3
    requires cfg.Valid()
    requires pc != po
  {
    Distance(cfg.sqrt, pc, po);
    Scale(Sub(po, pc), 1.0 / Norm(cfg.sqrt, Sub(po, pc)))
  }

  /** G * m / radius^2 for the distance between pc and po (`force_norm`). */
  function Strength(cfg: Config, pc: Vec3, po: Vec3, m: real): real
    requires cfg.Valid()
    requires pc != po
  {
    Distance(cfg.sqrt, pc, po);
    SquareNonNeg(Radius(cfg, pc, po));
    (cfg.g * m) / (Radius(cfg, pc, po) * Radius(cfg, pc, po))
  }

  /** The increment one pair contributes: r_hat * force_norm * time_step. */
  function PairTerm(cfg: Config, pc: Vec3, po: Vec3, m: real): Vec3
    requires cfg.Valid()
    requires pc != po
  {
    Scale(Scale(Direction(cfg, pc, po), Strength(cfg, pc, po, m)), cfg.timeStep)
  }

  /** Rescales `f` to length maxForce when it is longer than that. */
  function Clamp(cfg: Config, f: Vec3): Vec3
    requires cfg.Valid()
  {
    if Norm(cfg.sqrt, f) > cfg.maxForce then
      Scale(Scale(f, 1.0 / Norm(cfg.sqrt, f)), cfg.maxForce)
    else
      f
  }

  /**
   * What one pair does to the accumulator `f` of the body at pc: nothing when
   * the other body sits at the very same place (the division by a zero radius
   * is skipped), otherwise the pair's term is added and the sum re-clamped.
   */
  function PairStep(cfg: Config, f: Vec3, pc: Vec3, po: Vec3, m: real): Vec3
    requires cfg.Valid()
  {
    if pc == po then f else Clamp(cfg, Add(f, PairTerm(cfg, pc, po, m)))
  }

  /**
   * The accumulator of body i after the inner loop has looked at bodies 0 .. n-1,
   * body i itself being skipped.
   */
  function Accumulate(cfg: Config, ps: seq<Vec3>, ms: seq<real>, i: nat, n: nat): Vec3
    requires cfg.Valid()
    requires |ps| == |ms| && i < |ps| && n <= |ps|
    decreases n
  {
    if n == 0 then
      Zero
    else if n - 1 == i then
      Accumulate(cfg, ps, ms, i, n - 1)
    else
      PairStep(cfg, Accumulate(cfg, ps, ms, i, n - 1), ps[i], ps[n - 1], ms[n - 1])
  }

  /** The velocity increment body i receives in one pass. */
  function NetForce(cfg: Config, ps: seq<Vec3>, ms: seq<real>, i: nat): Vec3
    requires cfg.Valid()
    requires |ps| == |ms| && i < |ps|
  {
    Accumulate(cfg, ps, ms, i, |ps|)
  }

  // ---------------------------------------------------------------------------
  // Properties of the specification

  /**
   * The clamp never yields a vector longer than maxForce, leaves shorter ones
   * alone and keeps the direction of longer ones.
   */
  lemma ClampProperties(cfg: Config, f: Vec3)
    requires cfg.Valid()
    ensures Norm(cfg.sqrt, Clamp(cfg, f)) <= cfg.maxForce
    ensures Norm(cfg.sqrt, f) <= cfg.maxForce ==> Clamp(cfg, f) == f
    ensures Norm(cfg.sqrt, f) > cfg.maxForce ==>
              Norm(cfg.sqrt, Clamp(cfg, f)) == cfg.maxForce &&
              exists c: real :: 0.0 < c && Clamp(cfg, f) == Scale(f, c)
  {
    var n := Norm(cfg.sqrt, f);
    if n > cfg.maxForce {
      var u := Scale(f, 1.0 / n);
      NormScale(cfg.sqrt, f, 1.0 / n);
      assert Norm(cfg.sqrt, u) == 1.0;
      NormScale(cfg.sqrt, u, cfg.maxForce);
      assert Clamp(cfg, f) == Scale(u, cfg.maxForce);
      ScaleTwice(Clamp(cfg, f), f, 1.0 / n, cfg.maxForce);
      PositiveProduct(1.0 / n, cfg.maxForce);
    }
  }

  /**
   * The term of a pair has length G * m / radius^2 * timeStep, for the radius
   * between the two bodies: an inverse-square law.
   */
  lemma {:induction false} PairTermInverseSquare(cfg: Config, pc: Vec3, po: Vec3, m: real)
    requires cfg.Valid()
    requires pc != po && 0.0 <= m
    ensures var radius := Norm(cfg.sqrt, Sub(po, pc));
            0.0 < radius &&
            Norm(cfg.sqrt, PairTerm(cfg, pc, po, m)) == cfg.g * m / (radius * radius) * cfg.timeStep
  {
    var radius := Norm(cfg.sqrt, Sub(po, pc));
    Distance(cfg.sqrt, pc, po);
    Distance(cfg.sqrt, po, pc);
    var rHat := Direction(cfg, pc, po);
    assert rHat == Scale(Sub(po, pc), 1.0 / radius);
    NormScale(cfg.sqrt, Sub(po, pc), 1.0 / radius);
    assert Norm(cfg.sqrt, rHat) == 1.0;
    var forceNorm := Strength(cfg, pc, po, m);
    assert forceNorm == cfg.g * m / (radius * radius);
    NonNegQuotient(cfg.g * m, radius * radius);
    NormScale(cfg.sqrt, rHat, forceNorm);
    NormScale(cfg.sqrt, Scale(rHat, forceNorm), cfg.timeStep);
  }

  /**
   * The term of a pair points from pc straight towards po: it is a positive
   * multiple of the separation `po - pc` whenever the other body has positive
   * mass. Gravity attracts.
   */
  lemma {:induction false} PairTermAttracts(cfg: Config, pc: Vec3, po: Vec3, m: real)
    requires cfg.Valid()
    requires pc != po && 0.0 < m
    ensures exists c: real :: 0.0 < c && PairTerm(cfg, pc, po, m) == Scale(Sub(po, pc), c)
  {
    Distance(cfg.sqrt, pc, po);
    var d := Sub(po, pc);
    var u := 1.0 / Norm(cfg.sqrt, d);
    var s := Strength(cfg, pc, po, m);
    var ts := cfg.timeStep;
    assert PairTerm(cfg, pc, po, m) == Scale(Scale(Scale(d, u), s), ts);
    ScaleThrice(PairTerm(cfg, pc, po, m), d, u, s, ts);
    assert 0.0 < u * s * ts by {
      var r := Radius(cfg, pc, po);
      PositiveProduct(r, r);
      PositiveProduct(cfg.g, m);
      PositiveQuotient(cfg.g * m, r * r);
      PositiveProduct(u, s);
      PositiveProduct(u * s, ts);
    }
  }

  lemma ScaleTwice(v: Vec3, d: Vec3, a: real, b: real)
    requires v == Scale(Scale(d, a), b)
    ensures v == Scale(d, a * b)
  {
    ScaleScale(d, a, b);
  }

  lemma ScaleThrice(v: Vec3, d: Vec3, a: real, b: real, c: real)
    requires v == Scale(Scale(Scale(d, a), b), c)
    ensures v == Scale(d, a * b * c)
  {
    ScaleScale(d, a, b);
    ScaleScale(d, a * b, c);
  }

  lemma ScaleScale(v: Vec3, a: real, b: real)
    ensures Scale(Scale(v, a), b) == Scale(v, a * b)
  {
    assert (v.x * a) * b == v.x * (a * b);
    assert (v.y * a) * b == v.y * (a * b);
    assert (v.z * a) * b == v.z * (a * b);
  }

  lemma PositiveQuotient(a: real, b: real)
    requires 0.0 < a && 0.0 < b
    ensures 0.0 < a / b
  {
  }

  /**
   * Newton's third law for one pair: the term body a receives from b, weighted
   * by a's mass, cancels the term b receives from a, weighted by b's mass.
   */
  lemma {:induction false} PairMomentum(cfg: Config, pa: Vec3, pb: Vec3, ma: real, mb: real)
    requires cfg.Valid()
    requires pa != pb
    ensures Add(Scale(PairTerm(cfg, pa, pb, mb), ma), Scale(PairTerm(cfg, pb, pa, ma), mb)) == Zero
  {
    var r := Norm(cfg.sqrt, Sub(pb, pa));
    Distance(cfg.sqrt, pa, pb);
    var rr := r * r;
    assert rr != 0.0 by { SquareNonNeg(r); }
    var u := 1.0 / r;
    assert Direction(cfg, pa, pb) == Scale(Sub(pb, pa), u);
    assert Direction(cfg, pb, pa) == Scale(Sub(pa, pb), u);
    assert Strength(cfg, pa, pb, mb) == cfg.g * mb / rr;
    assert Strength(cfg, pb, pa, ma) == cfg.g * ma / rr;
    var s1 := cfg.g * mb / rr;
    var s2 := cfg.g * ma / rr;
    assert s1 * ma == s2 * mb by { MassSwap(cfg.g, rr, ma, mb); }
    var ts := cfg.timeStep;
    assert Scale(PairTerm(cfg, pa, pb, mb), ma) == Scale(Scale(Scale(Scale(Sub(pb, pa), u), s1), ts), ma);
    assert Scale(PairTerm(cfg, pb, pa, ma), mb) == Scale(Scale(Scale(Scale(Sub(pa, pb), u), s2), ts), mb);
    OppositeTermsCancel(pa, pb, u, s1, s2, ts, ma, mb);
  }

  lemma MassSwap(g: real, rr: real, ma: real, mb: real)
    requires rr != 0.0
    ensures (g * mb / rr) * ma == (g * ma / rr) * mb
  {
    var k := g / rr;
    assert g * mb / rr == k * mb;
    assert g * ma / rr == k * ma;
  }

  lemma OppositeTermsCancel(pa: Vec3, pb: Vec3, u: real, s1: real, s2: real, ts: real, ma: real, mb: real)
    requires s1 * ma == s2 * mb
    ensures Add(Scale(Scale(Scale(Scale(Sub(pb, pa), u), s1), ts), ma),
                Scale(Scale(Scale(Scale(Sub(pa, pb), u), s2), ts), mb)) == Zero
  {
    ScaledDifference(pa, pb, u, s1, ts, ma);
    ScaledDifference(pb, pa, u, s2, ts, mb);
    TermsCancel(pb.x - pa.x, pa.x - pb.x, u, s1, s2, ts, ma, mb);
    TermsCancel(pb.y - pa.y, pa.y - pb.y, u, s1, s2, ts, ma, mb);
    TermsCancel(pb.z - pa.z, pa.z - pb.z, u, s1, s2, ts, ma, mb);
  }

  lemma ScaledDifference(pa: Vec3, pb: Vec3, u: real, s: real, ts: real, m: real)
    ensures var v := Scale(Scale(Scale(Scale(Sub(pb, pa), u), s), ts), m);
            v.x == (pb.x - pa.x) * u * s * ts * m &&
            v.y == (pb.y - pa.y) * u * s * ts * m &&
            v.z == (pb.z - pa.z) * u * s * ts * m
  {
  }

  lemma TermsCancel(d: real, e: real, u: real, s1: real, s2: real, ts: real, ma: real, mb: real)
    requires e == -d
    requires s1 * ma == s2 * mb
    ensures d * u * s1 * ts * ma + e * u * s2 * ts * mb == 0.0
  {
    assert d * u * s1 * ts * ma == (d * u * ts) * (s1 * ma);
    assert e * u * s2 * ts * mb == -((d * u * ts) * (s2 * mb));
  }

  /**
   * With exactly two bodies apart from each other and neither increment cut by
   * the clamp, the pass conserves momentum: the mass-weighted increments cancel.
   */
  lemma {:induction false} TwoBodyMomentum(cfg: Config, ps: seq<Vec3>, ms: seq<real>)
    requires cfg.Valid()
    requires |ps| == |ms| == 2 && ps[0] != ps[1]
    requires Norm(cfg.sqrt, PairTerm(cfg, ps[0], ps[1], ms[1])) <= cfg.maxForce
    requires Norm(cfg.sqrt, PairTerm(cfg, ps[1], ps[0], ms[0])) <= cfg.maxForce
    ensures Add(Scale(NetForce(cfg, ps, ms, 0), ms[0]), Scale(NetForce(cfg, ps, ms, 1), ms[1])) == Zero
  {
    var t0 := PairTerm(cfg, ps[0], ps[1], ms[1]);
    var t1 := PairTerm(cfg, ps[1], ps[0], ms[0]);
    assert Add(Zero, t0) == t0;
    assert Add(Zero, t1) == t1;
    ClampProperties(cfg, t0);
    ClampProperties(cfg, t1);
    assert NetForce(cfg, ps, ms, 0) == t0;
    assert NetForce(cfg, ps, ms, 1) == t1;
    PairMomentum(cfg, ps[0], ps[1], ms[0], ms[1]);
  }

  lemma NonNegQuotient(a: real, b: real)
    requires 0.0 <= a && 0.0 < b
    ensures 0.0 <= a / b
  {
  }

  /** One more body seen by the inner loop: skipped if it is body i, one pair step otherwise. */
  lemma AccumulateNext(cfg: Config, ps: seq<Vec3>, ms: seq<real>, i: nat, j: nat)
    requires cfg.Valid()
    requires |ps| == |ms| && i < |ps| && j < |ps|
    ensures Accumulate(cfg, ps, ms, i, j + 1) ==
            if j == i then Accumulate(cfg, ps, ms, i, j)
            else PairStep(cfg, Accumulate(cfg, ps, ms, i, j), ps[i], ps[j], ms[j])
  {
  }

  /** Every accumulator value, hence every velocity increment, is at most maxForce long. */
  lemma {:induction false} AccumulateBounded(cfg: Config, ps: seq<Vec3>, ms: seq<real>, i: nat, n: nat)
    requires cfg.Valid()
    requires |ps| == |ms| && i < |ps| && n <= |ps|
    ensures Norm(cfg.sqrt, Accumulate(cfg, ps, ms, i, n)) <= cfg.maxForce
    decreases n
  {
    if n == 0 {
      NormZero(cfg.sqrt, Zero);
    } else {
      AccumulateBounded(cfg, ps, ms, i, n - 1);
      var j := n - 1;
      if j != i && ps[j] != ps[i] {
        ClampProperties(cfg, Add(Accumulate(cfg, ps, ms, i, n - 1), PairTerm(cfg, ps[i], ps[j], ms[j])));
      }
    }
  }

  /**
   * When every other body sits at body i's own position (in particular when
   * there is no other body at all), body i receives no increment.
   */
  lemma {:induction false} AllCoincidentGivesZero(cfg: Config, ps: seq<Vec3>, ms: seq<real>, i: nat, n: nat)
    requires cfg.Valid()
    requires |ps| == |ms| && i < |ps| && n <= |ps|
    requires forall j :: 0 <= j < n && j != i ==> ps[j] == ps[i]
    ensures Accumulate(cfg, ps, ms, i, n) == Zero
    decreases n
  {
    if n > 0 {
      AllCoincidentGivesZero(cfg, ps, ms, i, n - 1);
    }
  }

  /**
   * The increment of body i does not depend on the mass of body i: it is an
   * acceleration times the time step, not a force divided by the own mass.
   */
  lemma {:induction false} OwnMassIrrelevant(cfg: Config, ps: seq<Vec3>, ms: seq<real>, i: nat, n: nat, m: real)
    requires cfg.Valid()
    requires |ps| == |ms| && i < |ps| && n <= |ps|
    ensures Accumulate(cfg, ps, ms[i := m], i, n) == Accumulate(cfg, ps, ms, i, n)
    decreases n
  {
    if n > 0 {
      OwnMassIrrelevant(cfg, ps, ms, i, n - 1, m);
    }
  }

  // ---------------------------------------------------------------------------
  // The body list as the source keeps it: distinct planet objects

  /** No planet object occurs twice, so identity comparison is index comparison. */
  predicate Distinct(bodies: seq<Planet>) {
    forall i, j :: 0 <= i < j < |bodies| ==> bodies[i] != bodies[j]
  }

  /** The positions of all bodies, in list order; they depend on nothing else. */
  function Positions(bodies: seq<Planet>): (ps: seq<Vec3>)
    reads bodies`pos
    ensures |ps| == |bodies|
    ensures forall i :: 0 <= i < |bodies| ==> ps[i] == bodies[i].pos
  {
    if bodies == [] then [] else Positions(bodies[..|bodies| - 1]) + [bodies[|bodies| - 1].pos]
  }

  /** The masses of all bodies, in list order. */
  function Masses(bodies: seq<Planet>): (ms: seq<real>)
    ensures |ms| == |bodies|
    ensures forall i :: 0 <= i < |bodies| ==> ms[i] == bodies[i].mass
  {
    if bodies == [] then [] else Masses(bodies[..|bodies| - 1]) + [bodies[|bodies| - 1].mass]
  }

  /**
   * The body of the inner loop for one pair (current at pc, other at po with
   * mass m): add the pair's term to the accumulator and re-clamp it, unless
   * the radius is zero, in which case the pair is skipped.
   */
  method AddPairPull(cfg: Config, force: Vec3, pc: Vec3, po: Vec3, m: real) returns (result: Vec3)
    requires cfg.Valid()
    ensures result == PairStep(cfg, force, pc, po, m)
  {
    result := force;
    var radius := Norm(cfg.sqrt, Sub(pc, po));
    Distance(cfg.sqrt, pc, po);
    if radius != 0.0 {
      var rHat := Direction(cfg, pc, po);
      var forceNorm := Strength(cfg, pc, po, m);
      result := Add(result, Scale(Scale(rHat, forceNorm), cfg.timeStep));
      result := ClampStep(cfg, result);
    }
  }

  /**
   * The re-clamp that ends each pass of the inner loop: when the accumulator is
   * longer than maxForce, divide it by its norm, then multiply it by maxForce.
   */
  method ClampStep(cfg: Config, f: Vec3) returns (result: Vec3)
    requires cfg.Valid()
    ensures result == Clamp(cfg, f)
    ensures Norm(cfg.sqrt, result) <= cfg.maxForce
  {
    result := f;
    if Norm(cfg.sqrt, result) > cfg.maxForce {
      result := Scale(result, 1.0 / Norm(cfg.sqrt, result));
      result := Scale(result, cfg.maxForce);
    }
    ClampProperties(cfg, f);
  }

  /**
   * The inner loop of the velocity pass: the increment of body i, summed pair by
   * pair over the current positions and re-clamped after every pair.
   */
  method PullOn(bodies: seq<Planet>, i: nat, cfg: Config) returns (force: Vec3)
    requires cfg.Valid()
    requires Distinct(bodies) && i < |bodies|
    ensures force == NetForce(cfg, Positions(bodies), Masses(bodies), i)
    ensures Norm(cfg.sqrt, force) <= cfg.maxForce
  {
    ghost var ps := Positions(bodies);
    ghost var ms := Masses(bodies);
    var current := bodies[i];
    force := Zero;
    var j := 0;
    while j < |bodies|
      invariant 0 <= j <= |bodies|
      invariant force == Accumulate(cfg, ps, ms, i, j)
    {
      var other := bodies[j];
      assert other != current <==> j != i;
      AccumulateNext(cfg, ps, ms, i, j);
      if other != current {
        assert ps[i] == current.pos && ps[j] == other.pos && ms[j] == other.mass;
        force := AddPairPull(cfg, force, current.pos, other.pos, other.mass);
      }
      j := j + 1;
    }
    AccumulateBounded(cfg, ps, ms, i, |ps|);
  }

  /**
   * Velocity pass: each body's velocity grows by its net increment, computed
   * from the positions as they were when the pass began. Only velocities change,
   * and no velocity changes by a vector longer than maxForce.
   */
  method UpdateVels(bodies: seq<Planet>, cfg: Config)
    requires cfg.Valid()
    requires Distinct(bodies)
    modifies bodies`vel
    ensures forall i {:trigger NetForce(cfg, old(Positions(bodies)), Masses(bodies), i)} :: 0 <= i < |bodies| ==>
              bodies[i].vel == Add(old(bodies[i].vel), NetForce(cfg, old(Positions(bodies)), Masses(bodies), i))
    ensures forall i {:trigger Norm(cfg.sqrt, Sub(bodies[i].vel, old(bodies[i].vel)))} :: 0 <= i < |bodies| ==>
              Norm(cfg.sqrt, Sub(bodies[i].vel, old(bodies[i].vel))) <= cfg.maxForce
    ensures Positions(bodies) == old(Positions(bodies))
    ensures Velocities(bodies) == NextVelocities(cfg, old(Positions(bodies)), old(Velocities(bodies)), Masses(bodies))
  {
    ghost var ps := Positions(bodies);
    ghost var vs := Velocities(bodies);
    ghost var ms := Masses(bodies);
    var i := 0;
    while i < |bodies|
      invariant 0 <= i <= |bodies|
      invariant Positions(bodies) == ps
      invariant forall k :: 0 <= k < i ==>
                  bodies[k].vel == Add(old(bodies[k].vel), NetForce(cfg, ps, ms, k))
      invariant forall k :: i <= k < |bodies| ==> bodies[k].vel == old(bodies[k].vel)
    {
      var current := bodies[i];
      var force := PullOn(bodies, i, cfg);
      current.vel := Add(current.vel, force);
      i := i + 1;
    }
    VelocitiesAfterPass(bodies, cfg, ps, vs, ms);
    forall k | 0 <= k < |bodies|
      ensures Norm(cfg.sqrt, Sub(bodies[k].vel, old(bodies[k].vel))) <= cfg.maxForce
    {
      IncrementBounded(cfg, ps, vs, ms, k);
    }
  }

  /** Once every body holds its old velocity plus its increment, the velocities are the next ones. */
  lemma VelocitiesAfterPass(bodies: seq<Planet>, cfg: Config, ps: seq<Vec3>, vs: seq<Vec3>, ms: seq<real>)
    requires cfg.Valid()
    requires |ps| == |bodies| && |vs| == |bodies| && |ms| == |bodies|
    requires forall k {:trigger NetForce(cfg, ps, ms, k)} :: 0 <= k < |bodies| ==>
               bodies[k].vel == Add(vs[k], NetForce(cfg, ps, ms, k))
    ensures Velocities(bodies) == NextVelocities(cfg, ps, vs, ms)
  {
  }

  /** The velocity pass changes no velocity by a vector longer than maxForce. */
  lemma IncrementBounded(cfg: Config, ps: seq<Vec3>, vs: seq<Vec3>, ms: seq<real>, k: nat)
    requires cfg.Valid()
    requires |ps| == |ms| && |vs| == |ms| && k < |ms|
    ensures Norm(cfg.sqrt, Sub(NextVelocities(cfg, ps, vs, ms)[k], vs[k])) <= cfg.maxForce
  {
    AccumulateBounded(cfg, ps, ms, k, |ps|);
    AddThenSub(vs[k], NetForce(cfg, ps, ms, k));
  }

  lemma AddThenSub(a: Vec3, b: Vec3)
    ensures Sub(Add(a, b), a) == b
  {
  }

  /** Position pass: every body logs its position once and moves at its (new) velocity. */
  method UpdatePoss(bodies: seq<Planet>, timeStep: real)
    requires Distinct(bodies)
    modifies bodies`pos, bodies`posHist
    ensures forall i :: 0 <= i < |bodies| ==>
              bodies[i].posHist == old(bodies[i].posHist) + [old(bodies[i].pos)] &&
              bodies[i].pos == Add(old(bodies[i].pos), Scale(bodies[i].vel, timeStep))
    ensures Positions(bodies) == Drift(old(Positions(bodies)), Velocities(bodies), timeStep)
    ensures Histories(bodies) == Log(old(Histories(bodies)), old(Positions(bodies)))
  {
    ghost var ps := Positions(bodies);
    var i := 0;
    while i < |bodies|
      invariant 0 <= i <= |bodies|
      invariant forall k :: 0 <= k < i ==>
                  bodies[k].posHist == old(bodies[k].posHist) + [old(bodies[k].pos)] &&
                  bodies[k].pos == Add(old(bodies[k].pos), Scale(bodies[k].vel, timeStep))
      invariant forall k :: i <= k < |bodies| ==>
                  bodies[k].posHist == old(bodies[k].posHist) && bodies[k].pos == old(bodies[k].pos)
    {
      bodies[i].UpdatePos(timeStep);
      i := i + 1;
    }
    PositionsAfterPass(bodies, ps, timeStep);
    HistoriesAfterPass(bodies, old(Histories(bodies)), ps);
  }

  /** Once every body has moved from its old position at its velocity, the positions are the drifted ones. */
  lemma PositionsAfterPass(bodies: seq<Planet>, ps: seq<Vec3>, timeStep: real)
    requires |ps| == |bodies|
    requires forall k :: 0 <= k < |bodies| ==> bodies[k].pos == Add(ps[k], Scale(bodies[k].vel, timeStep))
    ensures Positions(bodies) == Drift(ps, Velocities(bodies), timeStep)
  {
  }

  /** Once every body has logged its old position, the histories are the logged ones. */
  lemma HistoriesAfterPass(bodies: seq<Planet>, hs: seq<seq<Vec3>>, ps: seq<Vec3>)
    requires |hs| == |bodies| && |ps| == |bodies|
    requires forall k :: 0 <= k < |bodies| ==> bodies[k].posHist == hs[k] + [ps[k]]
    ensures Histories(bodies) == Log(hs, ps)
  {
  }

  /**
   * One simulation step: the velocity pass, then the position pass. Every body
   * logs its old position and moves at its updated velocity (semi-implicit Euler).
   * The whole state becomes `StepState` of the old one, whose per-body meaning
   * is `StepStateAt`.
   */
  method Step(bodies: seq<Planet>, cfg: Config)
    requires cfg.Valid()
    requires Distinct(bodies)
    modifies bodies`vel, bodies`pos, bodies`posHist
    ensures forall i :: 0 <= i < |bodies| ==>
              bodies[i].posHist == old(bodies[i].posHist) + [old(bodies[i].pos)]
    ensures forall i :: 0 <= i < |bodies| ==>
              bodies[i].pos == Add(old(bodies[i].pos), Scale(bodies[i].vel, cfg.timeStep))
    ensures State(bodies) == StepState(cfg, old(State(bodies)), Masses(bodies))
    ensures Histories(bodies) == Log(old(Histories(bodies)), old(Positions(bodies)))
  {
    UpdateVels(bodies, cfg);
    UpdatePoss(bodies, cfg.timeStep);
  }

  // ---------------------------------------------------------------------------
  // Whole steps over the positions and velocities as values

  /** The positions and velocities of all bodies, in list order. */
  datatype Snapshot = Snapshot(ps: seq<Vec3>, vs: seq<Vec3>)

  /** The velocities of all bodies, in list order; they depend on nothing else. */
  function Velocities(bodies: seq<Planet>): (vs: seq<Vec3>)
    reads bodies`vel
    ensures |vs| == |bodies|
    ensures forall i :: 0 <= i < |bodies| ==> vs[i] == bodies[i].vel
  {
    if bodies == [] then [] else Velocities(bodies[..|bodies| - 1]) + [bodies[|bodies| - 1].vel]
  }

  function State(bodies: seq<Planet>): Snapshot
    reads bodies`pos, bodies`vel
  {
    Snapshot(Positions(bodies), Velocities(bodies))
  }

  /** The position histories of all bodies, in list order; they depend on nothing else. */
  function Histories(bodies: seq<Planet>): (hs: seq<seq<Vec3>>)
    reads bodies`posHist
    ensures |hs| == |bodies|
    ensures forall i :: 0 <= i < |bodies| ==> hs[i] == bodies[i].posHist
  {
    if bodies == [] then [] else Histories(bodies[..|bodies| - 1]) + [bodies[|bodies| - 1].posHist]
  }

  /** Every history extended by the matching position. */
  function Log(hs: seq<seq<Vec3>>, ps: seq<Vec3>): (r: seq<seq<Vec3>>)
    requires |hs| == |ps|
    ensures |r| == |hs|
  {
    seq(|hs|, i requires 0 <= i < |hs| => hs[i] + [ps[i]])
  }

  /** The histories hs after k steps from s: each extended by what its body visited. */
  function LoggedAfter(cfg: Config, hs: seq<seq<Vec3>>, s: Snapshot, ms: seq<real>, k: nat): (r: seq<seq<Vec3>>)
    requires cfg.Valid()
    requires |hs| == |ms| && |s.ps| == |ms| && |s.vs| == |ms|
    ensures |r| == |hs|
  {
    seq(|hs|, i requires 0 <= i < |hs| => hs[i] + Visited(cfg, s, ms, i, k))
  }

  /**
   * One step on values: every velocity grows by that body's net increment from
   * the old positions, then every body moves at its new velocity.
   */
  function StepState(cfg: Config, s: Snapshot, ms: seq<real>): (r: Snapshot)
    requires cfg.Valid()
    requires |s.ps| == |ms| && |s.vs| == |ms|
    ensures |r.ps| == |ms| && |r.vs| == |ms|
  {
    var vs := NextVelocities(cfg, s.ps, s.vs, ms);
    Snapshot(Drift(s.ps, vs, cfg.timeStep), vs)
  }

  /**
   * What one step does to body i: its velocity grows by its net increment from
   * the old positions, and it moves from its old position at the new velocity.
   */
  lemma StepStateAt(cfg: Config, s: Snapshot, ms: seq<real>, i: nat)
    requires cfg.Valid()
    requires |s.ps| == |ms| && |s.vs| == |ms| && i < |ms|
    ensures StepState(cfg, s, ms).vs[i] == Add(s.vs[i], NetForce(cfg, s.ps, ms, i))
    ensures StepState(cfg, s, ms).ps[i] == Add(s.ps[i], Scale(StepState(cfg, s, ms).vs[i], cfg.timeStep))
  {
  }

  /** The velocity pass on values: each velocity plus that body's net increment. */
  function NextVelocities(cfg: Config, ps: seq<Vec3>, vs: seq<Vec3>, ms: seq<real>): (r: seq<Vec3>)
    requires cfg.Valid()
    requires |ps| == |ms| && |vs| == |ms|
    ensures |r| == |ms|
  {
    seq(|ms|, i requires 0 <= i < |ms| => Add(vs[i], NetForce(cfg, ps, ms, i)))
  }

  /** The position pass on values: each position moved by its velocity times the time step. */
  function Drift(ps: seq<Vec3>, vs: seq<Vec3>, timeStep: real): (r: seq<Vec3>)
    requires |ps| == |vs|
    ensures |r| == |ps|
  {
    seq(|ps|, i requires 0 <= i < |ps| => Add(ps[i], Scale(vs[i], timeStep)))
  }

  /** The state after k steps from s. */
  function Iterate(cfg: Config, s: Snapshot, ms: seq<real>, k: nat): (r: Snapshot)
    requires cfg.Valid()
    requires |s.ps| == |ms| && |s.vs| == |ms|
    ensures |r.ps| == |ms| && |r.vs| == |ms|
    decreases k
  {
    if k == 0 then s else StepState(cfg, Iterate(cfg, s, ms, k - 1), ms)
  }

  /** The positions body i logs during k steps from s, oldest first. */
  function Visited(cfg: Config, s: Snapshot, ms: seq<real>, i: nat, k: nat): (r: seq<Vec3>)
    requires cfg.Valid()
    requires |s.ps| == |ms| && |s.vs| == |ms| && i < |ms|
    ensures |r| == k
    decreases k
  {
    if k == 0 then [] else Visited(cfg, s, ms, i, k - 1) + [Iterate(cfg, s, ms, k - 1).ps[i]]
  }

  /** a + b steps are a steps followed by b steps. */
  lemma {:induction false} IterateSplit(cfg: Config, s: Snapshot, ms: seq<real>, a: nat, b: nat)
    requires cfg.Valid()
    requires |s.ps| == |ms| && |s.vs| == |ms|
    ensures Iterate(cfg, s, ms, a + b) == Iterate(cfg, Iterate(cfg, s, ms, a), ms, b)
    decreases b
  {
    if b > 0 {
      IterateSplit(cfg, s, ms, a, b - 1);
    }
  }

  /** The history of a + b steps is the history of a steps, then that of the b steps after them. */
  lemma {:induction false} VisitedSplit(cfg: Config, s: Snapshot, ms: seq<real>, i: nat, a: nat, b: nat)
    requires cfg.Valid()
    requires |s.ps| == |ms| && |s.vs| == |ms| && i < |ms|
    ensures Visited(cfg, s, ms, i, a + b) == Visited(cfg, s, ms, i, a) + Visited(cfg, Iterate(cfg, s, ms, a), ms, i, b)
    decreases b
  {
    if b > 0 {
      var mid := Iterate(cfg, s, ms, a);
      IterateSplit(cfg, s, ms, a, b - 1);
      var last := Iterate(cfg, s, ms, a + b - 1).ps[i];
      VisitedSplit(cfg, s, ms, i, a, b - 1);
      Associative(Visited(cfg, s, ms, i, a), Visited(cfg, mid, ms, i, b - 1), [last]);
    }
  }

  lemma Associative(p: seq<Vec3>, q: seq<Vec3>, r: seq<Vec3>)
    ensures (p + q) + r == p + (q + r)
  {
  }

  /** Entry t of the logged history is where body i stood after t steps. */
  lemma {:induction false} VisitedAt(cfg: Config, s: Snapshot, ms: seq<real>, i: nat, k: nat, t: nat)
    requires cfg.Valid()
    requires |s.ps| == |ms| && |s.vs| == |ms| && i < |ms| && t < k
    ensures Visited(cfg, s, ms, i, k)[t] == Iterate(cfg, s, ms, t).ps[i]
    decreases k
  {
    if t < k - 1 {
      VisitedAt(cfg, s, ms, i, k - 1, t);
    }
  }

  /** Before any step, the histories are as they were. */
  lemma LoggedNone(cfg: Config, hs: seq<seq<Vec3>>, s: Snapshot, ms: seq<real>)
    requires cfg.Valid()
    requires |hs| == |ms| && |s.ps| == |ms| && |s.vs| == |ms|
    ensures LoggedAfter(cfg, hs, s, ms, 0) == hs
  {
    forall i | 0 <= i < |hs|
      ensures LoggedAfter(cfg, hs, s, ms, 0)[i] == hs[i]
    {
      assert hs[i] + [] == hs[i];
    }
  }

  /** Logging the positions after t steps extends the histories of t steps to those of t + 1. */
  lemma LoggedNext(cfg: Config, hs: seq<seq<Vec3>>, s: Snapshot, ms: seq<real>, t: nat)
    requires cfg.Valid()
    requires |hs| == |ms| && |s.ps| == |ms| && |s.vs| == |ms|
    ensures Log(LoggedAfter(cfg, hs, s, ms, t), Iterate(cfg, s, ms, t).ps) == LoggedAfter(cfg, hs, s, ms, t + 1)
  {
    var p := Iterate(cfg, s, ms, t).ps;
    forall i | 0 <= i < |hs|
      ensures Log(LoggedAfter(cfg, hs, s, ms, t), p)[i] == LoggedAfter(cfg, hs, s, ms, t + 1)[i]
    {
      Associative(hs[i], Visited(cfg, s, ms, i, t), [p[i]]);
    }
  }

  /**
   * The batch driver: `steps` simulation steps in a row. The bodies end in the
   * state `steps` value-level steps lead to, and each history keeps what it
   * held and grows by the position of every step in turn.
   */
  method Run(bodies: seq<Planet>, cfg: Config, steps: nat)
    requires cfg.Valid()
    requires Distinct(bodies)
    modifies bodies`vel, bodies`pos, bodies`posHist
    ensures State(bodies) == Iterate(cfg, old(State(bodies)), Masses(bodies), steps)
    ensures forall i :: 0 <= i < |bodies| ==>
              bodies[i].posHist == old(bodies[i].posHist) + Visited(cfg, old(State(bodies)), Masses(bodies), i, steps)
    ensures forall i :: 0 <= i < |bodies| ==>
              |bodies[i].posHist| == |old(bodies[i].posHist)| + steps &&
              bodies[i].posHist[..|old(bodies[i].posHist)|] == old(bodies[i].posHist)
  {
    ghost var s0 := State(bodies);
    ghost var h0 := Histories(bodies);
    ghost var ms := Masses(bodies);
    LoggedNone(cfg, h0, s0, ms);
    var t := 0;
    while t < steps
      invariant 0 <= t <= steps
      invariant State(bodies) == Iterate(cfg, s0, ms, t)
      invariant Histories(bodies) == LoggedAfter(cfg, h0, s0, ms, t)
    {
      Step(bodies, cfg);
      LoggedNext(cfg, h0, s0, ms, t);
      t := t + 1;
    }
  }
}

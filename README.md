# nBody physics step in Dafny

This project models the physics core of `nBody.py`, a small Python N-body gravity
simulator. Each body is a `planet` object with a name, a mass, a marker size
derived from the mass, a position, a velocity and a history of past positions.
One simulation step has two phases:

1. `update_vels` gives every body a velocity increment: the gravitational pull of
   every other body, `G * m_other / r^2 * time_step` along the unit vector towards
   it. The sum is re-clamped to length `max_force` after every pair. All
   positions are read before any of them changes.
2. `update_poss` then moves each body. It logs the current position and advances
   by `vel * time_step`.

Modules:

- `vectors.dfy` (`Vectors`): 3-vectors over exact reals. The Euclidean norm is
  taken with a square-root function that is a parameter. `IsSqrt` states that
  this function returns exact non-negative square roots. The module proves the
  norm facts the physics relies on: symmetry of distance, zero exactly at
  coincident points, and scaling.
- `linear_map.dfy` (`Mapping`): `linear_map`, the clamped interpolation that sizes
  each body's marker.
- `planet.dfy` (`Bodies`): the `Planet` class, with its constructor and `UpdatePos`.
- `physics.dfy` (`Physics`): the velocity pass and the position pass as methods
  over a sequence of `Planet` objects. Each is proved against specification
  functions on values (`PairTerm`, `Clamp`, `PairStep`, `Accumulate`, `NetForce`).
  Properties of those functions are proved as lemmas. Whole steps are also
  described on values: a `Snapshot` of all positions and velocities, `StepState`
  for one step, `Iterate` for k steps, and `Visited` for the positions a body
  logs along the way. The step driver and the batch driver are proved against
  these functions.
- `numpy_division.dfy` (`NumpyDivision`): the velocity pass as float64 arithmetic
  actually runs it when two bodies share a position (see Findings).

## Model

| member | source | states |
|---|---|---|
| Mapping.LinearMap | nBody.py:87-101 | `value >= maxIn` gives maxOut, tested first, so an empty input span never divides. Otherwise `value <= minIn` gives minOut. Strictly between, the point lies on the line through (minIn, minOut) and (maxIn, maxOut). |
| Mapping.LinearMapWithinRange | nBody.py:92-101 | For an increasing output span, the result lies in [minOut, maxOut] for every input. |
| Mapping.LinearMapMonotone | nBody.py:87-101 | For an increasing output span, the map is non-decreasing in its input. |
| Bodies.Planet.constructor | nBody.py:37-43 | Stores name, mass, position and velocity, and starts an empty history. dotSize is `linear_map(mass, 0, 20, 10, 75)` and lies in [10, 75]. |
| Bodies.Planet.UpdatePos | nBody.py:46-48 | The history grows by exactly the old position. The position advances by `vel * time_step`. Nothing else changes (frame). |
| Vectors.Distance | nBody.py:63-64 | The radius `norm(current - other)` equals the r_hat denominator `norm(other - current)`. It is non-negative, and zero exactly when the positions coincide. |
| Vectors.NormScale | nBody.py:70-72 | Scaling a vector by c >= 0 scales its norm by c. |
| Physics.ClampProperties | nBody.py:70-72 | After the clamp, the accumulator is never longer than max_force. A vector within the bound is left unchanged. A longer vector gets length exactly max_force and keeps its direction. |
| Physics.ClampStep | nBody.py:70-72 | The divide-by-norm-then-multiply-by-max_force re-clamp computes the clamp, and its result is at most max_force long. |
| Physics.PairTermInverseSquare | nBody.py:63-68 | A pair's term has length `G * m / radius^2 * time_step`, with a positive radius. |
| Physics.PairTermAttracts | nBody.py:63-68 | For a positive mass at a separate position, a pair's term is a positive multiple of `other - current`: the pull points from the current body towards the other one (gravity attracts). |
| Physics.PairMomentum | nBody.py:63-68 | Per pair, the mass-weighted terms for the two bodies cancel (Newton's third law). |
| Physics.TwoBodyMomentum | nBody.py:56-79 | For two separated bodies, when the clamp does not cut either increment, the mass-weighted increments of the pass sum to zero. |
| Physics.AccumulateBounded | nBody.py:57-72 | After any number of pairs, the accumulator is at most max_force long, because it is re-clamped after every pair. |
| Physics.AllCoincidentGivesZero | nBody.py:57-75 | When every other body shares body i's position, body i's increment is zero. This includes a list that holds body i alone. |
| Physics.OwnMassIrrelevant | nBody.py:59-68 | Body i's increment does not depend on body i's own mass. |
| Physics.AddPairPull | nBody.py:62-75 | One pass of the inner loop body (radius, r_hat, force_norm, add, clamp) computes `PairStep`. A pair with zero radius is skipped. |
| Physics.PullOn | nBody.py:57-76 | The inner loop computes `NetForce` of the current positions for body i, and the result is at most max_force long. |
| Physics.UpdateVels | nBody.py:51-79 | Each velocity grows by that body's `NetForce`, computed from the positions as they were before the pass. Every change has length at most max_force. Positions are unchanged, and histories and masses lie outside the frame. As a whole, the velocity list becomes `NextVelocities` of the old positions and velocities. |
| Physics.UpdatePoss | nBody.py:82-84 | Every body is moved exactly once: it logs its old position and advances at its current velocity. As a whole, the position list becomes `Drift` of the old positions at the current velocities, and the history list becomes `Log` of the old histories and old positions. |
| Physics.Step | nBody.py:184-185 | One step is the velocity pass followed by the position pass. The positions and velocities together become `StepState` of the old ones, and the histories become `Log` of the old histories and old positions. Each body moves at its updated velocity, and each history grows by the position the step started from. |
| Physics.StepStateAt | nBody.py:51-84 | In one step, body i's velocity grows by its `NetForce` from the old positions, and the body moves from its old position at that new velocity. |
| Physics.Run | nBody.py:243-245 | After `steps` steps, the positions and velocities are `Iterate` of the starting ones over `steps` steps. Each history is its old content followed by `Visited`: the position the body held before each step, in turn. So every history keeps its old entries as a prefix and grows by exactly `steps` entries. |
| Physics.IterateSplit | nBody.py:243-245 | Running a + b steps is the same as running a steps and then b more from where they ended. |
| Physics.VisitedSplit | nBody.py:243-245 | The positions logged in a + b steps are those of the first a steps, followed by those of the b steps after them. |
| Physics.VisitedAt | nBody.py:243-245 | Entry t of what a body logs over k steps is its position after t steps, for every t < k. |
| Physics.IncrementBounded | nBody.py:57-79 | On values, no body's velocity changes by a vector longer than max_force in one velocity pass. |
| NumpyDivision.NaNAbsorbs | nBody.py:68-72 | Once the float accumulator is NaN, the rest of the inner loop leaves it NaN. |
| NumpyDivision.AsWrittenCoincidentPoisons | nBody.py:62-75 | As the arithmetic runs, one other body at body i's position makes body i's increment NaN. |
| NumpyDivision.AsWrittenAgreesWhenApart | nBody.py:57-75 | When no other body shares body i's position, the as-written pass equals the model. |
| NumpyDivision.CoincidentPairCounterexample | nBody.py:62-75 | Two bodies at one point: as written, the increment is NaN; with the pair skipped, it is zero. |

## Left out

- Plotting, animation and the axis/title set-up (nBody.py:172-264): rendering only. Only the two phase calls of each driver are modelled.
- `printInfo` (nBody.py:104-109): terminal output.
- The `solar`, `random`, `three` and testing presets (nBody.py:110-168), with their use of `random`, `math.cos` and `math.sin`. They only build the initial body list.
- Settings flags (`plotting`, `live`, `dimension`, `BH`, nBody.py:10-20) and the time counter rounded with `round(time + time_step, 2)` (nBody.py:228): presentation only.
- IEEE floating-point rounding: all quantities are exact reals.
- Integer position or velocity lists: `np.array` of an all-integer list has an integer dtype, and the in-place float additions `self.pos += ...` (nBody.py:48) and `current.vel += acc` (nBody.py:79) would then raise numpy's casting error. The model keeps every vector real and has no such error path. Every preset list at nBody.py:113-168 holds at least one float, so no preset builds an integer array.
- The numeric values of `G = 4 * pi^2`, `time_step = 0.01` and `max_force = 10` (nBody.py:27-30). They are the fields `g`, `timeStep` and `maxForce` of `Physics.Config`, required to be positive.
- `np.linalg.norm` is modelled as the Euclidean norm taken with the square-root function `Config.sqrt`, which must return exact square roots (`Vectors.IsSqrt`). No particular square-root implementation is part of this model.
- Physics.UpdateVels, Physics.UpdatePoss, Physics.Step and Physics.Run: these require the list to hold distinct planet objects (`Physics.Distinct`). The identity test `other != current` then coincides with comparing indices. The program never places the same object in the list twice. A list that aliases one object is not modelled.
- Bodies.Planet: `name`, `mass` and `dotSize` are immutable fields, because no modelled code assigns them after construction.
- Physics.TwoBodyMomentum: momentum conservation is stated for two bodies and only when the clamp does not cut either increment. The clamp breaks conservation by design, and the N-body sum is not stated.

## Findings

| source | as written | input that shows it | evidently intended | confidence | as-written member | corrected member |
|---|---|---|---|---|---|---|
| nBody.py:62-75 | The pair at zero radius is guarded by `except ZeroDivisionError`. numpy float64 division by zero does not raise: `r_hat` becomes 0/0 = NaN and `force_norm` becomes infinite. The force turns NaN, `norm(NaN) > max_force` is false, and the NaN reaches the velocity. | Two bodies at the same position, e.g. both at the origin with mass 1 | A coincident pair contributes nothing and is skipped | not executed | NumpyDivision.AsWrittenCoincidentPoisons | Physics.AllCoincidentGivesZero |

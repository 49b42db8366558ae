/** The integer lattice configuration space of vmc.py and its clamped
    single-axis step. */
module Vmc {
  import opened Wrappers

  /** The new coordinate `step_from` writes for old coordinate `x` and step
      `s`, exactly as written: the lower test subtracts the step, the upper
      test adds it. The upper clamp holds; the lower one holds only for a
      step that is not negative. */
  function SteppedCoordinate(x: int, s: int, subdivisions: int): (r: int)
    ensures r == 0 || r == subdivisions - 1 || r == x + s
    ensures subdivisions >= 1 ==> r <= subdivisions - 1
    ensures subdivisions >= 1 && s >= 0 ==> 0 <= r
  {
    if x - s <= 0 then 0
    else if x + s >= subdivisions - 1 then subdivisions - 1
    else x + s
  }

  /** A negative step from the first position leaves the lattice: the lower
      test sees 0 - (-1) = 1 > 0 and the coordinate becomes -1. */
  lemma NegativeStepLeavesLattice()
    ensures SteppedCoordinate(0, -1, 10) == -1
  {
  }

  /** A positive step from position 1 lands on 0 instead of 2. */
  lemma PositiveStepSnapsToZero()
    ensures SteppedCoordinate(1, 1, 10) == 0
  {
  }

  /** The evidently intended coordinate: `x + s` clamped to [0, subdivisions - 1]. */
  function ClampedCoordinate(x: int, s: int, subdivisions: int): (r: int)
    requires subdivisions >= 1
    ensures 0 <= r <= subdivisions - 1
    ensures 0 <= x + s <= subdivisions - 1 ==> r == x + s
    ensures x + s < 0 ==> r == 0
    ensures x + s > subdivisions - 1 ==> r == subdivisions - 1
  {
    if x + s <= 0 then 0
    else if x + s >= subdivisions - 1 then subdivisions - 1
    else x + s
  }

  /** The code as written agrees with the intended clamp whenever its lower
      test gives the same answer as the intended one, in particular for a
      zero step. */
  lemma SteppedAgreesWithClampWhenTestsAgree(x: int, s: int, subdivisions: int)
    requires subdivisions >= 1
    requires (x - s <= 0) == (x + s <= 0)
    ensures SteppedCoordinate(x, s, subdivisions) == ClampedCoordinate(x, s, subdivisions)
  {
  }

  /** The step bound used when the caller gives none: max(1, subdivisions // 1000). */
  function DefaultMaxStep(subdivisions: int): (m: int)
    ensures m >= 1
    ensures m == 1 <==> subdivisions < 2000
    ensures subdivisions >= 1000 ==> m * 1000 <= subdivisions < (m + 1) * 1000
  {
    if subdivisions / 1000 > 1 then subdivisions / 1000 else 1
  }

  /** The step bound `step_from` draws with: the given one, kept even when it
      is not positive, or the default, which always is. */
  function MaxStepOrDefault(maxStep: Option<int>, subdivisions: int): (m: int)
    ensures maxStep.Some? ==> m == maxStep.value
    ensures maxStep.None? ==> m >= 1
  {
    if maxStep.None? then DefaultMaxStep(subdivisions) else maxStep.value
  }

  /** The configuration `step_from` returns: `initial` with axis `a` replaced
      by the stepped coordinate. It keeps its length and every other axis; the
      axis becomes 0, the last position or `x + s`, never past the last position. */
  function SteppedConfig(initial: seq<int>, a: nat, s: int, subdivisions: int): (r: seq<int>)
    requires a < |initial|
    ensures |r| == |initial|
    ensures forall i :: 0 <= i < |initial| && i != a ==> r[i] == initial[i]
    ensures r[a] == 0 || r[a] == subdivisions - 1 || r[a] == initial[a] + s
    ensures subdivisions >= 1 ==> r[a] <= subdivisions - 1
  {
    initial[a := SteppedCoordinate(initial[a], s, subdivisions)]
  }

  /** Configuration space of `particles` particles in `dims` dimensions, each
      axis of length `size` cut into `subdivisions` lattice positions. */
  class ConfigSpace {
    const spatialDims: int
    const dimension: int
    const size: real
    const subdivisions: int

    constructor (particles: int, subdivisions: int, dimSize: real := 1.0, dims: int := 3)
      ensures spatialDims == dims && dimension == particles * dims
      ensures size == dimSize && this.subdivisions == subdivisions
    {
      spatialDims := dims;
      dimension := particles * dims;
      size := dimSize;
      this.subdivisions := subdivisions;
    }

    /** A lattice step from `initial` along the drawn `axis` by the drawn
        `stepLen`. A vector of the wrong shape raises ValueError before
        anything is drawn; so does an empty range to draw the axis or the step
        from. Having no `modifies` clause, it leaves `initial` untouched and
        returns a new array. */
    method StepFrom(initial: array<int>, maxStep: Option<int>, axis: int, stepLen: int) returns (r: Result<array<int>>)
      requires initial.Length == dimension > 0 ==> 0 <= axis < dimension
      requires initial.Length == dimension > 0 && MaxStepOrDefault(maxStep, subdivisions) > 0 ==>
        -MaxStepOrDefault(maxStep, subdivisions) <= stepLen < MaxStepOrDefault(maxStep, subdivisions)
      ensures r.Err? <==>
        initial.Length != dimension || dimension == 0 || MaxStepOrDefault(maxStep, subdivisions) <= 0
      ensures r.Err? ==> r.error == ValueError
      ensures r.Ok? ==> fresh(r.value) && r.value.Length == initial.Length
      ensures r.Ok? ==> r.value[..] == SteppedConfig(initial[..], axis, stepLen, subdivisions)
      ensures r.Ok? ==> forall i :: 0 <= i < initial.Length && i != axis ==> r.value[i] == initial[i]
      ensures r.Ok? && subdivisions >= 1 ==> r.value[axis] <= subdivisions - 1
    {
      if initial.Length != dimension {
        return Err(ValueError);
      }
      var bound := MaxStepOrDefault(maxStep, subdivisions);
      if dimension == 0 || bound <= 0 {
        return Err(ValueError);
      }
      var stepVec := new int[initial.Length](i requires 0 <= i < initial.Length reads initial => initial[i]);
      if stepVec[axis] - stepLen <= 0 {
        stepVec[axis] := 0;
      } else if stepVec[axis] + stepLen >= subdivisions - 1 {
        stepVec[axis] := subdivisions - 1;
      } else {
        stepVec[axis] := stepVec[axis] + stepLen;
      }
      r := Ok(stepVec);
    }
  }
}

/** Snapping of the locomotion axis values fed to the character animator
    (AnimatorManager.UpdateAnimatorValues). The animator itself is not
    modelled: the result is the pair of values the source passes on. */
module AnimatorManager {

  /** PlayerManager.PlayerState is not part of this model; only its Walking
      and Sprinting members are inspected, so every other member is `Other`. */
  datatype PlayerState = Walking | Sprinting | Other(id: nat)

  /** The boundary between a half and a full step of input. */
  const SnapThreshold: real := 0.55

  predicate IsSnapLevel(r: real) {
    r == -1.0 || r == -0.5 || r == 0.0 || r == 0.5 || r == 1.0
  }

  /** The snap rule applied to one axis: each open band maps to its level,
      and the three boundary points 0, 0.55 and -0.55 fall through to 0. */
  function Snap(v: real): (r: real)
    ensures IsSnapLevel(r)
    ensures r == 0.5 <==> 0.0 < v < SnapThreshold
    ensures r == 1.0 <==> v > SnapThreshold
    ensures r == -0.5 <==> -SnapThreshold < v < 0.0
    ensures r == -1.0 <==> v < -SnapThreshold
    ensures r == 0.0 <==> v == 0.0 || v == SnapThreshold || v == -SnapThreshold
  {
    if v > 0.0 && v < SnapThreshold then 0.5
    else if v > SnapThreshold then 1.0
    else if v < 0.0 && v > -SnapThreshold then -0.5
    else if v < -SnapThreshold then -1.0
    else 0.0
  }

  /** The rule is odd-symmetric. */
  lemma SnapOdd(v: real)
    ensures Snap(-v) == -Snap(v)
  {}

  /** The rule is not monotone: just below the threshold a value snaps to a
      half step, at the threshold it snaps to nothing. */
  lemma SnapNotMonotone()
    ensures 0.54 < SnapThreshold && Snap(0.54) == 0.5 && Snap(SnapThreshold) == 0.0
  {}

  /** The (horizontal, vertical) pair handed to the animator. Walking and
      sprinting replace the snapped pair by the raw horizontal input and a
      fixed vertical speed; every other state uses the snapped pair, both
      axes with the same rule. */
  function UpdateAnimatorValues(horizontalMovement: real, verticalMovement: real, playerState: PlayerState): (r: (real, real))
    ensures playerState == Walking ==> r == (horizontalMovement, 0.5)
    ensures playerState == Sprinting ==> r == (horizontalMovement, 2.0)
    ensures playerState.Other? ==> IsSnapLevel(r.0) && IsSnapLevel(r.1)
    ensures playerState.Other? ==> r.0 == Snap(horizontalMovement) && r.1 == Snap(verticalMovement)
    ensures horizontalMovement == verticalMovement && playerState.Other? ==> r.0 == r.1
  {
    var snappedHorizontal := Snap(horizontalMovement);
    var snappedVertical := Snap(verticalMovement);
    if playerState == Walking then (horizontalMovement, 0.5)
    else if playerState == Sprinting then (horizontalMovement, 2.0)
    else (snappedHorizontal, snappedVertical)
  }
}

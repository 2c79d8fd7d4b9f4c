/**
 * The stroke classifier of engine/shots.py: a priority-ordered cascade over
 * the hand's per-frame delta (dx, dy), where a positive dy is a downward
 * motion in camera coordinates.
 */
module Shots {
  import opened Wrappers

  /** The shot kinds a flight leg carries; Normal is the fallback for an unrecognised stroke. */
  datatype Shot = Normal | Smash | Clear | Drop

  const SmashSpeed: real := 0.045
  const ClearSpeed: real := 0.025
  const DropSpeed: real := 0.015
  const UpwardDy: real := -0.08
  const DownwardDy: real := 0.08

  /**
   * `sqrt(dx*dx + dy*dy) > threshold`, stated without the square root;
   * SpeedExceedsIsSqrtComparison shows the two agree for a threshold >= 0.
   */
  predicate SpeedExceeds(dx: real, dy: real, threshold: real)
  {
    dx * dx + dy * dy > threshold * threshold
  }

  lemma SpeedExceedsIsSqrtComparison(dx: real, dy: real, speed: real, threshold: real)
    requires speed >= 0.0 && speed * speed == dx * dx + dy * dy
    requires threshold >= 0.0
    ensures speed > threshold <==> SpeedExceeds(dx, dy, threshold)
  {
    assert (speed - threshold) * (speed + threshold) == speed * speed - threshold * threshold;
    if speed > threshold {
      assert speed + threshold > 0.0;
    }
  }

  /** classify_shot: None when the hand moved too little to be any stroke. */
  function ClassifyShot(dx: real, dy: real): (r: Option<Shot>)
    ensures r != Some(Normal)
  {
    if SpeedExceeds(dx, dy, SmashSpeed) && dy > DownwardDy then Some(Smash)
    else if dy < UpwardDy && SpeedExceeds(dx, dy, ClearSpeed) then Some(Clear)
    else if SpeedExceeds(dx, dy, DropSpeed) then Some(Drop)
    else None
  }

  /** A component of the delta beyond `bound` in absolute value forces the speed beyond it. */
  lemma ComponentBoundsSpeed(dx: real, dy: real, bound: real)
    requires bound >= 0.0
    requires dx > bound || dx < -bound || dy > bound || dy < -bound
    ensures SpeedExceeds(dx, dy, bound)
  {
    assert dx * dx >= 0.0 && dy * dy >= 0.0;
    if dx > bound {
      assert dx * dx > bound * dx >= bound * bound;
    } else if dx < -bound {
      assert dx * dx > -bound * dx >= bound * bound;
    } else if dy > bound {
      assert dy * dy > bound * dy >= bound * bound;
    } else {
      assert dy * dy > -bound * dy >= bound * bound;
    }
  }

  /** The speed test of the smash rule is implied by its direction test: SMASH exactly when dy > 0.08. */
  lemma SmashExactlyWhenDownward(dx: real, dy: real)
    ensures ClassifyShot(dx, dy) == Some(Smash) <==> dy > DownwardDy
  {
    if dy > DownwardDy {
      ComponentBoundsSpeed(dx, dy, DownwardDy);
    }
  }

  /** Likewise for the clear rule: CLEAR exactly when dy < -0.08. */
  lemma ClearExactlyWhenUpward(dx: real, dy: real)
    ensures ClassifyShot(dx, dy) == Some(Clear) <==> dy < UpwardDy
  {
    if dy < UpwardDy {
      ComponentBoundsSpeed(dx, dy, -UpwardDy);
    }
  }

  /** DROP exactly when neither directional rule applies and the speed exceeds 0.015. */
  lemma DropExactlyWhenSlowAndLevel(dx: real, dy: real)
    ensures ClassifyShot(dx, dy) == Some(Drop)
        <==> (UpwardDy <= dy <= DownwardDy && SpeedExceeds(dx, dy, DropSpeed))
  {
    SmashExactlyWhenDownward(dx, dy);
    ClearExactlyWhenUpward(dx, dy);
  }

  /** None exactly when dx² + dy² <= 0.015². */
  lemma NoneExactlyWhenStill(dx: real, dy: real)
    ensures ClassifyShot(dx, dy) == None <==> dx * dx + dy * dy <= DropSpeed * DropSpeed
  {
    if SpeedExceeds(dx, dy, SmashSpeed) {
      assert SpeedExceeds(dx, dy, DropSpeed);
    }
    if SpeedExceeds(dx, dy, ClearSpeed) {
      assert SpeedExceeds(dx, dy, DropSpeed);
    }
  }

  /** The result depends on dx only through dx², so a mirrored stroke classifies the same. */
  lemma MirrorInvariant(dx: real, dy: real)
    ensures ClassifyShot(-dx, dy) == ClassifyShot(dx, dy)
  {
    assert (-dx) * (-dx) == dx * dx;
  }
}

/** What one frame of main.py's input step guarantees, proved about the model in module Game. */
module GameProperties {
  import opened Wrappers
  import opened RealMath
  import opened Shots
  import opened Config
  import opened Rally
  import opened Game
  import RallyProperties

  /**
   * A visible hand sets the player's court target, always within [0, COURT_WIDTH];
   * without a hand the hand-input block changes nothing, so the whole input
   * step only moves the player.
   */
  lemma HandSetsTarget(s: Snapshot, hand: Option<HandSample>, now: real, c: Constants, aim: real)
    requires Valid(c) && InAimRange(aim)
    ensures hand.None? ==> HandInput(s, hand, now, c, aim) == s
    ensures hand.None? ==> Frame(s, hand, now, c, aim).(playerX := s.playerX) == s
    ensures hand.Some? ==>
      var x := HandInput(s, hand, now, c, aim).targetPlayerX;
      x == MapHandX(c, hand.value.cx) && 0.0 <= x <= c.courtWidth
  {
  }

  /** The ready flag turns true exactly when a still hand is seen while idle and not ready. */
  lemma ReadyOnlyWhenNeutral(s: Snapshot, hand: Option<HandSample>, now: real, c: Constants, aim: real)
    requires Valid(c) && InAimRange(aim)
    ensures var r := HandInput(s, hand, now, c, aim);
      (r.playerReady && !s.playerReady)
        <==> (hand.Some? && s.phase == Idle && !s.playerReady && IsNeutral(c, hand.value.dx, hand.value.dy))
  {
  }

  /**
   * A stroke starts exactly when the player is idle and ready, the cooldown
   * has passed and the delta is large enough; it is then start_player_hit with
   * the classified shot, after the target update.
   */
  lemma StrokeExactlyWhenFires(s: Snapshot, hand: Option<HandSample>, now: real, c: Constants, aim: real)
    requires Valid(c) && InAimRange(aim)
    ensures var r := HandInput(s, hand, now, c, aim);
      && (r.phase != s.phase <==> hand.Some? && StrokeFires(s, c, now, hand.value))
      && (r.phase != s.phase ==>
            r.phase == ToAi
            && r == StartHit(s.(targetPlayerX := MapHandX(c, hand.value.cx)), now,
                             StrokeShot(hand.value.dx, hand.value.dy), aim))
  {
  }

  /**
   * Over a whole frame (input step, then update) the ready flag turns true
   * exactly when a still hand is seen while idle and not ready: update itself
   * never sets it.
   */
  lemma TickReadyOnlyWhenNeutral(s: Snapshot, hand: Option<HandSample>, now: real, c: Constants,
                                 strokeAim: real, second: bool, returnAim: real)
    requires Valid(c) && InAimRange(strokeAim) && InAimRange(returnAim)
    ensures var r := Advance(Frame(s, hand, now, c, strokeAim), now, c, second, returnAim);
      (r.playerReady && !s.playerReady)
        <==> (hand.Some? && s.phase == Idle && !s.playerReady && IsNeutral(c, hand.value.dx, hand.value.dy))
  {
    var f := Frame(s, hand, now, c, strokeAim);
    ReadyOnlyWhenNeutral(s, hand, now, c, strokeAim);
    if !f.playerReady {
      RallyProperties.UpdateNeverReadies(f, now, c, second, returnAim);
    }
    if hand.Some? && s.phase == Idle && !s.playerReady && IsNeutral(c, hand.value.dx, hand.value.dy) {
      assert f.phase == Idle;
      RallyProperties.IdleOnlyEases(f, now, c, second, returnAim);
    }
  }

  /** A ready flip and a stroke never happen in the same frame. */
  lemma ReadyAndStrokeExclusive(s: Snapshot, hand: Option<HandSample>, now: real, c: Constants, aim: real)
    requires Valid(c) && InAimRange(aim)
    ensures var r := HandInput(s, hand, now, c, aim);
      !(r.playerReady && !s.playerReady && r.phase != s.phase)
  {
  }

  /**
   * Whenever detect_stroke holds the classifier recognises the stroke, since
   * the movement threshold is at least the drop speed; the "NORMAL" fallback
   * is then never used.
   */
  lemma StrokeIsClassified(c: Constants, dx: real, dy: real)
    requires c.moveThreshold >= DropSpeed
    requires DetectStroke(c, dx, dy)
    ensures ClassifyShot(dx, dy) != None
    ensures StrokeShot(dx, dy) != Normal
  {
    ComponentBoundsSpeed(dx, dy, c.moveThreshold);
    assert c.moveThreshold * c.moveThreshold >= DropSpeed * DropSpeed by {
      MulNonNegative(c.moveThreshold - DropSpeed, c.moveThreshold + DropSpeed);
    }
    NoneExactlyWhenStill(dx, dy);
  }

  /** With the shipped table a stroke played from the loop is never Normal. */
  lemma StrokeNeverNormal(s: Snapshot, h: HandSample, now: real, aim: real)
    requires InAimRange(aim)
    requires StrokeFires(s, Default, now, h)
    ensures HandInput(s, Some(h), now, Default, aim).shotType != Normal
  {
    DefaultValid();
    StrokeIsClassified(Default, h.dx, h.dy);
  }

  /**
   * The player's step is the gap capped at MAX_PLAYER_SPEED, scaled by
   * SMOOTHING: it has the gap's sign, never exceeds the gap (no overshoot)
   * and never exceeds the speed cap times the smoothing.
   */
  lemma PlayerStepBounds(c: Constants, gap: real)
    requires 0.0 <= c.smoothing <= 1.0 && c.maxPlayerSpeed >= 0.0
    ensures Between(0.0, gap, PlayerStep(c, gap))
    ensures Abs(PlayerStep(c, gap)) <= c.maxPlayerSpeed * c.smoothing
  {
    var capped := Clamp(gap, -c.maxPlayerSpeed, c.maxPlayerSpeed);
    LerpBetween(0.0, capped, c.smoothing);
    assert PlayerStep(c, gap) == Lerp(0.0, capped, c.smoothing);
    if capped >= 0.0 {
      MulNonNegative(c.maxPlayerSpeed - capped, c.smoothing);
    } else {
      MulNonNegative(c.maxPlayerSpeed + capped, c.smoothing);
    }
  }

  /** With the shipped table the player moves at most 0.315 court units per frame. */
  lemma DefaultStepAtMost(gap: real)
    ensures Abs(PlayerStep(Default, gap)) <= 0.315
  {
    PlayerStepBounds(Default, gap);
  }

  /** The player moves toward the target without passing it, so both on court keeps the player on court. */
  lemma MovePlayerTowardTarget(s: Snapshot, c: Constants)
    requires 0.0 <= c.smoothing <= 1.0 && c.maxPlayerSpeed >= 0.0
    ensures var r := MovePlayer(s, c);
      && Between(s.playerX, s.targetPlayerX, r.playerX)
      && Abs(r.playerX - s.playerX) <= c.maxPlayerSpeed * c.smoothing
      && r.(playerX := s.playerX) == s
    ensures OnCourt(s, c) ==> OnCourt(MovePlayer(s, c), c)
  {
    PlayerStepBounds(c, s.targetPlayerX - s.playerX);
  }

  /** The input step keeps every horizontal coordinate on the court. */
  lemma FrameKeepsOnCourt(s: Snapshot, hand: Option<HandSample>, now: real, c: Constants, aim: real)
    requires Valid(c) && InAimRange(aim) && OnCourt(s, c)
    requires 0.0 <= AimLow && AimHigh <= c.courtWidth
    requires 0.0 <= c.smoothing <= 1.0 && c.maxPlayerSpeed >= 0.0
    ensures OnCourt(Frame(s, hand, now, c, aim), c)
  {
    var mid := HandInput(s, hand, now, c, aim);
    if hand.Some? {
      var aimed := s.(targetPlayerX := MapHandX(c, hand.value.cx));
      RallyProperties.StartHitKeepsOnCourt(aimed, c, now, StrokeShot(hand.value.dx, hand.value.dy), aim);
    }
    assert OnCourt(mid, c);
    MovePlayerTowardTarget(mid, c);
  }

  /** A whole frame (input step, then update) keeps the court invariant; the shipped table meets its conditions. */
  lemma TickKeepsOnCourt(s: Snapshot, hand: Option<HandSample>, now: real, c: Constants,
                         strokeAim: real, second: bool, returnAim: real)
    requires Valid(c) && InAimRange(strokeAim) && InAimRange(returnAim) && OnCourt(s, c)
    requires 0.0 <= AimLow && AimHigh <= c.courtWidth
    requires 0.0 <= c.smoothing <= 1.0 && c.maxPlayerSpeed >= 0.0
    requires s.stateTime <= now
    ensures OnCourt(Advance(Frame(s, hand, now, c, strokeAim), now, c, second, returnAim), c)
  {
    FrameKeepsOnCourt(s, hand, now, c, strokeAim);
    RallyProperties.AdvanceKeepsOnCourt(Frame(s, hand, now, c, strokeAim), now, c, second, returnAim);
  }

  /** The initial game state is on the court of the shipped table. */
  lemma InitialOnCourt()
    ensures OnCourt(Initial, Default)
  {
  }

  /** to_px maps the court's near edge to pixel 50 and its far edge to SCREEN_W - 50. */
  lemma ToPxEnds(c: Constants)
    requires Valid(c) && c.screenW >= 50
    ensures ToPx(c, 0.0) == 50
    ensures ToPx(c, c.courtWidth) == c.screenW - 50
  {
    var scale := (c.screenW - 100) as real / c.courtWidth;
    assert c.courtWidth * scale == (c.screenW - 100) as real;
    assert 50.0 + c.courtWidth * scale == (c.screenW - 50) as real;
  }

  /** With the shipped table the court spans pixels 50 to 550. */
  lemma DefaultToPxEnds()
    ensures Valid(Default)
    ensures ToPx(Default, 0.0) == 50 && ToPx(Default, 10.0) == 550
  {
    DefaultValid();
    ToPxEnds(Default);
  }

  lemma TruncMonotone(x: real, y: real)
    requires x <= y
    ensures Trunc(x) <= Trunc(y)
  {
    if 0.0 <= x {
      assert x.Floor as real <= x <= y < y.Floor as real + 1.0;
    } else if y < 0.0 {
      assert (-y).Floor as real <= -y <= -x < (-x).Floor as real + 1.0;
    }
  }

  /** to_px is monotone: a point further along the court is drawn no further left. */
  lemma ToPxMonotone(c: Constants, x: real, y: real)
    requires Valid(c) && c.screenW >= 100
    requires x <= y
    ensures ToPx(c, x) <= ToPx(c, y)
  {
    var scale := (c.screenW - 100) as real / c.courtWidth;
    assert scale >= 0.0;
    MulNonNegative(y - x, scale);
    assert x * scale <= y * scale;
    TruncMonotone(50.0 + x * scale, 50.0 + y * scale);
  }
}

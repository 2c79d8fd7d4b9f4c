/**
 * The per-frame glue of main.py: the hand sample sets the player's court
 * target, debounces the ready flag, may trigger a stroke, and the player then
 * moves toward the target with a speed cap and smoothing before the engine's
 * update runs. Camera capture and drawing are not modelled; a frame's hand
 * sample is an optional (cx, dx, dy).
 */
module Game {
  import opened Wrappers
  import opened RealMath
  import opened Shots
  import opened Config
  import opened Rally

  /** What the hand tracker reports when it sees a hand: mean x and the per-frame delta. */
  datatype HandSample = HandSample(cx: real, dx: real, dy: real)

  /** clamp(val, minv, maxv) = max(minv, min(maxv, val)). */
  function Clamp(v: real, lo: real, hi: real): (r: real)
    ensures lo <= hi ==> lo <= r <= hi
    ensures lo <= v <= hi ==> r == v
    ensures v < lo ==> r == lo
    ensures lo <= hi < v ==> r == hi
  {
    Max(lo, Min(hi, v))
  }

  /** detect_stroke: either component of the delta beyond the movement threshold. */
  predicate DetectStroke(c: Constants, dx: real, dy: real)
  {
    Abs(dx) > c.moveThreshold || Abs(dy) > c.moveThreshold
  }

  /** Both components of the delta below the neutral threshold. */
  predicate IsNeutral(c: Constants, dx: real, dy: real)
  {
    Abs(dx) < c.neutralThreshold && Abs(dy) < c.neutralThreshold
  }

  /** The court target for a hand at normalised x `cx`: gain around the centre, clamped, scaled. */
  function MapHandX(c: Constants, cx: real): (x: real)
    requires Valid(c)
    ensures 0.0 <= x <= c.courtWidth
  {
    var mapped := Clamp((cx - 0.5) * c.handSensitivity + 0.5, 0.0, 1.0);
    MulNonNegative(mapped, c.courtWidth);
    MulNonNegative(1.0 - mapped, c.courtWidth);
    mapped * c.courtWidth
  }

  /** Python's int() on a float: truncation toward zero. */
  function Trunc(x: real): (n: int)
    ensures Abs(x - n as real) < 1.0
    ensures x >= 0.0 ==> 0 <= n && n as real <= x
    ensures x < 0.0 ==> n <= 0 && x <= n as real
  {
    if x >= 0.0 then x.Floor else -((-x).Floor)
  }

  /** to_px: court units to screen pixels, with a 50-pixel margin on each side. */
  function ToPx(c: Constants, x: real): int
    requires Valid(c)
  {
    Trunc(50.0 + x * ((c.screenW - 100) as real / c.courtWidth))
  }

  /** `shot if shot else "NORMAL"`: an unrecognised stroke is played as Normal. */
  function StrokeShot(dx: real, dy: real): Shot
  {
    match ClassifyShot(dx, dy)
    case Some(k) => k
    case None => Normal
  }

  /** The conditions under which a frame's hand sample plays a stroke. */
  predicate StrokeFires(s: Snapshot, c: Constants, now: real, h: HandSample)
  {
    && s.phase == Idle
    && s.playerReady
    && now - s.lastStrokeTime > c.cooldown
    && DetectStroke(c, h.dx, h.dy)
  }

  /** The HAND INPUT block of the loop body. */
  function HandInput(s: Snapshot, hand: Option<HandSample>, now: real, c: Constants, aim: real): Snapshot
    requires Valid(c) && InAimRange(aim)
  {
    match hand
    case None => s
    case Some(h) =>
      var aimed := s.(targetPlayerX := MapHandX(c, h.cx));
      if aimed.phase == Idle && !aimed.playerReady then
        if IsNeutral(c, h.dx, h.dy) then aimed.(playerReady := true) else aimed
      else if aimed.phase == Idle && aimed.playerReady && now - aimed.lastStrokeTime > c.cooldown then
        if DetectStroke(c, h.dx, h.dy) then StartHit(aimed, now, StrokeShot(h.dx, h.dy), aim) else aimed
      else
        aimed
  }

  /** The player's movement this frame: the gap capped at the maximum speed, times the smoothing. */
  function PlayerStep(c: Constants, gap: real): real
  {
    Clamp(gap, -c.maxPlayerSpeed, c.maxPlayerSpeed) * c.smoothing
  }

  /** The PLAYER MOVEMENT block of the loop body. */
  function MovePlayer(s: Snapshot, c: Constants): Snapshot
  {
    s.(playerX := s.playerX + PlayerStep(c, s.targetPlayerX - s.playerX))
  }

  /** Hand input, then player movement. */
  function Frame(s: Snapshot, hand: Option<HandSample>, now: real, c: Constants, aim: real): Snapshot
    requires Valid(c) && InAimRange(aim)
  {
    MovePlayer(HandInput(s, hand, now, c, aim), c)
  }

  /** Lines 63-98 of the loop body, performed on the game object. */
  method InputStep(game: GameState, hand: Option<HandSample>, now: real, c: Constants, aim: real)
    requires Valid(c) && InAimRange(aim)
    modifies game
    ensures game.Snap() == Frame(old(game.Snap()), hand, now, c, aim)
  {
    if hand.Some? {
      var h := hand.value;
      game.targetPlayerX := MapHandX(c, h.cx);
      if game.phase == Idle && !game.playerReady {
        if IsNeutral(c, h.dx, h.dy) {
          game.playerReady := true;
        }
      } else if game.phase == Idle && game.playerReady && now - game.lastStrokeTime > c.cooldown {
        if DetectStroke(c, h.dx, h.dy) {
          game.StartPlayerHit(now, StrokeShot(h.dx, h.dy), aim);
        }
      }
    }
    var delta := Clamp(game.targetPlayerX - game.playerX, -c.maxPlayerSpeed, c.maxPlayerSpeed);
    game.playerX := game.playerX + delta * c.smoothing;
  }

  /**
   * One frame of the game loop without camera and drawing: the input step,
   * then the engine's update at the same `now`. `strokeAim` and `returnAim`
   * are the values random_target would draw in start_player_hit and update.
   */
  method Tick(game: GameState, hand: Option<HandSample>, now: real, c: Constants,
              strokeAim: real, second: bool, returnAim: real)
    requires Valid(c) && InAimRange(strokeAim) && InAimRange(returnAim)
    modifies game
    ensures game.Snap() == Advance(Frame(old(game.Snap()), hand, now, c, strokeAim), now, c, second, returnAim)
  {
    InputStep(game, hand, now, c, strokeAim);
    game.Update(now, c, second, returnAim);
  }
}

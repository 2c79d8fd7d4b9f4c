/**
 * The rally state machine of engine/state.py. A rally leg pair runs
 * Idle -> ToAi -> AiWait -> ToPlayer -> Idle, driven by a caller-supplied
 * clock value `now`; every call to `update` also eases both players' depth
 * ("zone") toward its target.
 *
 * `Snapshot` is the value of all fields of a `GameState`; `StartHit` and
 * `Advance` say what `start_player_hit` and `update` do to it, and the class
 * `GameState` below performs those updates in place. The two random draws of
 * the source are parameters: `aim`, the value of `random_target`, lies in
 * [AimLow, AimHigh]; `second` says which of the two candidates `random.choice`
 * picked.
 */
module Rally {
  import opened RealMath
  import opened Shots
  import opened Config

  datatype Phase = Idle | ToAi | AiWait | ToPlayer

  /** Range of `random_target` (engine/state.py:36). */
  const AimLow: real := 1.5
  const AimHigh: real := 8.5
  /** A player's drop lands this fraction of the way from the player toward the random target. */
  const DropAimPull: real := 0.4
  /** An opponent's drop lands this fraction of the way from the opponent toward the player. */
  const AiDropPull: real := 0.6
  /** Zone depths relative to each side's base line. */
  const NetOffset: real := 80.0
  const BackOffset: real := 40.0
  /** Reaction-time multipliers by incoming shot. */
  const SmashReact: real := 1.4
  const DropReact: real := 0.6
  const OtherReact: real := 0.9
  /** Catch-radius multipliers by incoming shot, motion penalty and floor. */
  const SmashRadius: real := 0.65
  const DropRadius: real := 1.25
  const MotionPenalty: real := 0.4
  const MinRadius: real := 0.3
  /** Depth tolerance of a catch. */
  const CatchDepth: real := 35.0
  /** Fraction of the remaining gap a zone closes per update. */
  const ZoneSmoothing: real := 0.15

  datatype Snapshot = Snapshot(
    phase: Phase,
    stateTime: real,
    lastStrokeTime: real,
    playerReady: bool,
    playerX: real,
    aiX: real,
    targetPlayerX: real,
    playerY: real,
    aiY: real,
    targetPlayerY: real,
    targetAiY: real,
    shuttleX: real,
    shuttleY: real,
    toAiX: real,
    toPlayerX: real,
    shotType: Shot)

  /** The state `GameState.__init__` builds. */
  const Initial: Snapshot :=
    Snapshot(Idle, 0.0, 0.0, true, 5.0, 5.0, 5.0, 650.0, 150.0, 650.0, 150.0, 5.0, 650.0, 5.0, 5.0, Normal)

  /** The values `random_target` can produce. */
  predicate InAimRange(x: real)
  {
    AimLow <= x <= AimHigh
  }

  /** The point a fraction `t` of the way from `a` to `b`, written as the source writes it. */
  function Lerp(a: real, b: real, t: real): real
  {
    a + (b - a) * t
  }

  lemma MulNonNegative(x: real, y: real)
    requires x >= 0.0 && y >= 0.0
    ensures x * y >= 0.0
  {
  }

  lemma LerpBetween(a: real, b: real, t: real)
    requires 0.0 <= t <= 1.0
    ensures Between(a, b, Lerp(a, b, t))
  {
    if a <= b {
      MulNonNegative(b - a, t);
      MulNonNegative(b - a, 1.0 - t);
    } else {
      MulNonNegative(a - b, t);
      MulNonNegative(a - b, 1.0 - t);
    }
  }

  /**
   * The flight parameter `min((now - state_time) / SHUTTLE_TIME, 1)`: never
   * beyond 1, not negative once the leg has started, and equal to 1 exactly
   * when the leg's duration has elapsed.
   */
  function FlightParam(now: real, start: real, duration: real): (t: real)
    requires duration > 0.0
    ensures t <= 1.0
    ensures now >= start ==> 0.0 <= t
    ensures t >= 1.0 <==> now - start >= duration
  {
    Min((now - start) / duration, 1.0)
  }

  /** Within a leg, the flight parameter never decreases as time advances. */
  lemma FlightParamMonotone(now1: real, now2: real, start: real, duration: real)
    requires duration > 0.0 && now1 <= now2
    ensures FlightParam(now1, start, duration) <= FlightParam(now2, start, duration)
  {
    assert (now1 - start) / duration <= (now2 - start) / duration by {
      assert (now2 - start) / duration - (now1 - start) / duration == (now2 - now1) / duration;
    }
  }

  /** Depth of the player's zone for a shot: net for a drop, back for a clear, base otherwise. */
  function PlayerZone(c: Constants, shot: Shot): real
  {
    match shot
    case Drop => c.playerY - NetOffset
    case Clear => c.playerY + BackOffset
    case _ => c.playerY
  }

  /** The opponent's zones, mirrored: its net lies toward increasing depth. */
  function AiZone(c: Constants, shot: Shot): real
  {
    match shot
    case Drop => c.aiY + NetOffset
    case Clear => c.aiY - BackOffset
    case _ => c.aiY
  }

  /** Both sides' zones sit at the same distance from their base lines, with opposite signs. */
  lemma ZonesMirror(c: Constants, shot: Shot)
    ensures PlayerZone(c, shot) - c.playerY == -(AiZone(c, shot) - c.aiY)
  {
  }

  /** How long the opponent waits before returning a shot of kind `incoming`. */
  function ReactTime(c: Constants, incoming: Shot): real
  {
    match incoming
    case Smash => c.aiReactTime * SmashReact
    case Drop => c.aiReactTime * DropReact
    case _ => c.aiReactTime * OtherReact
  }

  /** A drop is answered soonest and a smash latest; clears and normal shots share the middle wait. */
  lemma ReactTimeOrder(c: Constants)
    requires c.aiReactTime >= 0.0
    ensures 0.0 <= ReactTime(c, Drop) <= ReactTime(c, Normal)
    ensures ReactTime(c, Normal) == ReactTime(c, Clear) <= ReactTime(c, Smash)
  {
  }

  /**
   * choose_ai_shot: the opponent's return, one of the two candidates of its
   * `random.choice` (`second` picks the later one). It never answers a smash
   * with a smash, never returns Normal, and answers Normal with a clear.
   */
  function ChooseAiShot(incoming: Shot, second: bool): (r: Shot)
    ensures r in {Smash, Clear, Drop}
    ensures incoming == Smash ==> r != Smash
    ensures incoming == Smash ==> (r == Clear <==> !second)
    ensures incoming == Drop ==> (r == Drop <==> !second) && r != Smash
    ensures incoming == Clear ==> (r == Smash <==> !second) && r != Drop
    ensures incoming == Normal ==> r == Clear
  {
    match incoming
    case Smash => if second then Drop else Clear
    case Drop => if second then Clear else Drop
    case Clear => if second then Clear else Smash
    case Normal => Clear
  }

  function RadiusFactor(shot: Shot): real
  {
    match shot
    case Smash => SmashRadius
    case Drop => DropRadius
    case _ => 1.0
  }

  /**
   * The catch radius for a returning shuttle: the base radius scaled by the
   * shot, reduced by 0.4 times the player's distance to their movement target,
   * floored at 0.3. It never exceeds the radius of a player standing still.
   */
  function DynamicRadius(c: Constants, shot: Shot, targetPlayerX: real, playerX: real): (r: real)
    ensures r >= MinRadius
    ensures r <= Max(MinRadius, c.catchRadius * RadiusFactor(shot))
  {
    Max(MinRadius, c.catchRadius * RadiusFactor(shot) - Abs(targetPlayerX - playerX) * MotionPenalty)
  }

  /** A player further from their movement target never gets a larger catch radius. */
  lemma RadiusShrinksWithMotion(c: Constants, shot: Shot, target1: real, player1: real, target2: real, player2: real)
    requires Abs(target1 - player1) <= Abs(target2 - player2)
    ensures DynamicRadius(c, shot, target2, player2) <= DynamicRadius(c, shot, target1, player1)
  {
  }

  /** One zone-smoothing step: the gap to the target shrinks to 85%, keeping its sign. */
  function Ease(y: real, target: real): real
  {
    Lerp(y, target, ZoneSmoothing)
  }

  lemma EaseNoOvershoot(y: real, target: real)
    ensures target - Ease(y, target) == (1.0 - ZoneSmoothing) * (target - y)
    ensures Between(y, target, Ease(y, target))
    ensures Abs(target - Ease(y, target)) <= Abs(target - y)
  {
    LerpBetween(y, target, ZoneSmoothing);
  }

  // ---------------- transitions ----------------

  /** start_player_hit: launch the player's shot toward the opponent. */
  function StartHit(s: Snapshot, now: real, shot: Shot, aim: real): Snapshot
    requires InAimRange(aim)
  {
    s.(shotType := shot,
       toAiX := if shot == Drop then Lerp(s.playerX, aim, DropAimPull) else aim,
       phase := ToAi,
       stateTime := now,
       lastStrokeTime := now,
       playerReady := false)
  }

  /** The TO_AI branch of update. */
  function AdvanceToAi(s: Snapshot, now: real, c: Constants): Snapshot
    requires Valid(c)
  {
    var t := FlightParam(now, s.stateTime, LegDuration(c, s.shotType));
    var startY := PlayerZone(c, s.shotType);
    var flying := s.(targetPlayerY := startY,
                     shuttleX := Lerp(s.playerX, s.toAiX, t),
                     shuttleY := Lerp(startY, c.aiY, t));
    if t >= 1.0 then
      flying.(targetAiY := AiZone(c, s.shotType),
              aiX := s.toAiX,
              shuttleX := s.toAiX,
              shuttleY := s.aiY,
              phase := AiWait,
              stateTime := now)
    else
      flying
  }

  /** The AI_WAIT branch of update. */
  function AdvanceAiWait(s: Snapshot, now: real, c: Constants, second: bool, aim: real): Snapshot
    requires InAimRange(aim)
  {
    if now - s.stateTime > ReactTime(c, s.shotType) then
      var pick := ChooseAiShot(s.shotType, second);
      s.(shotType := pick,
         toPlayerX := if pick == Drop then Lerp(s.aiX, s.playerX, AiDropPull) else aim,
         targetAiY := AiZone(c, pick),
         phase := ToPlayer,
         stateTime := now)
    else
      s
  }

  /** Where the returning shuttle is at flight parameter `t`. */
  function ReturnShuttleX(s: Snapshot, t: real): real
  {
    Lerp(s.aiX, s.toPlayerX, t)
  }

  function ReturnShuttleY(s: Snapshot, c: Constants, t: real): real
  {
    Lerp(AiZone(c, s.shotType), c.playerY, t)
  }

  function ReturnParam(s: Snapshot, now: real, c: Constants): real
    requires Valid(c)
  {
    FlightParam(now, s.stateTime, LegDuration(c, s.shotType))
  }

  /** The early-catch test of the TO_PLAYER branch. */
  predicate Catches(s: Snapshot, now: real, c: Constants)
    requires Valid(c)
  {
    var t := ReturnParam(s, now, c);
    && Abs(ReturnShuttleX(s, t) - s.playerX) < DynamicRadius(c, s.shotType, s.targetPlayerX, s.playerX)
    && Abs(ReturnShuttleY(s, c, t) - s.playerY) < CatchDepth
  }

  /** The TO_PLAYER branch of update: an early catch wins, reaching t = 1 without one loses. */
  function AdvanceToPlayer(s: Snapshot, now: real, c: Constants): Snapshot
    requires Valid(c)
  {
    var t := ReturnParam(s, now, c);
    var flying := s.(shuttleX := ReturnShuttleX(s, t), shuttleY := ReturnShuttleY(s, c, t));
    if Catches(s, now, c) then
      flying.(shuttleX := s.playerX,
              shuttleY := s.playerY,
              targetPlayerY := PlayerZone(c, s.shotType),
              phase := Idle,
              playerReady := false)
    else if t >= 1.0 then
      flying.(phase := Idle, playerReady := false)
    else
      flying
  }

  /** The zone smoothing that closes every update. */
  function EaseZones(s: Snapshot): Snapshot
  {
    s.(playerY := Ease(s.playerY, s.targetPlayerY), aiY := Ease(s.aiY, s.targetAiY))
  }

  /** update(now, constants): the state's branch, then the zone smoothing. */
  function Advance(s: Snapshot, now: real, c: Constants, second: bool, aim: real): Snapshot
    requires Valid(c) && InAimRange(aim)
  {
    var stepped :=
      match s.phase
      case Idle => s
      case ToAi => AdvanceToAi(s, now, c)
      case AiWait => AdvanceAiWait(s, now, c, second, aim)
      case ToPlayer => AdvanceToPlayer(s, now, c);
    EaseZones(stepped)
  }

  /** Every horizontal coordinate lies on the court, [0, COURT_WIDTH]. */
  predicate OnCourt(s: Snapshot, c: Constants)
  {
    && 0.0 <= s.playerX <= c.courtWidth
    && 0.0 <= s.aiX <= c.courtWidth
    && 0.0 <= s.targetPlayerX <= c.courtWidth
    && 0.0 <= s.shuttleX <= c.courtWidth
    && 0.0 <= s.toAiX <= c.courtWidth
    && 0.0 <= s.toPlayerX <= c.courtWidth
  }

  /** The phase that follows each phase of a rally. */
  predicate Successor(from: Phase, to: Phase)
  {
    match from
    case Idle => to == ToAi
    case ToAi => to == AiWait
    case AiWait => to == ToPlayer
    case ToPlayer => to == Idle
  }

  // ---------------- the mutable object ----------------

  class GameState {
    var phase: Phase
    var stateTime: real
    var lastStrokeTime: real
    var playerReady: bool
    var playerX: real
    var aiX: real
    var targetPlayerX: real
    var playerY: real
    var aiY: real
    var targetPlayerY: real
    var targetAiY: real
    var shuttleX: real
    var shuttleY: real
    var toAiX: real
    var toPlayerX: real
    var shotType: Shot

    function Snap(): Snapshot
      reads this
    {
      Snapshot(phase, stateTime, lastStrokeTime, playerReady, playerX, aiX, targetPlayerX,
               playerY, aiY, targetPlayerY, targetAiY, shuttleX, shuttleY, toAiX, toPlayerX, shotType)
    }

    constructor ()
      ensures Snap() == Initial
    {
      phase := Idle;
      stateTime := 0.0;
      lastStrokeTime := 0.0;
      playerReady := true;
      playerX := 5.0;
      aiX := 5.0;
      targetPlayerX := 5.0;
      playerY := 650.0;
      aiY := 150.0;
      targetPlayerY := playerY;
      targetAiY := aiY;
      shuttleX := 5.0;
      shuttleY := 650.0;
      toAiX := 5.0;
      toPlayerX := 5.0;
      shotType := Normal;
    }

    method StartPlayerHit(now: real, shot: Shot, aim: real)
      requires InAimRange(aim)
      modifies this
      ensures Snap() == StartHit(old(Snap()), now, shot, aim)
    {
      shotType := shot;
      if shot == Drop {
        toAiX := playerX + (aim - playerX) * DropAimPull;
      } else {
        toAiX := aim;
      }
      phase := ToAi;
      stateTime := now;
      lastStrokeTime := now;
      playerReady := false;
    }

    method Update(now: real, c: Constants, second: bool, aim: real)
      requires Valid(c) && InAimRange(aim)
      modifies this
      ensures Snap() == Advance(old(Snap()), now, c, second, aim)
    {
      if phase == ToAi {
        FlyToAi(now, c);
      } else if phase == AiWait {
        AwaitReturn(now, c, second, aim);
      } else if phase == ToPlayer {
        FlyToPlayer(now, c);
      }
      SmoothZones();
    }

    /** The TO_AI branch of update. */
    method FlyToAi(now: real, c: Constants)
      requires Valid(c)
      modifies this
      ensures Snap() == AdvanceToAi(old(Snap()), now, c)
    {
      var shot := shotType;
      var t := FlightParam(now, stateTime, LegDuration(c, shot));
      var startY := PlayerZone(c, shot);
      targetPlayerY := startY;
      shuttleX := playerX + (toAiX - playerX) * t;
      shuttleY := startY + (c.aiY - startY) * t;
      if t >= 1.0 {
        targetAiY := AiZone(c, shot);
        aiX := toAiX;
        shuttleX, shuttleY := aiX, aiY;
        phase := AiWait;
        stateTime := now;
      }
    }

    /** The AI_WAIT branch of update. */
    method AwaitReturn(now: real, c: Constants, second: bool, aim: real)
      requires InAimRange(aim)
      modifies this
      ensures Snap() == AdvanceAiWait(old(Snap()), now, c, second, aim)
    {
      if now - stateTime > ReactTime(c, shotType) {
        var pick := ChooseAiShot(shotType, second);
        shotType := pick;
        if pick == Drop {
          toPlayerX := aiX + (playerX - aiX) * AiDropPull;
        } else {
          toPlayerX := aim;
        }
        targetAiY := AiZone(c, pick);
        phase := ToPlayer;
        stateTime := now;
      }
    }

    /** The TO_PLAYER branch of update. */
    method FlyToPlayer(now: real, c: Constants)
      requires Valid(c)
      modifies this
      ensures Snap() == AdvanceToPlayer(old(Snap()), now, c)
    {
      ghost var before := Snap();
      var shot := shotType;
      var t := FlightParam(now, stateTime, LegDuration(c, shot));
      var startY := AiZone(c, shot);
      shuttleX := aiX + (toPlayerX - aiX) * t;
      shuttleY := startY + (c.playerY - startY) * t;
      assert t == ReturnParam(before, now, c);
      assert shuttleX == ReturnShuttleX(before, t) && shuttleY == ReturnShuttleY(before, c, t);
      var radius := c.catchRadius;
      if shot == Smash {
        radius := radius * SmashRadius;
      } else if shot == Drop {
        radius := radius * DropRadius;
      }
      radius := radius - Abs(targetPlayerX - playerX) * MotionPenalty;
      radius := Max(MinRadius, radius);
      assert radius == DynamicRadius(c, shot, targetPlayerX, playerX);
      var distX := Abs(shuttleX - playerX);
      var distY := Abs(shuttleY - playerY);
      assert distX < radius && distY < CatchDepth <==> Catches(before, now, c);
      if distX < radius && distY < CatchDepth {
        shuttleX := playerX;
        shuttleY := playerY;
        targetPlayerY := PlayerZone(c, shot);
        phase := Idle;
        playerReady := false;
      } else if t >= 1.0 {
        phase := Idle;
        playerReady := false;
      }
    }

    /** The zone smoothing that closes every update. */
    method SmoothZones()
      modifies this
      ensures Snap() == EaseZones(old(Snap()))
    {
      playerY := playerY + (targetPlayerY - playerY) * ZoneSmoothing;
      aiY := aiY + (targetAiY - aiY) * ZoneSmoothing;
    }
  }
}

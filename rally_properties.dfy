/** What start_player_hit and update guarantee, proved about the model in module Rally. */
module RallyProperties {
  import opened RealMath
  import opened Shots
  import opened Config
  import opened Rally

  /**
   * start_player_hit enters TO_AI at `now`, clears the ready flag, records the
   * shot and aims inside [1.5, 8.5]; a drop instead lands 40% of the way from
   * the player toward the random target. Nothing else changes.
   */
  lemma StartHitEffect(s: Snapshot, now: real, shot: Shot, aim: real)
    requires InAimRange(aim)
    ensures var r := StartHit(s, now, shot, aim);
      && r.phase == ToAi && r.stateTime == now && r.lastStrokeTime == now
      && !r.playerReady && r.shotType == shot
      && (shot != Drop ==> InAimRange(r.toAiX))
      && (shot == Drop ==> r.toAiX == s.playerX + (aim - s.playerX) * DropAimPull && Between(s.playerX, aim, r.toAiX))
      && r.(phase := s.phase, stateTime := s.stateTime, lastStrokeTime := s.lastStrokeTime,
            playerReady := s.playerReady, shotType := s.shotType, toAiX := s.toAiX) == s
  {
    LerpBetween(s.playerX, aim, DropAimPull);
  }

  /**
   * While the player's shot is in the air the state stays TO_AI, the player
   * recoils to the shot's zone and the shuttle lies on the leg between the
   * player and the landing point.
   */
  lemma ToAiInFlight(s: Snapshot, now: real, c: Constants, second: bool, aim: real)
    requires Valid(c) && InAimRange(aim)
    requires s.phase == ToAi && now - s.stateTime < LegDuration(c, s.shotType)
    ensures var r := Advance(s, now, c, second, aim);
      var t := FlightParam(now, s.stateTime, LegDuration(c, s.shotType));
      && t < 1.0
      && r.phase == ToAi && r.stateTime == s.stateTime && r.shotType == s.shotType
      && r.targetPlayerY == PlayerZone(c, s.shotType) && r.targetAiY == s.targetAiY && r.aiX == s.aiX
      && r.shuttleX == Lerp(s.playerX, s.toAiX, t)
      && r.shuttleY == Lerp(PlayerZone(c, s.shotType), c.aiY, t)
      && (now >= s.stateTime ==>
            0.0 <= t && Between(s.playerX, s.toAiX, r.shuttleX)
            && Between(PlayerZone(c, s.shotType), c.aiY, r.shuttleY))
  {
    var t := FlightParam(now, s.stateTime, LegDuration(c, s.shotType));
    if now >= s.stateTime {
      LerpBetween(s.playerX, s.toAiX, t);
      LerpBetween(PlayerZone(c, s.shotType), c.aiY, t);
    }
  }

  /**
   * Once the leg's duration has elapsed the opponent takes the shuttle: it
   * moves to the landing point, the shuttle snaps to it, the opponent's target
   * zone follows the shot and AI_WAIT starts at `now`.
   */
  lemma ToAiCompletes(s: Snapshot, now: real, c: Constants, second: bool, aim: real)
    requires Valid(c) && InAimRange(aim)
    requires s.phase == ToAi && now - s.stateTime >= LegDuration(c, s.shotType)
    ensures var r := Advance(s, now, c, second, aim);
      && r.phase == AiWait && r.stateTime == now && r.shotType == s.shotType
      && r.aiX == s.toAiX && r.shuttleX == s.toAiX && r.shuttleY == s.aiY
      && r.targetAiY == AiZone(c, s.shotType) && r.targetPlayerY == PlayerZone(c, s.shotType)
      && r.playerReady == s.playerReady
  {
  }

  /** The opponent waits while no more than its shot-scaled reaction time has passed. */
  lemma AiWaitHolds(s: Snapshot, now: real, c: Constants, second: bool, aim: real)
    requires Valid(c) && InAimRange(aim)
    requires s.phase == AiWait && now - s.stateTime <= ReactTime(c, s.shotType)
    ensures Advance(s, now, c, second, aim) == EaseZones(s)
  {
  }

  /**
   * After its reaction time the opponent returns: TO_PLAYER starts at `now`
   * with the opponent's pick, never a smash in answer to a smash; a drop is
   * aimed 60% of the way from the opponent toward the player, anything else
   * at the random target.
   */
  lemma AiWaitReturns(s: Snapshot, now: real, c: Constants, second: bool, aim: real)
    requires Valid(c) && InAimRange(aim)
    requires s.phase == AiWait && now - s.stateTime > ReactTime(c, s.shotType)
    ensures var r := Advance(s, now, c, second, aim);
      && r.phase == ToPlayer && r.stateTime == now
      && r.shotType == ChooseAiShot(s.shotType, second)
      && (s.shotType == Smash ==> r.shotType != Smash)
      && (r.shotType == Drop ==>
            r.toPlayerX == s.aiX + (s.playerX - s.aiX) * AiDropPull && Between(s.aiX, s.playerX, r.toPlayerX))
      && (r.shotType != Drop ==> r.toPlayerX == aim)
      && r.targetAiY == AiZone(c, r.shotType)
      && r.aiX == s.aiX && r.shuttleX == s.shuttleX && r.shuttleY == s.shuttleY
  {
    LerpBetween(s.aiX, s.playerX, AiDropPull);
  }

  /**
   * An early catch wins the rally at any point of the return flight: IDLE,
   * not ready, the shuttle on the player and the player's zone per the shot.
   */
  lemma CatchWins(s: Snapshot, now: real, c: Constants, second: bool, aim: real)
    requires Valid(c) && InAimRange(aim)
    requires s.phase == ToPlayer && Catches(s, now, c)
    ensures var r := Advance(s, now, c, second, aim);
      && r.phase == Idle && !r.playerReady
      && r.shuttleX == s.playerX && r.shuttleY == s.playerY
      && r.targetPlayerY == PlayerZone(c, s.shotType)
  {
  }

  /**
   * The return flight ends exactly when the player catches the shuttle or its
   * duration has elapsed; until then it stays TO_PLAYER with the ready flag and
   * the leg untouched, so a miss is never resolved before t reaches 1.
   */
  lemma ReturnResolves(s: Snapshot, now: real, c: Constants, second: bool, aim: real)
    requires Valid(c) && InAimRange(aim)
    requires s.phase == ToPlayer
    ensures var r := Advance(s, now, c, second, aim);
      && (r.phase == Idle <==> Catches(s, now, c) || now - s.stateTime >= LegDuration(c, s.shotType))
      && (r.phase == Idle ==> !r.playerReady)
      && (r.phase != Idle ==>
            r.phase == ToPlayer && r.playerReady == s.playerReady && r.stateTime == s.stateTime
            && r.shotType == s.shotType && r.toPlayerX == s.toPlayerX)
  {
  }

  /** Without a catch the returning shuttle lies between the opponent and the aim point. */
  lemma ReturnFlightBetween(s: Snapshot, now: real, c: Constants, second: bool, aim: real)
    requires Valid(c) && InAimRange(aim)
    requires s.phase == ToPlayer && now >= s.stateTime && !Catches(s, now, c)
    ensures Between(s.aiX, s.toPlayerX, Advance(s, now, c, second, aim).shuttleX)
  {
    LerpBetween(s.aiX, s.toPlayerX, ReturnParam(s, now, c));
  }

  /**
   * Every update, in every state, moves both depths 15% of the way to their
   * (possibly just updated) targets, so each gap keeps its sign and shrinks to
   * 85%; the depths never overshoot.
   */
  lemma ZonesEaseEveryUpdate(s: Snapshot, now: real, c: Constants, second: bool, aim: real)
    requires Valid(c) && InAimRange(aim)
    ensures var r := Advance(s, now, c, second, aim);
      && r.targetPlayerY - r.playerY == (1.0 - ZoneSmoothing) * (r.targetPlayerY - s.playerY)
      && r.targetAiY - r.aiY == (1.0 - ZoneSmoothing) * (r.targetAiY - s.aiY)
      && Between(s.playerY, r.targetPlayerY, r.playerY)
      && Between(s.aiY, r.targetAiY, r.aiY)
  {
    var r := Advance(s, now, c, second, aim);
    EaseNoOvershoot(s.playerY, r.targetPlayerY);
    EaseNoOvershoot(s.aiY, r.targetAiY);
  }

  /** In IDLE an update only eases the zones. */
  lemma IdleOnlyEases(s: Snapshot, now: real, c: Constants, second: bool, aim: real)
    requires Valid(c) && InAimRange(aim)
    requires s.phase == Idle
    ensures Advance(s, now, c, second, aim) == EaseZones(s)
  {
  }

  /** An update keeps the phase or moves it one step along IDLE, TO_AI, AI_WAIT, TO_PLAYER. */
  lemma UpdateFollowsCycle(s: Snapshot, now: real, c: Constants, second: bool, aim: real)
    requires Valid(c) && InAimRange(aim)
    ensures var r := Advance(s, now, c, second, aim);
      r.phase == s.phase || (Successor(s.phase, r.phase) && s.phase != Idle)
  {
  }

  /**
   * Calling update a second time with the same `now` only eases the zones
   * again, unless the first call left the state in TO_PLAYER (where the catch
   * test reads the freshly eased player depth).
   */
  lemma SecondUpdateOnlyEases(s: Snapshot, now: real, c: Constants, second: bool, aim: real,
                              second2: bool, aim2: real)
    requires Valid(c) && InAimRange(aim) && InAimRange(aim2)
    requires c.aiReactTime >= 0.0
    requires Advance(s, now, c, second, aim).phase != ToPlayer
    ensures var r := Advance(s, now, c, second, aim);
      Advance(r, now, c, second2, aim2) == EaseZones(r)
  {
    var r := Advance(s, now, c, second, aim);
    ReactTimeOrder(c);
    if r.phase == ToAi {
      assert s.phase == ToAi;
      assert r.stateTime == s.stateTime && r.shotType == s.shotType;
      assert AdvanceToAi(r, now, c) == r;
    }
  }

  /**
   * The first exclusion of SecondUpdateOnlyEases is forced: an update that
   * lets the opponent return leaves the shuttle where TO_AI snapped it, and a
   * second update at the same `now` places it at the start of the return leg.
   */
  lemma SecondUpdateMovesReturnShuttle()
    ensures Valid(Default)
    ensures var s := Snapshot(AiWait, 0.0, 0.0, true, 5.0, 9.0, 5.0, 650.0, 150.0, 650.0, 150.0,
                              9.0, 100.0, 9.0, 5.0, Clear);
      var r := Advance(s, 1.0, Default, false, 5.0);
      && r.phase == ToPlayer && r.shuttleY == 100.0
      && Advance(r, 1.0, Default, false, 5.0).shuttleY == 150.0
      && Advance(r, 1.0, Default, false, 5.0) != EaseZones(r)
  {
    DefaultValid();
    var s := Snapshot(AiWait, 0.0, 0.0, true, 5.0, 9.0, 5.0, 650.0, 150.0, 650.0, 150.0,
                      9.0, 100.0, 9.0, 5.0, Clear);
    var r := Snapshot(ToPlayer, 1.0, 0.0, true, 5.0, 9.0, 5.0, 650.0, 150.0, 650.0, 150.0,
                      9.0, 100.0, 9.0, 5.0, Smash);
    assert ReactTime(Default, Clear) < 1.0;
    assert AdvanceAiWait(s, 1.0, Default, false, 5.0) == r;
    assert Ease(650.0, 650.0) == 650.0 && Ease(150.0, 150.0) == 150.0;
    assert Advance(s, 1.0, Default, false, 5.0) == r;
    assert LegDuration(Default, Smash) > 0.0;
    assert ReturnParam(r, 1.0, Default) == 0.0;
    assert ReturnShuttleX(r, 0.0) == 9.0 && ReturnShuttleY(r, Default, 0.0) == 150.0;
    assert DynamicRadius(Default, Smash, 5.0, 5.0) < 4.0;
    assert !Catches(r, 1.0, Default);
    assert AdvanceToPlayer(r, 1.0, Default).shuttleY == 150.0;
  }

  /**
   * The second exclusion is forced too: a return flight that misses on the
   * first update can be caught on a second update at the same `now`, because
   * the catch test reads the player depth the first update eased.
   */
  lemma SecondUpdateCatchesAfterEasing()
    ensures Valid(Default)
    ensures var s := Snapshot(ToPlayer, 0.0, 0.0, false, 5.0, 5.0, 5.0, 186.0, 150.0, 150.0, 150.0,
                              5.0, 150.0, 5.0, 5.0, Normal);
      var r := Advance(s, 0.0, Default, false, 5.0);
      && r.phase == ToPlayer && r.playerY == 180.6
      && Advance(r, 0.0, Default, false, 5.0).phase == Idle
  {
    DefaultValid();
    var s := Snapshot(ToPlayer, 0.0, 0.0, false, 5.0, 5.0, 5.0, 186.0, 150.0, 150.0, 150.0,
                      5.0, 150.0, 5.0, 5.0, Normal);
    assert ReturnParam(s, 0.0, Default) == 0.0;
    assert !Catches(s, 0.0, Default);
    var r := Advance(s, 0.0, Default, false, 5.0);
    assert r.playerY == 180.6 && r.stateTime == 0.0;
    assert ReturnParam(r, 0.0, Default) == 0.0;
    assert Catches(r, 0.0, Default);
  }

  /** update never turns the ready flag on; only the input step does. */
  lemma UpdateNeverReadies(s: Snapshot, now: real, c: Constants, second: bool, aim: real)
    requires Valid(c) && InAimRange(aim)
    requires !s.playerReady
    ensures !Advance(s, now, c, second, aim).playerReady
  {
  }

  /** The court invariant holds after a hit, given the random target range lies on the court. */
  lemma StartHitKeepsOnCourt(s: Snapshot, c: Constants, now: real, shot: Shot, aim: real)
    requires InAimRange(aim) && OnCourt(s, c)
    requires 0.0 <= AimLow && AimHigh <= c.courtWidth
    ensures OnCourt(StartHit(s, now, shot, aim), c)
  {
    LerpBetween(s.playerX, aim, DropAimPull);
  }

  /**
   * update keeps every horizontal coordinate on the court, and the state's
   * start time never lies after `now`, provided time has not run backward.
   */
  lemma AdvanceKeepsOnCourt(s: Snapshot, now: real, c: Constants, second: bool, aim: real)
    requires Valid(c) && InAimRange(aim) && OnCourt(s, c)
    requires 0.0 <= AimLow && AimHigh <= c.courtWidth
    requires s.stateTime <= now
    ensures var r := Advance(s, now, c, second, aim);
      OnCourt(r, c) && r.stateTime <= now
  {
    var dur := LegDuration(c, s.shotType);
    var t := FlightParam(now, s.stateTime, dur);
    match s.phase
    case Idle =>
    case ToAi =>
      LerpBetween(s.playerX, s.toAiX, t);
    case AiWait =>
      LerpBetween(s.aiX, s.playerX, AiDropPull);
    case ToPlayer =>
      LerpBetween(s.aiX, s.toPlayerX, t);
  }
}

/**
 * The tunable constant table the game loop passes to the rally engine
 * (main.py:10-31), as one record.
 */
module Config {
  import opened Shots

  datatype Constants = Constants(
    courtWidth: real,
    screenW: int,
    screenH: int,
    playerY: real,
    aiY: real,
    shuttleTime: real,
    aiReactTime: real,
    cooldown: real,
    moveThreshold: real,
    neutralThreshold: real,
    handSensitivity: real,
    smoothing: real,
    maxPlayerSpeed: real,
    catchRadius: real,
    shotTimeModifiers: map<Shot, real>)

  /**
   * What the engine's arithmetic needs of the table: the leg duration is a
   * divisor (engine/state.py:89, :149), so the base time and every per-shot
   * multiplier are positive, and the court width divides in `to_px`.
   */
  predicate Valid(c: Constants)
  {
    && c.courtWidth > 0.0
    && c.shuttleTime > 0.0
    && forall s :: s in c.shotTimeModifiers ==> c.shotTimeModifiers[s] > 0.0
  }

  /** The table the shipped game uses. */
  const Default: Constants := Constants(
    10.0, 600, 800, 650.0, 150.0, 0.65, 0.4, 0.8, 0.035, 0.012, 1.8, 0.35, 0.9, 0.8,
    map[Smash := 0.45, Clear := 1.6, Drop := 0.9, Normal := 1.0])

  /** `SHOT_TIME_MODIFIERS.get(shot, 1.0)`: a shot missing from the table runs at the base time. */
  function TimeModifier(c: Constants, shot: Shot): (m: real)
    requires Valid(c)
    ensures m > 0.0
    ensures shot !in c.shotTimeModifiers ==> m == 1.0
  {
    if shot in c.shotTimeModifiers then c.shotTimeModifiers[shot] else 1.0
  }

  /** Duration of a flight leg carrying `shot`: base time times the shot's multiplier. */
  function LegDuration(c: Constants, shot: Shot): (d: real)
    requires Valid(c)
    ensures d > 0.0
  {
    c.shuttleTime * TimeModifier(c, shot)
  }

  lemma DefaultValid()
    ensures Valid(Default)
  {
  }

  /** With the shipped table a smash is the fastest leg and a clear the slowest. */
  lemma DefaultLegOrder()
    ensures LegDuration(Default, Smash) < LegDuration(Default, Drop)
    ensures LegDuration(Default, Drop) < LegDuration(Default, Normal)
    ensures LegDuration(Default, Normal) < LegDuration(Default, Clear)
  {
  }
}

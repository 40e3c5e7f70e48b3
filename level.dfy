/**
 * The level registry of client/src/lib/game/Level.ts: one hand-authored
 * level, looked up by number with a fall-back to level 1.
 */
module LevelModel {
  import opened Geometry

  datatype Point = Point(x: real, y: real)
  datatype CoinSpawn = CoinSpawn(x: real, y: real)
  datatype EnemySpawn = EnemySpawn(x: real, y: real, speed: real, patrolDistance: real)
  datatype PowerUpSpawn = PowerUpSpawn(x: real, y: real, kind: string)

  /** The `LevelData` record. */
  datatype LevelData = LevelData(
    playerStart: Point,
    platforms: seq<Rect>,
    coins: seq<CoinSpawn>,
    enemies: seq<EnemySpawn>,
    powerUps: seq<PowerUpSpawn>,
    goal: Rect)

  /** Total level width and height, used for the ground and the camera bounds. */
  const Width: real := 2000.0
  const Height: real := 600.0

  const Level1: LevelData := LevelData(
    Point(50.0, 400.0),
    [ Rect(200.0, 450.0, 200.0, 30.0),
      Rect(500.0, 400.0, 150.0, 30.0),
      Rect(700.0, 350.0, 200.0, 30.0),
      Rect(1000.0, 400.0, 150.0, 30.0),
      Rect(1200.0, 350.0, 100.0, 30.0),
      Rect(1400.0, 300.0, 200.0, 30.0),
      Rect(1700.0, 350.0, 200.0, 30.0) ],
    [ CoinSpawn(250.0, 400.0), CoinSpawn(300.0, 400.0), CoinSpawn(550.0, 350.0),
      CoinSpawn(800.0, 300.0), CoinSpawn(1050.0, 350.0), CoinSpawn(1230.0, 300.0),
      CoinSpawn(1450.0, 250.0), CoinSpawn(1500.0, 250.0), CoinSpawn(1780.0, 300.0),
      CoinSpawn(1830.0, 300.0) ],
    [ EnemySpawn(300.0, 518.0, 50.0, 150.0),
      EnemySpawn(800.0, 318.0, 60.0, 150.0),
      EnemySpawn(1500.0, 268.0, 70.0, 150.0) ],
    [ PowerUpSpawn(600.0, 350.0, "speed"),
      PowerUpSpawn(1300.0, 300.0, "jump") ],
    Rect(1900.0, 510.0, 40.0, 150.0))

  /** The `levels` record, keyed by level number. */
  const Levels: map<int, LevelData> := map[1 := Level1]

  /** `getLevel(n)`: the level stored under `n`, or level 1 when there is none. */
  function GetLevel(levelNumber: int): (d: LevelData)
    ensures levelNumber in Levels ==> d == Levels[levelNumber]
    ensures levelNumber !in Levels ==> d == Levels[1]
  {
    if levelNumber in Levels then Levels[levelNumber] else Levels[1]
  }

  /** `getLevelCount()`: the number of keys of `levels`. */
  function GetLevelCount(): (c: nat)
    ensures c == 1
  {
    |Levels.Keys|
  }

  /** Only level 1 exists, so every lookup yields it. */
  lemma EveryNumberGivesLevel1(levelNumber: int)
    ensures GetLevel(levelNumber) == GetLevel(1) == Level1
  {
  }

  /** The shape of level 1: entity counts, power-up kinds, start and goal, and platforms of positive size inside the level. */
  lemma Level1Shape()
    ensures |Level1.platforms| == 7 && |Level1.coins| == 10
    ensures |Level1.enemies| == 3 && |Level1.powerUps| == 2
    ensures Level1.powerUps[0].kind == "speed" && Level1.powerUps[1].kind == "jump"
    ensures Level1.playerStart == Point(50.0, 400.0) && Level1.goal == Rect(1900.0, 510.0, 40.0, 150.0)
    ensures forall i :: 0 <= i < |Level1.platforms| ==>
              Level1.platforms[i].width > 0.0 && Level1.platforms[i].height > 0.0 &&
              0.0 <= Level1.platforms[i].x && Level1.platforms[i].x + Level1.platforms[i].width <= Width
  {
  }
}

/**
 * The `GameEngine` class of client/src/lib/game/Engine.ts: it owns the
 * player, the level's platforms, coins, enemies and power-ups, the goal and
 * the camera, and runs one frame of the simulation per `update`. The
 * callbacks it makes are recorded, in order, in the ghost field `events`.
 */
module Engine {
  import opened Geometry
  import opened Seqs
  import opened PlayerModel
  import opened CollisionDetection
  import Physics
  import EnemyModel
  import LevelModel
  import opened InputModel
  import opened GameStateModel
  import opened EngineModel

  /** The values of a list of enemy objects. */
  ghost function DataOf(es: seq<EnemyModel.Enemy>): (r: seq<EnemyModel.EnemyData>)
    reads es
    ensures |r| == |es|
  {
    if es == [] then [] else DataOf(es[..|es| - 1]) + [es[|es| - 1].Data()]
  }

  lemma {:induction false} DataOfIndex(es: seq<EnemyModel.Enemy>)
    decreases |es|
    ensures forall k :: 0 <= k < |es| ==> DataOf(es)[k] == es[k].Data()
  {
    if es != [] {
      DataOfIndex(es[..|es| - 1]);
    }
  }

  lemma DataOfSnoc(es: seq<EnemyModel.Enemy>, e: EnemyModel.Enemy)
    ensures DataOf(es + [e]) == DataOf(es) + [e.Data()]
  {
    assert (es + [e])[..|es|] == es;
  }

  ghost predicate Distinct(es: seq<EnemyModel.Enemy>)
  {
    forall i, j :: 0 <= i < j < |es| ==> es[i] != es[j]
  }

  /** The enemies of a list that are not defeated, in order: the filter `update` ends its enemy pass with. */
  method KeepAlive(all: seq<EnemyModel.Enemy>) returns (kept: seq<EnemyModel.Enemy>)
    requires Distinct(all)
    ensures DataOf(kept) == Filter(DataOf(all), Alive)
    ensures forall e :: e in kept ==> e in all
    ensures Distinct(kept)
  {
    kept := [];
    var i := 0;
    while i < |all|
      invariant 0 <= i <= |all|
      invariant DataOf(kept) == Filter(DataOf(all[..i]), Alive)
      invariant forall e :: e in kept ==> e in all[..i]
      invariant Distinct(kept)
    {
      var enemy := all[i];
      assert all[..i + 1] == all[..i] + [enemy];
      DataOfSnoc(all[..i], enemy);
      FilterSnoc(DataOf(all[..i]), enemy.Data(), Alive);
      if !enemy.IsDefeated() {
        assert enemy !in kept;
        DataOfSnoc(kept, enemy);
        kept := kept + [enemy];
      }
      i := i + 1;
    }
    assert all[..i] == all;
  }

  /** The ground, then a copy of each level platform. */
  method LayPlatforms(spawns: seq<Rect>) returns (r: seq<Rect>)
    ensures r == [Ground] + spawns
  {
    r := [Rect(0.0, LevelModel.Height - GroundHeight, LevelModel.Width, GroundHeight)];
    var i := 0;
    while i < |spawns|
      invariant 0 <= i <= |spawns|
      invariant r == [Ground] + spawns[..i]
    {
      r := r + [spawns[i]];
      assert spawns[..i + 1] == spawns[..i] + [spawns[i]];
      i := i + 1;
    }
    assert spawns[..i] == spawns;
  }

  /** A 16 by 16 coin worth 10 at each spawn point. */
  method LayCoins(spawns: seq<LevelModel.CoinSpawn>) returns (r: seq<Coin>)
    ensures r == PlacedCoins(spawns)
  {
    r := [];
    var i := 0;
    assert spawns[..0] == [];
    while i < |spawns|
      invariant 0 <= i <= |spawns|
      invariant r == PlacedCoins(spawns[..i])
    {
      r := r + [Coin(spawns[i].x, spawns[i].y, CoinSize, CoinSize, CoinValue)];
      assert spawns[..i + 1][..i] == spawns[..i];
      i := i + 1;
    }
    assert spawns[..i] == spawns;
  }

  /** A new 32 by 32 enemy at each spawn point. */
  method LayEnemies(spawns: seq<LevelModel.EnemySpawn>) returns (r: seq<EnemyModel.Enemy>)
    ensures DataOf(r) == PlacedEnemies(spawns)
    ensures forall a, b :: 0 <= a < b < |r| ==> r[a] != r[b]
    ensures forall e :: e in r ==> fresh(e)
  {
    r := [];
    var i := 0;
    assert spawns[..0] == [];
    while i < |spawns|
      invariant 0 <= i <= |spawns|
      invariant DataOf(r) == PlacedEnemies(spawns[..i])
      invariant forall a, b :: 0 <= a < b < |r| ==> r[a] != r[b]
      invariant forall e :: e in r ==> fresh(e)
    {
      var spawn := spawns[i];
      var enemy := new EnemyModel.Enemy(spawn.x, spawn.y, EnemySize, EnemySize, spawn.speed, spawn.patrolDistance);
      DataOfSnoc(r, enemy);
      r := r + [enemy];
      assert spawns[..i + 1][..i] == spawns[..i];
      i := i + 1;
    }
    assert spawns[..i] == spawns;
  }

  /** A 24 by 24 power-up of the spawn's type at each spawn point. */
  method LayPowerUps(spawns: seq<LevelModel.PowerUpSpawn>) returns (r: seq<PowerUp>)
    ensures r == PlacedPowerUps(spawns)
  {
    r := [];
    var i := 0;
    assert spawns[..0] == [];
    while i < |spawns|
      invariant 0 <= i <= |spawns|
      invariant r == PlacedPowerUps(spawns[..i])
    {
      r := r + [PowerUp(spawns[i].x, spawns[i].y, PowerUpSize, PowerUpSize, spawns[i].kind)];
      assert spawns[..i + 1][..i] == spawns[..i];
      i := i + 1;
    }
    assert spawns[..i] == spawns;
  }

  class GameEngine {
    /** the canvas size */
    const width: real
    const height: real
    const player: Player
    var platforms: seq<Rect>
    var coins: seq<Coin>
    var enemies: seq<EnemyModel.Enemy>
    var powerUps: seq<PowerUp>
    const goal: Rect
    const input: Input
    const gameState: GameState
    var cameraX: real
    var cameraY: real
    /** the `GameEvents` callbacks made so far */
    ghost var events: seq<Event>

    /** No enemy object is listed twice. */
    ghost predicate Valid()
      reads this`enemies
    {
      Distinct(enemies)
    }

    ghost function Snapshot(): World
      reads this, player, enemies
    {
      World(player.Data(), platforms, coins, DataOf(enemies), powerUps, goal, cameraX, cameraY, width, height)
    }

    /** The world and the callbacks made so far, as a frame in progress. */
    ghost function Current(): Step
      reads this, player, enemies
    {
      Step(Snapshot(), events)
    }

    /**
     * A new engine: fresh key state, the saved progress loaded from the
     * store, and level 1 laid out with the player at its start.
     */
    constructor (canvasWidth: real, canvasHeight: real, store: Store)
      ensures Valid()
      ensures Snapshot() == Started(canvasWidth, canvasHeight)
      ensures events == []
      ensures fresh(player) && fresh(input) && fresh(gameState)
      ensures forall e :: e in enemies ==> fresh(e)
      ensures input.keys == NoKeys
      ensures gameState.store == store && gameState.Record() == Loaded(Defaults, store.items).state
    {
      width := canvasWidth;
      height := canvasHeight;
      input := new Input();
      gameState := new GameState(store);
      var levelData := LevelModel.GetLevel(1);
      player := new Player(levelData.playerStart.x, levelData.playerStart.y, PlayerWidth, PlayerHeight);
      goal := levelData.goal;
      cameraX, cameraY := 0.0, 0.0;
      platforms, coins, enemies, powerUps := [], [], [], [];
      events := [];
      new;
      InitializeLevel(levelData);
    }

    /** `initializeLevel(levelData)`: clear the four lists, then lay out the ground and the level. */
    method InitializeLevel(d: LevelModel.LevelData)
      modifies this`platforms, this`coins, this`enemies, this`powerUps
      ensures platforms == [Ground] + d.platforms
      ensures coins == PlacedCoins(d.coins)
      ensures DataOf(enemies) == PlacedEnemies(d.enemies)
      ensures powerUps == PlacedPowerUps(d.powerUps)
      ensures Valid()
      ensures forall e :: e in enemies ==> fresh(e)
    {
      platforms, coins, enemies, powerUps := [], [], [], [];
      platforms := LayPlatforms(d.platforms);
      coins := LayCoins(d.coins);
      enemies := LayEnemies(d.enemies);
      powerUps := LayPowerUps(d.powerUps);
    }

    /** `update(deltaTime)`: one frame, exactly as `Tick` describes it. */
    method Update(deltaTime: real)
      requires Valid()
      modifies this, player, enemies
      ensures Valid()
      ensures forall e :: e in enemies ==> e in old(enemies)
      ensures Current() == Frame(old(Current()), deltaTime)
    {
      MoveAndMeet(deltaTime);
      CollectAndFollow();
    }

    /** The first half of a frame: the player moves, takes coins, and meets the enemies. */
    method MoveAndMeet(deltaTime: real)
      requires Valid()
      modifies this, player, enemies
      ensures Valid()
      ensures forall e :: e in enemies ==> e in old(enemies)
      ensures Current() == PruneStage(EnemyStage(CoinStage(PlayerStage(old(Current()), deltaTime)), deltaTime))
    {
      StepPlayer(deltaTime);
      CollectCoins();
      UpdateEnemies(deltaTime);
      RemoveDefeated();
    }

    /** The second half of a frame: power-ups, the goal, the camera. */
    method CollectAndFollow()
      modifies this, player
      ensures enemies == old(enemies)
      ensures Current() == CameraStage(GoalStage(PowerUpStage(old(Current()))))
    {
      CollectPowerUps();
      CheckGoal();
      UpdateCamera();
    }

    /** The coin stage of a frame. */
    method CollectCoins()
      modifies this`coins, this`events
      ensures Current() == CoinStage(old(Current()))
    {
      CoinLoop();
    }

    /** The enemy stage of a frame. */
    method UpdateEnemies(deltaTime: real)
      requires Valid()
      modifies player, enemies, this`events
      ensures Current() == EnemyStage(old(Current()), deltaTime)
    {
      EnemyLoop(deltaTime);
    }

    /** The pruning stage of a frame. */
    method RemoveDefeated()
      requires Valid()
      modifies this`enemies
      ensures Valid()
      ensures forall e :: e in enemies ==> e in old(enemies)
      ensures Current() == PruneStage(old(Current()))
    {
      PruneLoop();
    }

    /** The power-up stage of a frame. */
    method CollectPowerUps()
      modifies player, this`powerUps, this`events
      ensures Current() == PowerUpStage(old(Current()))
    {
      PowerUpLoop();
    }

    /** The opening of `update`: foot sensor, player update, physics, platform pass. */
    method StepPlayer(deltaTime: real)
      modifies player
      ensures player.Data() == PlayerPass(old(player.Data()), platforms, deltaTime)
      ensures Current() == PlayerStage(old(Current()), deltaTime)
    {
      player.grounded := CheckGrounded(player.Data(), platforms);
      player.Update(deltaTime);
      Physics.ApplyPhysics(player, deltaTime);
      ResolvePlatforms();
    }

    /** The platform loop of `update`. */
    method ResolvePlatforms()
      modifies player
      ensures player.Data() == PlatformSweep(old(player.Data()), platforms)
    {
      ghost var p0 := player.Data();
      var i := 0;
      while i < |platforms|
        invariant 0 <= i <= |platforms|
        invariant player.Data() == PlatformSweep(p0, platforms[..i])
      {
        assert platforms[..i + 1][..i] == platforms[..i];
        if CheckCollision(player.Data().Box(), platforms[i]) {
          ResolveCollision(player, platforms[i]);
        }
        i := i + 1;
      }
      assert platforms[..i] == platforms;
    }

    /** The coin filter of `update`. */
    method CoinLoop()
      modifies this`coins, this`events
      ensures var pass := CoinSweep(player.Data().Box(), old(coins));
              coins == pass.kept && events == old(events) + pass.events
    {
      ghost var ev0 := events;
      var box := player.Data().Box();
      var all := coins;
      var kept: seq<Coin> := [];
      var i := 0;
      while i < |all|
        invariant 0 <= i <= |all|
        invariant kept == CoinSweep(box, all[..i]).kept
        invariant events == ev0 + CoinSweep(box, all[..i]).events
      {
        assert all[..i + 1][..i] == all[..i];
        var coin := all[i];
        if CheckCollision(box, coin.Box()) {
          AppendAssoc(ev0, CoinSweep(box, all[..i]).events, [CoinCollected(coin.value)]);
          events := events + [CoinCollected(coin.value)];
        } else {
          kept := kept + [coin];
        }
        i := i + 1;
      }
      assert all[..i] == all;
      coins := kept;
    }

    /** The enemy loop of `update`. */
    method EnemyLoop(deltaTime: real)
      requires Valid()
      modifies player, enemies, this`events
      ensures var pass := EnemySweep(old(player.Data()), old(DataOf(enemies)), platforms, deltaTime);
              player.Data() == pass.player && DataOf(enemies) == pass.enemies && events == old(events) + pass.events
    {
      ghost var p0 := player.Data();
      ghost var e0 := DataOf(enemies);
      ghost var ev0 := events;
      DataOfIndex(enemies);
      var i := 0;
      while i < |enemies|
        invariant 0 <= i <= |enemies|
        invariant forall k :: i <= k < |enemies| ==> enemies[k].Data() == e0[k]
        invariant player.Data() == EnemySweep(p0, e0[..i], platforms, deltaTime).player
        invariant DataOf(enemies[..i]) == EnemySweep(p0, e0[..i], platforms, deltaTime).enemies
        invariant events == ev0 + EnemySweep(p0, e0[..i], platforms, deltaTime).events
      {
        VisitEnemy(i, deltaTime, p0, e0, ev0);
        i := i + 1;
      }
      assert e0[..i] == e0;
      assert enemies[..i] == enemies;
    }

    /** One turn of the enemy loop: update the enemy, then settle its contact with the player. */
    method VisitEnemy(i: nat, deltaTime: real, ghost p0: PlayerData, ghost e0: seq<EnemyModel.EnemyData>, ghost ev0: seq<Event>)
      requires Valid()
      requires i < |enemies| == |e0|
      requires forall k :: i <= k < |enemies| ==> enemies[k].Data() == e0[k]
      requires player.Data() == EnemySweep(p0, e0[..i], platforms, deltaTime).player
      requires DataOf(enemies[..i]) == EnemySweep(p0, e0[..i], platforms, deltaTime).enemies
      requires events == ev0 + EnemySweep(p0, e0[..i], platforms, deltaTime).events
      modifies player, enemies[i], this`events
      ensures forall k :: i < k < |enemies| ==> enemies[k].Data() == e0[k]
      ensures player.Data() == EnemySweep(p0, e0[..i + 1], platforms, deltaTime).player
      ensures DataOf(enemies[..i + 1]) == EnemySweep(p0, e0[..i + 1], platforms, deltaTime).enemies
      ensures events == ev0 + EnemySweep(p0, e0[..i + 1], platforms, deltaTime).events
    {
      ghost var prev := EnemySweep(p0, e0[..i], platforms, deltaTime);
      var all := enemies;
      var enemy := all[i];
      assert all[..i + 1] == all[..i] + [enemy];
      assert enemy !in all[..i];
      assert e0[..i + 1] == e0[..i] + [e0[i]];
      ghost var r := Encountered(prev.player, EnemyModel.Patrolled(e0[i], deltaTime, platforms));
      PatrolAndSettle(enemy, deltaTime);
      EnemySweepSnoc(p0, e0[..i], e0[i], platforms, deltaTime);
      AppendAssoc(ev0, prev.events, r.events);
      DataOfSnoc(all[..i], enemy);
    }

    method PatrolAndSettle(enemy: EnemyModel.Enemy, deltaTime: real)
      modifies player, enemy, this`events
      ensures var r := Encountered(old(player.Data()), EnemyModel.Patrolled(old(enemy.Data()), deltaTime, platforms));
              player.Data() == r.player && enemy.Data() == r.enemy && events == old(events) + r.events
    {
      enemy.Update(deltaTime, platforms);
      SettleContact(enemy);
    }

    /** The contact test of the enemy loop: stomp, or hit. */
    method SettleContact(enemy: EnemyModel.Enemy)
      modifies player, enemy, this`events
      ensures var r := Encountered(old(player.Data()), old(enemy.Data()));
              player.Data() == r.player && enemy.Data() == r.enemy && events == old(events) + r.events
    {
      if CheckCollision(player.Data().Box(), enemy.Data().Box()) {
        if player.vy > 0.0 && player.y + player.height < enemy.y + enemy.height / 2.0 {
          enemy.Defeat();
          player.Bounce();
        } else {
          events := events + [EnemyHit];
          player.TakeDamage();
        }
      }
    }

    /** The filter that drops defeated enemies. */
    method PruneLoop()
      requires Valid()
      modifies this`enemies
      ensures Valid()
      ensures DataOf(enemies) == Filter(old(DataOf(enemies)), Alive)
      ensures forall e :: e in enemies ==> e in old(enemies)
    {
      enemies := KeepAlive(enemies);
    }

    /** The power-up filter of `update`. */
    method PowerUpLoop()
      modifies player, this`powerUps, this`events
      ensures var box := old(player.Data()).Box();
              var pass := PowerUpSweep(box, old(powerUps));
              powerUps == pass.kept && events == old(events) + pass.events &&
              player.Data() == PowerUpsApplied(old(player.Data()), Filter(old(powerUps), Grabs(box)))
    {
      ghost var p0 := player.Data();
      ghost var ev0 := events;
      var all := powerUps;
      var kept: seq<PowerUp> := [];
      var i := 0;
      while i < |all|
        invariant 0 <= i <= |all|
        invariant kept == PowerUpSweep(p0.Box(), all[..i]).kept
        invariant events == ev0 + PowerUpSweep(p0.Box(), all[..i]).events
        invariant player.Data() == PowerUpsApplied(p0, Filter(all[..i], Grabs(p0.Box())))
      {
        var u := all[i];
        assert all[..i + 1] == all[..i] + [u];
        FilterSnoc(all[..i], u, Grabs(p0.Box()));
        ghost var taken := Filter(all[..i], Grabs(p0.Box()));
        PowerUpsAppliedSnoc(p0, taken, u);
        assert player.Data().Box() == p0.Box();
        assert Grabs(p0.Box())(u) == CheckCollision(p0.Box(), u.Box());
        if CheckCollision(player.Data().Box(), u.Box()) {
          AppendAssoc(ev0, PowerUpSweep(p0.Box(), all[..i]).events, [PowerUpCollected]);
          events := events + [PowerUpCollected];
          player.ApplyPowerUp(u.kind);
          assert Filter(all[..i + 1], Grabs(p0.Box())) == taken + [u];
          assert player.Data() == PowerUpsApplied(p0, taken + [u]);
        } else {
          kept := kept + [u];
          assert Filter(all[..i + 1], Grabs(p0.Box())) == taken;
        }
        i := i + 1;
      }
      assert all[..i] == all;
      powerUps := kept;
    }

    /** The goal test of `update`. */
    method CheckGoal()
      modifies this`events
      ensures Current() == GoalStage(old(Current()))
    {
      if CheckCollision(player.Data().Box(), goal) {
        events := events + [LevelComplete];
      }
    }

    /** `updateCamera()` */
    method UpdateCamera()
      modifies this`cameraX, this`cameraY
      ensures cameraX == Eased(old(cameraX), player.x - width / 2.0 + player.width / 2.0, width, LevelModel.Width)
      ensures cameraY == Eased(old(cameraY), player.y - height / 2.0 + player.height / 2.0, height, LevelModel.Height)
      ensures Current() == CameraStage(old(Current()))
    {
      var targetX := player.x - width / 2.0 + player.width / 2.0;
      var targetY := player.y - height / 2.0 + player.height / 2.0;
      cameraX := cameraX + (targetX - cameraX) * CameraEasing;
      cameraY := cameraY + (targetY - cameraY) * CameraEasing;
      cameraX := Max(0.0, Min(cameraX, LevelModel.Width - width));
      cameraY := Max(0.0, Min(cameraY, LevelModel.Height - height));
    }

    /** `resetLevel()`: reload the level the progress record names. */
    method ResetLevel()
      modifies this`platforms, this`coins, this`enemies, this`powerUps, player
      ensures Snapshot() == Reloaded(old(Snapshot()), LevelModel.GetLevel(gameState.level))
      ensures Valid() && forall e :: e in enemies ==> fresh(e)
    {
      var levelData := LevelModel.GetLevel(gameState.GetLevel());
      player.Reset(levelData.playerStart.x, levelData.playerStart.y);
      InitializeLevel(levelData);
    }

    /** `loadLevel(levelNumber)`: record the level number, then reload. */
    method LoadLevel(levelNumber: int)
      modifies this`platforms, this`coins, this`enemies, this`powerUps, player, gameState
      ensures gameState.Record() == old(gameState.Record()).(level := levelNumber)
      ensures Snapshot() == Reloaded(old(Snapshot()), LevelModel.GetLevel(levelNumber))
      ensures Valid() && forall e :: e in enemies ==> fresh(e)
    {
      gameState.SetLevel(levelNumber);
      var levelData := LevelModel.GetLevel(levelNumber);
      player.Reset(levelData.playerStart.x, levelData.playerStart.y);
      InitializeLevel(levelData);
    }

    /** `handleTouchInput(input)`: the only route from keys to the player's velocity. */
    method HandleTouchInput(keys: Keys)
      modifies player
      ensures player.Data() == WithInput(old(player.Data()), keys)
    {
      player.HandleInput(keys);
    }

    /** `isPlayerGrounded()`: the flag the last frame's platform pass left. */
    function IsPlayerGrounded(): (r: bool)
      reads this, player
      ensures r == player.Data().grounded
    {
      player.grounded
    }
  }
}

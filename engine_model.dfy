/**
 * One frame of client/src/lib/game/Engine.ts on values: the world the
 * engine holds between frames, the stages `update` runs in order, the
 * events it raises, and the level set-up of `initializeLevel`.
 */
module EngineModel {
  import opened Geometry
  import opened Seqs
  import opened PlayerModel
  import opened CollisionDetection
  import Physics
  import EnemyModel
  import LevelModel

  /** A collectible coin (only its box and value matter to the simulation). */
  datatype Coin = Coin(x: real, y: real, width: real, height: real, value: real)
  {
    function Box(): Rect
    {
      Rect(x, y, width, height)
    }
  }

  /** A power-up pickup; `kind` is its `type`. */
  datatype PowerUp = PowerUp(x: real, y: real, width: real, height: real, kind: string)
  {
    function Box(): Rect
    {
      Rect(x, y, width, height)
    }
  }

  /** The four callbacks of `GameEvents`, as the calls the engine makes. */
  datatype Event = CoinCollected(value: real) | EnemyHit | PowerUpCollected | LevelComplete

  const PlayerWidth: real := 32.0
  const PlayerHeight: real := 48.0
  const GroundHeight: real := 48.0
  const CoinSize: real := 16.0
  const CoinValue: real := 10.0
  const EnemySize: real := 32.0
  const PowerUpSize: real := 24.0
  /** the fraction of the distance to its target the camera covers each frame */
  const CameraEasing: real := 0.1

  /** The engine's fields between frames; `width` and `height` are the canvas size. */
  datatype World = World(
    player: PlayerData,
    platforms: seq<Rect>,
    coins: seq<Coin>,
    enemies: seq<EnemyModel.EnemyData>,
    powerUps: seq<PowerUp>,
    goal: Rect,
    cameraX: real, cameraY: real,
    width: real, height: real)

  // ---------------------------------------------------------------- platforms

  /**
   * The platform pass: in list order, resolve against each platform the
   * player overlaps at that moment.
   */
  function PlatformSweep(p: PlayerData, platforms: seq<Rect>): (q: PlayerData)
    decreases |platforms|
    // only the position, the velocity and the grounded flag can change
    ensures q.(x := p.x, y := p.y, vx := p.vx, vy := p.vy, grounded := p.grounded) == p
    // the pass can set grounded but never clears it
    ensures p.grounded ==> q.grounded
    // the last platform is never left overlapping
    ensures platforms != [] ==> !CheckCollision(q.Box(), platforms[|platforms| - 1])
    // a player touching no platform is left alone
    ensures (forall i :: 0 <= i < |platforms| ==> !CheckCollision(p.Box(), platforms[i])) ==> q == p
  {
    if platforms == [] then p
    else
      var q := PlatformSweep(p, platforms[..|platforms| - 1]);
      var last := platforms[|platforms| - 1];
      if CheckCollision(q.Box(), last) then Resolved(q, last) else q
  }

  // ---------------------------------------------------------------- coins

  function Touches(box: Rect): Coin -> bool
  {
    (c: Coin) => CheckCollision(box, c.Box())
  }

  function Misses(box: Rect): Coin -> bool
  {
    (c: Coin) => !CheckCollision(box, c.Box())
  }

  /** One `onCoinCollect(value)` per coin, in order. */
  function CoinEvents(coins: seq<Coin>): (r: seq<Event>)
    ensures |r| == |coins|
    ensures forall i :: 0 <= i < |coins| ==> r[i] == CoinCollected(coins[i].value)
  {
    if coins == [] then [] else CoinEvents(coins[..|coins| - 1]) + [CoinCollected(coins[|coins| - 1].value)]
  }

  datatype CoinPass = CoinPass(kept: seq<Coin>, events: seq<Event>)

  /**
   * The coin filter: a coin the player's box overlaps is dropped and raises
   * `onCoinCollect` with its value; the others stay, in order.
   */
  function CoinSweep(box: Rect, coins: seq<Coin>): (r: CoinPass)
    decreases |coins|
    ensures |r.kept| + |r.events| == |coins|
  {
    if coins == [] then CoinPass([], [])
    else
      var prev := CoinSweep(box, coins[..|coins| - 1]);
      var c := coins[|coins| - 1];
      if CheckCollision(box, c.Box()) then CoinPass(prev.kept, prev.events + [CoinCollected(c.value)])
      else CoinPass(prev.kept + [c], prev.events)
  }

  lemma CoinEventsSnoc(coins: seq<Coin>, c: Coin)
    ensures CoinEvents(coins + [c]) == CoinEvents(coins) + [CoinCollected(c.value)]
  {
    assert (coins + [c])[..|coins|] == coins;
  }

  /**
   * The coin pass keeps exactly the coins the box misses, in order, and
   * raises one `onCoinCollect(value)` per touched coin, in order.
   */
  lemma {:induction false} CoinSweepFilters(box: Rect, coins: seq<Coin>)
    decreases |coins|
    ensures var r := CoinSweep(box, coins);
            r.kept == Filter(coins, Misses(box)) &&
            r.events == CoinEvents(Filter(coins, Touches(box))) &&
            |r.kept| + |r.events| == |coins|
  {
    if coins != [] {
      var c := coins[|coins| - 1];
      CoinSweepFilters(box, coins[..|coins| - 1]);
      CoinEventsSnoc(Filter(coins[..|coins| - 1], Touches(box)), c);
    }
  }

  // ---------------------------------------------------------------- enemies

  /** The stomp test: falling, with the feet above the enemy's middle. */
  predicate Stomps(p: PlayerData, e: EnemyModel.EnemyData)
  {
    p.vy > 0.0 && p.y + p.height < e.y + e.height / 2.0
  }

  datatype Encounter = Encounter(player: PlayerData, enemy: EnemyModel.EnemyData, events: seq<Event>)

  /**
   * What the enemy pass does with one enemy after it moved: nothing without
   * contact; a stomp defeats it and bounces the player; any other contact
   * raises `onEnemyHit` and calls `takeDamage`, even while invulnerable.
   */
  function Encountered(p: PlayerData, e: EnemyModel.EnemyData): (r: Encounter)
    ensures r.player.Box() == p.Box()
    ensures r.enemy.(defeated := e.defeated) == e
    ensures r.enemy.defeated <==> e.defeated || (CheckCollision(p.Box(), e.Box()) && Stomps(p, e))
    ensures r.events == [EnemyHit] <==> CheckCollision(p.Box(), e.Box()) && !Stomps(p, e)
    ensures r.events == [] || r.events == [EnemyHit]
    ensures CheckCollision(p.Box(), e.Box()) && Stomps(p, e) ==> r.player == Bounced(p)
    ensures CheckCollision(p.Box(), e.Box()) && !Stomps(p, e) ==> r.player == Hurt(p) && r.enemy == e
    ensures !CheckCollision(p.Box(), e.Box()) ==> r == Encounter(p, e, [])
    ensures p.invulnerable ==> r.player.(vy := p.vy) == p
    ensures Inv(p) ==> Inv(r.player)
  {
    if CheckCollision(p.Box(), e.Box()) then
      if Stomps(p, e) then Encounter(Bounced(p), EnemyModel.Defeated(e), [])
      else Encounter(Hurt(p), e, [EnemyHit])
    else Encounter(p, e, [])
  }

  datatype EnemyPass = EnemyPass(player: PlayerData, enemies: seq<EnemyModel.EnemyData>, events: seq<Event>)

  /** The enemy pass: update each enemy, then settle its contact with the player. */
  function EnemySweep(p: PlayerData, es: seq<EnemyModel.EnemyData>, platforms: seq<Rect>, dt: real): (r: EnemyPass)
    decreases |es|
    ensures |r.enemies| == |es|
  {
    if es == [] then EnemyPass(p, [], [])
    else
      var prev := EnemySweep(p, es[..|es| - 1], platforms, dt);
      var r := Encountered(prev.player, EnemyModel.Patrolled(es[|es| - 1], dt, platforms));
      EnemyPass(r.player, prev.enemies + [r.enemy], prev.events + r.events)
  }

  /** The enemy pass raises at most one callback per enemy, never moves the player's box and keeps its invariant. */
  lemma {:induction false} EnemySweepKeeps(p: PlayerData, es: seq<EnemyModel.EnemyData>, platforms: seq<Rect>, dt: real)
    decreases |es|
    ensures var r := EnemySweep(p, es, platforms, dt);
            |r.events| <= |es| && r.player.Box() == p.Box() && (Inv(p) ==> Inv(r.player))
  {
    if es != [] {
      EnemySweepKeeps(p, es[..|es| - 1], platforms, dt);
    }
  }

  lemma EnemySweepSnoc(p: PlayerData, es: seq<EnemyModel.EnemyData>, e: EnemyModel.EnemyData, platforms: seq<Rect>, dt: real)
    ensures var prev := EnemySweep(p, es, platforms, dt);
            var r := Encountered(prev.player, EnemyModel.Patrolled(e, dt, platforms));
            EnemySweep(p, es + [e], platforms, dt) == EnemyPass(r.player, prev.enemies + [r.enemy], prev.events + r.events)
  {
    assert (es + [e])[..|es|] == es;
  }

  /**
   * What the enemy pass does to the list: every enemy has patrolled, the
   * only other change is a defeat, a defeated enemy stays defeated, and the
   * only callback raised is `onEnemyHit`.
   */
  lemma {:induction false} EnemySweepShape(p: PlayerData, es: seq<EnemyModel.EnemyData>, platforms: seq<Rect>, dt: real)
    decreases |es|
    ensures var r := EnemySweep(p, es, platforms, dt);
            (forall i :: 0 <= i < |es| ==>
               r.enemies[i].(defeated := false) == EnemyModel.Patrolled(es[i], dt, platforms).(defeated := false)) &&
            (forall i :: 0 <= i < |es| && !r.enemies[i].defeated ==>
               r.enemies[i] == EnemyModel.Patrolled(es[i], dt, platforms)) &&
            (forall i :: 0 <= i < |es| && es[i].defeated ==> r.enemies[i].defeated) &&
            (forall ev :: ev in r.events ==> ev == EnemyHit)
  {
    if es != [] {
      EnemySweepShape(p, es[..|es| - 1], platforms, dt);
    }
  }

  const Alive: EnemyModel.EnemyData -> bool := (e: EnemyModel.EnemyData) => !e.defeated

  // ---------------------------------------------------------------- power-ups

  function Grabs(box: Rect): PowerUp -> bool
  {
    (u: PowerUp) => CheckCollision(box, u.Box())
  }

  function Leaves(box: Rect): PowerUp -> bool
  {
    (u: PowerUp) => !CheckCollision(box, u.Box())
  }

  /** `applyPowerUp` for each collected power-up, in order. */
  function PowerUpsApplied(p: PlayerData, taken: seq<PowerUp>): (q: PlayerData)
    decreases |taken|
    ensures q.Box() == p.Box()
    ensures taken == [] ==> q == p
    ensures taken != [] ==> q.powerUpTimer == 0.0
    ensures Inv(p) ==> Inv(q)
  {
    if taken == [] then p
    else PoweredUp(PowerUpsApplied(p, taken[..|taken| - 1]), taken[|taken| - 1].kind)
  }

  lemma PowerUpsAppliedSnoc(p: PlayerData, taken: seq<PowerUp>, u: PowerUp)
    ensures PowerUpsApplied(p, taken + [u]) == PoweredUp(PowerUpsApplied(p, taken), u.kind)
  {
    assert (taken + [u])[..|taken|] == taken;
  }

  datatype PowerUpPass = PowerUpPass(kept: seq<PowerUp>, events: seq<Event>)

  /**
   * The power-up filter: an overlapped power-up is dropped and raises
   * `onPowerupCollect`; the others stay, in order. Applying the collected
   * ones does not move the player, so every test in the pass sees the same
   * box and the player afterwards is `PowerUpsApplied` of the collected list.
   */
  function PowerUpSweep(box: Rect, ups: seq<PowerUp>): (r: PowerUpPass)
    decreases |ups|
    ensures |r.kept| + |r.events| == |ups|
  {
    if ups == [] then PowerUpPass([], [])
    else
      var prev := PowerUpSweep(box, ups[..|ups| - 1]);
      var u := ups[|ups| - 1];
      if CheckCollision(box, u.Box()) then PowerUpPass(prev.kept, prev.events + [PowerUpCollected])
      else PowerUpPass(prev.kept + [u], prev.events)
  }

  /**
   * The power-up pass keeps exactly the power-ups the box misses, in order,
   * and raises one `onPowerupCollect` per touched one.
   */
  lemma {:induction false} PowerUpSweepFilters(box: Rect, ups: seq<PowerUp>)
    decreases |ups|
    ensures var r := PowerUpSweep(box, ups);
            r.kept == Filter(ups, Leaves(box)) &&
            |r.kept| + |r.events| == |ups| &&
            |r.events| == |Filter(ups, Grabs(box))| &&
            forall ev :: ev in r.events ==> ev == PowerUpCollected
  {
    if ups != [] {
      PowerUpSweepFilters(box, ups[..|ups| - 1]);
    }
  }

  // ---------------------------------------------------------------- camera

  /** One axis of `updateCamera`: ease a tenth of the way to the target, then clamp to the level. */
  function Eased(camera: real, target: real, view: real, extent: real): (c: real)
    ensures 0.0 <= c <= Max(0.0, extent - view)
    ensures 0.0 <= camera + (target - camera) * CameraEasing <= extent - view ==>
              c == camera + (target - camera) * CameraEasing
  {
    Max(0.0, Min(camera + (target - camera) * CameraEasing, extent - view))
  }

  /** Inside the bounds the distance to a still target shrinks by a tenth each frame. */
  lemma CameraClosesGap(camera: real, target: real, view: real, extent: real)
    requires 0.0 <= camera <= extent - view && 0.0 <= target <= extent - view
    ensures Abs(Eased(camera, target, view, extent) - target) == 0.9 * Abs(camera - target)
  {
    var c := camera + (target - camera) * CameraEasing;
    assert 0.0 <= c <= extent - view;
  }

  // ---------------------------------------------------------------- the frame

  /**
   * The player's part of a frame: the foot sensor sets `grounded`, then
   * `update`, then `applyPhysics`, then the platform pass.
   */
  function PlayerPass(p: PlayerData, platforms: seq<Rect>, dt: real): (q: PlayerData)
    ensures q.width == p.width && q.height == p.height
    ensures Inv(p) && dt >= 0.0 ==> Inv(q)
  {
    var sensed := p.(grounded := CheckGrounded(p, platforms));
    assert Inv(p) ==> Inv(sensed);
    PlatformSweep(Physics.Applied(Advanced(sensed, dt), dt), platforms)
  }

  /** A frame in progress: the world so far and the events raised so far. */
  datatype Step = Step(world: World, events: seq<Event>)

  /** Lines 183-199 of `update`: the player moves and lands on platforms. */
  function PlayerStage(s: Step, dt: real): (t: Step)
    ensures t.events == s.events
    ensures t.world == s.world.(player := t.world.player)
  {
    Step(s.world.(player := PlayerPass(s.world.player, s.world.platforms, dt)), s.events)
  }

  /** The coin loop: touched coins are removed and reported. */
  function CoinStage(s: Step): (t: Step)
    ensures t.world == s.world.(coins := t.world.coins)
  {
    var pass := CoinSweep(s.world.player.Box(), s.world.coins);
    Step(s.world.(coins := pass.kept), s.events + pass.events)
  }

  /** The enemy loop: every enemy patrols, then meets the player. */
  function EnemyStage(s: Step, dt: real): (t: Step)
    ensures t.world == s.world.(player := t.world.player, enemies := t.world.enemies)
  {
    var pass := EnemySweep(s.world.player, s.world.enemies, s.world.platforms, dt);
    Step(s.world.(player := pass.player, enemies := pass.enemies), s.events + pass.events)
  }

  /** Defeated enemies are dropped from the list. */
  function PruneStage(s: Step): (t: Step)
    ensures t.events == s.events
    ensures t.world == s.world.(enemies := t.world.enemies)
  {
    Step(s.world.(enemies := Filter(s.world.enemies, Alive)), s.events)
  }

  /** The power-up loop: touched power-ups are applied, removed and reported. */
  function PowerUpStage(s: Step): (t: Step)
    ensures t.world == s.world.(player := t.world.player, powerUps := t.world.powerUps)
  {
    var box := s.world.player.Box();
    var pass := PowerUpSweep(box, s.world.powerUps);
    Step(s.world.(player := PowerUpsApplied(s.world.player, Filter(s.world.powerUps, Grabs(box))), powerUps := pass.kept),
         s.events + pass.events)
  }

  /** The goal check. */
  function GoalEvents(w: World): (r: seq<Event>)
    ensures r == [LevelComplete] || r == []
    ensures LevelComplete in r <==> CheckCollision(w.player.Box(), w.goal)
  {
    if CheckCollision(w.player.Box(), w.goal) then [LevelComplete] else []
  }

  function GoalStage(s: Step): (t: Step)
    ensures t.world == s.world
  {
    Step(s.world, s.events + GoalEvents(s.world))
  }

  /** `updateCamera`: both axes ease towards centring the player, clamped to the level. */
  function CameraStage(s: Step): (t: Step)
    ensures t.events == s.events
    ensures t.world == s.world.(cameraX := t.world.cameraX, cameraY := t.world.cameraY)
  {
    var w := s.world;
    var p := w.player;
    Step(w.(cameraX := Eased(w.cameraX, p.x - w.width / 2.0 + p.width / 2.0, w.width, LevelModel.Width),
            cameraY := Eased(w.cameraY, p.y - w.height / 2.0 + p.height / 2.0, w.height, LevelModel.Height)),
         s.events)
  }

  /** Every stage of `update(deltaTime)` in the engine's order, after the events `s` already holds. */
  function Frame(s: Step, dt: real): (t: Step)
    ensures t.world.platforms == s.world.platforms && t.world.goal == s.world.goal
    ensures t.world.width == s.world.width && t.world.height == s.world.height
    ensures |t.events| >= |s.events| && t.events[..|s.events|] == s.events
  {
    CameraStage(GoalStage(PowerUpStage(PruneStage(EnemyStage(CoinStage(PlayerStage(s, dt)), dt)))))
  }

  /** `update(deltaTime)` on a world; the key state is not read. */
  function Tick(w: World, dt: real): (s: Step)
    ensures s.world.platforms == w.platforms && s.world.goal == w.goal
    ensures s.world.width == w.width && s.world.height == w.height
  {
    Frame(Step(w, []), dt)
  }

  /** Events raised earlier only precede the frame's own; the world does not depend on them. */
  lemma FrameFrom(w: World, ev: seq<Event>, dt: real)
    ensures Frame(Step(w, ev), dt) == Step(Tick(w, dt).world, ev + Tick(w, dt).events)
  {
    var a1 := PlayerStage(Step(w, ev), dt);
    var b1 := PlayerStage(Step(w, []), dt);
    var a2 := CoinStage(a1);
    var b2 := CoinStage(b1);
    assert a2 == Step(b2.world, ev + b2.events);
    var a3 := EnemyStage(a2, dt);
    var b3 := EnemyStage(b2, dt);
    AppendAssoc(ev, b2.events, a3.events[|a2.events|..]);
    assert a3 == Step(b3.world, ev + b3.events);
    var a5 := PowerUpStage(PruneStage(a3));
    var b5 := PowerUpStage(PruneStage(b3));
    AppendAssoc(ev, b3.events, a5.events[|a3.events|..]);
    assert a5 == Step(b5.world, ev + b5.events);
    var a6 := GoalStage(a5);
    var b6 := GoalStage(b5);
    AppendAssoc(ev, b5.events, GoalEvents(b5.world));
    assert a6 == Step(b6.world, ev + b6.events);
  }

  /** The player's box after the platform pass; the later passes do not move it. */
  function SettledBox(w: World, dt: real): Rect
  {
    PlayerPass(w.player, w.platforms, dt).Box()
  }

  /** The stages after the player's own keep its box. */
  lemma TickBoxIsSettled(w: World, dt: real)
    ensures Tick(w, dt).world.player.Box() == SettledBox(w, dt)
  {
    var s1 := PlayerStage(Step(w, []), dt);
    var s2 := CoinStage(s1);
    var s3 := EnemyStage(s2, dt);
    var s5 := PowerUpStage(PruneStage(s3));
    EnemySweepKeeps(s2.world.player, s2.world.enemies, s2.world.platforms, dt);
    assert s3.world.player.Box() == s1.world.player.Box();
    assert s5.world.player.Box() == s3.world.player.Box();
  }

  /**
   * After a frame nothing collectible is left under the player, every
   * remaining coin and power-up was there before, and no defeated enemy is
   * left in the list.
   */
  lemma TickLeavesNothingToCollect(w: World, dt: real)
    ensures var v := Tick(w, dt).world;
            (forall c :: c in v.coins ==> c in w.coins && !CheckCollision(v.player.Box(), c.Box())) &&
            (forall u :: u in v.powerUps ==> u in w.powerUps && !CheckCollision(v.player.Box(), u.Box())) &&
            (forall e :: e in v.enemies ==> !e.defeated)
  {
    TickBoxIsSettled(w, dt);
    var s1 := PlayerStage(Step(w, []), dt);
    var s2 := CoinStage(s1);
    var s3 := EnemyStage(s2, dt);
    var s4 := PruneStage(s3);
    var s5 := PowerUpStage(s4);
    var v := Tick(w, dt).world;
    var box := SettledBox(w, dt);
    assert s3.world.player.Box() == box;
    CoinSweepFilters(box, w.coins);
    PowerUpSweepFilters(box, w.powerUps);
    assert v.coins == Filter(w.coins, Misses(box));
    assert v.powerUps == Filter(w.powerUps, Leaves(box));
    assert v.enemies == Filter(s3.world.enemies, Alive);
    FilterMembers(w.coins, Misses(box));
    FilterMembers(w.powerUps, Leaves(box));
    FilterMembers(s3.world.enemies, Alive);
    forall c | c in v.coins
      ensures c in w.coins && !CheckCollision(v.player.Box(), c.Box())
    {
      assert Misses(box)(c);
    }
    forall u | u in v.powerUps
      ensures u in w.powerUps && !CheckCollision(v.player.Box(), u.Box())
    {
      assert Leaves(box)(u);
    }
    forall e | e in v.enemies
      ensures !e.defeated
    {
      assert Alive(e);
    }
  }

  /** The number of `onCoinCollect` calls in a list of events. */
  function CoinCount(evs: seq<Event>): (n: nat)
    ensures n <= |evs|
  {
    if evs == [] then 0 else CoinCount(evs[..|evs| - 1]) + (if evs[|evs| - 1].CoinCollected? then 1 else 0)
  }

  lemma {:induction false} CoinCountAppend(a: seq<Event>, b: seq<Event>)
    decreases |b|
    ensures CoinCount(a + b) == CoinCount(a) + CoinCount(b)
  {
    if b == [] {
      assert a + b == a;
    } else {
      CoinCountAppend(a, b[..|b| - 1]);
      assert (a + b)[..|a + b| - 1] == a + b[..|b| - 1];
      assert (a + b)[|a + b| - 1] == b[|b| - 1];
    }
  }

  lemma {:induction false} CoinCountNone(evs: seq<Event>)
    decreases |evs|
    requires forall ev :: ev in evs ==> !ev.CoinCollected?
    ensures CoinCount(evs) == 0
  {
    if evs != [] {
      CoinCountNone(evs[..|evs| - 1]);
    }
  }

  lemma {:induction false} CoinCountAll(evs: seq<Event>)
    decreases |evs|
    requires forall i :: 0 <= i < |evs| ==> evs[i].CoinCollected?
    ensures CoinCount(evs) == |evs|
  {
    if evs != [] {
      CoinCountAll(evs[..|evs| - 1]);
    }
  }

  /** Each removed coin raises exactly one `onCoinCollect`, and no other coin raises one. */
  lemma TickCollectsEachCoinOnce(w: World, dt: real)
    ensures CoinCount(Tick(w, dt).events) + |Tick(w, dt).world.coins| == |w.coins|
  {
    var s1 := PlayerStage(Step(w, []), dt);
    var coinPass := CoinSweep(s1.world.player.Box(), w.coins);
    CoinSweepFilters(s1.world.player.Box(), w.coins);
    CoinCountAll(coinPass.events);
    var s2 := CoinStage(s1);
    assert s2.events == coinPass.events && s2.world.coins == coinPass.kept;
    CoinsSettledAfterCoinStage(w, dt);
  }

  /** After the coin loop, no stage of the frame removes a coin or reports one. */
  lemma CoinsSettledAfterCoinStage(w: World, dt: real)
    ensures var s2 := CoinStage(PlayerStage(Step(w, []), dt));
            CoinCount(Tick(w, dt).events) == CoinCount(s2.events) && Tick(w, dt).world.coins == s2.world.coins
  {
    var s1 := PlayerStage(Step(w, []), dt);
    var s2 := CoinStage(s1);
    var enemyPass := EnemySweep(s2.world.player, s2.world.enemies, s2.world.platforms, dt);
    EnemySweepShape(s2.world.player, s2.world.enemies, s2.world.platforms, dt);
    var s3 := EnemyStage(s2, dt);
    var s5 := PowerUpStage(PruneStage(s3));
    var powerPass := PowerUpSweep(s3.world.player.Box(), s3.world.powerUps);
    PowerUpSweepFilters(s3.world.player.Box(), s3.world.powerUps);
    var goalEvents := GoalEvents(s5.world);
    assert s3.events == s2.events + enemyPass.events;
    assert s5.events == s3.events + powerPass.events;
    assert Tick(w, dt).events == s5.events + goalEvents;
    CoinCountNone(enemyPass.events);
    CoinCountNone(powerPass.events);
    CoinCountNone(goalEvents);
    CoinCountAppend(s2.events, enemyPass.events);
    CoinCountAppend(s3.events, powerPass.events);
    CoinCountAppend(s5.events, goalEvents);
  }

  /**
   * `onLevelComplete` is raised exactly when the player's final box overlaps
   * the goal, on every such frame, and the goal is never removed.
   */
  lemma TickCompletesAtGoal(w: World, dt: real)
    ensures LevelComplete in Tick(w, dt).events <==> CheckCollision(Tick(w, dt).world.player.Box(), w.goal)
    ensures Tick(w, dt).world.goal == w.goal
  {
    var s1 := PlayerStage(Step(w, []), dt);
    var s2 := CoinStage(s1);
    var s3 := EnemyStage(s2, dt);
    EnemySweepShape(s2.world.player, s2.world.enemies, s2.world.platforms, dt);
    var s5 := PowerUpStage(PruneStage(s3));
    var s6 := GoalStage(s5);
    CoinSweepFilters(s1.world.player.Box(), w.coins);
    PowerUpSweepFilters(s3.world.player.Box(), s3.world.powerUps);
    assert LevelComplete !in s2.events;
    assert LevelComplete !in s3.events;
    assert LevelComplete !in s5.events;
    assert s6.events == s5.events + GoalEvents(s5.world);
  }

  /** The camera never shows anything left of or above the level, nor past its far edges. */
  lemma TickKeepsCameraInLevel(w: World, dt: real)
    ensures 0.0 <= Tick(w, dt).world.cameraX <= Max(0.0, LevelModel.Width - w.width)
    ensures 0.0 <= Tick(w, dt).world.cameraY <= Max(0.0, LevelModel.Height - w.height)
  {
  }

  /** A frame keeps the player's invariant (positive size, timers and boost constants in range). */
  lemma TickKeepsPlayerInv(w: World, dt: real)
    requires Inv(w.player) && dt >= 0.0
    ensures Inv(Tick(w, dt).world.player)
  {
    var s1 := PlayerStage(Step(w, []), dt);
    var s2 := CoinStage(s1);
    var s3 := EnemyStage(s2, dt);
    EnemySweepKeeps(s2.world.player, s2.world.enemies, s2.world.platforms, dt);
    assert Inv(s3.world.player);
  }

  // ---------------------------------------------------------------- set-up

  /** The ground: a 48-pixel strip along the bottom, as wide as the level. */
  const Ground: Rect := Rect(0.0, LevelModel.Height - GroundHeight, LevelModel.Width, GroundHeight)

  function PlaceCoin(c: LevelModel.CoinSpawn): Coin
  {
    Coin(c.x, c.y, CoinSize, CoinSize, CoinValue)
  }

  function PlaceEnemy(e: LevelModel.EnemySpawn): EnemyModel.EnemyData
  {
    EnemyModel.Spawned(e.x, e.y, EnemySize, EnemySize, e.speed, e.patrolDistance)
  }

  function PlacePowerUp(u: LevelModel.PowerUpSpawn): PowerUp
  {
    PowerUp(u.x, u.y, PowerUpSize, PowerUpSize, u.kind)
  }

  function PlacedCoins(spawns: seq<LevelModel.CoinSpawn>): (r: seq<Coin>)
    ensures |r| == |spawns|
    ensures forall i :: 0 <= i < |spawns| ==> r[i] == PlaceCoin(spawns[i])
  {
    if spawns == [] then [] else PlacedCoins(spawns[..|spawns| - 1]) + [PlaceCoin(spawns[|spawns| - 1])]
  }

  function PlacedEnemies(spawns: seq<LevelModel.EnemySpawn>): (r: seq<EnemyModel.EnemyData>)
    ensures |r| == |spawns|
    ensures forall i :: 0 <= i < |spawns| ==> r[i] == PlaceEnemy(spawns[i])
  {
    if spawns == [] then [] else PlacedEnemies(spawns[..|spawns| - 1]) + [PlaceEnemy(spawns[|spawns| - 1])]
  }

  function PlacedPowerUps(spawns: seq<LevelModel.PowerUpSpawn>): (r: seq<PowerUp>)
    ensures |r| == |spawns|
    ensures forall i :: 0 <= i < |spawns| ==> r[i] == PlacePowerUp(spawns[i])
  {
    if spawns == [] then [] else PlacedPowerUps(spawns[..|spawns| - 1]) + [PlacePowerUp(spawns[|spawns| - 1])]
  }

  /**
   * `initializeLevel(levelData)`: the four lists are rebuilt from the level;
   * the player, the goal and the camera are left as they were.
   */
  function Populated(w: World, d: LevelModel.LevelData): (v: World)
    ensures v.platforms == [Ground] + d.platforms
    ensures |v.coins| == |d.coins| && |v.enemies| == |d.enemies| && |v.powerUps| == |d.powerUps|
    ensures forall i :: 0 <= i < |v.coins| ==> v.coins[i].value == CoinValue
    ensures forall i :: 0 <= i < |v.enemies| ==> !v.enemies[i].defeated && EnemyModel.Inv(v.enemies[i])
    ensures forall i :: 0 <= i < |v.powerUps| ==> v.powerUps[i].kind == d.powerUps[i].kind
    ensures v.(platforms := w.platforms, coins := w.coins, enemies := w.enemies, powerUps := w.powerUps) == w
  {
    w.(platforms := [Ground] + d.platforms, coins := PlacedCoins(d.coins),
       enemies := PlacedEnemies(d.enemies), powerUps := PlacedPowerUps(d.powerUps))
  }

  /** `resetLevel` and `loadLevel` after the level lookup: reset the player to the start, then rebuild. */
  function Reloaded(w: World, d: LevelModel.LevelData): (v: World)
    ensures v.player == ResetTo(w.player, d.playerStart.x, d.playerStart.y)
    ensures v.goal == w.goal && v.cameraX == w.cameraX && v.cameraY == w.cameraY
    ensures v == Populated(w.(player := v.player), d)
  {
    Populated(w.(player := ResetTo(w.player, d.playerStart.x, d.playerStart.y)), d)
  }

  /** The constructor: a 32 by 48 player at level 1's start, level 1's contents and goal, the camera at the origin. */
  function Started(width: real, height: real): (w: World)
    ensures w.width == width && w.height == height && w.cameraX == 0.0 && w.cameraY == 0.0
    ensures w.goal == LevelModel.Level1.goal && w.player.Box() == Rect(50.0, 400.0, PlayerWidth, PlayerHeight)
  {
    var d := LevelModel.GetLevel(1);
    Populated(World(Spawned(d.playerStart.x, d.playerStart.y, PlayerWidth, PlayerHeight),
                    [], [], [], [], d.goal, 0.0, 0.0, width, height), d)
  }

  /** What a new engine holds: level 1 with its ground, all enemies alive, a valid player. */
  lemma StartedShape(width: real, height: real)
    ensures var w := Started(width, height);
            |w.platforms| == 8 && w.platforms[0] == Ground && |w.coins| == 10 &&
            |w.enemies| == 3 && |w.powerUps| == 2 && w.goal == LevelModel.Level1.goal &&
            (forall e :: e in w.enemies ==> !e.defeated) && Inv(w.player) &&
            w.player.x == 50.0 && w.player.y == 400.0
  {
    LevelModel.EveryNumberGivesLevel1(1);
    var w := Started(width, height);
    forall e | e in w.enemies
      ensures !e.defeated
    {
      var i :| 0 <= i < |w.enemies| && w.enemies[i] == e;
    }
  }

  /** Loading a level that does not exist rebuilds level 1. */
  lemma ReloadFallsBack(w: World, levelNumber: int)
    ensures Reloaded(w, LevelModel.GetLevel(levelNumber)) == Reloaded(w, LevelModel.GetLevel(1))
  {
    LevelModel.EveryNumberGivesLevel1(levelNumber);
  }

  /**
   * Reloading restores every coin and enemy, and it neither moves the goal
   * nor re-centres the camera.
   */
  lemma ReloadRestoresEverything(w: World, d: LevelModel.LevelData, dt: real)
    ensures Reloaded(Tick(w, dt).world, d).coins == PlacedCoins(d.coins)
    ensures Reloaded(Tick(w, dt).world, d).enemies == PlacedEnemies(d.enemies)
    ensures Reloaded(Tick(w, dt).world, d).goal == w.goal
  {
  }
}

/**
 * The patrolling enemy of client/src/lib/game/Enemy.ts: it walks back and
 * forth between its start and `startX + patrolDistance`, turns back at
 * ledges, and stops for good once defeated.
 */
module EnemyModel {
  import opened Geometry

  const LookAheadMargin: real := 5.0
  /** how far above a platform's top the enemy's feet may be and still count as on it */
  const LedgeTolerance: real := 10.0

  datatype EnemyData = EnemyData(
    x: real, y: real, width: real, height: real,
    speed: real, direction: int, patrolDistance: real, startX: real, defeated: bool)
  {
    function Box(): Rect
    {
      Rect(x, y, width, height)
    }
  }

  ghost predicate Inv(e: EnemyData)
  {
    e.direction == 1 || e.direction == -1
  }

  /** The field initialisers and the constructor: facing right, patrolling from its spawn. */
  function Spawned(x: real, y: real, width: real, height: real, speed: real, patrolDistance: real): (e: EnemyData)
    ensures e.Box() == Rect(x, y, width, height) && e.speed == speed && e.patrolDistance == patrolDistance
    ensures e.startX == x && e.direction == 1 && !e.defeated
    ensures Inv(e)
  {
    EnemyData(x, y, width, height, speed, 1, patrolDistance, x, false)
  }

  /** The point `checkPlatformEdges` probes, half a body plus 5 px ahead. */
  function LookAheadX(e: EnemyData): real
  {
    e.x + (e.direction as real) * (e.width / 2.0 + LookAheadMargin)
  }

  /** The test inside the loop of `checkPlatformEdges`. */
  predicate GroundUnder(p: Rect, lookAheadX: real, feetY: real)
  {
    lookAheadX >= p.x && lookAheadX <= p.x + p.width &&
    feetY <= p.y && feetY + LedgeTolerance >= p.y
  }

  predicate HasGroundAhead(e: EnemyData, platforms: seq<Rect>)
  {
    exists i :: 0 <= i < |platforms| && GroundUnder(platforms[i], LookAheadX(e), e.y + e.height)
  }

  /** `checkPlatformEdges(platforms)`: turn around when no platform is ahead. */
  function EdgeChecked(e: EnemyData, platforms: seq<Rect>): (f: EnemyData)
    ensures f.(direction := e.direction) == e
    ensures HasGroundAhead(e, platforms) ==> f.direction == e.direction
    ensures !HasGroundAhead(e, platforms) ==> f.direction == -e.direction
    ensures Inv(e) ==> Inv(f)
  {
    if HasGroundAhead(e, platforms) then e else e.(direction := e.direction * -1)
  }

  /** The move and the range check of `update`. */
  function Walked(e: EnemyData, dt: real): (f: EnemyData)
    ensures f.x == e.x + (e.direction as real) * e.speed * dt
    ensures f.(x := e.x, direction := e.direction) == e
    ensures e.direction > 0 && f.x > e.startX + e.patrolDistance ==> f.direction == -1
    ensures e.direction < 0 && f.x < e.startX ==> f.direction == 1
    ensures (!(e.direction > 0 && f.x > e.startX + e.patrolDistance) &&
             !(e.direction < 0 && f.x < e.startX)) ==> f.direction == e.direction
    ensures Inv(e) ==> Inv(f)
  {
    var moved := e.(x := e.x + (e.direction as real) * e.speed * dt);
    if moved.direction > 0 && moved.x > moved.startX + moved.patrolDistance then moved.(direction := -1)
    else if moved.direction < 0 && moved.x < moved.startX then moved.(direction := 1)
    else moved
  }

  /**
   * `update(deltaTime, platforms)`: nothing for a defeated enemy; otherwise
   * move, turn at the end of the patrol range, then turn at a ledge, which
   * can undo the range turn in the same tick.
   */
  function Patrolled(e: EnemyData, dt: real, platforms: seq<Rect>): (f: EnemyData)
    ensures e.defeated ==> f == e
    ensures !e.defeated ==> f == EdgeChecked(Walked(e, dt), platforms)
    ensures !e.defeated ==> f.x == e.x + (e.direction as real) * e.speed * dt && !f.defeated
    ensures f.y == e.y && f.startX == e.startX && f.speed == e.speed && f.patrolDistance == e.patrolDistance
    ensures f.width == e.width && f.height == e.height
    ensures Inv(e) ==> Inv(f)
  {
    if e.defeated then e else EdgeChecked(Walked(e, dt), platforms)
  }

  /** `defeat()` */
  function Defeated(e: EnemyData): (f: EnemyData)
    ensures f.defeated && f.(defeated := e.defeated) == e
  {
    e.(defeated := true)
  }

  /** Defeat is idempotent, and a defeated enemy stays defeated and still through any update. */
  lemma DefeatIsFinal(e: EnemyData, dt: real, platforms: seq<Rect>)
    ensures Defeated(Defeated(e)) == Defeated(e)
    ensures Patrolled(Defeated(e), dt, platforms) == Defeated(e)
  {
  }

  /**
   * A ledge turn can cancel a range turn: an enemy that walks past the end
   * of its range with no platform ahead of its new heading keeps walking
   * right.
   */
  lemma LedgeCanUndoRangeTurn(e: EnemyData, dt: real)
    requires !e.defeated && e.direction == 1
    requires e.x + e.speed * dt > e.startX + e.patrolDistance
    ensures Patrolled(e, dt, []).direction == 1
  {
  }

  class Enemy {
    var x: real
    var y: real
    var width: real
    var height: real
    var speed: real
    var direction: int
    var patrolDistance: real
    var startX: real
    var defeated: bool

    function Data(): EnemyData
      reads this
    {
      EnemyData(x, y, width, height, speed, direction, patrolDistance, startX, defeated)
    }

    constructor (x0: real, y0: real, w: real, h: real, speed0: real, patrolDistance0: real)
      ensures Data() == Spawned(x0, y0, w, h, speed0, patrolDistance0)
    {
      x, y, width, height := x0, y0, w, h;
      speed, patrolDistance := speed0, patrolDistance0;
      direction, startX, defeated := 1, x0, false;
    }

    method Update(deltaTime: real, platforms: seq<Rect>)
      modifies this
      ensures Data() == Patrolled(old(Data()), deltaTime, platforms)
    {
      if defeated {
        return;
      }
      x := x + (direction as real) * speed * deltaTime;
      if direction > 0 && x > startX + patrolDistance {
        direction := -1;
      } else if direction < 0 && x < startX {
        direction := 1;
      }
      CheckPlatformEdges(platforms);
    }

    method CheckPlatformEdges(platforms: seq<Rect>)
      modifies this
      ensures Data() == EdgeChecked(old(Data()), platforms)
    {
      var lookAheadX := x + (direction as real) * (width / 2.0 + LookAheadMargin);
      var feetY := y + height;
      var hasGround := false;
      var i := 0;
      while i < |platforms|
        invariant 0 <= i <= |platforms|
        invariant !hasGround
        invariant forall k :: 0 <= k < i ==> !GroundUnder(platforms[k], lookAheadX, feetY)
      {
        if GroundUnder(platforms[i], lookAheadX, feetY) {
          hasGround := true;
          break;
        }
        i := i + 1;
      }
      assert hasGround == HasGroundAhead(Data(), platforms);
      if !hasGround {
        direction := direction * -1;
      }
    }

    method Defeat()
      modifies this
      ensures Data() == Defeated(old(Data()))
    {
      defeated := true;
    }

    function IsDefeated(): (r: bool)
      reads this
      ensures r == Data().defeated
    {
      defeated
    }
  }
}

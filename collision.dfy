/**
 * client/src/lib/game/CollisionDetection.ts: the strict box-overlap test,
 * the foot sensor that decides whether the player stands on something, and
 * the resolver that pushes the player out of a platform.
 */
module CollisionDetection {
  import opened Geometry
  import opened PlayerModel

  /** `checkCollision`: the boxes overlap strictly on both axes. */
  function CheckCollision(a: Rect, b: Rect): (r: bool)
    // boxes that merely touch along an edge do not collide
    ensures a.x + a.width == b.x || b.x + b.width == a.x ==> !r
    ensures a.y + a.height == b.y || b.y + b.height == a.y ==> !r
  {
    a.x < b.x + b.width &&
    a.x + a.width > b.x &&
    a.y < b.y + b.height &&
    a.y + a.height > b.y
  }

  lemma CollisionSymmetric(a: Rect, b: Rect)
    ensures CheckCollision(a, b) == CheckCollision(b, a)
  {
  }

  ghost predicate Inside(r: Rect, px: real, py: real)
  {
    r.x < px < r.x + r.width && r.y < py < r.y + r.height
  }

  /** For boxes of positive size, colliding means sharing an interior point. */
  lemma CollisionIsSharedInterior(a: Rect, b: Rect)
    requires a.width > 0.0 && a.height > 0.0 && b.width > 0.0 && b.height > 0.0
    ensures CheckCollision(a, b) <==> exists px, py :: Inside(a, px, py) && Inside(b, px, py)
  {
    if CheckCollision(a, b) {
      var px := (Max(a.x, b.x) + Min(a.x + a.width, b.x + b.width)) / 2.0;
      var py := (Max(a.y, b.y) + Min(a.y + a.height, b.y + b.height)) / 2.0;
      assert Inside(a, px, py) && Inside(b, px, py);
    }
  }

  /** The 2-pixel strip under the player's feet, inset 2 pixels on each side. */
  function FootSensor(p: PlayerData): Rect
  {
    Rect(p.x + 2.0, p.y + p.height, p.width - 4.0, 2.0)
  }

  /** `checkGrounded`: `platforms.some(...)` with the foot sensor; the log line has no effect. */
  function CheckGrounded(player: PlayerData, platforms: seq<Rect>): (r: bool)
    ensures r <==> exists i :: 0 <= i < |platforms| && CheckCollision(FootSensor(player), platforms[i])
  {
    if platforms == [] then false
    else CheckCollision(FootSensor(player), platforms[0]) || CheckGrounded(player, platforms[1..])
  }

  /** The sensor ignores the incoming grounded flag. */
  lemma GroundedIgnoresFlag(player: PlayerData, platforms: seq<Rect>, g: bool)
    ensures CheckGrounded(player.(grounded := g), platforms) == CheckGrounded(player, platforms)
  {
  }

  /** A player standing exactly on top of a platform, with some footing inside it, is grounded. */
  lemma StandingIsGrounded(player: PlayerData, platforms: seq<Rect>, i: nat)
    requires i < |platforms| && platforms[i].height > 0.0
    requires player.y + player.height == platforms[i].y
    requires player.x + 2.0 < platforms[i].x + platforms[i].width
    requires player.x + player.width - 2.0 > platforms[i].x
    ensures CheckGrounded(player, platforms)
  {
    assert CheckCollision(FootSensor(player), platforms[i]);
  }

  function OverlapX(p: PlayerData, r: Rect): real
  {
    if p.x < r.x then p.x + p.width - r.x else r.x + r.width - p.x
  }

  function OverlapY(p: PlayerData, r: Rect): real
  {
    if p.y < r.y then p.y + p.height - r.y else r.y + r.height - p.y
  }

  /**
   * The landing rule: falling, with the previous bottom edge at or above the
   * platform's top. The previous position is `y - vy`, not scaled by the
   * frame time.
   */
  predicate Lands(p: PlayerData, r: Rect)
  {
    (p.y - p.vy) + p.height <= r.y && p.vy > 0.0
  }

  /** `resolveCollision(player, platform)` on the player's value. */
  function Resolved(p: PlayerData, r: Rect): (q: PlayerData)
    // afterwards the two boxes never collide
    ensures !CheckCollision(q.Box(), r)
    // only the position, the velocity and the grounded flag can change
    ensures q.(x := p.x, y := p.y, vx := p.vx, vy := p.vy, grounded := p.grounded) == p
    // landing from above wins: snapped onto the top, horizontal motion kept
    ensures Lands(p, r) ==>
              q.y + q.height == r.y && q.vy == 0.0 && q.grounded && q.x == p.x && q.vx == p.vx
    // otherwise a smaller horizontal overlap pushes the player out to the nearer side
    ensures !Lands(p, r) && OverlapX(p, r) < OverlapY(p, r) ==>
              q.vx == 0.0 && q.y == p.y && q.vy == p.vy && q.grounded == p.grounded &&
              (p.x < r.x ==> q.x + q.width == r.x) && (p.x >= r.x ==> q.x == r.x + r.width)
    // and otherwise (ties included) the resolution is vertical
    ensures !Lands(p, r) && OverlapX(p, r) >= OverlapY(p, r) ==>
              q.vy == 0.0 && q.x == p.x && q.vx == p.vx &&
              (p.y < r.y ==> q.y + q.height == r.y && q.grounded) &&
              (p.y >= r.y ==> q.y == r.y + r.height && q.grounded == p.grounded)
  {
    if Lands(p, r) then p.(y := r.y - p.height, vy := 0.0, grounded := true)
    else if OverlapX(p, r) < OverlapY(p, r) then
      p.(x := if p.x < r.x then r.x - p.width else r.x + r.width, vx := 0.0)
    else if p.y < r.y then p.(y := r.y - p.height, vy := 0.0, grounded := true)
    else p.(y := r.y + r.height, vy := 0.0)
  }

  /** The approach flags `wasBelow`, `wasLeft` and `wasRight` of the source are computed but never read. */
  method ResolveCollision(player: Player, platform: Rect)
    modifies player
    ensures player.Data() == Resolved(old(player.Data()), platform)
  {
    var prevY := player.y - player.vy;
    var overlapX :=
      if player.x < platform.x then player.x + player.width - platform.x
      else platform.x + platform.width - player.x;
    var overlapY :=
      if player.y < platform.y then player.y + player.height - platform.y
      else platform.y + platform.height - player.y;
    var wasAbove := prevY + player.height <= platform.y;
    if wasAbove && player.vy > 0.0 {
      player.y := platform.y - player.height;
      player.vy := 0.0;
      player.grounded := true;
      return;
    }
    if overlapX < overlapY {
      if player.x < platform.x {
        player.x := platform.x - player.width;
      } else {
        player.x := platform.x + platform.width;
      }
      player.vx := 0.0;
    } else {
      if player.y < platform.y {
        player.y := platform.y - player.height;
        player.vy := 0.0;
        player.grounded := true;
      } else {
        player.y := platform.y + platform.height;
        player.vy := 0.0;
      }
    }
  }

  /** A player resting exactly on a platform with no vertical speed stays where it is. */
  lemma GroundSnapIdempotent(p: PlayerData, r: Rect)
    requires p.width > 0.0 && r.width > 0.0 && r.height > 0.0 && p.height > 0.0
    requires p.y + p.height == r.y && p.vy == 0.0
    requires p.x < r.x + r.width && p.x + p.width > r.x
    ensures Resolved(p, r).y == p.y && Resolved(p, r).grounded && Resolved(p, r).x == p.x
  {
  }

  /**
   * A fast fall into a platform lands on it: falling at 500 px/s, the
   * player's box reaching 8 px into a 200x30 platform at y = 400 is put
   * back on top at y = 352, grounded, with no vertical speed.
   */
  lemma FastFallLands(p: PlayerData)
    requires p.x == 0.0 && p.y == 360.0 && p.width == 32.0 && p.height == 48.0 && p.vy == 500.0
    ensures CheckCollision(p.Box(), Rect(0.0, 400.0, 200.0, 30.0))
    ensures var q := Resolved(p, Rect(0.0, 400.0, 200.0, 30.0));
            q.y == 352.0 && q.vy == 0.0 && q.grounded && q.x == 0.0
  {
  }
}

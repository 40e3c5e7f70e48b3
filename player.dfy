/**
 * The player character of client/src/lib/game/Player.ts: position, velocity,
 * the velocity-derived animation state, the invulnerability window after a
 * hit and the shared power-up timer.
 *
 * `PlayerData` is the value of all modelled fields; every method of the
 * `Player` class is specified by a function from the old value to the new
 * one, and the properties are proved about those functions.
 */
module PlayerModel {
  import opened Geometry
  import opened InputModel

  datatype PlayerState = Idle | Running | Jumping | Falling | Damaged

  const BaseSpeed: real := 200.0
  const BaseJumpForce: real := 400.0
  const BoostedSpeed: real := 300.0
  const BoostedJumpForce: real := 550.0
  /** `speed * 1.5` while the speed boost is active */
  const SpeedBoostFactor: real := 1.5
  /** seconds */
  const InvulnerabilityDuration: real := 1.0
  /** seconds, shared by both boosts */
  const PowerUpDuration: real := 5.0
  const KnockbackUp: real := 200.0
  const KnockbackSide: real := 150.0
  const BounceFactor: real := 0.7

  datatype PlayerData = PlayerData(
    x: real, y: real, width: real, height: real,
    vx: real, vy: real, speed: real, jumpForce: real, grounded: bool,
    state: PlayerState, direction: int,
    invulnerable: bool, invulnerabilityTimer: real,
    hasSpeedBoost: bool, hasJumpBoost: bool, powerUpTimer: real)
  {
    function Box(): Rect
    {
      Rect(x, y, width, height)
    }
  }

  /**
   * What every operation keeps true once the constructor has run with a
   * positive size (and time never runs backwards).
   */
  ghost predicate Inv(p: PlayerData)
  {
    p.width > 0.0 && p.height > 0.0 &&
    (p.direction == 1 || p.direction == -1) &&
    0.0 <= p.invulnerabilityTimer < InvulnerabilityDuration &&
    0.0 <= p.powerUpTimer < PowerUpDuration &&
    (p.speed == BaseSpeed || p.speed == BoostedSpeed) &&
    (p.jumpForce == BaseJumpForce || p.jumpForce == BoostedJumpForce) &&
    (p.hasSpeedBoost ==> p.speed == BoostedSpeed) &&
    (p.hasJumpBoost ==> p.jumpForce == BoostedJumpForce)
  }

  /** The field initialisers and the constructor. */
  function Spawned(x: real, y: real, width: real, height: real): (p: PlayerData)
    ensures p.Box() == Rect(x, y, width, height)
    ensures p.vx == 0.0 && p.vy == 0.0 && !p.grounded && p.state == Idle && p.direction == 1
    ensures p.speed == BaseSpeed && p.jumpForce == BaseJumpForce
    ensures !p.invulnerable && !p.hasSpeedBoost && !p.hasJumpBoost
    ensures width > 0.0 && height > 0.0 ==> Inv(p)
  {
    PlayerData(x, y, width, height, 0.0, 0.0, BaseSpeed, BaseJumpForce, false,
               Idle, 1, false, 0.0, false, false, 0.0)
  }

  /** The state `update` derives from the velocity, in its order of precedence. */
  function DerivedState(vx: real, vy: real): (s: PlayerState)
    ensures s != Damaged
    ensures s == Jumping <==> vy < 0.0
    ensures s == Falling <==> vy > 0.0
    ensures s == Running <==> vy == 0.0 && vx != 0.0
    ensures s == Idle <==> vy == 0.0 && vx == 0.0
  {
    if vy < 0.0 then Jumping
    else if vy > 0.0 then Falling
    else if Abs(vx) > 0.0 then Running
    else Idle
  }

  /** Position integration of `update`: `x += vx * dt`, `y += vy * dt`. */
  function Moved(p: PlayerData, dt: real): (q: PlayerData)
    ensures q.(x := p.x, y := p.y) == p
    ensures q.x - p.x == p.vx * dt && q.y - p.y == p.vy * dt
  {
    p.(x := p.x + p.vx * dt, y := p.y + p.vy * dt)
  }

  /** The invulnerability timer of `update`: it ends in the update where it reaches one second. */
  function GuardTicked(p: PlayerData, dt: real): (q: PlayerData)
    ensures q.(invulnerable := p.invulnerable, invulnerabilityTimer := p.invulnerabilityTimer) == p
    ensures p.invulnerable && p.invulnerabilityTimer + dt >= InvulnerabilityDuration ==>
              !q.invulnerable && q.invulnerabilityTimer == 0.0
    ensures p.invulnerable && p.invulnerabilityTimer + dt < InvulnerabilityDuration ==>
              q.invulnerable && q.invulnerabilityTimer == p.invulnerabilityTimer + dt
    ensures !p.invulnerable ==> q == p
    ensures 0.0 <= p.invulnerabilityTimer < InvulnerabilityDuration && dt >= 0.0 ==>
              0.0 <= q.invulnerabilityTimer < InvulnerabilityDuration
  {
    if !p.invulnerable then p
    else if p.invulnerabilityTimer + dt >= InvulnerabilityDuration
    then p.(invulnerable := false, invulnerabilityTimer := 0.0)
    else p.(invulnerabilityTimer := p.invulnerabilityTimer + dt)
  }

  /** The power-up timer of `update`: both boosts end together and the stats revert exactly. */
  function BoostTicked(p: PlayerData, dt: real): (q: PlayerData)
    ensures q.(hasSpeedBoost := p.hasSpeedBoost, hasJumpBoost := p.hasJumpBoost,
               powerUpTimer := p.powerUpTimer, speed := p.speed, jumpForce := p.jumpForce) == p
    ensures (p.hasSpeedBoost || p.hasJumpBoost) && p.powerUpTimer + dt >= PowerUpDuration ==>
              !q.hasSpeedBoost && !q.hasJumpBoost && q.powerUpTimer == 0.0 &&
              q.speed == BaseSpeed && q.jumpForce == BaseJumpForce
    ensures (p.hasSpeedBoost || p.hasJumpBoost) && p.powerUpTimer + dt < PowerUpDuration ==>
              q == p.(powerUpTimer := p.powerUpTimer + dt)
    ensures !p.hasSpeedBoost && !p.hasJumpBoost ==> q == p
    ensures Inv(p) && dt >= 0.0 ==> Inv(q)
  {
    if !(p.hasSpeedBoost || p.hasJumpBoost) then p
    else if p.powerUpTimer + dt >= PowerUpDuration
    then p.(hasSpeedBoost := false, hasJumpBoost := false, powerUpTimer := 0.0,
            speed := BaseSpeed, jumpForce := BaseJumpForce)
    else p.(powerUpTimer := p.powerUpTimer + dt)
  }

  /** The state and facing direction `update` derives from the velocity. */
  function Oriented(p: PlayerData): (q: PlayerData)
    ensures q.state == DerivedState(p.vx, p.vy)
    ensures q.direction == (if p.vx > 0.0 then 1 else if p.vx < 0.0 then -1 else p.direction)
  {
    var stated := p.(state := DerivedState(p.vx, p.vy));
    if p.vx > 0.0 then stated.(direction := 1)
    else if p.vx < 0.0 then stated.(direction := -1)
    else stated
  }

  /**
   * `update(deltaTime)`: integrate the position, advance both timers, then
   * derive the state and the facing direction. Velocity is not touched.
   */
  function Advanced(p: PlayerData, dt: real): (q: PlayerData)
    ensures q.vx == p.vx && q.vy == p.vy && q.grounded == p.grounded
    ensures q.width == p.width && q.height == p.height
    ensures q.state == DerivedState(p.vx, p.vy)
    ensures Inv(p) && dt >= 0.0 ==> Inv(q)
  {
    Oriented(BoostTicked(GuardTicked(Moved(p, dt), dt), dt))
  }

  /** Horizontal speed `handleInput` uses: `speed * 1.5` under the speed boost. */
  function CurrentSpeed(p: PlayerData): (s: real)
    ensures Inv(p) && p.hasSpeedBoost ==> s == 450.0
    ensures !p.hasSpeedBoost ==> s == p.speed
  {
    if p.hasSpeedBoost then p.speed * SpeedBoostFactor else p.speed
  }

  /** `handleInput({left, right, jump})` */
  function WithInput(p: PlayerData, input: Keys): (q: PlayerData)
    ensures !input.left && !input.right ==> q.vx == 0.0
    ensures input.right ==> q.vx == CurrentSpeed(p)
    ensures input.left && !input.right ==> q.vx == -CurrentSpeed(p)
    // no jump unless grounded: no double jump
    ensures input.jump && p.grounded ==> q.vy == -p.jumpForce && !q.grounded
    ensures !(input.jump && p.grounded) ==> q.vy == p.vy && q.grounded == p.grounded
    ensures q.(vx := p.vx, vy := p.vy, grounded := p.grounded) == p
    ensures Inv(p) ==> Inv(q)
  {
    var s := CurrentSpeed(p);
    var h := if input.right then s else if input.left then -s else 0.0;
    if input.jump && p.grounded then p.(vx := h, vy := -p.jumpForce, grounded := false)
    else p.(vx := h)
  }

  /** `takeDamage()`: a no-op while invulnerable, otherwise a knockback away from the facing direction. */
  function Hurt(p: PlayerData): (q: PlayerData)
    ensures p.invulnerable ==> q == p
    ensures !p.invulnerable ==>
              q == p.(invulnerable := true, invulnerabilityTimer := 0.0, state := Damaged,
                      vy := -KnockbackUp, vx := (p.direction as real) * -KnockbackSide)
    ensures Inv(p) && !p.invulnerable ==> q.vy < 0.0 && (q.vx < 0.0 <==> p.direction == 1)
    ensures Inv(p) ==> Inv(q)
  {
    if p.invulnerable then p
    else p.(invulnerable := true, invulnerabilityTimer := 0.0, state := Damaged,
            vy := -KnockbackUp, vx := (p.direction as real) * -KnockbackSide)
  }

  /** `bounce()` after a stomp: upward, whether or not the player is grounded. */
  function Bounced(p: PlayerData): (q: PlayerData)
    ensures q.(vy := p.vy) == p
    ensures q.vy == -(p.jumpForce * BounceFactor)
    ensures Inv(p) ==> q.vy < 0.0
    ensures Inv(p) ==> Inv(q)
  {
    p.(vy := -p.jumpForce * BounceFactor)
  }

  /**
   * `applyPowerUp(type)`: assigns the boosted constant (so boosts never
   * stack) and restarts the shared timer, even for an unknown type.
   */
  function PoweredUp(p: PlayerData, kind: string): (q: PlayerData)
    ensures q.powerUpTimer == 0.0
    ensures kind == "speed" ==>
              q.hasSpeedBoost && q.speed == BoostedSpeed &&
              q.hasJumpBoost == p.hasJumpBoost && q.jumpForce == p.jumpForce
    ensures kind == "jump" ==>
              q.hasJumpBoost && q.jumpForce == BoostedJumpForce &&
              q.hasSpeedBoost == p.hasSpeedBoost && q.speed == p.speed
    ensures kind != "speed" && kind != "jump" ==> q == p.(powerUpTimer := 0.0)
    ensures q.(hasSpeedBoost := p.hasSpeedBoost, hasJumpBoost := p.hasJumpBoost,
               speed := p.speed, jumpForce := p.jumpForce, powerUpTimer := p.powerUpTimer) == p
    ensures Inv(p) ==> Inv(q)
  {
    var q := if kind == "speed" then p.(hasSpeedBoost := true, speed := BoostedSpeed)
             else if kind == "jump" then p.(hasJumpBoost := true, jumpForce := BoostedJumpForce)
             else p;
    q.(powerUpTimer := 0.0)
  }

  /**
   * `reset(x, y)`: repositions and calms the player. Speed, jump force,
   * both timers, `grounded` and `direction` are left as they were.
   */
  function ResetTo(p: PlayerData, x: real, y: real): (q: PlayerData)
    ensures q.Box() == Rect(x, y, p.width, p.height) && q.vx == 0.0 && q.vy == 0.0
    ensures !q.hasSpeedBoost && !q.hasJumpBoost && q.speed == p.speed && q.jumpForce == p.jumpForce
    ensures q.state == Idle && !q.invulnerable
    ensures q.(x := p.x, y := p.y, vx := p.vx, vy := p.vy, state := p.state, invulnerable := p.invulnerable,
               hasSpeedBoost := p.hasSpeedBoost, hasJumpBoost := p.hasJumpBoost) == p
    ensures Inv(p) ==> Inv(q)
  {
    p.(x := x, y := y, vx := 0.0, vy := 0.0, state := Idle,
       invulnerable := false, hasSpeedBoost := false, hasJumpBoost := false)
  }

  /** A speed power-up makes running speed 450: `speed` is already 300 and is then multiplied by 1.5. */
  lemma SpeedBoostRunsAt450(p: PlayerData, jump: bool)
    requires Inv(p)
    ensures WithInput(PoweredUp(p, "speed"), Keys(false, true, jump)).vx == 450.0
    ensures WithInput(PoweredUp(p, "speed"), Keys(true, false, jump)).vx == -450.0
  {
  }

  /**
   * A boost expires exactly: from the moment it is collected, any update
   * that brings the shared timer to five seconds restores 200 and 400.
   */
  lemma BoostExpiresToBaseline(p: PlayerData, kind: string, dt: real)
    requires kind == "speed" || kind == "jump"
    requires dt >= PowerUpDuration
    ensures var q := Advanced(PoweredUp(p, kind), dt);
            q.speed == BaseSpeed && q.jumpForce == BaseJumpForce && !q.hasSpeedBoost && !q.hasJumpBoost
  {
  }

  /**
   * `reset` clears the boost flags without restoring the stats, and the
   * timer only runs under a flag: after a reset with a speed boost active the
   * player keeps running at 300 for good.
   */
  lemma ResetKeepsBoostedSpeed(p: PlayerData, x: real, y: real, dt: real)
    ensures var q := ResetTo(PoweredUp(p, "speed"), x, y);
            !q.hasSpeedBoost && q.speed == BoostedSpeed &&
            Advanced(q, dt).speed == BoostedSpeed &&
            WithInput(Advanced(q, dt), Keys(false, true, false)).vx == BoostedSpeed
  {
  }

  /** `update` overwrites the DAMAGED state that `takeDamage` sets. */
  lemma UpdateOverwritesDamaged(p: PlayerData, dt: real)
    requires !p.invulnerable
    ensures Hurt(p).state == Damaged
    ensures Advanced(Hurt(p), dt).state != Damaged
  {
  }

  class Player {
    var x: real
    var y: real
    var width: real
    var height: real
    var vx: real
    var vy: real
    var speed: real
    var jumpForce: real
    var grounded: bool
    var state: PlayerState
    var direction: int
    var invulnerable: bool
    var invulnerabilityTimer: real
    var hasSpeedBoost: bool
    var hasJumpBoost: bool
    var powerUpTimer: real

    function Data(): PlayerData
      reads this
    {
      PlayerData(x, y, width, height, vx, vy, speed, jumpForce, grounded, state, direction,
                 invulnerable, invulnerabilityTimer, hasSpeedBoost, hasJumpBoost, powerUpTimer)
    }

    constructor (x0: real, y0: real, w: real, h: real)
      ensures Data() == Spawned(x0, y0, w, h)
    {
      x, y, width, height := x0, y0, w, h;
      vx, vy := 0.0, 0.0;
      speed, jumpForce := BaseSpeed, BaseJumpForce;
      grounded := false;
      state, direction := Idle, 1;
      invulnerable, invulnerabilityTimer := false, 0.0;
      hasSpeedBoost, hasJumpBoost, powerUpTimer := false, false, 0.0;
    }

    method Update(deltaTime: real)
      modifies this
      ensures Data() == Advanced(old(Data()), deltaTime)
    {
      Move(deltaTime);
      TickInvulnerability(deltaTime);
      TickPowerUp(deltaTime);
      Orient();
    }

    /** The position step of `update`. */
    method Move(deltaTime: real)
      modifies this
      ensures Data() == Moved(old(Data()), deltaTime)
    {
      x, y := x + vx * deltaTime, y + vy * deltaTime;
    }

    /** The state and facing steps that end `update`. */
    method Orient()
      modifies this
      ensures Data() == Oriented(old(Data()))
    {
      state := DerivedState(vx, vy);
      if vx > 0.0 {
        direction := 1;
      } else if vx < 0.0 {
        direction := -1;
      }
    }

    /** The invulnerability-timer block of `update`. */
    method TickInvulnerability(deltaTime: real)
      modifies this
      ensures Data() == GuardTicked(old(Data()), deltaTime)
    {
      if invulnerable {
        invulnerabilityTimer := invulnerabilityTimer + deltaTime;
        if invulnerabilityTimer >= InvulnerabilityDuration {
          invulnerable := false;
          invulnerabilityTimer := 0.0;
        }
      }
    }

    /** The power-up-timer block of `update`. */
    method TickPowerUp(deltaTime: real)
      modifies this
      ensures Data() == BoostTicked(old(Data()), deltaTime)
    {
      if hasSpeedBoost || hasJumpBoost {
        powerUpTimer := powerUpTimer + deltaTime;
        if powerUpTimer >= PowerUpDuration {
          hasSpeedBoost := false;
          hasJumpBoost := false;
          powerUpTimer := 0.0;
          speed := BaseSpeed;
          jumpForce := BaseJumpForce;
        }
      }
    }

    method HandleInput(input: Keys)
      modifies this
      ensures Data() == WithInput(old(Data()), input)
    {
      vx := 0.0;
      var currentSpeed := if hasSpeedBoost then speed * SpeedBoostFactor else speed;
      if input.left {
        vx := -currentSpeed;
      }
      if input.right {
        vx := currentSpeed;
      }
      if input.jump && grounded {
        vy := -jumpForce;
        grounded := false;
      }
    }

    method TakeDamage()
      modifies this
      ensures Data() == Hurt(old(Data()))
    {
      if !invulnerable {
        invulnerable := true;
        invulnerabilityTimer := 0.0;
        state := Damaged;
        vy := -KnockbackUp;
        vx := (direction as real) * -KnockbackSide;
      }
    }

    method Bounce()
      modifies this
      ensures Data() == Bounced(old(Data()))
    {
      vy := -jumpForce * BounceFactor;
    }

    method ApplyPowerUp(kind: string)
      modifies this
      ensures Data() == PoweredUp(old(Data()), kind)
    {
      if kind == "speed" {
        hasSpeedBoost := true;
        speed := BoostedSpeed;
      } else if kind == "jump" {
        hasJumpBoost := true;
        jumpForce := BoostedJumpForce;
      }
      powerUpTimer := 0.0;
    }

    method Reset(x0: real, y0: real)
      modifies this
      ensures Data() == ResetTo(old(Data()), x0, y0)
    {
      Place(x0, y0);
      Calm();
    }

    /** The first half of `reset`: the new position, at rest. */
    method Place(x0: real, y0: real)
      modifies this
      ensures Data() == old(Data()).(x := x0, y := y0, vx := 0.0, vy := 0.0)
    {
      x, y, vx, vy := x0, y0, 0.0, 0.0;
    }

    /** The second half of `reset`: idle, vulnerable, no boost flags. */
    method Calm()
      modifies this
      ensures Data() == old(Data()).(state := Idle, invulnerable := false, hasSpeedBoost := false, hasJumpBoost := false)
    {
      state := Idle;
      invulnerable, hasSpeedBoost, hasJumpBoost := false, false, false;
    }
  }
}

/**
 * The integrator of client/src/lib/game/Physics.ts: gravity with a terminal
 * velocity, friction applied once per call while grounded (not scaled by the
 * frame time), and the grounded flag cleared for the collision pass to set
 * again.
 */
module Physics {
  import opened Geometry
  import opened PlayerModel

  const Gravity: real := 1000.0
  const TerminalVelocity: real := 600.0
  const Friction: real := 0.8
  /** below this speed the player stops outright */
  const StopSpeed: real := 5.0

  /** Ground friction on `vx`: one multiplication per call, then a stop below 5 px/s. */
  function FrictionStep(vx: real): (r: real)
    ensures Abs(r) <= Abs(vx)
    ensures r == 0.0 <==> Abs(Friction * vx) < StopSpeed
    ensures r != 0.0 ==> r == Friction * vx && Abs(r) >= StopSpeed
  {
    var v := vx * Friction;
    if Abs(v) < StopSpeed then 0.0 else v
  }

  /** Gravity on `vy`, clamped to the terminal velocity. */
  function Fallen(vy: real, dt: real): (r: real)
    ensures r <= TerminalVelocity
    ensures r == Min(vy + Gravity * dt, TerminalVelocity)
  {
    var v := vy + Gravity * dt;
    if v > TerminalVelocity then TerminalVelocity else v
  }

  /** `applyPhysics(player, deltaTime)` */
  function Applied(p: PlayerData, dt: real): (q: PlayerData)
    ensures !q.grounded
    ensures q.vy <= TerminalVelocity
    // grounded on entry: vertical speed is zeroed whatever gravity did, friction acts on vx
    ensures p.grounded ==> q.vy == 0.0 && q.vx == FrictionStep(p.vx) && Abs(q.vx) <= Abs(p.vx)
    // airborne: vx untouched, gravity clamped at the terminal velocity
    ensures !p.grounded ==> q.vx == p.vx && q.vy == Min(p.vy + Gravity * dt, TerminalVelocity)
    // position and everything else untouched
    ensures q.(vx := p.vx, vy := p.vy, grounded := p.grounded) == p
    ensures Inv(p) ==> Inv(q)
  {
    var vy := Fallen(p.vy, dt);
    if p.grounded then p.(vx := FrictionStep(p.vx), vy := 0.0, grounded := false)
    else p.(vy := vy, grounded := false)
  }

  method ApplyPhysics(player: Player, deltaTime: real)
    modifies player
    ensures player.Data() == Applied(old(player.Data()), deltaTime)
  {
    player.vy := player.vy + Gravity * deltaTime;
    if player.vy > TerminalVelocity {
      player.vy := TerminalVelocity;
    }
    if player.grounded {
      player.vx := player.vx * Friction;
      player.vy := 0.0;
      if Abs(player.vx) < StopSpeed {
        player.vx := 0.0;
      }
    }
    player.grounded := false;
  }

  /** `vx` after `n` grounded calls. */
  function FrictionIter(vx: real, n: nat): real
  {
    if n == 0 then vx else FrictionStep(FrictionIter(vx, n - 1))
  }

  function Pow(b: real, n: nat): real
  {
    if n == 0 then 1.0 else b * Pow(b, n - 1)
  }

  /** Once stopped, a grounded player stays stopped. */
  lemma {:induction false} StoppedStaysStopped(n: nat)
    ensures FrictionIter(0.0, n) == 0.0
  {
    if n > 0 {
      StoppedStaysStopped(n - 1);
    }
  }

  /** Each call either stops the player or removes a fifth of the speed. */
  lemma {:induction false} FrictionIterShift(vx: real, n: nat)
    ensures FrictionIter(vx, n + 1) == FrictionIter(FrictionStep(vx), n)
  {
    if n > 0 {
      FrictionIterShift(vx, n - 1);
    }
  }

  /**
   * Repeated grounded calls stop the player after finitely many calls: a
   * speed below `5 * 1.25^(n+1)` is exactly zero after `n + 1` calls.
   */
  lemma {:induction false} FrictionStops(vx: real, n: nat)
    requires Abs(vx) < StopSpeed * Pow(1.25, n + 1)
    ensures FrictionIter(vx, n + 1) == 0.0
    decreases n
  {
    FrictionIterShift(vx, n);
    var v := FrictionStep(vx);
    if v == 0.0 {
      StoppedStaysStopped(n);
    } else {
      assert Abs(v) == Friction * Abs(vx);
      assert Abs(v) < StopSpeed * Pow(1.25, n);
      assert n > 0;
      FrictionStops(v, n - 1);
    }
  }

  /**
   * From 200 px/s with no input, the player still slides after 16 grounded
   * calls (5.6294... px/s) and stands still after the 17th, whatever the
   * frame time.
   */
  lemma FrictionFrom200()
    ensures FrictionIter(200.0, 16) != 0.0
    ensures FrictionIter(200.0, 17) == 0.0
  {
    assert FrictionIter(200.0, 1) == 160.0;
    assert FrictionIter(200.0, 2) == 128.0;
    assert FrictionIter(200.0, 3) == 102.4;
    assert FrictionIter(200.0, 4) == 81.92;
    assert FrictionIter(200.0, 5) == 65.536;
    assert FrictionIter(200.0, 6) == 52.4288;
    assert FrictionIter(200.0, 7) == 41.94304;
    assert FrictionIter(200.0, 8) == 33.554432;
    assert FrictionIter(200.0, 9) == 26.8435456;
    assert FrictionIter(200.0, 10) == 21.47483648;
    assert FrictionIter(200.0, 11) == 17.179869184;
    assert FrictionIter(200.0, 12) == 13.7438953472;
    assert FrictionIter(200.0, 13) == 10.99511627776;
    assert FrictionIter(200.0, 14) == 8.796093022208;
    assert FrictionIter(200.0, 15) == 7.0368744177664;
    assert FrictionIter(200.0, 16) == 5.62949953421312;
  }
}

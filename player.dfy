/**
 * The player physics step of the voxel demo (`updatePlayer`): additive
 * W/S/A/D movement, a jump gated on the ground flag, one gravity step and
 * the clamp to the ground plane, followed by moving the camera to the
 * player. The step is first given as a function on values (`Step`), about
 * which the properties are proved; the `Player` class performs it in place
 * and is proved to agree with it.
 *
 * Quantities are reals; `sin(rotationY)` and `cos(rotationY)` are inputs.
 */
module Player {
  import opened Input

  const MoveSpeed: real := 0.1
  const JumpSpeed: real := 0.2
  const Gravity: real := 0.01
  /** The literal height the ground clamp tests against and assigns. */
  const GroundHeight: real := 2.0

  /** The keys the step reads. */
  const Forward: Key := "w"
  const Back: Key := "s"
  const Left: Key := "a"
  const Right: Key := "d"
  const JumpKey: Key := " "

  /** The player record `{x, y, z, velocityY, onGround}`. */
  datatype PlayerState = PlayerState(x: real, y: real, z: real, velocityY: real, onGround: bool)

  /** The record the demo starts from. */
  const Initial: PlayerState := PlayerState(0.0, 2.0, 0.0, 0.0, true)

  /** What one tick reads: the key dictionary and sin/cos of the current yaw. */
  datatype Tick = Tick(keys: map<Key, bool>, sinY: real, cosY: real)

  // ---------------------------------------------------------------------
  // The step, phase by phase, in the order the source applies them

  /**
   * The four movement tests, in source order: each held key adds its own
   * step to x and z (W: -(sin, cos), S: +(sin, cos), A: (-cos, +sin),
   * D: (+cos, -sin), all times MoveSpeed).
   */
  function Move(s: PlayerState, t: Tick): (r: PlayerState)
    ensures r.y == s.y && r.velocityY == s.velocityY && r.onGround == s.onGround
  {
    s.(x := s.x + StepX(t), z := s.z + StepZ(t))
  }

  function StepX(t: Tick): real
  {
    (if Pressed(t.keys, Forward) then - t.sinY * MoveSpeed else 0.0)
    + (if Pressed(t.keys, Back) then t.sinY * MoveSpeed else 0.0)
    + (if Pressed(t.keys, Left) then - t.cosY * MoveSpeed else 0.0)
    + (if Pressed(t.keys, Right) then t.cosY * MoveSpeed else 0.0)
  }

  function StepZ(t: Tick): real
  {
    (if Pressed(t.keys, Forward) then - t.cosY * MoveSpeed else 0.0)
    + (if Pressed(t.keys, Back) then t.cosY * MoveSpeed else 0.0)
    + (if Pressed(t.keys, Left) then t.sinY * MoveSpeed else 0.0)
    + (if Pressed(t.keys, Right) then - t.sinY * MoveSpeed else 0.0)
  }

  /** The jump fires only when the jump key is held and the player is grounded. */
  function Jump(s: PlayerState, keys: map<Key, bool>): (r: PlayerState)
    ensures r.x == s.x && r.y == s.y && r.z == s.z
    ensures !s.onGround ==> r == s
    ensures r != s ==> s.onGround && Pressed(keys, JumpKey) && !r.onGround && r.velocityY == JumpSpeed
  {
    if Pressed(keys, JumpKey) && s.onGround then s.(velocityY := JumpSpeed, onGround := false) else s
  }

  /** One gravity step: the velocity drops by a constant, then moves y. */
  function Fall(s: PlayerState): (r: PlayerState)
    ensures r.x == s.x && r.z == s.z && r.onGround == s.onGround
    ensures r.velocityY < s.velocityY
    ensures r.y - s.y == r.velocityY
  {
    var v := s.velocityY - Gravity;
    s.(velocityY := v, y := s.y + v)
  }

  /** Below the ground plane the player is put back on it, at rest. */
  function Clamp(s: PlayerState): (r: PlayerState)
    ensures r.x == s.x && r.z == s.z
    ensures r.y >= GroundHeight
    ensures s.y >= GroundHeight ==> r == s
    ensures s.y < GroundHeight ==> r.onGround && r.velocityY == 0.0
  {
    if s.y < GroundHeight then s.(y := GroundHeight, velocityY := 0.0, onGround := true) else s
  }

  /** One call of the physics step. Whatever the state before, the player ends on or above the ground. */
  function Step(s: PlayerState, t: Tick): (r: PlayerState)
    ensures r.y >= GroundHeight
  {
    Clamp(Fall(Jump(Move(s, t), t.keys)))
  }

  /** The state after the ticks, applied first to last. */
  function Run(s: PlayerState, ticks: seq<Tick>): (r: PlayerState)
    ensures |ticks| > 0 ==> r.y >= GroundHeight
    ensures Resting(s) ==> Resting(r)
    decreases |ticks|
  {
    if |ticks| == 0 then s else Step(Run(s, ticks[..|ticks| - 1]), ticks[|ticks| - 1])
  }

  /**
   * The invariant of the two-state machine: the player is never below the
   * ground, and a grounded player stands exactly on it with no vertical speed.
   */
  predicate Resting(s: PlayerState)
  {
    s.y >= GroundHeight && (s.onGround ==> s.y == GroundHeight && s.velocityY == 0.0)
  }

  // ---------------------------------------------------------------------
  // An independent statement of the horizontal movement

  /** +1 if only `plus` is held, -1 if only `minus` is held, 0 otherwise. */
  function Axis(keys: map<Key, bool>, plus: Key, minus: Key): real
  {
    (if Pressed(keys, plus) then 1.0 else 0.0) - (if Pressed(keys, minus) then 1.0 else 0.0)
  }

  /** The forward/back axis: forward is -(sin, cos), strafing right is (cos, -sin). */
  function Ahead(t: Tick): real { Axis(t.keys, Forward, Back) }
  function Aside(t: Tick): real { Axis(t.keys, Right, Left) }

  function DeltaX(t: Tick): real { MoveSpeed * (Aside(t) * t.cosY - Ahead(t) * t.sinY) }
  function DeltaZ(t: Tick): real { MoveSpeed * (- Ahead(t) * t.cosY - Aside(t) * t.sinY) }

  // ---------------------------------------------------------------------
  // Properties

  /** The invariant holds at start and after every tick. */
  lemma StepKeepsResting(s: PlayerState, t: Tick)
    requires Resting(s)
    ensures Resting(Step(s, t))
  {
  }

  /** Any run from the initial record, whatever keys and yaw, keeps the invariant. */
  lemma RunFromInitial(ticks: seq<Tick>)
    ensures Resting(Run(Initial, ticks))
  {
  }

  /**
   * Movement is the unnormalised vector sum of the steps of the held keys;
   * the vertical phases never touch x or z.
   */
  lemma StepHorizontal(s: PlayerState, t: Tick)
    ensures Step(s, t).x == s.x + DeltaX(t)
    ensures Step(s, t).z == s.z + DeltaZ(t)
  {
    AxisScales(t.keys, Forward, Back, t.sinY * MoveSpeed);
    AxisScales(t.keys, Forward, Back, t.cosY * MoveSpeed);
    AxisScales(t.keys, Right, Left, t.sinY * MoveSpeed);
    AxisScales(t.keys, Right, Left, t.cosY * MoveSpeed);
  }

  /** Scaling an axis by c picks +c, -c or 0 according to the keys held. */
  lemma AxisScales(keys: map<Key, bool>, plus: Key, minus: Key, c: real)
    ensures Axis(keys, plus, minus) * c
      == (if Pressed(keys, plus) then c else 0.0) - (if Pressed(keys, minus) then c else 0.0)
  {
  }

  /** Opposite keys cancel: W with S, and A with D. */
  lemma OppositeKeysCancel(s: PlayerState, t: Tick)
    requires Pressed(t.keys, Forward) == Pressed(t.keys, Back)
    requires Pressed(t.keys, Left) == Pressed(t.keys, Right)
    ensures Step(s, t).x == s.x && Step(s, t).z == s.z
  {
    StepHorizontal(s, t);
  }

  /**
   * The squared distance moved is MoveSpeed² times the number of unopposed
   * axes held: a diagonal (say W with D) covers √2·MoveSpeed, not MoveSpeed.
   */
  lemma SpeedSquared(s: PlayerState, t: Tick)
    requires t.sinY * t.sinY + t.cosY * t.cosY == 1.0
    ensures var dx, dz := Step(s, t).x - s.x, Step(s, t).z - s.z;
      dx * dx + dz * dz == MoveSpeed * MoveSpeed * (Ahead(t) * Ahead(t) + Aside(t) * Aside(t))
  {
    StepHorizontal(s, t);
    var f, a, c, n := Ahead(t), Aside(t), t.cosY, t.sinY;
    calc {
      (a * c - f * n) * (a * c - f * n) + (- f * c - a * n) * (- f * c - a * n);
    ==
      a * a * (c * c + n * n) + f * f * (c * c + n * n);
    ==
      a * a + f * f;
    }
  }

  /** Movement keys never change y, velocityY or onGround: only the previous vertical state and the jump key do. */
  lemma VerticalIgnoresMovement(s1: PlayerState, s2: PlayerState, t1: Tick, t2: Tick)
    requires s1.y == s2.y && s1.velocityY == s2.velocityY && s1.onGround == s2.onGround
    requires Pressed(t1.keys, JumpKey) == Pressed(t2.keys, JumpKey)
    ensures Step(s1, t1).y == Step(s2, t2).y
    ensures Step(s1, t1).velocityY == Step(s2, t2).velocityY
    ensures Step(s1, t1).onGround == Step(s2, t2).onGround
  {
  }

  /** From a resting grounded state, the jump key lifts the player off at once. */
  lemma JumpFromGround(s: PlayerState, t: Tick)
    requires Resting(s) && s.onGround
    requires Pressed(t.keys, JumpKey)
    ensures Step(s, t).velocityY == JumpSpeed - Gravity
    ensures Step(s, t).y == GroundHeight + JumpSpeed - Gravity
    ensures !Step(s, t).onGround
  {
  }

  /** Without the jump key a resting grounded player stays grounded and at rest. */
  lemma GroundedWithoutJump(s: PlayerState, t: Tick)
    requires Resting(s) && s.onGround
    requires !Pressed(t.keys, JumpKey)
    ensures Step(s, t).onGround
    ensures Step(s, t).y == GroundHeight && Step(s, t).velocityY == 0.0
  {
  }

  /** While airborne the jump key has no effect. */
  lemma AirborneIgnoresJumpKey(s: PlayerState, t: Tick)
    requires !s.onGround
    ensures Step(s, t) == Step(s, t.(keys := t.keys[JumpKey := false]))
  {
  }

  /** A tick that fires no jump and no clamp lowers the velocity by exactly one gravity step. */
  lemma FreeFall(s: PlayerState, t: Tick)
    requires !(s.onGround && Pressed(t.keys, JumpKey))
    requires s.y + s.velocityY - Gravity >= GroundHeight
    ensures Step(s, t).velocityY == s.velocityY - Gravity
    ensures Step(s, t).y == s.y + s.velocityY - Gravity
    ensures Step(s, t).onGround == s.onGround
  {
  }

  /**
   * At or below the ground and not rising, a tick that fires no jump
   * settles the player on the ground at rest.
   */
  lemma ClampSettles(s: PlayerState, t: Tick)
    requires s.y <= GroundHeight && s.velocityY <= 0.0
    requires !(s.onGround && Pressed(t.keys, JumpKey))
    ensures Step(s, t).y == GroundHeight && Step(s, t).velocityY == 0.0 && Step(s, t).onGround
  {
  }

  /** With no key held, a resting grounded state is a fixed point of the step. */
  lemma RestIsFixedPoint(s: PlayerState, t: Tick)
    requires Resting(s) && s.onGround
    requires !Pressed(t.keys, Forward) && !Pressed(t.keys, Back) && !Pressed(t.keys, Left) && !Pressed(t.keys, Right)
    requires !Pressed(t.keys, JumpKey)
    ensures Step(s, t) == s
  {
  }

  // ---------------------------------------------------------------------
  // The jump arc

  /** Height k ticks into a jump: 2 + k·JumpSpeed - Gravity·k(k+1)/2. */
  function ArcHeight(k: nat): real
  {
    GroundHeight + (k as real) * JumpSpeed - Gravity * (k as real) * ((k as real) + 1.0) / 2.0
  }

  /** Vertical velocity k ticks into a jump. */
  function ArcVelocity(k: nat): real
  {
    JumpSpeed - Gravity * (k as real)
  }

  /** One tick of free fall moves along the arc. */
  lemma ArcStep(k: nat)
    requires k >= 1
    ensures ArcVelocity(k - 1) - Gravity == ArcVelocity(k)
    ensures ArcHeight(k - 1) + ArcVelocity(k) == ArcHeight(k)
  {
    var K := (k - 1) as real;
    assert (k as real) == K + 1.0;
    assert K * (K + 1.0) + 2.0 * (K + 1.0) == (K + 1.0) * (K + 2.0);
  }

  /** The arc is at or above the ground up to tick 39. */
  lemma ArcAboveGround(k: nat)
    requires k <= 39
    ensures ArcHeight(k) >= GroundHeight
  {
    var K := k as real;
    var f := JumpSpeed - Gravity * (K + 1.0) / 2.0;
    assert K <= 39.0;
    assert f >= 0.0;
    assert ArcHeight(k) - GroundHeight == K * f;
    assert K * f >= 0.0 by {
      if K > 0.0 && f > 0.0 { assert K * f > 0.0; }
    }
  }

  /** The first k ticks of a jump from the ground, for 1 <= k <= 39, follow the arc and stay airborne. */
  lemma {:induction false} JumpArcPrefix(s: PlayerState, ticks: seq<Tick>, k: nat)
    requires Resting(s) && s.onGround
    requires 1 <= k <= 39 && k <= |ticks|
    requires Pressed(ticks[0].keys, JumpKey)
    ensures Run(s, ticks[..k]).y == ArcHeight(k)
    ensures Run(s, ticks[..k]).velocityY == ArcVelocity(k)
    ensures !Run(s, ticks[..k]).onGround
  {
    if k == 1 {
      assert ticks[..1][..0] == [];
      JumpFromGround(s, ticks[0]);
    } else {
      JumpArcPrefix(s, ticks, k - 1);
      assert ticks[..k][..k - 1] == ticks[..k - 1];
      var p := Run(s, ticks[..k - 1]);
      ArcStep(k);
      ArcAboveGround(k);
      FreeFall(p, ticks[k - 1]);
    }
  }

  /**
   * A jump from the ground is airborne for exactly 39 ticks, whatever keys
   * are held meanwhile (height exactly 2 again at tick 39, which the strict
   * test does not clamp), and lands at rest on the 40th.
   */
  lemma JumpLandsOnTick40(s: PlayerState, ticks: seq<Tick>)
    requires Resting(s) && s.onGround
    requires |ticks| == 40
    requires Pressed(ticks[0].keys, JumpKey)
    ensures forall k :: 1 <= k < 40 ==> !Run(s, ticks[..k]).onGround
    ensures Run(s, ticks[..39]).y == GroundHeight
    ensures Run(s, ticks).onGround
    ensures Run(s, ticks).y == GroundHeight && Run(s, ticks).velocityY == 0.0
  {
    forall k | 1 <= k < 40
      ensures !Run(s, ticks[..k]).onGround
    {
      JumpArcPrefix(s, ticks, k);
    }
    JumpArcPrefix(s, ticks, 39);
    assert ticks[..40] == ticks;
    assert ArcHeight(39) == GroundHeight;
    ClampSettles(Run(s, ticks[..39]), ticks[39]);
  }

  // ---------------------------------------------------------------------
  // The objects the source updates in place

  /** The camera, of which the step sets only the position. */
  class Camera {
    var x: real
    var y: real
    var z: real

    constructor ()
      ensures x == 0.0 && y == 2.0 && z == 5.0
    {
      x, y, z := 0.0, 2.0, 5.0;
    }
  }

  /** The global player record. */
  class Player {
    var x: real
    var y: real
    var z: real
    var velocityY: real
    var onGround: bool

    function State(): PlayerState
      reads this
    {
      PlayerState(x, y, z, velocityY, onGround)
    }

    constructor ()
      ensures State() == Initial
      ensures Resting(State())
    {
      x, y, z, velocityY, onGround := 0.0, 2.0, 0.0, 0.0, true;
    }

    /** The four movement tests of `updatePlayer`, applied to the record in place. */
    method Walk(keys: map<Key, bool>, sinY: real, cosY: real)
      modifies this
      ensures State() == Move(old(State()), Tick(keys, sinY, cosY))
    {
      if Pressed(keys, Forward) {
        x := x - sinY * MoveSpeed;
        z := z - cosY * MoveSpeed;
      }
      if Pressed(keys, Back) {
        x := x + sinY * MoveSpeed;
        z := z + cosY * MoveSpeed;
      }
      if Pressed(keys, Left) {
        x := x - cosY * MoveSpeed;
        z := z + sinY * MoveSpeed;
      }
      if Pressed(keys, Right) {
        x := x + cosY * MoveSpeed;
        z := z - sinY * MoveSpeed;
      }
    }

    /**
     * `updatePlayer`: movement, jump, gravity and the ground clamp on the
     * record, then the camera is moved to the player.
     */
    method Update(input: KeyState, sinY: real, cosY: real, camera: Camera)
      modifies this, camera
      ensures State() == Step(old(State()), Tick(input.keys, sinY, cosY))
      ensures camera.x == x && camera.y == y && camera.z == z
      ensures y >= GroundHeight
      ensures old(Resting(State())) ==> Resting(State())
    {
      ghost var t := Tick(input.keys, sinY, cosY);
      ghost var s0 := State();
      Walk(input.keys, sinY, cosY);

      if Pressed(input.keys, JumpKey) && onGround {
        velocityY := JumpSpeed;
        onGround := false;
      }

      velocityY := velocityY - Gravity;
      y := y + velocityY;

      if y < GroundHeight {
        y := GroundHeight;
        velocityY := 0.0;
        onGround := true;
      }
      if Resting(s0) { StepKeepsResting(s0, t); }

      camera.x, camera.y, camera.z := x, y, z;
    }
  }
}

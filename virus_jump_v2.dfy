/** The v2 "virus jump" game: a player sphere bounces ("balloon" physics)
    on top of a rotating planet covered with 1000 spikes (cones). Each frame
    the player's position is taken into the planet's local frame once and
    compared against every cone; a hit flashes the player red, shrinks it,
    and arms a 10-frame countdown before the normal look returns. */
module VirusJumpV2 {
  import opened Geometry
  import Easing

  const SphereRadius: real := 3.05
  const NumberOfCones: nat := 1000

  /** Collision: distance < Threshold + radius * RadiusFactor. */
  const Threshold: real := 0.15
  const RadiusFactor: real := 0.5

  /** Hit reaction. */
  const HitFrames: int := 10
  const HitScale: real := 0.5
  const RestScale: real := 1.0
  const HitColor: int := 0xff0000
  const RestColor: int := 0xffffff
  const ScaleEasing: real := 0.1

  /** Balloon physics. */
  const GroundY: real := 3.12
  const Gravity: real := -0.002
  const JumpImpulse: real := 0.08
  const Friction: real := 0.96
  const MaxVelocity: real := 0.2
  /** The fixed point of one airborne step, v = (v + Gravity) * Friction:
      the fastest the player can ever fall. */
  const TerminalVelocity: real := -0.048

  const RotationSpeed: real := 0.003

  // ---------------------------------------------------------------------
  // Obstacles

  /** A spike: its position in the planet's local frame and its radius
      scale; both are fixed when the scene is built. */
  datatype Cone = Cone(position: Vec3, radius: real)

  /** The random inputs consumed per cone: the unit direction derived from
      two random angles, and the `Math.random()` draw for the radius. */
  datatype ConeDraw = ConeDraw(direction: Vec3, radiusDraw: real)

  function ConeFromDraw(d: ConeDraw): Cone
  {
    Cone(Scale(d.direction, SphereRadius), d.radiusDraw * 0.1 + 0.05)
  }

  /** The construction loop that fills `conesData`: one cone per draw, on
      the planet's surface, with a radius scale in [0.05, 0.15). */
  method BuildCones(draws: seq<ConeDraw>) returns (cones: seq<Cone>)
    requires |draws| == NumberOfCones
    requires forall i :: 0 <= i < |draws| ==> 0.0 <= draws[i].radiusDraw < 1.0
    ensures |cones| == NumberOfCones
    ensures forall i :: 0 <= i < |cones| ==> cones[i] == ConeFromDraw(draws[i])
    ensures forall i :: 0 <= i < |cones| ==> 0.05 <= cones[i].radius < 0.15
  {
    cones := [];
    var i := 0;
    while i < NumberOfCones
      invariant 0 <= i <= NumberOfCones
      invariant |cones| == i
      invariant forall j :: 0 <= j < i ==> cones[j] == ConeFromDraw(draws[j])
      invariant forall j :: 0 <= j < i ==> 0.05 <= cones[j].radius < 0.15
    {
      var position := Scale(draws[i].direction, SphereRadius);
      var r := draws[i].radiusDraw * 0.1 + 0.05;
      cones := cones + [Cone(position, r)];
      i := i + 1;
    }
  }

  /** A cone built from a unit direction lies on the planet's surface. */
  lemma ConeOnSurface(d: ConeDraw)
    requires DistSq(d.direction, Vec3(0.0, 0.0, 0.0)) == 1.0
    ensures DistSq(ConeFromDraw(d).position, Vec3(0.0, 0.0, 0.0)) == SphereRadius * SphereRadius
  {
    ScaleNorm(d.direction);
  }

  // ---------------------------------------------------------------------
  // Detection

  /** The collision threshold of one cone. */
  function HitDistance(c: Cone): real
  {
    Threshold + c.radius * RadiusFactor
  }

  /** The player (in the planet's local frame) touches cone c. */
  predicate HitsCone(p: Vec3, c: Cone)
  {
    Within(p, c.position, HitDistance(c))
  }

  /** The scan in `checkCollision`: walk the cones in order and stop at the
      first one the player touches. The early exit only saves work: the
      answer is whether ANY cone is touched. */
  method ScanCones(p: Vec3, cones: seq<Cone>) returns (hit: bool)
    ensures hit <==> exists i :: 0 <= i < |cones| && HitsCone(p, cones[i])
  {
    hit := false;
    var i := 0;
    while i < |cones|
      invariant 0 <= i <= |cones|
      invariant forall j :: 0 <= j < i ==> !HitsCone(p, cones[j])
    {
      if HitsCone(p, cones[i]) {
        hit := true;
        break;
      }
      i := i + 1;
    }
  }

  /** A player standing exactly on a cone's position touches it, for any
      cone of non-negative radius. */
  lemma HitAtConePosition(cones: seq<Cone>, i: nat)
    requires i < |cones| && cones[i].radius >= 0.0
    ensures exists j :: 0 <= j < |cones| && HitsCone(cones[i].position, cones[j])
  {
    WithinSelf(cones[i].position, HitDistance(cones[i]));
    assert HitsCone(cones[i].position, cones[i]);
  }

  /** The boundary is strict: a player at least the threshold away from
      every cone touches none of them. */
  lemma NoHitAtBoundary(p: Vec3, cones: seq<Cone>)
    requires forall i :: 0 <= i < |cones| ==>
               DistSq(p, cones[i].position) >= HitDistance(cones[i]) * HitDistance(cones[i])
    ensures !exists i :: 0 <= i < |cones| && HitsCone(p, cones[i])
  {
    forall i | 0 <= i < |cones|
      ensures !HitsCone(p, cones[i])
    {
      WithinIsStrict(p, cones[i].position, HitDistance(cones[i]));
    }
  }

  // ---------------------------------------------------------------------
  // Hit reaction

  /** The player's hit look: countdown, target scale and colour. */
  datatype Look = Look(timer: int, target: real, color: int)

  /** The reaction part of `checkCollision` for one frame. A hit re-arms
      the countdown to exactly HitFrames however much was left (no
      accumulation); without a hit the countdown never grows, and it stays
      within [0, HitFrames]. */
  function React(v: Look, hit: bool): (r: Look)
    ensures hit ==> r.timer == HitFrames && r.target == HitScale && r.color == HitColor
    ensures !hit ==> r.timer <= v.timer
    ensures 0 <= v.timer <= HitFrames ==> 0 <= r.timer <= HitFrames
  {
    if hit then Look(HitFrames, HitScale, HitColor)
    else if v.timer > 0 then v.(timer := v.timer - 1)
    else v.(target := RestScale, color := RestColor)
  }

  /** A frame without a hit either counts down by exactly one and keeps the
      look, or (countdown at zero) restores the resting look. */
  lemma QuietFrame(v: Look)
    ensures v.timer > 0 ==> React(v, false) == v.(timer := v.timer - 1)
    ensures v.timer <= 0 ==>
              React(v, false) == Look(v.timer, RestScale, RestColor)
  {
  }

  /** n consecutive frames without a hit. */
  function Quiet(v: Look, n: nat): Look
  {
    if n == 0 then v else React(Quiet(v, n - 1), false)
  }

  /** After a hit, the hit look is held for exactly HitFrames no-hit frames,
      the countdown falling by one each frame. */
  lemma {:induction false} HeldAfterHit(v: Look, n: nat)
    requires n <= 10
    ensures Quiet(React(v, true), n) == Look(HitFrames - n, HitScale, HitColor)
  {
    if n > 0 {
      HeldAfterHit(v, n - 1);
    }
  }

  /** ... and the frame after those is the one that restores the resting
      look. */
  lemma RevertsOnNextFrame(v: Look)
    ensures Quiet(React(v, true), 10).target == HitScale
    ensures Quiet(React(v, true), 11) == Look(0, RestScale, RestColor)
  {
    HeldAfterHit(v, 10);
  }

  // ---------------------------------------------------------------------
  // Balloon physics

  /** The Space handler: add the impulse, then cap at MaxVelocity. Presses
      accumulate, but the result never exceeds the cap and never slows the
      player down. */
  function Press(v: real): (r: real)
    ensures r <= MaxVelocity
    ensures r == v + JumpImpulse || r == MaxVelocity
    ensures v + JumpImpulse <= MaxVelocity ==> r == v + JumpImpulse
    ensures v + JumpImpulse > MaxVelocity ==> r == MaxVelocity
    ensures v <= MaxVelocity ==> v <= r
  {
    var w := v + JumpImpulse;
    if w > MaxVelocity then MaxVelocity else w
  }

  datatype Body = Body(y: real, v: real)

  /** Velocities reachable from rest: never faster upward than the cap,
      never faster downward than the terminal velocity. */
  predicate VelocityInRange(v: real)
  {
    TerminalVelocity <= v <= MaxVelocity
  }

  /** `updatePhysics`: move by the velocity; above the ground apply gravity
      then friction; otherwise land on the ground and stop any fall. The
      player never ends below the ground, and the velocity range is kept. */
  function Physics(b: Body): (r: Body)
    ensures r.y >= GroundY
    ensures VelocityInRange(b.v) ==> VelocityInRange(r.v)
  {
    var y := b.y + b.v;
    if y > GroundY then
      Body(y, (b.v + Gravity) * Friction)
    else
      Body(GroundY, if b.v < 0.0 then 0.0 else b.v)
  }

  /** Pressing Space keeps the velocity range too. */
  lemma PressInRange(v: real)
    requires VelocityInRange(v)
    ensures VelocityInRange(Press(v))
  {
  }

  /** The two branches of a physics step, from the caller's side: in the air
      the velocity is (v - 0.002) * 0.96; on landing the position snaps to
      the ground and a fall is stopped, an upward velocity kept. */
  lemma PhysicsCases(b: Body)
    ensures b.y + b.v > GroundY ==> Physics(b) == Body(b.y + b.v, (b.v - 0.002) * 0.96)
    ensures b.y + b.v <= GroundY ==> Physics(b).y == GroundY && Physics(b).v >= 0.0
    ensures b.y + b.v <= GroundY && b.v >= 0.0 ==> Physics(b).v == b.v
  {
  }

  /** One press from rest on the ground, then one frame: the player rises to
      3.20 and the velocity becomes (0.08 - 0.002) * 0.96 = 0.07488. */
  lemma FirstJumpFrame()
    ensures Press(0.0) == 0.08
    ensures Physics(Body(GroundY, Press(0.0))) == Body(3.20, 0.07488)
  {
  }

  // ---------------------------------------------------------------------
  // The game state

  /** The rotations keep fixed proportions: the planet turns about y at
      half and about z at a third of its x rate, and the player spins about
      y at a quarter of its x rate and never about z. */
  predicate Turning(group: Vec3, player: Vec3)
  {
    && group.x == 2.0 * group.y && group.x == 3.0 * group.z
    && player.x == 4.0 * player.y && player.z == 0.0
  }

  /** A frame of `rotateWorld` keeps those proportions, and turns the
      planet forward and the player backward. */
  lemma RotateKeepsTurning(group: Vec3, player: Vec3)
    requires Turning(group, player)
    ensures Turning(Vec3(group.x + RotationSpeed, group.y + RotationSpeed / 2.0, group.z + RotationSpeed / 3.0),
                    Vec3(player.x - RotationSpeed * 20.0, player.y - RotationSpeed * 5.0, player.z))
  {
  }

  /** The module-level state of the v2 script: the fixed cones, the player
      (position, vertical velocity, hit look and scale) and the two
      rotations. The player's x and z stay 0; the scale vector is always
      uniform, so one real stands for it. */
  class Game {
    const cones: seq<Cone>
    var y: real
    var velocityY: real
    var collisionTimer: int
    var targetScale: real
    var scale: real
    var color: int
    var groupRotation: Vec3
    var playerRotation: Vec3

    function PlayerPosition(): Vec3
      reads this
    {
      Vec3(0.0, y, 0.0)
    }

    function CurrentLook(): Look
      reads this
    {
      Look(collisionTimer, targetScale, color)
    }

    ghost predicate Valid()
      reads this
    {
      && y >= GroundY
      && VelocityInRange(velocityY)
      && 0 <= collisionTimer <= HitFrames
      && (targetScale == HitScale || targetScale == RestScale)
      && HitScale <= scale <= RestScale
      && |cones| == NumberOfCones
      && Turning(groupRotation, playerRotation)
    }

    /** Scene construction: the cones from their random draws, the player
        resting on the ground in its normal look. */
    constructor (draws: seq<ConeDraw>)
      requires |draws| == NumberOfCones
      requires forall i :: 0 <= i < |draws| ==> 0.0 <= draws[i].radiusDraw < 1.0
      ensures Valid()
      ensures forall i :: 0 <= i < |cones| ==> cones[i] == ConeFromDraw(draws[i])
      ensures forall i :: 0 <= i < |cones| ==> 0.05 <= cones[i].radius < 0.15
      ensures y == GroundY && velocityY == 0.0
      ensures CurrentLook() == Look(0, RestScale, RestColor) && scale == RestScale
      ensures groupRotation == Vec3(0.0, 0.0, 0.0) && playerRotation == Vec3(0.0, 0.0, 0.0)
    {
      var built := BuildCones(draws);
      cones := built;
      y, velocityY := GroundY, 0.0;
      collisionTimer, targetScale, scale, color := 0, RestScale, RestScale, RestColor;
      groupRotation, playerRotation := Vec3(0.0, 0.0, 0.0), Vec3(0.0, 0.0, 0.0);
    }

    /** The `keydown` listener; only the Space key does anything. */
    method KeyDown(code: string)
      requires Valid()
      modifies this`velocityY
      ensures Valid()
      ensures velocityY == if code == "Space" then Press(old(velocityY)) else old(velocityY)
      ensures velocityY <= MaxVelocity
    {
      if code == "Space" {
        velocityY := velocityY + JumpImpulse;
        if velocityY > MaxVelocity {
          velocityY := MaxVelocity;
        }
      }
    }

    /** `updatePhysics` */
    method UpdatePhysics()
      requires Valid()
      modifies this`y, this`velocityY
      ensures Valid()
      ensures Body(y, velocityY) == Physics(old(Body(y, velocityY)))
    {
      y := y + velocityY;
      if y > GroundY {
        velocityY := velocityY + Gravity;
        velocityY := velocityY * Friction;
      } else {
        y := GroundY;
        if velocityY < 0.0 {
          velocityY := 0.0;
        }
      }
    }

    /** `checkCollision`: the player's position is taken into the planet's
        local frame by `worldToLocal` (the rotating group's inverse world
        transform, supplied by the caller), the cones are scanned, the hit
        look is updated and the scale eased toward its target. The cones
        themselves are never touched. */
    method CheckCollision(worldToLocal: Vec3 -> Vec3) returns (hit: bool)
      requires Valid()
      modifies this`collisionTimer, this`targetScale, this`color, this`scale
      ensures Valid()
      ensures hit <==> exists i :: 0 <= i < |cones| && HitsCone(worldToLocal(PlayerPosition()), cones[i])
      ensures CurrentLook() == React(old(CurrentLook()), hit)
      ensures scale == Easing.Lerp(old(scale), targetScale, ScaleEasing)
    {
      var local := worldToLocal(PlayerPosition());
      hit := ScanCones(local, cones);
      if hit {
        color := HitColor;
        targetScale := HitScale;
        collisionTimer := HitFrames;
      } else {
        if collisionTimer > 0 {
          collisionTimer := collisionTimer - 1;
        } else {
          color := RestColor;
          targetScale := RestScale;
        }
      }
      scale := scale + (targetScale - scale) * ScaleEasing;
      Easing.LerpStaysInRange(old(scale), targetScale, ScaleEasing, HitScale, RestScale);
    }

    /** `rotateWorld`: the planet turns by (s, s/2, s/3) per frame and the
        player spins the other way by (20s, 5s, 0). */
    method RotateWorld()
      requires Valid()
      modifies this`groupRotation, this`playerRotation
      ensures Valid()
      ensures groupRotation == Vec3(old(groupRotation).x + RotationSpeed,
                                    old(groupRotation).y + RotationSpeed / 2.0,
                                    old(groupRotation).z + RotationSpeed / 3.0)
      ensures playerRotation == Vec3(old(playerRotation).x - RotationSpeed * 20.0,
                                     old(playerRotation).y - RotationSpeed * 5.0,
                                     old(playerRotation).z)
    {
      groupRotation := Vec3(groupRotation.x + RotationSpeed, groupRotation.y + RotationSpeed / 2.0,
                            groupRotation.z + RotationSpeed / 3.0);
      playerRotation := playerRotation.(x := playerRotation.x - RotationSpeed * 20.0,
                                        y := playerRotation.y - RotationSpeed * 5.0);
    }

    /** One frame of `animate`: rotate, integrate, detect. */
    method Animate(worldToLocal: Vec3 -> Vec3) returns (hit: bool)
      requires Valid()
      modifies this
      ensures Valid()
      ensures Body(y, velocityY) == Physics(old(Body(y, velocityY)))
      ensures hit <==> exists i :: 0 <= i < |cones| && HitsCone(worldToLocal(PlayerPosition()), cones[i])
      ensures CurrentLook() == React(old(CurrentLook()), hit)
      ensures scale == Easing.Lerp(old(scale), targetScale, ScaleEasing)
      ensures groupRotation == Vec3(old(groupRotation).x + RotationSpeed,
                                    old(groupRotation).y + RotationSpeed / 2.0,
                                    old(groupRotation).z + RotationSpeed / 3.0)
      ensures playerRotation == Vec3(old(playerRotation).x - RotationSpeed * 20.0,
                                     old(playerRotation).y - RotationSpeed * 5.0,
                                     old(playerRotation).z)
    {
      RotateWorld();
      UpdatePhysics();
      hit := CheckCollision(worldToLocal);
    }
  }
}

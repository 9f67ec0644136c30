/** The turning of the first "virus jump" demo (app.js): the planet with
    its cones turns by a speed drawn once when the script loads, and the
    player sphere spins the opposite way. */
module VirusJump {
  import opened Geometry

  const MinRotationSpeed: real := 0.001
  const MaxRotationSpeed: real := 0.005

  /** `Math.random() * (0.005 - 0.001) + 0.001` for a draw u in [0, 1): a
      speed in [0.001, 0.005), the lowest for u = 0, rising with u. */
  function RotationSpeedFrom(u: real): (r: real)
    requires 0.0 <= u < 1.0
    ensures MinRotationSpeed <= r < MaxRotationSpeed
    ensures u == 0.0 ==> r == MinRotationSpeed
  {
    u * (MaxRotationSpeed - MinRotationSpeed) + MinRotationSpeed
  }

  /** The planet turns about x three times as fast as about y and z; the
      player spins about x twice as fast as about y and z. */
  predicate Proportional(big: Vec3, small: Vec3)
  {
    && big.x == 3.0 * big.y && big.y == big.z
    && small.x == 2.0 * small.y && small.y == small.z
  }

  /** The rotations of the planet group and of the player sphere. */
  class Spinner {
    const rotationSpeed: real
    var bigRotation: Vec3
    var smallRotation: Vec3

    ghost predicate Valid()
      reads this
    {
      MinRotationSpeed <= rotationSpeed < MaxRotationSpeed && Proportional(bigRotation, smallRotation)
    }

    constructor (u: real)
      requires 0.0 <= u < 1.0
      ensures Valid()
      ensures rotationSpeed == RotationSpeedFrom(u)
      ensures bigRotation == Vec3(0.0, 0.0, 0.0) && smallRotation == Vec3(0.0, 0.0, 0.0)
    {
      rotationSpeed := RotationSpeedFrom(u);
      bigRotation, smallRotation := Vec3(0.0, 0.0, 0.0), Vec3(0.0, 0.0, 0.0);
    }

    /** `rotateBigSphere`: x by the speed, y and z by a third of it. */
    method RotateBigSphere()
      requires Valid()
      modifies this`bigRotation
      ensures Valid()
      ensures bigRotation == Vec3(old(bigRotation).x + rotationSpeed,
                                  old(bigRotation).y + rotationSpeed / 3.0,
                                  old(bigRotation).z + rotationSpeed / 3.0)
      ensures bigRotation.x > old(bigRotation).x
    {
      bigRotation := Vec3(bigRotation.x + rotationSpeed, bigRotation.y + rotationSpeed / 3.0,
                          bigRotation.z + rotationSpeed / 3.0);
    }

    /** `rotateSmallSphere`: the other way, 10 times the speed about x and
        5 times about y and z. */
    method RotateSmallSphere()
      requires Valid()
      modifies this`smallRotation
      ensures Valid()
      ensures smallRotation == Vec3(old(smallRotation).x + rotationSpeed * -10.0,
                                    old(smallRotation).y + rotationSpeed * -5.0,
                                    old(smallRotation).z + rotationSpeed * -5.0)
      ensures smallRotation.x < old(smallRotation).x
    {
      smallRotation := Vec3(smallRotation.x + rotationSpeed * -10.0, smallRotation.y + rotationSpeed * -5.0,
                            smallRotation.z + rotationSpeed * -5.0);
    }
  }
}

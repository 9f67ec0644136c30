/** The fogged webcam sphere page with "friends": the eased sphere of the
    fog page (with a smoothing factor of 0.15) plus 30 small primitives
    around it, each turning every frame by its own fixed per-axis speeds. */
module SphereFogFriends {
  import opened Geometry
  import opened Webcam
  import Easing

  const SmoothingFactor: real := 0.15
  const RotationStep: real := 0.01
  const PrimitiveCount: nat := 30
  /** Per-axis speeds are `(Math.random() - 0.5) * 0.02`. */
  const MaxSpin: real := 0.01

  /** One frame of a primitive's turn: each angle advances by its speed. */
  function Spin(rotation: Vec3, speed: Vec3): Vec3
  {
    Vec3(rotation.x + speed.x, rotation.y + speed.y, rotation.z + speed.z)
  }

  /** A speed component from its random draw u in [0, 1): within
      [-0.01, 0.01), and 0 exactly for the middle draw. */
  function SpeedFromDraw(u: real): (r: real)
    requires 0.0 <= u < 1.0
    ensures -MaxSpin <= r < MaxSpin
    ensures r == 0.0 <==> u == 0.5
  {
    (u - 0.5) * 0.02
  }

  predicate IsDraw(u: real)
  {
    0.0 <= u < 1.0
  }

  /** The random inputs of one primitive: its initial angles (already
      scaled by pi) and the three draws for its speeds. */
  datatype PrimitiveDraw = PrimitiveDraw(rotation: Vec3, speedDraws: Vec3)

  predicate ValidDraw(d: PrimitiveDraw)
  {
    IsDraw(d.speedDraws.x) && IsDraw(d.speedDraws.y) && IsDraw(d.speedDraws.z)
  }

  function SpeedOf(d: PrimitiveDraw): Vec3
    requires ValidDraw(d)
  {
    Vec3(SpeedFromDraw(d.speedDraws.x), SpeedFromDraw(d.speedDraws.y), SpeedFromDraw(d.speedDraws.z))
  }

  predicate SpeedInRange(v: Vec3)
  {
    && -MaxSpin <= v.x < MaxSpin
    && -MaxSpin <= v.y < MaxSpin
    && -MaxSpin <= v.z < MaxSpin
  }

  /** A small primitive: its angles change every frame, its speeds (kept
      in `userData.rotationSpeed`) never do. */
  class Primitive {
    var rotation: Vec3
    const speed: Vec3

    constructor (d: PrimitiveDraw)
      requires ValidDraw(d)
      ensures rotation == d.rotation && speed == SpeedOf(d)
      ensures SpeedInRange(speed)
    {
      rotation := d.rotation;
      speed := SpeedOf(d);
    }
  }

  /** No primitive appears twice. */
  predicate Distinct(ps: seq<Primitive>)
  {
    forall i, j :: 0 <= i < j < |ps| ==> ps[i] != ps[j]
  }

  /** The creation loop of `initThree`: one new primitive per draw. */
  method BuildPrimitives(draws: seq<PrimitiveDraw>) returns (ps: seq<Primitive>)
    requires |draws| == PrimitiveCount
    requires forall i :: 0 <= i < |draws| ==> ValidDraw(draws[i])
    ensures |ps| == PrimitiveCount && Distinct(ps)
    ensures forall i :: 0 <= i < |ps| ==> fresh(ps[i])
    ensures forall i :: 0 <= i < |ps| ==> ps[i].rotation == draws[i].rotation && ps[i].speed == SpeedOf(draws[i])
    ensures forall i :: 0 <= i < |ps| ==> SpeedInRange(ps[i].speed)
  {
    ps := [];
    var i := 0;
    while i < PrimitiveCount
      invariant 0 <= i <= PrimitiveCount && |ps| == i
      invariant Distinct(ps)
      invariant forall j :: 0 <= j < i ==> fresh(ps[j])
      invariant forall j :: 0 <= j < i ==> ps[j].rotation == draws[j].rotation && ps[j].speed == SpeedOf(draws[j])
      invariant forall j :: 0 <= j < i ==> SpeedInRange(ps[j].speed)
    {
      var primitive := new Primitive(draws[i]);
      ps := ps + [primitive];
      i := i + 1;
    }
  }

  /** The page state once `initThree` has run. */
  class Scene {
    var brightnessValue: real
    var currentScale: real
    var rotation: Vec3
    var smallPrimitives: seq<Primitive>

    ghost predicate Valid()
      reads this, smallPrimitives
    {
      && 0.0 <= brightnessValue <= 1.0
      && 0.0 <= currentScale <= MaxScale
      && rotation.x == rotation.y && rotation.z == 0.0
      && |smallPrimitives| == PrimitiveCount
      && Distinct(smallPrimitives)
      && (forall i :: 0 <= i < |smallPrimitives| ==> SpeedInRange(smallPrimitives[i].speed))
    }

    constructor (draws: seq<PrimitiveDraw>)
      requires |draws| == PrimitiveCount
      requires forall i :: 0 <= i < |draws| ==> ValidDraw(draws[i])
      ensures Valid()
      ensures brightnessValue == 0.0 && currentScale == 0.0 && rotation == Vec3(0.0, 0.0, 0.0)
      ensures forall i :: 0 <= i < |smallPrimitives| ==>
                smallPrimitives[i].rotation == draws[i].rotation && smallPrimitives[i].speed == SpeedOf(draws[i])
    {
      var ps := BuildPrimitives(draws);
      brightnessValue, currentScale, rotation := 0.0, 0.0, Vec3(0.0, 0.0, 0.0);
      smallPrimitives := ps;
    }

    /** The `forEach` of `animate`: every primitive turns by its own
        speeds; nothing else about it changes. */
    method SpinPrimitives()
      requires Valid()
      modifies smallPrimitives
      ensures Valid()
      ensures forall i :: 0 <= i < |smallPrimitives| ==>
                smallPrimitives[i].rotation == Spin(old(smallPrimitives[i].rotation), smallPrimitives[i].speed)
    {
      var i := 0;
      while i < |smallPrimitives|
        invariant 0 <= i <= |smallPrimitives|
        invariant forall j :: 0 <= j < i ==>
                    smallPrimitives[j].rotation == Spin(old(smallPrimitives[j].rotation), smallPrimitives[j].speed)
        invariant forall j :: i <= j < |smallPrimitives| ==> smallPrimitives[j].rotation == old(smallPrimitives[j].rotation)
      {
        var primitive := smallPrimitives[i];
        primitive.rotation := Vec3(primitive.rotation.x + primitive.speed.x,
                                   primitive.rotation.y + primitive.speed.y,
                                   primitive.rotation.z + primitive.speed.z);
        i := i + 1;
      }
    }

    /** One frame of `animate`: measure, ease the scale 15% of the way
        toward its target, turn the sphere, then turn every primitive. */
    method Animate(video: Video, data: seq<byte>)
      requires Valid() && |data| == FrameLength
      modifies this, smallPrimitives
      ensures Valid()
      ensures smallPrimitives == old(smallPrimitives)
      ensures brightnessValue == FrameBrightness(video, data)
      ensures currentScale == Easing.Lerp(old(currentScale), TargetScale(brightnessValue), SmoothingFactor)
      ensures rotation == Vec3(old(rotation).x + RotationStep, old(rotation).y + RotationStep, old(rotation).z)
      ensures forall i :: 0 <= i < |smallPrimitives| ==>
                smallPrimitives[i].rotation == Spin(old(smallPrimitives[i].rotation), smallPrimitives[i].speed)
    {
      brightnessValue := AnalyzeVideoFrame(video, data);
      var targetScale := brightnessValue * 5.0;
      Easing.LerpStaysInRange(currentScale, targetScale, SmoothingFactor, 0.0, MaxScale);
      currentScale := currentScale + (targetScale - currentScale) * SmoothingFactor;
      rotation := rotation.(x := rotation.x + RotationStep, y := rotation.y + RotationStep);
      SpinPrimitives();
    }
  }

  /** `init`: the scene is built and animated only when the webcam start-up
      reports success. */
  method Init(outcome: MediaOutcome, draws: seq<PrimitiveDraw>) returns (scene: Scene?)
    requires |draws| == PrimitiveCount
    requires forall i :: 0 <= i < |draws| ==> ValidDraw(draws[i])
    ensures scene != null <==> InitWebcam(outcome).ok
    ensures scene != null ==> fresh(scene) && scene.Valid()
  {
    var webcamOk := InitWebcam(outcome).ok;
    if webcamOk {
      scene := new Scene(draws);
    } else {
      scene := null;
    }
  }
}

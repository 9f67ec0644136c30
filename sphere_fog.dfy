/** The fogged webcam sphere page: like the basic page, but the sphere's
    scale is eased toward five times the brightness by a fifth of the gap
    each frame, starting from 0. */
module SphereFog {
  import opened Geometry
  import opened Webcam
  import Easing

  const SmoothingFactor: real := 0.2
  const RotationStep: real := 0.01

  /** Under a steady light the gap to the target shrinks to 0.8 of itself
      every frame: after n frames it is 0.8^n of the initial gap. */
  lemma SteadyLight(current: real, target: real, n: nat)
    ensures Easing.Ease(current, target, SmoothingFactor, n) - target ==
              Easing.Pow(0.8, n) * (current - target)
  {
    Easing.EaseClosedForm(current, target, SmoothingFactor, n);
    assert 1.0 - SmoothingFactor == 0.8;
  }

  /** The page state once `initThree` has run. */
  class Scene {
    var brightnessValue: real
    var currentScale: real
    var rotation: Vec3

    ghost predicate Valid()
      reads this
    {
      && 0.0 <= brightnessValue <= 1.0
      && 0.0 <= currentScale <= MaxScale
      && rotation.x == rotation.y && rotation.z == 0.0
    }

    constructor ()
      ensures Valid()
      ensures brightnessValue == 0.0 && currentScale == 0.0 && rotation == Vec3(0.0, 0.0, 0.0)
    {
      brightnessValue, currentScale, rotation := 0.0, 0.0, Vec3(0.0, 0.0, 0.0);
    }

    /** One frame of `animate`: measure, ease the scale a fifth of the way
        toward its target (never past it) and turn by one step. */
    method Animate(video: Video, data: seq<byte>)
      requires Valid() && |data| == FrameLength
      modifies this
      ensures Valid()
      ensures brightnessValue == FrameBrightness(video, data)
      ensures currentScale == Easing.Lerp(old(currentScale), TargetScale(brightnessValue), SmoothingFactor)
      ensures rotation == Vec3(old(rotation).x + RotationStep, old(rotation).y + RotationStep, old(rotation).z)
    {
      brightnessValue := AnalyzeVideoFrame(video, data);
      var targetScale := brightnessValue * 5.0;
      Easing.LerpStaysInRange(currentScale, targetScale, SmoothingFactor, 0.0, MaxScale);
      currentScale := currentScale + (targetScale - currentScale) * SmoothingFactor;
      rotation := rotation.(x := rotation.x + RotationStep, y := rotation.y + RotationStep);
    }
  }

  /** `init`: the scene is built and animated only when the webcam start-up
      reports success. */
  method Init(outcome: MediaOutcome) returns (scene: Scene?)
    ensures scene != null <==> InitWebcam(outcome).ok
    ensures scene != null ==> fresh(scene) && scene.Valid() && scene.currentScale == 0.0
  {
    var webcamOk := InitWebcam(outcome).ok;
    if webcamOk {
      scene := new Scene();
    } else {
      scene := null;
    }
  }
}

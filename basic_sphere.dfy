/** The basic webcam sphere page: once the webcam is granted, every frame
    sets the sphere's (uniform) scale straight to five times the frame's
    brightness and turns the sphere a little about x and y. */
module BasicSphere {
  import opened Geometry
  import opened Webcam

  const RotationStep: real := 0.01

  /** The page state once `initThree` has run. */
  class Scene {
    var brightnessValue: real
    var scale: real
    var rotation: Vec3

    ghost predicate Valid()
      reads this
    {
      && 0.0 <= brightnessValue <= 1.0
      && 0.0 <= scale <= MaxScale
      && rotation.x == rotation.y && rotation.z == 0.0
    }

    constructor ()
      ensures Valid()
      ensures brightnessValue == 0.0 && scale == 1.0 && rotation == Vec3(0.0, 0.0, 0.0)
    {
      brightnessValue, scale, rotation := 0.0, 1.0, Vec3(0.0, 0.0, 0.0);
    }

    /** One frame of `animate`: measure, set the scale to its target and
        turn by one step about x and y. */
    method Animate(video: Video, data: seq<byte>)
      requires Valid() && |data| == FrameLength
      modifies this
      ensures Valid()
      ensures brightnessValue == FrameBrightness(video, data)
      ensures scale == TargetScale(brightnessValue)
      ensures rotation == Vec3(old(rotation).x + RotationStep, old(rotation).y + RotationStep, old(rotation).z)
    {
      brightnessValue := AnalyzeVideoFrame(video, data);
      var targetScale := brightnessValue * 5.0;
      scale := targetScale;
      rotation := rotation.(x := rotation.x + RotationStep, y := rotation.y + RotationStep);
    }
  }

  /** `init`: the scene is built and animated only when the webcam start-up
      reports success. */
  method Init(outcome: MediaOutcome) returns (scene: Scene?)
    ensures scene != null <==> InitWebcam(outcome).ok
    ensures scene != null ==> fresh(scene) && scene.Valid()
  {
    var webcamOk := InitWebcam(outcome).ok;
    if webcamOk {
      scene := new Scene();
    } else {
      scene := null;
    }
  }
}

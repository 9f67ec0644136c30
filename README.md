# Virus jump and webcam sphere: a verified model of the per-frame logic

This project is a Dafny model of the small pieces of game logic in a set of browser art sketches. Everything else in those sketches is scene wiring for a 3D rendering library.

- **The v2 virus jump** (`Artwork_260203_virus_jump_v2/app.js`): a player sphere bounces on a rotating planet covered with 1000 spikes.
  - "Balloon" physics: each Space press adds an impulse that is capped at a maximum velocity. Gravity and friction apply in the air, and the ground is a floor.
  - Each frame, the player's position in the planet's local frame is compared with every cone.
  - A hit turns the player red and shrinks it toward half size. It also arms a 10-frame countdown, after which the white, full-size look returns. The scale eases toward its target by 10% per frame.
- **The first virus jump** (`Artwork_250309_virus_jump/app.js`, `app_collision.js`):
  - A fixed-step jump: up by `jumpSpeed` per frame until 0.3 above the start, then down again and clamped to the start. The step is 0.02 in one variant and 0.015 in the other.
  - The jump is driven by a self-requeuing animation-frame loop.
  - The collision variant adds a cooldown-flag detector. A timer later restores the player's colour.
- **The webcam spheres** (`Artwork_251210_webcam_sphere/*.js`):
  - A 320x240 RGBA video frame is reduced to a mean RGB brightness in [0, 1].
  - The brightness maps to a sphere scale of 5 times that value. The scale is set directly in one page and eased toward the target in the other two.
  - The scene starts only if the webcam was granted.
  - One page also turns 30 small primitives, each by its own speeds.

Modules:

- `Geometry`: points and the proximity test. "Distance below t" is stated as `t > 0` and squared distance below `t*t`. Over the reals this gives the same answer as the square root.
- `Easing`: the smoothing step `s + (t - s) * k`, with its closed form over n frames.
- `VirusJumpV2`: the v2 game, with its state in class `Game`.
- `Jump`: the jump state machine, shared by both variants.
- `JumpScheduling`: the animation-frame queue that drives the jump (see Findings); class `Jumper` holds the page state.
- `VirusJump`: the rotations of the first demo.
- `CooldownCollision`: the detector of the collision variant, in class `Detector`.
- `Webcam`: brightness, scale mapping and webcam start-up, shared by the three webcam pages.
- `BasicSphere`, `SphereFog`, `SphereFogFriends`: one module per webcam page.

Modelling choices:

- Numbers are Dafny `real`s. Exact step counts are statements about real arithmetic.
- Random draws are inputs: cone directions and sizes, the rotation speed, and the primitives' angles and speeds.
- So are the planet group's world-to-local transform, each cone's world position, the video element's state and the canvas pixel array.
- A uniform scale vector is one real.

## Model

| member | source | states |
|---|---|---|
| Geometry.WithinIsStrict | Artwork_260203_virus_jump_v2/app.js:210 | the proximity test is strict: a point at exactly the threshold distance, or farther, is not within it |
| Geometry.WithinSelf | Artwork_260203_virus_jump_v2/app.js:210 | a point is within any positive threshold of itself |
| Geometry.ScaleNorm | Artwork_260203_virus_jump_v2/app.js:87 | scaling a direction by the planet radius 3.05 multiplies its squared length by 3.05² |
| Easing.Lerp | Artwork_260203_virus_jump_v2/app.js:229 | the gap to the target is multiplied by 1 - k; for k in [0,1] the result lies between the old value and the target (no overshoot); a value at its target stays there |
| Easing.LerpStaysInRange | Artwork_251210_webcam_sphere/sphere_fog.js:111-116 | smoothing keeps the value in any interval that also holds the target (so a scale in [0,5] stays in [0,5]) |
| Easing.EaseClosedForm | Artwork_251210_webcam_sphere/sphere_fog.js:114 | after n frames toward a constant target the gap is (1 - k)^n times the initial gap |
| Easing.ConvergesWithinOnePercent | Artwork_260203_virus_jump_v2/app.js:229 | with factor 0.1, after 44 or more frames toward a constant target the scale is within 1% of its initial gap from the target |
| VirusJumpV2.BuildCones | Artwork_260203_virus_jump_v2/app.js:77-112 | exactly 1000 cones, cone i built from draw i on the sphere of radius 3.05, every radius scale in [0.05, 0.15) |
| VirusJumpV2.ConeOnSurface | Artwork_260203_virus_jump_v2/app.js:81-87 | a cone built from a unit direction lies on the planet's surface (squared distance 3.05² from the centre) |
| VirusJumpV2.ScanCones | Artwork_260203_virus_jump_v2/app.js:204-214 | the scan with early exit reports a hit exactly when some cone is closer than 0.15 + radius·0.5; the break only saves work |
| VirusJumpV2.HitAtConePosition | Artwork_260203_virus_jump_v2/app.js:210 | a player at a cone's position (radius ≥ 0) is reported as hit |
| VirusJumpV2.NoHitAtBoundary | Artwork_260203_virus_jump_v2/app.js:210 | a player at least 0.15 + radius·0.5 from every cone gets no hit: the test is strict |
| VirusJumpV2.React | Artwork_260203_virus_jump_v2/app.js:217-228 | a hit sets the countdown to exactly 10, the target to 0.5 and the colour to red, whatever came before; a no-hit frame never raises the countdown; the countdown stays in [0,10] |
| VirusJumpV2.QuietFrame | Artwork_260203_virus_jump_v2/app.js:221-227 | a no-hit frame with countdown > 0 decrements it by exactly 1 and keeps target and colour; with countdown 0 it restores target 1 and white |
| VirusJumpV2.HeldAfterHit | Artwork_260203_virus_jump_v2/app.js:217-226 | for n ≤ 10 no-hit frames after a hit, the countdown is 10 - n and the hit look is kept |
| VirusJumpV2.RevertsOnNextFrame | Artwork_260203_virus_jump_v2/app.js:220-226 | exactly 10 no-hit frames pass in the hit look, and the 11th restores target 1 and white |
| VirusJumpV2.Press | Artwork_260203_virus_jump_v2/app.js:157-163 | a Space press adds 0.08 to the velocity when the sum is at most 0.2, and otherwise sets it to exactly 0.2; never above 0.2, never slower |
| VirusJumpV2.Physics | Artwork_260203_virus_jump_v2/app.js:166-180 | after a physics step the player is never below the ground, and a velocity in [-0.048, 0.2] stays in that range |
| VirusJumpV2.PressInRange | Artwork_260203_virus_jump_v2/app.js:157-163 | a press keeps the velocity in [-0.048, 0.2] |
| VirusJumpV2.PhysicsCases | Artwork_260203_virus_jump_v2/app.js:168-179 | in the air the velocity becomes (v - 0.002)·0.96; on reaching the ground y snaps to 3.12 and a downward velocity becomes 0, an upward one is kept |
| VirusJumpV2.FirstJumpFrame | Artwork_260203_virus_jump_v2/app.js:151-180 | one press from rest, then one frame: y = 3.20 and velocity 0.07488 |
| VirusJumpV2.RotateKeepsTurning | Artwork_260203_virus_jump_v2/app.js:139-148 | each rotation frame keeps the planet's y and z angles at 1/2 and 1/3 of its x angle, and the player's y at 1/4 of its x with z untouched |
| VirusJumpV2.Game.constructor | Artwork_260203_virus_jump_v2/app.js:77-125 | cones from their draws; player on the ground at rest, white, full size, countdown 0 |
| VirusJumpV2.Game.KeyDown | Artwork_260203_virus_jump_v2/app.js:157-164 | only the Space code changes the velocity, as `Press`; the velocity is then at most 0.2 |
| VirusJumpV2.Game.UpdatePhysics | Artwork_260203_virus_jump_v2/app.js:166-180 | position and velocity become `Physics` of the old ones; the game invariant (ground, velocity range) is kept |
| VirusJumpV2.Game.CheckCollision | Artwork_260203_virus_jump_v2/app.js:187-230 | hit iff some cone is near the player's local position; the look becomes `React` of the old look; scale eased 10% toward the target and kept in [0.5, 1]; cones unchanged |
| VirusJumpV2.Game.RotateWorld | Artwork_260203_virus_jump_v2/app.js:140-148 | planet turns by (s, s/2, s/3), player by (-20s, -5s, 0), s = 0.003 |
| VirusJumpV2.Game.Animate | Artwork_260203_virus_jump_v2/app.js:232-241 | one frame: rotate, then physics, then collision; the planet turns by (s, s/2, s/3) and the player by (-20s, -5s, 0); the body follows `Physics`, the look follows `React` of the hit, the scale is eased 10% toward the new target, and the invariants are kept |
| Jump.Animate | Artwork_250309_virus_jump/app.js:107-122 | at rest nothing changes; ascending adds the step and flips to descending exactly when y ≥ start + 0.3; descending subtracts the step and, once y ≤ start, clamps y to start and ends the jump |
| Jump.Press | Artwork_250309_virus_jump/app.js:103-106 | only the space key, and only while not jumping, starts a jump (with its flag reset) and runs its first frame at once; otherwise nothing changes |
| Jump.AnimateKeepsEnvelope | Artwork_250309_virus_jump/app.js:100-119 | a frame keeps the envelope: at rest y = start; jumping start ≤ y < start + 0.3 + step; ascending y < start + 0.3 |
| Jump.PressKeepsEnvelope | Artwork_250309_virus_jump/app.js:104-106 | a key press keeps the envelope |
| Jump.RunKeepsEnvelope | Artwork_250309_virus_jump/app.js:100-119 | any number of frames keep the envelope |
| Jump.Ascent | Artwork_250309_virus_jump/app.js:109-113 | for a step reaching the height in exactly N frames, after k ≤ N frames y is k steps up, and the phase flips on frame N, not before |
| Jump.Descent | Artwork_250309_virus_jump/app.js:114-119 | j ≤ N frames after the peak y is j steps down; frame N lands exactly at the start and ends the jump |
| Jump.WholeJump | Artwork_250309_virus_jump/app.js:100-119 | a jump lasts 2N frames, airborne in all but the last, peaking N steps up and resting exactly at the start |
| Jump.AppJump | Artwork_250309_virus_jump/app.js:100-101 | with step 0.02: peak exactly 0.3 up after 15 frames, landing at the start after 30 |
| Jump.CollisionJump | Artwork_250309_virus_jump/app_collision.js:99-131 | with step 0.015: peak after 20 frames, landing exactly at the start after 40 |
| Jump.PressStartsFreshJump | Artwork_250309_virus_jump/app.js:105-106 | a press at rest starts in the ascending phase whatever the previous jump left in its flag |
| JumpScheduling.AnimateClosure | Artwork_250309_virus_jump/app.js:107-122 | one press's `jumpAnimation` is one `Jump.Animate` step on the shared height and flag and on that press's own `jumpHeightReached`; other presses' flags and the queue are untouched |
| JumpScheduling.LoopCallback | Artwork_250309_virus_jump/app.js:123-128 | `jumpLoop` does nothing at rest; while jumping it animates and re-queues itself (as written: always; fixed: only if the jump goes on) |
| JumpScheduling.RunCallbacks | Artwork_250309_virus_jump/app.js:123-128 | running a frame's queued callbacks keeps every queued id a real press |
| JumpScheduling.OnFrame | Artwork_250309_virus_jump/app.js:123-128 | one animation frame takes the queue and runs it; queued ids stay valid |
| JumpScheduling.OnFrames | Artwork_250309_virus_jump/app.js:123-128 | n frames keep queued ids valid and the number of presses |
| JumpScheduling.OnKeyDown | Artwork_250309_virus_jump/app.js:103-131 | a Space press at rest adds a press whose first frame is `Jump.Animate` of a fresh launch; any other key, or a press while jumping, changes nothing |
| JumpScheduling.FramesFollowRun | Artwork_250309_virus_jump/app.js:123-128 | with one loop queued, each frame as written is one step of that press's jump while it lasts, and the loop stays queued |
| JumpScheduling.StaleLoopAfterJump | Artwork_250309_virus_jump/app.js:123-128 | after a full 30-frame jump the player rests at the start, yet the loop queued on the landing frame is still pending |
| JumpScheduling.StaleLoopCancelsJump | Artwork_250309_virus_jump/app.js:104-128 | a Space press in that window is accepted, but the next frame's stale loop ends the new jump at the start |
| JumpScheduling.FixedFrameIsAnimate | Artwork_250309_virus_jump/app.js:123-128 | with the corrected loop a frame is exactly one `Jump.Animate` step, and at most the current press's loop stays queued |
| JumpScheduling.FixedKeyDownIsPress | Artwork_250309_virus_jump/app.js:103-131 | with the corrected loop a key press is exactly `Jump.Press` |
| JumpScheduling.FixedFramesFollowRun | Artwork_250309_virus_jump/app.js:123-128 | with the corrected loop n frames are exactly n steps of the state machine |
| JumpScheduling.FixedPressGivesWholeJump | Artwork_250309_virus_jump/app.js:100-128 | with the corrected loop every press at rest, including right after a landing, gives the whole 30-frame jump |
| JumpScheduling.Jumper.constructor | Artwork_250309_virus_jump/app.js:99-102 | at load: at the start height, not jumping, no press, nothing queued |
| JumpScheduling.Jumper.JumpAnimation | Artwork_250309_virus_jump/app.js:107-122 | the imperative `jumpAnimation` computes `AnimateClosure` |
| JumpScheduling.Jumper.JumpLoop | Artwork_250309_virus_jump/app.js:123-128 | the imperative loop callback computes the corrected `LoopCallback` |
| JumpScheduling.Jumper.KeyDown | Artwork_250309_virus_jump/app.js:103-131 | the listener computes `OnKeyDown` and is `Jump.Press` on the current jump; the envelope is kept |
| JumpScheduling.Jumper.Frame | Artwork_250309_virus_jump/app.js:123-128 | running the queued loops in order computes `OnFrame` and is one `Jump.Animate` step; the envelope is kept |
| VirusJump.RotationSpeedFrom | Artwork_250309_virus_jump/app.js:86 | the drawn rotation speed lies in [0.001, 0.005) |
| VirusJump.Spinner.constructor | Artwork_250309_virus_jump/app.js:86 | speed drawn once; both rotations start at zero |
| VirusJump.Spinner.RotateBigSphere | Artwork_250309_virus_jump/app.js:87-91 | x grows by the speed, y and z by a third of it; x strictly increases |
| VirusJump.Spinner.RotateSmallSphere | Artwork_250309_virus_jump/app.js:92-96 | x falls by 10 times the speed, y and z by 5 times it |
| CooldownCollision.Visit | Artwork_250309_virus_jump/app_collision.js:138-152 | the planet itself is never tested, and nothing fires during a cooldown; a pending timer matches the cooldown flag |
| CooldownCollision.Scan | Artwork_250309_virus_jump/app_collision.js:137-153 | a whole scan keeps "timer pending iff cooldown" |
| CooldownCollision.ScanOutcome | Artwork_250309_virus_jump/app_collision.js:137-153 | a scan fires iff no cooldown runs and some cone (not the planet) is closer than 0.10; then the colour becomes 0x1163aa, the cooldown starts and the pre-scan colour is remembered; at most one hit per scan; otherwise nothing changes |
| CooldownCollision.Revert | Artwork_250309_virus_jump/app_collision.js:147-150 | the timer restores exactly the remembered colour and clears the cooldown |
| CooldownCollision.HitThenTimerRestores | Artwork_250309_virus_jump/app_collision.js:143-150 | a hit followed by its timer gives back the state from before the hit |
| CooldownCollision.CooldownBlocks | Artwork_250309_virus_jump/app_collision.js:143 | during a cooldown a scan changes nothing |
| CooldownCollision.Detector.constructor | Artwork_250309_virus_jump/app_collision.js:134 | no cooldown and no timer at start |
| CooldownCollision.Detector.CheckCollision | Artwork_250309_virus_jump/app_collision.js:135-154 | the `forEach` loop computes `Scan`, i.e. the outcome stated in `ScanOutcome` |
| CooldownCollision.Detector.TimerFired | Artwork_250309_virus_jump/app_collision.js:147-150 | the timer callback computes `Revert` |
| Webcam.PixelBrightness | Artwork_251210_webcam_sphere/basic_sphere.js:40-43 | a pixel's contribution is the mean of its R, G, B bytes, in [0, 255]; alpha is not read |
| Webcam.RgbTotal | Artwork_251210_webcam_sphere/basic_sphere.js:38-44 | the sum over n pixels is in [0, 255·n] |
| Webcam.Brightness | Artwork_251210_webcam_sphere/basic_sphere.js:46-47 | the normalised mean brightness of a 320x240 frame is in [0, 1] |
| Webcam.FrameBrightness | Artwork_251210_webcam_sphere/basic_sphere.js:31-48 | 0 when there is no video or it is not ready, otherwise the frame's brightness; always in [0, 1] |
| Webcam.AnalyzeVideoFrame | Artwork_251210_webcam_sphere/basic_sphere.js:31-48 | the strided accumulation loop computes `FrameBrightness` |
| Webcam.RgbTotalIgnoresAlpha | Artwork_251210_webcam_sphere/basic_sphere.js:39-44 | frames agreeing on every R, G, B byte have equal totals |
| Webcam.AlphaIgnored | Artwork_251210_webcam_sphere/sphere_fog.js:41-49 | frames agreeing on every R, G, B byte have equal brightness, whatever their alpha |
| Webcam.BlackFrame | Artwork_251210_webcam_sphere/basic_sphere.js:38-47 | an all-zero RGB frame has brightness 0 |
| Webcam.WhiteFrame | Artwork_251210_webcam_sphere/sphere_fog_with_friends.js:41-50 | an all-255 RGB frame has brightness 1 |
| Webcam.TargetScale | Artwork_251210_webcam_sphere/basic_sphere.js:95 | brightness·5 lies in [0, 5] for brightness in [0, 1]; 0 for black, 5 for white |
| Webcam.TargetScaleMonotone | Artwork_251210_webcam_sphere/sphere_fog.js:111 | a brighter frame never asks for a smaller sphere |
| Webcam.InitWebcam | Artwork_251210_webcam_sphere/basic_sphere.js:5-29 | true exactly when the camera is granted; on failure false, with the failure prefix and the error message shown |
| BasicSphere.Scene.constructor | Artwork_251210_webcam_sphere/basic_sphere.js:50-77 | brightness 0, scale 1, no rotation |
| BasicSphere.Scene.Animate | Artwork_251210_webcam_sphere/basic_sphere.js:79-108 | the scale becomes 5 times the frame's brightness, in [0, 5]; x and y rotation each grow by 0.01 |
| BasicSphere.Init | Artwork_251210_webcam_sphere/basic_sphere.js:117-123 | a scene exists iff webcam start-up succeeded |
| SphereFog.SteadyLight | Artwork_251210_webcam_sphere/sphere_fog.js:114 | under a constant target the gap shrinks to 0.8 of itself each frame: 0.8^n after n frames |
| SphereFog.Scene.constructor | Artwork_251210_webcam_sphere/sphere_fog.js:3-5 | `currentScale` starts at 0 |
| SphereFog.Scene.Animate | Artwork_251210_webcam_sphere/sphere_fog.js:95-128 | `currentScale` moves 20% of the way toward 5·brightness, stays in [0, 5]; rotations grow by 0.01 |
| SphereFog.Init | Artwork_251210_webcam_sphere/sphere_fog.js:137-143 | a scene exists iff webcam start-up succeeded |
| SphereFogFriends.SpeedFromDraw | Artwork_251210_webcam_sphere/sphere_fog_with_friends.js:121-125 | every per-axis speed lies in [-0.01, 0.01), 0 only for the middle draw |
| SphereFogFriends.Primitive.constructor | Artwork_251210_webcam_sphere/sphere_fog_with_friends.js:116-125 | a primitive keeps its drawn angles and its speeds, which are in range |
| SphereFogFriends.BuildPrimitives | Artwork_251210_webcam_sphere/sphere_fog_with_friends.js:98-129 | exactly 30 new, distinct primitives, primitive i built from draw i, speeds in range |
| SphereFogFriends.Scene.constructor | Artwork_251210_webcam_sphere/sphere_fog_with_friends.js:4-6 | scale 0 and 30 primitives from the draws |
| SphereFogFriends.Scene.SpinPrimitives | Artwork_251210_webcam_sphere/sphere_fog_with_friends.js:177-181 | every primitive's angles advance by its own speeds; speeds and the list are unchanged |
| SphereFogFriends.Scene.Animate | Artwork_251210_webcam_sphere/sphere_fog_with_friends.js:144-184 | `currentScale` moves 15% of the way toward 5·brightness and stays in [0, 5]; the sphere turns; every primitive turns by its speeds |
| SphereFogFriends.Init | Artwork_251210_webcam_sphere/sphere_fog_with_friends.js:193-199 | a scene exists iff webcam start-up succeeded |

## Left out

- Scene construction, materials, lights, cameras, renderers, fog, resize handlers and the camera update: calls into the rendering library, with no logic of their own.
- `requestAnimationFrame` scheduling of `animate`: each frame is a method call. The webcam pages' `init` methods only build the scene. The first `animate()` call that follows a successful start-up is left to the caller, who then calls `Scene.Animate` once per frame. The jump's own animation-frame queue is modelled in `JumpScheduling`, because the jump's behaviour depends on it.
- `Math.random`, `Math.PI`, `sin`, `cos` and `acos`: cone directions, radius draws, the rotation-speed draw and the primitives' initial angles are inputs. The primitives' geometry choice and positions are not modelled. Cone height, hue and instance matrices are not modelled either: they do not take part in any logic.
- `worldToLocal` (v2) and `getWorldPosition` (collision variant): the transform, or the world positions, are inputs of the frame.
- IEEE-754 rounding: all arithmetic is over the reals. With doubles the accumulated jump height may cross 0.3 one frame earlier or later than the exact step counts state.
- `getUserMedia`, `getImageData` and `drawImage`: the start-up outcome and the pixel array are inputs. The array always holds 4·320·240 bytes, as the canvas returns for a 320x240 region.
- The brightness and size readouts (`textContent`, `toFixed`) and the success-case info template. On success, `Webcam.InitWebcam` leaves the info empty.
- The 100 ms delay of the colour-revert timer: its firing is the explicit event `Detector.TimerFired`. The model lets it fire at any time while it is pending.
- The collision variant's own rotation functions (step 0.003, with y at s/2 and the small sphere at -20s). They differ from app.js only in their constants. The collision variant's jump reuses `Jump` with step 0.015.
- The `if (sphere)` guard in the webcam pages' `animate`: `animate` runs only after `initThree`, so the sphere always exists.
- JumpScheduling.Jumper: models the corrected jump loop, not the loop as written. The as-written loop is modelled by the `fixed == false` functions of the same module (see Findings).

## Findings

| source | as written | input that shows it | evidently intended | confidence | as-written member | corrected member |
|---|---|---|---|---|---|---|
| Artwork_250309_virus_jump/app.js:123-128 (same loop in app_collision.js:123-128) | `jumpLoop` checks `isJumping` before animating and then always re-queues itself, so the landing frame leaves one callback pending. If Space is pressed before that callback runs, the new jump starts. The stale callback then runs first, with the old press's `jumpHeightReached` (true), steps the player down to the start and clears `isJumping` | a full jump, then Space pressed after the landing frame but before the next frame | every accepted press performs the whole jump (30 frames with step 0.02) | medium, not executed | JumpScheduling.StaleLoopCancelsJump | JumpScheduling.FixedPressGivesWholeJump |

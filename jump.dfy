/** The fixed-step jump of the first "virus jump" demo (both variants): the
    player sphere rises by `jumpSpeed` per frame until it is at least
    `jumpHeight` above where it started, then falls by the same step and is
    clamped back to the start. The state is the global `isJumping`, the
    player's height and the `jumpHeightReached` flag of the press that
    started the current jump. */
module Jump {

  const JumpHeight: real := 0.3
  /** `jumpSpeed` in app.js and in app_collision.js. */
  const AppSpeed: real := 0.02
  const CollisionSpeed: real := 0.015
  const SpaceKey: string := " "

  datatype JumpState = JumpState(y: real, isJumping: bool, heightReached: bool)

  /** `jumpAnimation`: one frame of the jump. At rest it does nothing;
      ascending it adds the step and flips to descending once y reaches
      start + JumpHeight; descending it subtracts the step and, once y is at
      or below the start, clamps y to the start and ends the jump. */
  function Animate(s: JumpState, start: real, speed: real): (r: JumpState)
    ensures !s.isJumping ==> r == s
    ensures s.isJumping && !s.heightReached ==> r.y == s.y + speed && r.isJumping
    ensures s.isJumping && !s.heightReached ==> (r.heightReached <==> s.y + speed >= start + JumpHeight)
    ensures s.isJumping && s.heightReached && s.y - speed > start ==> r == s.(y := s.y - speed)
    ensures s.isJumping && s.heightReached && s.y - speed <= start ==> r == JumpState(start, false, true)
  {
    if !s.isJumping then s
    else if !s.heightReached then
      var y := s.y + speed;
      JumpState(y, true, y >= start + JumpHeight)
    else
      var y := s.y - speed;
      if y <= start then JumpState(start, false, true) else JumpState(y, true, true)
  }

  /** The state in which a new jump begins: flagged as jumping, with its own
      `jumpHeightReached` reset to false. */
  function Launch(y: real): JumpState
  {
    JumpState(y, true, false)
  }

  /** The `keydown` listener: only the space key, and only while not
      jumping, starts a jump; the first frame of it runs at once, inside the
      handler, before any animation frame. */
  function Press(s: JumpState, key: string, start: real, speed: real): (r: JumpState)
    ensures key != SpaceKey || s.isJumping ==> r == s
    ensures key == SpaceKey && !s.isJumping ==> r == Animate(Launch(s.y), start, speed)
  {
    if key == SpaceKey && !s.isJumping then Animate(Launch(s.y), start, speed) else s
  }

  /** n frames of the jump loop. */
  function Run(s: JumpState, start: real, speed: real, n: nat): JumpState
  {
    if n == 0 then s else Animate(Run(s, start, speed, n - 1), start, speed)
  }

  /** Running a frames and then b frames is running a + b frames. */
  lemma {:induction false} RunAdd(s: JumpState, start: real, speed: real, a: nat, b: nat)
    ensures Run(Run(s, start, speed, a), start, speed, b) == Run(s, start, speed, a + b)
  {
    if b > 0 {
      RunAdd(s, start, speed, a, b - 1);
    }
  }

  /** The envelope of a jump: at rest the player is exactly at the start;
      while jumping it is never below the start and overshoots the height by
      less than one step; while ascending it is still below the height. */
  predicate Envelope(s: JumpState, start: real, speed: real)
  {
    && (!s.isJumping ==> s.y == start)
    && (s.isJumping ==> start <= s.y < start + JumpHeight + speed)
    && (s.isJumping && !s.heightReached ==> s.y < start + JumpHeight)
  }

  /** Every frame keeps the envelope. */
  lemma AnimateKeepsEnvelope(s: JumpState, start: real, speed: real)
    requires speed > 0.0 && Envelope(s, start, speed)
    ensures Envelope(Animate(s, start, speed), start, speed)
  {
  }

  /** So does every key press, including the one that starts a jump. */
  lemma PressKeepsEnvelope(s: JumpState, key: string, start: real, speed: real)
    requires speed > 0.0 && Envelope(s, start, speed)
    ensures Envelope(Press(s, key, start, speed), start, speed)
  {
    if key == SpaceKey && !s.isJumping {
      assert Envelope(Launch(s.y), start, speed);
      AnimateKeepsEnvelope(Launch(s.y), start, speed);
    }
  }

  /** ... and hence any number of frames. */
  lemma {:induction false} RunKeepsEnvelope(s: JumpState, start: real, speed: real, n: nat)
    requires speed > 0.0 && Envelope(s, start, speed)
    ensures Envelope(Run(s, start, speed, n), start, speed)
  {
    if n > 0 {
      RunKeepsEnvelope(s, start, speed, n - 1);
      AnimateKeepsEnvelope(Run(s, start, speed, n - 1), start, speed);
    }
  }

  /** k steps of the given size, added one at a time as the animation
      does (k * speed over the reals). */
  function Steps(speed: real, k: nat): real
  {
    if k == 0 then 0.0 else Steps(speed, k - 1) + speed
  }

  /** More steps of a positive size go strictly further. */
  lemma {:induction false} StepsIncrease(speed: real, k: nat, m: nat)
    requires speed > 0.0 && k < m
    ensures Steps(speed, k) < Steps(speed, m)
  {
    if k < m - 1 {
      StepsIncrease(speed, k, m - 1);
    }
  }

  /** The ascent, for a step that needs exactly N frames to reach the
      height: after k <= N frames the player is k steps up, and the flag
      flips on frame N and not before. */
  lemma {:induction false} Ascent(start: real, speed: real, N: nat, k: nat)
    requires speed > 0.0 && N >= 1
    requires Steps(speed, N - 1) < JumpHeight <= Steps(speed, N)
    requires k <= N
    ensures Run(Launch(start), start, speed, k) == JumpState(start + Steps(speed, k), true, k == N)
  {
    if k > 0 {
      Ascent(start, speed, N, k - 1);
      if k < N - 1 {
        StepsIncrease(speed, k, N - 1);
      }
    }
  }

  /** The descent: j frames after the peak the player is j steps down, and
      the N-th frame lands it exactly at the start. */
  lemma {:induction false} Descent(start: real, speed: real, N: nat, j: nat)
    requires speed > 0.0 && N >= 1
    requires Steps(speed, N - 1) < JumpHeight <= Steps(speed, N)
    requires j <= N
    ensures Run(Launch(start), start, speed, N + j) ==
              if j < N then JumpState(start + Steps(speed, N - j), true, true)
              else JumpState(start, false, true)
  {
    if j == 0 {
      Ascent(start, speed, N, N);
    } else {
      Descent(start, speed, N, j - 1);
      if j < N {
        StepsIncrease(speed, 0, N - j);
      }
    }
  }

  /** A whole jump: 2N frames, all of them airborne but the last, which
      rests exactly at the start again. */
  lemma WholeJump(start: real, speed: real, N: nat)
    requires speed > 0.0 && N >= 1
    requires Steps(speed, N - 1) < JumpHeight <= Steps(speed, N)
    ensures forall k :: 0 <= k < 2 * N ==> Run(Launch(start), start, speed, k).isJumping
    ensures Run(Launch(start), start, speed, N).y == start + Steps(speed, N)
    ensures Run(Launch(start), start, speed, 2 * N) == JumpState(start, false, true)
  {
    forall k | 0 <= k < 2 * N
      ensures Run(Launch(start), start, speed, k).isJumping
    {
      if k <= N {
        Ascent(start, speed, N, k);
      } else {
        Descent(start, speed, N, k - N);
      }
    }
    Ascent(start, speed, N, N);
    Descent(start, speed, N, N);
  }

  /** With app.js's step of 0.02 a jump peaks exactly 0.3 up after 15
      frames and lands after 30 (the first of them run by the key handler). */
  lemma AppJump(start: real)
    ensures forall k :: 0 <= k < 30 ==> Run(Launch(start), start, AppSpeed, k).isJumping
    ensures Run(Launch(start), start, AppSpeed, 15).y == start + JumpHeight
    ensures Run(Launch(start), start, AppSpeed, 30) == JumpState(start, false, true)
  {
    assert Steps(AppSpeed, 14) == 0.28 && Steps(AppSpeed, 15) == 0.3;
    WholeJump(start, AppSpeed, 15);
  }

  /** With app_collision.js's step of 0.015: 20 frames up, 20 down. */
  lemma CollisionJump(start: real)
    ensures forall k :: 0 <= k < 40 ==> Run(Launch(start), start, CollisionSpeed, k).isJumping
    ensures Run(Launch(start), start, CollisionSpeed, 20).y == start + JumpHeight
    ensures Run(Launch(start), start, CollisionSpeed, 40) == JumpState(start, false, true)
  {
    assert Steps(CollisionSpeed, 5) == 0.075;
    assert Steps(CollisionSpeed, 10) == 0.15;
    assert Steps(CollisionSpeed, 15) == 0.225;
    assert Steps(CollisionSpeed, 19) == 0.285 && Steps(CollisionSpeed, 20) == 0.3;
    WholeJump(start, CollisionSpeed, 20);
  }

  /** Pressing space at rest is the first frame of a fresh jump, whatever
      the previous jump left in its flag. */
  lemma PressStartsFreshJump(start: real, reached: bool, speed: real)
    ensures Press(JumpState(start, false, reached), SpaceKey, start, speed) == Run(Launch(start), start, speed, 1)
  {
  }
}

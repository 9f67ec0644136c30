/** How the jump of the first "virus jump" demo is driven by animation
    frames. Every accepted Space press creates a fresh `jumpAnimation` /
    `jumpLoop` pair closing over its own `jumpHeightReached` flag, runs the
    loop once at once, and the loop re-queues itself for the next frame
    whenever it finds `isJumping` set — before animating, so the callback
    queued on the landing frame is still pending one frame after the jump
    ended. The page is modelled with that queue made explicit: `reached[i]`
    is the flag of the i-th press's closure and `pending` lists the closures
    whose `jumpLoop` runs in the next frame, in queue order.

    The loop as written (`fixed == false`) lets that stale callback, if a
    new jump starts before it runs, descend with the OLD closure's flag and
    end the new jump after one frame. The corrected loop (`fixed == true`)
    re-queues itself only while the jump is still in progress; with it
    every frame is exactly one step of the jump state machine in module
    Jump, which is what the rest of the model uses. */
module JumpScheduling {
  import opened Jump

  datatype Page = Page(y: real, isJumping: bool, reached: seq<bool>, pending: seq<nat>)

  /** Every queued callback belongs to a press that happened. */
  predicate WellFormed(p: Page)
  {
    forall i :: 0 <= i < |p.pending| ==> p.pending[i] < |p.reached|
  }

  /** The jump state as seen by the closure of press `id`. */
  function Closure(p: Page, id: nat): JumpState
    requires id < |p.reached|
  {
    JumpState(p.y, p.isJumping, p.reached[id])
  }

  /** `jumpAnimation` of press `id`: one step of the state machine on the
      shared height and `isJumping` and on that press's own flag; the other
      presses' flags and the queue are untouched. */
  function AnimateClosure(p: Page, id: nat, start: real, speed: real): (r: Page)
    requires id < |p.reached|
    ensures |r.reached| == |p.reached| && r.pending == p.pending
    ensures Closure(r, id) == Animate(Closure(p, id), start, speed)
    ensures forall j :: 0 <= j < |p.reached| && j != id ==> r.reached[j] == p.reached[j]
  {
    var s := Animate(Closure(p, id), start, speed);
    p.(y := s.y, isJumping := s.isJumping, reached := p.reached[id := s.heightReached])
  }

  /** `jumpLoop` of press `id`: while jumping, animate and queue itself
      again. As written it re-queues whenever it animated; the fixed loop
      only while the jump is still in progress after the step. */
  function LoopCallback(p: Page, id: nat, fixed: bool, start: real, speed: real): (r: Page)
    requires id < |p.reached| && WellFormed(p)
    ensures WellFormed(r) && |r.reached| == |p.reached|
    ensures !p.isJumping ==> r == p
    ensures p.isJumping ==> Closure(r, id) == Animate(Closure(p, id), start, speed)
    ensures p.isJumping && (!fixed || r.isJumping) ==> r.pending == p.pending + [id]
    ensures p.isJumping && fixed && !r.isJumping ==> r.pending == p.pending
  {
    if p.isJumping then
      var q := AnimateClosure(p, id, start, speed);
      if fixed && !q.isJumping then q else q.(pending := q.pending + [id])
    else p
  }

  /** The callbacks of one frame, run in queue order. */
  function RunCallbacks(p: Page, queue: seq<nat>, fixed: bool, start: real, speed: real): (r: Page)
    requires WellFormed(p)
    requires forall i :: 0 <= i < |queue| ==> queue[i] < |p.reached|
    ensures WellFormed(r) && |r.reached| == |p.reached|
    decreases |queue|
  {
    if queue == [] then p
    else
      var last := queue[|queue| - 1];
      LoopCallback(RunCallbacks(p, queue[..|queue| - 1], fixed, start, speed), last, fixed, start, speed)
  }

  /** One animation frame: the queue is taken and emptied, then every
      callback in it runs (those it re-queues wait for the next frame). */
  function OnFrame(p: Page, fixed: bool, start: real, speed: real): (r: Page)
    requires WellFormed(p)
    ensures WellFormed(r) && |r.reached| == |p.reached|
  {
    RunCallbacks(p.(pending := []), p.pending, fixed, start, speed)
  }

  function OnFrames(p: Page, n: nat, fixed: bool, start: real, speed: real): (r: Page)
    requires WellFormed(p)
    ensures WellFormed(r) && |r.reached| == |p.reached|
  {
    if n == 0 then p else OnFrame(OnFrames(p, n - 1, fixed, start, speed), fixed, start, speed)
  }

  /** The `keydown` listener: a Space press while not jumping sets
      `isJumping`, creates a new closure whose flag starts false, and runs
      its loop once straight away. */
  function OnKeyDown(p: Page, key: string, fixed: bool, start: real, speed: real): (r: Page)
    requires WellFormed(p)
    ensures WellFormed(r)
    ensures key != SpaceKey || p.isJumping ==> r == p
    ensures key == SpaceKey && !p.isJumping ==>
              |r.reached| == |p.reached| + 1 && Closure(r, |p.reached|) == Animate(Launch(p.y), start, speed)
  {
    if key == SpaceKey && !p.isJumping then
      LoopCallback(p.(isJumping := true, reached := p.reached + [false]), |p.reached|, fixed, start, speed)
    else p
  }

  /** A frame with one queued callback runs just that callback. */
  lemma FrameOfOne(p: Page, i: nat, fixed: bool, start: real, speed: real)
    requires WellFormed(p) && p.pending == [i]
    ensures OnFrame(p, fixed, start, speed) == LoopCallback(p.(pending := []), i, fixed, start, speed)
  {
    var q := p.(pending := []);
    assert p.pending[0] == i;
    assert p.pending[..|p.pending| - 1] == [];
    assert RunCallbacks(q, [], fixed, start, speed) == q;
  }

  /** A frame with two queued callbacks runs them in queue order. */
  lemma FrameOfTwo(p: Page, i: nat, j: nat, fixed: bool, start: real, speed: real)
    requires WellFormed(p) && p.pending == [i, j]
    ensures i < |p.reached| && j < |p.reached|
    ensures OnFrame(p, fixed, start, speed) ==
              LoopCallback(LoopCallback(p.(pending := []), i, fixed, start, speed), j, fixed, start, speed)
  {
    assert p.pending[0] == i && p.pending[1] == j;
    var q := p.(pending := []);
    assert p.pending[..1] == [i];
    assert [i][..0] == [];
    assert RunCallbacks(q, [], fixed, start, speed) == q;
    assert RunCallbacks(q, [i], fixed, start, speed) == LoopCallback(q, i, fixed, start, speed);
  }

  /** The page when the script starts: resting at the start height, no
      press yet, nothing queued. */
  function Initial(start: real): Page
  {
    Page(start, false, [], [])
  }

  // ---------------------------------------------------------------------
  // The loop as written

  /** With one callback queued, each frame as written is one step of that
      press's jump, as long as the jump is still in progress. */
  lemma {:induction false} FramesFollowRun(p: Page, i: nat, n: nat, start: real, speed: real)
    requires WellFormed(p) && i < |p.reached| && p.pending == [i]
    requires forall m :: 0 <= m < n ==> Run(Closure(p, i), start, speed, m).isJumping
    ensures OnFrames(p, n, false, start, speed).pending == [i]
    ensures Closure(OnFrames(p, n, false, start, speed), i) == Run(Closure(p, i), start, speed, n)
  {
    if n > 0 {
      FramesFollowRun(p, i, n - 1, start, speed);
      var q := OnFrames(p, n - 1, false, start, speed);
      assert q.isJumping by {
        assert Run(Closure(p, i), start, speed, n - 1).isJumping;
      }
      FrameOfOne(q, i, false, start, speed);
    }
  }

  /** A complete jump with app.js's step leaves its own loop queued: after
      the press and 29 frames the player has landed, yet the callback
      queued on the landing frame is still pending. */
  lemma StaleLoopAfterJump(start: real)
    ensures var p := OnFrames(OnKeyDown(Initial(start), SpaceKey, false, start, AppSpeed), 29, false, start, AppSpeed);
            && |p.reached| == 1 && p.pending == [0] && p.reached[0]
            && !p.isJumping && p.y == start
  {
    var p1 := OnKeyDown(Initial(start), SpaceKey, false, start, AppSpeed);
    assert Closure(p1, 0) == Run(Launch(start), start, AppSpeed, 1);
    AppJump(start);
    forall m | 0 <= m < 29
      ensures Run(Closure(p1, 0), start, AppSpeed, m).isJumping
    {
      RunAdd(Launch(start), start, AppSpeed, 1, m);
    }
    FramesFollowRun(p1, 0, 29, start, AppSpeed);
    RunAdd(Launch(start), start, AppSpeed, 1, 29);
  }

  /** The race: a Space press after a landing but before the stale
      callback has run is accepted, yet the stale callback then runs first
      with the old press's flag (already descending), pulls the player back
      down and ends the new jump — after a single frame instead of a whole
      jump. */
  lemma StaleLoopCancelsJump(p: Page, i: nat, start: real, speed: real)
    requires WellFormed(p) && i < |p.reached| && p.pending == [i] && p.reached[i]
    requires !p.isJumping && p.y == start
    requires 0.0 < speed < JumpHeight
    ensures OnKeyDown(p, SpaceKey, false, start, speed).isJumping
    ensures var q := OnFrame(OnKeyDown(p, SpaceKey, false, start, speed), false, start, speed);
            !q.isJumping && q.y == start
  {
    var k := OnKeyDown(p, SpaceKey, false, start, speed);
    assert k.pending == [i, |p.reached|];
    assert k.y == start + speed && k.isJumping && k.reached[i];
    FrameOfTwo(k, i, |p.reached|, false, start, speed);
  }

  // ---------------------------------------------------------------------
  // The corrected loop

  /** The jump state of the latest press. */
  function Current(p: Page): JumpState
  {
    JumpState(p.y, p.isJumping, |p.reached| > 0 && p.reached[|p.reached| - 1])
  }

  /** With the corrected loop nothing is queued at rest, and while jumping
      exactly the latest press's loop is. */
  predicate Single(p: Page)
  {
    && (!p.isJumping ==> p.pending == [])
    && (p.isJumping ==> |p.reached| > 0 && p.pending == [|p.reached| - 1])
  }

  /** A corrected frame is exactly one step of the jump state machine, and
      keeps a single loop queued at most. */
  lemma FixedFrameIsAnimate(p: Page, start: real, speed: real)
    requires Single(p)
    ensures WellFormed(p)
    ensures Single(OnFrame(p, true, start, speed))
    ensures Current(OnFrame(p, true, start, speed)) == Animate(Current(p), start, speed)
  {
    if p.isJumping {
      FrameOfOne(p, |p.reached| - 1, true, start, speed);
    }
  }

  /** A corrected key press is exactly a key press of the state machine. */
  lemma FixedKeyDownIsPress(p: Page, key: string, start: real, speed: real)
    requires Single(p)
    ensures WellFormed(p)
    ensures Single(OnKeyDown(p, key, true, start, speed))
    ensures Current(OnKeyDown(p, key, true, start, speed)) == Press(Current(p), key, start, speed)
  {
  }

  /** Hence any number of corrected frames runs the state machine. */
  lemma {:induction false} FixedFramesFollowRun(p: Page, n: nat, start: real, speed: real)
    requires Single(p)
    ensures WellFormed(p)
    ensures Single(OnFrames(p, n, true, start, speed))
    ensures Current(OnFrames(p, n, true, start, speed)) == Run(Current(p), start, speed, n)
  {
    if n > 0 {
      FixedFramesFollowRun(p, n - 1, start, speed);
      FixedFrameIsAnimate(OnFrames(p, n - 1, true, start, speed), start, speed);
    }
  }

  /** The intended behaviour, which the corrected loop has: from rest —
      including right after a landing — a Space press always gives a whole
      jump, 30 frames with app.js's step, the key handler's included. */
  lemma FixedPressGivesWholeJump(p: Page, start: real)
    requires Single(p) && !p.isJumping && p.y == start
    ensures WellFormed(p)
    ensures forall n :: 0 <= n < 29 ==>
              OnFrames(OnKeyDown(p, SpaceKey, true, start, AppSpeed), n, true, start, AppSpeed).isJumping
    ensures Current(OnFrames(OnKeyDown(p, SpaceKey, true, start, AppSpeed), 29, true, start, AppSpeed)) ==
              JumpState(start, false, true)
  {
    var k := OnKeyDown(p, SpaceKey, true, start, AppSpeed);
    FixedKeyDownIsPress(p, SpaceKey, start, AppSpeed);
    assert Current(k) == Run(Launch(start), start, AppSpeed, 1);
    AppJump(start);
    forall n | 0 <= n < 29
      ensures OnFrames(k, n, true, start, AppSpeed).isJumping
    {
      FixedFramesFollowRun(k, n, start, AppSpeed);
      RunAdd(Launch(start), start, AppSpeed, 1, n);
    }
    FixedFramesFollowRun(k, 29, start, AppSpeed);
    RunAdd(Launch(start), start, AppSpeed, 1, 29);
  }

  // ---------------------------------------------------------------------
  // The page state, driven by the corrected loop

  /** The jump's page state: `smallSphere.position.y`, `isJumping`, the
      flags of the presses' closures and the animation-frame queue. The
      start height and the step are fixed when the script loads. */
  class Jumper {
    const start: real
    const speed: real
    var y: real
    var isJumping: bool
    var reached: seq<bool>
    var pending: seq<nat>

    function State(): Page
      reads this
    {
      Page(y, isJumping, reached, pending)
    }

    ghost predicate Valid()
      reads this
    {
      speed > 0.0 && Single(State()) && Envelope(Current(State()), start, speed)
    }

    constructor (start: real, speed: real)
      requires speed > 0.0
      ensures Valid()
      ensures this.start == start && this.speed == speed
      ensures State() == Initial(start)
    {
      this.start, this.speed := start, speed;
      y, isJumping, reached, pending := start, false, [], [];
    }

    /** `jumpAnimation` of press `id`. */
    method JumpAnimation(id: nat)
      requires id < |reached|
      modifies this`y, this`isJumping, this`reached
      ensures State() == AnimateClosure(old(State()), id, start, speed)
    {
      if isJumping {
        if !reached[id] {
          y := y + speed;
          if y >= start + JumpHeight {
            reached := reached[id := true];
          }
        } else {
          y := y - speed;
          if y <= start {
            y := start;
            isJumping := false;
          }
        }
      }
    }

    /** `jumpLoop` of press `id`, re-queued only while still jumping. */
    method JumpLoop(id: nat)
      requires id < |reached| && WellFormed(State())
      modifies this
      ensures State() == LoopCallback(old(State()), id, true, start, speed)
    {
      if isJumping {
        JumpAnimation(id);
        if isJumping {
          pending := pending + [id];
        }
      }
    }

    /** The `keydown` listener. */
    method KeyDown(key: string)
      requires Valid()
      modifies this
      ensures Valid()
      ensures State() == OnKeyDown(old(State()), key, true, start, speed)
      ensures Current(State()) == Press(old(Current(State())), key, start, speed)
    {
      FixedKeyDownIsPress(State(), key, start, speed);
      PressKeepsEnvelope(Current(State()), key, start, speed);
      if key == SpaceKey && !isJumping {
        isJumping := true;
        reached := reached + [false];
        JumpLoop(|reached| - 1);
      }
    }

    /** One animation frame: every queued loop runs, in order. */
    method Frame()
      requires Valid()
      modifies this
      ensures Valid()
      ensures State() == OnFrame(old(State()), true, start, speed)
      ensures Current(State()) == Animate(old(Current(State())), start, speed)
    {
      FixedFrameIsAnimate(State(), start, speed);
      AnimateKeepsEnvelope(Current(State()), start, speed);
      ghost var p0 := State().(pending := []);
      var queue := pending;
      pending := [];
      var i := 0;
      while i < |queue|
        invariant 0 <= i <= |queue|
        invariant WellFormed(p0) && forall j :: 0 <= j < |queue| ==> queue[j] < |p0.reached|
        invariant State() == RunCallbacks(p0, queue[..i], true, start, speed)
      {
        assert queue[..i + 1][..i] == queue[..i];
        JumpLoop(queue[i]);
        i := i + 1;
      }
      assert queue[..|queue|] == queue;
    }
  }
}

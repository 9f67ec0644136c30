/** The collision detector of the first "virus jump" demo's collision
    variant (app_collision.js). Every frame it walks the children of the
    planet group, skipping the planet itself, and compares the player with
    each cone's world position. The first cone closer than 0.10 while no
    cooldown is running recolours the player and starts a cooldown; a timer
    later restores the remembered colour and ends the cooldown. The timer's
    delay is not modelled: its firing is the explicit event `TimerFired`. */
module CooldownCollision {
  import opened Geometry

  const HitDistance: real := 0.10
  const HitColor: int := 0x1163aa

  datatype Option<T> = None | Some(value: T)

  /** A child of the planet group, with its world position for this frame. */
  datatype Child = BigSphere(worldPosition: Vec3) | ConeChild(worldPosition: Vec3)

  /** The player's colour, the cooldown flag and the colour the pending
      timer will restore, if one is pending. */
  datatype Look = Look(color: int, cooldown: bool, pendingRevert: Option<int>)

  /** A timer is pending exactly while the cooldown runs. */
  predicate Consistent(s: Look)
  {
    s.cooldown <==> s.pendingRevert.Some?
  }

  /** The check for one child. */
  function Visit(s: Look, child: Child, player: Vec3): (r: Look)
    ensures child.BigSphere? || s.cooldown ==> r == s
    ensures Consistent(s) ==> Consistent(r)
  {
    if child.ConeChild? && Within(player, child.worldPosition, HitDistance) && !s.cooldown then
      Look(HitColor, true, Some(s.color))
    else s
  }

  /** The `forEach` over the children, in order, as a fold over a prefix. */
  function Scan(s: Look, children: seq<Child>, player: Vec3): (r: Look)
    ensures Consistent(s) ==> Consistent(r)
  {
    if children == [] then s
    else Visit(Scan(s, children[..|children| - 1], player), children[|children| - 1], player)
  }

  /** Some cone (not the planet) is closer to the player than HitDistance. */
  predicate AnyConeClose(children: seq<Child>, player: Vec3)
  {
    exists i :: 0 <= i < |children| && children[i].ConeChild?
                && Within(player, children[i].worldPosition, HitDistance)
  }

  /** What a whole scan does: without a cooldown and with some cone close,
      the player takes the hit colour, the cooldown starts and the colour
      it had before the scan is remembered; otherwise nothing changes. So
      at most one hit fires per scan (later cones find the cooldown set),
      and the planet itself is never tested. */
  lemma {:induction false} ScanOutcome(s: Look, children: seq<Child>, player: Vec3)
    ensures Scan(s, children, player) ==
              if !s.cooldown && AnyConeClose(children, player) then Look(HitColor, true, Some(s.color))
              else s
  {
    if children != [] {
      ScanOutcome(s, children[..|children| - 1], player);
      AnyConeCloseSplit(children, player);
    }
  }

  /** A close cone is among all but the last child, or is the last. */
  lemma AnyConeCloseSplit(children: seq<Child>, player: Vec3)
    requires children != []
    ensures AnyConeClose(children, player) <==>
              AnyConeClose(children[..|children| - 1], player)
              || (children[|children| - 1].ConeChild?
                  && Within(player, children[|children| - 1].worldPosition, HitDistance))
  {
    var init := children[..|children| - 1];
    if AnyConeClose(init, player) {
      var i :| 0 <= i < |init| && init[i].ConeChild? && Within(player, init[i].worldPosition, HitDistance);
      assert children[i] == init[i];
    }
    if AnyConeClose(children, player) {
      var i :| 0 <= i < |children| && children[i].ConeChild?
               && Within(player, children[i].worldPosition, HitDistance);
      if i < |init| {
        assert init[i] == children[i];
      }
    }
  }

  /** The timer callback: restore the remembered colour, end the cooldown.
      A timer fires only when one is pending. */
  function Revert(s: Look): (r: Look)
    requires s.pendingRevert.Some?
    ensures r.color == s.pendingRevert.value && !r.cooldown && r.pendingRevert.None?
  {
    Look(s.pendingRevert.value, false, None)
  }

  /** A hit followed by its timer is undone completely: colour, flag and
      timer are as before the scan. */
  lemma HitThenTimerRestores(s: Look, children: seq<Child>, player: Vec3)
    requires !s.cooldown && s.pendingRevert.None?
    requires AnyConeClose(children, player)
    ensures Scan(s, children, player).pendingRevert.Some?
    ensures Revert(Scan(s, children, player)) == s
  {
    ScanOutcome(s, children, player);
  }

  /** While the cooldown runs, a scan changes nothing, however close the
      cones are. */
  lemma CooldownBlocks(s: Look, children: seq<Child>, player: Vec3)
    requires s.cooldown
    ensures Scan(s, children, player) == s
  {
    ScanOutcome(s, children, player);
  }

  /** The detector's state in the page. */
  class Detector {
    var color: int
    var collisionCooldown: bool
    var pendingRevert: Option<int>

    function State(): Look
      reads this
    {
      Look(color, collisionCooldown, pendingRevert)
    }

    ghost predicate Valid()
      reads this
    {
      Consistent(State())
    }

    /** The player starts with the given colour and no cooldown. */
    constructor (color: int)
      ensures Valid()
      ensures State() == Look(color, false, None)
    {
      this.color := color;
      collisionCooldown, pendingRevert := false, None;
    }

    /** `checkCollision` for one frame; `children` are the planet group's
        children with this frame's world positions, in order. */
    method CheckCollision(children: seq<Child>, player: Vec3)
      requires Valid()
      modifies this
      ensures Valid()
      ensures State() == Scan(old(State()), children, player)
      ensures State() == if !old(collisionCooldown) && AnyConeClose(children, player)
                         then Look(HitColor, true, Some(old(color))) else old(State())
    {
      var i := 0;
      while i < |children|
        invariant 0 <= i <= |children|
        invariant State() == Scan(old(State()), children[..i], player)
      {
        assert children[..i + 1][..i] == children[..i];
        var child := children[i];
        if child.ConeChild? {
          if Within(player, child.worldPosition, HitDistance) && !collisionCooldown {
            collisionCooldown := true;
            var originalColor := color;
            color := HitColor;
            pendingRevert := Some(originalColor);
          }
        }
        i := i + 1;
      }
      assert children[..|children|] == children;
      ScanOutcome(old(State()), children, player);
    }

    /** The timer callback armed by a hit, which the page schedules 100 ms
        after the hit; the model lets it fire at any time while pending. */
    method TimerFired()
      requires Valid() && pendingRevert.Some?
      modifies this
      ensures Valid()
      ensures State() == Revert(old(State()))
    {
      color := pendingRevert.value;
      collisionCooldown := false;
      pendingRevert := None;
    }
  }
}

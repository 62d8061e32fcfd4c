/** The player's per-tick rules: steering, gravity, animation, integration and platform collisions. */
module Physics {
  import opened Geometry
  import opened Entities

  datatype Steering = Steering(player: Player, jumped: bool)

  /** Horizontal input, the jump that only a grounded player may start, gravity and the fall-speed cap. */
  function Steer(p: Player, input: Input): (r: Steering)
    ensures r.player.vy <= MaxFallSpeed
    ensures r.jumped <==> input.jump && p.isGrounded
    ensures r.jumped ==> r.player.vy == JumpPower + Gravity && !r.player.isGrounded
    ensures !r.jumped ==> r.player.isGrounded == p.isGrounded
    ensures !r.jumped && p.vy + Gravity <= MaxFallSpeed ==> r.player.vy == p.vy + Gravity
    ensures !r.jumped && p.vy + Gravity > MaxFallSpeed ==> r.player.vy == MaxFallSpeed
    ensures input.right ==> r.player.vx == MoveSpeed && r.player.isFacingRight
    ensures input.left && !input.right ==> r.player.vx == -MoveSpeed && !r.player.isFacingRight
    ensures !input.left && !input.right ==> r.player.vx == 0.0 && r.player.isFacingRight == p.isFacingRight
    ensures r.player == p.(vx := r.player.vx, vy := r.player.vy, isGrounded := r.player.isGrounded,
                           isFacingRight := r.player.isFacingRight)
  {
    var p1 := p.(vx := 0.0);
    var p2 := if input.left then p1.(vx := -MoveSpeed, isFacingRight := false) else p1;
    var p3 := if input.right then p2.(vx := MoveSpeed, isFacingRight := true) else p2;
    var jumped := input.jump && p3.isGrounded;
    var p4 := if jumped then p3.(vy := JumpPower, isGrounded := false) else p3;
    var p5 := p4.(vy := p4.vy + Gravity);
    var p6 := if p5.vy > MaxFallSpeed then p5.(vy := MaxFallSpeed) else p5;
    Steering(p6, jumped)
  }

  /** Behaviour state and the two-phase walking animation. */
  function Animate(p: Player): (r: Player)
    ensures r.state == Jumping <==> !p.isGrounded
    ensures r.state == Walking <==> p.isGrounded && p.vx != 0.0
    ensures r.state == Idle <==> p.isGrounded && p.vx == 0.0
    ensures r.state == Idle ==> r.animFrame == 0 && r.animCounter == 0
    ensures r.state == Jumping ==> r.animFrame == p.animFrame && r.animCounter == p.animCounter
    ensures AnimOk(p) ==> AnimOk(r)
    ensures r == p.(state := r.state, animFrame := r.animFrame, animCounter := r.animCounter)
  {
    if !p.isGrounded then p.(state := Jumping)
    else if p.vx != 0.0 then
      var counted := p.animCounter + 1;
      if counted >= WalkPeriod then p.(state := Walking, animCounter := 0, animFrame := 1 - p.animFrame)
      else p.(state := Walking, animCounter := counted)
    else p.(state := Idle, animFrame := 0, animCounter := 0)
  }

  /** The player part of a tick before collisions: steer, animate, then move by the new velocity. */
  function Control(p: Player, input: Input): (r: Player)
    ensures var s := Steer(p, input).player;
            r.vx == s.vx && r.vy == s.vy && r.x == p.x + s.vx && r.y == p.y + s.vy
    ensures r.vy <= MaxFallSpeed
    ensures AnimOk(p) ==> AnimOk(r)
  {
    var q := Animate(Steer(p, input).player);
    q.(x := q.x + q.vx, y := q.y + q.vy)
  }

  /** k ticks of animation alone. */
  function AnimateN(p: Player, k: nat): Player
    decreases k
  {
    if k == 0 then p else Animate(AnimateN(p, k - 1))
  }

  /** While walking, the frame flips once every WalkPeriod ticks and the counter counts the ticks between. */
  lemma {:induction false} WalkCycle(p: Player, k: nat)
    requires p.isGrounded && p.vx != 0.0 && p.animCounter == 0
    requires 1 <= k <= WalkPeriod
    ensures var q := AnimateN(p, k);
            q.state == Walking &&
            (k < WalkPeriod ==> q.animCounter == k && q.animFrame == p.animFrame) &&
            (k == WalkPeriod ==> q.animCounter == 0 && q.animFrame == 1 - p.animFrame)
    decreases k
  {
    if k > 1 {
      WalkCycle(p, k - 1);
    }
  }

  function PlayerBox(p: Player): Box
  {
    Box(p.x, p.x + PlayerWidth, p.y, p.y + PlayerHeight)
  }

  function PlatformBox(q: Platform): Box
  {
    Box(q.x, q.x + q.width, q.y, q.y + q.height)
  }

  /** Moving up with the box's top inside the platform and its bottom below it. */
  predicate HeadBump(vy: real, e: Box, b: Box)
  {
    vy < 0.0 && e.top < b.bottom && e.bottom > b.bottom
  }

  /** Moving down with the box's bottom inside the platform and its top above it. */
  predicate Landing(vy: real, e: Box, b: Box)
  {
    vy > 0.0 && e.bottom > b.top && e.top < b.top
  }

  predicate HitsLeftSide(vx: real, e: Box, b: Box)
  {
    vx > 0.0 && e.right > b.left && e.left < b.left
  }

  predicate HitsRightSide(vx: real, e: Box, b: Box)
  {
    vx < 0.0 && e.left < b.right && e.right > b.right
  }

  /**
   * One platform against the player's edges `e`, which were taken before the platform loop,
   * while the velocity read is the player's current one.
   */
  function ResolvePlatform(p: Player, e: Box, q: Platform): (r: Player)
    ensures r == p.(x := r.x, y := r.y, vy := r.vy, isGrounded := r.isGrounded)
    ensures !Overlaps(e, PlatformBox(q)) ==> r == p
    ensures r.isGrounded <==> p.isGrounded || (Overlaps(e, PlatformBox(q)) && Landing(p.vy, e, PlatformBox(q)))
    ensures Overlaps(e, PlatformBox(q)) && HeadBump(p.vy, e, PlatformBox(q)) ==> r.y == q.y + q.height && r.vy == 0.0
    ensures Overlaps(e, PlatformBox(q)) && Landing(p.vy, e, PlatformBox(q)) ==> r.y == q.y - PlayerHeight && r.vy == 0.0
    ensures !(Overlaps(e, PlatformBox(q)) && (HeadBump(p.vy, e, PlatformBox(q)) || Landing(p.vy, e, PlatformBox(q)))) ==>
              r.y == p.y && r.vy == p.vy
    ensures Overlaps(e, PlatformBox(q)) && HitsLeftSide(p.vx, e, PlatformBox(q)) ==> r.x == q.x - PlayerWidth
    ensures Overlaps(e, PlatformBox(q)) && HitsRightSide(p.vx, e, PlatformBox(q)) ==> r.x == q.x + q.width
    ensures !(Overlaps(e, PlatformBox(q)) && (HitsLeftSide(p.vx, e, PlatformBox(q)) || HitsRightSide(p.vx, e, PlatformBox(q)))) ==>
              r.x == p.x
    ensures r.vy == p.vy || r.vy == 0.0
  {
    var b := PlatformBox(q);
    if !Overlaps(e, b) then p
    else
      var p1 := if HeadBump(p.vy, e, b) then p.(y := b.bottom, vy := 0.0) else p;
      var p2 := if Landing(p1.vy, e, b) then p1.(y := b.top - PlayerHeight, vy := 0.0, isGrounded := true) else p1;
      var p3 := if HitsLeftSide(p2.vx, e, b) then p2.(x := b.left - PlayerWidth) else p2;
      if HitsRightSide(p3.vx, e, b) then p3.(x := b.right) else p3
  }

  /** The platforms in order, every one tested against the same edges `e`. */
  function ResolveAll(p: Player, e: Box, ps: seq<Platform>): (r: Player)
    ensures r == p.(x := r.x, y := r.y, vy := r.vy, isGrounded := r.isGrounded)
    ensures r.vy == p.vy || r.vy == 0.0
    decreases |ps|
  {
    if ps == [] then p else ResolvePlatform(ResolveAll(p, e, ps[..|ps| - 1]), e, ps[|ps| - 1])
  }

  /** checkCollisions: clear grounded, take the edges once, then resolve every platform. */
  function Collide(p: Player, ps: seq<Platform>): Player
  {
    ResolveAll(p.(isGrounded := false), PlayerBox(p), ps)
  }

  /** Platform k sees a landing, given the player as the earlier platforms left it. */
  predicate LandsAt(p: Player, e: Box, ps: seq<Platform>, k: nat)
    requires k < |ps|
  {
    Overlaps(e, PlatformBox(ps[k])) && Landing(ResolveAll(p, e, ps[..k]).vy, e, PlatformBox(ps[k]))
  }

  lemma {:induction false} ResolveAllGrounded(p: Player, e: Box, ps: seq<Platform>)
    ensures ResolveAll(p, e, ps).isGrounded <==>
            p.isGrounded || exists k :: 0 <= k < |ps| && LandsAt(p, e, ps, k)
    decreases |ps|
  {
    if ps != [] {
      var n := |ps| - 1;
      var init := ps[..n];
      ResolveAllGrounded(p, e, init);
      forall k | 0 <= k < n
        ensures LandsAt(p, e, ps, k) <==> LandsAt(p, e, init, k)
      {
        assert ps[..k] == init[..k];
      }
      var m := ResolveAll(p, e, init);
      assert LandsAt(p, e, ps, n) <==> Overlaps(e, PlatformBox(ps[n])) && Landing(m.vy, e, PlatformBox(ps[n]));
      if ResolveAll(p, e, ps).isGrounded && !p.isGrounded {
        if m.isGrounded {
          var k :| 0 <= k < n && LandsAt(p, e, init, k);
          assert LandsAt(p, e, ps, k);
        } else {
          assert LandsAt(p, e, ps, n);
        }
      }
    }
  }

  /** After checkCollisions the player is grounded exactly when some platform saw a landing. */
  lemma CollideGroundedIffLanded(p: Player, ps: seq<Platform>)
    ensures Collide(p, ps).isGrounded <==>
            exists k :: 0 <= k < |ps| && LandsAt(p.(isGrounded := false), PlayerBox(p), ps, k)
  {
    ResolveAllGrounded(p.(isGrounded := false), PlayerBox(p), ps);
  }

  lemma {:induction false} ResolveAllRests(p: Player, e: Box, ps: seq<Platform>)
    requires p.isGrounded ==> p.vy == 0.0
    ensures var r := ResolveAll(p, e, ps);
            r.isGrounded ==>
              r.vy == 0.0 &&
              ((p.isGrounded && r.y == p.y) || exists k :: 0 <= k < |ps| && r.y == ps[k].y - PlayerHeight)
    decreases |ps|
  {
    if ps != [] {
      var n := |ps| - 1;
      ResolveAllRests(p, e, ps[..n]);
      var m := ResolveAll(p, e, ps[..n]);
      var r := ResolvePlatform(m, e, ps[n]);
      if r.isGrounded && !m.isGrounded {
        assert r.y == ps[n].y - PlayerHeight;
      } else if m.isGrounded && !(p.isGrounded && m.y == p.y) {
        var k :| 0 <= k < n && m.y == ps[..n][k].y - PlayerHeight;
        assert m.y == ps[k].y - PlayerHeight;
      }
    }
  }

  /** A grounded player after checkCollisions stands still on top of one of the platforms. */
  lemma GroundedStandsOnPlatform(p: Player, ps: seq<Platform>)
    ensures var r := Collide(p, ps);
            r.isGrounded ==> r.vy == 0.0 && exists k :: 0 <= k < |ps| && r.y == ps[k].y - PlayerHeight
  {
    ResolveAllRests(p.(isGrounded := false), PlayerBox(p), ps);
  }

  /** From a falling, airborne start, the pass either lands (and stops) or leaves the speed alone. */
  lemma {:induction false} ResolveAllFalling(p: Player, e: Box, ps: seq<Platform>)
    requires p.vy > 0.0 && !p.isGrounded
    ensures var r := ResolveAll(p, e, ps);
            (r.isGrounded && r.vy == 0.0) || (!r.isGrounded && r.vy == p.vy)
    decreases |ps|
  {
    if ps != [] {
      ResolveAllFalling(p, e, ps[..|ps| - 1]);
    }
  }

  lemma {:induction false} SupportedLands(p: Player, e: Box, ps: seq<Platform>, k: nat, n: nat)
    requires k < n <= |ps|
    requires p.vy > 0.0 && !p.isGrounded
    requires Overlaps(e, PlatformBox(ps[k])) && Landing(p.vy, e, PlatformBox(ps[k]))
    ensures ResolveAll(p, e, ps[..n]).isGrounded && ResolveAll(p, e, ps[..n]).vy == 0.0
    decreases n
  {
    var init := ps[..n - 1];
    assert ps[..n][..n - 1] == init;
    ResolveAllFalling(p, e, init);
    if k < n - 1 {
      SupportedLands(p, e, ps, k, n - 1);
    }
  }

  /**
   * A player resting on a platform, who does not jump and still overlaps that platform after moving
   * sideways, is grounded with zero vertical speed after the next collision pass.
   */
  lemma RestingStaysGrounded(p: Player, input: Input, ps: seq<Platform>, k: nat)
    requires k < |ps|
    requires p.isGrounded && p.vy == 0.0 && !input.jump
    requires p.y + PlayerHeight == ps[k].y && ps[k].height >= 0.0
    requires var c := Control(p, input); c.x + PlayerWidth > ps[k].x && c.x < ps[k].x + ps[k].width
    ensures Collide(Control(p, input), ps).isGrounded
    ensures Collide(Control(p, input), ps).vy == 0.0
  {
    var c := Control(p, input);
    assert c.vy == Gravity && c.y == p.y + Gravity;
    assert ps[..|ps|] == ps;
    SupportedLands(c.(isGrounded := false), PlayerBox(c), ps, k, |ps|);
  }
}

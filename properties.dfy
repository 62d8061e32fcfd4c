/** What a whole tick promises: the invariant it keeps, its resets, its events and its score. */
module Properties {
  import opened Entities
  import opened Physics
  import opened Actors
  import opened Simulation

  // ---------------------------------------------------------------- layout

  lemma SameLayoutTrans(a: World, b: World, c: World)
    requires SameLayout(a, b) && SameLayout(b, c)
    ensures SameLayout(a, c)
  {
  }

  lemma LayoutOkTransfer(a: World, b: World)
    requires SameLayout(a, b) && LayoutOk(b)
    ensures LayoutOk(a)
  {
    forall i | 0 <= i < |a.enemies|
      ensures a.enemies[i].leftBound <= a.enemies[i].initialX <= a.enemies[i].rightBound
    {
      assert SameEnemyLayout(a.enemies[i], b.enemies[i]);
    }
  }

  lemma PickUpKeepsLayout(w: World)
    ensures SameLayout(PickUpCoins(w).world, w)
  {
    var s := CollectCoins(w.coins, CentreX(w.player), CentreY(w.player), |w.coins|);
    assert PickUpCoins(w).world.coins == s.coins;
  }

  lemma PatrolKeepsLayout(w: World)
    ensures SameLayout(PatrolEnemies(w), w)
  {
  }

  lemma FightKeepsLayout(w: World)
    ensures SameLayout(FightEnemies(w).world, w)
  {
    FightOutcome(w, |w.enemies|);
    if FightEnemies(w).hit {
      ResetKeepsLayout(w);
    }
  }

  lemma GoalKeepsLayout(w: World)
    ensures SameLayout(ReachGoal(FollowCamera(w)).world, w)
  {
  }

  /** Every stage after the move keeps the layout of the moved world. */
  lemma StagesKeepLayout(w: World, input: Input)
    ensures var moved := MovePlayer(w, input).world;
            var collided := CheckCollisions(moved);
            var coins := PickUpCoins(collided).world;
            var patrolled := PatrolEnemies(coins);
            var fight := FightEnemies(patrolled).world;
            var goal := ReachGoal(FollowCamera(fight)).world;
            SameLayout(patrolled, moved) && SameLayout(fight, moved) && SameLayout(goal, moved)
  {
    var moved := MovePlayer(w, input).world;
    var collided := CheckCollisions(moved);
    var coins := PickUpCoins(collided).world;
    var patrolled := PatrolEnemies(coins);
    var fight := FightEnemies(patrolled).world;
    var goal := ReachGoal(FollowCamera(fight)).world;
    assert SameLayout(collided, moved);
    PickUpKeepsLayout(collided);
    PatrolKeepsLayout(coins);
    FightKeepsLayout(patrolled);
    GoalKeepsLayout(fight);
    SameLayoutTrans(coins, collided, moved);
    SameLayoutTrans(patrolled, coins, moved);
    SameLayoutTrans(fight, patrolled, moved);
    SameLayoutTrans(goal, fight, moved);
  }

  /** A reset world satisfies the invariant whenever its layout does. */
  lemma ResetInvariant(w: World)
    requires LayoutOk(w)
    ensures Invariant(Reset(w))
  {
    ResetKeepsLayout(w);
    LayoutOkTransfer(Reset(w), w);
  }

  // ---------------------------------------------------------------- resets

  /**
   * A playing tick that resets, after an enemy hit or a fall, ends exactly at the reset of the
   * moved world with one frame counted: everything restored except the facing chosen this tick.
   */
  lemma ResetTick(w: World, input: Input)
    requires LayoutOk(w) && w.mode == Playing
    ensures var r := Tick(w, input);
            r.reset != NoReset ==> r.world == Reset(MovePlayer(w, input).world).(elapsedFrames := 1)
  {
    var moved := MovePlayer(w, input).world;
    var patrolled := PatrolEnemies(PickUpCoins(CheckCollisions(moved)).world);
    var fight := FightEnemies(patrolled);
    var framed := FollowCamera(fight.world);
    var goal := ReachGoal(framed);
    StagesKeepLayout(w, input);
    if FellOut(goal.world) {
      ResetDependsOnlyOnLayout(goal.world, moved);
    } else if fight.hit {
      FightOutcome(patrolled, |patrolled.enemies|);
      ResetDependsOnlyOnLayout(patrolled, moved);
      assert framed == fight.world;
      assert !InGoalZone(framed.player, framed.goal);
    }
  }

  /**
   * A player standing still on a platform, who does not jump and still overlaps it after the sideways
   * move, ends every tick that does not reset grounded and with zero vertical speed: the landing stops
   * the fall, so no enemy is stomped, and no later block moves the player vertically.
   */
  lemma RestingStaysGroundedTick(w: World, input: Input, k: nat)
    requires w.mode == Playing && k < |w.platforms|
    requires w.player.isGrounded && w.player.vy == 0.0 && !input.jump
    requires w.player.y + PlayerHeight == w.platforms[k].y && w.platforms[k].height >= 0.0
    requires var c := Control(w.player, input);
             c.x + PlayerWidth > w.platforms[k].x && c.x < w.platforms[k].x + w.platforms[k].width
    ensures var r := Tick(w, input);
            r.reset == NoReset ==> r.world.player.isGrounded && r.world.player.vy == 0.0
  {
    var collided := CheckCollisions(MovePlayer(w, input).world);
    RestingStaysGrounded(w.player, input, w.platforms, k);
    var patrolled := PatrolEnemies(PickUpCoins(collided).world);
    assert patrolled.player == collided.player;
    NoStompUnlessFalling(patrolled, |patrolled.enemies|);
  }

  /** After any playing tick the camera and the player are inside the stage, and one frame more is counted (one in all after a reset). */
  lemma TickFramesAndView(w: World, input: Input)
    requires w.mode == Playing
    ensures var r := Tick(w, input);
            && 0.0 <= r.world.cameraX <= CameraMax
            && 0.0 <= r.world.player.x <= PlayerXMax
            && r.world.elapsedFrames == (if r.reset == NoReset then w.elapsedFrames + 1 else 1)
  {
    var moved := MovePlayer(w, input).world;
    var patrolled := PatrolEnemies(PickUpCoins(CheckCollisions(moved)).world);
    var fight := FightEnemies(patrolled);
    FightOutcome(patrolled, |patrolled.enemies|);
  }

  // ---------------------------------------------------------------- the invariant

  /** Every enemy is inside its patrol range after the patrol step and the stomps. */
  lemma FightKeepsEnemiesInBounds(w: World, input: Input)
    requires Invariant(w)
    ensures var patrolled := PatrolEnemies(PickUpCoins(CheckCollisions(MovePlayer(w, input).world)).world);
            var fight := FightEnemies(patrolled).world;
            forall i :: 0 <= i < |fight.enemies| ==> InBounds(fight.enemies[i])
  {
    var patrolled := PatrolEnemies(PickUpCoins(CheckCollisions(MovePlayer(w, input).world)).world);
    var fight := FightEnemies(patrolled);
    FightOutcome(patrolled, |patrolled.enemies|);
    assert patrolled.enemies == PatrolAll(w.enemies);
    forall i | 0 <= i < |patrolled.enemies|
      ensures InBounds(patrolled.enemies[i])
    {
      assert patrolled.enemies[i] == Patrol(w.enemies[i]);
    }
    if fight.hit {
      assert LayoutOk(patrolled);
      ResetInvariant(patrolled);
    } else {
      forall i | 0 <= i < |fight.world.enemies|
        ensures InBounds(fight.world.enemies[i])
      {
        assert fight.world.enemies[i] == patrolled.enemies[i] ||
               fight.world.enemies[i] == patrolled.enemies[i].(isAlive := false);
      }
    }
  }

  lemma PlayingTickKeepsInvariant(w: World, input: Input)
    requires Invariant(w) && w.mode == Playing
    ensures Invariant(Tick(w, input).world)
  {
    var moved := MovePlayer(w, input).world;
    var collided := CheckCollisions(moved);
    var patrolled := PatrolEnemies(PickUpCoins(collided).world);
    var fight := FightEnemies(patrolled);
    var framed := FollowCamera(fight.world);
    var goal := ReachGoal(framed);
    var r := Tick(w, input);
    assert LayoutOk(moved);
    if r.reset != NoReset {
      ResetTick(w, input);
      ResetInvariant(moved);
    } else {
      StagesKeepLayout(w, input);
      LayoutOkTransfer(goal.world, moved);
      FightOutcome(patrolled, |patrolled.enemies|);
      FightKeepsEnemiesInBounds(w, input);
      assert collided.player.vy <= MaxFallSpeed;
      assert AnimOk(collided.player);
      assert Invariant(goal.world);
    }
  }

  lemma ClearedTickKeepsInvariant(w: World, input: Input)
    requires Invariant(w) && w.mode == Cleared
    ensures Invariant(Tick(w, input).world)
  {
    var counted := w.(clearTime := w.clearTime + 1);
    var lowered := if counted.goal.flagHeight < counted.goal.poleHeight - FlagMargin
                   then counted.(goal := counted.goal.(flagHeight := counted.goal.flagHeight + FlagStep))
                   else counted;
    assert LayoutOk(lowered);
    if input.restart {
      ResetInvariant(lowered);
    }
  }

  /** The invariant holds of the new game and every tick keeps it. */
  lemma TickKeepsInvariant(w: World, input: Input)
    requires Invariant(w)
    ensures Invariant(Tick(w, input).world)
  {
    if w.mode == Playing {
      PlayingTickKeepsInvariant(w, input);
    } else {
      ClearedTickKeepsInvariant(w, input);
    }
  }

  // ---------------------------------------------------------------- events and score

  /** What each event adds to the score; the goal pays per coin still loose. */
  function EventPoints(e: Event, coinsLeft: nat): nat
  {
    match e
    case Jumped => 0
    case CoinCollected(_) => CoinReward
    case EnemyDefeated(_) => StompReward
    case GoalReached => GoalBonusPerCoin * coinsLeft
  }

  function Points(evs: seq<Event>, coinsLeft: nat): nat
  {
    if evs == [] then 0 else Points(evs[..|evs| - 1], coinsLeft) + EventPoints(evs[|evs| - 1], coinsLeft)
  }

  lemma {:induction false} PointsAppend(a: seq<Event>, b: seq<Event>, coinsLeft: nat)
    ensures Points(a + b, coinsLeft) == Points(a, coinsLeft) + Points(b, coinsLeft)
    decreases |b|
  {
    if b == [] {
      assert a + b == a;
    } else {
      var n := |b| - 1;
      assert (a + b)[..|a + b| - 1] == a + b[..n];
      assert (a + b)[|a + b| - 1] == b[n];
      PointsAppend(a, b[..n], coinsLeft);
    }
  }

  lemma {:induction false} PointsAllAlike(evs: seq<Event>, coinsLeft: nat, each: nat)
    requires forall k :: 0 <= k < |evs| ==> EventPoints(evs[k], coinsLeft) == each
    ensures Points(evs, coinsLeft) == each * |evs|
    decreases |evs|
  {
    if evs != [] {
      PointsAllAlike(evs[..|evs| - 1], coinsLeft, each);
    }
  }

  /** The points of a playing tick's events, by kind. */
  lemma PointsOfTick(ms: seq<Event>, cs: seq<Event>, fs: seq<Event>, gs: seq<Event>, left: nat)
    requires ms == [] || ms == [Jumped]
    requires forall k :: 0 <= k < |cs| ==> cs[k].CoinCollected?
    requires forall k :: 0 <= k < |fs| ==> fs[k].EnemyDefeated?
    requires gs == [] || gs == [GoalReached]
    ensures Points(ms + cs + fs + gs, left) ==
            CoinReward * |cs| + StompReward * |fs| + (if gs == [] then 0 else GoalBonusPerCoin * left)
  {
    PointsAllAlike(ms, left, 0);
    PointsAllAlike(cs, left, CoinReward);
    PointsAllAlike(fs, left, StompReward);
    PointsAllAlike(gs, left, GoalBonusPerCoin * left);
    PointsAppend(ms, cs, left);
    PointsAppend(ms + cs, fs, left);
    PointsAppend(ms + cs + fs, gs, left);
  }

  /** A tick that does not reset changes the score by exactly the points of the events it emits. */
  lemma ScoreAccounting(w: World, input: Input)
    ensures var r := Tick(w, input);
            r.reset == NoReset ==> r.world.score == w.score + Points(r.events, Uncollected(r.world.coins))
  {
    if w.mode == Cleared {
      return;
    }
    var moved := MovePlayer(w, input);
    var coins := PickUpCoins(CheckCollisions(moved.world));
    var patrolled := PatrolEnemies(coins.world);
    var fight := FightEnemies(patrolled);
    var framed := FollowCamera(fight.world);
    var goal := ReachGoal(framed);
    var r := Tick(w, input);
    if r.reset == NoReset {
      EventKinds(w, input);
      FightOutcome(patrolled, |patrolled.enemies|);
      assert r.world.coins == framed.coins;
      PointsOfTick(moved.events, coins.events, fight.events, goal.events, Uncollected(framed.coins));
    }
  }

  /** Collected coins stay collected by every tick that does not reset, and no coin is added or lost. */
  lemma CoinsStayCollected(w: World, input: Input)
    ensures var r := Tick(w, input);
            && |r.world.coins| == |w.coins|
            && (r.reset == NoReset ==> forall i :: 0 <= i < |w.coins| && w.coins[i].collected ==> r.world.coins[i].collected)
  {
    if w.mode == Cleared {
      return;
    }
    var moved := MovePlayer(w, input);
    var collided := CheckCollisions(moved.world);
    var patrolled := PatrolEnemies(PickUpCoins(collided).world);
    FightOutcome(patrolled, |patrolled.enemies|);
    var s := CollectCoins(collided.coins, CentreX(collided.player), CentreY(collided.player), |collided.coins|);
    assert PickUpCoins(collided).world.coins == s.coins;
  }

  /** The events of a playing tick: the jump first, then coins, then stomps, then the goal. */
  lemma EventKinds(w: World, input: Input)
    requires w.mode == Playing
    ensures var moved := MovePlayer(w, input);
            var coins := PickUpCoins(CheckCollisions(moved.world));
            var fight := FightEnemies(PatrolEnemies(coins.world));
            var goal := ReachGoal(FollowCamera(fight.world));
            && Tick(w, input).events == moved.events + coins.events + fight.events + goal.events
            && (forall k :: 0 <= k < |coins.events| ==> coins.events[k].CoinCollected?)
            && (forall k :: 0 <= k < |fight.events| ==> fight.events[k].EnemyDefeated?)
            && (goal.events == [] || goal.events == [GoalReached])
  {
    var patrolled := PatrolEnemies(PickUpCoins(CheckCollisions(MovePlayer(w, input).world)).world);
    FightOutcome(patrolled, |patrolled.enemies|);
  }

  /** The jump sound plays exactly when a playing tick sees the jump input on a grounded player. */
  lemma JumpEvent(w: World, input: Input)
    ensures Jumped in Tick(w, input).events <==> w.mode == Playing && input.jump && w.player.isGrounded
  {
    if w.mode == Playing {
      EventKinds(w, input);
      var moved := MovePlayer(w, input);
      var coins := PickUpCoins(CheckCollisions(moved.world));
      var fight := FightEnemies(PatrolEnemies(coins.world));
      var goal := ReachGoal(FollowCamera(fight.world));
      assert Jumped !in coins.events + fight.events + goal.events;
    }
  }

  /** GoalReached is the last event of a tick and occurs nowhere else in it. */
  lemma GoalLast(front: seq<Event>, gs: seq<Event>)
    requires GoalReached !in front
    requires gs == [] || gs == [GoalReached]
    ensures var evs := front + gs;
            GoalReached in evs ==>
              gs == [GoalReached] && evs[|evs| - 1] == GoalReached && evs[..|evs| - 1] == front
  {
    var evs := front + gs;
    if gs == [] {
      assert evs == front;
    } else {
      assert evs[..|evs| - 1] == front;
    }
  }

  /** With a spawn point outside the goal zone, only a tick without an enemy hit can reach the goal, and only if it was not reached yet. */
  lemma GoalNeedsNoHit(w: World, input: Input)
    requires LayoutOk(w)
    ensures var patrolled := PatrolEnemies(PickUpCoins(CheckCollisions(MovePlayer(w, input).world)).world);
            var fight := FightEnemies(patrolled);
            ReachGoal(FollowCamera(fight.world)).events == [GoalReached] ==> !fight.hit && !w.goal.isReached
  {
    var patrolled := PatrolEnemies(PickUpCoins(CheckCollisions(MovePlayer(w, input).world)).world);
    FightOutcome(patrolled, |patrolled.enemies|);
  }

  /** The goal event comes at most once per tick, last, and only while playing with the goal not yet reached. */
  lemma GoalOnce(w: World, input: Input)
    requires LayoutOk(w)
    ensures var evs := Tick(w, input).events;
            GoalReached in evs ==>
              && w.mode == Playing && !w.goal.isReached
              && evs[|evs| - 1] == GoalReached && GoalReached !in evs[..|evs| - 1]
  {
    if w.mode == Playing {
      EventKinds(w, input);
      GoalNeedsNoHit(w, input);
      var moved := MovePlayer(w, input);
      var coins := PickUpCoins(CheckCollisions(moved.world));
      var fight := FightEnemies(PatrolEnemies(coins.world));
      var goal := ReachGoal(FollowCamera(fight.world));
      var front := moved.events + coins.events + fight.events;
      assert GoalReached !in front by {
        assert GoalReached !in moved.events;
        assert GoalReached !in coins.events;
        assert GoalReached !in fight.events;
      }
      GoalLast(front, goal.events);
    }
  }

  /** Entering the cleared mode: only through the goal, with the clear time taken before this frame is counted. */
  lemma GoalClears(w: World, input: Input)
    requires LayoutOk(w) && w.mode == Playing
    ensures var r := Tick(w, input);
            r.world.mode == Cleared ==>
              && r.reset == NoReset && GoalReached in r.events && r.world.goal.isReached
              && r.world.clearTime == 0
              && r.world.clearElapsedFrames == w.elapsedFrames
              && r.world.elapsedFrames == w.elapsedFrames + 1
  {
    var r := Tick(w, input);
    if r.world.mode == Cleared {
      ResetTick(w, input);
      var moved := MovePlayer(w, input);
      var coins := PickUpCoins(CheckCollisions(moved.world));
      var patrolled := PatrolEnemies(coins.world);
      FightOutcome(patrolled, |patrolled.enemies|);
      EventKinds(w, input);
    }
  }

  // ---------------------------------------------------------------- the cleared mode

  /** A cleared tick emits nothing; unless restarted it changes only the clear counter and the flag, which is lowered by FlagStep while it is less than poleHeight - FlagMargin below the pole top; a restart resets. */
  lemma ClearedTickLaws(w: World, input: Input)
    requires w.mode == Cleared
    ensures var r := Tick(w, input);
            && r.events == []
            && (input.restart ==> r.reset == Restarted && r.world == Reset(w))
            && (!input.restart ==>
                  && r.reset == NoReset
                  && r.world == w.(clearTime := w.clearTime + 1, goal := w.goal.(flagHeight := r.world.goal.flagHeight))
                  && (w.goal.flagHeight < w.goal.poleHeight - FlagMargin ==> r.world.goal.flagHeight == w.goal.flagHeight + FlagStep)
                  && (w.goal.flagHeight >= w.goal.poleHeight - FlagMargin ==> r.world.goal.flagHeight == w.goal.flagHeight))
  {
    var counted := w.(clearTime := w.clearTime + 1);
    var lowered := if counted.goal.flagHeight < counted.goal.poleHeight - FlagMargin
                   then counted.(goal := counted.goal.(flagHeight := counted.goal.flagHeight + FlagStep))
                   else counted;
    if input.restart {
      ResetDependsOnlyOnLayout(lowered, w);
    }
  }

  const NoKeys: Input := Input(false, false, false, false)

  /** n cleared ticks with Space released. */
  function ClearedRun(w: World, n: nat): World
    decreases n
  {
    if n == 0 then w else ClearedTick(ClearedRun(w, n - 1), false)
  }

  /** In the cleared mode a tick with no key held is the cleared tick without restart, and stays cleared. */
  lemma IdleClearedTick(u: World)
    requires u.mode == Cleared
    ensures Tick(u, NoKeys).world == ClearedTick(u, false)
    ensures ClearedTick(u, false).mode == Cleared
  {
  }

  /** On the level's 150-high pole the flag is lowered 2 further from the pole top per cleared tick, from 0 until 130. */
  lemma {:induction false} FlagLowers(w: World, n: nat)
    requires w.mode == Cleared && w.goal.flagHeight == 0.0 && w.goal.poleHeight == GoalPoleHeight
    ensures var v := ClearedRun(w, n);
            && v.goal.flagHeight == (if n <= 65 then 2.0 * n as real else 130.0)
            && v == w.(clearTime := w.clearTime + n, goal := w.goal.(flagHeight := v.goal.flagHeight))
    decreases n
  {
    if n > 0 {
      FlagLowers(w, n - 1);
      var u := ClearedRun(w, n - 1);
      if n <= 65 {
        assert u.goal.flagHeight == 2.0 * (n - 1) as real;
      } else {
        assert u.goal.flagHeight == 130.0;
      }
    }
  }
}

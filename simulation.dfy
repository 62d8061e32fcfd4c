/**
 * The whole game state as a value and one tick of it: the playing tick's stages in the source's
 * order, the cleared tick, the single reset routine, the level NewGame builds, and what a tick keeps.
 */
module Simulation {
  import opened Geometry
  import opened Entities
  import opened Physics
  import opened Actors

  datatype Mode = Playing | Cleared

  datatype World = World(
    player: Player,
    platforms: seq<Platform>,
    enemies: seq<Enemy>,
    coins: seq<Coin>,
    goal: Goal,
    mode: Mode,
    clearTime: nat,
    elapsedFrames: nat,
    clearElapsedFrames: nat,
    cameraX: real,
    score: nat)

  /** A stage's new world and the events it emitted. */
  datatype Staged = Staged(world: World, events: seq<Event>)

  /** Why a tick went back to the start, if it did. */
  datatype ResetCause = NoReset | EnemyHit | Fell | Restarted

  datatype TickResult = TickResult(world: World, events: seq<Event>, reset: ResetCause)

  // ---------------------------------------------------------------- reset

  function RespawnAll(es: seq<Enemy>): (r: seq<Enemy>)
    ensures |r| == |es|
    ensures forall i :: 0 <= i < |es| ==> r[i] == Respawn(es[i])
  {
    seq(|es|, i requires 0 <= i < |es| => Respawn(es[i]))
  }

  function ClearAll(cs: seq<Coin>): (r: seq<Coin>)
    ensures |r| == |cs|
    ensures forall i :: 0 <= i < |cs| ==> r[i] == cs[i].(collected := false)
  {
    seq(|cs|, i requires 0 <= i < |cs| => cs[i].(collected := false))
  }

  /** resetToStart: the one routine behind a fall, an enemy hit and a restart. */
  function Reset(w: World): (r: World)
    ensures r.mode == Playing && r.clearTime == 0 && r.elapsedFrames == 0 && r.clearElapsedFrames == 0
    ensures r.score == 0 && r.cameraX == 0.0
    ensures r.player == w.player.(x := SpawnX, y := SpawnY, vx := 0.0, vy := 0.0, isGrounded := false,
                                  state := Idle, animFrame := 0, animCounter := 0)
    ensures r.goal == w.goal.(isReached := false, flagHeight := 0.0)
    ensures r.platforms == w.platforms
    ensures |r.enemies| == |w.enemies| && |r.coins| == |w.coins|
    ensures forall i :: 0 <= i < |w.enemies| ==>
              r.enemies[i].isAlive && r.enemies[i].x == w.enemies[i].initialX &&
              r.enemies[i].y == w.enemies[i].initialY && r.enemies[i].vx == w.enemies[i].initialVx &&
              SameEnemyLayout(r.enemies[i], w.enemies[i])
    ensures forall i :: 0 <= i < |w.coins| ==>
              !r.coins[i].collected && SameCoinLayout(r.coins[i], w.coins[i])
  {
    w.(mode := Playing, clearTime := 0, elapsedFrames := 0, clearElapsedFrames := 0,
       player := w.player.(x := SpawnX, y := SpawnY, vx := 0.0, vy := 0.0, isGrounded := false,
                           state := Idle, animFrame := 0, animCounter := 0),
       cameraX := 0.0, score := 0,
       goal := w.goal.(isReached := false, flagHeight := 0.0),
       enemies := RespawnAll(w.enemies),
       coins := ClearAll(w.coins))
  }

  /** What an enemy keeps whatever happens to it: size, patrol range and spawn values. */
  predicate SameEnemyLayout(a: Enemy, b: Enemy)
  {
    a.width == b.width && a.height == b.height && a.leftBound == b.leftBound && a.rightBound == b.rightBound &&
    a.initialX == b.initialX && a.initialY == b.initialY && a.initialVx == b.initialVx
  }

  predicate SameCoinLayout(a: Coin, b: Coin)
  {
    a.x == b.x && a.y == b.y && a.radius == b.radius
  }

  /** Two worlds that agree on everything the reset routine does not overwrite. */
  predicate SameLayout(w: World, v: World)
  {
    && w.platforms == v.platforms
    && w.player.isFacingRight == v.player.isFacingRight
    && |w.enemies| == |v.enemies|
    && (forall i :: 0 <= i < |w.enemies| ==> SameEnemyLayout(w.enemies[i], v.enemies[i]))
    && |w.coins| == |v.coins|
    && (forall i :: 0 <= i < |w.coins| ==> SameCoinLayout(w.coins[i], v.coins[i]))
    && w.goal.x == v.goal.x && w.goal.y == v.goal.y && w.goal.poleHeight == v.goal.poleHeight
  }

  /** The reset's result depends on nothing but the layout: the routine has no partial variant. */
  lemma ResetDependsOnlyOnLayout(w: World, v: World)
    requires SameLayout(w, v)
    ensures Reset(w) == Reset(v)
  {
    assert RespawnAll(w.enemies) == RespawnAll(v.enemies);
    assert ClearAll(w.coins) == ClearAll(v.coins);
  }

  lemma ResetKeepsLayout(w: World)
    ensures SameLayout(Reset(w), w)
  {
  }

  /** Resetting twice is resetting once. */
  lemma ResetIdempotent(w: World)
    ensures Reset(Reset(w)) == Reset(w)
  {
    ResetKeepsLayout(w);
    ResetDependsOnlyOnLayout(Reset(w), w);
  }

  // ---------------------------------------------------------------- the playing tick's stages

  /** Input, jump, gravity, animation and the position update. */
  function MovePlayer(w: World, input: Input): (r: Staged)
    ensures r.events == [Jumped] || r.events == []
    ensures r.events == [Jumped] <==> input.jump && w.player.isGrounded
  {
    var s := Steer(w.player, input);
    Staged(w.(player := Control(w.player, input)), if s.jumped then [Jumped] else [])
  }

  function CheckCollisions(w: World): World
  {
    w.(player := Collide(w.player, w.platforms))
  }

  function CentreX(p: Player): real { p.x + PlayerWidth / 2.0 }

  function CentreY(p: Player): real { p.y + PlayerHeight / 2.0 }

  /** Coin pickup against the player's centre after collisions. */
  function PickUpCoins(w: World): (r: Staged)
    ensures r.world == w.(coins := r.world.coins, score := r.world.score)
    ensures r.world.score == w.score + CoinReward * |r.events|
    ensures forall k :: 0 <= k < |r.events| ==> r.events[k].CoinCollected?
  {
    var s := CollectCoins(w.coins, CentreX(w.player), CentreY(w.player), |w.coins|);
    Staged(w.(coins := s.coins, score := w.score + s.gain), s.events)
  }

  function PatrolEnemies(w: World): World
  {
    w.(enemies := PatrolAll(w.enemies))
  }

  function EnemyBox(e: Enemy): Box
  {
    Box(e.x, e.x + e.width, e.y, e.y + e.height)
  }

  /** Contact from above: the player's bottom is above the enemy's middle and the player is falling. */
  predicate Stomps(p: Player, e: Enemy)
  {
    p.y + PlayerHeight < e.y + e.height / 2.0 && p.vy > 0.0
  }

  /** The player-enemy scan so far; `hit` records that a reset ended it. */
  datatype Fight = Fight(world: World, events: seq<Event>, hit: bool)

  /** One enemy of the contact loop, read as it is after the earlier enemies were handled. */
  function FightStep(f: Fight, i: nat): (r: Fight)
    requires i < |f.world.enemies|
    ensures var e := f.world.enemies[i];
            !e.isAlive || !Overlaps(PlayerBox(f.world.player), EnemyBox(e)) ==> r == f
    ensures var e := f.world.enemies[i];
            e.isAlive && Overlaps(PlayerBox(f.world.player), EnemyBox(e)) && Stomps(f.world.player, e) ==>
              !r.hit && r.events == f.events + [EnemyDefeated(i)] &&
              r.world.enemies == f.world.enemies[i := e.(isAlive := false)] &&
              r.world.score == f.world.score + StompReward && r.world.player.vy == StompBounce
    ensures var e := f.world.enemies[i];
            e.isAlive && Overlaps(PlayerBox(f.world.player), EnemyBox(e)) && !Stomps(f.world.player, e) ==>
              r.hit && r.world == Reset(f.world) && r.events == f.events
  {
    var e := f.world.enemies[i];
    var p := f.world.player;
    if !e.isAlive || !Overlaps(PlayerBox(p), EnemyBox(e)) then f
    else if Stomps(p, e) then
      Fight(f.world.(enemies := f.world.enemies[i := e.(isAlive := false)],
                     score := f.world.score + StompReward,
                     player := p.(vy := StompBounce)),
            f.events + [EnemyDefeated(i)], false)
    else Fight(Reset(f.world), f.events, true)
  }

  /** The first n enemies of the contact loop; a hazard hit resets and ends the loop. */
  function FightScan(w: World, n: nat): (r: Fight)
    requires n <= |w.enemies|
    ensures |r.world.enemies| == |w.enemies|
    decreases n
  {
    if n == 0 then Fight(w, [], false)
    else
      var f := FightScan(w, n - 1);
      if f.hit then f else FightStep(f, n - 1)
  }

  function FightEnemies(w: World): Fight
  {
    FightScan(w, |w.enemies|)
  }

  /** v is w after some stomps: only the player's vertical speed, enemies' liveness and the score differ. */
  predicate OnlyStomps(w: World, v: World)
  {
    && v == w.(player := w.player.(vy := v.player.vy), enemies := v.enemies, score := v.score)
    && (v.player.vy == w.player.vy || v.player.vy == StompBounce)
    && |v.enemies| == |w.enemies|
    && forall j :: 0 <= j < |w.enemies| ==>
         v.enemies[j] == w.enemies[j] || (w.enemies[j].isAlive && v.enemies[j] == w.enemies[j].(isAlive := false))
  }

  /** Once the scan has reset, the rest of the loop does not run. */
  lemma {:induction false} FightStaysHit(w: World, k: nat, n: nat)
    requires k <= n <= |w.enemies|
    requires FightScan(w, k).hit
    ensures FightScan(w, n) == FightScan(w, k)
    decreases n
  {
    if n > k {
      FightStaysHit(w, k, n - 1);
    }
  }

  /** The contact loop so far either reset the world, or only stomped, each stomp announced. */
  predicate FoughtSoFar(w: World, f: Fight, n: nat)
  {
    && (f.hit ==> f.world == Reset(w))
    && (!f.hit ==> OnlyStomps(w, f.world) && f.world.score == w.score + StompReward * |f.events|)
    && (!f.hit && f.events == [] ==> f.world == w)
    && (forall k :: 0 <= k < |f.events| ==> f.events[k].EnemyDefeated? && f.events[k].enemy < n)
  }

  lemma FightStepOutcome(w: World, f: Fight, i: nat)
    requires i < |w.enemies| && |f.world.enemies| == |w.enemies|
    requires !f.hit && FoughtSoFar(w, f, i)
    ensures FoughtSoFar(w, FightStep(f, i), i + 1)
  {
    var e := f.world.enemies[i];
    var p := f.world.player;
    var r := FightStep(f, i);
    if e.isAlive && Overlaps(PlayerBox(p), EnemyBox(e)) {
      if Stomps(p, e) {
        assert e == w.enemies[i];
        forall j | 0 <= j < |w.enemies|
          ensures r.world.enemies[j] == w.enemies[j] ||
                  (w.enemies[j].isAlive && r.world.enemies[j] == w.enemies[j].(isAlive := false))
        {
          if j != i {
            assert r.world.enemies[j] == f.world.enemies[j];
          }
        }
        assert OnlyStomps(w, r.world);
      } else {
        assert SameLayout(f.world, w);
        ResetDependsOnlyOnLayout(f.world, w);
      }
    }
  }

  /**
   * The contact loop either ends in the reset (and then the world is Reset(w)), or it only stomped:
   * each stomp kills one live enemy, adds StompReward and announces that enemy.
   */
  lemma {:induction false} FightOutcome(w: World, n: nat)
    requires n <= |w.enemies|
    ensures FoughtSoFar(w, FightScan(w, n), n)
    decreases n
  {
    if n > 0 {
      FightOutcome(w, n - 1);
      var f := FightScan(w, n - 1);
      if !f.hit {
        FightStepOutcome(w, f, n - 1);
      }
    }
  }

  /** At most one stomp per tick: a stomp makes the player rise, and a rising player cannot stomp. */
  lemma {:induction false} AtMostOneStomp(w: World, n: nat)
    requires n <= |w.enemies|
    ensures |FightScan(w, n).events| <= 1
    ensures !FightScan(w, n).hit && |FightScan(w, n).events| == 1 ==> FightScan(w, n).world.player.vy == StompBounce
    decreases n
  {
    if n > 0 {
      AtMostOneStomp(w, n - 1);
    }
  }

  /** A player who is not falling stomps nobody: the loop either resets or leaves the world as it was. */
  lemma {:induction false} NoStompUnlessFalling(w: World, n: nat)
    requires n <= |w.enemies| && w.player.vy <= 0.0
    ensures FightScan(w, n).events == []
    ensures !FightScan(w, n).hit ==> FightScan(w, n).world == w
    decreases n
  {
    if n > 0 {
      NoStompUnlessFalling(w, n - 1);
    }
  }

  /** Camera from the unclamped x, then the stage clamp on the player. */
  function FollowCamera(w: World): (r: World)
    ensures 0.0 <= r.cameraX <= CameraMax && 0.0 <= r.player.x <= PlayerXMax
    ensures r.cameraX == ClampTo(w.player.x - ScreenWidth / 2.0, 0.0, CameraMax)
    ensures r.player.x == ClampTo(w.player.x, 0.0, PlayerXMax)
    ensures 0.0 <= w.player.x <= PlayerXMax ==> r.player.x == w.player.x
    ensures r == w.(cameraX := r.cameraX, player := w.player.(x := r.player.x))
  {
    var targetX := ClampTo(w.player.x - ScreenWidth / 2.0, 0.0, CameraMax);
    w.(cameraX := targetX, player := w.player.(x := ClampTo(w.player.x, 0.0, PlayerXMax)))
  }

  /** The player's horizontal span meets the zone at the goal's x (edges included). */
  predicate InGoalZone(p: Player, g: Goal)
  {
    p.x + PlayerWidth >= g.x && p.x <= g.x + GoalZoneWidth
  }

  /** The goal check: once only, it switches to Cleared and pays for every coin left. */
  function ReachGoal(w: World): (r: Staged)
    ensures r.events == (if !w.goal.isReached && InGoalZone(w.player, w.goal) then [GoalReached] else [])
    ensures r.events == [] ==> r.world == w
    ensures r.events != [] ==>
              r.world == w.(goal := w.goal.(isReached := true), mode := Cleared, clearTime := 0,
                            clearElapsedFrames := w.elapsedFrames,
                            score := w.score + GoalBonusPerCoin * Uncollected(w.coins))
  {
    if !w.goal.isReached && InGoalZone(w.player, w.goal) then
      Staged(w.(goal := w.goal.(isReached := true), clearElapsedFrames := w.elapsedFrames, mode := Cleared,
                clearTime := 0, score := w.score + Uncollected(w.coins) * GoalBonusPerCoin),
             [GoalReached])
    else Staged(w, [])
  }

  predicate FellOut(w: World)
  {
    w.player.y > ScreenHeight
  }

  /** A tick in the playing mode. */
  function PlayingTick(w: World, input: Input): TickResult
  {
    var moved := MovePlayer(w, input);
    var collided := CheckCollisions(moved.world);
    var coins := PickUpCoins(collided);
    var patrolled := PatrolEnemies(coins.world);
    var fight := FightEnemies(patrolled);
    var framed := FollowCamera(fight.world);
    var goal := ReachGoal(framed);
    var landed := if FellOut(goal.world) then Reset(goal.world) else goal.world;
    TickResult(landed.(elapsedFrames := landed.elapsedFrames + 1),
               moved.events + coins.events + fight.events + goal.events,
               if FellOut(goal.world) then Fell else if fight.hit then EnemyHit else NoReset)
  }

  /** A tick in the cleared mode: count, lower the flag while it is less than poleHeight - FlagMargin below the pole top, restart on request. */
  function ClearedTick(w: World, restart: bool): World
  {
    var counted := w.(clearTime := w.clearTime + 1);
    var lowered := if counted.goal.flagHeight < counted.goal.poleHeight - FlagMargin
                   then counted.(goal := counted.goal.(flagHeight := counted.goal.flagHeight + FlagStep))
                   else counted;
    if restart then Reset(lowered) else lowered
  }

  /** Update: one frame in whichever mode the game is in. */
  function Tick(w: World, input: Input): TickResult
  {
    if w.mode == Cleared then TickResult(ClearedTick(w, input.restart), [], if input.restart then Restarted else NoReset)
    else PlayingTick(w, input)
  }

  // ---------------------------------------------------------------- the level NewGame builds

  const GoalPoleHeight: real := 150.0

  function Ground(): Platform { Platform(0.0, 550.0, StageWidth, 50.0) }

  function Ledge(x: real, y: real, width: real): Platform { Platform(x, y, width, 20.0) }

  function NewPlatforms(): seq<Platform>
  {
    [Ground(),
     Ledge(200.0, 450.0, 150.0), Ledge(400.0, 350.0, 150.0), Ledge(600.0, 450.0, 150.0), Ledge(350.0, 250.0, 100.0),
     Ledge(1000.0, 450.0, 150.0), Ledge(1200.0, 350.0, 150.0), Ledge(1400.0, 450.0, 150.0), Ledge(1150.0, 250.0, 100.0),
     Ledge(1800.0, 450.0, 150.0), Ledge(2000.0, 350.0, 150.0), Ledge(2200.0, 450.0, 150.0), Ledge(1950.0, 250.0, 100.0)]
  }

  /** A 24x24 enemy spawned alive at (x, y) with speed vx, patrolling [left, right]. */
  function Spawned(x: real, y: real, vx: real, left: real, right: real): Enemy
  {
    Enemy(x, y, 24.0, 24.0, vx, left, right, true, x, y, vx)
  }

  function NewEnemies(): seq<Enemy>
  {
    [Spawned(250.0, 426.0, 2.0, 200.0, 326.0), Spawned(450.0, 326.0, -2.0, 400.0, 526.0),
     Spawned(650.0, 426.0, -2.0, 600.0, 726.0), Spawned(375.0, 226.0, 1.5, 350.0, 426.0),
     Spawned(1050.0, 426.0, -2.0, 1000.0, 1126.0), Spawned(1250.0, 326.0, 2.0, 1200.0, 1326.0),
     Spawned(1450.0, 426.0, -2.0, 1400.0, 1526.0), Spawned(1175.0, 226.0, 1.5, 1150.0, 1226.0),
     Spawned(1850.0, 426.0, 2.0, 1800.0, 1926.0), Spawned(2050.0, 326.0, -2.0, 2000.0, 2126.0),
     Spawned(2250.0, 426.0, -2.0, 2200.0, 2326.0), Spawned(1975.0, 226.0, 1.5, 1950.0, 2026.0)]
  }

  /** An uncollected coin of radius 12 at (x, y). */
  function FreshCoin(x: real, y: real): Coin { Coin(x, y, 12.0, false) }

  function NewCoins(): seq<Coin>
  {
    [FreshCoin(150.0, 500.0), FreshCoin(280.0, 410.0), FreshCoin(350.0, 410.0), FreshCoin(480.0, 310.0), FreshCoin(520.0, 310.0),
     FreshCoin(680.0, 410.0), FreshCoin(400.0, 210.0), FreshCoin(250.0, 350.0), FreshCoin(550.0, 350.0), FreshCoin(400.0, 450.0),
     FreshCoin(100.0, 500.0), FreshCoin(950.0, 410.0), FreshCoin(1100.0, 310.0), FreshCoin(1300.0, 410.0), FreshCoin(1180.0, 210.0),
     FreshCoin(1750.0, 500.0), FreshCoin(1900.0, 410.0), FreshCoin(2100.0, 310.0), FreshCoin(2300.0, 500.0)]
  }

  /** NewGame without its audio: the player at the spawn point facing right, everything else at its zero value. */
  function NewGameWorld(): World
  {
    World(Player(SpawnX, SpawnY, 0.0, 0.0, false, true, 0, 0, Unset),
          NewPlatforms(), NewEnemies(), NewCoins(),
          Goal(StageWidth - 25.0, 450.0, GoalPoleHeight, 0.0, false),
          Playing, 0, 0, 0, 0.0, 0)
  }

  // ---------------------------------------------------------------- what every tick keeps

  /** Facts no tick changes: sound patrol ranges, a pole tall enough for its flag, a spawn point outside the goal zone. */
  predicate LayoutOk(w: World)
  {
    && (forall i :: 0 <= i < |w.enemies| ==> w.enemies[i].leftBound <= w.enemies[i].initialX <= w.enemies[i].rightBound)
    && w.goal.poleHeight >= FlagMargin
    && SpawnX + PlayerWidth < w.goal.x
  }

  /** The state invariant of the game. */
  predicate Invariant(w: World)
  {
    && LayoutOk(w)
    && (forall i :: 0 <= i < |w.enemies| ==> InBounds(w.enemies[i]))
    && 0.0 <= w.cameraX <= CameraMax
    && 0.0 <= w.player.x <= PlayerXMax
    && w.player.vy <= MaxFallSpeed
    && AnimOk(w.player)
    && 0.0 <= w.goal.flagHeight < w.goal.poleHeight - FlagMargin + FlagStep
    && (w.mode == Cleared <==> w.goal.isReached)
  }

  lemma NewGameInvariant()
    ensures Invariant(NewGameWorld())
  {
  }
}

/**
 * The platformer's Game object: its fields are updated in place by Update and the reset routine,
 * the enemy and coin slices are arrays changed element by element. Every method is proved to do
 * to the game exactly what the matching function of Simulation does to the game's value.
 */
module Platformer {
  import opened Geometry
  import opened Entities
  import opened Physics
  import opened Actors
  import Sim = Simulation
  import Properties

  class Game {
    var player: Player
    const platforms: seq<Platform>
    const enemies: array<Enemy>
    const coins: array<Coin>
    var goal: Goal
    var gameState: Sim.Mode
    var clearTime: nat
    var elapsedFrames: nat
    var clearElapsedFrames: nat
    var cameraX: real
    var score: nat

    /** The game as a value. */
    ghost function State(): Sim.World
      reads this, enemies, coins
    {
      Sim.World(player, platforms, enemies[..], coins[..], goal, gameState,
                clearTime, elapsedFrames, clearElapsedFrames, cameraX, score)
    }

    ghost predicate Valid()
      reads this, enemies, coins
    {
      Sim.Invariant(State())
    }

    /** NewGame: the level, the player at the spawn point facing right, the playing mode. */
    constructor ()
      ensures State() == Sim.NewGameWorld()
      ensures Valid()
      ensures fresh(enemies) && fresh(coins)
    {
      var es := Sim.NewEnemies();
      var cs := Sim.NewCoins();
      player := Player(SpawnX, SpawnY, 0.0, 0.0, false, true, 0, 0, Unset);
      platforms := Sim.NewPlatforms();
      enemies := new Enemy[|es|](i requires 0 <= i < |es| => es[i]);
      coins := new Coin[|cs|](i requires 0 <= i < |cs| => cs[i]);
      goal := Goal(StageWidth - 25.0, 450.0, Sim.GoalPoleHeight, 0.0, false);
      gameState := Sim.Playing;
      clearTime := 0;
      elapsedFrames := 0;
      clearElapsedFrames := 0;
      cameraX := 0.0;
      score := 0;
      new;
      assert enemies[..] == es;
      assert coins[..] == cs;
      Sim.NewGameInvariant();
    }

    /** Update: one frame, in the cleared mode or in the playing mode; the result lists the sounds played. */
    method Update(input: Input) returns (events: seq<Event>)
      modifies this, enemies, coins
      ensures var r := Sim.Tick(old(State()), input);
              State() == r.world && events == r.events
      ensures old(Valid()) ==> Valid()
    {
      if Valid() {
        Properties.TickKeepsInvariant(State(), input);
      }
      if gameState == Sim.Cleared {
        clearTime := clearTime + 1;
        if goal.flagHeight < goal.poleHeight - FlagMargin {
          goal := goal.(flagHeight := goal.flagHeight + FlagStep);
        }
        if input.restart {
          ResetToStart();
        }
        events := [];
        return;
      }
      events := Play(input);
    }

    /** The playing frame: the blocks of Update in order, then the fall check and the frame count. */
    method Play(input: Input) returns (events: seq<Event>)
      modifies this, enemies, coins
      ensures var r := Sim.PlayingTick(old(State()), input);
              State() == r.world && events == r.events
    {
      ghost var w := State();
      var moved := MovePlayer(input);
      ghost var m := Sim.MovePlayer(w, input);
      CheckCollisions();
      ghost var collided := State();
      assert collided == Sim.CheckCollisions(m.world);
      var collected := PickUpCoins();
      ghost var c := Sim.PickUpCoins(collided);
      PatrolEnemies();
      ghost var patrolled := State();
      assert patrolled == Sim.PatrolEnemies(c.world);
      var stomped, hit := FightEnemies();
      ghost var f := Sim.FightEnemies(patrolled);
      FollowCamera();
      ghost var framed := State();
      assert framed == Sim.FollowCamera(f.world);
      var reached := ReachGoal();
      ghost var g := Sim.ReachGoal(framed);
      assert State() == g.world;
      if player.y > ScreenHeight {
        ResetGame();
      }
      elapsedFrames := elapsedFrames + 1;
      events := moved + collected + stomped + reached;
    }

    /** Horizontal input, the grounded-only jump, gravity with its cap, the animation and the move. */
    method MovePlayer(input: Input) returns (events: seq<Event>)
      modifies this
      ensures var s := Sim.MovePlayer(old(State()), input);
              State() == s.world && events == s.events
    {
      var p := player.(vx := 0.0);
      if input.left {
        p := p.(vx := -MoveSpeed, isFacingRight := false);
      }
      if input.right {
        p := p.(vx := MoveSpeed, isFacingRight := true);
      }
      events := [];
      if input.jump && p.isGrounded {
        p := p.(vy := JumpPower, isGrounded := false);
        events := [Jumped];
      }
      p := p.(vy := p.vy + Gravity);
      if p.vy > MaxFallSpeed {
        p := p.(vy := MaxFallSpeed);
      }
      assert p == Steer(player, input).player;
      if !p.isGrounded {
        p := p.(state := Jumping);
      } else if p.vx != 0.0 {
        p := p.(state := Walking, animCounter := p.animCounter + 1);
        if p.animCounter >= WalkPeriod {
          p := p.(animCounter := 0, animFrame := 1 - p.animFrame);
        }
      } else {
        p := p.(state := Idle, animFrame := 0, animCounter := 0);
      }
      player := p.(x := p.x + p.vx, y := p.y + p.vy);
    }

    /** checkCollisions: the player's edges are taken once, the velocity is read as each platform left it. */
    method CheckCollisions()
      modifies this
      ensures State() == Sim.CheckCollisions(old(State()))
    {
      var p := player.(isGrounded := false);
      var e := PlayerBox(player);
      var i := 0;
      while i < |platforms|
        invariant 0 <= i <= |platforms|
        invariant p == ResolveAll(player.(isGrounded := false), e, platforms[..i])
      {
        var b := PlatformBox(platforms[i]);
        if Overlaps(e, b) {
          if p.vy < 0.0 && e.top < b.bottom && e.bottom > b.bottom {
            p := p.(y := b.bottom, vy := 0.0);
          }
          if p.vy > 0.0 && e.bottom > b.top && e.top < b.top {
            p := p.(y := b.top - PlayerHeight, vy := 0.0, isGrounded := true);
          }
          if p.vx > 0.0 && e.right > b.left && e.left < b.left {
            p := p.(x := b.left - PlayerWidth);
          }
          if p.vx < 0.0 && e.left < b.right && e.right > b.right {
            p := p.(x := b.right);
          }
        }
        assert platforms[..i + 1][..i] == platforms[..i];
        i := i + 1;
      }
      assert platforms[..i] == platforms;
      player := p;
    }

    /** The coin loop: every uncollected coin in reach of the player's centre is collected for CoinReward. */
    method PickUpCoins() returns (events: seq<Event>)
      modifies this, coins
      ensures var s := Sim.PickUpCoins(old(State()));
              State() == s.world && events == s.events
    {
      ghost var cs := coins[..];
      var cx := player.x + PlayerWidth / 2.0;
      var cy := player.y + PlayerHeight / 2.0;
      var gained: nat := 0;
      events := [];
      var i := 0;
      while i < coins.Length
        modifies coins
        invariant 0 <= i <= coins.Length
        invariant var s := CollectCoins(cs, cx, cy, i);
                  coins[..] == s.coins && events == s.events && gained == s.gain
      {
        if !coins[i].collected {
          var dx := cx - coins[i].x;
          var dy := cy - coins[i].y;
          var reach := coins[i].radius + PlayerWidth / 2.0;
          if reach > 0.0 && dx * dx + dy * dy < reach * reach {
            coins[i] := coins[i].(collected := true);
            gained := gained + CoinReward;
            events := events + [CoinCollected(i)];
          }
        }
        i := i + 1;
      }
      score := score + gained;
    }

    /** The patrol loop over the live enemies. */
    method PatrolEnemies()
      modifies enemies
      ensures State() == Sim.PatrolEnemies(old(State()))
    {
      var i := 0;
      while i < enemies.Length
        invariant 0 <= i <= enemies.Length
        invariant forall j :: 0 <= j < i ==> enemies[j] == Patrol(old(enemies[j]))
        invariant forall j :: i <= j < enemies.Length ==> enemies[j] == old(enemies[j])
      {
        if enemies[i].isAlive {
          enemies[i] := enemies[i].(x := enemies[i].x + enemies[i].vx);
          if enemies[i].x <= enemies[i].leftBound {
            enemies[i] := enemies[i].(x := enemies[i].leftBound, vx := -enemies[i].vx);
          }
          if enemies[i].x >= enemies[i].rightBound {
            enemies[i] := enemies[i].(x := enemies[i].rightBound, vx := -enemies[i].vx);
          }
        }
        i := i + 1;
      }
      assert enemies[..] == PatrolAll(old(enemies[..]));
    }

    /** The contact loop: a stomp kills and bounces, any other contact with a live enemy resets and ends the loop. */
    method FightEnemies() returns (events: seq<Event>, hit: bool)
      modifies this, enemies, coins
      ensures var f := Sim.FightEnemies(old(State()));
              State() == f.world && events == f.events && hit == f.hit
    {
      ghost var w0 := State();
      events := [];
      hit := false;
      var i := 0;
      while i < enemies.Length
        invariant 0 <= i <= enemies.Length
        invariant Sim.FightScan(w0, i) == Sim.Fight(State(), events, false)
      {
        if enemies[i].isAlive && Overlaps(PlayerBox(player), Sim.EnemyBox(enemies[i])) {
          if Sim.Stomps(player, enemies[i]) {
            enemies[i] := enemies[i].(isAlive := false);
            score := score + StompReward;
            player := player.(vy := StompBounce);
            events := events + [EnemyDefeated(i)];
          } else {
            ResetGame();
            hit := true;
            assert Sim.FightScan(w0, i + 1) == Sim.Fight(State(), events, true);
            break;
          }
        }
        i := i + 1;
      }
      if hit {
        Sim.FightStaysHit(w0, i + 1, |w0.enemies|);
      }
    }

    /** The camera follows the unclamped x; then the player is kept on the stage. */
    method FollowCamera()
      modifies this
      ensures State() == Sim.FollowCamera(old(State()))
    {
      var targetX := player.x - ScreenWidth / 2.0;
      if targetX < 0.0 {
        targetX := 0.0;
      }
      if targetX > StageWidth - ScreenWidth {
        targetX := StageWidth - ScreenWidth;
      }
      cameraX := targetX;
      if player.x < 0.0 {
        player := player.(x := 0.0);
      }
      if player.x > StageWidth - PlayerWidth {
        player := player.(x := StageWidth - PlayerWidth);
      }
    }

    /** The goal check: the first touch of the goal zone clears the stage and pays for the coins left. */
    method ReachGoal() returns (events: seq<Event>)
      modifies this
      ensures var s := Sim.ReachGoal(old(State()));
              State() == s.world && events == s.events
    {
      events := [];
      if !goal.isReached && player.x + PlayerWidth >= goal.x && player.x <= goal.x + GoalZoneWidth {
        goal := goal.(isReached := true);
        clearElapsedFrames := elapsedFrames;
        gameState := Sim.Cleared;
        clearTime := 0;
        var remaining := CountRemainingCoins();
        score := score + remaining * GoalBonusPerCoin;
        events := [GoalReached];
      }
    }

    /** The coins not yet collected. */
    method CountRemainingCoins() returns (n: nat)
      ensures n == Uncollected(coins[..])
      ensures n <= coins.Length
    {
      n := 0;
      var i := 0;
      while i < coins.Length
        invariant 0 <= i <= coins.Length
        invariant n == Uncollected(coins[..i])
      {
        if !coins[i].collected {
          n := n + 1;
        }
        assert coins[..i + 1][..i] == coins[..i];
        i := i + 1;
      }
      assert coins[..i] == coins[..];
    }

    /** resetGame: the fall and the enemy hit go through the same routine as the restart. */
    method ResetGame()
      modifies this, enemies, coins
      ensures State() == Sim.Reset(old(State()))
    {
      ResetToStart();
    }

    /** resetToStart: the playing mode, zero counters and score, the player at the spawn point, enemies respawned, coins back. */
    method ResetToStart()
      modifies this, enemies, coins
      ensures State() == Sim.Reset(old(State()))
    {
      ghost var w := State();
      gameState := Sim.Playing;
      clearTime := 0;
      elapsedFrames := 0;
      clearElapsedFrames := 0;
      player := player.(x := SpawnX, y := SpawnY, vx := 0.0, vy := 0.0, isGrounded := false,
                        state := Idle, animFrame := 0, animCounter := 0);
      cameraX := 0.0;
      score := 0;
      goal := goal.(isReached := false, flagHeight := 0.0);
      assert State() == Sim.Reset(w).(enemies := w.enemies, coins := w.coins);
      RespawnEnemies();
      UncollectCoins();
    }

    /** The reset's enemy loop: every enemy alive again at its spawn position and speed. */
    method RespawnEnemies()
      modifies enemies
      ensures enemies[..] == Sim.RespawnAll(old(enemies[..]))
    {
      var i := 0;
      while i < enemies.Length
        invariant 0 <= i <= enemies.Length
        invariant forall j :: 0 <= j < i ==> enemies[j] == Respawn(old(enemies[j]))
        invariant forall j :: i <= j < enemies.Length ==> enemies[j] == old(enemies[j])
      {
        enemies[i] := enemies[i].(isAlive := true, x := enemies[i].initialX, y := enemies[i].initialY,
                                  vx := enemies[i].initialVx);
        i := i + 1;
      }
    }

    /** The reset's coin loop: every coin uncollected again. */
    method UncollectCoins()
      modifies coins
      ensures coins[..] == Sim.ClearAll(old(coins[..]))
    {
      var i := 0;
      while i < coins.Length
        invariant 0 <= i <= coins.Length
        invariant forall j :: 0 <= j < i ==> coins[j] == old(coins[j]).(collected := false)
        invariant forall j :: i <= j < coins.Length ==> coins[j] == old(coins[j])
      {
        coins[i] := coins[i].(collected := false);
        i := i + 1;
      }
    }
  }
}

/** Constants, records, input and events of the platformer (great-mqrio-bros/main.go). */
module Entities {

  // Stage and physics constants.
  const ScreenWidth: real := 800.0
  const ScreenHeight: real := 600.0
  const StageWidth: real := 2400.0
  const PlayerWidth: real := 32.0
  const PlayerHeight: real := 48.0
  const Gravity: real := 0.5
  const JumpPower: real := -12.0
  const MoveSpeed: real := 4.0

  // Literals written inline in Update.
  const MaxFallSpeed: real := 15.0
  const StompBounce: real := -8.0
  const CoinReward: nat := 10
  const StompReward: nat := 100
  const GoalBonusPerCoin: nat := 50
  const WalkPeriod: int := 8
  const GoalZoneWidth: real := 30.0
  const FlagStep: real := 2.0
  const FlagMargin: real := 20.0

  // Spawn point used by the reset routine.
  const SpawnX: real := 100.0
  const SpawnY: real := 100.0

  /** Largest camera offset and largest player x. */
  const CameraMax: real := StageWidth - ScreenWidth
  const PlayerXMax: real := StageWidth - PlayerWidth

  /** The player's behaviour string; `Unset` is the empty string a fresh game starts with. */
  datatype PlayerState = Unset | Idle | Walking | Jumping

  datatype Player = Player(
    x: real, y: real,
    vx: real, vy: real,
    isGrounded: bool,
    isFacingRight: bool,
    animFrame: int,
    animCounter: int,
    state: PlayerState)

  /** A static platform; its display colour is not modelled. */
  datatype Platform = Platform(x: real, y: real, width: real, height: real)

  /** An enemy with its patrol range and the spawn values the reset restores. */
  datatype Enemy = Enemy(
    x: real, y: real, width: real, height: real,
    vx: real,
    leftBound: real, rightBound: real,
    isAlive: bool,
    initialX: real, initialY: real, initialVx: real)

  datatype Coin = Coin(x: real, y: real, radius: real, collected: bool)

  /** The goal pole; flagHeight is how far the flag has been lowered below the pole's top at y. */
  datatype Goal = Goal(x: real, y: real, poleHeight: real, flagHeight: real, isReached: bool)

  /** The keys the game polls. */
  datatype Keys = Keys(left: bool, a: bool, right: bool, d: bool, space: bool, up: bool, w: bool)

  /** What one tick reads from the keyboard. */
  datatype Input = Input(left: bool, right: bool, jump: bool, restart: bool)

  /** One-shot notifications; each stands for one sound the game plays. */
  datatype Event = Jumped | CoinCollected(coin: nat) | EnemyDefeated(enemy: nat) | GoalReached

  /** Left is Left or A, right is Right or D, jump is Space, Up or W, and restart is Space. */
  function InputOf(k: Keys): (r: Input)
    ensures r.left <==> k.left || k.a
    ensures r.right <==> k.right || k.d
    ensures r.jump <==> k.space || k.up || k.w
    ensures r.restart <==> k.space
    ensures r.restart ==> r.jump
  {
    Input(k.left || k.a, k.right || k.d, k.space || k.up || k.w, k.space)
  }

  /** Frame and counter of the two-phase walking animation stay in range. */
  predicate AnimOk(p: Player)
  {
    0 <= p.animFrame <= 1 && 0 <= p.animCounter < WalkPeriod
  }
}

# A verified model of a small platformer and an image captioner's colour parser

This project models two pieces of Go code:

- the per-frame logic of a side-scrolling platformer (`great-mqrio-bros/main.go`)
- the text options of a browser-side image captioner that writes a short text over a picture (`lgtm-generator/main.go`)

## The platformer

The player runs and jumps across a 2400-pixel stage of platforms. They collect coins, stomp or avoid patrolling enemies, and reach a goal flag. Reaching the flag puts the game in the cleared mode, where the flag is lowered down its pole and Space restarts the level.

The model has two layers.

**Values.** These modules describe the game as values:

- `Geometry`: boxes and clamps.
- `Entities`: constants, records, input and events.
- `Physics`: steering, gravity, animation and platform collisions.
- `Actors`: enemy patrol, respawn and coin pickup.
- `Simulation`: the whole game as a `World` value.
  - Each block of `Update` is a stage function, applied in the source's order.
  - The module also holds the cleared tick, the single reset routine, the level that `NewGame` builds, and the game's invariant.
- `Properties`: what a whole tick promises.
  - The invariant is kept.
  - What a reset tick ends in.
  - The camera and stage clamps and the frame counter.
  - The score: change equals the points of the events.
  - Which events can occur and when.
  - The cleared mode and the lowering flag.

**The object.** `Platformer.Game` is a class whose fields are the Go `Game` struct's fields:

- The enemy and coin slices are arrays, updated element by element.
- The player and the goal are records.
- `Update`, `CheckCollisions`, `ResetGame` and `ResetToStart` mutate the object as the source does.
  - `Update`'s blocks are methods of their own, with the same loops.
- Each method is proved to change the object exactly as its `Simulation` function changes the value `State()`.
  - So every lemma about `Simulation.Tick` holds of `Game.Update`.

Keyboard, sound and numbers:

- **Keyboard.** Polling becomes an `Input` record: left, right, jump and restart.
  - `Entities.InputOf` states how the polled keys map onto it.
- **Sound.** Each sound the game plays becomes an `Event` in the sequence that `Update` returns: jump, coin, stomp, goal.
- **Numbers.** Positions and speeds are `real`.
  - Every constant of the game is a multiple of 0.5, so this arithmetic is exact.
- **Coin pickup.** The source tests `Sqrt(dx*dx + dy*dy) < radius + 16`.
  - The model compares squares instead: `radius + 16 > 0 && dx*dx + dy*dy < (radius + 16)^2`.
  - These are equal for every radius, because a square root is never negative.

## The colour parser

`HexColor` models:

- `parseHexColor` on the colour string's bytes;
- the font-size default.

It proves:

- the parser's behaviour on every length;
- what happens to malformed digit pairs;
- that the `#` is optional;
- the round trip with a formatter, in both directions.

Because the parser never reports an error, the caller's white fallback cannot apply. That is recorded under "Findings".

## Model

| member | source | states |
|---|---|---|
| Geometry.Overlaps | great-mqrio-bros/main.go:439-440 | interiors intersect strictly, touching edges excluded, as the platform test here and the negated enemy test at main.go:317-318; no contract of its own: Physics.ResolvePlatform and Simulation.FightStep state its use |
| Geometry.ClampTo | great-mqrio-bros/main.go:340-355 | the clamped value lies in [lo, hi]; it is the value itself when inside, lo when below, hi when above |
| Entities.InputOf | great-mqrio-bros/main.go:209-227 | left is Left or A, right is Right or D, jump is Space, Up or W, restart is Space (so restart implies jump) |
| Physics.Steer | great-mqrio-bros/main.go:215-242 | vy never exceeds 15; a jump happens iff jump is held on the ground and then vy = -12 + 0.5 and the player is airborne; otherwise gravity adds 0.5 up to the cap; right wins over left for vx and facing; nothing else changes |
| Physics.Animate | great-mqrio-bros/main.go:244-258 | jumping iff airborne, walking iff grounded and moving, idle iff grounded and still (frame and counter reset); the frame/counter range is kept; nothing else changes |
| Physics.Control | great-mqrio-bros/main.go:215-262 | the new position is the old one plus the new velocity; vy is capped and the animation range is kept |
| Physics.WalkCycle | great-mqrio-bros/main.go:249-254 | walking from counter 0, the frame flips after exactly 8 ticks and stays until then |
| Physics.PlayerBox | great-mqrio-bros/main.go:427-430 | the player's edges x, x + 32, y, y + 48; no contract of its own: ResolvePlatform and Collide are stated over it |
| Physics.PlatformBox | great-mqrio-bros/main.go:433-436 | a platform's edges x, x + width, y, y + height; no contract of its own: ResolvePlatform is stated over it |
| Physics.HeadBump | great-mqrio-bros/main.go:443 | the head-bump test, moving up with the top inside the platform and the bottom below it; no contract of its own: ResolvePlatform states its effect |
| Physics.Landing | great-mqrio-bros/main.go:449 | the landing test, moving down with the bottom inside the platform and the top above it; no contract of its own: ResolvePlatform, CollideGroundedIffLanded and SupportedLands state its effect |
| Physics.HitsLeftSide | great-mqrio-bros/main.go:456 | the left-side test, moving right across the platform's left edge; no contract of its own: ResolvePlatform states its effect |
| Physics.HitsRightSide | great-mqrio-bros/main.go:461 | the right-side test, moving left across the platform's right edge; no contract of its own: ResolvePlatform states its effect |
| Physics.ResolvePlatform | great-mqrio-bros/main.go:432-462 | against edges taken before the loop: no overlap changes nothing; a head bump puts the top at the platform's bottom with vy 0; a landing puts the feet on the platform top with vy 0 and grounded; side hits push the player out; only x, y, vy, grounded change |
| Physics.ResolveAll | great-mqrio-bros/main.go:432-463 | the platform loop changes only x, y, vy and grounded, and vy is either kept or zeroed |
| Physics.ResolveAllGrounded | great-mqrio-bros/main.go:425-453 | the loop ends grounded iff it started grounded or some platform saw a landing |
| Physics.CollideGroundedIffLanded | great-mqrio-bros/main.go:424-453 | after checkCollisions the player is grounded iff some platform saw a landing, as the loop had left the player when it reached that platform |
| Physics.ResolveAllRests | great-mqrio-bros/main.go:444-453 | from a start that is grounded only with vy 0, a grounded result has vy 0 and either kept its y or stands exactly on some platform's top |
| Physics.GroundedStandsOnPlatform | great-mqrio-bros/main.go:424-453 | after checkCollisions a grounded player has vy 0 and y = top of some platform - 48 |
| Physics.ResolveAllFalling | great-mqrio-bros/main.go:443-453 | from a falling, airborne start the loop either lands the player with vy 0 or leaves it airborne with its vy |
| Physics.SupportedLands | great-mqrio-bros/main.go:444-453 | a falling, airborne player whose edges overlap platform k and meet its landing test is grounded with vy 0 after the loop |
| Physics.Collide | great-mqrio-bros/main.go:424-466 | checkCollisions (grounded cleared, edges taken once, every platform resolved); no contract of its own: CollideGroundedIffLanded, GroundedStandsOnPlatform and RestingStaysGrounded state what it does |
| Physics.RestingStaysGrounded | great-mqrio-bros/main.go:424-453 | a player standing still on a platform top who does not jump and still overlaps that platform horizontally after the sideways move, after the move of main.go:236-262 and the collision pass, is grounded with vy 0 (the rest of the tick is covered by Properties.RestingStaysGroundedTick) |
| Actors.Patrol | great-mqrio-bros/main.go:288-301 | a dead enemy is unchanged; only x and vx change, and vx keeps or flips its sign; a live one with leftBound <= rightBound ends inside them; a move strictly inside is taken as is; when leftBound < rightBound, reaching a bound stops it there and reverses vx |
| Actors.PatrolAll | great-mqrio-bros/main.go:288-301 | every enemy takes its own patrol step, in place |
| Actors.Respawn | great-mqrio-bros/main.go:414-419 | the enemy is alive at its initial x, y and vx; nothing else changes |
| Actors.InReach | great-mqrio-bros/main.go:274-277 | the coin test as a comparison of squares; no contract of its own: InReachIsDistanceTest states that it agrees with the source's square-root test |
| Actors.InReachIsDistanceTest | great-mqrio-bros/main.go:274-277 | for d the non-negative root of dx*dx + dy*dy, the squared test holds iff d < radius + 16 |
| Actors.Uncollected | great-mqrio-bros/main.go:364-369 | the number of uncollected coins is at most the number of coins |
| Actors.CollectCoins | great-mqrio-bros/main.go:267-285 | exactly the uncollected coins in reach become collected; the gain is 10 per event; each event names a coin that was pickable, and every pickable coin has its event |
| Actors.UncollectedAfterPickup | great-mqrio-bros/main.go:278-281 | collecting one uncollected coin lowers the count by one |
| Actors.CoinGainMatchesCollected | great-mqrio-bros/main.go:267-285 | a scan emits as many coin events as coins that became collected (the drop in the uncollected count) and gains 10 points per event |
| Actors.RescanAwardsNothing | great-mqrio-bros/main.go:270-273 | scanning the same coins again from the same place collects and awards nothing |
| Simulation.RespawnAll | great-mqrio-bros/main.go:414-419 | every enemy respawns, in place |
| Simulation.ClearAll | great-mqrio-bros/main.go:420-422 | every coin is uncollected again and otherwise unchanged |
| Simulation.Reset | great-mqrio-bros/main.go:393-422 | mode playing, counters, score and camera zero, the player at (100, 100) still, airborne, idle, animation 0 but facing kept; enemies respawned, coins uncollected, goal unreached with flag 0; platforms and enemy sizes and bounds kept |
| Simulation.ResetDependsOnlyOnLayout | great-mqrio-bros/main.go:393-422 | two worlds that agree on platforms, facing and the static enemy, coin and goal data reset to the same world |
| Simulation.ResetKeepsLayout | great-mqrio-bros/main.go:393-422 | the reset keeps platforms, facing and the static enemy, coin and goal data |
| Simulation.ResetIdempotent | great-mqrio-bros/main.go:393-422 | resetting twice is resetting once |
| Simulation.MovePlayer | great-mqrio-bros/main.go:215-262 | the jump event is emitted exactly when jump is held on the ground, and is the only possible event |
| Simulation.CheckCollisions | great-mqrio-bros/main.go:265 | the collision block: only the player changes, to Collide of the moved player; no contract of its own: the Physics lemmas about Collide and Game.CheckCollisions state it |
| Simulation.CentreX | great-mqrio-bros/main.go:268 | the player's centre x, x + 16; no contract of its own: CollectCoins and RescanAwardsNothing are stated from it |
| Simulation.CentreY | great-mqrio-bros/main.go:269 | the player's centre y, y + 24; no contract of its own: CollectCoins and RescanAwardsNothing are stated from it |
| Simulation.PickUpCoins | great-mqrio-bros/main.go:267-285 | only coins and score change; the score grows by 10 per coin event |
| Simulation.PatrolEnemies | great-mqrio-bros/main.go:287-301 | the patrol block: only the enemies change, to PatrolAll; no contract of its own: Actors.Patrol, PatrolAll and Properties.PatrolKeepsLayout state it |
| Simulation.EnemyBox | great-mqrio-bros/main.go:312-315 | an enemy's edges x, x + width, y, y + height; no contract of its own: FightStep is stated over it |
| Simulation.Stomps | great-mqrio-bros/main.go:323 | the stomp test (bottom above the enemy's middle while falling); no contract of its own: FightStep, AtMostOneStomp and NoStompUnlessFalling state its consequences |
| Simulation.FightStep | great-mqrio-bros/main.go:303-337 | a dead or non-overlapping enemy changes nothing; a stomp kills it, adds 100, sets vy to -8 and emits its event; any other contact resets the world and ends the loop |
| Simulation.FightScan | great-mqrio-bros/main.go:303-337 | the enemy loop keeps the number of enemies |
| Simulation.FightStaysHit | great-mqrio-bros/main.go:335-336 | after a reset no later enemy is examined |
| Simulation.FightOutcome | great-mqrio-bros/main.go:303-337 | the loop either ends in the reset of the world it started from, or it only killed live enemies, set vy to -8 and added 100 per emitted stomp event |
| Simulation.AtMostOneStomp | great-mqrio-bros/main.go:317-329 | a contact loop has at most one stomp, and after it the player's vy is -8 unless a later enemy resets the game |
| Simulation.NoStompUnlessFalling | great-mqrio-bros/main.go:303-337 | a player whose vy is not positive stomps nobody: the contact loop emits no event and either resets or changes nothing |
| Simulation.FightEnemies | great-mqrio-bros/main.go:303-337 | the contact block, the scan over every enemy; no contract of its own: FightOutcome, AtMostOneStomp, NoStompUnlessFalling and Properties.FightKeepsLayout state it |
| Simulation.FollowCamera | great-mqrio-bros/main.go:339-355 | the camera is the unclamped x - 400 clamped to [0, 1600]; then x is ClampTo(x, 0, 2368), so below 0 gives 0, above 2368 gives 2368 and inside is kept; nothing else changes |
| Simulation.InGoalZone | great-mqrio-bros/main.go:358-360 | the player's span meets the 30-pixel zone at the goal's x, edges included; no contract of its own: ReachGoal and Properties.GoalNeedsNoHit state its use |
| Simulation.ReachGoal | great-mqrio-bros/main.go:357-376 | the goal event fires iff the goal is unreached and the player's span meets the zone; then goal reached, mode cleared, clearTime 0, clearElapsedFrames = elapsedFrames and 50 per uncollected coin are added; otherwise nothing changes |
| Simulation.FellOut | great-mqrio-bros/main.go:379-381 | the fall test y > 600; no contract of its own: Properties.ResetTick states where a fall leads |
| Simulation.PlayingTick | great-mqrio-bros/main.go:214-385 | the playing frame, the blocks of Update in order, with the fall reset and the frame count; no contract of its own: the Properties lemmas state what it keeps and emits |
| Simulation.ClearedTick | great-mqrio-bros/main.go:204-212 | the cleared frame; no contract of its own: Properties.ClearedTickLaws and FlagLowers state it |
| Simulation.Tick | great-mqrio-bros/main.go:203-385 | Update in either mode; no contract of its own: TickKeepsInvariant, ScoreAccounting, ResetTick, EventKinds and the other Properties lemmas state it |
| Simulation.NewPlatforms | great-mqrio-bros/main.go:145-163 | the ground and twelve ledges of the level; no contract of its own: NewGameInvariant covers it |
| Simulation.NewEnemies | great-mqrio-bros/main.go:164-177 | the twelve 24x24 enemies, alive, with their ranges and spawn values; no contract of its own: NewGameInvariant covers it |
| Simulation.NewCoins | great-mqrio-bros/main.go:178-198 | the nineteen uncollected coins of radius 12; no contract of its own: NewGameInvariant covers it |
| Simulation.NewGameWorld | great-mqrio-bros/main.go:111-199 | NewGame without audio; no contract of its own: NewGameInvariant and Game.constructor state it |
| Simulation.NewGameInvariant | great-mqrio-bros/main.go:111-199 | the new game satisfies the game invariant |
| Properties.StagesKeepLayout | great-mqrio-bros/main.go:264-376 | no stage after the move (collisions, coins, patrol, contact, camera and goal) changes platforms, facing, or static enemy, coin and goal data |
| Properties.PickUpKeepsLayout | great-mqrio-bros/main.go:267-285 | the coin loop changes no static data |
| Properties.PatrolKeepsLayout | great-mqrio-bros/main.go:287-301 | the patrol loop changes no static data |
| Properties.FightKeepsLayout | great-mqrio-bros/main.go:303-337 | the contact loop, reset included, changes no static data |
| Properties.GoalKeepsLayout | great-mqrio-bros/main.go:339-376 | the camera, clamp and goal blocks change no static data |
| Properties.ResetInvariant | great-mqrio-bros/main.go:393-422 | the reset of a world satisfying LayoutOk (sound patrol ranges, a pole at least 20 high, and the spawn point left of the goal zone) satisfies the invariant |
| Properties.ResetTick | great-mqrio-bros/main.go:335-383 | given LayoutOk (sound patrol ranges, a pole at least 20 high, and the spawn point left of the goal zone), a playing tick that resets after a hit or a fall ends at the reset of the moved world with elapsedFrames 1: camera, clamp, goal check and frame count still run after the hit |
| Properties.RestingStaysGroundedTick | great-mqrio-bros/main.go:203-385 | a player standing still on a platform top who does not jump and still overlaps it horizontally after the sideways move ends every playing tick that does not reset grounded with vy 0 |
| Properties.TickFramesAndView | great-mqrio-bros/main.go:339-383 | after a playing tick 0 <= cameraX <= 1600, 0 <= x <= 2368, and elapsedFrames is one more, or 1 after a reset |
| Properties.FightKeepsEnemiesInBounds | great-mqrio-bros/main.go:287-337 | from a world satisfying the invariant, after patrol and contact every enemy is inside its patrol range |
| Properties.PlayingTickKeepsInvariant | great-mqrio-bros/main.go:215-383 | from a world satisfying the invariant, a playing tick keeps it |
| Properties.ClearedTickKeepsInvariant | great-mqrio-bros/main.go:204-212 | from a world satisfying the invariant, a cleared tick keeps it |
| Properties.TickKeepsInvariant | great-mqrio-bros/main.go:203-385 | from a world satisfying the invariant, every tick keeps sound patrol ranges, enemies within bounds, both clamps, vy <= 15, the animation range, a flag less than poleHeight - 20 + 2 below the pole top, and cleared iff the goal is reached |
| Properties.PointsOfTick | great-mqrio-bros/main.go:279-373 | an event list shaped as a tick's (at most a jump, then coins, then stomps, then at most the goal) is worth 10 per coin, 100 per stomp and 50 per coin left for the goal |
| Properties.ScoreAccounting | great-mqrio-bros/main.go:203-373 | a tick without a reset, in either mode, adds to the score exactly the points of the events it emits |
| Properties.CoinsStayCollected | great-mqrio-bros/main.go:203-285 | a tick without a reset, in either mode, never uncollects a coin, and no tick adds or drops coins |
| Properties.EventKinds | great-mqrio-bros/main.go:231-373 | a playing tick's events are the jump, then coin events, then stomp events, then at most the goal event |
| Properties.JumpEvent | great-mqrio-bros/main.go:227-234 | the jump sound plays iff the game is playing, jump is held and the player is grounded |
| Properties.GoalNeedsNoHit | great-mqrio-bros/main.go:335-359 | given LayoutOk (sound patrol ranges, a pole at least 20 high, and the spawn point left of the goal zone), the goal can only fire in a tick without an enemy hit, and only if it was unreached |
| Properties.GoalOnce | great-mqrio-bros/main.go:357-376 | given LayoutOk (sound patrol ranges, a pole at least 20 high, and the spawn point left of the goal zone), the goal event fires only in a playing tick with the goal unreached, at most once, and last |
| Properties.GoalClears | great-mqrio-bros/main.go:357-383 | given LayoutOk (sound patrol ranges, a pole at least 20 high, and the spawn point left of the goal zone), a playing tick ends cleared only through the goal, with no reset, clearTime 0, clearElapsedFrames = the old elapsedFrames and elapsedFrames one more |
| Properties.ClearedTickLaws | great-mqrio-bros/main.go:204-212 | a cleared tick emits nothing; with Space it resets; otherwise only clearTime (+1) and the flag's distance below the pole top change (+2 while it is less than poleHeight - 20, else kept) |
| Properties.IdleClearedTick | great-mqrio-bros/main.go:204-212 | in the cleared mode a tick with no key held is the cleared tick without restart, and the game stays cleared |
| Properties.FlagLowers | great-mqrio-bros/main.go:204-208 | from the pole top on the level's 150-high pole the flag is lowered to 2n below it after n cleared ticks without restart, until 130 below, where it stays; only clearTime (+n) and the flag change |
| Platformer.Game.constructor | great-mqrio-bros/main.go:111-199 | the new game is the level's initial world and satisfies the invariant |
| Platformer.Game.Update | great-mqrio-bros/main.go:203-385 | the object after the frame and the sounds played are those of one tick of the value model; the invariant is kept |
| Platformer.Game.Play | great-mqrio-bros/main.go:215-383 | the playing frame's blocks, the fall reset and the frame count leave the object and the sounds as one playing tick of the value model |
| Platformer.Game.MovePlayer | great-mqrio-bros/main.go:215-262 | input, jump, gravity, animation and move, as the stage function |
| Platformer.Game.CheckCollisions | great-mqrio-bros/main.go:424-466 | the platform loop with edges taken once does what Physics.Collide states |
| Platformer.Game.PickUpCoins | great-mqrio-bros/main.go:267-285 | the coin loop updates coins and score as the coin scan does, emitting its events |
| Platformer.Game.PatrolEnemies | great-mqrio-bros/main.go:287-301 | the patrol loop applies the patrol step to every enemy in place |
| Platformer.Game.FightEnemies | great-mqrio-bros/main.go:303-337 | the contact loop, which calls resetGame and breaks on a hazard hit, ends as the contact scan does |
| Platformer.Game.FollowCamera | great-mqrio-bros/main.go:339-355 | the camera and clamp block as the stage function |
| Platformer.Game.ReachGoal | great-mqrio-bros/main.go:357-376 | the goal block as the stage function |
| Platformer.Game.CountRemainingCoins | great-mqrio-bros/main.go:364-369 | the count is the number of uncollected coins |
| Platformer.Game.ResetGame | great-mqrio-bros/main.go:387-390 | the object becomes the reset of its old value |
| Platformer.Game.ResetToStart | great-mqrio-bros/main.go:393-422 | the object becomes the reset of its old value, enemies and coins updated in place |
| Platformer.Game.RespawnEnemies | great-mqrio-bros/main.go:414-419 | every enemy in the array is respawned in place |
| Platformer.Game.UncollectCoins | great-mqrio-bros/main.go:420-422 | every coin in the array is uncollected in place |
| HexColor.EffectiveFontSize | lgtm-generator/main.go:38-40 | the size used is in 1..500: the given size when in range, 48 otherwise |
| HexColor.FontSizeIdempotent | lgtm-generator/main.go:38-40 | the default rule applied twice is applied once |
| HexColor.TrimPrefix | lgtm-generator/main.go:116 | exactly one leading '#' is removed, if present |
| HexColor.IsHexDigit | lgtm-generator/main.go:120-122 | the bytes ParseUint accepts in base 16: 0-9, a-f and A-F; no contract of its own: DigitValue, ParsePair and HexDigit are stated over it |
| HexColor.DigitValue | lgtm-generator/main.go:120-122 | a hex digit is worth less than 16 |
| HexColor.ParsePair | lgtm-generator/main.go:120-122 | two hex digits give 16 * high + low; anything else gives 0, the value ParseUint returns on a syntax error |
| HexColor.ParseHexColor | lgtm-generator/main.go:115-124 | the error is always nil; a length other than 6 after the trim gives RGBA{0,0,0,0}; otherwise alpha is 255 |
| HexColor.FallbackUnreachable | lgtm-generator/main.go:57-60 | the text colour is always the parsed colour: the white fallback never applies |
| HexColor.TextColorAsWritten | lgtm-generator/main.go:57-60 | the caller's choice: white when the parser reports an error, otherwise the parsed colour; no contract of its own: FallbackUnreachable and ShortColorIsTransparent state what it gives |
| HexColor.ShortColorIsTransparent | lgtm-generator/main.go:57-60 | "#fff" gives transparent black text |
| HexColor.HashIsOptional | lgtm-generator/main.go:116 | parse("#" + s) == parse(s) when s does not start with '#' |
| HexColor.DoubleHashIsTransparent | lgtm-generator/main.go:116-119 | "##" followed by six bytes gives the zero colour |
| HexColor.MalformedPairIsZero | lgtm-generator/main.go:120-123 | for a colour that is six bytes after the '#' is trimmed, channel k is the parse of bytes 2k, 2k+1, and is 0 when they are not two hex digits |
| HexColor.HexDigit | lgtm-generator/main.go:120-122 | the lower-case digit of v is a hex digit worth v |
| HexColor.FormatHex | lgtm-generator/main.go:114 | the "#rrggbb" form is 7 bytes and starts with '#' |
| HexColor.PairRoundTrip | lgtm-generator/main.go:120-122 | parsing the two-digit form of a byte gives the byte |
| HexColor.ParseFormatRoundTrip | lgtm-generator/main.go:114-123 | parsing "#" + the hex of r, g, b, with or without the '#', gives (r, g, b, 255) and no error |
| HexColor.FormatParseRoundTrip | lgtm-generator/main.go:114-123 | for six hex digits, with or without the "#", formatting the parsed colour gives "#" and the same digits with A-F written as a-f (Lower), so parsing loses nothing but case |
| HexColor.CheckedParseHexColor | lgtm-generator/main.go:115-124 | corrected parser: no error iff the trimmed string is six hex digits, and then the colour is the one parsed as written |
| HexColor.TextColorIntended | lgtm-generator/main.go:57-60 | with the corrected parser a well-formed colour is drawn as parsed and anything else, "#fff" included, in white |

## Left out

- `Draw`, `Layout`, `main` and the Ebiten window setup of the platformer: rendering and formatting only.
- `generateBeep`, the audio context and the sound players of `NewGame`: each sound that is played is an `Event`.
- Key polling: it is read through `Input` (`Entities.InputOf`). The Space key appears twice there, as jump and as restart.
- Platform colours are display data and are not part of the model.
- `great-mqrio-bros/server.go`, an HTTP file server, is not part of this model.
- The `session-demo` programs are JavaScript-bridge and goroutine demos and are not part of this model.
- The rest of `processImage`: base64, image decoding, font layout, drawing and JPEG encoding are library calls; the JavaScript result object is not modelled.
- Go's `int` counters are unbounded `nat`: a wrap-around after 2^63 frames or points is not modelled.
- `float64` arithmetic is modelled by exact `real` arithmetic.
  - Every constant is a multiple of 0.5, and the values stay small, so no rounding occurs.
  - A float64 `Sqrt` result could in principle round differently from the squared comparison. The model uses the exact comparison.
- The player's `state` string is modelled as `PlayerState`. `Unset` stands for the empty string that a fresh game starts with.
- Go strings are modelled as their bytes. No UTF-8 decoding happens in `parseHexColor`.

## Findings

| source | as written | input that shows it | evidently intended | confidence | as-written member | corrected member |
|---|---|---|---|---|---|---|
| lgtm-generator/main.go:115-124 and 57-60 | `parseHexColor` returns a nil error for every input. A malformed colour yields the zero `RGBA` or zero channels, so the caller's white fallback never applies. | `"#fff"`: the text is drawn in transparent black, invisible on the image | a malformed colour reports an error, and the text falls back to white | medium, not executed | HexColor.ShortColorIsTransparent | HexColor.TextColorIntended |

# Authoritative fighting-game server, modelled in Dafny

`server.js` runs a two-player platform fighter. The server accepts at most
two WebSocket clients (player1 and player2) and keeps their latest input.
A 60 Hz `gameTick` owns the game. While a round is being played, each tick:

1. counts down seven per-player timers (the active windows and cooldowns of
   the basic attack, the special attack and guard, plus the ledge-hang
   countdown);
2. runs each player's input (ledge hang and release, steering, jump, guard,
   and attacks with their hitboxes and damage);
3. steps the Matter.js physics engine;
4. copies body positions back into the player records;
5. ends the round when a player leaves the screen.

The best of three rounds wins the match. Clients ask for the next round or
a new match, and connects and disconnects start and stop the game.

The model has nine modules:

- `Wrappers`: the optional value, standing for JavaScript `null`.
- `Geometry`: rectangles and `checkCollision`.
- `Catalog`: the constants, the two character profiles and the four stages.
- `Cooldowns`: the timer arithmetic and what it promises over many ticks.
- `Fighters`: the player record, `createPlayer`, the hitboxes, hit damage,
  the ledge-release velocities and the off-screen test.
- `Ledge`: `checkLedgeGrab`.
- `Scoring`: the score bookkeeping on values.
- `Turns`: one player's share of the timer pass and of
  `processPlayerInputs`, on values. A *seat* is a player record together
  with its body and its timer record. Each step of a turn is a method that
  follows the source's statements in their order, and is proved equal to a
  function of the seat (`Prepare` and `PreparedSeat`, `Act` and `Acted`,
  `InputPass` and `PassResult`, and so on). The lemmas about a turn's
  bounds and cases are stated about those functions.
- `Server`: the server state as a `World` class whose methods change its
  fields in place.

`World` has these fields:

- the state token;
- the stage;
- the player, body and timer maps;
- the grounded set;
- the scores and the round and match winners;
- the two pending-reset flags;
- the client count and whether the loop runs.

Its invariant `Valid()` ties the state token to the match record. For
example, a `matchOver` state means a winner with two points and a match
reset pending. Every entry point keeps this invariant: the constructor,
`GameTick`, the two request handlers, `OnConnect` and `OnDisconnect`. The
steps `TickSlot`, `TickTimers`, `ProcessInputs`, `PhysicsStep`,
`UpdateStateFromPhysics`, `Advance`, `HandleMatchEnd`, `ResetRoundState` and
`ClearMatch` are called half-way through a transition and keep only the
structural part, `Sound()`: the score range, the player, body and timer maps
(including each status flag being backed by its running timer), a playable
stage and at most two clients. `HandleRoundEnd`, `CheckWinConditions`,
`ResetMatchAndStartNew` and `ResetToWaiting` keep the whole of `Valid()`, and
`StartPlaying` establishes it.

Notable behaviours of the code that the model keeps:

- A round reset does not reset the timers. `resetServerPlayerState` would,
  but nothing calls it. Timers are never clamped at zero.
- On a ledge grab the player turns to face `-direction`, which is away from
  the platform. So a climb release carries the player away from the
  platform, and the "push away" input is pressing towards it
  (`Ledge.ClimbMovesAwayFromPlatform`).
- `ledgeDirection` is only ever set to 0.
- The dash hitbox is not mirror-symmetric. Facing right, it starts at the
  attacker's left edge (`Fighters.DashAttackLopsided`).
- A ledge grab does not check whether the player is attacking or guarding.
- Jump takes precedence over guard in a hanging player's input. The jump gate
  does not look at cooldowns.
- A player can jump and raise guard in the same turn: the jump test
  (line 206) comes before the guard start (line 214), so it sees the player
  not yet guarding. `Turns.Acted` tests the jump on the seat from before the
  guard step.
- A match reset always recreates RED_KNIGHT for player1 and BLUE_NINJA for
  player2.
- When the off-screen player has no opponent, the match is reset and the
  state is then forced back to waiting. With two clients connected the reset
  has already recreated both players and started the loop, so the loop keeps
  running while the state says waiting, and every later tick does nothing.
- A disconnect keeps the bodies, the scores, the winners and the pending
  flags.
- The `BASIC_ATTACK_DAMAGE` constant is unused. Damage comes from the
  character table.
- An attack on a guarding opponent still releases a hanging opponent.

## Model

| member | source | states |
|---|---|---|
| Geometry.CheckCollision | server.js:63 | an absent rectangle never collides; rectangles that only share an edge line do not collide |
| Geometry.CollisionIffSharedPoint | server.js:63 | for rectangles with area, a collision exactly when some point lies strictly inside both (both directions) |
| Geometry.CollisionSymmetric | server.js:63 | the test does not depend on the argument order |
| Geometry.MirrorKeepsCollision | server.js:63 | reflecting both rectangles about a vertical line keeps the answer |
| Catalog.ProfileOf | server.js:30-38 | each character's damage and ranges are positive, and its special out-damages and out-ranges its basic attack |
| Catalog.CatalogWellFormed | server.js:31-36 | every stage in the catalogue has both spawn points, so `createPlayer` succeeds on it, and all its platforms have area |
| Cooldowns.Start | server.js:19-21 | an activation sets an active window strictly shorter than the cooldown and leaves the ability not ready |
| Cooldowns.Countdown | server.js:143-148 | only a positive timer moves, by exactly the elapsed time |
| Cooldowns.StartInStep | server.js:215-239 | an activation puts the active window and the cooldown in step |
| Cooldowns.TickKeepsInStep | server.js:143-148 | a tick keeps them in step |
| Cooldowns.ReadyIsCooldownOver | server.js:214-237 | while in step, the two-timer gate is decided by the cooldown alone |
| Cooldowns.TickAbilityOver | server.js:143-148 | an ability's two timers over many ticks are each timer's own countdown |
| Cooldowns.StoppedStaysPut | server.js:143-149 | a timer at or below zero never changes |
| Cooldowns.RunsOutWhenTimeIsUp | server.js:143-149 | with non-negative ticks, a timer has run out exactly when the elapsed time reaches its start value (both directions) |
| Cooldowns.OvershootUnderOneTick | server.js:143-149 | an unclamped timer never ends a full tick below zero |
| Cooldowns.ReadyAgainAfterCooldown | server.js:214-239 | after an activation the ability is ready again exactly when the elapsed time reaches its cooldown |
| Cooldowns.FlagDropsAfterDuration | server.js:143-145 | the active timer runs out exactly when the elapsed time reaches the duration |
| Fighters.Other | server.js:211 | the opponent slot is the other slot |
| Fighters.Index | server.js:68 | slot index 0 or 1, and 0 exactly for player1 |
| Fighters.CreatePlayer | server.js:65-97 | fails exactly without a stage or without a spawn point for the slot; otherwise every initial field: the box centred on the spawn point, the character's move speed and jump strength, at rest, facing inward, no damage, no status, and a dynamic body at the spawn point |
| Fighters.BasicAttackBox | server.js:221 | as tall as the attacker, `basicRange` wide, flush against the facing side |
| Fighters.GroundPoundArea | server.js:243 | from the feet, 40 beyond each side and 60 deep |
| Fighters.DashArea | server.js:258 | `specialRange` wide; facing right it starts at the attacker's own left edge |
| Fighters.BasicAttackMirrorSymmetric | server.js:221-222 | the basic attack hits the mirrored scene exactly when it hits the original |
| Fighters.DashAttackLopsided | server.js:258-259 | a concrete scene that the dash misses while its mirror image is hit |
| Fighters.ApplyHit | server.js:226-263 | a guarding target keeps its percentage; otherwise it rises by exactly the damage; it never decreases; nothing else changes |
| Fighters.ReleaseVelocity | server.js:129-133 | the three release velocities; a climb moves along the facing, a push-away against it, and both go up |
| Fighters.Released | server.js:120-122 | the hang fields cleared and nothing else changed |
| Fighters.ReleasedBody | server.js:125-133 | the body becomes dynamic and takes the release velocity without moving |
| Fighters.FirstOffScreen | server.js:314-322 | the first player in server order that is off screen; none exactly when no player is off screen |
| Ledge.GrabAt | server.js:106-114 | a grab exactly when the feet are in the band and one edge is near; the left edge wins; the anchor corner for each side |
| Ledge.FirstGrab | server.js:105-116 | none exactly when no platform offers one; otherwise the grab of the first platform that does |
| Ledge.CheckLedgeGrab | server.js:99-117 | none without a stage, on the ground, while hanging, or when not falling; otherwise the first qualifying platform's grab |
| Ledge.AnchorTouchesWithoutOverlap | server.js:109-112 | at its anchor the player's box touches the platform but does not overlap it |
| Ledge.ClimbMovesAwayFromPlatform | server.js:109-185 | after the hang entry turns the player, a climb release moves it horizontally away from the grabbed platform |
| Scoring.Credit | server.js:400-401 | the winner gains exactly one point and the other score is unchanged |
| Scoring.ScoresCountWins | server.js:395-404 | over a run of rounds, each score is its start plus the rounds its player won among those played, and rounds stop counting only once the match is decided |
| Scoring.DecidedWithinThreeRounds | server.js:395-404 | enough round wins always decide a match; from 0-0, three always do |
| Scoring.ScoresStayInRange | server.js:400-402 | no score passes 2, and an undecided match lasts at most three rounds |
| Turns.ReleaseLedgeGrab | server.js:119-134 | the hang fields and the hang timer cleared, and the body released with the direction's velocity |
| Turns.TickedTimers | server.js:143-149 | a tick keeps every ability's two timers in step; a fired release leaves the hang timer at zero; otherwise a running hang timer loses exactly the elapsed time and a stopped one stays put |
| Turns.FlagsAfterTick | server.js:143-145 | each status flag drops exactly when its own active timer expires this tick; nothing else changes |
| Turns.TickedPlayer | server.js:143-149 | the flags as above, and the player is still hanging exactly when its hang timer did not expire |
| Turns.FlagsRunOut | server.js:143-149 | on a sound seat a tick at least as long as a flag's timer lowers that flag; a hanging player is let go at the latest when its hang countdown has elapsed |
| Turns.CooldownsChangeNoFlag | server.js:146-148 | the cooldown timers have no effect on the record |
| Turns.HangTimeoutIsLetGo | server.js:149 | an expiring hang timer releases with direction 0: not hanging, falling straight down, hang timer zero |
| Turns.CountDown | server.js:143-148 | one ability's two countdowns equal `TickAbility` |
| Turns.TickIdle | server.js:143-149 | the pass for an empty slot only counts down, and keeps the timers in step |
| Turns.TickSeat | server.js:143-149 | the pass for a present player: timers, record and body as the functions above say, and soundness kept |
| Turns.HangReleaseDirection | server.js:174-177 | jump gives 1, pressing against the facing gives -1, guard gives 0, in that order, and otherwise no release (each case as an if-and-only-if) |
| Turns.HangInput | server.js:174-178 | a hanging player is only released as the input picks, or left unchanged |
| Turns.TryLedgeGrab | server.js:181-191 | a grab exactly when `checkLedgeGrab` finds one; then hanging on that platform, facing `-direction`, a 3000 ms timer, and a static body centred on the anchor's box |
| Turns.Steer | server.js:193-209 | horizontal input turns the player; friction without horizontal input on the ground; a jump exactly when the jump key is down, on the ground and not guarding |
| Turns.TryGuard | server.js:214-216 | guard starts (400/200 and the flag set) exactly when requested with both guard timers run out; otherwise nothing changes |
| Turns.Hit | server.js:222-269 | a hanging target is released first; then the damage follows `ApplyHit`; the knockback is not modelled |
| Turns.TryBasicAttack | server.js:218-235 | starts (300/150 and the flag set) exactly on the button with both timers run out and not guarding; on a landing hit the opponent's seat is released if hanging (pushed away) and takes the basic damage unless it guards; otherwise the opponent is unchanged |
| Turns.TrySpecialAttack | server.js:237-271 | the same gate with 500/250; the knight's ground pound or the ninja's dash, which also sets its own velocity to (facing * 12, -2); on a landing hit the opponent is released as the attack says (dropped or pushed away) and takes the special damage unless it guards; otherwise unchanged |
| Turns.Prepare | server.js:163-169 | the record learns the grounded flag, and a body left static by an ended hang becomes dynamic |
| Turns.Act | server.js:193-271 | steering, guard, basic and special attack in that order, each seat exactly as `Acted` composes the steps; a jump exactly as above; the own damage and guard kept, abilities started only from ready; the opponent gains at most one basic and one special hit |
| Turns.TakeTurn | server.js:160-272 | one turn equals `TurnTaken`: the preamble, then a hanging player only reads its release, a grab ends the turn, and anything else acts; the damage bounds as above |
| Turns.TurnCases | server.js:160-272 | the three kinds of turn: a hanging player's seat is the hang release and the opponent and grounded flag are untouched; a grab is the grabbed seat and nothing else; otherwise the seats are `Acted` and the jump is exactly a jump input from the ground without guard |
| Turns.GrabOrAct | server.js:181-271 | a turn past the hang check: a ledge grab ends it with the opponent untouched, otherwise the player acts; the turn's bounds and a jump only from the ground without guard |
| Turns.PassTurn | server.js:160-272 | one loop iteration on the seat map equals `TurnOnMap`: a present player's turn is written back, and the grounded set loses at most that player on its jump; an absent player changes nothing |
| Turns.SeatTurn | server.js:160-272 | the iteration for a present player: both seats written back, the bounds of the turn, and the grounded set losing the player exactly when it jumped |
| Turns.HurtThenOwnTurn | server.js:160-272 | being hit and then taking one's own turn is within the input pass's bounds |
| Turns.PassedThenHurt | server.js:160-272 | taking one's own turn and then being hit is within the input pass's bounds |
| Turns.HurtAgain | server.js:160-272 | two hits, the first adding nothing, are within the second's bound |
| Turns.TurnProgresses | server.js:160-272 | one more iteration keeps the loop's per-slot account |
| Turns.InputPass | server.js:159-273 | the whole pass equals `PassResult`, player1's turn then player2's; after it, the same players; each player's damage only grows, by at most the opponent's worst turn and not at all while guarding; abilities start only from ready; the grounded set loses only players that jumped |
| Server.Synced | server.js:275-291 | a hanging player is held at rest; any other copies the body's centre and velocity |
| Server.Roster | server.js:370-382 | both slots created by `createPlayer` with the given types on a playable stage |
| Server.SyncAll | server.js:275-291 | every player synced from its body, in server order |
| Server.FindOffScreen | server.js:314-322 | the loop returns `FirstOffScreen` |
| Server.GatherOk | server.js:160-163 | the seats of sound maps are sound |
| Server.WriteBack | server.js:160-272 | the maps after the pass hold exactly the new seats, and other slots keep their bodies and timers |
| Server.PassInputs | server.js:159-273 | the seats written back are exactly `PassResult` of the seats gathered before, with the grounded set; other slots keep their bodies and timers; the bounds of `InputPass` |
| Server.World.constructor | server.js:41-60 | the initial server state: waiting, no stage, no players, all timers zero, 0-0 |
| Server.World.TickSlot | server.js:143-149 | one slot's timer pass; the other slot is untouched |
| Server.World.TickTimers | server.js:143-149 | the timer pass for every slot |
| Server.World.ProcessInputs | server.js:159-273 | `processPlayerInputs` on the world: the new seats and grounded set are exactly `PassResult` of the old ones; the body and timer maps keep their slots and a slot without a player keeps its body and timers; the bounds of `InputPass` |
| Server.World.PhysicsStep | server.js:293-311 | the engine's bodies and contacts as given, keeping the same bodies, and every body's static flag as the server set it |
| Server.World.UpdateStateFromPhysics | server.js:275-291 | every player synced from its body |
| Server.World.HandleMatchEnd | server.js:406-411 | matchOver, the match winner, and a match reset pending |
| Server.World.HandleRoundEnd | server.js:395-404 | a no-op unless playing; otherwise the winner gets +1 and the other score is unchanged; reaching 2 gives matchOver with a match reset pending, and otherwise roundOver with a round reset pending |
| Server.World.ResetRoundState | server.js:352-393 | the new stage, an empty grounded set, both players recreated with their types, the round winner and pending flag cleared; scores, match winner and timers kept |
| Server.World.ResetMatchAndStartNew | server.js:413-438 | scores 0-0 and no winners; with two clients, the default roster on the new stage, nobody grounded, nothing pending, playing with the loop running; otherwise waiting with no players and the loop stopped |
| Server.World.StartPlaying | server.js:423-431 | a round reset, then playing, no match reset pending, the loop running |
| Server.World.ClearMatch | server.js:416-421 | no players or bodies, 0-0 and no winners |
| Server.World.CheckWinConditions | server.js:312-323 | a no-op unless playing and someone is off screen; then the first such player loses the round to its opponent exactly as `HandleRoundEnd` says, with players, bodies, stage, grounded set and loop untouched; with no opponent, the full restarted match and the state forced back to waiting |
| Server.World.ResetToWaiting | server.js:319 | a match reset with two clients (default roster, 0-0, nothing pending, loop running) followed by the state forced to waiting |
| Server.World.GameTick | server.js:137-157 | nothing unless playing; the invariant kept; unless the match fell back to waiting, the same players and no score decreasing |
| Server.World.Advance | server.js:143-153 | timer pass, input pass, physics and sync keep the players and the soundness |
| Server.World.RequestNextRound | server.js:464-465 | acts only in roundOver with a round reset pending: the new stage, nobody grounded, both players recreated with their types, then playing; scores, match winner, timers, clients and loop kept |
| Server.World.RequestNewMatch | server.js:466-467 | acts only in matchOver with a match reset pending: the full restarted match (default roster on the new stage, nobody grounded, 0-0, no winners, nothing pending, loop running), playing; timers and clients kept |
| Server.World.OnConnect | server.js:444-454 | a third client is turned away with nothing changed; the first is counted and nothing else changes; the second, while waiting, brings the full restarted match, playing |
| Server.World.OnDisconnect | server.js:472-477 | one client fewer; a running game stops and drops both players; the rest is kept |

## Left out

- Matter.js is not modelled. A body is a record of centre, velocity and
  static flag that the server writes. `Engine.update` and the
  `collisionStart`/`collisionEnd` callbacks are an opaque step:
  `World.PhysicsStep` takes the moved bodies and the grounded set as
  parameters. Gravity, mass, friction and the body parts are not modelled.
- The applied forces are not modelled: the movement force and guard
  slow-down (lines 193-201), and the knockback and guard push on a hit.
  Because of this, `Turns.Steer` and `Turns.Hit` do not state the velocity
  change those forces cause.
- The WebSocket server, JSON messages, broadcasting, `getSerializableGameState`
  and logging are not modelled. Client identity is reduced to a count of
  connected clients (`clients`). The player1/player2 client-id bookkeeping is
  not modelled, and neither is the `input` message, which only stores
  `lastInput`: the latest inputs are a parameter of `World.GameTick`, and a
  missing input is `NoInput`.
- `Date.now`, `setInterval` and `Math.random` are not modelled. The elapsed
  time is a parameter `dt` of `GameTick`. The loop timer is the flag
  `loopRunning`. The randomly chosen stage is a parameter `st` that must be
  playable, as every catalogue stage is (`Catalog.CatalogWellFormed`).
- Server.World.GameTick: states that no score decreases and that players are
  kept. The per-step contents are stated by the methods it calls
  (`Advance`, `CheckWinConditions`) rather than composed into one contract.
- Server.World.Advance: only states soundness and the kept players. The
  contents of each step are stated by `TickTimers`, `ProcessInputs`,
  `PhysicsStep` and `UpdateStateFromPhysics`.
- `resetServerPlayerState` (lines 325-350) is never called by the server and
  is not modelled.
- Colours, stage names, background colours, mass and gravity multipliers are
  not modelled, except as fields of the profile that nothing reads.
- The seven timer loops of `gameTick` run one after another in the source.
  The model runs all seven steps for player1, then for player2. Every step
  touches only its own slot, so the outcome is the same.
- The `!body` guards are not modelled. Every player has a body (an invariant
  of the model), so they can never fire.
- Positions and velocities are JavaScript doubles in the source and exact
  reals here, so the model has no rounding: a collision or ledge test that
  rounding would tip at a rectangle's edge is decided exactly.
- `Fighters.Input` stands for the truthiness of each field of a stored
  payload: six booleans. An `input` message without a payload, or with a
  `null` one, stores `undefined`/`null` as the latest input (line 463). The
  next `processPlayerInputs` then reads `input.jump` (line 175) or
  `input.left` (line 196) from it, which throws inside the `setInterval`
  callback and stops the server. That failure is not modelled: the model
  has no input value for such a message.
- Integers are unbounded. Timers and percentages stay far from JavaScript's
  2^53 in any real match.

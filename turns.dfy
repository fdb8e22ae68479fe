/**
 * One player's share of a server tick, on values: the player record, its
 * Matter.js body and its timer record, taken together as a `Seat`. The
 * timer pass of `gameTick` and one iteration of `processPlayerInputs` each
 * read a seat (and the opponent's), go through the source's steps in
 * order, and hand back the new seats; the `World` class of the Server
 * module writes them back into its maps.
 */
module Turns {
  import opened Wrappers
  import opened Geometry
  import opened Catalog
  import opened Cooldowns
  import opened Fighters
  import opened Ledge

  datatype Seat = Seat(player: Player, body: Body, timers: Timers)

  /** What holds of every player record the server keeps. */
  ghost predicate PlayerOk(p: Player) {
    && p.width == PlayerWidth && p.height == PlayerHeight
    && (p.facing == 1 || p.facing == -1)
    && p.percentage >= 0
    && p.ledgeDirection == 0
    && (p.isLedgeHanging <==> p.ledgePlatform.Some?)
  }

  ghost predicate TimersOk(t: Timers) {
    InStep(Basic, t.basic) && InStep(Special, t.special) && InStep(Guard, t.guard)
  }

  /**
   * Each status flag is up only while its own timer runs: an activation
   * raises the flag together with its active timer, a grab raises the hang
   * flag together with the hang timer, and the timer pass lowers a flag
   * when its timer runs out.
   */
  ghost predicate FlagsOk(p: Player, t: Timers) {
    && (p.isBasicAttacking ==> t.basic.active > 0)
    && (p.isSpecialAttacking ==> t.special.active > 0)
    && (p.isGuarding ==> t.guard.active > 0)
    && (p.isLedgeHanging ==> t.ledgeHang > 0)
  }

  ghost predicate SeatOk(x: Seat) {
    PlayerOk(x.player) && TimersOk(x.timers) && FlagsOk(x.player, x.timers)
  }

  // ----- `releaseLedgeGrab` (server.js lines 119-134) -----

  /**
   * The seat after `releaseLedgeGrab(player, direction)`: the hang state and
   * the hang timer cleared, the body dynamic and moving with the release
   * velocity for that direction and the player's facing.
   */
  method ReleaseLedgeGrab(x: Seat, direction: int) returns (y: Seat)
    ensures y.player == Released(x.player)
    ensures y.timers == x.timers.(ledgeHang := 0)
    ensures y.body == ReleasedBody(x.body, direction, x.player.facing)
    ensures !y.player.isLedgeHanging && y.player.ledgePlatform.None? && y.timers.ledgeHang == 0
    ensures SeatOk(x) ==> SeatOk(y)
  {
    y := Seat(Released(x.player), ReleasedBody(x.body, direction, x.player.facing), x.timers.(ledgeHang := 0));
  }

  // ----- the timer pass of `gameTick` (server.js lines 143-149) -----

  /** The hang countdown runs out this tick on a player that is still hanging: a let-go release. */
  predicate HangRunsOut(p: Player, t: Timers, dt: int) {
    p.isLedgeHanging && Expires(t.ledgeHang, dt)
  }

  /** A slot's timers after the pass; `release` says whether the let-go release fired. */
  function TickedTimers(t: Timers, release: bool, dt: int): (r: Timers)
    ensures TimersOk(t) ==> TimersOk(r)
    ensures release ==> r.ledgeHang == 0
    ensures !release && t.ledgeHang > 0 ==> r.ledgeHang + dt == t.ledgeHang
    ensures !release && t.ledgeHang <= 0 ==> r.ledgeHang == t.ledgeHang
  {
    Timers(TickAbility(t.basic, dt), TickAbility(t.special, dt), TickAbility(t.guard, dt),
           if release then 0 else Countdown(t.ledgeHang, dt))
  }

  /**
   * A player's record after the three active timers tick: each status flag
   * drops exactly when its own timer runs out this tick; nothing else changes.
   */
  function FlagsAfterTick(p: Player, t: Timers, dt: int): (q: Player)
    ensures q.isBasicAttacking <==> p.isBasicAttacking && !Expires(t.basic.active, dt)
    ensures q.isSpecialAttacking <==> p.isSpecialAttacking && !Expires(t.special.active, dt)
    ensures q.isGuarding <==> p.isGuarding && !Expires(t.guard.active, dt)
    ensures q == p.(isBasicAttacking := q.isBasicAttacking, isSpecialAttacking := q.isSpecialAttacking,
                    isGuarding := q.isGuarding)
  {
    p.(isBasicAttacking := p.isBasicAttacking && !Expires(t.basic.active, dt),
       isSpecialAttacking := p.isSpecialAttacking && !Expires(t.special.active, dt),
       isGuarding := p.isGuarding && !Expires(t.guard.active, dt))
  }

  /**
   * A player's record after the whole pass: the flags as above (cooldowns
   * touch no flag), and an expiring hang countdown releases the player.
   */
  function TickedPlayer(p: Player, t: Timers, dt: int): (q: Player)
    ensures q.isBasicAttacking <==> p.isBasicAttacking && !Expires(t.basic.active, dt)
    ensures q.isSpecialAttacking <==> p.isSpecialAttacking && !Expires(t.special.active, dt)
    ensures q.isGuarding <==> p.isGuarding && !Expires(t.guard.active, dt)
    ensures q.isLedgeHanging <==> p.isLedgeHanging && !Expires(t.ledgeHang, dt)
    ensures q.id == p.id && q.kind == p.kind && q.percentage == p.percentage && q.facing == p.facing
  {
    var q := FlagsAfterTick(p, t, dt);
    if HangRunsOut(p, t, dt) then Released(q) else q
  }

  /**
   * On a sound seat no flag outlives its timer: a tick at least as long as
   * a flag's timer lowers that flag, so a hanging player is let go at the
   * latest when the hang countdown has elapsed.
   */
  lemma FlagsRunOut(x: Seat, dt: int)
    requires SeatOk(x)
    ensures var q := TickedPlayer(x.player, x.timers, dt);
      && (dt >= x.timers.basic.active ==> !q.isBasicAttacking)
      && (dt >= x.timers.special.active ==> !q.isSpecialAttacking)
      && (dt >= x.timers.guard.active ==> !q.isGuarding)
      && (dt >= x.timers.ledgeHang ==> !q.isLedgeHanging)
  {
  }

  /** The cooldown timers have no say in the flags: only active and hang timers do. */
  lemma CooldownsChangeNoFlag(p: Player, t: Timers, u: Timers, dt: int)
    requires t.basic.active == u.basic.active && t.special.active == u.special.active
    requires t.guard.active == u.guard.active && t.ledgeHang == u.ledgeHang
    ensures TickedPlayer(p, t, dt) == TickedPlayer(p, u, dt)
  {
  }

  /**
   * An expired hang countdown releases the player exactly as a let-go does:
   * no longer hanging, dropping straight down at speed 2, hang timer zero.
   */
  lemma HangTimeoutIsLetGo(p: Player, t: Timers, b: Body, dt: int)
    requires HangRunsOut(p, t, dt)
    ensures !TickedPlayer(p, t, dt).isLedgeHanging
    ensures TickedTimers(t, true, dt).ledgeHang == 0
    ensures var c := ReleasedBody(b, 0, p.facing); c.vx == 0.0 && c.vy == 2.0 && !c.isStatic
  {
  }

  /**
   * One ability's two countdowns (lines 143-148): each timer that is still
   * positive loses `dt`; a timer at or below zero stays where it is.
   */
  method CountDown(t: AbilityTimer, dt: int) returns (r: AbilityTimer)
    ensures r == TickAbility(t, dt)
  {
    r := t;
    if r.active > 0 {
      r := r.(active := r.active - dt);
    }
    if r.cooldown > 0 {
      r := r.(cooldown := r.cooldown - dt);
    }
  }

  /** The pass for a slot with no player: the seven countdowns and nothing else. */
  method TickIdle(t: Timers, dt: int) returns (r: Timers)
    ensures r == TickedTimers(t, false, dt)
    ensures TimersOk(t) ==> TimersOk(r)
  {
    var basic := CountDown(t.basic, dt);
    var special := CountDown(t.special, dt);
    var guard := CountDown(t.guard, dt);
    if TimersOk(t) {
      TickKeepsInStep(Basic, t.basic, dt);
      TickKeepsInStep(Special, t.special, dt);
      TickKeepsInStep(Guard, t.guard, dt);
    }
    r := Timers(basic, special, guard, if t.ledgeHang > 0 then t.ledgeHang - dt else t.ledgeHang);
  }

  /**
   * The pass for a slot with a player. The source runs the three active
   * timers, then the three cooldowns, then the hang timer; each ability's
   * pair is independent of the others, so it is taken ability by ability.
   */
  method TickSeat(x: Seat, dt: int) returns (y: Seat)
    ensures var release := HangRunsOut(x.player, x.timers, dt);
      && y.timers == TickedTimers(x.timers, release, dt)
      && y.player == TickedPlayer(x.player, x.timers, dt)
      && y.body == if release then ReleasedBody(x.body, 0, x.player.facing) else x.body
    ensures SeatOk(x) ==> SeatOk(y)
  {
    var t := x.timers;
    var basic := CountDown(t.basic, dt);
    var special := CountDown(t.special, dt);
    var guard := CountDown(t.guard, dt);
    if TimersOk(t) {
      TickKeepsInStep(Basic, t.basic, dt);
      TickKeepsInStep(Special, t.special, dt);
      TickKeepsInStep(Guard, t.guard, dt);
    }
    y := Seat(FlagsAfterTick(x.player, t, dt), x.body, t.(basic := basic, special := special, guard := guard));
    if y.timers.ledgeHang > 0 {
      var left := y.timers.ledgeHang - dt;
      if left <= 0 && y.player.isLedgeHanging {
        y := ReleaseLedgeGrab(y, 0);
      } else {
        y := y.(timers := y.timers.(ledgeHang := left));
      }
    }
  }

  // ----- one iteration of `processPlayerInputs` (server.js lines 159-273) -----

  /**
   * Which release a hanging player's input asks for (lines 174-177): jump
   * climbs (1); pressing against the facing pushes away (-1); guard lets go
   * (0); in that order of precedence.
   */
  function HangReleaseDirection(input: Input, facing: int): (d: Option<int>)
    ensures d == Some(1) <==> input.jump
    ensures d == Some(-1) <==> !input.jump && ((input.left && facing == 1) || (input.right && facing == -1))
    ensures d == Some(0) <==> !input.jump && !((input.left && facing == 1) || (input.right && facing == -1)) && input.guard
    ensures d.None? <==> !input.jump && !((input.left && facing == 1) || (input.right && facing == -1)) && !input.guard
  {
    if input.jump then Some(1)
    else if (input.left && facing == 1) || (input.right && facing == -1) then Some(-1)
    else if input.guard then Some(0)
    else None
  }

  predicate GuardStarts(t: Timers, input: Input) {
    input.guard && Ready(t.guard)
  }

  /** The attack gates: the button, both timers run out, and not guarding. */
  predicate BasicStarts(x: Seat, input: Input) {
    input.basicAttack && Ready(x.timers.basic) && !x.player.isGuarding
  }

  predicate SpecialStarts(x: Seat, input: Input) {
    input.specialAttack && Ready(x.timers.special) && !x.player.isGuarding
  }

  /** The special's hitbox depends on the character: ground pound for the knight, dash for the ninja. */
  predicate SpecialHits(attacker: Player, target: Player) {
    if attacker.kind == RedKnight then GroundPoundHits(attacker, target) else DashHits(attacker, target)
  }

  /** The release a special hit forces on a hanging target: let go for the ground pound, push away for the dash. */
  function SpecialRelease(kind: CharType): int {
    if kind == RedKnight then 0 else -1
  }

  /** An ability timer either stayed as it was or was started from a ready state. */
  predicate Gated(a: Ability, before: AbilityTimer, after: AbilityTimer) {
    after == before || (Ready(before) && after == Start(a))
  }

  /** The most one turn of an attacker of this kind can add: one basic and one special hit. */
  function MaxHit(kind: CharType): int {
    ProfileOf(kind).basicDamage + ProfileOf(kind).specialDamage
  }

  /**
   * What a player's own turn keeps of its own seat: who it is, its damage,
   * its guard (never dropped by input), every ability started only from a
   * ready state, no attack started while guarding, and the invariants.
   */
  ghost predicate OwnTurn(x: Seat, y: Seat) {
    && y.player.id == x.player.id && y.player.kind == x.player.kind
    && y.player.percentage == x.player.percentage
    && (x.player.isGuarding ==> y.player.isGuarding)
    && Gated(Basic, x.timers.basic, y.timers.basic)
    && Gated(Special, x.timers.special, y.timers.special)
    && Gated(Guard, x.timers.guard, y.timers.guard)
    && (y.timers.basic != x.timers.basic || y.timers.special != x.timers.special ==> !y.player.isGuarding)
    && (SeatOk(x) ==> SeatOk(y))
  }

  /**
   * What the opponent's seat suffers from one turn worth at most `bound`
   * damage: it stays (or stays absent), its damage only grows, by at most
   * `bound` and not at all while it guards, and its guard and ability
   * timers are untouched.
   */
  ghost predicate Hurt(x: Option<Seat>, y: Option<Seat>, bound: int) {
    && y.Some? == x.Some?
    && (x.Some? ==>
          var a, b := x.value.player, y.value.player;
          && b.id == a.id && b.kind == a.kind
          && a.percentage <= b.percentage <= a.percentage + bound
          && (a.isGuarding ==> b.percentage == a.percentage)
          && b.isGuarding == a.isGuarding
          && y.value.timers.basic == x.value.timers.basic
          && y.value.timers.special == x.value.timers.special
          && y.value.timers.guard == x.value.timers.guard
          && (SeatOk(x.value) ==> SeatOk(y.value)))
  }

  /**
   * What the whole input pass does to one seat: its own turn and the
   * opponent's, which may add at most `bound` damage.
   */
  ghost predicate InputPassed(x: Seat, y: Seat, bound: int) {
    && y.player.id == x.player.id && y.player.kind == x.player.kind
    && x.player.percentage <= y.player.percentage <= x.player.percentage + bound
    && (x.player.isGuarding ==> y.player.isGuarding && y.player.percentage == x.player.percentage)
    && Gated(Basic, x.timers.basic, y.timers.basic)
    && Gated(Special, x.timers.special, y.timers.special)
    && Gated(Guard, x.timers.guard, y.timers.guard)
    && (y.timers.basic != x.timers.basic || y.timers.special != x.timers.special ==> !y.player.isGuarding)
    && (SeatOk(x) ==> SeatOk(y))
  }

  /** Hit by the player before it, then its own turn (player2's share of the pass). */
  lemma HurtThenOwnTurn(x: Seat, mid: Seat, y: Seat, bound: int)
    requires Hurt(Some(x), Some(mid), bound) && OwnTurn(mid, y)
    ensures InputPassed(x, y, bound)
  {
  }

  /** Its own turn, then hit by the player after it (player1's share of the pass). */
  lemma PassedThenHurt(x: Seat, mid: Seat, y: Seat, bound: int)
    requires InputPassed(x, mid, 0) && Hurt(Some(mid), Some(y), bound)
    ensures InputPassed(x, y, bound)
  {
  }

  /** An untouched seat (no damage yet) that is then hit. */
  lemma HurtAgain(x: Seat, mid: Seat, y: Seat, bound: int)
    requires Hurt(Some(x), Some(mid), 0) && Hurt(Some(mid), Some(y), bound)
    ensures Hurt(Some(x), Some(y), bound)
  {
  }

  // ----- one turn of `processPlayerInputs` as functions of the seats -----

  /** The seat `releaseLedgeGrab(player, direction)` leaves. */
  function ReleasedSeat(x: Seat, direction: int): Seat {
    Seat(Released(x.player), ReleasedBody(x.body, direction, x.player.facing), x.timers.(ledgeHang := 0))
  }

  /** Lines 165-169: the grounded flag is read, and a static body that no longer hangs is made dynamic. */
  function PreparedSeat(x: Seat, onGround: bool): Seat {
    var b := if !x.player.isLedgeHanging && x.body.isStatic then x.body.(isStatic := false) else x.body;
    Seat(x.player.(isOnGround := onGround), b, x.timers)
  }

  /** Lines 174-178: a hanging player is released as its input picks, or stays. */
  function HungSeat(x: Seat, input: Input): Seat {
    var d := HangReleaseDirection(input, x.player.facing);
    if d.Some? then ReleasedSeat(x, d.value) else x
  }

  /** Lines 183-189: hanging from the edge `g`, facing `-direction`, the body static on the anchor. */
  function GrabbedSeat(x: Seat, g: LedgeGrab): Seat {
    Seat(x.player.(isLedgeHanging := true, ledgePlatform := Some(g.platform), facing := -g.direction),
         x.body.(isStatic := true, x := g.x + x.player.width / 2.0, y := g.y + x.player.height / 2.0),
         x.timers.(ledgeHang := LedgeGrabDuration))
  }

  /** Line 206: the jump fires from the ground, on the jump key, and not while guarding. */
  predicate Jumps(x: Seat, input: Input) {
    input.jump && x.player.isOnGround && !x.player.isGuarding
  }

  /** Lines 193-209 without the applied forces. */
  function SteeredSeat(x: Seat, input: Input): Seat {
    var facing := if input.left then -1 else if input.right then 1 else x.player.facing;
    var vx := if !input.left && !input.right && x.player.isOnGround then x.body.vx * GroundFriction else x.body.vx;
    var vy := if Jumps(x, input) then -JumpVelocity else x.body.vy;
    Seat(x.player.(facing := facing), x.body.(vx := vx, vy := vy), x.timers)
  }

  /** Lines 214-216. */
  function GuardedSeat(x: Seat, input: Input): Seat {
    if GuardStarts(x.timers, input) then Seat(x.player.(isGuarding := true), x.body, x.timers.(guard := Start(Guard)))
    else x
  }

  /** A landed hit on `x`: released in `direction` first if hanging, then damaged unless guarding. */
  function HitSeat(x: Seat, damage: int, direction: int): Seat
    requires damage >= 0
  {
    var y := if x.player.isLedgeHanging then ReleasedSeat(x, direction) else x;
    y.(player := ApplyHit(y.player, damage))
  }

  /** Lines 218-235 without the knockback: the attacker's seat and the opponent's. */
  function BasicAttacked(me: Seat, them: Option<Seat>, input: Input): (Seat, Option<Seat>) {
    if !BasicStarts(me, input) then (me, them)
    else
      var me' := Seat(me.player.(isBasicAttacking := true), me.body, me.timers.(basic := Start(Basic)));
      if them.Some? && BasicHits(me.player, them.value.player)
      then (me', Some(HitSeat(them.value, ProfileOf(me.player.kind).basicDamage, -1)))
      else (me', them)
  }

  /** Lines 237-271 without the knockback: the attacker's seat and the opponent's. */
  function SpecialAttacked(me: Seat, them: Option<Seat>, input: Input): (Seat, Option<Seat>) {
    if !SpecialStarts(me, input) then (me, them)
    else
      var body := if me.player.kind == RedKnight then me.body
                  else me.body.(vx := me.player.facing as real * DashSpeed, vy := DashLift);
      var me' := Seat(me.player.(isSpecialAttacking := true), body, me.timers.(special := Start(Special)));
      if them.Some? && SpecialHits(me.player, them.value.player)
      then (me', Some(HitSeat(them.value, ProfileOf(me.player.kind).specialDamage, SpecialRelease(me.player.kind))))
      else (me', them)
  }

  /** Lines 193-271: steering, guard, basic attack, special attack, in that order. */
  function Acted(me: Seat, them: Option<Seat>, input: Input): (Seat, Option<Seat>) {
    var guarded := GuardedSeat(SteeredSeat(me, input), input);
    var basic := BasicAttacked(guarded, them, input);
    SpecialAttacked(basic.0, basic.1, input)
  }

  /**
   * One iteration of the loop of `processPlayerInputs` for a present player:
   * its new seat, the opponent's, and whether it jumped.
   */
  function TurnTaken(stage: Option<Stage>, me: Seat, them: Option<Seat>, onGround: bool, input: Input)
    : (Seat, Option<Seat>, bool)
  {
    var ready := PreparedSeat(me, onGround);
    if ready.player.isLedgeHanging then (HungSeat(ready, input), them, false)
    else GrabbedOrActed(stage, ready, them, input)
  }

  /** A turn past the hang check: a ledge grab ends it, otherwise the player acts. */
  function GrabbedOrActed(stage: Option<Stage>, x: Seat, them: Option<Seat>, input: Input)
    : (Seat, Option<Seat>, bool)
  {
    var g := CheckLedgeGrab(stage, x.player, x.body.vy);
    if g.Some? then (GrabbedSeat(x, g.value), them, false)
    else
      var acted := Acted(x, them, input);
      (acted.0, acted.1, Jumps(x, input))
  }

  /**
   * The three kinds of turn: a hanging player only reads its release input;
   * a player that grabs an edge does nothing else; any other acts. Only the
   * last can touch the opponent or jump, and it jumps exactly on a jump
   * input from the ground while not guarding.
   */
  lemma TurnCases(stage: Option<Stage>, me: Seat, them: Option<Seat>, onGround: bool, input: Input)
    ensures var t := TurnTaken(stage, me, them, onGround, input);
      me.player.isLedgeHanging ==> t == (HungSeat(PreparedSeat(me, onGround), input), them, false)
    ensures var t, g := TurnTaken(stage, me, them, onGround, input),
                        CheckLedgeGrab(stage, me.player.(isOnGround := onGround), me.body.vy);
      !me.player.isLedgeHanging && g.Some? ==>
        t == (GrabbedSeat(PreparedSeat(me, onGround), g.value), them, false) && t.0.player.isLedgeHanging
    ensures var t, g := TurnTaken(stage, me, them, onGround, input),
                        CheckLedgeGrab(stage, me.player.(isOnGround := onGround), me.body.vy);
      !me.player.isLedgeHanging && g.None? ==>
        (t.0, t.1) == Acted(PreparedSeat(me, onGround), them, input)
        && (t.2 <==> input.jump && onGround && !me.player.isGuarding)
  {
  }

  /** The seats and the grounded set after slot `s`'s iteration; an absent player is skipped. */
  function TurnOnMap(stage: Option<Stage>, seats: map<Slot, Seat>, grounded: set<Slot>, input: Input, s: Slot)
    : (map<Slot, Seat>, set<Slot>)
  {
    if s !in seats then (seats, grounded)
    else
      var o := Other(s);
      var t := TurnTaken(stage, seats[s], if o in seats then Some(seats[o]) else None, s in grounded, input);
      (if t.1.Some? then seats[s := t.0][o := t.1.value] else seats[s := t.0],
       if t.2 then grounded - {s} else grounded)
  }

  /** The seats and the grounded set after the first `i` iterations, in server order. */
  function PassUpTo(stage: Option<Stage>, seats: map<Slot, Seat>, grounded: set<Slot>, inputs: map<Slot, Input>, i: nat)
    : (map<Slot, Seat>, set<Slot>)
    requires i <= |Slots|
  {
    if i == 0 then (seats, grounded)
    else
      var first := TurnOnMap(stage, seats, grounded, InputOf(inputs, Slots[0]), Slots[0]);
      if i == 1 then first
      else TurnOnMap(stage, first.0, first.1, InputOf(inputs, Slots[1]), Slots[1])
  }

  /** The whole of `processPlayerInputs` on the seats. */
  function PassResult(stage: Option<Stage>, seats: map<Slot, Seat>, grounded: set<Slot>, inputs: map<Slot, Input>)
    : (map<Slot, Seat>, set<Slot>)
  {
    PassUpTo(stage, seats, grounded, inputs, |Slots|)
  }

  /** Lines 174-178: a hanging player's input can only release it, as `HangReleaseDirection` picks. */
  method HangInput(x: Seat, input: Input) returns (y: Seat)
    requires x.player.isLedgeHanging
    ensures var d := HangReleaseDirection(input, x.player.facing);
      && (d.None? ==> y == x)
      && (d.Some? ==>
            && y.player == Released(x.player) && y.timers == x.timers.(ledgeHang := 0)
            && y.body == ReleasedBody(x.body, d.value, x.player.facing))
    ensures y == HungSeat(x, input)
    ensures OwnTurn(x, y)
  {
    y := x;
    if input.jump {
      y := ReleaseLedgeGrab(x, 1);
    } else if (input.left && x.player.facing == 1) || (input.right && x.player.facing == -1) {
      y := ReleaseLedgeGrab(x, -1);
    } else if input.guard {
      y := ReleaseLedgeGrab(x, 0);
    }
  }

  /**
   * Lines 180-191: when `checkLedgeGrab` finds an edge, the player hangs
   * from it, turns to face `-direction`, starts the 3000 ms countdown, and
   * its body is made static with its centre on the anchor's box.
   */
  method TryLedgeGrab(stage: Option<Stage>, x: Seat) returns (y: Seat, grabbed: bool)
    requires !x.player.isLedgeHanging
    ensures var g := CheckLedgeGrab(stage, x.player, x.body.vy);
      && grabbed == g.Some?
      && y == (if g.Some? then GrabbedSeat(x, g.value) else x)
      && (g.None? ==> y == x)
      && (g.Some? ==>
            && y.player == x.player.(isLedgeHanging := true, ledgePlatform := Some(g.value.platform),
                                     facing := -g.value.direction)
            && y.timers == x.timers.(ledgeHang := LedgeGrabDuration)
            && y.body == x.body.(isStatic := true, x := g.value.x + x.player.width / 2.0,
                                 y := g.value.y + x.player.height / 2.0))
    ensures OwnTurn(x, y)
  {
    y := x;
    var g := CheckLedgeGrab(stage, x.player, x.body.vy);
    grabbed := g.Some?;
    if g.Some? {
      var grab := g.value;
      var p := x.player.(isLedgeHanging := true, ledgePlatform := Some(grab.platform), facing := grab.direction * -1);
      var b := x.body.(isStatic := true, x := grab.x + p.width / 2.0, y := grab.y + p.height / 2.0);
      y := Seat(p, b, x.timers.(ledgeHang := LedgeGrabDuration));
    }
  }

  /**
   * Lines 193-209 without the applied forces: horizontal input turns the
   * player, friction slows a grounded player with no horizontal input, and
   * a jump (grounded and not guarding) sets the upward velocity.
   */
  method Steer(x: Seat, input: Input) returns (y: Seat, jumped: bool)
    ensures jumped <==> input.jump && x.player.isOnGround && !x.player.isGuarding
    ensures y.timers == x.timers
    ensures y.player == x.player.(facing := if input.left then -1 else if input.right then 1 else x.player.facing)
    ensures y.body.x == x.body.x && y.body.y == x.body.y && y.body.isStatic == x.body.isStatic
    ensures y.body.vx == if !input.left && !input.right && x.player.isOnGround then x.body.vx * GroundFriction else x.body.vx
    ensures y.body.vy == if jumped then -JumpVelocity else x.body.vy
    ensures y == SteeredSeat(x, input) && (jumped <==> Jumps(x, input))
    ensures OwnTurn(x, y)
  {
    var p, b := x.player, x.body;
    if input.left {
      p := p.(facing := -1);
    } else if input.right {
      p := p.(facing := 1);
    } else if p.isOnGround {
      b := b.(vx := b.vx * GroundFriction);
    }
    jumped := false;
    if input.jump && p.isOnGround && !p.isGuarding {
      b := b.(vy := -JumpVelocity);
      jumped := true;
    }
    y := Seat(p, b, x.timers);
  }

  /** Lines 214-216: guard starts when both guard timers have run out. */
  method TryGuard(x: Seat, input: Input) returns (y: Seat)
    ensures GuardStarts(x.timers, input) ==>
      y == x.(player := x.player.(isGuarding := true), timers := x.timers.(guard := Start(Guard)))
    ensures !GuardStarts(x.timers, input) ==> y == x
    ensures y == GuardedSeat(x, input)
    ensures OwnTurn(x, y)
  {
    y := x;
    if input.guard && x.timers.guard.active <= 0 && x.timers.guard.cooldown <= 0 {
      StartInStep(Guard);
      y := Seat(x.player.(isGuarding := true), x.body, x.timers.(guard := Start(Guard)));
    }
  }

  /**
   * A landed hit (lines 224-228, 246-248, 261-263) without the knockback
   * force: a hanging target is first released in the given direction, then
   * the damage is added unless the target guards.
   */
  method Hit(x: Seat, damage: int, direction: int) returns (y: Seat)
    requires damage >= 0
    ensures !y.player.isLedgeHanging
    ensures y.player.percentage == if x.player.isGuarding then x.player.percentage else x.player.percentage + damage
    ensures y.player == ApplyHit(if x.player.isLedgeHanging then Released(x.player) else x.player, damage)
    ensures y.timers == if x.player.isLedgeHanging then x.timers.(ledgeHang := 0) else x.timers
    ensures y.body == if x.player.isLedgeHanging then ReleasedBody(x.body, direction, x.player.facing) else x.body
    ensures y == HitSeat(x, damage, direction)
    ensures Hurt(Some(x), Some(y), damage)
  {
    y := x;
    if y.player.isLedgeHanging {
      y := ReleaseLedgeGrab(y, direction);
    }
    y := y.(player := ApplyHit(y.player, damage));
  }

  /** Lines 218-235: the gated basic attack and its hit on the opponent, who is let go with a push away. */
  method TryBasicAttack(me: Seat, them: Option<Seat>, input: Input) returns (me': Seat, them': Option<Seat>)
    ensures var starts := BasicStarts(me, input);
      && me' == (if starts then me.(player := me.player.(isBasicAttacking := true), timers := me.timers.(basic := Start(Basic)))
                 else me)
      && (!(starts && them.Some? && BasicHits(me.player, them.value.player)) ==> them' == them)
    ensures them.Some? && BasicStarts(me, input) && BasicHits(me.player, them.value.player) ==>
      them'.Some? && them'.value.player.percentage ==
        them.value.player.percentage + if them.value.player.isGuarding then 0 else ProfileOf(me.player.kind).basicDamage
    ensures OwnTurn(me, me') && me'.player.isGuarding == me.player.isGuarding
    ensures me'.timers.special == me.timers.special && me'.timers.guard == me.timers.guard
    ensures them.Some? && BasicStarts(me, input) && BasicHits(me.player, them.value.player) ==>
      them' == Some(HitSeat(them.value, ProfileOf(me.player.kind).basicDamage, -1))
    ensures (me', them') == BasicAttacked(me, them, input)
    ensures Hurt(them, them', ProfileOf(me.player.kind).basicDamage)
  {
    me', them' := me, them;
    var p := me.player;
    if input.basicAttack && me.timers.basic.active <= 0 && me.timers.basic.cooldown <= 0 && !p.isGuarding {
      StartInStep(Basic);
      p := p.(isBasicAttacking := true);
      me' := Seat(p, me.body, me.timers.(basic := Start(Basic)));
      if them.Some? && CheckCollision(Some(BasicAttackBox(p)), Some(Box(them.value.player))) {
        var hit := Hit(them.value, ProfileOf(p.kind).basicDamage, -1);
        them' := Some(hit);
      }
    }
  }

  /**
   * Lines 237-271: the gated special. The knight's ground pound tests the
   * area under it and lets a hanging target drop; the ninja's dash first
   * sets its own body moving forward, then tests the dash area and pushes a
   * hanging target away.
   */
  method TrySpecialAttack(me: Seat, them: Option<Seat>, input: Input) returns (me': Seat, them': Option<Seat>)
    ensures var starts := SpecialStarts(me, input);
      && me'.player == (if starts then me.player.(isSpecialAttacking := true) else me.player)
      && me'.timers == (if starts then me.timers.(special := Start(Special)) else me.timers)
      && me'.body == (if starts && me.player.kind == BlueNinja
                      then me.body.(vx := me.player.facing as real * DashSpeed, vy := DashLift) else me.body)
      && (!(starts && them.Some? && SpecialHits(me.player, them.value.player)) ==> them' == them)
    ensures them.Some? && SpecialStarts(me, input) && SpecialHits(me.player, them.value.player) ==>
      them'.Some? && them'.value.player.percentage ==
        them.value.player.percentage + if them.value.player.isGuarding then 0 else ProfileOf(me.player.kind).specialDamage
    ensures OwnTurn(me, me') && me'.player.isGuarding == me.player.isGuarding
    ensures me'.timers.basic == me.timers.basic && me'.timers.guard == me.timers.guard
    ensures them.Some? && SpecialStarts(me, input) && SpecialHits(me.player, them.value.player) ==>
      them' == Some(HitSeat(them.value, ProfileOf(me.player.kind).specialDamage, SpecialRelease(me.player.kind)))
    ensures (me', them') == SpecialAttacked(me, them, input)
    ensures Hurt(them, them', ProfileOf(me.player.kind).specialDamage)
  {
    me', them' := me, them;
    var p := me.player;
    if input.specialAttack && me.timers.special.active <= 0 && me.timers.special.cooldown <= 0 && !p.isGuarding {
      StartInStep(Special);
      p := p.(isSpecialAttacking := true);
      me' := Seat(p, me.body, me.timers.(special := Start(Special)));
      var damage := ProfileOf(p.kind).specialDamage;
      if p.kind == RedKnight {
        if them.Some? && CheckCollision(Some(GroundPoundArea(p)), Some(Box(them.value.player))) {
          var hit := Hit(them.value, damage, 0);
          them' := Some(hit);
        }
      } else {
        me' := me'.(body := me.body.(vx := p.facing as real * DashSpeed, vy := DashLift));
        if them.Some? && CheckCollision(Some(DashArea(p)), Some(Box(them.value.player))) {
          var hit := Hit(them.value, damage, -1);
          them' := Some(hit);
        }
      }
    }
  }

  /**
   * Lines 163-172: the turn's preamble. The record learns whether the body
   * stands on a platform, and a body left static by a finished hang is made
   * dynamic again.
   */
  method Prepare(x: Seat, onGround: bool) returns (y: Seat)
    ensures y.player == x.player.(isOnGround := onGround) && y.timers == x.timers
    ensures y.body == if !x.player.isLedgeHanging && x.body.isStatic then x.body.(isStatic := false) else x.body
    ensures y == PreparedSeat(x, onGround)
    ensures OwnTurn(x, y)
  {
    y := x.(player := x.player.(isOnGround := onGround));
    if !y.player.isLedgeHanging && y.body.isStatic {
      y := y.(body := y.body.(isStatic := false));
    }
  }

  /**
   * The part of a turn after the preamble and the ledge checks (lines
   * 193-272): steering and jump, guard, basic attack, special attack.
   */
  method Act(me: Seat, them: Option<Seat>, input: Input) returns (me': Seat, them': Option<Seat>, jumped: bool)
    ensures jumped <==> input.jump && me.player.isOnGround && !me.player.isGuarding
    ensures (me', them') == Acted(me, them, input)
    ensures OwnTurn(me, me')
    ensures Hurt(them, them', MaxHit(me.player.kind))
  {
    me', jumped := Steer(me, input);
    me' := TryGuard(me', input);
    var mid;
    me', mid := TryBasicAttack(me', them, input);
    me', them' := TrySpecialAttack(me', mid, input);
  }

  /**
   * One iteration of `processPlayerInputs` for a present player: the
   * preamble; a hanging player only reads its release input; a player that
   * grabs a ledge stops there; any other steers and may guard and attack.
   * It never damages its own player, adds to the opponent at most one basic
   * and one special hit and nothing to a guarding opponent, starts an
   * ability only from a ready state, never starts an attack while guarding,
   * and jumps only from the ground and not while guarding.
   */
  method TakeTurn(stage: Option<Stage>, me: Seat, them: Option<Seat>, onGround: bool, input: Input)
    returns (me': Seat, them': Option<Seat>, jumped: bool)
    ensures jumped ==> input.jump && onGround && !me.player.isGuarding && !me.player.isLedgeHanging
    ensures OwnTurn(me, me')
    ensures Hurt(them, them', MaxHit(me.player.kind))
    ensures (me', them', jumped) == TurnTaken(stage, me, them, onGround, input)
  {
    me', them', jumped := me, them, false;
    var ready := Prepare(me, onGround);
    if ready.player.isLedgeHanging {
      me' := HangInput(ready, input);
      return;
    }
    me', them', jumped := GrabOrAct(stage, ready, them, input);
  }

  /** `TakeTurn` past the hang check: a ledge grab stops the turn, otherwise the player acts. */
  method GrabOrAct(stage: Option<Stage>, x: Seat, them: Option<Seat>, input: Input)
    returns (me': Seat, them': Option<Seat>, jumped: bool)
    requires !x.player.isLedgeHanging
    ensures jumped ==> input.jump && x.player.isOnGround && !x.player.isGuarding
    ensures OwnTurn(x, me')
    ensures Hurt(them, them', MaxHit(x.player.kind))
    ensures (me', them', jumped) == GrabbedOrActed(stage, x, them, input)
  {
    var grabbed;
    me', grabbed := TryLedgeGrab(stage, x);
    them', jumped := them, false;
    if grabbed {
      return;
    }
    me', them', jumped := Act(me', them, input);
  }

  // ----- the loop of `processPlayerInputs` (server.js lines 159-273) -----

  /** The most damage the player in slot `s` (if any) can deal in one input pass. */
  function Bound(seats: map<Slot, Seat>, s: Slot): int {
    if s in seats then MaxHit(seats[s].player.kind) else 0
  }

  /** The latest input of slot `s`: a player without a client, or without an input, presses nothing. */
  function InputOf(inputs: map<Slot, Input>, s: Slot): Input {
    if s in inputs then inputs[s] else NoInput
  }

  /**
   * Slot `s` after the first `i` iterations of the pass that started from
   * `seats`: its own turn is done once `i` passes its index, the opponent's
   * once `i` passes the opponent's index.
   */
  ghost predicate Progress(s: Slot, x: Seat, y: Seat, seats: map<Slot, Seat>, i: int) {
    var b := if Index(Other(s)) < i then Bound(seats, Other(s)) else 0;
    if Index(s) < i then InputPassed(x, y, b) else Hurt(Some(x), Some(y), b)
  }

  /** Slot `s` left the grounded set only by a jump in one of the first `i` turns. */
  ghost predicate JumpedOnly(s: Slot, seats: map<Slot, Seat>, grounded: set<Slot>, grounded': set<Slot>,
                             inputs: map<Slot, Input>, i: int) {
    s in grounded && s !in grounded' ==>
      s in seats && Index(s) < i && InputOf(inputs, s).jump && !seats[s].player.isGuarding
  }

  /**
   * One iteration of the loop: a present player takes its turn against the
   * other's seat, if there is one, and both seats are written back; an
   * absent one is skipped.
   */
  method PassTurn(stage: Option<Stage>, seats: map<Slot, Seat>, grounded: set<Slot>, input: Input, s: Slot)
    returns (seats': map<Slot, Seat>, grounded': set<Slot>)
    ensures seats'.Keys == seats.Keys
    ensures s in seats ==> OwnTurn(seats[s], seats'[s])
    ensures Other(s) in seats ==> Hurt(Some(seats[Other(s)]), Some(seats'[Other(s)]), Bound(seats, s))
    ensures grounded' <= grounded
    ensures grounded' != grounded ==>
      grounded' == grounded - {s} && s in seats && s in grounded && input.jump && !seats[s].player.isGuarding
    ensures (seats', grounded') == TurnOnMap(stage, seats, grounded, input, s)
  {
    seats', grounded' := seats, grounded;
    if s in seats {
      seats', grounded' := SeatTurn(stage, seats, grounded, input, s);
    }
  }

  /** `PassTurn` for a present player. */
  method SeatTurn(stage: Option<Stage>, seats: map<Slot, Seat>, grounded: set<Slot>, input: Input, s: Slot)
    returns (seats': map<Slot, Seat>, grounded': set<Slot>)
    requires s in seats
    ensures seats'.Keys == seats.Keys
    ensures OwnTurn(seats[s], seats'[s])
    ensures Other(s) in seats ==> Hurt(Some(seats[Other(s)]), Some(seats'[Other(s)]), Bound(seats, s))
    ensures grounded' <= grounded
    ensures grounded' != grounded ==>
      grounded' == grounded - {s} && s in grounded && input.jump && !seats[s].player.isGuarding
    ensures (seats', grounded') == TurnOnMap(stage, seats, grounded, input, s)
  {
    var o := Other(s);
    var them := if o in seats then Some(seats[o]) else None;
    var me', them', jumped := TakeTurn(stage, seats[s], them, s in grounded, input);
    seats' := if them'.Some? then seats[s := me'][o := them'.value] else seats[s := me'];
    grounded' := if jumped then grounded - {s} else grounded;
  }

  /**
   * One more turn keeps the loop's account: the player whose turn it was
   * has now taken it, and its opponent has now suffered it.
   */
  lemma {:induction false} TurnProgresses(seats: map<Slot, Seat>, before: map<Slot, Seat>, after: map<Slot, Seat>, s: Slot, i: int)
    requires i == Index(s)
    requires before.Keys == seats.Keys && after.Keys == seats.Keys
    requires P1 in seats ==> Progress(P1, seats[P1], before[P1], seats, i)
    requires P2 in seats ==> Progress(P2, seats[P2], before[P2], seats, i)
    requires s in seats ==> OwnTurn(before[s], after[s])
    requires Other(s) in seats ==> Hurt(Some(before[Other(s)]), Some(after[Other(s)]), Bound(before, s))
    ensures P1 in seats ==> Progress(P1, seats[P1], after[P1], seats, i + 1)
    ensures P2 in seats ==> Progress(P2, seats[P2], after[P2], seats, i + 1)
  {
    var o := Other(s);
    var b := if Index(o) < i then Bound(seats, o) else 0;
    if s in seats {
      HurtThenOwnTurn(seats[s], before[s], after[s], b);
      assert Bound(before, s) == Bound(seats, s);
    }
    if o in seats {
      if Index(o) < i {
        PassedThenHurt(seats[o], before[o], after[o], Bound(seats, s));
      } else {
        HurtAgain(seats[o], before[o], after[o], Bound(seats, s));
      }
    }
    assert s == P1 || s == P2;
  }

  /**
   * What the input pass promises: the same players; each one's seat moved as
   * `InputPassed` allows, with the opponent's worst hit as the bound; and the
   * grounded set only shrinks, by players that jumped on a jump input while
   * not guarding.
   */
  ghost predicate PassDone(seats: map<Slot, Seat>, seats': map<Slot, Seat>, grounded: set<Slot>,
                           grounded': set<Slot>, inputs: map<Slot, Input>)
  {
    && seats'.Keys == seats.Keys
    && (forall s | s in seats :: InputPassed(seats[s], seats'[s], Bound(seats, Other(s))))
    && grounded' <= grounded
    && (forall s | s in grounded && s !in grounded' ::
          s in seats && InputOf(inputs, s).jump && !seats[s].player.isGuarding)
  }

  /**
   * `processPlayerInputs` on the present players' seats: each player in
   * server order takes its turn against the other's current seat. Every
   * player ends having taken its own turn and suffered at most the other's
   * worst turn; only a jump leaves the grounded set, and only from the
   * ground, on a jump input and not while guarding.
   */
  method InputPass(stage: Option<Stage>, seats: map<Slot, Seat>, grounded: set<Slot>, inputs: map<Slot, Input>)
    returns (seats': map<Slot, Seat>, grounded': set<Slot>)
    ensures (seats', grounded') == PassResult(stage, seats, grounded, inputs)
    ensures PassDone(seats, seats', grounded, grounded', inputs)
  {
    seats', grounded' := seats, grounded;
    for i := 0 to |Slots|
      invariant Accounted(seats, seats', grounded, grounded', inputs, i)
      invariant (seats', grounded') == PassUpTo(stage, seats, grounded, inputs, i)
    {
      seats', grounded' := PassStep(stage, seats, grounded, inputs, seats', grounded', i);
    }
    AccountedIsDone(seats, seats', grounded, grounded', inputs);
  }

  /** Once both iterations are accounted for, the pass has done what `PassDone` says. */
  lemma AccountedIsDone(seats: map<Slot, Seat>, seats': map<Slot, Seat>, grounded: set<Slot>, grounded': set<Slot>,
                        inputs: map<Slot, Input>)
    requires Accounted(seats, seats', grounded, grounded', inputs, |Slots|)
    ensures PassDone(seats, seats', grounded, grounded', inputs)
  {
    forall s | s in grounded && s !in grounded'
      ensures s in seats && InputOf(inputs, s).jump && !seats[s].player.isGuarding
    {
      assert s == P1 || s == P2;
    }
  }

  /** The loop's account after `i` iterations: each slot's progress, and jumps as the only way off the ground. */
  ghost predicate Accounted(seats: map<Slot, Seat>, cur: map<Slot, Seat>, grounded: set<Slot>, curGrounded: set<Slot>,
                            inputs: map<Slot, Input>, i: int)
  {
    && cur.Keys == seats.Keys
    && (P1 in seats ==> Progress(P1, seats[P1], cur[P1], seats, i))
    && (P2 in seats ==> Progress(P2, seats[P2], cur[P2], seats, i))
    && curGrounded <= grounded
    && JumpedOnly(P1, seats, grounded, curGrounded, inputs, i)
    && JumpedOnly(P2, seats, grounded, curGrounded, inputs, i)
  }

  /** One iteration of the loop of `InputPass`, keeping its account. */
  method PassStep(stage: Option<Stage>, seats: map<Slot, Seat>, grounded: set<Slot>, inputs: map<Slot, Input>,
                  cur: map<Slot, Seat>, curGrounded: set<Slot>, i: nat)
    returns (next: map<Slot, Seat>, nextGrounded: set<Slot>)
    requires i < |Slots|
    requires Accounted(seats, cur, grounded, curGrounded, inputs, i)
    ensures Accounted(seats, next, grounded, nextGrounded, inputs, i + 1)
    ensures (next, nextGrounded) == TurnOnMap(stage, cur, curGrounded, InputOf(inputs, Slots[i]), Slots[i])
  {
    var s := Slots[i];
    next, nextGrounded := PassTurn(stage, cur, curGrounded, InputOf(inputs, s), s);
    TurnProgresses(seats, cur, next, s, i);
  }
}

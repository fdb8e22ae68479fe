/**
 * The authoritative server state of server.js (`serverGame`, the physics
 * bodies, the grounded set and the connection count) as one `World` object,
 * and the routines that change it: the timer pass of `gameTick`, the input
 * pass of `processPlayerInputs`, `updateStateFromPhysics`, the off-screen
 * check, round and match bookkeeping, the two reset routines, the two gated
 * client requests and the connect/disconnect transitions.
 *
 * Matter.js is not modelled: a body is a record the server writes
 * (`setVelocity`, `setPosition`, `setStatic`) and `Engine.update` plus the
 * collision callbacks are an opaque step whose outcome is a parameter.
 * Applied forces (movement and knockback) are left out.
 */
module Server {
  import opened Wrappers
  import opened Catalog
  import opened Cooldowns
  import opened Fighters
  import opened Scoring
  import opened Turns

  datatype GameState = Waiting | Playing | RoundOver | MatchOver

  /** `updateStateFromPhysics` for one player: a hanging player is held at rest; any other copies its body. */
  function Synced(p: Player, b: Body): (q: Player)
    ensures p.isLedgeHanging ==> q == p.(vx := 0.0, vy := 0.0)
    ensures !p.isLedgeHanging ==>
      q.x + q.width / 2.0 == b.x && q.y + q.height / 2.0 == b.y && q.vx == b.vx && q.vy == b.vy
      && q == p.(x := q.x, y := q.y, vx := q.vx, vy := q.vy)
  {
    if p.isLedgeHanging then p.(vx := 0.0, vy := 0.0)
    else p.(x := b.x - p.width / 2.0, y := b.y - p.height / 2.0, vx := b.vx, vy := b.vy)
  }

  /** The character type a round reset keeps for a slot, or the default when the slot is empty. */
  function KindFor(players: map<Slot, Player>, s: Slot): CharType {
    if s in players then players[s].kind else if s == P1 then RedKnight else BlueNinja
  }

  /** Both slots have a timer record, and each keeps its ability timers in step. */
  ghost predicate TimersSound(T: map<Slot, Timers>) {
    && (forall s: Slot :: s in T)
    && P1 in T && P2 in T && TimersOk(T[P1]) && TimersOk(T[P2])
  }

  /** Every player record is sound and sits in its own slot. */
  ghost predicate RosterOk(P: map<Slot, Player>) {
    && (P1 in P ==> P[P1].id == P1 && PlayerOk(P[P1]))
    && (P2 in P ==> P[P2].id == P2 && PlayerOk(P[P2]))
  }

  /**
   * What holds of the player, body and timer maps: sound timers and players,
   * a body for every player, and every player's flags backed by its timers.
   */
  ghost predicate MapsOk(P: map<Slot, Player>, B: map<Slot, Body>, T: map<Slot, Timers>) {
    && TimersSound(T) && P.Keys <= B.Keys && RosterOk(P)
    && (P1 in P ==> FlagsOk(P[P1], T[P1])) && (P2 in P ==> FlagsOk(P[P2], T[P2]))
  }

  /**
   * The players and bodies of a round reset on stage `st` (lines 370-382):
   * both slots created afresh by `createPlayer`, player1 as a `k1` and
   * player2 as a `k2`. A stage with two spawn points never makes
   * `createPlayer` fail.
   */
  function Roster(st: Stage, k1: CharType, k2: CharType): (r: (map<Slot, Player>, map<Slot, Body>))
    requires Playable(st)
    ensures r.0.Keys == r.1.Keys == {P1, P2}
    ensures RosterOk(r.0)
    ensures CreatePlayer(Some(st), P1, k1) == Some(Spawned(r.0[P1], r.1[P1]))
    ensures CreatePlayer(Some(st), P2, k2) == Some(Spawned(r.0[P2], r.1[P2]))
  {
    var c1 := CreatePlayer(Some(st), P1, k1).value;
    var c2 := CreatePlayer(Some(st), P2, k2).value;
    (map[P1 := c1.player, P2 := c2.player], map[P1 := c1.body, P2 := c2.body])
  }

  /** `updateStateFromPhysics` (lines 275-291) on the player and body maps, in server order. */
  method SyncAll(P: map<Slot, Player>, B: map<Slot, Body>) returns (P': map<Slot, Player>)
    requires P.Keys <= B.Keys
    ensures P'.Keys == P.Keys
    ensures forall s | s in P' :: P'[s] == Synced(P[s], B[s])
    ensures RosterOk(P) ==> RosterOk(P')
  {
    P' := P;
    for i := 0 to |Slots|
      invariant P'.Keys == P.Keys
      invariant forall s | s in P' :: P'[s] == if Index(s) < i then Synced(P[s], B[s]) else P[s]
    {
      var s := Slots[i];
      if s in P' {
        P' := P'[s := Synced(P'[s], B[s])];
      }
    }
  }

  /** The loop of `checkServerWinConditions` (lines 314-322): the first player, in server order, that is off screen. */
  method FindOffScreen(P: map<Slot, Player>) returns (r: Option<Slot>)
    ensures r == FirstOffScreen(P)
  {
    for i := 0 to |Slots|
      invariant forall j | 0 <= j < i :: !(Slots[j] in P && OffScreen(P[Slots[j]]))
    {
      var s := Slots[i];
      if s in P && OffScreen(P[s]) {
        assert i == 1 ==> !(Slots[0] in P && OffScreen(P[Slots[0]]));
        return Some(s);
      }
    }
    assert !(Slots[0] in P && OffScreen(P[Slots[0]])) && !(Slots[1] in P && OffScreen(P[Slots[1]]));
    return None;
  }

  /** The seats of the players in `P`, each with its body and timers. */
  function Gather(P: map<Slot, Player>, B: map<Slot, Body>, T: map<Slot, Timers>): (seats: map<Slot, Seat>)
    requires P.Keys <= B.Keys && P.Keys <= T.Keys
    ensures seats.Keys == P.Keys
    ensures forall s | s in seats :: seats[s] == Seat(P[s], B[s], T[s])
  {
    map s | s in P :: Seat(P[s], B[s], T[s])
  }

  /** Every seat of sound maps is sound and in its own slot. */
  lemma GatherOk(P: map<Slot, Player>, B: map<Slot, Body>, T: map<Slot, Timers>)
    requires MapsOk(P, B, T)
    ensures forall s | s in Gather(P, B, T) :: Gather(P, B, T)[s].player.id == s && SeatOk(Gather(P, B, T)[s])
  {
  }

  /** The maps after writing `seats` back: a slot without a seat keeps its body and timers. */
  method WriteBack(P: map<Slot, Player>, B: map<Slot, Body>, T: map<Slot, Timers>, seats: map<Slot, Seat>)
    returns (P': map<Slot, Player>, B': map<Slot, Body>, T': map<Slot, Timers>)
    requires seats.Keys == P.Keys && MapsOk(P, B, T)
    requires forall s | s in seats :: seats[s].player.id == s && SeatOk(seats[s])
    ensures MapsOk(P', B', T')
    ensures P'.Keys == P.Keys && B'.Keys == B.Keys && T'.Keys == T.Keys
    ensures Gather(P', B', T') == seats
    ensures forall s | s in B && s !in P :: B'[s] == B[s]
    ensures forall s | s in T && s !in P :: T'[s] == T[s]
  {
    P' := map s | s in seats :: seats[s].player;
    B' := map s | s in B :: if s in seats then seats[s].body else B[s];
    T' := map s | s in T :: if s in seats then seats[s].timers else T[s];
  }

  /**
   * `processPlayerInputs` (lines 159-273) on the maps: the present players'
   * seats go through the input pass and are written back; a slot without a
   * player keeps its body and timers.
   */
  method PassInputs(stage: Option<Stage>, P: map<Slot, Player>, B: map<Slot, Body>, T: map<Slot, Timers>,
                    grounded: set<Slot>, inputs: map<Slot, Input>)
    returns (P': map<Slot, Player>, B': map<Slot, Body>, T': map<Slot, Timers>, grounded': set<Slot>)
    requires MapsOk(P, B, T)
    ensures MapsOk(P', B', T') && P'.Keys == P.Keys && B'.Keys == B.Keys && T'.Keys == T.Keys
    ensures (Gather(P', B', T'), grounded') == PassResult(stage, Gather(P, B, T), grounded, inputs)
    ensures PassDone(Gather(P, B, T), Gather(P', B', T'), grounded, grounded', inputs)
    ensures forall s | s in B && s !in P :: B'[s] == B[s]
    ensures forall s | s in T && s !in P :: T'[s] == T[s]
  {
    var seats := Gather(P, B, T);
    GatherOk(P, B, T);
    var seats';
    seats', grounded' := InputPass(stage, seats, grounded, inputs);
    P', B', T' := WriteBack(P, B, T, seats');
  }

  class World {
    var state: GameState
    var stage: Option<Stage>
    var players: map<Slot, Player>
    /** `physicsBodies`: a body per created player (kept after a disconnect empties `players`). */
    var bodies: map<Slot, Body>
    /** `groundedPlayers`, maintained by the physics callbacks and by jumps. */
    var grounded: set<Slot>
    /** The seven timer maps of `serverGame`, one record per slot. */
    var timers: map<Slot, Timers>
    var scores: seq<int>
    var roundWinner: Option<Slot>
    var matchWinner: Option<Slot>
    var pendingRoundReset: bool
    var pendingMatchReset: bool
    /** `clients.size`. */
    var clients: nat
    /** Whether `gameLoopInterval` is set. */
    var loopRunning: bool

    /** The structural invariant, which every routine keeps even half-way. */
    ghost predicate Sound()
      reads this`scores, this`players, this`bodies, this`timers, this`stage, this`clients
    {
      && |scores| == 2
      && 0 <= scores[0] <= RoundsToWinMatch && 0 <= scores[1] <= RoundsToWinMatch
      && MapsOk(players, bodies, timers)
      && (stage.Some? ==> Playable(stage.value))
      && clients <= 2
    }

    /** The invariant between routines: the state token agrees with the match record. */
    ghost predicate Valid()
      reads this`scores, this`players, this`bodies, this`timers, this`stage, this`clients, this`state,
        this`loopRunning, this`roundWinner, this`matchWinner, this`pendingRoundReset, this`pendingMatchReset
    {
      && Sound()
      && (state != Waiting ==> clients == 2 && loopRunning)
      && (state == Playing || state == RoundOver ==>
            scores[0] < RoundsToWinMatch && scores[1] < RoundsToWinMatch)
      && (state == RoundOver ==> roundWinner.Some? && pendingRoundReset)
      && (state == MatchOver ==>
            matchWinner.Some? && scores[Index(matchWinner.value)] == RoundsToWinMatch && pendingMatchReset)
      && (pendingRoundReset ==> state == RoundOver || state == Waiting)
      && (pendingMatchReset ==> state == MatchOver || state == Waiting)
    }

    /** Both players exist whenever a match is under way. */
    ghost predicate Populated()
      reads this`state, this`players
    {
      state != Waiting ==> P1 in players && P2 in players
    }

    /**
     * The state a match reset with two clients leaves behind: stage `st`,
     * the default roster (player1 red knight, player2 blue ninja) at the
     * spawn points, nobody grounded, a 0-0 score, no winners, nothing
     * pending and the loop running.
     */
    ghost predicate MatchRestarted(st: Stage)
      requires Playable(st)
      reads this`stage, this`grounded, this`scores, this`roundWinner, this`matchWinner, this`pendingRoundReset,
        this`pendingMatchReset, this`loopRunning, this`players, this`bodies
    {
      && stage == Some(st) && grounded == {}
      && scores == [0, 0] && roundWinner.None? && matchWinner.None?
      && !pendingRoundReset && !pendingMatchReset && loopRunning
      && players == Roster(st, RedKnight, BlueNinja).0 && bodies == Roster(st, RedKnight, BlueNinja).1
    }

    /** Every present player with its body and timers. */
    ghost function Seats(): map<Slot, Seat>
      requires Sound()
      reads this`players, this`bodies, this`timers, this`scores, this`stage, this`clients
    {
      Gather(players, bodies, timers)
    }

    /** The initial `serverGame`: waiting, no stage, no players, every timer at zero. */
    constructor ()
      ensures Valid() && Populated()
      ensures state == Waiting && stage.None? && players == map[] && bodies == map[] && grounded == {}
      ensures timers == map[P1 := AllClear, P2 := AllClear] && scores == [0, 0]
      ensures roundWinner.None? && matchWinner.None? && !pendingRoundReset && !pendingMatchReset
      ensures clients == 0 && !loopRunning
    {
      state := Waiting;
      stage := None;
      players := map[];
      bodies := map[];
      grounded := {};
      var clear := map[P1 := AllClear, P2 := AllClear];
      forall s: Slot
        ensures s in clear
      {
        assert s == P1 || s == P2;
      }
      timers := clear;
      scores := [0, 0];
      roundWinner := None;
      matchWinner := None;
      pendingRoundReset := false;
      pendingMatchReset := false;
      clients := 0;
      loopRunning := false;
    }

    /** Slot `s` holds the outcome of the timer pass on the earlier maps `P`, `T`, `B`. */
    ghost predicate TickedAt(s: Slot, P: map<Slot, Player>, T: map<Slot, Timers>, B: map<Slot, Body>, dt: int)
      reads this`players, this`bodies, this`timers
    {
      && s in T && (s in P ==> s in B)
      && var release := s in P && HangRunsOut(P[s], T[s], dt);
      && s in timers && timers[s] == TickedTimers(T[s], release, dt)
      && (s in players <==> s in P) && (s in P ==> players[s] == TickedPlayer(P[s], T[s], dt))
      && (s in bodies <==> s in B) && (s in B ==> bodies[s] == if release then ReleasedBody(B[s], 0, P[s].facing) else B[s])
    }

    /** Slot `s` still holds what the earlier maps `P`, `T`, `B` held. */
    ghost predicate UntouchedAt(s: Slot, P: map<Slot, Player>, T: map<Slot, Timers>, B: map<Slot, Body>)
      reads this`players, this`bodies, this`timers
    {
      && s in T
      && s in timers && timers[s] == T[s]
      && (s in players <==> s in P) && (s in P ==> players[s] == P[s])
      && (s in bodies <==> s in B) && (s in B ==> bodies[s] == B[s])
    }

    /** The seven countdowns of lines 143-149 for one slot, present player or not. */
    method TickSlot(s: Slot, dt: int)
      requires Sound()
      modifies this`players, this`timers, this`bodies
      ensures Sound() && players.Keys == old(players).Keys
      ensures TickedAt(s, old(players), old(timers), old(bodies), dt)
      ensures UntouchedAt(Other(s), old(players), old(timers), old(bodies))
    {
      if s in players {
        var y := TickSeat(Seat(players[s], bodies[s], timers[s]), dt);
        players := players[s := y.player];
        bodies := bodies[s := y.body];
        timers := timers[s := y.timers];
      } else {
        var t := TickIdle(timers[s], dt);
        timers := timers[s := t];
      }
    }

    /**
     * The timer section of `gameTick`. The source runs seven loops over both
     * slots; every step touches one slot only, so running all seven steps
     * for player1 and then for player2 has the same outcome.
     */
    method TickTimers(dt: int)
      requires Sound()
      modifies this`players, this`timers, this`bodies
      ensures Sound() && players.Keys == old(players).Keys
      ensures forall s: Slot :: TickedAt(s, old(players), old(timers), old(bodies), dt)
    {
      for i := 0 to |Slots|
        invariant Sound() && players.Keys == old(players).Keys
        invariant forall s: Slot ::
          if Index(s) < i then TickedAt(s, old(players), old(timers), old(bodies), dt)
          else UntouchedAt(s, old(players), old(timers), old(bodies))
      {
        TickSlot(Slots[i], dt);
      }
    }

    /** `processPlayerInputs` (lines 159-273). */
    method ProcessInputs(inputs: map<Slot, Input>)
      requires Sound()
      modifies this`players, this`timers, this`bodies, this`grounded
      ensures Sound() && players.Keys == old(players).Keys
      ensures bodies.Keys == old(bodies).Keys && timers.Keys == old(timers).Keys
      ensures (Seats(), grounded) == PassResult(stage, old(Seats()), old(grounded), inputs)
      ensures PassDone(old(Seats()), Seats(), old(grounded), grounded, inputs)
      ensures forall s | s in old(bodies) && s !in old(players) :: bodies[s] == old(bodies[s])
      ensures forall s | s in old(timers) && s !in old(players) :: timers[s] == old(timers[s])
    {
      var P, B, T, g := PassInputs(stage, players, bodies, timers, grounded, inputs);
      players, bodies, timers, grounded := P, B, T, g;
    }

    /**
     * `Engine.update` and the collision callbacks, which this model cannot
     * see: the engine moves the bodies it is given and reports which players
     * stand on a platform. It never changes whether a body is static: only
     * the server's own ledge grab and release do that.
     */
    method PhysicsStep(moved: map<Slot, Body>, standing: set<Slot>)
      requires Sound()
      modifies this`bodies, this`grounded
      ensures Sound()
      ensures bodies.Keys == old(bodies).Keys
      ensures forall s | s in bodies ::
        bodies[s] == if s in moved then moved[s].(isStatic := old(bodies[s]).isStatic) else old(bodies[s])
      ensures forall s | s in bodies :: bodies[s].isStatic == old(bodies[s]).isStatic
      ensures grounded == standing
    {
      bodies := map s | s in bodies :: if s in moved then moved[s].(isStatic := bodies[s].isStatic) else bodies[s];
      grounded := standing;
    }

    /** `updateStateFromPhysics` (lines 275-291). */
    method UpdateStateFromPhysics()
      requires Sound()
      modifies this`players
      ensures Sound()
      ensures players.Keys == old(players).Keys
      ensures forall s | s in players :: players[s] == Synced(old(players[s]), bodies[s])
    {
      players := SyncAll(players, bodies);
    }

    /**
     * `handleServerMatchEnd` (lines 406-411). Called half-way through a
     * round end, when the state token does not yet agree with the scores.
     */
    method HandleMatchEnd(w: Slot)
      requires Sound()
      modifies this`state, this`matchWinner, this`pendingMatchReset
      ensures Sound()
      ensures state == MatchOver && matchWinner == Some(w) && pendingMatchReset
    {
      state := MatchOver;
      matchWinner := Some(w);
      pendingMatchReset := true;
    }

    /**
     * `handleServerRoundEnd` (lines 395-404): only while playing; the
     * winner gains exactly one point and the other score stays; reaching
     * two wins ends the match, otherwise the round waits for a reset.
     */
    method HandleRoundEnd(w: Slot)
      requires Valid()
      modifies this`state, this`roundWinner, this`scores, this`matchWinner, this`pendingRoundReset,
        this`pendingMatchReset
      ensures Valid()
      ensures old(state) != Playing ==> unchanged(this)
      ensures old(state) == Playing ==>
        && scores == Credit(old(scores), w)
        && roundWinner == Some(w)
        && (scores[Index(w)] >= RoundsToWinMatch ==>
              state == MatchOver && matchWinner == Some(w) && pendingMatchReset
              && pendingRoundReset == old(pendingRoundReset))
        && (scores[Index(w)] < RoundsToWinMatch ==>
              state == RoundOver && pendingRoundReset
              && matchWinner == old(matchWinner) && pendingMatchReset == old(pendingMatchReset))
    {
      if state != Playing {
        return;
      }
      state := RoundOver;
      roundWinner := Some(w);
      var i := Index(w);
      scores := scores[i := scores[i] + 1];
      if scores[i] >= RoundsToWinMatch {
        HandleMatchEnd(w);
      } else {
        pendingRoundReset := true;
      }
    }

    /**
     * `resetServerRoundState` (lines 352-393): the stage `st` (standing for
     * the random pick from the catalogue, every stage of which is playable),
     * the grounded set emptied, and
     * both players and bodies created afresh, keeping the character types.
     * Scores, the match winner and every timer are kept; the round winner and
     * the pending flag clear.
     */
    method ResetRoundState(st: Stage)
      requires Sound() && Playable(st)
      modifies this`grounded, this`stage, this`bodies, this`players, this`roundWinner, this`pendingRoundReset
      ensures Sound()
      ensures stage == Some(st) && grounded == {}
      ensures var r := Roster(st, KindFor(old(players), P1), KindFor(old(players), P2)); players == r.0 && bodies == r.1
      ensures roundWinner.None? && !pendingRoundReset
    {
      grounded := {};
      stage := Some(st);
      var r := Roster(st, KindFor(players, P1), KindFor(players, P2));
      players, bodies := r.0, r.1;
      roundWinner := None;
      pendingRoundReset := false;
    }

    /**
     * `resetServerMatchAndStartNew` (lines 413-438): players and bodies
     * discarded, scores and both winners cleared; with two clients a round
     * reset follows (so both players come back with the default types), play
     * starts and the loop runs; otherwise the loop stops.
     */
    method ResetMatchAndStartNew(st: Stage)
      requires Valid() && Playable(st)
      modifies this`players, this`bodies, this`scores, this`roundWinner, this`matchWinner, this`grounded, this`stage,
        this`state, this`pendingRoundReset, this`pendingMatchReset, this`loopRunning
      ensures Valid()
      ensures scores == [0, 0] && roundWinner.None? && matchWinner.None?
      ensures old(clients) == 2 ==> state == Playing && MatchRestarted(st)
      ensures old(clients) != 2 ==>
        && state == old(state) == Waiting && players == map[] && bodies == map[] && !loopRunning
        && pendingRoundReset == old(pendingRoundReset) && pendingMatchReset == old(pendingMatchReset)
        && stage == old(stage) && grounded == old(grounded)
    {
      ClearMatch();
      if clients == 2 {
        StartPlaying(st);
      } else {
        loopRunning := false;
      }
    }

    /** Lines 423-431: a round reset, then play starts with no match reset pending and the loop running. */
    method StartPlaying(st: Stage)
      requires Sound() && Playable(st) && clients == 2 && scores == [0, 0] && matchWinner.None?
      modifies this`grounded, this`stage, this`bodies, this`players, this`roundWinner, this`pendingRoundReset,
        this`state, this`pendingMatchReset, this`loopRunning
      ensures Valid()
      ensures state == Playing && !pendingMatchReset && !pendingRoundReset && loopRunning && roundWinner.None?
      ensures stage == Some(st) && grounded == {}
      ensures var r := Roster(st, KindFor(old(players), P1), KindFor(old(players), P2)); players == r.0 && bodies == r.1
    {
      ResetRoundState(st);
      state, pendingMatchReset, loopRunning := Playing, false, true;
    }

    /** Lines 416-421: no players, no bodies, a 0-0 score and no winners. */
    method ClearMatch()
      requires Sound()
      modifies this`players, this`bodies, this`scores, this`roundWinner, this`matchWinner
      ensures Sound()
      ensures players == map[] && bodies == map[] && scores == [0, 0] && roundWinner.None? && matchWinner.None?
    {
      players, bodies := map[], map[];
      scores := [0, 0];
      roundWinner, matchWinner := None, None;
    }

    /**
     * `checkServerWinConditions` (lines 312-323): only while playing; the
     * first player in server order whose box is off screen loses the round
     * to the other; with no other player the match is reset and the state
     * falls back to waiting. At most one player is judged per tick.
     */
    method CheckWinConditions(st: Stage)
      requires Valid() && Playable(st)
      modifies this`players, this`bodies, this`scores, this`roundWinner, this`matchWinner, this`grounded, this`stage,
        this`state, this`pendingRoundReset, this`pendingMatchReset, this`loopRunning
      ensures Valid()
      ensures old(state) != Playing || FirstOffScreen(old(players)).None? ==> unchanged(this)
      ensures old(state) == Playing && FirstOffScreen(old(players)).Some? ==>
        var w := Other(FirstOffScreen(old(players)).value);
        && (w in old(players) ==>
              && scores == Credit(old(scores), w) && roundWinner == Some(w)
              && unchanged(this`players, this`bodies, this`stage, this`grounded, this`loopRunning)
              && (scores[Index(w)] >= RoundsToWinMatch ==>
                    state == MatchOver && matchWinner == Some(w) && pendingMatchReset
                    && pendingRoundReset == old(pendingRoundReset))
              && (scores[Index(w)] < RoundsToWinMatch ==>
                    state == RoundOver && pendingRoundReset
                    && matchWinner == old(matchWinner) && pendingMatchReset == old(pendingMatchReset)))
        && (w !in old(players) ==> state == Waiting && MatchRestarted(st))
    {
      if state != Playing {
        return;
      }
      var loser := FindOffScreen(players);
      if loser.Some? {
        var w := Other(loser.value);
        if w in players {
          HandleRoundEnd(w);
        } else {
          ResetToWaiting(st);
        }
      }
    }

    /**
     * Line 319: a player falls off with no opponent to credit; the match is
     * reset (with two clients, so it restarts and the loop keeps running)
     * and the state is then forced back to waiting.
     */
    method ResetToWaiting(st: Stage)
      requires Valid() && Playable(st) && state == Playing
      modifies this`players, this`bodies, this`scores, this`roundWinner, this`matchWinner, this`grounded, this`stage,
        this`state, this`pendingRoundReset, this`pendingMatchReset, this`loopRunning
      ensures Valid()
      ensures state == Waiting && MatchRestarted(st)
    {
      ResetMatchAndStartNew(st);
      state := Waiting;
    }

    /**
     * One `gameTick` (lines 137-157) with `deltaTime` as a parameter: only
     * while playing, the timer pass, the input pass, the opaque physics step,
     * the copy back from the bodies and the win check, in that order.
     */
    method GameTick(dt: int, inputs: map<Slot, Input>, moved: map<Slot, Body>, standing: set<Slot>, st: Stage)
      requires Valid() && Playable(st)
      modifies this`players, this`timers, this`bodies, this`scores, this`roundWinner, this`matchWinner,
        this`grounded, this`stage, this`state, this`pendingRoundReset, this`pendingMatchReset, this`loopRunning
      ensures Valid()
      ensures old(Populated()) ==> Populated()
      ensures old(state) != Playing ==> unchanged(this)
      ensures old(state) == Playing && state != Waiting ==>
        players.Keys == old(players).Keys && scores[0] >= old(scores)[0] && scores[1] >= old(scores)[1]
    {
      if state != Playing {
        return;
      }
      Advance(dt, inputs, moved, standing);
      CheckWinConditions(st);
    }

    /** Lines 143-153, before the win check: the timer pass, the input pass, the physics step and the copy back. */
    method Advance(dt: int, inputs: map<Slot, Input>, moved: map<Slot, Body>, standing: set<Slot>)
      requires Sound()
      modifies this`players, this`timers, this`bodies, this`grounded
      ensures Sound() && players.Keys == old(players).Keys
    {
      TickTimers(dt);
      ProcessInputs(inputs);
      PhysicsStep(moved, standing);
      UpdateStateFromPhysics();
    }

    /** The "request_next_round" message (line 465): acts only in roundOver with a round reset pending. */
    method RequestNextRound(st: Stage)
      requires Valid() && Playable(st)
      modifies this`grounded, this`stage, this`bodies, this`players, this`roundWinner, this`pendingRoundReset,
        this`state
      ensures Valid()
      ensures !(old(state) == RoundOver && old(pendingRoundReset)) ==> unchanged(this)
      ensures old(state) == RoundOver && old(pendingRoundReset) ==>
        && state == Playing && roundWinner.None? && !pendingRoundReset && grounded == {}
        && stage == Some(st) && var r := Roster(st, KindFor(old(players), P1), KindFor(old(players), P2)); players == r.0 && bodies == r.1
    {
      if state == RoundOver && pendingRoundReset {
        ResetRoundState(st);
        state := Playing;
      }
    }

    /** The "request_new_match" message (line 467): acts only in matchOver with a match reset pending. */
    method RequestNewMatch(st: Stage)
      requires Valid() && Playable(st)
      modifies this`players, this`bodies, this`scores, this`roundWinner, this`matchWinner, this`grounded, this`stage,
        this`state, this`pendingRoundReset, this`pendingMatchReset, this`loopRunning
      ensures Valid()
      ensures !(old(state) == MatchOver && old(pendingMatchReset)) ==> unchanged(this)
      ensures old(state) == MatchOver && old(pendingMatchReset) ==> state == Playing && MatchRestarted(st)
    {
      if state == MatchOver && pendingMatchReset {
        ResetMatchAndStartNew(st);
      }
    }

    /**
     * A client connects (lines 446-453): a third client is turned away; the
     * second one, while waiting, starts a new match.
     */
    method OnConnect(st: Stage)
      requires Valid() && Playable(st)
      modifies this`clients, this`players, this`bodies, this`scores, this`roundWinner, this`matchWinner, this`grounded,
        this`stage, this`state, this`pendingRoundReset, this`pendingMatchReset, this`loopRunning
      ensures Valid()
      ensures old(Populated()) ==> Populated()
      ensures old(clients) == 2 ==> unchanged(this)
      ensures old(clients) < 2 ==> clients == old(clients) + 1
      ensures old(clients) == 1 ==> state == Playing && MatchRestarted(st)
      ensures old(clients) == 0 ==>
        unchanged(this`players, this`bodies, this`scores, this`roundWinner, this`matchWinner, this`grounded,
                  this`stage, this`state, this`pendingRoundReset, this`pendingMatchReset, this`loopRunning)
    {
      if clients == 2 {
        return;
      }
      clients := clients + 1;
      if clients == 2 && state == Waiting {
        ResetMatchAndStartNew(st);
      }
    }

    /**
     * A client disconnects (lines 472-476): with fewer than two clients left,
     * a running game stops, goes back to waiting and drops both players;
     * scores, winners and pending flags are left as they were.
     */
    method OnDisconnect()
      requires Valid()
      modifies this`clients, this`loopRunning, this`state, this`players
      ensures Valid() && Populated()
      ensures clients == if old(clients) > 0 then old(clients) - 1 else 0
      ensures state == Waiting
      ensures old(state) != Waiting ==> players == map[] && !loopRunning
      ensures old(state) == Waiting ==> players == old(players) && loopRunning == old(loopRunning)
    {
      if clients > 0 {
        clients := clients - 1;
      }
      if clients < 2 && state != Waiting {
        loopRunning := false;
        state := Waiting;
        players := map[];
      }
    }
  }
}

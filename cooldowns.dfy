/**
 * The per-player countdowns of server.js: for each of basic attack, special
 * attack and guard an active timer (how long the status flag stays on) and a
 * cooldown timer (how long until the ability can be used again), plus the
 * ledge-hang countdown. The source keeps seven parallel maps keyed by player
 * id; here they are one record per player.
 *
 * Timers are integers of milliseconds. They are NOT clamped at zero: a tick
 * subtracts the whole elapsed time from every positive timer, so a timer can
 * end below zero, and every gate tests `<= 0`.
 */
module Cooldowns {
  import opened Catalog

  datatype Ability = Basic | Special | Guard

  function CooldownOf(a: Ability): int {
    match a
    case Basic => BasicAttackCooldown
    case Special => SpecialAttackCooldown
    case Guard => GuardCooldown
  }

  function DurationOf(a: Ability): int {
    match a
    case Basic => BasicAttackDuration
    case Special => SpecialAttackDuration
    case Guard => GuardDuration
  }

  datatype AbilityTimer = AbilityTimer(cooldown: int, active: int)

  datatype Timers = Timers(basic: AbilityTimer, special: AbilityTimer, guard: AbilityTimer, ledgeHang: int)
  {
    function Of(a: Ability): AbilityTimer {
      match a
      case Basic => basic
      case Special => special
      case Guard => guard
    }
  }

  /** The value every timer map starts with. */
  const AllClear := Timers(AbilityTimer(0, 0), AbilityTimer(0, 0), AbilityTimer(0, 0), 0)

  /** The activation gate: both the active timer and the cooldown have run out. */
  predicate Ready(t: AbilityTimer) {
    t.active <= 0 && t.cooldown <= 0
  }

  /** The timers an activation sets: the full cooldown and the shorter active window. */
  function Start(a: Ability): (t: AbilityTimer)
    ensures 0 < t.active < t.cooldown
    ensures !Ready(t)
  {
    AbilityTimer(CooldownOf(a), DurationOf(a))
  }

  /** One tick of one timer: only a positive timer moves, by the whole elapsed time. */
  function Countdown(t: int, dt: int): (r: int)
    ensures t <= 0 ==> r == t
    ensures t > 0 ==> r + dt == t
  {
    if t > 0 then t - dt else t
  }

  /** The timer was running and reached zero or below during this tick. */
  predicate Expires(t: int, dt: int) {
    t > 0 && t - dt <= 0
  }

  function TickAbility(t: AbilityTimer, dt: int): AbilityTimer {
    AbilityTimer(Countdown(t.cooldown, dt), Countdown(t.active, dt))
  }

  /**
   * The relation an activation establishes and ticks keep: while the active
   * window runs, the cooldown runs exactly (cooldown - duration) behind it.
   */
  ghost predicate InStep(a: Ability, t: AbilityTimer) {
    t.active > 0 ==> t.cooldown == t.active + CooldownOf(a) - DurationOf(a)
  }

  lemma StartInStep(a: Ability)
    ensures InStep(a, Start(a))
  {
  }

  lemma TickKeepsInStep(a: Ability, t: AbilityTimer, dt: int)
    requires InStep(a, t)
    ensures InStep(a, TickAbility(t, dt))
  {
  }

  /** While the two timers run in step, the gate is decided by the cooldown alone. */
  lemma ReadyIsCooldownOver(a: Ability, t: AbilityTimer)
    requires InStep(a, t)
    ensures Ready(t) <==> t.cooldown <= 0
  {
  }

  function Sum(dts: seq<int>): int {
    if dts == [] then 0 else dts[0] + Sum(dts[1..])
  }

  /** A timer after a whole sequence of ticks with the given elapsed times. */
  function CountdownOver(t: int, dts: seq<int>): int
    decreases |dts|
  {
    if dts == [] then t else CountdownOver(Countdown(t, dts[0]), dts[1..])
  }

  /** An ability's two timers after a sequence of ticks. */
  function TickAbilityOver(t: AbilityTimer, dts: seq<int>): (r: AbilityTimer)
    ensures r.cooldown == CountdownOver(t.cooldown, dts)
    ensures r.active == CountdownOver(t.active, dts)
    decreases |dts|
  {
    if dts == [] then t else TickAbilityOver(TickAbility(t, dts[0]), dts[1..])
  }

  lemma {:induction false} SumNonNegative(dts: seq<int>)
    requires forall i | 0 <= i < |dts| :: dts[i] >= 0
    ensures Sum(dts) >= 0
  {
    if dts != [] {
      SumNonNegative(dts[1..]);
    }
  }

  /** A timer that is not running stays where it is. */
  lemma {:induction false} StoppedStaysPut(t: int, dts: seq<int>)
    requires t <= 0
    ensures CountdownOver(t, dts) == t
  {
    if dts != [] {
      StoppedStaysPut(t, dts[1..]);
    }
  }

  /**
   * With a clock that never runs backwards, a timer has run out exactly when
   * the elapsed time adds up to at least its starting value.
   */
  lemma {:induction false} RunsOutWhenTimeIsUp(t: int, dts: seq<int>)
    requires forall i | 0 <= i < |dts| :: dts[i] >= 0
    ensures CountdownOver(t, dts) <= 0 <==> t <= 0 || Sum(dts) >= t
    decreases |dts|
  {
    if t <= 0 {
      StoppedStaysPut(t, dts);
    } else if dts != [] {
      var t' := Countdown(t, dts[0]);
      SumNonNegative(dts[1..]);
      if t' <= 0 {
        StoppedStaysPut(t', dts[1..]);
      } else {
        RunsOutWhenTimeIsUp(t', dts[1..]);
      }
    }
  }

  /**
   * Since nothing clamps them, timers go below zero, but never by a full
   * tick: a timer that ran out ends above minus the longest tick.
   */
  lemma {:induction false} OvershootUnderOneTick(t: int, dts: seq<int>, longest: int)
    requires forall i | 0 <= i < |dts| :: dts[i] <= longest
    ensures CountdownOver(t, dts) >= t || CountdownOver(t, dts) > -longest
    decreases |dts|
  {
    if t <= 0 {
      StoppedStaysPut(t, dts);
    } else if dts != [] {
      var t' := Countdown(t, dts[0]);
      if t' <= 0 {
        StoppedStaysPut(t', dts[1..]);
      } else {
        OvershootUnderOneTick(t', dts[1..], longest);
      }
    }
  }

  /**
   * After an activation, the ability is ready again exactly when the ticks
   * since then add up to its full cooldown.
   */
  lemma ReadyAgainAfterCooldown(a: Ability, dts: seq<int>)
    requires forall i | 0 <= i < |dts| :: dts[i] >= 0
    ensures Ready(TickAbilityOver(Start(a), dts)) <==> Sum(dts) >= CooldownOf(a)
  {
    RunsOutWhenTimeIsUp(CooldownOf(a), dts);
    RunsOutWhenTimeIsUp(DurationOf(a), dts);
  }

  /**
   * The active timer an activation starts has run out exactly when the ticks
   * since then add up to the ability's duration. (The timer pass lowers the
   * status flag on the tick the active timer runs out: `Turns.TickedPlayer`.)
   */
  lemma FlagDropsAfterDuration(a: Ability, dts: seq<int>)
    requires forall i | 0 <= i < |dts| :: dts[i] >= 0
    ensures TickAbilityOver(Start(a), dts).active <= 0 <==> Sum(dts) >= DurationOf(a)
  {
    RunsOutWhenTimeIsUp(DurationOf(a), dts);
  }
}

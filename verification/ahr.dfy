/**
  The AHR envelope: a modulation that rises from zero to an attack level, holds it, and falls
  back to zero, each stage lasting a modulated number of ticks and shaped by a curve.
*/
module AhrEnvelope {
  import opened Base

  // stages, also the indices of `level` and `time`
  const ATTACK: int := 0
  const HOLD: int := 1
  const RELEASE: int := 2
  const DONE: int := 3

  const CURVE_LINEAR: int := 0
  const CURVE_X_2: int := 1
  const CURVE_X_4: int := 2
  const CURVE_X_8: int := 3
  const CURVE_JUMP: int := 4

  const OPTION_ATTACK_CURVE: int := 0
  const OPTION_RELEASE_CURVE: int := 1
  const OPTION_ONE_SHOT: int := 2
  const OPTION_SYNC: int := 3

  /** Where the envelope is: its stage, the tick the stage began and the stage's length in ticks. */
  datatype Phase = Phase(state: int, start: real, interval: real)

  /**
    The stage transitions made at `tick`: while the current stage has run out, move to the next
    one, which begins where the previous one ended and lasts `ticksOf(time[stage])` ticks.
    Reaching DONE stops at once, leaving start and interval as they were; DONE never changes.
  */
  function Settle(p: Phase, tick: real, time: seq<real>, ticksOf: real -> real): (r: Phase)
    requires 0 <= p.state <= DONE && |time| == 4
    ensures p.state <= r.state <= DONE
    ensures p.state == DONE ==> r == p
    ensures r.state < DONE ==> tick < r.start + r.interval
    ensures p.start <= tick ==> r.start <= tick
    ensures r.state == p.state ==> r == p
    decreases DONE - p.state
  {
    if p.state == DONE || tick < p.start + p.interval then p
    else if p.state + 1 == DONE then Phase(DONE, p.start, p.interval)
    else Settle(Phase(p.state + 1, p.start + p.interval, ticksOf(time[p.state + 1])), tick, time, ticksOf)
  }

  /** A phase whose interval has run out settles as the next phase does. */
  lemma SettleAdvances(p: Phase, tick: real, time: seq<real>, ticksOf: real -> real)
    requires 0 <= p.state && p.state + 1 < DONE && |time| == 4 && p.start + p.interval <= tick
    ensures Settle(p, tick, time, ticksOf) ==
            Settle(Phase(p.state + 1, p.start + p.interval, ticksOf(time[p.state + 1])), tick, time, ticksOf)
  {
  }

  function Square(x: real): (r: real)
    ensures 0.0 <= x <= 1.0 ==> 0.0 <= r <= x
    ensures 1.0 < x ==> x < r
  {
    SquareBelow(x);
    x * x
  }

  lemma SquareBelow(x: real)
    ensures 0.0 <= x <= 1.0 ==> 0.0 <= x * x <= x
    ensures 1.0 < x ==> x < x * x
  {
    if 0.0 <= x <= 1.0 {
      MulNonnegReal(x, 1.0 - x);
      assert x - x * x == x * (1.0 - x);
    }
    if 1.0 < x {
      assert x * x - x == x * (x - 1.0);
      assert x * (x - 1.0) > 0.0;
    }
  }

  /** The curve applied to a stage's linear progress alpha. */
  function Shape(c: int, alpha: real): (r: real)
    ensures c == CURVE_JUMP ==> r == 1.0
    ensures c != CURVE_JUMP && alpha == 0.0 ==> r == 0.0
    ensures alpha == 1.0 ==> r == 1.0
    ensures 0.0 <= alpha <= 1.0 ==> 0.0 <= r <= 1.0
    ensures c != CURVE_JUMP && alpha < 0.0 ==> r < 0.0
  {
    if c == CURVE_X_2 then 1.0 - Square(1.0 - alpha)
    else if c == CURVE_X_4 then 1.0 - Square(Square(1.0 - alpha))
    else if c == CURVE_X_8 then 1.0 - Square(Square(Square(1.0 - alpha)))
    else if c == CURVE_JUMP then 1.0
    else alpha // linear, and any unknown curve code
  }

  /** The curve used in a stage: the attack curve in ATTACK, the release curve in RELEASE, else linear. */
  function CurveOf(state: int, attackCurve: int, releaseCurve: int): int
  {
    if state == ATTACK then attackCurve
    else if state == RELEASE then releaseCurve
    else CURVE_LINEAR
  }

  /** The level a stage starts from: DONE's level (zero) for ATTACK, else the previous stage's. */
  function FirstLevel(level: seq<real>, state: int): real
    requires |level| == 4 && 0 <= state < DONE
  {
    if state > ATTACK then level[state - 1] else level[DONE]
  }

  /**
    The envelope's output at `tick` in phase `ph`: DONE's level, or a curve-shaped move from the
    stage's first level towards its own level. Once the stage has begun the output never
    overshoots either of the two; with the tick still behind the stage's start it is moved the
    other way, past the first level (except under the JUMP curve).
  */
  function Sample(level: seq<real>, ph: Phase, tick: real, attackCurve: int, releaseCurve: int): (r: real)
    requires |level| == 4 && 0 <= ph.state <= DONE
    ensures ph.state == DONE ==> r == level[DONE]
    ensures ph.state < DONE && ph.start <= tick < ph.start + ph.interval ==>
      MinReal(FirstLevel(level, ph.state), level[ph.state]) <= r <= MaxReal(FirstLevel(level, ph.state), level[ph.state])
    ensures ph.state == HOLD && level[HOLD] == level[ATTACK] ==> r == level[ATTACK]
    ensures ph.state < DONE && tick == ph.start && CurveOf(ph.state, attackCurve, releaseCurve) != CURVE_JUMP ==>
      r == FirstLevel(level, ph.state)
    ensures ph.state < DONE && tick < ph.start && 0.0 < ph.interval &&
            CurveOf(ph.state, attackCurve, releaseCurve) != CURVE_JUMP &&
            FirstLevel(level, ph.state) != level[ph.state] ==>
      r < MinReal(FirstLevel(level, ph.state), level[ph.state]) || MaxReal(FirstLevel(level, ph.state), level[ph.state]) < r
  {
    if ph.state == DONE then level[DONE]
    else
      var alpha := Progress(tick, ph.start, ph.interval);
      Mix(FirstLevel(level, ph.state), level[ph.state], Shape(CurveOf(ph.state, attackCurve, releaseCurve), alpha))
  }

  /**
    How far `tick` is through a stage that began at `start` and lasts `interval` ticks: in [0, 1)
    while the stage runs, negative while the tick is still behind its start.
  */
  function Progress(tick: real, start: real, interval: real): (alpha: real)
    ensures start <= tick < start + interval ==> 0.0 <= alpha < 1.0
    ensures tick == start ==> alpha == 0.0
    ensures tick < start && 0.0 < interval ==> alpha < 0.0
  {
    ProgressSign(tick, start, interval);
    if interval == 0.0 then 0.0 else (tick - start) / interval
  }

  lemma ProgressSign(tick: real, start: real, interval: real)
    ensures start <= tick < start + interval ==> 0.0 <= (tick - start) / interval < 1.0
    ensures tick < start && 0.0 < interval ==> (tick - start) / interval < 0.0
  {
    if 0.0 < interval {
      QuotientBounds(tick - start, interval, 1.0, 0.0);
    }
  }

  /**
    The move a fraction a of the way from `first` to `last`: between the two for a in [0, 1],
    beyond `first` (away from `last`) for a negative a.
  */
  function Mix(first: real, last: real, a: real): (r: real)
    ensures 0.0 <= a <= 1.0 ==> MinReal(first, last) <= r <= MaxReal(first, last)
    ensures first == last ==> r == first
    ensures a == 0.0 ==> r == first
    ensures a < 0.0 && first != last ==> r < MinReal(first, last) || MaxReal(first, last) < r
  {
    MixBeyond(first, last, a);
    (1.0 - a) * first + a * last
  }

  lemma MixBeyond(first: real, last: real, a: real)
    ensures 0.0 <= a <= 1.0 ==> MinReal(first, last) <= (1.0 - a) * first + a * last <= MaxReal(first, last)
    ensures a < 0.0 && first != last ==>
      (1.0 - a) * first + a * last < MinReal(first, last) || MaxReal(first, last) < (1.0 - a) * first + a * last
  {
    if 0.0 <= a <= 1.0 {
      ConvexBetween(first, last, a);
    }
    if a < 0.0 && first != last {
      var r := (1.0 - a) * first + a * last;
      var step := a * (last - first);
      assert r == first + step;
      NegativeScale(a, last - first);
      if first < last {
        assert r < first;
      } else {
        assert first < r;
      }
    }
  }

  /** A negative factor turns the sign of a non-zero number. */
  lemma NegativeScale(a: real, d: real)
    requires a < 0.0 && d != 0.0
    ensures 0.0 < d ==> a * d < 0.0
    ensures d < 0.0 ==> 0.0 < a * d
  {
    if 0.0 < d {
      assert (-a) * d > 0.0;
    } else {
      assert (-a) * (-d) > 0.0;
    }
  }

  class AHR {
    /** Target level of each stage. */
    const level: array<real>
    /** Modulated length of each stage, before conversion to ticks. */
    const time: array<real>
    var start: real
    var interval: real
    var state: int
    var attackCurve: int
    var releaseCurve: int
    var oneshot: bool
    var sync: bool
    /** The modulation output. */
    var output: real

    ghost predicate Valid()
      reads this, level
    {
      && level.Length == 4 && time.Length == 4 && level != time
      && 0 <= state <= DONE
      && level[RELEASE] == 0.0 && level[DONE] == 0.0
      && (state <= HOLD ==> level[HOLD] == level[ATTACK])
    }

    function CurrentPhase(): Phase
      reads this
    {
      Phase(state, start, interval)
    }

    constructor ()
      ensures Valid() && fresh(level) && fresh(time)
      ensures state == ATTACK && start == 0.0 && interval == 0.0 && output == 0.0
      ensures attackCurve == CURVE_LINEAR && releaseCurve == CURVE_LINEAR && !oneshot && !sync
    {
      level := new real[4](_ => 0.0);
      time := new real[4](_ => 0.0);
      start := 0.0;
      interval := 0.0;
      state := ATTACK;
      attackCurve := CURVE_LINEAR;
      releaseCurve := CURVE_LINEAR;
      oneshot := false;
      sync := false;
      output := 0.0;
    }

    /** The value of an option; Java throws for an option index that does not exist. */
    function GetOptionValue(option: int): (r: Option<int>)
      reads this
      ensures r.Some? <==> OPTION_ATTACK_CURVE <= option <= OPTION_SYNC
      ensures option == OPTION_ONE_SHOT ==> r == Some(if oneshot then 1 else 0)
      ensures option == OPTION_SYNC ==> r == Some(if sync then 1 else 0)
    {
      if option == OPTION_ATTACK_CURVE then Some(attackCurve)
      else if option == OPTION_RELEASE_CURVE then Some(releaseCurve)
      else if option == OPTION_ONE_SHOT then Some(if oneshot then 1 else 0)
      else if option == OPTION_SYNC then Some(if sync then 1 else 0)
      else None
    }

    /** Sets an option; reading it back gives the value stored (a flag reads back as 0 or 1). */
    method SetOptionValue(option: int, value: int) returns (ok: bool)
      modifies this`attackCurve, this`releaseCurve, this`oneshot, this`sync
      ensures ok <==> OPTION_ATTACK_CURVE <= option <= OPTION_SYNC
      ensures option == OPTION_ATTACK_CURVE || option == OPTION_RELEASE_CURVE ==> GetOptionValue(option) == Some(value)
      ensures option == OPTION_ONE_SHOT || option == OPTION_SYNC ==>
        GetOptionValue(option) == Some(if value != 0 then 1 else 0)
      ensures forall o :: o != option ==> GetOptionValue(o) == old(GetOptionValue(o))
    {
      ok := true;
      if option == OPTION_ATTACK_CURVE {
        attackCurve := value;
      } else if option == OPTION_RELEASE_CURVE {
        releaseCurve := value;
      } else if option == OPTION_ONE_SHOT {
        oneshot := value != 0;
      } else if option == OPTION_SYNC {
        sync := value != 0;
      } else {
        ok := false;
      }
    }

    /**
      Starts the envelope: loads the stage times and levels (attack level held through HOLD, zero
      for RELEASE and DONE) and enters ATTACK at the sync tick for the attack's length.
    */
    method DoGate(attackTime: real, attackLevel: real, holdTime: real, releaseTime: real,
                  syncTick: int, ticksOf: real -> real)
      requires Valid()
      modifies level, time, this`state, this`start, this`interval
      ensures Valid()
      ensures time[..] == [attackTime, holdTime, releaseTime, 0.0]
      ensures level[..] == [attackLevel, attackLevel, 0.0, 0.0]
      ensures CurrentPhase() == Phase(ATTACK, syncTick as real, ticksOf(attackTime))
    {
      time[ATTACK] := attackTime;
      level[ATTACK] := attackLevel;
      time[HOLD] := holdTime;
      level[HOLD] := level[ATTACK];
      time[RELEASE] := releaseTime;
      level[RELEASE] := 0.0;
      time[DONE] := 0.0;
      level[DONE] := level[RELEASE];
      state := ATTACK;
      start := syncTick as real;
      interval := ticksOf(time[ATTACK]);
    }

    /**
      Releases the envelope unless it is one-shot: enters RELEASE at the sync tick, falling from
      the current output (stored as HOLD's level) to zero over the release time.
    */
    method DoRelease(syncTick: int, ticksOf: real -> real)
      requires Valid()
      modifies level, this`state, this`start, this`interval
      ensures Valid()
      ensures oneshot ==> CurrentPhase() == old(CurrentPhase()) && level[..] == old(level[..])
      ensures !oneshot ==> CurrentPhase() == Phase(RELEASE, syncTick as real, ticksOf(time[RELEASE]))
      ensures !oneshot ==> level[..] == old(level[..])[HOLD := old(output)]
    {
      if oneshot {
        return;
      }
      state := RELEASE;
      start := syncTick as real;
      interval := ticksOf(time[RELEASE]);
      level[HOLD] := output;
    }

    /**
      One tick: a gate trigger restarts the envelope, otherwise a release trigger releases it;
      then the stage transitions due at `tick` are made and the output is set.
    */
    method Go(gate: bool, release: bool, tick: int, attackTime: real, attackLevel: real,
              holdTime: real, releaseTime: real, ticksOf: real -> real)
      requires Valid()
      modifies level, time, this`state, this`start, this`interval, this`output
      ensures Valid()
      ensures gate ==> time[..] == [attackTime, holdTime, releaseTime, 0.0]
      ensures gate ==> level[..] == [attackLevel, attackLevel, 0.0, 0.0]
      ensures !gate ==> time[..] == old(time[..])
      ensures !gate && release && !oneshot ==> level[..] == old(level[..])[HOLD := old(output)]
      ensures !gate && !(release && !oneshot) ==> level[..] == old(level[..])
      ensures CurrentPhase() == Settle(old(Triggered(gate, release && !oneshot, tick, attackTime, ticksOf)),
                                       tick as real, time[..], ticksOf)
      ensures output == Sample(level[..], CurrentPhase(), tick as real, attackCurve, releaseCurve)
      ensures !gate && !(release && !oneshot) && old(state) < DONE && tick as real < old(start) && 0.0 < old(interval) ==>
        CurrentPhase() == old(CurrentPhase())
    {
      if gate {
        DoGate(attackTime, attackLevel, holdTime, releaseTime, tick, ticksOf);
      } else if release {
        DoRelease(tick, ticksOf);
      }
      Step(tick, ticksOf);
    }

    /** The phase the triggers leave before any transition is made. */
    function Triggered(gate: bool, released: bool, tick: int, attackTime: real, ticksOf: real -> real): Phase
      requires Valid()
      reads this, level, time
    {
      if gate then Phase(ATTACK, tick as real, ticksOf(attackTime))
      else if released then Phase(RELEASE, tick as real, ticksOf(time[RELEASE]))
      else CurrentPhase()
    }

    /**
      One transition: the stage whose interval has run out at t gives way to the next one, which
      starts where it ended and lasts that stage's time; after the release the envelope is done
      and keeps its last interval. The phase still settles at t to the same goal.
    */
    method NextStage(t: real, ticksOf: real -> real, ghost goal: Phase)
      requires Valid() && 0 <= state < DONE && start + interval <= t
      requires Settle(CurrentPhase(), t, time[..], ticksOf) == goal
      modifies this`state, this`start, this`interval
      ensures Valid() && state == old(state) + 1
      ensures state == DONE ==> CurrentPhase() == goal && start == old(start) && interval == old(interval)
      ensures state < DONE ==>
        start == old(start + interval) && interval == ticksOf(time[state]) && start <= t &&
        Settle(CurrentPhase(), t, time[..], ticksOf) == goal
    {
      ghost var before := CurrentPhase();
      state := state + 1;
      if state < DONE {
        start := start + interval;
        interval := ticksOf(time[state]);
        SettleAdvances(before, t, time[..], ticksOf);
        assert CurrentPhase() == Phase(before.state + 1, before.start + before.interval, ticksOf(time[..][before.state + 1]));
      }
    }

    /** The transition loop and the output computation at `tick`. */
    method Step(tick: int, ticksOf: real -> real)
      requires Valid()
      modifies this`state, this`start, this`interval, this`output
      ensures Valid()
      ensures CurrentPhase() == Settle(old(CurrentPhase()), tick as real, time[..], ticksOf)
      ensures output == Sample(level[..], CurrentPhase(), tick as real, attackCurve, releaseCurve)
    {
      var t := tick as real;
      if state == DONE {
        output := level[DONE];
        return;
      }
      ghost var goal := Settle(CurrentPhase(), t, time[..], ticksOf);
      while t >= start + interval
        invariant 0 <= state < DONE
        invariant Settle(CurrentPhase(), t, time[..], ticksOf) == goal
        invariant Valid()
        decreases DONE - state
      {
        NextStage(t, ticksOf, goal);
        if state == DONE {
          output := level[DONE];
          return;
        }
      }
      assert CurrentPhase() == goal;
      // the output: a curve-shaped step from the stage's first level towards its own level
      output := Sample(level[..], CurrentPhase(), t, attackCurve, releaseCurve);
    }
  }
}

/**
 * `StopWatch`: a measuring flag, start and stop time points and an
 * accumulated duration in microseconds. Clock readings are passed in as
 * integer microseconds (`now`); the console output of `Print` is not modelled.
 */
module Stopwatch {

  /** `TimeBase`: seconds, milliseconds, microseconds. */
  datatype TimeBase = S | Ms | Us

  /** The factor that turns accumulated microseconds into the requested unit. */
  function TimeBaseFactor(timeBase: TimeBase): (f: real)
    ensures f > 0.0
  {
    match timeBase
    case S => 0.000001
    case Ms => 0.001
    case Us => 1.0
  }

  /** Scaling by the factor converts microseconds: 10^6 µs make one second, 10^3 one millisecond. */
  lemma FactorConvertsMicroseconds()
    ensures 1000000.0 * TimeBaseFactor(S) == 1.0
    ensures 1000.0 * TimeBaseFactor(Ms) == 1.0
    ensures TimeBaseFactor(Us) == 1.0
    ensures TimeBaseFactor(S) * 1000.0 == TimeBaseFactor(Ms)
  {
  }

  const Int32Modulus: int := 0x1_0000_0000

  /** `static_cast<int>` of a 64-bit count: the value modulo 2^32 in [-2^31, 2^31). */
  function ToInt32(v: int): (r: int)
    ensures -0x8000_0000 <= r < 0x8000_0000
    ensures (v - r) % Int32Modulus == 0
    ensures -0x8000_0000 <= v < 0x8000_0000 ==> r == v
  {
    var m := v % Int32Modulus;
    var r := if m >= 0x8000_0000 then m - Int32Modulus else m;
    assert v - r == (v / Int32Modulus + (if m >= 0x8000_0000 then 1 else 0)) * Int32Modulus;
    r
  }

  /** `DurationMs`: the microseconds from `first` to `second`, narrowed to `int`. */
  function DurationMs(first: int, second: int): (d: int)
    ensures -0x8000_0000 <= second - first < 0x8000_0000 ==> d == second - first
  {
    ToInt32(second - first)
  }

  /** The fields of a stopwatch, as a value. */
  datatype State = State(measuring: bool, start: int, stop: int, duration: real)

  /** A default-constructed time point is the clock's epoch. */
  const Epoch: int := 0

  function ResetState(s: State): State {
    s.(measuring := false, duration := 0.0)
  }

  function StartState(s: State, now: int): State {
    if s.measuring then s else ResetState(s).(measuring := true, start := now)
  }

  function ResumeState(s: State, now: int): State {
    if s.measuring then s else s.(measuring := true, start := now)
  }

  /** The constructor: idle with nothing accumulated, then `Start` if asked to. */
  function NewState(startNow: bool, now: int): State {
    var s := State(false, Epoch, Epoch, 0.0);
    if startNow then StartState(s, now) else s
  }

  datatype Reading = Reading(state: State, value: real)

  /**
   * `Stop`: while idle nothing changes and the accumulated microseconds are
   * returned unscaled; otherwise measuring ends, the time since the start is
   * added and the total is returned in the requested unit.
   */
  function StopState(s: State, timeBase: TimeBase, now: int): Reading {
    if !s.measuring then Reading(s, s.duration)
    else
      var t := s.(measuring := false, stop := now, duration := s.duration + DurationMs(s.start, now) as real);
      Reading(t, t.duration * TimeBaseFactor(timeBase))
  }

  /** `Duration`: adds the time since the start and restarts from now, measuring or not. */
  function DurationState(s: State, timeBase: TimeBase, now: int): Reading {
    var t := s.(stop := now, duration := s.duration + DurationMs(s.start, now) as real, start := now);
    Reading(t, t.duration * TimeBaseFactor(timeBase))
  }

  /** `StopPrint`: `Stop` in milliseconds, then the total in the requested unit. */
  function StopPrintState(s: State, timeBase: TimeBase, now: int): Reading {
    var t := StopState(s, Ms, now).state;
    Reading(t, t.duration * TimeBaseFactor(timeBase))
  }

  /** A new stopwatch is idle with nothing accumulated unless it starts at once, measuring from now. */
  lemma NewStopwatch(startNow: bool, now: int)
    ensures NewState(startNow, now).measuring == startNow
    ensures NewState(startNow, now).duration == 0.0
    ensures startNow ==> NewState(startNow, now).start == now
  {
  }

  /** `Start` and `Resume` while measuring change nothing, so both are idempotent. */
  lemma StartResumeWhileMeasuring(s: State, now: int, later: int)
    ensures s.measuring ==> StartState(s, now) == s && ResumeState(s, now) == s
    ensures StartState(StartState(s, now), later) == StartState(s, now)
    ensures ResumeState(ResumeState(s, now), later) == ResumeState(s, now)
  {
  }

  /**
   * `Start` discards what was accumulated while `Resume` keeps it: from the
   * same idle state they differ exactly in the duration.
   */
  lemma StartVersusResume(s: State, now: int)
    requires !s.measuring
    ensures StartState(s, now).measuring && ResumeState(s, now).measuring
    ensures StartState(s, now).start == now == ResumeState(s, now).start
    ensures StartState(s, now).duration == 0.0 && ResumeState(s, now).duration == s.duration
    ensures StartState(s, now) == ResumeState(s, now).(duration := 0.0)
  {
  }

  /** Stopping while idle changes nothing and returns the raw micro-second total, whatever the unit. */
  lemma StopWhileIdle(s: State, timeBase: TimeBase, now: int)
    requires !s.measuring
    ensures StopState(s, timeBase, now).state == s
    ensures StopState(s, timeBase, now).value == s.duration
  {
  }

  /**
   * A measurement from `Start` at t0 to `Stop` at t1 reports t1 - t0
   * microseconds (narrowed to `int`) in the requested unit and leaves the
   * stopwatch idle with that total.
   */
  lemma StartStopMeasures(s: State, t0: int, t1: int, timeBase: TimeBase)
    ensures var r := StopState(StartState(s, t0), timeBase, t1);
      !s.measuring ==>
        (!r.state.measuring && r.state.duration == DurationMs(t0, t1) as real
         && r.value == DurationMs(t0, t1) as real * TimeBaseFactor(timeBase))
  {
  }

  /** `Resume` after `Stop` adds the new interval to the old total. */
  lemma ResumeAccumulates(s: State, t0: int, t1: int, t2: int, timeBase: TimeBase)
    requires s.measuring
    ensures var stopped := StopState(s, Ms, t0).state;
      var r := StopState(ResumeState(stopped, t1), timeBase, t2);
      r.state.duration == s.duration + DurationMs(s.start, t0) as real + DurationMs(t1, t2) as real
      && !r.state.measuring
  {
  }

  /** A second `Stop` changes no state; it reports the unscaled total, unlike the first (unless the unit is µs). */
  lemma StopTwice(s: State, timeBase: TimeBase, t0: int, t1: int)
    requires s.measuring
    ensures var first := StopState(s, timeBase, t0);
      var second := StopState(first.state, timeBase, t1);
      second.state == first.state && second.value == first.state.duration
      && first.value == first.state.duration * TimeBaseFactor(timeBase)
  {
  }

  /**
   * Successive `Duration` calls split time without losing any: the total
   * grows by each interval, the start moves to the last reading, and the
   * measuring flag is untouched.
   */
  lemma DurationSplits(s: State, t1: int, t2: int, timeBase: TimeBase)
    ensures var r1 := DurationState(s, timeBase, t1);
      var r2 := DurationState(r1.state, timeBase, t2);
      r2.state.duration == s.duration + DurationMs(s.start, t1) as real + DurationMs(t1, t2) as real
      && r2.state.start == t2 && r2.state.measuring == s.measuring
  {
  }

  /** `Reset` leaves an idle stopwatch with nothing accumulated, whatever came before. */
  lemma ResetClears(s: State, now: int, timeBase: TimeBase)
    ensures !ResetState(s).measuring && ResetState(s).duration == 0.0
    ensures ResetState(ResetState(s)) == ResetState(s)
    ensures StopState(ResetState(s), timeBase, now).value == 0.0
  {
  }

  /** `StopPrint` stops in milliseconds and reports the stopped total in the requested unit. */
  lemma StopPrintReports(s: State, timeBase: TimeBase, now: int)
    ensures StopPrintState(s, timeBase, now).state == StopState(s, timeBase, now).state
    ensures StopPrintState(s, timeBase, now).value ==
      StopState(s, timeBase, now).state.duration * TimeBaseFactor(timeBase)
    ensures s.measuring ==> StopPrintState(s, timeBase, now).value == StopState(s, timeBase, now).value
  {
  }

  /**
   * The stopwatch object; each method's new state is the matching function of
   * the old one. The time base defaults to milliseconds and the constructor to
   * not starting, as in the C++ declarations.
   */
  class StopWatch {
    var measuring: bool
    var start: int
    var stop: int
    var duration: real

    function Snapshot(): State
      reads this
    {
      State(measuring, start, stop, duration)
    }

    constructor (now: int, startNow: bool := false)
      ensures Snapshot() == NewState(startNow, now)
    {
      measuring := false;
      start := Epoch;
      stop := Epoch;
      duration := 0.0;
      new;
      if startNow {
        Start(now);
      }
    }

    method Start(now: int)
      modifies this
      ensures Snapshot() == StartState(old(Snapshot()), now)
    {
      if measuring {
        return;
      }
      Reset();
      measuring := true;
      start := now;
    }

    method Resume(now: int)
      modifies this
      ensures Snapshot() == ResumeState(old(Snapshot()), now)
    {
      if measuring {
        return;
      }
      measuring := true;
      start := now;
    }

    method Stop(now: int, timeBase: TimeBase := Ms) returns (r: real)
      modifies this
      ensures Reading(Snapshot(), r) == StopState(old(Snapshot()), timeBase, now)
    {
      if !measuring {
        return duration;
      }
      measuring := false;
      stop := now;
      duration := duration + DurationMs(start, stop) as real;
      return duration * TimeBaseFactor(timeBase);
    }

    method StopPrint(now: int, timeBase: TimeBase := Ms) returns (r: real)
      modifies this
      ensures Reading(Snapshot(), r) == StopPrintState(old(Snapshot()), timeBase, now)
    {
      var _ := Stop(now);
      return duration * TimeBaseFactor(timeBase);
    }

    method Duration(now: int, timeBase: TimeBase := Ms) returns (r: real)
      modifies this
      ensures Reading(Snapshot(), r) == DurationState(old(Snapshot()), timeBase, now)
    {
      stop := now;
      duration := duration + DurationMs(start, stop) as real;
      start := stop;
      return duration * TimeBaseFactor(timeBase);
    }

    method Reset()
      modifies this
      ensures Snapshot() == ResetState(old(Snapshot()))
    {
      measuring := false;
      duration := 0.0;
    }
  }
}

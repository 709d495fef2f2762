/**
 The beat clock of the in-game scene: a stopwatch whose elapsed milliseconds
 are folded into a four-minute loop and exposed as an `int`.

 The .NET `Stopwatch` is modelled as a record read against the host's
 monotonic clock, which every operation takes as the parameter `nowMs`.
 */
module BeatTimer {
  import Int32

  /** Length of the loop: 60 * 4 * 1000 ms, four minutes. */
  const LoopMilliseconds: nat := 60 * 4 * 1000

  /** A .NET `Stopwatch`: time accumulated over earlier runs, plus the host
      clock reading at which the current run started when it is running. */
  datatype Stopwatch = Stopwatch(running: bool, accumulatedMs: nat, startedAtMs: nat)

  /** The host clock never reads earlier than the start of the current run. */
  predicate ClockValid(sw: Stopwatch, nowMs: nat) {
    sw.running ==> sw.startedAtMs <= nowMs
  }

  function ElapsedMilliseconds(sw: Stopwatch, nowMs: nat): (e: nat)
    requires ClockValid(sw, nowMs)
    ensures !sw.running ==> e == sw.accumulatedMs
    ensures sw.running ==> e == sw.accumulatedMs + (nowMs - sw.startedAtMs)
  {
    if sw.running then sw.accumulatedMs + (nowMs - sw.startedAtMs) else sw.accumulatedMs
  }

  /** `Stopwatch.Reset`: stops the stopwatch and discards the elapsed time. */
  function StopwatchReset(): (sw: Stopwatch)
    ensures !sw.running && sw.accumulatedMs == 0
  {
    Stopwatch(false, 0, 0)
  }

  /** `Stopwatch.Start`: resumes measuring; starting a running stopwatch has no effect. */
  function StopwatchStart(sw: Stopwatch, nowMs: nat): (r: Stopwatch)
    requires ClockValid(sw, nowMs)
    ensures r.running && ClockValid(r, nowMs)
    ensures ElapsedMilliseconds(r, nowMs) == ElapsedMilliseconds(sw, nowMs)
    ensures !sw.running ==> r.startedAtMs == nowMs
  {
    if sw.running then sw else Stopwatch(true, sw.accumulatedMs, nowMs)
  }

  /** The component: its stopwatch and the last published beat time. */
  datatype Timer = Timer(stopwatch: Stopwatch, beatTimeMilliseconds: int)

  /** A component before `Awake`: the stopwatch field is a fresh, stopped
      `Stopwatch` and the property holds its default value. */
  const Unawakened: Timer := Timer(Stopwatch(false, 0, 0), 0)

  /** `ResetTimer`: reset and restart the stopwatch and publish 0. */
  function ResetTimer(t: Timer, nowMs: nat): (r: Timer)
    ensures r.beatTimeMilliseconds == 0
    ensures r.stopwatch.running
    ensures forall later: nat ::
              nowMs <= later ==>
                ClockValid(r.stopwatch, later) && ElapsedMilliseconds(r.stopwatch, later) == later - nowMs
  {
    Timer(StopwatchStart(StopwatchReset(), nowMs), 0)
  }

  /** `Awake`: the timer is reset once when the component wakes up. */
  function Awake(t: Timer, nowMs: nat): (r: Timer)
    ensures r.beatTimeMilliseconds == 0
    ensures r.stopwatch.running
    ensures forall later: nat ::
              nowMs <= later ==>
                ClockValid(r.stopwatch, later) && ElapsedMilliseconds(r.stopwatch, later) == later - nowMs
  {
    ResetTimer(t, nowMs)
  }

  /** `Update`: the elapsed `long` reduced modulo the loop and cast to `int`. */
  function Update(t: Timer, nowMs: nat): (r: Timer)
    requires ClockValid(t.stopwatch, nowMs)
    ensures r.stopwatch == t.stopwatch
    ensures 0 <= r.beatTimeMilliseconds < LoopMilliseconds
    ensures Int32.InRange(r.beatTimeMilliseconds)
    ensures (r.beatTimeMilliseconds - ElapsedMilliseconds(t.stopwatch, nowMs)) % LoopMilliseconds == 0
  {
    Timer(t.stopwatch, Int32.Wrap(ElapsedMilliseconds(t.stopwatch, nowMs) % LoopMilliseconds))
  }

  /** `e` milliseconds after a reset the timer reads `e` folded into the loop. */
  lemma UpdateAfterReset(t: Timer, nowMs: nat, e: nat)
    ensures Update(ResetTimer(t, nowMs), nowMs + e).beatTimeMilliseconds == e % LoopMilliseconds
  {
  }

  /** Publishing twice at the same clock reading publishes the same value. */
  lemma UpdateIdempotent(t: Timer, nowMs: nat)
    requires ClockValid(t.stopwatch, nowMs)
    ensures Update(Update(t, nowMs), nowMs) == Update(t, nowMs)
  {
  }

  /** The reading repeats after one loop period while the stopwatch runs. */
  lemma UpdatePeriodic(t: Timer, nowMs: nat)
    requires t.stopwatch.running && ClockValid(t.stopwatch, nowMs)
    ensures Update(t, nowMs + LoopMilliseconds).beatTimeMilliseconds
         == Update(t, nowMs).beatTimeMilliseconds
  {
    var e := ElapsedMilliseconds(t.stopwatch, nowMs);
    assert ElapsedMilliseconds(t.stopwatch, nowMs + LoopMilliseconds) == e + LoopMilliseconds;
  }

  /** A timer that has never been awoken is stopped, so it keeps reading 0. */
  lemma UnawakenedReadsZero(nowMs: nat)
    ensures Update(Unawakened, nowMs).beatTimeMilliseconds == 0
  {
  }
}

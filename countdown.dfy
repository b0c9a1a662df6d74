// The study timer as a state machine over its three fields. Starting is
// guarded by the running flag; each one-second tick of the scheduled callback
// takes one second off and reports completion once nothing remains.

module Countdown {

  datatype TimerState = TimerState(duration: int, remaining: int, isRunning: bool)

  /** Twenty-five minutes, in seconds. */
  const DEFAULT_DURATION: int := 25 * 60

  /** The state set up when the application starts: full time left, not running. */
  const SETUP: TimerState := TimerState(DEFAULT_DURATION, DEFAULT_DURATION, false)

  /** Starting does nothing to a running timer; otherwise it sets the running
      flag and leaves the time alone. */
  function Start(s: TimerState): (r: TimerState)
    ensures r.isRunning
    ensures r.duration == s.duration && r.remaining == s.remaining
    ensures s.isRunning ==> r == s
  {
    if s.isRunning then s else s.(isRunning := true)
  }

  /** One tick: one second less, and completion is signalled when the time left
      is zero or below. Nothing stops the ticks, so the count goes on below zero. */
  function Tick(s: TimerState): (r: (TimerState, bool))
    ensures r.0.remaining == s.remaining - 1
    ensures r.0.duration == s.duration && r.0.isRunning == s.isRunning
    ensures r.1 <==> s.remaining <= 1
  {
    var next := s.(remaining := s.remaining - 1);
    (next, next.remaining <= 0)
  }

  /** The state after `n` ticks. */
  function Run(s: TimerState, n: nat): TimerState
    decreases n
  {
    if n == 0 then s else Run(Tick(s).0, n - 1)
  }

  /** How many of `n` ticks signal completion. */
  function Completions(s: TimerState, n: nat): nat
    decreases n
  {
    if n == 0 then 0 else (if Tick(s).1 then 1 else 0) + Completions(Tick(s).0, n - 1)
  }

  /** After `n` ticks exactly `n` seconds have gone; nothing else changes. */
  lemma {:induction false} RunTakesSeconds(s: TimerState, n: nat)
    ensures Run(s, n) == s.(remaining := s.remaining - n)
    decreases n
  {
    if n > 0 {
      RunTakesSeconds(Tick(s).0, n - 1);
    }
  }

  /** With `remaining` seconds left (at least one), the first `remaining - 1`
      ticks are silent and every tick from then on signals completion. */
  lemma {:induction false} CompletionsCount(s: TimerState, n: nat)
    requires s.remaining >= 1
    ensures Completions(s, n) == if n < s.remaining then 0 else n - s.remaining + 1
    decreases n
  {
    if n > 0 {
      if s.remaining == 1 {
        CompletionsWhenExpired(Tick(s).0, n - 1);
      } else {
        CompletionsCount(Tick(s).0, n - 1);
      }
    }
  }

  /** Once nothing is left, every tick signals completion. */
  lemma {:induction false} CompletionsWhenExpired(s: TimerState, n: nat)
    requires s.remaining <= 0
    ensures Completions(s, n) == n
    decreases n
  {
    if n > 0 {
      CompletionsWhenExpired(Tick(s).0, n - 1);
    }
  }

  /** From the set-up state, a started timer signals completion for the first
      time on its 1500th tick, with no time left, and once more on every later
      tick. */
  lemma StartedTimerCompletes(n: nat)
    ensures Run(Start(SETUP), DEFAULT_DURATION).remaining == 0
    ensures Completions(Start(SETUP), DEFAULT_DURATION - 1) == 0
    ensures Completions(Start(SETUP), DEFAULT_DURATION) == 1
    ensures n >= DEFAULT_DURATION ==> Completions(Start(SETUP), n) == n - DEFAULT_DURATION + 1
  {
    RunTakesSeconds(Start(SETUP), DEFAULT_DURATION);
    CompletionsCount(Start(SETUP), DEFAULT_DURATION - 1);
    CompletionsCount(Start(SETUP), DEFAULT_DURATION);
    CompletionsCount(Start(SETUP), n);
  }
}

/**
 * The error counter and restart flag of both browser scrapers. Each failed
 * poll adds one to `error_count`; reaching `MAX_ERRORS` the first time calls
 * `restart()`, reaching it again after a restart sets `stop_event`. Both
 * scraper versions share this code word for word.
 */
module Escalation {

  const MaxErrors := 5

  /** `error_count`, `restart_attempt` and whether `stop_event` is set. */
  datatype ErrorState = ErrorState(errorCount: nat, restartAttempt: bool, stopEvent: bool)

  const Initial := ErrorState(0, false, false)

  /** The condition of the polling loop: `not stop_event.is_set() and error_count < MAX_ERRORS`. */
  predicate KeepPolling(e: ErrorState) {
    !e.stopEvent && e.errorCount < MaxErrors
  }

  /**
   * `restart()`, counter and flags only: mark the attempt, zero the counter,
   * then `stop_event.clear()` immediately followed by `stop_event.set()`.
   */
  function Restart(e: ErrorState): ErrorState {
    var e1 := if !e.restartAttempt then e.(restartAttempt := true) else e.(errorCount := 0);
    var e2 := e1.(errorCount := 0);
    var cleared := e2.(stopEvent := false);
    cleared.(stopEvent := true)
  }

  /** The `except` branch of the polling loop after its early exits: count, maybe restart, maybe stop. */
  function AfterPollError(e: ErrorState): ErrorState {
    var e1 := e.(errorCount := e.errorCount + 1);
    var e2 := if e1.errorCount >= MaxErrors && !e1.restartAttempt then Restart(e1) else e1;
    if e2.errorCount >= MaxErrors && e2.restartAttempt then e2.(stopEvent := true) else e2
  }

  /** Below the limit a failed poll only adds one to the counter. */
  lemma AfterPollErrorCounts(e: ErrorState)
    requires e.errorCount + 1 < MaxErrors
    ensures AfterPollError(e) == e.(errorCount := e.errorCount + 1)
  {
  }

  /** Reaching the limit with no restart yet: restart, which zeroes the counter and sets the flag. */
  lemma AfterPollErrorFirstLimit(e: ErrorState)
    requires e.errorCount + 1 >= MaxErrors && !e.restartAttempt
    ensures AfterPollError(e) == ErrorState(0, true, true)
  {
  }

  /** Reaching the limit after a restart: stop, keeping the count. */
  lemma AfterPollErrorSecondLimit(e: ErrorState)
    requires e.errorCount + 1 >= MaxErrors && e.restartAttempt
    ensures AfterPollError(e) == ErrorState(e.errorCount + 1, true, true)
  {
  }

  /** The error state after some polls, how many polls the loop made, and whether it ended. */
  datatype RunState = RunState(errors: ErrorState, polls: nat, ended: bool)

  /** `n` failed polls in a row. */
  function Failures(e: ErrorState, n: nat): ErrorState
    decreases n
  {
    if n == 0 then e else Failures(AfterPollError(e), n - 1)
  }

  /** From a fresh scraper, fewer than `MaxErrors` failures only count. */
  lemma {:induction false} FailuresBelowLimit(n: nat)
    requires n < MaxErrors
    ensures Failures(Initial, n) == ErrorState(n, false, false)
    ensures KeepPolling(Failures(Initial, n))
  {
    FailuresFrom(0, n);
  }

  lemma {:induction false} FailuresFrom(k: nat, n: nat)
    requires k + n < MaxErrors
    ensures Failures(ErrorState(k, false, false), n) == ErrorState(k + n, false, false)
    decreases n
  {
    if n > 0 {
      FailuresFrom(k + 1, n - 1);
    }
  }

  /**
   * As written, a restart leaves `stop_event` set, so the polling loop ends
   * and the relaunched worker, testing the same event, never polls either.
   */
  lemma RestartEndsPolling(e: ErrorState)
    ensures Restart(e).stopEvent && !KeepPolling(Restart(e))
    ensures Restart(e).errorCount == 0 && Restart(e).restartAttempt
  {
  }

  /** From a fresh scraper the fifth failure triggers the restart, and with it the end of all polling. */
  lemma FifthFailureEndsPolling()
    ensures Failures(Initial, MaxErrors) == ErrorState(0, true, true)
    ensures !KeepPolling(Failures(Initial, MaxErrors))
  {
    FailuresBelowLimit(MaxErrors - 1);
  }

  /** `restart()` as evidently intended: clear `stop_event` and leave it cleared. */
  function RestartIntended(e: ErrorState): ErrorState {
    ErrorState(0, true, false)
  }

  function AfterPollErrorIntended(e: ErrorState): ErrorState {
    var e1 := e.(errorCount := e.errorCount + 1);
    var e2 := if e1.errorCount >= MaxErrors && !e1.restartAttempt then RestartIntended(e1) else e1;
    if e2.errorCount >= MaxErrors && e2.restartAttempt then e2.(stopEvent := true) else e2
  }

  function FailuresIntended(e: ErrorState, n: nat): ErrorState
    decreases n
  {
    if n == 0 then e else FailuresIntended(AfterPollErrorIntended(e), n - 1)
  }

  /**
   * With the intended restart, polling goes on after the first `MaxErrors`
   * failures, and stops for good at the second `MaxErrors`.
   */
  lemma {:induction false} IntendedRestartKeepsPolling(n: nat)
    requires n < 2 * MaxErrors
    ensures KeepPolling(FailuresIntended(Initial, n))
    ensures n >= MaxErrors ==> FailuresIntended(Initial, n) == ErrorState(n - MaxErrors, true, false)
  {
    if n < MaxErrors {
      IntendedFrom(ErrorState(0, false, false), n);
    } else {
      IntendedFrom(ErrorState(0, false, false), MaxErrors);
      IntendedSplit(Initial, MaxErrors, n - MaxErrors);
      IntendedFrom(ErrorState(0, true, false), n - MaxErrors);
    }
  }

  /** The second run of `MaxErrors` failures ends polling and keeps the count. */
  lemma SecondLimitStops()
    ensures FailuresIntended(Initial, 2 * MaxErrors) == ErrorState(MaxErrors, true, true)
    ensures !KeepPolling(FailuresIntended(Initial, 2 * MaxErrors))
  {
    IntendedRestartKeepsPolling(2 * MaxErrors - 1);
    IntendedSplit(Initial, 2 * MaxErrors - 1, 1);
  }

  lemma {:induction false} IntendedSplit(e: ErrorState, a: nat, b: nat)
    ensures FailuresIntended(e, a + b) == FailuresIntended(FailuresIntended(e, a), b)
    decreases a
  {
    if a > 0 {
      IntendedSplit(AfterPollErrorIntended(e), a - 1, b);
    }
  }

  lemma {:induction false} IntendedFrom(e: ErrorState, n: nat)
    requires KeepPolling(e) && e.errorCount + n <= MaxErrors
    ensures FailuresIntended(e, n) == (
      if e.errorCount + n == MaxErrors && !e.restartAttempt then ErrorState(0, true, false)
      else if e.errorCount + n == MaxErrors then ErrorState(MaxErrors, true, true)
      else e.(errorCount := e.errorCount + n))
    decreases n
  {
    if n > 0 && e.errorCount + 1 < MaxErrors {
      IntendedFrom(AfterPollErrorIntended(e), n - 1);
    } else if n > 0 {
      assert n == 1;
      var e1 := AfterPollErrorIntended(e);
      assert FailuresIntended(e, 1) == FailuresIntended(e1, 0) == e1;
    }
  }
}

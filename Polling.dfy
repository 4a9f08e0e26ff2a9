/**
 * The shape the provisioner's three polling loops share:
 *
 *   start := now; while start + timeout > now { check; if decided: stop; sleep(5) }
 *
 * The clock and the cluster are outside the model.  A loop's run is given as
 * the sequence of the evaluations of its loop test, each a `Tick`: the clock
 * reading at that test and the cluster state a check would observe then.  A
 * loop that uses up its ticks stops as if the deadline had passed, so the
 * length of the sequence is the fuel that stands in for the clock.  What one
 * check makes of an observation is the function `check`.
 */
module Polling {

  /** The seconds the loops sleep between two checks. */
  const PollIntervalSeconds: int := 5

  /** One evaluation of the loop test: the clock reading and what a check would observe then. */
  datatype Tick<O> = Tick(now: int, observed: O)

  /** What one check decides: keep polling, or leave the loop with an outcome. */
  datatype Step<R> = Retry | Stop(outcome: R)

  /** The outcome of the loop: the first decision taken before the deadline, else `timedOut`. */
  function Poll<O, R>(deadline: int, ticks: seq<Tick<O>>, check: O -> Step<R>, timedOut: R): R {
    if |ticks| == 0 || deadline <= ticks[0].now then timedOut
    else match check(ticks[0].observed)
      case Stop(outcome) => outcome
      case Retry => Poll(deadline, ticks[1..], check, timedOut)
  }

  /** The number of checks the loop makes. */
  function Attempts<O, R>(deadline: int, ticks: seq<Tick<O>>, check: O -> Step<R>): nat {
    if |ticks| == 0 || deadline <= ticks[0].now then 0
    else match check(ticks[0].observed)
      case Stop(_) => 1
      case Retry => 1 + Attempts(deadline, ticks[1..], check)
  }

  /** One round of the loop: a check that retries leaves the rest of the run to the following ticks. */
  lemma PollRetry<O, R>(deadline: int, ticks: seq<Tick<O>>, check: O -> Step<R>, timedOut: R, k: nat)
    requires k < |ticks| && ticks[k].now < deadline && check(ticks[k].observed).Retry?
    ensures Poll(deadline, ticks[k..], check, timedOut) == Poll(deadline, ticks[k + 1..], check, timedOut)
    ensures Attempts(deadline, ticks[k..], check) == 1 + Attempts(deadline, ticks[k + 1..], check)
  {
    assert ticks[k..][0] == ticks[k] && ticks[k..][1..] == ticks[k + 1..];
  }

  /**
   * What the loop does, check by check: every check it makes falls before the
   * deadline, every check but the last one says "retry", it makes no check
   * after a decision or once the deadline has passed, and its outcome is the
   * decision of its last check if that decided, else `timedOut`.
   */
  lemma {:induction false} PollRun<O, R>(deadline: int, ticks: seq<Tick<O>>, check: O -> Step<R>, timedOut: R)
    ensures Attempts(deadline, ticks, check) <= |ticks|
    ensures forall i :: 0 <= i < Attempts(deadline, ticks, check) ==> ticks[i].now < deadline
    ensures forall i :: 0 <= i < Attempts(deadline, ticks, check) - 1 ==> check(ticks[i].observed).Retry?
    ensures var n := Attempts(deadline, ticks, check);
      n < |ticks| ==> deadline <= ticks[n].now || (n > 0 && check(ticks[n - 1].observed).Stop?)
    ensures var n := Attempts(deadline, ticks, check);
      Poll(deadline, ticks, check, timedOut)
        == if n > 0 && check(ticks[n - 1].observed).Stop? then check(ticks[n - 1].observed).outcome else timedOut
  {
    if |ticks| > 0 && ticks[0].now < deadline && check(ticks[0].observed).Retry? {
      PollRun(deadline, ticks[1..], check, timedOut);
    }
  }

  /** The loop's outcome is the first decision taken before the deadline, and it stops right there. */
  lemma {:induction false} PollStopsAtFirstDecision<O, R>(deadline: int, ticks: seq<Tick<O>>, check: O -> Step<R>, timedOut: R, j: nat)
    requires j < |ticks| && check(ticks[j].observed).Stop?
    requires forall i :: 0 <= i <= j ==> ticks[i].now < deadline
    requires forall i :: 0 <= i < j ==> check(ticks[i].observed).Retry?
    ensures Poll(deadline, ticks, check, timedOut) == check(ticks[j].observed).outcome
    ensures Attempts(deadline, ticks, check) == j + 1
  {
    if j > 0 {
      PollStopsAtFirstDecision(deadline, ticks[1..], check, timedOut, j - 1);
    }
  }

  /**
   * The loop ends with a decided outcome `v` (one that is not `timedOut`)
   * exactly when some check before the deadline decided `v` after checks
   * that all said "retry".
   */
  lemma {:induction false} PollDecidesIff<O, R>(deadline: int, ticks: seq<Tick<O>>, check: O -> Step<R>, timedOut: R, v: R)
    requires v != timedOut
    ensures Poll(deadline, ticks, check, timedOut) == v
            <==> exists j :: 0 <= j < |ticks|
                   && (forall i :: 0 <= i <= j ==> ticks[i].now < deadline)
                   && (forall i :: 0 <= i < j ==> check(ticks[i].observed).Retry?)
                   && check(ticks[j].observed) == Stop(v)
  {
    forall j | 0 <= j < |ticks|
             && (forall i :: 0 <= i <= j ==> ticks[i].now < deadline)
             && (forall i :: 0 <= i < j ==> check(ticks[i].observed).Retry?)
             && check(ticks[j].observed) == Stop(v)
      ensures Poll(deadline, ticks, check, timedOut) == v
    {
      PollStopsAtFirstDecision(deadline, ticks, check, timedOut, j);
    }
    if Poll(deadline, ticks, check, timedOut) == v {
      PollRun(deadline, ticks, check, timedOut);
      var j := Attempts(deadline, ticks, check) - 1;
      assert 0 <= j < |ticks| && check(ticks[j].observed) == Stop(v);
    }
  }

  /** Without a decision before the deadline the loop times out, after one check per tick it got to. */
  lemma {:induction false} PollTimesOut<O, R>(deadline: int, ticks: seq<Tick<O>>, check: O -> Step<R>, timedOut: R, j: nat)
    requires j <= |ticks| && (j == |ticks| || deadline <= ticks[j].now)
    requires forall i :: 0 <= i < j ==> ticks[i].now < deadline && check(ticks[i].observed).Retry?
    ensures Poll(deadline, ticks, check, timedOut) == timedOut
    ensures Attempts(deadline, ticks, check) == j
  {
    if j > 0 {
      PollTimesOut(deadline, ticks[1..], check, timedOut, j - 1);
    }
  }

  /** The loop has left by the end of `ticks`: a decision was taken or the deadline passed. */
  predicate Settles<O, R>(deadline: int, ticks: seq<Tick<O>>, check: O -> Step<R>) {
    |ticks| > 0 && (deadline <= ticks[0].now || check(ticks[0].observed).Stop? || Settles(deadline, ticks[1..], check))
  }

  /** Once the loop has left, later observations change neither its outcome nor its checks. */
  lemma {:induction false} PollIgnoresLaterTicks<O, R>(deadline: int, ticks: seq<Tick<O>>, later: seq<Tick<O>>, check: O -> Step<R>, timedOut: R)
    requires Settles(deadline, ticks, check)
    ensures Poll(deadline, ticks + later, check, timedOut) == Poll(deadline, ticks, check, timedOut)
    ensures Attempts(deadline, ticks + later, check) == Attempts(deadline, ticks, check)
  {
    assert (ticks + later)[0] == ticks[0];
    if ticks[0].now < deadline && check(ticks[0].observed).Retry? {
      assert (ticks + later)[1..] == ticks[1..] + later;
      PollIgnoresLaterTicks(deadline, ticks[1..], later, check, timedOut);
    }
  }

  /**
   * The clock never runs backwards from the start, and every retry sleeps
   * `PollIntervalSeconds` before the next loop test.
   */
  predicate ClockAdvances<O>(start: int, ticks: seq<Tick<O>>) {
    (|ticks| > 0 ==> start <= ticks[0].now)
    && forall i :: 0 <= i < |ticks| - 1 ==> ticks[i].now + PollIntervalSeconds <= ticks[i + 1].now
  }

  /**
   * With a clock that advances, a loop that started at `start` makes at most
   * one check per interval of the timeout: none when the timeout is not
   * positive, and its last check starts before `start + timeout`.
   */
  lemma {:induction false} AttemptsWithinTimeout<O, R>(start: int, timeout: int, ticks: seq<Tick<O>>, check: O -> Step<R>)
    requires ClockAdvances(start, ticks)
    ensures timeout <= 0 ==> Attempts(start + timeout, ticks, check) == 0
    ensures var n := Attempts(start + timeout, ticks, check);
      n == 0 || PollIntervalSeconds * (n - 1) < timeout
    decreases |ticks|
  {
    var deadline := start + timeout;
    if |ticks| > 1 && ticks[0].now < deadline && check(ticks[0].observed).Retry? {
      var next := start + PollIntervalSeconds;
      assert ClockAdvances(next, ticks[1..]);
      AttemptsWithinTimeout(next, timeout - PollIntervalSeconds, ticks[1..], check);
    }
  }
}

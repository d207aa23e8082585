/** A retry controller: it runs a fallible operation again and again, up to
    an attempt ceiling, until the operation succeeds, and hands every failure
    to an optional logger.

    The operation (`Retrieable.Exec`) and the logger callback are foreign
    code. The operation is an oracle (`Operation`) that gives the outcome of
    its k-th call. The logger is an object (`Logger`) that records, in a
    ghost trace, the errors it receives. */
module Retrier {

  datatype Option<T> = None | Some(value: T)

  /** An error value as the operation returns it (Go's `error`, by message). */
  type Error = string

  /** What one `Exec` call returns: nil (success) or an error value. */
  datatype Outcome = Ok | Failed(err: Error)

  /** The two errors the constructor can return. */
  datatype NewError = ErrMinimumMaxAttempt | ErrRetriableNil

  // ---------------------------------------------------------------------------
  // Construction-time validation
  // ---------------------------------------------------------------------------

  /** The checks `New` makes, in the order it makes them: the attempt ceiling
      first, then the operation. `retIsNil` says whether the operation is nil. */
  function Validate(maxAttempt: int, retIsNil: bool): (e: Option<NewError>)
    // the ceiling is checked first, so it wins whatever the operation is
    ensures maxAttempt < 1 ==> e == Some(ErrMinimumMaxAttempt)
    ensures e == Some(ErrMinimumMaxAttempt) ==> maxAttempt < 1
    ensures e == Some(ErrRetriableNil) <==> maxAttempt >= 1 && retIsNil
    ensures e == None <==> maxAttempt >= 1 && !retIsNil
  {
    if maxAttempt < 1 then Some(ErrMinimumMaxAttempt)
    else if retIsNil then Some(ErrRetriableNil)
    else None
  }

  // ---------------------------------------------------------------------------
  // The retry loop as a function of an abstract state
  // ---------------------------------------------------------------------------

  /** What the loop can change: the attempt counter, the completion flag, the
      number of calls the operation has received, and the errors logged. */
  datatype State = State(attempt: int, done: bool, calls: nat, logged: seq<Error>)

  /** The loop's stopping test: the ceiling is reached or an attempt succeeded. */
  predicate Terminal(maxAttempt: int, attempt: int, done: bool)
  {
    attempt >= maxAttempt || done
  }

  /** One pass of the loop body: count the attempt, call the operation once,
      then either mark success or log the error (when a logger is present). */
  function Step(outcomes: nat -> Outcome, logs: bool, s: State): (t: State)
  {
    var r := outcomes(s.calls);
    State(s.attempt + 1,
          s.done || r.Ok?,
          s.calls + 1,
          if logs && r.Failed? then s.logged + [r.err] else s.logged)
  }

  /** The state the loop ends in when started in `s`. */
  function Final(maxAttempt: int, outcomes: nat -> Outcome, logs: bool, s: State): (t: State)
    ensures Terminal(maxAttempt, t.attempt, t.done)
    ensures s.calls <= t.calls && t.attempt - s.attempt == t.calls - s.calls
    decreases maxAttempt - s.attempt
  {
    if Terminal(maxAttempt, s.attempt, s.done) then s
    else Final(maxAttempt, outcomes, logs, Step(outcomes, logs, s))
  }

  /** The position, counted from call `from`, of the first of `n` calls that
      succeeds; `n` when none of them does. */
  function FirstSuccess(outcomes: nat -> Outcome, from: nat, n: nat): (k: nat)
    ensures k <= n
    ensures forall j :: from <= j < from + k ==> outcomes(j).Failed?
    ensures k < n ==> outcomes(from + k).Ok?
    decreases n
  {
    if n == 0 then 0
    else if outcomes(from).Ok? then 0
    else 1 + FirstSuccess(outcomes, from + 1, n - 1)
  }

  /** The errors of the failed calls among the `n` calls from call `from`,
      in call order. */
  function Failures(outcomes: nat -> Outcome, from: nat, n: nat): (errs: seq<Error>)
    ensures |errs| <= n
    decreases n
  {
    if n == 0 then []
    else (if outcomes(from).Failed? then [outcomes(from).err] else []) + Failures(outcomes, from + 1, n - 1)
  }

  // ---------------------------------------------------------------------------
  // Properties of the loop
  // ---------------------------------------------------------------------------

  /** The stopping test holds exactly in the states the loop leaves alone. */
  lemma TerminalIsFixpoint(maxAttempt: int, outcomes: nat -> Outcome, logs: bool, s: State)
    ensures Terminal(maxAttempt, s.attempt, s.done) <==> Final(maxAttempt, outcomes, logs, s) == s
  {
  }

  /** Running the loop a second time does nothing. */
  lemma FinalIdempotent(maxAttempt: int, outcomes: nat -> Outcome, logs: bool, s: State)
    ensures var t := Final(maxAttempt, outcomes, logs, s);
            Final(maxAttempt, outcomes, logs, t) == t
  {
  }

  /** Where the run stops. From a state where the loop still has work, with
      budget `maxAttempt - attempt` and `k` the first success in that
      budget: the loop stops right after call `k` when there is one, and
      after the whole budget otherwise; `done` is set exactly in the first
      case. */
  lemma {:induction false} RunStops(maxAttempt: int, outcomes: nat -> Outcome, logs: bool, s: State)
    requires !Terminal(maxAttempt, s.attempt, s.done)
    ensures var t := Final(maxAttempt, outcomes, logs, s);
            var k := FirstSuccess(outcomes, s.calls, maxAttempt - s.attempt);
            && (k < maxAttempt - s.attempt ==>
                  t.done && t.attempt == s.attempt + k + 1 && t.calls == s.calls + k + 1)
            && (k == maxAttempt - s.attempt ==>
                  !t.done && t.attempt == maxAttempt && t.calls == s.calls + k)
    decreases maxAttempt - s.attempt
  {
    var s' := Step(outcomes, logs, s);
    var n := maxAttempt - s.attempt;
    var t := Final(maxAttempt, outcomes, logs, s);
    assert t == Final(maxAttempt, outcomes, logs, s');
    if outcomes(s.calls).Ok? {
      // the first call succeeds and the loop stops after it
      assert t == s';
    } else if n == 1 {
      // the last attempt of the budget fails
      assert t == s';
    } else {
      assert FirstSuccess(outcomes, s.calls, n) == 1 + FirstSuccess(outcomes, s'.calls, n - 1);
      RunStops(maxAttempt, outcomes, logs, s');
    }
  }

  /** What the run logs with a logger: the errors of the failed calls it
      made, in call order; successes are never logged. */
  lemma {:induction false} RunLogs(maxAttempt: int, outcomes: nat -> Outcome, s: State)
    ensures var t := Final(maxAttempt, outcomes, true, s);
            t.logged == s.logged + Failures(outcomes, s.calls, t.calls - s.calls)
    decreases maxAttempt - s.attempt
  {
    if !Terminal(maxAttempt, s.attempt, s.done) {
      var s' := Step(outcomes, true, s);
      var t := Final(maxAttempt, outcomes, true, s');
      assert Final(maxAttempt, outcomes, true, s) == t;
      RunLogs(maxAttempt, outcomes, s');
      var n := t.calls - s.calls;
      assert n == 1 + (t.calls - s'.calls);
      var head := if outcomes(s.calls).Failed? then [outcomes(s.calls).err] else [];
      var rest := Failures(outcomes, s'.calls, n - 1);
      assert s'.logged == s.logged + head;
      assert t.logged == s'.logged + rest;
      assert Failures(outcomes, s.calls, n) == head + rest;
      assert s.logged + head + rest == s.logged + (head + rest);
    }
  }

  /** Without a logger the run logs nothing. */
  lemma {:induction false} NoLoggerLogsNothing(maxAttempt: int, outcomes: nat -> Outcome, s: State)
    ensures Final(maxAttempt, outcomes, false, s).logged == s.logged
    decreases maxAttempt - s.attempt
  {
    if !Terminal(maxAttempt, s.attempt, s.done) {
      var s' := Step(outcomes, false, s);
      assert Final(maxAttempt, outcomes, false, s) == Final(maxAttempt, outcomes, false, s');
      NoLoggerLogsNothing(maxAttempt, outcomes, s');
    }
  }

  /** When all `n` calls fail, the errors are exactly theirs, in order. */
  lemma {:induction false} FailuresAllFailed(outcomes: nat -> Outcome, from: nat, n: nat)
    requires forall j :: from <= j < from + n ==> outcomes(j).Failed?
    ensures |Failures(outcomes, from, n)| == n
    ensures forall j :: from <= j < from + n ==> Failures(outcomes, from, n)[j - from] == outcomes(j).err
    decreases n
  {
    if n > 0 {
      FailuresAllFailed(outcomes, from + 1, n - 1);
      var rest := Failures(outcomes, from + 1, n - 1);
      assert Failures(outcomes, from, n) == [outcomes(from).err] + rest;
    }
  }

  /** A trace that extends `prefix` with the errors of `n` failed calls
      holds those errors, in order, right after `prefix`. */
  lemma ErrorsAfter(prefix: seq<Error>, logged: seq<Error>, outcomes: nat -> Outcome, from: nat, n: nat)
    requires logged == prefix + Failures(outcomes, from, n)
    requires forall j :: from <= j < from + n ==> outcomes(j).Failed?
    ensures |logged| == |prefix| + n
    ensures forall j :: from <= j < from + n ==> logged[|prefix| + (j - from)] == outcomes(j).err
  {
    var errs := Failures(outcomes, from, n);
    FailuresAllFailed(outcomes, from, n);
    forall j | from <= j < from + n
      ensures logged[|prefix| + (j - from)] == outcomes(j).err
    {
      var i := j - from;
      assert logged[|prefix| + i] == errs[i];
    }
  }

  /** A success after `k` failures adds nothing to the errors. */
  lemma {:induction false} FailuresThenSuccess(outcomes: nat -> Outcome, from: nat, k: nat)
    requires forall j :: from <= j < from + k ==> outcomes(j).Failed?
    requires outcomes(from + k).Ok?
    ensures Failures(outcomes, from, k + 1) == Failures(outcomes, from, k)
    decreases k
  {
    if k > 0 {
      FailuresThenSuccess(outcomes, from + 1, k - 1);
    }
  }

  /** What the run logs with a logger, in terms of where it stops: the
      errors of the failed calls before the first success of the budget. */
  lemma LogsBeforeFirstSuccess(maxAttempt: int, outcomes: nat -> Outcome, s: State)
    requires !Terminal(maxAttempt, s.attempt, s.done)
    ensures var t := Final(maxAttempt, outcomes, true, s);
            var k := FirstSuccess(outcomes, s.calls, maxAttempt - s.attempt);
            t.logged == s.logged + Failures(outcomes, s.calls, k)
  {
    RunStops(maxAttempt, outcomes, true, s);
    RunLogs(maxAttempt, outcomes, s);
    var k := FirstSuccess(outcomes, s.calls, maxAttempt - s.attempt);
    if k < maxAttempt - s.attempt {
      FailuresThenSuccess(outcomes, s.calls, k);
    }
  }

  /** A run started by a fresh retrier (attempt 0, not done, ceiling at least
      one) makes between one and `maxAttempt` attempts, one `Exec` call per
      attempt. It succeeds exactly when one of its first `maxAttempt` calls
      succeeds, and then that call is the last one made and all calls before
      it failed; otherwise it makes all `maxAttempt` attempts. */
  lemma RunFromNew(maxAttempt: int, outcomes: nat -> Outcome, logs: bool, calls: nat, logged: seq<Error>)
    requires maxAttempt >= 1
    ensures var t := Final(maxAttempt, outcomes, logs, State(0, false, calls, logged));
            && 1 <= t.attempt <= maxAttempt
            && t.calls == calls + t.attempt
            && (t.done <==> exists j :: calls <= j < calls + maxAttempt && outcomes(j).Ok?)
            && (t.done ==> outcomes(t.calls - 1).Ok?)
            && (!t.done ==> t.attempt == maxAttempt)
            && (forall j :: calls <= j < t.calls - 1 ==> outcomes(j).Failed?)
  {
    var s := State(0, false, calls, logged);
    RunStops(maxAttempt, outcomes, logs, s);
    var k := FirstSuccess(outcomes, calls, maxAttempt);
    if k < maxAttempt {
      assert outcomes(calls + k).Ok?;
    }
  }

  /** In the same run, each failed attempt, and nothing else, is logged
      once, in attempt order, when there is a logger. */
  lemma RunFromNewLogs(maxAttempt: int, outcomes: nat -> Outcome, logs: bool, calls: nat, logged: seq<Error>)
    requires maxAttempt >= 1
    ensures var t := Final(maxAttempt, outcomes, logs, State(0, false, calls, logged));
            var failed := if t.done then t.attempt - 1 else t.attempt;
            && (!logs ==> t.logged == logged)
            && (logs ==> |t.logged| == |logged| + failed &&
                         forall j :: calls <= j < calls + failed ==>
                           outcomes(j).Failed? && t.logged[|logged| + (j - calls)] == outcomes(j).err)
  {
    var s := State(0, false, calls, logged);
    var t := Final(maxAttempt, outcomes, logs, s);
    var k := FirstSuccess(outcomes, calls, maxAttempt);
    RunStops(maxAttempt, outcomes, logs, s);
    var failed := if t.done then t.attempt - 1 else t.attempt;
    assert failed == k;
    if logs {
      LogsBeforeFirstSuccess(maxAttempt, outcomes, s);
      ErrorsAfter(logged, t.logged, outcomes, calls, k);
    } else {
      NoLoggerLogsNothing(maxAttempt, outcomes, s);
    }
  }

  /** When every call in the budget fails, the loop makes every attempt
      and never sets `done`. */
  lemma RunExhausted(maxAttempt: int, outcomes: nat -> Outcome, logs: bool, s: State)
    requires !Terminal(maxAttempt, s.attempt, s.done)
    requires forall j :: s.calls <= j < s.calls + (maxAttempt - s.attempt) ==> outcomes(j).Failed?
    ensures var t := Final(maxAttempt, outcomes, logs, s);
            && t.attempt == maxAttempt && !t.done
            && t.calls == s.calls + (maxAttempt - s.attempt)
  {
    var n := maxAttempt - s.attempt;
    var k := FirstSuccess(outcomes, s.calls, n);
    // a success within the budget would contradict the second requires
    var first: nat := s.calls + k;
    assert k < n ==> outcomes(first).Ok?;
    RunStops(maxAttempt, outcomes, logs, s);
  }

  /** ... and, with a logger, logs every error of the budget, in order. */
  lemma RunExhaustedLogs(maxAttempt: int, outcomes: nat -> Outcome, s: State)
    requires !Terminal(maxAttempt, s.attempt, s.done)
    requires forall j :: s.calls <= j < s.calls + (maxAttempt - s.attempt) ==> outcomes(j).Failed?
    ensures var t := Final(maxAttempt, outcomes, true, s);
            && |t.logged| == |s.logged| + (maxAttempt - s.attempt)
            && forall j :: s.calls <= j < s.calls + (maxAttempt - s.attempt) ==>
                 t.logged[|s.logged| + (j - s.calls)] == outcomes(j).err
  {
    var t := Final(maxAttempt, outcomes, true, s);
    var n := maxAttempt - s.attempt;
    RunExhausted(maxAttempt, outcomes, true, s);
    assert t.calls - s.calls == n;
    RunLogs(maxAttempt, outcomes, s);
    assert t.logged == s.logged + Failures(outcomes, s.calls, n);
    ErrorsAfter(s.logged, t.logged, outcomes, s.calls, n);
  }

  // ---------------------------------------------------------------------------
  // The collaborators
  // ---------------------------------------------------------------------------

  /** A retrieable operation. `outcomes(k)` is what its k-th call returns;
      `calls` counts the calls made so far. */
  class Operation {
    const outcomes: nat -> Outcome
    var calls: nat

    constructor (outcomes: nat -> Outcome)
      ensures this.outcomes == outcomes && calls == 0
    {
      this.outcomes := outcomes;
      calls := 0;
    }

    method Exec() returns (r: Outcome)
      modifies this
      ensures calls == old(calls) + 1
      ensures r == outcomes(old(calls))
    {
      r := outcomes(calls);
      calls := calls + 1;
    }
  }

  /** A logger callback; `trace` is every error it has been given, in order. */
  class Logger {
    ghost var trace: seq<Error>

    constructor ()
      ensures trace == []
    {
      trace := [];
    }

    method Log(e: Error)
      modifies this
      ensures trace == old(trace) + [e]
    {
      trace := trace + [e];
    }
  }

  // ---------------------------------------------------------------------------
  // The controller
  // ---------------------------------------------------------------------------

  class Retrier {
    const maxAttempt: int
    var attempt: int
    var done: bool
    const retrieable: Operation
    const loggerFunc: Logger?

    /** A `Retrier` value written out field by field. */
    constructor (maxAttempt: int, attempt: int, done: bool, retrieable: Operation, loggerFunc: Logger?)
      ensures this.maxAttempt == maxAttempt && this.attempt == attempt && this.done == done
      ensures this.retrieable == retrieable && this.loggerFunc == loggerFunc
    {
      this.maxAttempt := maxAttempt;
      this.attempt := attempt;
      this.done := done;
      this.retrieable := retrieable;
      this.loggerFunc := loggerFunc;
    }

    /** Validates the arguments and returns either a fresh retrier that has
        made no attempt yet, or the first error found. */
    static method New(ret: Operation?, maxAttempt: int, loggerFunc: Logger?) returns (r: Retrier?, err: Option<NewError>)
      ensures err == Validate(maxAttempt, ret == null)
      ensures r != null <==> err == None
      ensures r != null ==> fresh(r) && r.maxAttempt == maxAttempt && r.attempt == 0 && !r.done
      ensures r != null ==> r.retrieable == ret && r.loggerFunc == loggerFunc
    {
      if maxAttempt < 1 {
        return null, Some(ErrMinimumMaxAttempt);
      }
      if ret == null {
        return null, Some(ErrRetriableNil);
      }
      r := new Retrier(maxAttempt, 0, false, ret, loggerFunc);
      err := None;
    }

    /** The state the loop works on. */
    ghost function Snapshot(): (s: State)
      reads this, retrieable, loggerFunc
    {
      State(attempt, done, retrieable.calls, if loggerFunc == null then [] else loggerFunc.trace)
    }

    /** The loop's stopping test on this retrier's fields. */
    predicate IsDone()
      reads this
      ensures IsDone() <==> attempt >= maxAttempt || done
      ensures !IsDone() ==> attempt < maxAttempt && !done
    {
      Terminal(maxAttempt, attempt, done)
    }

    /** One attempt: count it, then call the operation once. */
    method Do() returns (err: Outcome)
      modifies this`attempt, retrieable
      ensures attempt == old(attempt) + 1
      ensures retrieable.calls == old(retrieable.calls) + 1
      ensures err == retrieable.outcomes(old(retrieable.calls))
    {
      attempt := attempt + 1;
      err := retrieable.Exec();
    }

    /** Attempts until done; marks the first success and logs each failure. */
    method Run()
      modifies this, retrieable, loggerFunc
      ensures IsDone()
      ensures Snapshot() == Final(maxAttempt, retrieable.outcomes, loggerFunc != null, old(Snapshot()))
    {
      while !IsDone()
        invariant Final(maxAttempt, retrieable.outcomes, loggerFunc != null, Snapshot())
               == Final(maxAttempt, retrieable.outcomes, loggerFunc != null, old(Snapshot()))
        decreases maxAttempt - attempt
      {
        var err := Do();
        if err.Ok? {
          done := true;
        } else if loggerFunc != null {
          loggerFunc.Log(err.err);
        }
      }
    }
  }
}

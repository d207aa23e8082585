/** The scenarios of the package's own tests, stated against the model. */
module RetrierTest {
  import opened Retrier

  /** The test operation: its n-th call (counting from one) fails while
      n < 3, then it succeeds. */
  function MockOutcome(k: nat): (r: Outcome)
  {
    if k + 1 < 3 then Failed("test error") else Ok
  }

  /** An operation that never succeeds. */
  function AlwaysFails(k: nat): (r: Outcome)
  {
    Failed("still failing")
  }

  /** An operation that always succeeds. */
  function AlwaysSucceeds(k: nat): (r: Outcome)
  {
    Ok
  }

  /** `New` with valid arguments builds a retrier that has made no attempt. */
  method NewNormal() returns (err: Option<NewError>, maxAttempt: int, attempt: int, done: bool, keepsOperation: bool)
    ensures err == None && maxAttempt == 5 && attempt == 0 && !done && keepsOperation
  {
    var op := new Operation(MockOutcome);
    var r;
    r, err := Retrier.New(op, 5, null);
    maxAttempt, attempt, done := r.maxAttempt, r.attempt, r.done;
    keepsOperation := r.retrieable == op && r.loggerFunc == null;
  }

  /** `New` with a zero ceiling reports the ceiling, even with an operation;
      with a valid ceiling and no operation it reports the missing operation. */
  method NewErrors() returns (zeroCeiling: Option<NewError>, noOperation: Option<NewError>, bothBad: Option<NewError>)
    ensures zeroCeiling == Some(ErrMinimumMaxAttempt)
    ensures noOperation == Some(ErrRetriableNil)
    ensures bothBad == Some(ErrMinimumMaxAttempt)
  {
    var op := new Operation(MockOutcome);
    var r;
    r, zeroCeiling := Retrier.New(op, 0, null);
    r, noOperation := Retrier.New(null, 1, null);
    r, bothBad := Retrier.New(null, 0, null);
  }

  /** A retrier that has used all nine of its nine attempts is done. */
  method IsDoneAtCeiling() returns (stopped: bool)
    ensures stopped
  {
    var op := new Operation(MockOutcome);
    var r := new Retrier(9, 9, false, op, null);
    stopped := r.IsDone();
  }

  /** One attempt below the ceiling, a retrier that has not succeeded goes on. */
  lemma BelowCeilingNotDone(maxAttempt: int)
    ensures !Terminal(maxAttempt, maxAttempt - 1, false)
    ensures Terminal(maxAttempt, maxAttempt, false)
  {
  }

  /** `Do` counts the attempt even when the ceiling is zero. */
  method DoIgnoresCeiling() returns (attempt: int, calls: nat)
    ensures attempt == 1 && calls == 1
  {
    var op := new Operation(MockOutcome);
    var r := new Retrier(0, 0, false, op, null);
    var _ := r.Do();
    attempt, calls := r.attempt, op.calls;
  }

  /** The run of the test operation with ceiling five: two failures, both
      logged, then the success on the third attempt ends the run. */
  lemma MockRun(logs: bool)
    ensures Final(5, MockOutcome, logs, State(0, false, 0, []))
         == State(3, true, 3, if logs then ["test error", "test error"] else [])
  {
    var s := State(0, false, 0, []);
    assert FirstSuccess(MockOutcome, 0, 5) == 2 by {
      assert MockOutcome(0).Failed? && MockOutcome(1).Failed? && MockOutcome(2).Ok?;
    }
    RunStops(5, MockOutcome, logs, s);
    if logs {
      LogsBeforeFirstSuccess(5, MockOutcome, s);
      assert Failures(MockOutcome, 0, 2) == ["test error", "test error"];
    } else {
      NoLoggerLogsNothing(5, MockOutcome, s);
    }
  }

  /** Running that retrier calls the operation three times and stops at the
      third attempt. */
  method RunFailTwiceThenSucceed() returns (calls: nat, attempt: int, done: bool)
    ensures calls == 3 && attempt == 3 && done
  {
    var op := new Operation(MockOutcome);
    var r := new Retrier(5, 0, false, op, null);
    r.Run();
    MockRun(false);
    calls, attempt, done := op.calls, r.attempt, r.done;
  }

  /** With a logger, the same run logs the two failures and nothing else. */
  method RunFailTwiceThenSucceedLogged() returns (attempt: int, ghost logged: seq<Error>)
    ensures attempt == 3
    ensures logged == ["test error", "test error"]
  {
    var op := new Operation(MockOutcome);
    var logger := new Logger();
    var r := new Retrier(5, 0, false, op, logger);
    r.Run();
    MockRun(true);
    attempt, logged := r.attempt, logger.trace;
  }

  /** An operation that always fails, ceiling nine: nine attempts, never done,
      nine errors logged. */
  method RunAlwaysFailing() returns (calls: nat, attempt: int, done: bool, ghost logged: seq<Error>)
    ensures calls == 9 && attempt == 9 && !done
    ensures |logged| == 9
    ensures forall i :: 0 <= i < 9 ==> logged[i] == "still failing"
  {
    var op := new Operation(AlwaysFails);
    var logger := new Logger();
    var r := new Retrier(9, 0, false, op, logger);
    r.Run();
    RunExhausted(9, AlwaysFails, true, State(0, false, 0, []));
    RunExhaustedLogs(9, AlwaysFails, State(0, false, 0, []));
    calls, attempt, done, logged := op.calls, r.attempt, r.done, logger.trace;
    forall i | 0 <= i < 9
      ensures logged[i] == "still failing"
    {
      assert logged[0 + (i - 0)] == AlwaysFails(i).err;
    }
  }

  /** An operation that succeeds at once: one attempt, done, nothing logged. */
  method RunAlwaysSucceeding(maxAttempt: int) returns (calls: nat, attempt: int, done: bool, ghost logged: seq<Error>)
    requires maxAttempt >= 1
    ensures calls == 1 && attempt == 1 && done
    ensures logged == []
  {
    var op := new Operation(AlwaysSucceeds);
    var logger := new Logger();
    var r := new Retrier(maxAttempt, 0, false, op, logger);
    r.Run();
    RunStops(maxAttempt, AlwaysSucceeds, true, State(0, false, 0, []));
    LogsBeforeFirstSuccess(maxAttempt, AlwaysSucceeds, State(0, false, 0, []));
    calls, attempt, done, logged := op.calls, r.attempt, r.done, logger.trace;
  }
}

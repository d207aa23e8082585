# retrier — a verified model of the retry controller

The `retrier` package runs a fallible operation (a `Retrieable`, whose
`Exec` returns nil or an error) again and again until it succeeds or an
attempt ceiling (`maxAttempt`) is reached. Each failure is passed to an
optional logger callback (`loggerFunc`). `New` validates its arguments:
first the ceiling (`ErrMinimumMaxAttempt` below one), then the operation
(`ErrRetriableNil` when nil). `run` loops `for !isDone()`. Each pass calls
`do`, which adds one to `attempt` and calls `Exec` once. A nil result sets
`done`. Any other result goes to the logger, when there is one. `isDone`
holds when `attempt >= maxAttempt || done`.

The model is one Dafny module, `Retrier` (retrier.dfy):

- `Operation` is the retrieable. Its `Exec` is an oracle: the k-th call
  returns `outcomes(k)`, and `calls` counts the calls made so far. This is
  the `cnt` of the package's test operation.
- `Logger` is the logger callback. A ghost `trace` records every error it
  receives. A nil `loggerFunc` is `null`.
- `Retrier` is a class with the package's fields. `maxAttempt`,
  `retrieable` and `loggerFunc` are `const`, because nothing assigns them
  after construction. `attempt` and `done` are `var`. The anonymous
  constructor is a `Retrier` struct literal. `New` is the validating
  constructor, specified by the function `Validate`. `Do`, `IsDone` and
  `Run` are the package's `do`, `isDone` and `run`.
- `Run` is proved against the function `Final`. `Final` runs the same loop
  on an abstract `State`: attempt, done, calls made, errors logged. Each
  pass is one `Step`. The lemmas then describe `Final` in closed form:
  - where the run stops (`FirstSuccess`, the first successful call in the
    budget);
  - what it logs (`Failures`, the errors of the failed calls, in order);
  - the special cases of a retrier fresh from `New`, and of an operation
    that always fails.

A second module, `RetrierTest` (retrier_test.dfy), restates the scenarios
of the package's tests on the model.

`New` rejects a ceiling below one and a nil operation, but a struct
literal is not checked: it can hold any ceiling and any starting state, and
the package's own `do` test builds a retrier with ceiling zero. The model
follows the code: the struct-literal constructor accepts any ceiling and
any starting state, and `Final` and `Run` are specified for all of them.

## Model

| member | source | states |
|---|---|---|
| Retrier.Validate | retrier.go:24-31 | a ceiling below one gives `ErrMinimumMaxAttempt` whatever the operation is; otherwise a nil operation gives `ErrRetriableNil`; there is no error exactly when the ceiling is at least one and the operation is present |
| Retrier.Retrier.New | retrier.go:24-39 | the error is the one `Validate` gives; a retrier is returned exactly when there is no error, and it is fresh, with `attempt = 0`, `done = false`, and the given ceiling, operation and logger |
| Retrier.Retrier.constructor | retrier.go:5-11 | a `Retrier` literal holds exactly the field values it is given |
| Retrier.Operation.constructor | retrier.go:13-15 | a new operation has made no call and answers with the given outcomes |
| Retrier.Operation.Exec | retrier.go:13-15 | one call: the call counter goes up by one and the result is the outcome of that call's index |
| Retrier.Logger.constructor | retrier.go:10 | a new logger has received nothing |
| Retrier.Logger.Log | retrier.go:47-49 | the logger receives exactly the error passed, after all earlier ones |
| Retrier.Retrier.IsDone | retrier.go:63-65 | the stopping test holds exactly when `attempt >= maxAttempt` or `done`; while it fails, the loop has attempts left below the ceiling |
| Retrier.Retrier.Do | retrier.go:58-61 | `attempt` goes up by exactly one and the operation is called exactly once; the result is that call's outcome; `done`, the ceiling and the logger are untouched, and there is no check against the ceiling |
| Retrier.Retrier.Run | retrier.go:41-52 | the loop terminates; afterwards `IsDone()` holds, and attempt, done, the operation's call count and the logger's trace are what `Final` gives from the starting state |
| Retrier.Final | retrier.go:41-52 | the loop always ends in a state where the stopping test holds, having made exactly one operation call per attempt |
| Retrier.TerminalIsFixpoint | retrier.go:63-65 | the stopping test holds exactly in the states from which the loop makes no attempt |
| Retrier.FinalIdempotent | retrier.go:41-42 | running the loop again after it has stopped changes nothing |
| Retrier.RunStops | retrier.go:41-52 | when the loop still has work, it stops right after the first successful call within the remaining budget and sets `done`; with no success in the budget it makes every attempt up to the ceiling and leaves `done` false |
| Retrier.RunLogs | retrier.go:46-50 | with a logger, the errors logged are those of the failed calls the run made, in call order; a success is never logged |
| Retrier.NoLoggerLogsNothing | retrier.go:47-49 | without a logger the run logs nothing |
| Retrier.LogsBeforeFirstSuccess | retrier.go:43-50 | with a logger, the run logs exactly the errors of the calls before the first success in its budget |
| Retrier.RunFromNew | retrier.go:33-52 | from a fresh retrier (attempt 0, ceiling at least one): between 1 and `maxAttempt` attempts, one call per attempt; `done` exactly when one of the first `maxAttempt` calls succeeds, and then the last call made is that success and every earlier call failed; otherwise `attempt == maxAttempt` |
| Retrier.RunFromNewLogs | retrier.go:44-50 | from a fresh retrier, each failed attempt is logged exactly once with its own error, in attempt order, when there is a logger; nothing is logged without one |
| Retrier.RunExhausted | retrier.go:41-52 | when every call in the budget fails, the run ends with `attempt == maxAttempt`, `done == false`, and one call per attempt of the budget |
| Retrier.RunExhaustedLogs | retrier.go:46-50 | when every call in the budget fails, the logger receives one error per attempt, the errors of those calls, in order |
| RetrierTest.NewNormal | retrier_test.go:36-48 | `New` with ceiling 5 and an operation returns no error and a retrier with attempt 0, not done, ceiling 5, holding the operation |
| RetrierTest.NewErrors | retrier_test.go:49-66 | `New` with ceiling 0 gives `ErrMinimumMaxAttempt` with or without an operation; with ceiling 1 and no operation it gives `ErrRetriableNil` |
| RetrierTest.IsDoneAtCeiling | retrier_test.go:80-87 | a retrier with attempt 9 and ceiling 9 is done |
| RetrierTest.BelowCeilingNotDone | retrier.go:63-65 | one attempt below the ceiling and not done, the loop goes on; at the ceiling it stops |
| RetrierTest.DoIgnoresCeiling | retrier_test.go:89-96 | `Do` on a retrier with ceiling 0 still makes attempt 1 and calls the operation once |
| RetrierTest.MockRun | retrier_test.go:98-109 | for the test operation (fails on calls 1 and 2, succeeds on call 3) and ceiling 5, the loop ends with attempt 3, done, 3 calls, and the two errors logged when there is a logger |
| RetrierTest.RunFailTwiceThenSucceed | retrier_test.go:98-109 | running that retrier leaves the operation's counter at 3 and the retrier's attempt at 3, and done |
| RetrierTest.RunFailTwiceThenSucceedLogged | retrier_test.go:14-22 | with a logger, that run logs exactly the two "test error" failures |
| RetrierTest.RunAlwaysFailing | retrier.go:41-52 | an operation that always fails, ceiling 9: 9 calls, attempt 9, not done, and the logger receives that operation's error 9 times |
| RetrierTest.RunAlwaysSucceeding | retrier.go:41-52 | an operation that succeeds at once: 1 call, attempt 1, done, nothing logged |

## Left out

- `Start` (retrier.go:54-56) only runs `run` on a new goroutine. The model has no concurrency: `Run` is the synchronous loop that `Start` launches. It does not model unsynchronised access to `attempt` and `done` from other goroutines.
- Go's `int` is 64 bits and `attempt++` could wrap around. The model uses unbounded integers. `run` calls `do` only while `attempt < maxAttempt`, so the loop never wraps from any starting state, struct literals included: `RunStops` gives `attempt <= maxAttempt` at the end of every run that makes an attempt. Only a direct `do` call on a retrier whose `attempt` is already the largest `int` would wrap, and `Do` does not model that.
- The error values of `New` are the two constructors of `NewError`. Their message strings and the pointer identity of `errors.New` values are not modelled. The errors `Exec` returns are represented by their messages.
- `Exec` implementations and `loggerFunc` bodies are foreign code. An operation is the sequence of outcomes of its successive calls. A logger is the sequence of errors it receives. Any side effects of either beyond that are not modelled.
- Retrier.Retrier.constructor: the struct-literal constructor requires a non-nil operation. A Go literal may leave `retrieable` nil: `isDone` still works on it (the `IsDoneAtCeiling` scenario gives it an operation it never calls), but `do` would panic with a nil dereference, and the model has no panic.

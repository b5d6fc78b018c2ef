/**
 * `StreamClient` (index.js): the reconnect loop of `connect`, and the
 * cancel token that `buildConnection` installs and `disconnect` cancels.
 *
 * The HTTP request and the stream it feeds are not modelled: each attempt
 * of `connect` ends with a scripted `Step` saying how `buildConnection`'s
 * promise settled, what the clock read then, and whether the user called
 * `disconnect` during the backoff that may follow.
 */
module Client {
  import opened Wrappers
  import opened RateLimit

  /** The default request and liveness timeouts, in milliseconds. */
  const DATA_TIMEOUT: int := 30000

  /** The filter parameters of a connection, forwarded untouched. */
  type Params = map<string, string>

  /** How one `buildConnection` promise settled. */
  datatype Outcome =
    | Completed                   // the stream ended and the pipeline resolved
    | DisconnectedByUser          // the user called `disconnect` while the request was pending: a cancellation
    | Failed(error: RequestError) // any other rejection

  /**
   * One attempt: its outcome; the clock when it failed, which `rateLimiting`
   * reads; the clock when the loop body ended, which becomes `last_try`; and
   * whether the user called `disconnect` during the backoff sleep.
   */
  datatype Step = Step(outcome: Outcome, failedAt: int, finishedAt: int, disconnectWhileSleeping: bool)

  /** The events the client itself emits. */
  datatype ClientEvent =
    | Disconnected
    | Reconnect(error: RequestError, wait: int)

  /** How the promise `connect` returns settles. */
  datatype ConnectResult =
    | Resolved
    | Rejected(error: RequestError)             // the error that could not be retried
    | MaxReconnectsExceeded(reconnects: int)    // the error carrying `.reconnects`
    | Pending(reconnects: int)                  // still waiting on attempt `reconnects` when the script ends

  /** What a run of the loop produces: the result, the events in order, the number of `buildConnection` calls, and whether a token is left installed. */
  datatype Run = Run(result: ConnectResult, events: seq<ClientEvent>, attempts: nat, holdsToken: bool)

  /** The loop condition of `connect`. */
  predicate Continues(maxReconnects: int, reconnects: int)
  {
    maxReconnects == -1 || reconnects <= maxReconnects
  }

  /** What `buildConnection` emits before requesting: the `disconnect` of a token left installed. */
  function DisconnectPrevious(holdsToken: bool): seq<ClientEvent>
  {
    if holdsToken then [Disconnected] else []
  }

  /** How `connect` settles after an attempt ends so, or `None` when the loop goes on. */
  function Settlement(outcome: Outcome): Option<ConnectResult>
  {
    match outcome
    case DisconnectedByUser => Some(Resolved)
    case Completed => None
    case Failed(e) => if Retriable(e) then None else Some(Rejected(e))
  }

  /**
   * The events an attempt emits once `buildConnection` has settled: the
   * user's `disconnected`, or `reconnect` with the `rateLimiting` wait
   * followed by the `disconnected` of a user who gives up during the sleep.
   */
  function AttemptEvents(step: Step, lastTry: int): seq<ClientEvent>
  {
    match step.outcome
    case DisconnectedByUser => [Disconnected]
    case Completed => []
    case Failed(e) =>
      if Retriable(e) then
        [Reconnect(e, RateLimiting(e.response, lastTry, step.failedAt))]
          + (if step.disconnectWhileSleeping then [Disconnected] else [])
      else []
  }

  /** Whether the attempt's token is still installed when the attempt is over. */
  function TokenKept(step: Step): bool
  {
    match step.outcome
    case DisconnectedByUser => false
    case Completed => true
    case Failed(e) => !(Retriable(e) && step.disconnectWhileSleeping)
  }

  /**
   * The loop of `connect`, from the loop test on, with `reconnects` and
   * `last_try` as they stand, over the steps still to come.
   */
  function Supervise(script: seq<Step>, maxReconnects: int, reconnects: int, lastTry: int, holdsToken: bool): Run
    decreases |script|
  {
    if !Continues(maxReconnects, reconnects) then Run(MaxReconnectsExceeded(reconnects), [], 0, holdsToken)
    else
      var pre := DisconnectPrevious(holdsToken);
      if script == [] then Run(Pending(reconnects + 1), pre, 1, true)
      else
        var step := script[0];
        var events := pre + AttemptEvents(step, lastTry);
        match Settlement(step.outcome)
        case Some(result) => Run(result, events, 1, TokenKept(step))
        case None =>
          var rest := Supervise(script[1..], maxReconnects, reconnects + 1, step.finishedAt, TokenKept(step));
          Run(rest.result, events + rest.events, rest.attempts + 1, rest.holdsToken)
  }

  /** One turn of the loop, over the steps from `i` on. */
  lemma UnrollAt(script: seq<Step>, i: nat, m: int, reconnects: int, lastTry: int, holdsToken: bool)
    requires i <= |script| && Continues(m, reconnects)
    ensures var run := Supervise(script[i..], m, reconnects, lastTry, holdsToken);
      var pre := DisconnectPrevious(holdsToken);
      && (i == |script| ==> run == Run(Pending(reconnects + 1), pre, 1, true))
      && (i < |script| ==>
            var step := script[i];
            var events := pre + AttemptEvents(step, lastTry);
            if Settlement(step.outcome).Some? then
              run == Run(Settlement(step.outcome).value, events, 1, TokenKept(step))
            else
              var rest := Supervise(script[i + 1..], m, reconnects + 1, step.finishedAt, TokenKept(step));
              run == Run(rest.result, events + rest.events, rest.attempts + 1, rest.holdsToken))
  {
    if i < |script| {
      assert script[i..][0] == script[i];
      assert script[i..][1..] == script[i + 1..];
    }
  }

  /**
   * The shape of every run of the loop: no attempt exactly when the loop
   * test fails at once, at most one attempt per step plus one left pending,
   * giving up only when the loop test fails, and a pending attempt only once
   * every step has been used, holding its fresh token.
   */
  lemma {:induction false} SuperviseShape(script: seq<Step>, m: int, reconnects: int, lastTry: int, holdsToken: bool)
    decreases |script|
    ensures var run := Supervise(script, m, reconnects, lastTry, holdsToken);
      && (run.attempts == 0 <==> !Continues(m, reconnects))
      && run.attempts <= |script| + 1
      && (run.result.MaxReconnectsExceeded? ==> !Continues(m, run.result.reconnects))
      && (run.result.Pending? ==> run.attempts == |script| + 1 && run.holdsToken)
  {
    if Continues(m, reconnects) && script != [] && Settlement(script[0].outcome).None? {
      SuperviseShape(script[1..], m, reconnects + 1, script[0].finishedAt, TokenKept(script[0]));
    }
  }

  /** The loop test failing: no attempt, nothing emitted, the count reported. */
  lemma GiveUpAt(script: seq<Step>, m: int, reconnects: int, lastTry: int, holdsToken: bool)
    requires !Continues(m, reconnects)
    ensures Supervise(script, m, reconnects, lastTry, holdsToken) == Run(MaxReconnectsExceeded(reconnects), [], 0, holdsToken)
  {
  }

  /** A full call of `connect`, started at `start` with a token installed or not. */
  function Connection(script: seq<Step>, maxReconnects: int, start: int, holdsToken: bool): Run
  {
    Supervise(script, maxReconnects, -1, start, holdsToken)
  }

  /**
   * With a bound `m >= 0`, the loop calls `buildConnection` at most `m + 1 - reconnects`
   * more times, and when it gives up it reports `reconnects = m + 1`.
   */
  lemma {:induction false} AttemptsAreBounded(script: seq<Step>, m: int, reconnects: int, lastTry: int, holdsToken: bool)
    requires 0 <= m && -1 <= reconnects <= m + 1
    decreases |script|
    ensures var run := Supervise(script, m, reconnects, lastTry, holdsToken);
      && run.attempts <= m + 1 - reconnects
      && (run.result.MaxReconnectsExceeded? ==> run.result.reconnects == m + 1 && run.attempts == m + 1 - reconnects)
  {
    if Continues(m, reconnects) && script != [] {
      AttemptsAreBounded(script[1..], m, reconnects + 1, script[0].finishedAt, TokenKept(script[0]));
    }
  }

  /** `connect` with `max_reconnects = m >= 0` calls `buildConnection` at most `m + 2` times and gives up with `reconnects = m + 1`. */
  lemma ConnectionIsBounded(script: seq<Step>, m: int, start: int, holdsToken: bool)
    requires m >= 0
    ensures var run := Connection(script, m, start, holdsToken);
      && run.attempts <= m + 2
      && (run.result.MaxReconnectsExceeded? ==> run.result.reconnects == m + 1 && run.attempts == m + 2)
  {
    AttemptsAreBounded(script, m, -1, start, holdsToken);
  }

  /** With `max_reconnects = -1` the loop never gives up by the bound. */
  lemma {:induction false} UnboundedNeverGivesUp(script: seq<Step>, reconnects: int, lastTry: int, holdsToken: bool)
    decreases |script|
    ensures !Supervise(script, -1, reconnects, lastTry, holdsToken).result.MaxReconnectsExceeded?
  {
    if script != [] {
      UnboundedNeverGivesUp(script[1..], reconnects + 1, script[0].finishedAt, TokenKept(script[0]));
    }
  }

  /** Every step fails with a retriable error. */
  predicate AllRetriable(script: seq<Step>)
  {
    forall k :: 0 <= k < |script| ==> script[k].outcome.Failed? && Retriable(script[k].outcome.error)
  }

  /** Retriable failures, enough of them, exhaust the bound: `m + 1 - reconnects` attempts, then `reconnects = m + 1`. */
  lemma {:induction false} RetriableFailuresExhaust(script: seq<Step>, m: int, reconnects: int, lastTry: int, holdsToken: bool)
    requires 0 <= m && -1 <= reconnects <= m + 1
    requires |script| >= m + 1 - reconnects && AllRetriable(script)
    decreases |script|
    ensures Supervise(script, m, reconnects, lastTry, holdsToken).result == MaxReconnectsExceeded(m + 1)
    ensures Supervise(script, m, reconnects, lastTry, holdsToken).attempts == m + 1 - reconnects
  {
    if Continues(m, reconnects) {
      var step := script[0];
      assert step.outcome.Failed? && Retriable(step.outcome.error);
      assert Settlement(step.outcome) == None;
      assert AllRetriable(script[1..]) by {
        forall k | 0 <= k < |script[1..]| ensures script[1..][k] == script[k + 1] { }
      }
      RetriableFailuresExhaust(script[1..], m, reconnects + 1, step.finishedAt, TokenKept(step));
    }
  }

  /** `connect({max_reconnects: 1})` against an endpoint that always times out: three attempts, then `reconnects = 2`. */
  lemma MaxOneReconnectMakesThreeAttempts(script: seq<Step>, start: int, holdsToken: bool)
    requires |script| >= 3 && AllRetriable(script)
    ensures Connection(script, 1, start, holdsToken).result == MaxReconnectsExceeded(2)
    ensures Connection(script, 1, start, holdsToken).attempts == 3
  {
    RetriableFailuresExhaust(script, 1, -1, start, holdsToken);
  }

  /** A cancellation resolves at once: one attempt, a final `disconnected`, no token left. */
  lemma CancellationResolves(script: seq<Step>, m: int, reconnects: int, lastTry: int, holdsToken: bool)
    requires Continues(m, reconnects) && script != [] && script[0].outcome == DisconnectedByUser
    ensures var run := Supervise(script, m, reconnects, lastTry, holdsToken);
      run.result == Resolved && run.attempts == 1 && !run.holdsToken && run.events[|run.events| - 1] == Disconnected
  {
  }

  /** A failure that is not retriable rejects at once with that same error. */
  lemma FatalErrorRejects(script: seq<Step>, m: int, reconnects: int, lastTry: int, holdsToken: bool)
    requires Continues(m, reconnects) && script != [] && script[0].outcome.Failed? && !Retriable(script[0].outcome.error)
    ensures var run := Supervise(script, m, reconnects, lastTry, holdsToken);
      run.result == Rejected(script[0].outcome.error) && run.attempts == 1
  {
  }

  /**
   * A retriable failure emits `reconnect` with the `rateLimiting` wait,
   * measured from `last_try` to the failure, and the loop goes on.
   */
  lemma RetriableErrorReconnects(script: seq<Step>, m: int, reconnects: int, lastTry: int, holdsToken: bool)
    requires Continues(m, reconnects) && script != [] && script[0].outcome.Failed? && Retriable(script[0].outcome.error)
    ensures var step := script[0];
      var run := Supervise(script, m, reconnects, lastTry, holdsToken);
      var rest := Supervise(script[1..], m, reconnects + 1, step.finishedAt, !step.disconnectWhileSleeping);
      var pre := DisconnectPrevious(holdsToken);
      && |run.events| > |pre|
      && run.events[|pre|] == Reconnect(step.outcome.error, RateLimiting(step.outcome.error.response, lastTry, step.failedAt))
      && run.result == rest.result && run.attempts == rest.attempts + 1
  {
  }

  /** A stream that ends normally does not settle `connect`: the loop goes on. */
  lemma CompletedContinues(script: seq<Step>, m: int, reconnects: int, lastTry: int, holdsToken: bool)
    requires Continues(m, reconnects) && script != [] && script[0].outcome == Completed
    ensures var run := Supervise(script, m, reconnects, lastTry, holdsToken);
      var rest := Supervise(script[1..], m, reconnects + 1, script[0].finishedAt, true);
      run.result == rest.result && run.attempts == rest.attempts + 1
  {
  }

  /** `connect` resolves only through a cancellation, and rejects with an error only when some attempt failed with it unretriably. */
  lemma {:induction false} SettlementHasACause(script: seq<Step>, m: int, reconnects: int, lastTry: int, holdsToken: bool)
    decreases |script|
    ensures var run := Supervise(script, m, reconnects, lastTry, holdsToken);
      && (run.result.Resolved? ==> DisconnectedByUser in Outcomes(script))
      && (run.result.Rejected? ==> Failed(run.result.error) in Outcomes(script) && !Retriable(run.result.error))
  {
    if Continues(m, reconnects) && script != [] {
      var step := script[0];
      assert Outcomes(script) == [step.outcome] + Outcomes(script[1..]);
      if Settlement(step.outcome).None? {
        SettlementHasACause(script[1..], m, reconnects + 1, step.finishedAt, TokenKept(step));
      }
    }
  }

  /** The outcomes of the steps, in order. */
  function Outcomes(script: seq<Step>): (r: seq<Outcome>)
    ensures |r| == |script| && forall k :: 0 <= k < |script| ==> r[k] == script[k].outcome
  {
    if script == [] then [] else [script[0].outcome] + Outcomes(script[1..])
  }

  class StreamClient {
    /** The request timeout and the stream's liveness timeout, in milliseconds. */
    const timeout: int
    const streamTimeout: int

    /** What the last `connect` stored on the client. */
    var params: Option<Params>
    var maxReconnects: Option<int>

    /** The installed cancel token, named by the order in which tokens were created. */
    var cancelToken: Option<nat>
    var tokensIssued: nat
    var cancelled: set<nat>

    /** Every event the client has emitted, in order. */
    var log: seq<ClientEvent>

    /** Every token ever created is cancelled, except the one installed, which is not and is the newest. */
    ghost predicate Valid()
      reads this
    {
      && (cancelToken.Some? ==> cancelToken.value == tokensIssued - 1 && cancelToken.value !in cancelled)
      && (forall t :: t in cancelled ==> t < tokensIssued)
      && (forall t :: 0 <= t < tokensIssued && t !in cancelled ==> cancelToken == Some(t))
    }

    /** A token created and not cancelled: one whose request can still be cancelled. */
    ghost predicate Live(t: nat)
      reads this
    {
      t < tokensIssued && t !in cancelled
    }

    /** At most one token is live at a time, and it is the installed one, the newest created. */
    lemma AtMostOneLiveToken(t1: nat, t2: nat)
      requires Valid() && Live(t1) && Live(t2)
      ensures t1 == t2 && cancelToken == Some(t1)
      ensures t1 == tokensIssued - 1
    {
    }

    constructor(timeout: Option<int>, streamTimeout: Option<int>)
      ensures Valid()
      ensures this.timeout == timeout.GetOr(DATA_TIMEOUT) && this.streamTimeout == streamTimeout.GetOr(DATA_TIMEOUT)
      ensures params.None? && maxReconnects.None?
      ensures cancelToken.None? && tokensIssued == 0 && cancelled == {} && log == []
    {
      this.timeout := timeout.GetOr(DATA_TIMEOUT);
      this.streamTimeout := streamTimeout.GetOr(DATA_TIMEOUT);
      params := None;
      maxReconnects := None;
      cancelToken := None;
      tokensIssued := 0;
      cancelled := {};
      log := [];
    }

    /** `disconnect`: emits `disconnected`, then cancels and drops the installed token; true iff there was one. */
    method Disconnect() returns (hadToken: bool)
      requires Valid()
      modifies this`cancelToken, this`cancelled, this`log
      ensures Valid()
      ensures hadToken <==> old(cancelToken).Some?
      ensures cancelToken.None?
      ensures log == old(log) + [Disconnected]
      ensures cancelled == if hadToken then old(cancelled) + {old(cancelToken).value} else old(cancelled)
    {
      log := log + [Disconnected];
      if cancelToken.Some? {
        cancelled := cancelled + {cancelToken.value};
        cancelToken := None;
        hadToken := true;
      } else {
        hadToken := false;
      }
    }

    /** The head of `buildConnection`: disconnect a token left installed, then install a fresh one. */
    method BuildConnection() returns (token: nat)
      requires Valid()
      modifies this`cancelToken, this`cancelled, this`log, this`tokensIssued
      ensures Valid()
      ensures token == old(tokensIssued) && tokensIssued == token + 1 && cancelToken == Some(token)
      ensures log == old(log) + DisconnectPrevious(old(cancelToken).Some?)
      ensures cancelled == if old(cancelToken).Some? then old(cancelled) + {old(cancelToken).value} else old(cancelled)
    {
      if cancelToken.Some? {
        var _ := Disconnect();
      }
      token := tokensIssued;
      tokensIssued := tokensIssued + 1;
      cancelToken := Some(token);
    }

    /** The rest of a loop iteration of `connect` once `buildConnection` has settled as `step` says. */
    method AfterAttempt(step: Step, lastTry: int) returns (settled: Option<ConnectResult>)
      requires Valid() && cancelToken.Some?
      modifies this`cancelToken, this`cancelled, this`log
      ensures Valid()
      ensures settled == Settlement(step.outcome)
      ensures log == old(log) + AttemptEvents(step, lastTry)
      ensures cancelToken.Some? == TokenKept(step)
    {
      match step.outcome {
        case DisconnectedByUser =>
          var _ := Disconnect();
          settled := Some(Resolved);
        case Completed =>
          settled := None;
        case Failed(e) =>
          if IsTimedout(e) || (e.response.Some? && RetriableStatus(e.response.value)) {
            var wait := RateLimiting(e.response, lastTry, step.failedAt);
            log := log + [Reconnect(e, wait)];
            if step.disconnectWhileSleeping {
              var _ := Disconnect();
            }
            settled := None;
          } else {
            settled := Some(Rejected(e));
          }
      }
    }

    /**
     * One turn of the loop of `connect`, entered with the loop test passed:
     * store the arguments, build a connection, and handle how it settles.
     * Either `connect` settles as the rest of the run says, or the run goes
     * on from the next step.
     */
    method Turn(params: Params, maxReconnects: int, script: seq<Step>, i: nat, reconnects: int, lastTry: int)
      returns (settled: Option<ConnectResult>)
      requires Valid() && i <= |script| && Continues(maxReconnects, reconnects)
      modifies this
      ensures Valid()
      ensures this.params == Some(params) && this.maxReconnects == Some(maxReconnects)
      ensures var cur := Supervise(script[i..], maxReconnects, reconnects, lastTry, old(cancelToken).Some?);
        if settled.Some? then
          && settled.value == cur.result
          && log == old(log) + cur.events
          && tokensIssued == old(tokensIssued) + cur.attempts
          && cancelToken.Some? == cur.holdsToken
        else
          && i < |script|
          && var next := Supervise(script[i + 1..], maxReconnects, reconnects + 1, script[i].finishedAt, cancelToken.Some?);
          && next.result == cur.result
          && log + next.events == old(log) + cur.events
          && tokensIssued + next.attempts == old(tokensIssued) + cur.attempts
          && next.holdsToken == cur.holdsToken
    {
      ghost var holds := cancelToken.Some?;
      UnrollAt(script, i, maxReconnects, reconnects, lastTry, holds);
      this.params := Some(params);
      this.maxReconnects := Some(maxReconnects);
      var _ := BuildConnection();
      if i == |script| {
        return Some(Pending(reconnects + 1));
      }
      var step := script[i];
      settled := AfterAttempt(step, lastTry);
      AppendAssociates(old(log), DisconnectPrevious(holds), AttemptEvents(step, lastTry));
      if settled.None? {
        ghost var rest := Supervise(script[i + 1..], maxReconnects, reconnects + 1, step.finishedAt, TokenKept(step));
        AppendAssociates(old(log), DisconnectPrevious(holds) + AttemptEvents(step, lastTry), rest.events);
      }
    }

    /**
     * `connect`: attempts connections until one is cancelled, one fails
     * unretriably, or the bound is exceeded, as `Connection` describes.
     */
    method Connect(params: Params, maxReconnects: int, start: int, script: seq<Step>) returns (result: ConnectResult)
      requires Valid()
      modifies this
      ensures Valid()
      ensures var run := Connection(script, maxReconnects, start, old(cancelToken).Some?);
        && result == run.result
        && log == old(log) + run.events
        && tokensIssued == old(tokensIssued) + run.attempts
        && cancelToken.Some? == run.holdsToken
      ensures Continues(maxReconnects, -1) ==> this.params == Some(params) && this.maxReconnects == Some(maxReconnects)
      ensures !Continues(maxReconnects, -1) ==> this.params == old(this.params) && this.maxReconnects == old(this.maxReconnects)
    {
      var reconnects := -1;
      var lastTry := start;
      var i := 0;
      ghost var run := Connection(script, maxReconnects, start, cancelToken.Some?);
      while Continues(maxReconnects, reconnects)
        invariant Valid()
        invariant 0 <= i <= |script| && reconnects == i - 1
        invariant var cur := Supervise(script[i..], maxReconnects, reconnects, lastTry, cancelToken.Some?);
          && cur.result == run.result
          && log + cur.events == old(log) + run.events
          && tokensIssued + cur.attempts == old(tokensIssued) + run.attempts
          && cur.holdsToken == run.holdsToken
        invariant i > 0 ==> this.params == Some(params) && this.maxReconnects == Some(maxReconnects)
        invariant i == 0 ==> this.params == old(this.params) && this.maxReconnects == old(this.maxReconnects)
        decreases |script| - i
      {
        var settled := Turn(params, maxReconnects, script, i, reconnects, lastTry);
        if settled.Some? {
          return settled.value;
        }
        lastTry := script[i].finishedAt;
        reconnects := reconnects + 1;
        i := i + 1;
      }
      result := MaxReconnectsExceeded(reconnects);
    }
  }

  /** Two `disconnect` calls in a row: the first reports the installed token, the second finds none; both emit. */
  method DisconnectTwice(c: StreamClient) returns (first: bool, second: bool)
    requires c.Valid() && c.cancelToken.Some?
    modifies c
    ensures first && !second
    ensures c.log == old(c.log) + [Disconnected, Disconnected]
  {
    first := c.Disconnect();
    second := c.Disconnect();
  }
}

/** The per-host retry policy, as pure functions: one step per driver
    callback, and a whole cycle of callbacks folded over an event sequence.
    The `Host` class in module Hosts performs the same steps on its fields. */
module HostPolicy {
  import opened Wrappers
  import opened Driver

  /** A failed connect is retried while the counter's old value is below this. */
  const MaxConnectRetries: nat := 10

  /** A new host's `error_timeout`, in milliseconds. */
  const DefaultErrorTimeout: nat := 10000

  /** The error code that always triggers a reconnect. */
  const ConnectionLostCode: string := "PROTOCOL_CONNECTION_LOST"

  /** The wait before a retry: `error_timeout * (error_retries + 1)`. */
  function RetryDelay(errorTimeout: nat, errorRetries: nat): (delay: nat)
    ensures delay >= errorTimeout
  {
    errorTimeout * (errorRetries + 1)
  }

  /** The wait grows strictly with the counter. */
  lemma {:induction false} RetryDelayIncreasing(errorTimeout: nat, a: nat, b: nat)
    requires errorTimeout > 0 && a < b
    ensures RetryDelay(errorTimeout, a) < RetryDelay(errorTimeout, b)
    decreases b
  {
    assert RetryDelay(errorTimeout, b) == RetryDelay(errorTimeout, b - 1) + errorTimeout;
    if a < b - 1 {
      RetryDelayIncreasing(errorTimeout, a, b - 1);
    }
  }

  // ---------------------------------------------------------------------
  // Connect callback
  // ---------------------------------------------------------------------

  datatype ConnectAction = ConnectOk | ConnectRetry | ConnectThrow(err: DriverError)

  /** The connect callback: success resets the counter; a failure
      post-increments it and retries when the old value was below the cap,
      and throws the error otherwise. Yields the new counter and the action. */
  function ConnectStep(errorRetries: nat, result: Option<DriverError>): (nat, ConnectAction)
  {
    match result
    case None => (0, ConnectOk)
    case Some(err) =>
      if errorRetries < MaxConnectRetries then (errorRetries + 1, ConnectRetry)
      else (errorRetries + 1, ConnectThrow(err))
  }

  datatype ConnectEnd = Established | GaveUp(err: DriverError) | Awaiting

  /** Where a chain of connect attempts ends, the counter it leaves behind
      and the wait before each reconnect it made (one destroy and one new
      driver connection per wait). */
  datatype ConnectRun = ConnectRun(end: ConnectEnd, errorRetries: nat, delays: seq<nat>)

  /** Consecutive connect callbacks, starting from the counter `errorRetries`:
      `results[i]` is the outcome of the i-th connection of the chain.
      The retry's wait is computed after the counter was incremented. */
  function ConnectCycle(errorRetries: nat, errorTimeout: nat, results: seq<Option<DriverError>>): ConnectRun
    decreases |results|
  {
    if results == [] then ConnectRun(Awaiting, errorRetries, [])
    else
      var (next, action) := ConnectStep(errorRetries, results[0]);
      match action
      case ConnectOk => ConnectRun(Established, next, [])
      case ConnectThrow(err) => ConnectRun(GaveUp(err), next, [])
      case ConnectRetry =>
        var rest := ConnectCycle(next, errorTimeout, results[1..]);
        ConnectRun(rest.end, rest.errorRetries, [RetryDelay(errorTimeout, next)] + rest.delays)
  }

  /** The number of leading failures in a sequence of connect outcomes. */
  function LeadingFailures(results: seq<Option<DriverError>>): (k: nat)
    ensures k <= |results|
    ensures forall i :: 0 <= i < k ==> results[i].Some?
    ensures k < |results| ==> results[k].None?
  {
    if results == [] || results[0].None? then 0 else 1 + LeadingFailures(results[1..])
  }

  /** How many more failures a counter at `errorRetries` still retries. */
  function Budget(errorRetries: nat): nat
  {
    if errorRetries < MaxConnectRetries then MaxConnectRetries - errorRetries else 0
  }

  function Min(a: nat, b: nat): nat
  {
    if a < b then a else b
  }

  /** How a connect chain ends: it is established when a success comes
      within the remaining budget of failures, and it gives up with the
      first failure past that budget. */
  lemma {:induction false} ConnectCycleEnd(errorRetries: nat, errorTimeout: nat, results: seq<Option<DriverError>>)
    ensures var run := ConnectCycle(errorRetries, errorTimeout, results);
            var k := LeadingFailures(results);
            && (run.end == Established <==> k < |results| && k <= Budget(errorRetries))
            && (run.end.GaveUp? <==> k > Budget(errorRetries))
            && (run.end.GaveUp? ==> Some(run.end.err) == results[Budget(errorRetries)])
    decreases |results|
  {
    if results != [] && results[0].Some? && errorRetries < MaxConnectRetries {
      ConnectCycleEnd(errorRetries + 1, errorTimeout, results[1..]);
    }
  }

  /** What a connect chain leaves behind: the counter is 0 once connected,
      one past the cap when it gives up, and counts the failures while
      still waiting; the chain reconnects once per retried failure, the
      n-th time after `error_timeout * (counter + n + 1)`. */
  lemma {:induction false} ConnectCycleState(errorRetries: nat, errorTimeout: nat, results: seq<Option<DriverError>>)
    ensures var run := ConnectCycle(errorRetries, errorTimeout, results);
            var k := LeadingFailures(results);
            && |run.delays| == Min(k, Budget(errorRetries))
            && (forall i :: 0 <= i < |run.delays| ==>
                  run.delays[i] == RetryDelay(errorTimeout, errorRetries + i + 1))
            && (run.end == Established ==> run.errorRetries == 0)
            && (run.end.GaveUp? ==> run.errorRetries == errorRetries + Budget(errorRetries) + 1)
            && (run.end == Awaiting ==> run.errorRetries == errorRetries + k)
    decreases |results|
  {
    if results != [] && results[0].Some? && errorRetries < MaxConnectRetries {
      ConnectCycleState(errorRetries + 1, errorTimeout, results[1..]);
      var run := ConnectCycle(errorRetries, errorTimeout, results);
      var rest := ConnectCycle(errorRetries + 1, errorTimeout, results[1..]);
      assert run.delays == [RetryDelay(errorTimeout, errorRetries + 1)] + rest.delays;
      forall i | 0 <= i < |run.delays|
        ensures run.delays[i] == RetryDelay(errorTimeout, errorRetries + i + 1)
      {
        if i > 0 {
          assert run.delays[i] == rest.delays[i - 1];
        }
      }
    } else if results != [] && results[0].Some? {
      ConnectCycleEnd(errorRetries, errorTimeout, results);
    }
  }

  /** The waits of one connect chain grow strictly. */
  lemma ConnectDelaysIncrease(errorRetries: nat, errorTimeout: nat, results: seq<Option<DriverError>>)
    requires errorTimeout > 0
    ensures var d := ConnectCycle(errorRetries, errorTimeout, results).delays;
            forall i, j :: 0 <= i < j < |d| ==> d[i] < d[j]
  {
    var d := ConnectCycle(errorRetries, errorTimeout, results).delays;
    ConnectCycleState(errorRetries, errorTimeout, results);
    forall i, j | 0 <= i < j < |d|
      ensures d[i] < d[j]
    {
      RetryDelayIncreasing(errorTimeout, errorRetries + i + 1, errorRetries + j + 1);
    }
  }

  /** From a fresh host (counter 0): ten failures are retried and an
      eleventh success connects with the counter back at 0, while an eleventh
      failure is thrown with the counter at 11. Either way there were ten
      reconnects, waiting 2, 3, ..., 11 units. */
  lemma FreshHostConnects(errorTimeout: nat, err: DriverError, last: Option<DriverError>)
    ensures var results := seq(MaxConnectRetries, _ => Some(err)) + [last];
            var run := ConnectCycle(0, errorTimeout, results);
            && |run.delays| == MaxConnectRetries
            && (forall i :: 0 <= i < MaxConnectRetries ==> run.delays[i] == RetryDelay(errorTimeout, i + 1))
            && (last.None? ==> run.end == Established && run.errorRetries == 0)
            && (last.Some? ==> run.end == GaveUp(last.value) && run.errorRetries == MaxConnectRetries + 1)
  {
    var results := seq(MaxConnectRetries, _ => Some(err)) + [last];
    var k := LeadingFailures(results);
    assert forall i :: 0 <= i < MaxConnectRetries ==> results[i] == Some(err);
    assert k >= MaxConnectRetries;
    ConnectCycleEnd(0, errorTimeout, results);
    ConnectCycleState(0, errorTimeout, results);
  }

  // ---------------------------------------------------------------------
  // Query callback
  // ---------------------------------------------------------------------

  datatype QueryAction = QueryRetry | QueryCallback(reply: QueryReply) | QueryIgnored

  predicate IsFatal(reply: QueryReply)
  {
    reply.err.Some? && reply.err.value.fatal
  }

  /** The query callback: a fatal error retries; any other outcome is handed
      to the caller's callback, when there is a callback function. */
  function QueryStep(reply: QueryReply, callbackIsFunction: bool): QueryAction
  {
    if IsFatal(reply) then QueryRetry
    else if callbackIsFunction then QueryCallback(reply)
    else QueryIgnored
  }

  /** Where a query ends: its final reply and whether the callback received
      it; dropped after a retry that had no query to re-issue; or waiting
      for a reply. */
  datatype QueryEnd = Answered(reply: QueryReply, calledBack: bool) | Abandoned | Waiting

  /** Where a query chain ends and the wait before each retry it made. */
  datatype QueryRun = QueryRun(end: QueryEnd, delays: seq<nat>)

  /** Consecutive replies to one query: each fatal reply makes a retry that
      waits, destroys the connection, reconnects and re-issues the query
      when `reissue` (the query is truthy). The query path leaves the
      counter as it is, so every wait is the same. */
  function QueryCycle(errorRetries: nat, errorTimeout: nat, reissue: bool, callbackIsFunction: bool,
                      replies: seq<QueryReply>): QueryRun
    decreases |replies|
  {
    if replies == [] then QueryRun(Waiting, [])
    else
      match QueryStep(replies[0], callbackIsFunction)
      case QueryCallback(reply) => QueryRun(Answered(reply, true), [])
      case QueryIgnored => QueryRun(Answered(replies[0], false), [])
      case QueryRetry =>
        var delay := RetryDelay(errorTimeout, errorRetries);
        if reissue then
          var rest := QueryCycle(errorRetries, errorTimeout, reissue, callbackIsFunction, replies[1..]);
          QueryRun(rest.end, [delay] + rest.delays)
        else QueryRun(Abandoned, [delay])
  }

  /** The number of leading fatal replies. */
  function LeadingFatal(replies: seq<QueryReply>): (k: nat)
    ensures k <= |replies|
    ensures forall i :: 0 <= i < k ==> IsFatal(replies[i])
    ensures k < |replies| ==> !IsFatal(replies[k])
  {
    if replies == [] || !IsFatal(replies[0]) then 0 else 1 + LeadingFatal(replies[1..])
  }

  /** A query is answered with the first non-fatal reply, however many fatal
      replies come before it (no cap), and the callback receives that reply
      exactly when it is a function; a query that cannot be re-issued is
      dropped after its first fatal reply. Every wait is
      `error_timeout * (error_retries + 1)` for the unchanged counter. */
  lemma {:induction false} QueryCycleOutcome(errorRetries: nat, errorTimeout: nat, reissue: bool,
                                             callbackIsFunction: bool, replies: seq<QueryReply>)
    ensures var run := QueryCycle(errorRetries, errorTimeout, reissue, callbackIsFunction, replies);
            var k := LeadingFatal(replies);
            && (run.end.Answered? <==> k < |replies| && (k == 0 || reissue))
            && (run.end.Answered? ==> run.end.reply == replies[k] &&
                                      run.end.calledBack == callbackIsFunction &&
                                      |run.delays| == k)
            && (run.end == Abandoned <==> 0 < k && !reissue)
            && (run.end == Abandoned ==> |run.delays| == 1)
            && (forall i :: 0 <= i < |run.delays| ==> run.delays[i] == RetryDelay(errorTimeout, errorRetries))
    decreases |replies|
  {
    if replies != [] && IsFatal(replies[0]) && reissue {
      QueryCycleOutcome(errorRetries, errorTimeout, reissue, callbackIsFunction, replies[1..]);
      var run := QueryCycle(errorRetries, errorTimeout, reissue, callbackIsFunction, replies);
      var rest := QueryCycle(errorRetries, errorTimeout, reissue, callbackIsFunction, replies[1..]);
      forall i | 0 <= i < |run.delays|
        ensures run.delays[i] == RetryDelay(errorTimeout, errorRetries)
      {
        if i > 0 {
          assert run.delays[i] == rest.delays[i - 1];
        }
      }
    }
  }

  /** Fatal query errors are not capped: after any number `n` of fatal
      replies a non-fatal reply still reaches the callback, after `n` retries. */
  lemma FatalQueryRetriesUncapped(errorRetries: nat, errorTimeout: nat, n: nat,
                                  fatal: DriverError, last: QueryReply)
    requires fatal.fatal && !IsFatal(last)
    ensures var replies := seq(n, _ => QueryReply(Some(fatal), None, None)) + [last];
            var run := QueryCycle(errorRetries, errorTimeout, true, true, replies);
            run.end == Answered(last, true) && |run.delays| == n
  {
    var replies := seq(n, _ => QueryReply(Some(fatal), None, None)) + [last];
    var k := LeadingFatal(replies);
    assert replies[n] == last;
    assert k == n by {
      if k < n {
        assert IsFatal(replies[k]);
      }
    }
    QueryCycleOutcome(errorRetries, errorTimeout, true, true, replies);
  }

  // ---------------------------------------------------------------------
  // Asynchronous connection errors
  // ---------------------------------------------------------------------

  datatype AsyncAction = Reconnect | Rethrow(err: DriverError)

  /** The connection's 'error' handler: a lost connection or a fatal error
      destroys the connection and connects again; anything else is thrown. */
  function AsyncErrorAction(err: DriverError): (action: AsyncAction)
    ensures action == Reconnect <==> err.code == ConnectionLostCode || err.fatal
    ensures action.Rethrow? ==> action.err == err
  {
    if err.code == ConnectionLostCode || err.fatal then Reconnect else Rethrow(err)
  }
}

/** One physical endpoint: `Host` in index.js. Its fields are updated in
    place by the driver callbacks; each callback is a method here, and the
    self-re-entering retry chains are loops over the callbacks' outcomes.
    The driver connection itself is represented by how many connections
    the host has created and destroyed. */
module Hosts {
  import opened Wrappers
  import opened Driver
  import opened HostPolicy

  class Host {
    /** `error_retries`: consecutive failed connects since the last success. */
    var errorRetries: nat
    /** `error_timeout`: the backoff unit. */
    const errorTimeout: nat
    const config: Config
    /** Driver connections created by `connect`; the current one is the last. */
    var created: nat
    /** Driver connections destroyed. */
    var destroyed: nat

    /** Exactly one driver connection is live: every replacement is created
        right after the previous one was destroyed. */
    ghost predicate Valid()
      reads this
    {
      created == destroyed + 1 && errorTimeout > 0
    }

    /** `new Host(config)`: counter 0, backoff unit 10000 ms, and a first
        connection created at once. */
    constructor (config: Config)
      ensures Valid()
      ensures this.config == config
      ensures errorRetries == 0 && errorTimeout == DefaultErrorTimeout
      ensures created == 1 && destroyed == 0
    {
      this.errorRetries := 0;
      this.errorTimeout := DefaultErrorTimeout;
      this.config := config;
      this.created := 0;
      this.destroyed := 0;
      new;
      Connect();
    }

    /** `connect(host)`: create a new driver connection (its connect and
        'error' callbacks are the On... methods below). */
    method Connect()
      requires created == destroyed
      modifies this`created
      ensures created == old(created) + 1
    {
      created := created + 1;
    }

    /** `host.connection.destroy()`. */
    method Destroy()
      requires Valid()
      modifies this`destroyed
      ensures destroyed == old(destroyed) + 1
    {
      destroyed := destroyed + 1;
    }

    /** `retry(query)`: wait `error_timeout * (error_retries + 1)`, destroy
        the connection, connect again, and re-issue the query only when
        one was passed and it is truthy. */
    method Retry(query: Option<Query>) returns (delay: nat, reissue: bool)
      requires Valid()
      modifies this`created, this`destroyed
      ensures Valid()
      ensures delay == RetryDelay(errorTimeout, errorRetries)
      ensures reissue <==> query.Some? && Truthy(query.value)
      ensures created == old(created) + 1 && destroyed == old(destroyed) + 1
    {
      delay := RetryDelay(errorTimeout, errorRetries);
      Destroy();
      Connect();
      reissue := query.Some? && Truthy(query.value);
    }

    /** The connect callback. On a retried failure the host has already
        reconnected and `delay` is the wait before it. */
    method OnConnectResult(result: Option<DriverError>) returns (action: ConnectAction, delay: Option<nat>)
      requires Valid()
      modifies this
      ensures Valid()
      ensures (errorRetries, action) == ConnectStep(old(errorRetries), result)
      ensures action == ConnectRetry ==>
                delay == Some(RetryDelay(errorTimeout, errorRetries)) &&
                created == old(created) + 1 && destroyed == old(destroyed) + 1
      ensures action != ConnectRetry ==>
                delay == None && created == old(created) && destroyed == old(destroyed)
    {
      delay := None;
      match result {
        case None =>
          errorRetries := 0;
          action := ConnectOk;
        case Some(err) =>
          var was := errorRetries;
          errorRetries := errorRetries + 1;
          if was < MaxConnectRetries {
            var d, _ := Retry(None);
            action, delay := ConnectRetry, Some(d);
          } else {
            action := ConnectThrow(err);
          }
      }
    }

    /** The query callback, for a `query` whose caller passed a callback
        function or not. A fatal reply retries; `reissue` says whether the
        query was sent again. */
    method OnQueryReply(query: Query, callbackIsFunction: bool, reply: QueryReply)
      returns (action: QueryAction, delay: Option<nat>, reissue: bool)
      requires Valid()
      modifies this`created, this`destroyed
      ensures Valid()
      ensures action == QueryStep(reply, callbackIsFunction)
      ensures action == QueryRetry ==>
                delay == Some(RetryDelay(errorTimeout, errorRetries)) && reissue == Truthy(query) &&
                created == old(created) + 1 && destroyed == old(destroyed) + 1
      ensures action != QueryRetry ==>
                delay == None && !reissue && created == old(created) && destroyed == old(destroyed)
    {
      action := QueryStep(reply, callbackIsFunction);
      delay, reissue := None, false;
      if action == QueryRetry {
        var d;
        d, reissue := Retry(Some(query));
        delay := Some(d);
      }
    }

    /** The connection's 'error' handler. A reconnect destroys and connects
        without touching the counter; a rethrown error changes nothing. */
    method OnAsyncError(err: DriverError) returns (action: AsyncAction)
      requires Valid()
      modifies this`created, this`destroyed
      ensures Valid()
      ensures action == AsyncErrorAction(err)
      ensures action == Reconnect ==> created == old(created) + 1 && destroyed == old(destroyed) + 1
      ensures action.Rethrow? ==> created == old(created) && destroyed == old(destroyed)
    {
      action := AsyncErrorAction(err);
      if action == Reconnect {
        Destroy();
        Connect();
      }
    }

    /** Runs the connect callbacks of one chain, `results[i]` being the
        outcome of its i-th connection, until the chain connects, throws,
        or runs out of outcomes. */
    method ConnectUntilSettled(results: seq<Option<DriverError>>) returns (end: ConnectEnd, delays: seq<nat>)
      requires Valid()
      modifies this
      ensures Valid()
      ensures ConnectCycle(old(errorRetries), errorTimeout, results) == ConnectRun(end, errorRetries, delays)
      ensures created == old(created) + |delays| && destroyed == old(destroyed) + |delays|
    {
      end, delays := Awaiting, [];
      var i := 0;
      while i < |results| && end == Awaiting
        invariant 0 <= i <= |results|
        invariant Valid()
        invariant created == old(created) + |delays| && destroyed == old(destroyed) + |delays|
        invariant end == Awaiting ==>
          var rest := ConnectCycle(errorRetries, errorTimeout, results[i..]);
          ConnectCycle(old(errorRetries), errorTimeout, results) == ConnectRun(rest.end, rest.errorRetries, delays + rest.delays)
        invariant end != Awaiting ==>
          ConnectCycle(old(errorRetries), errorTimeout, results) == ConnectRun(end, errorRetries, delays)
      {
        assert results[i..][1..] == results[i + 1..];
        var action, delay := OnConnectResult(results[i]);
        match action {
          case ConnectOk =>
            end := Established;
          case ConnectThrow(err) =>
            end := GaveUp(err);
          case ConnectRetry =>
            delays := delays + [delay.value];
        }
        i := i + 1;
      }
    }

    /** Runs the callbacks of one query, `replies[i]` being the driver's
        reply to its i-th submission, until a reply is passed on, the query
        is dropped, or the replies run out. The counter is left as it is. */
    method QueryUntilSettled(query: Query, callbackIsFunction: bool, replies: seq<QueryReply>)
      returns (end: QueryEnd, delays: seq<nat>)
      requires Valid()
      modifies this
      ensures Valid() && errorRetries == old(errorRetries)
      ensures QueryCycle(errorRetries, errorTimeout, Truthy(query), callbackIsFunction, replies) == QueryRun(end, delays)
      ensures created == old(created) + |delays| && destroyed == old(destroyed) + |delays|
    {
      end, delays := Waiting, [];
      var i := 0;
      while i < |replies| && end == Waiting
        invariant 0 <= i <= |replies|
        invariant Valid() && errorRetries == old(errorRetries)
        invariant created == old(created) + |delays| && destroyed == old(destroyed) + |delays|
        invariant end == Waiting ==>
          var rest := QueryCycle(errorRetries, errorTimeout, Truthy(query), callbackIsFunction, replies[i..]);
          QueryCycle(errorRetries, errorTimeout, Truthy(query), callbackIsFunction, replies) == QueryRun(rest.end, delays + rest.delays)
        invariant end != Waiting ==>
          QueryCycle(errorRetries, errorTimeout, Truthy(query), callbackIsFunction, replies) == QueryRun(end, delays)
      {
        assert replies[i..][1..] == replies[i + 1..];
        ghost var here := QueryCycle(errorRetries, errorTimeout, Truthy(query), callbackIsFunction, replies[i..]);
        ghost var next := QueryCycle(errorRetries, errorTimeout, Truthy(query), callbackIsFunction, replies[i + 1..]);
        var action, delay, reissue := OnQueryReply(query, callbackIsFunction, replies[i]);
        match action {
          case QueryCallback(reply) =>
            assert here == QueryRun(Answered(reply, true), []);
            end := Answered(reply, true);
          case QueryIgnored =>
            assert here == QueryRun(Answered(replies[i], false), []);
            end := Answered(replies[i], false);
          case QueryRetry =>
            if reissue {
              assert here == QueryRun(next.end, [delay.value] + next.delays);
              assert delays + here.delays == (delays + [delay.value]) + next.delays;
            } else {
              assert here == QueryRun(Abandoned, [delay.value]);
              end := Abandoned;
            }
            delays := delays + [delay.value];
        }
        i := i + 1;
      }
    }
  }
}

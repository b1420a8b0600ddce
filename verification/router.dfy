/** `Database` in index.js: a read host `IN` and a write host `OUT`, which
    are one and the same object unless a write configuration names another
    host, and a `query` that sends each query to exactly one of them. */
module Router {
  import opened Wrappers
  import opened Driver
  import opened Classifier
  import opened HostPolicy
  import opened Hosts

  datatype Side = Read | Write

  /** The TypeError raised when the query is `null` or an object whose
      `sql` is not a string (`is_update` calls `substring` on it). */
  datatype RouteError = TypeError

  /** The side a query goes to: `OUT` when `is_update` holds of the string,
      or of the object's `sql`, and `IN` otherwise. */
  function Route(query: Query): Result<Side, RouteError>
  {
    match query
    case Text(s) => Success(if IsUpdate(s) then Write else Read)
    case Record(Some(s), _) => Success(if IsUpdate(s) then Write else Read)
    case Record(None, _) => Failure(TypeError)
    case Null => Failure(TypeError)
  }

  /** The SQL text a query carries, if it carries one. */
  function SqlText(query: Query): Option<string>
  {
    match query
    case Text(s) => Some(s)
    case Record(sql, _) => sql
    case Null => None
  }

  /** A query reaches a host exactly when it carries SQL text; it goes to
      `IN` exactly when that text starts with the six letters of SELECT in
      any case, and to `OUT` for every other text. */
  lemma RouteBySql(query: Query)
    ensures Route(query).Failure? <==> SqlText(query).None?
    ensures Route(query) == Success(Read) <==>
              SqlText(query).Some? && |SqlText(query).value| >= KeywordLength &&
              forall i :: 0 <= i < KeywordLength ==> SelectLetter(SqlText(query).value[i], i)
    ensures Route(query) == Success(Write) <==> SqlText(query).Some? && IsUpdate(SqlText(query).value)
  {
    if SqlText(query).Some? {
      IsReadIff(SqlText(query).value);
    }
  }

  /** When the write side reuses the read host: there is no write
      configuration, or its `host` equals the read configuration's (no
      other field is compared). */
  predicate WriteSharesRead(readConfig: Config, writeConfig: Option<Config>)
  {
    writeConfig.None? || writeConfig.value.host == readConfig.host
  }

  class Database {
    const IN: Host
    const OUT: Host

    ghost predicate Valid()
      reads this, IN, OUT
    {
      IN.Valid() && OUT.Valid()
    }

    /** `new Database(read_config, write_config)`; `None` stands for a falsy
        or omitted write configuration. */
    constructor (readConfig: Config, writeConfig: Option<Config>)
      ensures Valid()
      ensures fresh(IN) && fresh(OUT)
      ensures (OUT == IN) <==> WriteSharesRead(readConfig, writeConfig)
      ensures IN.config == readConfig && IN.errorRetries == 0 && IN.created == 1 && IN.destroyed == 0
      ensures OUT != IN ==>
                OUT.config == writeConfig.value && OUT.errorRetries == 0 && OUT.created == 1 && OUT.destroyed == 0
    {
      var readHost := new Host(readConfig);
      IN := readHost;
      if writeConfig.Some? && readConfig.host != writeConfig.value.host {
        OUT := new Host(writeConfig.value);
      } else {
        OUT := readHost;
      }
    }

    /** `database.query(query, callback)`: route, then run the chosen host's
        query callbacks over `replies`. A query that cannot be routed throws
        before any host is touched. */
    method Query(query: Query, callbackIsFunction: bool, replies: seq<QueryReply>)
      returns (r: Result<QueryRun, RouteError>)
      requires Valid()
      modifies IN, OUT
      ensures Valid()
      ensures r.Failure? <==> Route(query).Failure?
      ensures r.Failure? ==> unchanged(IN) && unchanged(OUT)
      ensures Route(query) == Success(Read) ==>
                r == Success(QueryCycle(IN.errorRetries, IN.errorTimeout, Truthy(query), callbackIsFunction, replies)) &&
                IN.errorRetries == old(IN.errorRetries) &&
                IN.created == old(IN.created) + |r.value.delays| &&
                (OUT != IN ==> unchanged(OUT))
      ensures Route(query) == Success(Write) ==>
                r == Success(QueryCycle(OUT.errorRetries, OUT.errorTimeout, Truthy(query), callbackIsFunction, replies)) &&
                OUT.errorRetries == old(OUT.errorRetries) &&
                OUT.created == old(OUT.created) + |r.value.delays| &&
                (OUT != IN ==> unchanged(IN))
    {
      match Route(query) {
        case Failure(e) =>
          r := Failure(e);
        case Success(side) =>
          var host := if side == Write then OUT else IN;
          var end, delays := host.QueryUntilSettled(query, callbackIsFunction, replies);
          r := Success(QueryRun(end, delays));
      }
    }
  }
}

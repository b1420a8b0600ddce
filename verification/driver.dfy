/** The values exchanged with the `mysql` driver. The driver itself
    (createConnection, connect, query, destroy and its 'error' event) is not
    modelled: its callbacks become the event values declared here. */
module Driver {
  import opened Wrappers

  /** A connection descriptor as handed to `mysql.createConnection`.
      `host` is `None` when the property is absent (`undefined`). */
  datatype Config = Config(
    host: Option<string>,
    user: string,
    password: string,
    database: string,
    debug: bool)

  /** An error reported by the driver: its `code` and its `fatal` flag. */
  datatype DriverError = DriverError(code: string, fatal: bool)

  /** Rows and field metadata are opaque to this layer: they are passed on
      to the caller unchanged. */
  type Rows = seq<seq<string>>

  /** The three arguments the driver hands to a query callback. */
  datatype QueryReply = QueryReply(
    err: Option<DriverError>,
    results: Option<Rows>,
    fields: Option<seq<string>>)

  /** What a caller passes to `query`: a SQL string, an object whose `sql`
      property is a string or missing, or `null` (whose `typeof` is also
      'object'). */
  datatype Query =
    | Text(text: string)
    | Record(sql: Option<string>, values: seq<string>)
    | Null

  /** JavaScript truthiness of a query value, as tested by `if (query)`:
      the empty string and `null` are falsy, every object is truthy. */
  predicate Truthy(q: Query)
  {
    match q
    case Text(s) => s != ""
    case Record(_, _) => true
    case Null => false
  }
}

# npm-mysql: read/write routing and per-host retry, modelled in Dafny

This project models `index.js` of the npm-mysql package. That file is a small
front end over the `mysql` driver and has three parts:

- **Classifier.** `is_update` decides whether a query string is a write.
  It upper-cases the first six characters and compares them with `SELECT`.
- **Router.** The `Database` constructor builds a read host `IN` and a write
  host `OUT`. They are the same object unless a write configuration names a
  different `host`. `Database.prototype.query` sends each query to exactly
  one of them.
- **Host.** Each `Host` keeps a mutable `error_retries` counter and an
  `error_timeout` backoff unit (10000 ms). It reconnects with linear backoff
  after connect failures and after fatal query errors. After a lost
  connection or an asynchronous fatal error it destroys the connection and
  connects again at once, with no wait.

The driver is replaced by abstract events: the outcome of each connect, the
reply to each query submission, and asynchronous connection errors. The
modules are:

- `Wrappers`: `Option` and `Result`.
- `Driver`: the values exchanged with the driver, plus the JavaScript
  truthiness of a query.
- `Classifier`: `is_update`.
- `HostPolicy`: each callback as a pure step function. Each retry chain is a
  cycle function folded over the event sequence. The lemmas are about these
  functions.
- `Hosts`: the `Host` class. Its methods update the fields in place, and its
  two loop methods are proved equal to the cycle functions.
- `Router`: `Route` and the `Database` class.

Some behaviour of the code is easy to get wrong, and the model keeps it as
written:

- **No trimming before classification.** A string shorter than six
  characters, or one with leading white space, is a write.
- **JavaScript upper-casing.** `toUpperCase` maps the long s (U+017F) to
  `S`, so `"ſelect 1"` is a read.
- **One counter only.** The only counter is `error_retries`, and only the
  connect callback changes it. Fatal query errors are retried without any
  cap.
- **When the connect backoff is computed.** `retry()` runs after the
  counter's post-increment. So the first connect retry from a fresh host
  waits 2 units and the tenth waits 11. The eleventh consecutive failure is
  thrown, with the counter at 11. A query retry waits
  `error_timeout * (error_retries + 1)` with the counter left unchanged.
- **Re-issuing a query.** `retry` re-issues a query only when it is truthy.
  After a fatal error, an empty-string query is dropped and its callback is
  never called.
- **Aliasing.** Only the `host` field decides whether `OUT` is `IN`. The other
  fields of the two configurations are never compared.
- **What index.js does not have.** There is no router-level connect or
  disconnect, no separate query counter and no normalisation of bound
  values.

## Model

| member | source | states |
|---|---|---|
| `Classifier.Prefix` | index.js:103 | `substring(0, 6)`: a prefix of the string, of length 6 when the string has at least 6 characters, and the whole string when it is shorter |
| `Classifier.IsReadIff` | index.js:102-104 | `is_update(s)` is false exactly when `s` has at least six characters and each is an upper- or lower-case letter of SELECT in turn (or the long s first), in both directions |
| `Classifier.CaseInsensitive` | index.js:103 | lower-casing or upper-casing the whole query never changes its classification |
| `Classifier.NoTrimming` | index.js:103 | a string shorter than six characters, or one whose first character is not a letter of SELECT (white space included), is an update |
| `Classifier.Examples` | index.js:102-104 | the repository's test queries `select version()` and `SELECT version()` are reads; a leading space, a 5-character prefix, the empty string and an INSERT are updates |
| `Router.RouteBySql` | index.js:36-45 | a query reaches a host iff it carries SQL text (a string, or an object whose `sql` is a string); it goes to `IN` iff that text reads as SELECT and to `OUT` iff `is_update` holds; `null` or an object without a string `sql` is a TypeError |
| `Router.Database.constructor` | index.js:16-25 | `OUT` is the very object `IN` iff the write configuration is absent or has the same `host`; otherwise it is a distinct fresh `Host` with its own counter, built from the write configuration |
| `Router.Database.Query` | index.js:36-45 | dispatches to `OUT` iff `Route` says Write and to `IN` iff Read, runs exactly that host's query cycle and leaves the other (distinct) host unchanged; an unroutable query changes neither host |
| `HostPolicy.RetryDelay` | index.js:67 | the wait `error_timeout * (error_retries + 1)` is at least one backoff unit |
| `HostPolicy.RetryDelayIncreasing` | index.js:67 | the wait is strictly increasing in the counter for a positive backoff unit |
| `HostPolicy.LeadingFailures` | index.js:77-78 | counts exactly the consecutive failed connects at the head of an outcome sequence |
| `HostPolicy.ConnectCycleEnd` | index.js:76-88 | a connect chain from counter `r` is established iff a success comes after at most `10 - r` failures; it gives up iff more failures come first, and throws the first failure past that budget |
| `HostPolicy.ConnectCycleState` | index.js:61-88 | after a chain the counter is 0 when it is established, `r + budget + 1` when it gives up, and `r` plus the failures while it waits; it reconnects once per retried failure, the i-th time after `error_timeout * (r + i + 2)` |
| `HostPolicy.ConnectDelaysIncrease` | index.js:67 | the waits of one connect chain grow strictly |
| `HostPolicy.FreshHostConnects` | index.js:27-32 | from a new host, ten failures then a success connect with the counter back at 0; eleven failures throw the last error with the counter at 11; both make ten reconnects waiting 2..11 units |
| `HostPolicy.LeadingFatal` | index.js:51 | counts exactly the consecutive fatal replies at the head of a reply sequence |
| `HostPolicy.QueryCycleOutcome` | index.js:48-68 | a query is answered with its first non-fatal reply, which reaches the callback iff the callback is a function, after one retry per fatal reply (no cap), each waiting `error_timeout * (error_retries + 1)`; a falsy query is dropped after its first fatal reply |
| `HostPolicy.FatalQueryRetriesUncapped` | index.js:50-53 | for every n, n fatal replies followed by a non-fatal one still reach the callback, after n retries |
| `HostPolicy.AsyncErrorAction` | index.js:90-99 | the handler reconnects iff the code is `PROTOCOL_CONNECTION_LOST` or the error is fatal; otherwise it rethrows the same error |
| `Hosts.Host.constructor` | index.js:27-32 | a new host has counter 0, backoff unit 10000, the given configuration and one live connection |
| `Hosts.Host.Connect` | index.js:73-75 | creates one new driver connection |
| `Hosts.Host.Destroy` | index.js:64 | destroys the current driver connection |
| `Hosts.Host.Retry` | index.js:61-68 | waits `error_timeout * (error_retries + 1)`, destroys and creates one connection, and re-issues the query iff one was passed and it is truthy; the counter is not touched |
| `Hosts.Host.OnConnectResult` | index.js:76-88 | success resets the counter to 0; failure post-increments it, then retries (one reconnect) iff the old value was below 10 and throws otherwise |
| `Hosts.Host.OnQueryReply` | index.js:48-59 | a fatal reply retries, re-issuing the query; any other reply goes to the callback when it is a function; the counter never changes |
| `Hosts.Host.OnAsyncError` | index.js:90-99 | `PROTOCOL_CONNECTION_LOST` or a fatal error destroys and reconnects without resetting the counter; any other error is rethrown with nothing changed |
| `Hosts.Host.ConnectUntilSettled` | index.js:73-88 | running the connect callbacks yields exactly `ConnectCycle` of the old counter; one connection is created and one destroyed per wait, so exactly one stays live |
| `Hosts.Host.QueryUntilSettled` | index.js:48-68 | running the query callbacks yields exactly `QueryCycle`, leaves the counter unchanged and creates and destroys one connection per retry |

## Left out

- The `mysql` driver is not modelled: `createConnection`, `connect`, `query`,
  `destroy` and the `'error'` event. A connection is represented by counts of
  the connections created and destroyed, and the driver's callbacks become
  event sequences.
- `setTimeout` is left out: a wait is a computed value, and the retry then
  runs as a sequential step.
- Interleaving of callbacks is left out. In a query retry, `connect` starts
  a connect chain whose callbacks (`Host.ConnectUntilSettled`) run apart
  from the query's replies. An `'error'` event from a connection that was
  already replaced is not modelled either.
- `HostPolicy.QueryCycle` and `HostPolicy.QueryCycleOutcome` hold
  `error_retries` fixed for a whole query chain, so every wait in it is the
  same. In the program, each query retry calls `connect` (index.js:65).
  That connect's callback resets the counter on success (index.js:87) or
  increments it on failure (index.js:78). This can happen before the next
  query retry computes its wait (index.js:67), so later waits of one query
  can differ.
- A thrown error (after the connect cap, or from the `'error'` handler)
  ends the model's chain as `GaveUp` or `Rethrow`. What happens to the
  process after an uncaught throw is not modelled.
- The global `R5.out` logger and every log message are not modelled
  (index.js:6-10, 55, 79, 83, 86, 91).
- Query arguments other than a string, an object or `null` are not modelled.
  A number or `undefined` would go to `IN` and then be rejected by the driver.
- A read configuration that is not an object is not modelled. test.js passes
  `true`, for instance. A `Config` whose `host` is absent stands for any
  configuration without a `host`.
- `Classifier.UpperChar` models JavaScript's `toUpperCase` only for `a`-`z`
  and the long s. Every other character is left as it is. This cannot change
  a classification. No other character upper-cases to a single letter of
  SELECT. No mapping to several characters yields two consecutive letters
  of SELECT (SE, EL, LE, EC or CT): `ß` gives `SS` and `ﬆ` gives `ST`. JavaScript counts UTF-16 code units where the model counts
  characters. A prefix that contains a surrogate pair can never equal
  SELECT, so this does not change a classification either.
- The `fatal` flag is taken to be a boolean. The truthiness test in the query
  callback and the `=== true` test in the error handler agree on booleans
  only.
- The tests in `test.js` and `test/index.test.js` need a live server. They
  are used only for the classifier examples.

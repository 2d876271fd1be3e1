# mongo-rs-status: the connection slot, the HTTP status decision and the flag checks

The program reports the replication status of a MongoDB replica set. It can also form the set for
the first time (`replSetInitiate`). It runs either as a one-shot command or as an HTTP service.
In service mode a single `handler` object keeps one lazily created `*mongo.Client` in its `Client`
field. `acquireClient` fills that slot with one connect and reuses it afterwards. `releaseClient(c)`
empties the slot only when it still holds `c`, and always disconnects `c`. `GET` runs the
`replSetGetStatus` command and releases the client when the command fails. `ServeHTTP` turns
errors into status codes through `writeError`. `main` checks the flags, falls back from the `-uri`
flag to `MONGODB_URI` to a fixed default URI, and sets the server timeouts to three times the
per-call timeout.

The Dafny project has six modules:

- `Wrappers` (wrappers.dfy): `Option` for a nil-able pointer and `Result` for a Go `(value, error)` pair.
- `Driver` (driver.dfy): connection handles, the handler's settings, and `Call`, one driver call
  (connect, disconnect, run command) with its arguments. It also counts over a log of calls:
  connect attempts, connections established, handles disconnected.
- `Guard` (guard.dfy): `acquireClient` and `releaseClient` as pure steps on the slot. Each step
  returns the slot it leaves, its result and the driver calls it made. `Run` performs a sequence
  of steps, and lemmas over it state "no reconnect" and "every release disconnects".
- `Http` (http.dfy): `writeError`, `GET` and `ServeHTTP` as pure functions over the slot, and
  `Decide`, a flat table of each request's status code and whether it releases the client.
  `ServeAll` serves a sequence of requests, with a lemma that connections established and
  dropped balance.
- `Service` (service.dfy): the `handler` as a class. Its `client` field is updated in place by
  `AcquireClient`, `ReleaseClient`, `Get` and `ServeHTTP`, and a ghost log records every driver
  call. Each method's result and new state equal those of the matching `Guard`/`Http` step.
  The class invariant states that the slot never holds a client that has been disconnected.
- `Config` (config.dfy): the flag defaults, the URI fallback and `Validate`, the checks of `main`.

Foreign calls are inputs to the model. The outcome of `connect` (a fresh handle or an error
message), of the status query and of the JSON encoder is a parameter. It is used only when the
source would make that call. For the class, a connected handle is required to be fresh: different
from every handle returned before, as a new `*mongo.Client` is. The mutex is not modelled; each
method is one atomic step, taken one after another.

Behaviours of the code that the model follows, though a reader might not expect them:

- there is no "invalidate" argument to `releaseClient`;
- the disconnect happens synchronously and unconditionally, even when the slot held another
  client;
- a method other than GET still acquires a client (and connects, if the slot is empty) before it
  is answered with 405;
- a request that fails to acquire a client releases nothing;
- a failed encoding after a successful status query answers 500 but keeps the client;
- the port is checked even when the server is not started.

## Model

| member | source | states |
|---|---|---|
| `Guard.AcquireClient` | main.go:118-130 | a held client is returned with no driver call and the slot unchanged; an empty slot costs exactly one connect, made with the handler's URI and timeout, and the result is what connect returned; a failed connect leaves the slot empty; a returned client is exactly the one the slot now holds |
| `Guard.ReleaseClient` | main.go:132-142 | the slot is emptied when it holds `c` and is unchanged otherwise (empty, or holding a different client); `c` is disconnected with the handler's timeout in every case |
| `Guard.HeldHandleIsReused` | main.go:119-130 | while no call releases the held client `h` (stale releases of other clients are allowed), the slot keeps `h`, no connect is attempted, and every acquire returns `h` |
| `Guard.AcquiresShareOneConnection` | main.go:119-130 | any sequence of acquires establishes at most one connection (none when the slot starts full), and every acquire that succeeds returns the same client |
| `Guard.EveryReleaseDisconnects` | main.go:133-141 | over any sequence of acquires and releases, the clients disconnected are exactly the clients released, in the same order |
| `Guard.ReleaseForcesReconnect` | main.go:122-141 | after the held client is released, the next acquire attempts exactly one connect and returns its outcome, whatever releases came in between |
| `Guard.StaleReleasesKeepEmpty` | main.go:133-140 | releases into an empty slot leave it empty, so a following acquire connects once |
| `Http.WriteError` | main.go:144-152 | nothing is written for a nil error; otherwise the error's message is written with the code the error carries if it is an `HttpError`, and with the supplied default if not |
| `Http.Get` | main.go:189-198 | the driver calls are exactly one `replSetGetStatus` command on the admin database with the handler's timeout, followed, when the query failed, by exactly the calls of `releaseClient` (one disconnect of the client with the handler's timeout); a failed query leaves the slot `releaseClient` leaves and returns the prefixed error; otherwise the encoder's outcome is returned and the slot is untouched |
| `Http.Decide` | main.go:164-182 | 200 iff a client was acquired, the method is GET and the query and the encoding succeeded; 405 iff a client was acquired and the method is not GET; 500 otherwise; the client is released iff it was acquired, the method is GET and the query failed |
| `Http.ServeHTTP` | main.go:154-187 | the status code and the release agree with `Decide`; the driver calls are exactly the acquire's calls (so a request with any method connects into an empty slot), followed only for a GET with a client by exactly the calls of `GET`; the failure messages and the success body are those of the connect error, the unsupported-method error, the prefixed query error and the encoded reply; connections established plus the slot's fill before equal disconnects plus its fill after |
| `Http.ConnectionBalance` | main.go:164-197 | over any sequence of requests, connections established plus the initial fill of the slot equal clients disconnected plus its final fill, so the handler establishes at most one connection more than it drops |
| `Http.FailedQueryForcesReconnect` | main.go:190-197 | after a GET whose query failed, the next request attempts one connect; after a GET whose query succeeded, the client stays in the slot and the next request makes no connect |
| `Service.Handler.constructor` | main.go:238-244 | a new handler holds no client, has made no driver call, and keeps the given timeout, admin database and URI |
| `Service.Handler.AcquireClient` | main.go:118-130 | the result, the new slot and the calls appended to the log are those of `Guard.AcquireClient`; a held client is reused with no call; a newly connected client is one never handed out before; the slot never holds a client that has been disconnected |
| `Service.Handler.ReleaseClient` | main.go:132-142 | for a client the driver handed out, the new slot and the appended disconnect are those of `Guard.ReleaseClient`: the slot is cleared iff it held `c`, and `c` is always disconnected; the slot still never holds a disconnected client |
| `Service.Handler.Get` | main.go:189-198 | for a client the driver handed out, the result, the new slot and the appended calls are those of `Http.Get`, and the set of handed-out clients is unchanged |
| `Service.Handler.ServeHTTP` | main.go:154-187 | the response, the new slot and the appended calls are those of `Http.ServeHTTP`, and the status code is the one `Decide` gives; the set of handed-out clients grows by the connected client only when the slot was empty and connect succeeded, so any later request can be served |
| `Config.ResolveUri` | main.go:225-230 | the URI is the flag if that is non-empty, else the `MONGODB_URI` value if that is non-empty, else the default URI; it is never empty |
| `Config.Validate` | main.go:219-247 | success iff 1 <= timeout <= 1800, the admin database name is non-empty and 1025 <= port <= 65535; a failure gives the message of the first failed check, in the order timeout, admin database, port; the per-call timeout is the flag times one second, the server read, write and idle timeouts are three times it, and none overflows `int64` |
| `Config.DefaultsAreValid` | main.go:211-216 | the default flags with no environment value pass every check, giving a 10-second timeout, the `admin` database, the default URI, port 20000 and 30-second server timeouts |

## Left out

- The driver calls `mongo.Connect`, `Disconnect` and `RunCommand`, and the `replSetGetStatus`
  and `replSetInitiate` commands, are foreign calls. Their outcomes are parameters, and the calls
  are recorded in a log. The error returned by `Disconnect` is ignored by the source and is not
  modelled.
- Driver and encoder errors are modelled as plain messages. The driver's error types do not
  implement `Code() int`, and the `fmt.Errorf` wrapping in `GET` hides any such method anyway.
  So `writeError` uses its default code for them.
- BSON and Extended-JSON parsing and marshalling (`singleResultJson`, `rsInitiate`'s unmarshal)
  are library code. The encoder's outcome is a parameter, and command replies are opaque.
- `sync.Mutex` and concurrent requests are not modelled. Each handler method is one atomic step,
  and steps run one after another. A client released by one request while another request still
  uses it cannot arise in this model.
- `releaseClient` with a nil client, or with a client the driver never handed out, is not
  modelled. Its only caller passes the client it just acquired.
- `net/http` server setup, writing headers and bodies, the log line for a failed body write, the
  `text/plain` framing `http.Error` adds, and draining and closing the request body are I/O
  plumbing. A response is modelled as its status code with its message or JSON body.
- Flag parsing itself (`flag.Parse`) and reading the environment are not modelled. The parsed
  values and the `MONGODB_URI` value are inputs to `Config.Validate`.
- The one-shot path of `main` is I/O glue and is not modelled: connecting, querying or initiating,
  reading the initiation document from a file or stdin, printing, and `log.Fatal` exits. The
  `-initiate` and `-serve` values are only carried through `Config.Validate`.
- Context timeouts (`context.WithTimeout`) are runtime and driver machinery. Only the timeout
  value passed to each driver call is recorded.

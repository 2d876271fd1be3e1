/**
 * The command line of the program: the flags with their defaults, and the checks and
 * fallbacks `main` applies before it serves or runs a one-shot command.
 */
module Config {
  import opened Wrappers
  import opened Driver

  const DEFAULT_PORT: int := 20000
  const TIMEOUT_SECONDS: int := 10
  const ADMIN_DB_NAME: string := "admin"
  const DEFAULT_URI: string := "mongodb://localhost:27017"

  /** Largest value of Go's `int64`, the representation of `time.Duration`. */
  const MAX_INT64: int := 0x7fff_ffff_ffff_ffff

  const TIMEOUT_MESSAGE: string := "allowed timeout values are between 1 and 1800 seconds"
  const ADMIN_DB_MESSAGE: string := "admindb name must not be empty"
  const PORT_MESSAGE: string := "allowed port values are between 1025 and 65535"

  /** The flag values after parsing: timeout in seconds, admindb, uri, initiate, serve and port. */
  datatype Flags = Flags(timeout: int, adminDb: string, uri: string, initiate: string, serve: bool, port: int)

  /** The flag values when none is given on the command line. */
  function DefaultFlags(): Flags
  {
    Flags(TIMEOUT_SECONDS, ADMIN_DB_NAME, "", "", false, DEFAULT_PORT)
  }

  /** A validated configuration, the server's read, write and idle timeouts included. */
  datatype Options = Options(
    timeout: Duration, adminDb: string, uri: string, initiate: string, serve: bool, port: int,
    readTimeout: Duration, writeTimeout: Duration, idleTimeout: Duration)

  /** The URI to use: the flag, else the `MONGODB_URI` environment value `env`, else the default. */
  function ResolveUri(flag: string, env: string): (uri: string)
    ensures uri != ""
    ensures flag != "" ==> uri == flag
    ensures flag == "" && env != "" ==> uri == env
    ensures flag == "" && env == "" ==> uri == DEFAULT_URI
    ensures uri in {flag, env, DEFAULT_URI}
  {
    var first := if flag == "" then env else flag;
    if first == "" then DEFAULT_URI else first
  }

  /**
   * The checks of `main`, in its order: the timeout, the admin database name, then (after the
   * URI fallback) the port, which is checked whether or not the server is started. The first
   * failed check gives the fatal message.
   */
  function Validate(f: Flags, env: string): (r: Result<Options>)
    ensures r.Ok? <==> 1 <= f.timeout <= 1800 && f.adminDb != "" && 1025 <= f.port <= 65535
    ensures !(1 <= f.timeout <= 1800) ==> r == Err(TIMEOUT_MESSAGE)
    ensures 1 <= f.timeout <= 1800 && f.adminDb == "" ==> r == Err(ADMIN_DB_MESSAGE)
    ensures 1 <= f.timeout <= 1800 && f.adminDb != "" && !(1025 <= f.port <= 65535) ==> r == Err(PORT_MESSAGE)
    ensures r.Ok? ==>
      && r.value.timeout == f.timeout * SECOND
      && r.value.adminDb == f.adminDb && r.value.adminDb != ""
      && r.value.uri == ResolveUri(f.uri, env)
      && r.value.initiate == f.initiate && r.value.serve == f.serve && r.value.port == f.port
    // the server's timeouts are three per-call timeouts, and none of the durations overflows int64
    ensures r.Ok? ==>
      && r.value.readTimeout == r.value.writeTimeout == r.value.idleTimeout == 3 * r.value.timeout
      && SECOND <= r.value.timeout <= 1800 * SECOND
      && r.value.idleTimeout <= MAX_INT64
  {
    if f.timeout < 1 || f.timeout > 1800 then Err(TIMEOUT_MESSAGE)
    else if f.adminDb == "" then Err(ADMIN_DB_MESSAGE)
    else
      var uri := ResolveUri(f.uri, env);
      if f.port <= 1024 || f.port >= 65536 then Err(PORT_MESSAGE)
      else
        var timeout := f.timeout * SECOND;
        Ok(Options(timeout, f.adminDb, uri, f.initiate, f.serve, f.port,
                   3 * timeout, 3 * timeout, 3 * timeout))
  }

  /** With no flags and no environment value, the defaults pass every check. */
  lemma DefaultsAreValid()
    ensures Validate(DefaultFlags(), "") ==
      Ok(Options(10 * SECOND, ADMIN_DB_NAME, DEFAULT_URI, "", false, DEFAULT_PORT,
                 30 * SECOND, 30 * SECOND, 30 * SECOND))
  {
  }
}

/**
 * The HTTP request handler as the object the source has: one connection slot that
 * `AcquireClient` fills and `ReleaseClient` clears in place, plus its fixed configuration.
 * Each method's new state and result are those of the matching step in `Guard` or `Http`,
 * whose properties are proved there. Driver calls are appended to a ghost log.
 */
module Service {
  import opened Wrappers
  import opened Driver
  import Guard
  import Http

  class Handler {
    /** The shared client: `None` until the first acquire, and again after a release. */
    var client: Option<Handle>
    const timeout: Duration
    const adminDb: string
    const uri: string

    /** Every driver call made so far, in order. */
    ghost var calls: seq<Call>
    /** Every handle the driver's connect has returned so far. */
    ghost var issued: set<Handle>

    /** The configuration every driver call is made with. */
    function Settings(): Driver.Settings
    {
      Driver.Settings(timeout, adminDb, uri)
    }

    /**
     * The slot never holds a disconnected client: the stored client is one the driver
     * handed out and has not been disconnected since, and only handed-out clients are
     * ever disconnected.
     */
    ghost predicate Valid()
      reads this
    {
      && (client.Some? ==> client.value in issued && client.value !in Disconnected(calls))
      && (forall h :: h in Disconnected(calls) ==> h in issued)
    }

    /** The driver's connect, when it succeeds, returns a client it never returned before. */
    ghost predicate Fresh(connect: Result<Handle>)
      reads this
    {
      connect.Ok? ==> connect.value !in issued
    }

    constructor (timeout: Duration, adminDb: string, uri: string)
      ensures Valid() && client == None && calls == [] && issued == {}
      ensures this.timeout == timeout && this.adminDb == adminDb && this.uri == uri
    {
      this.timeout := timeout;
      this.adminDb := adminDb;
      this.uri := uri;
      client := None;
      calls := [];
      issued := {};
    }

    /** `acquireClient`: `connect` is what the driver's connect returns if it is called. */
    method AcquireClient(connect: Result<Handle>) returns (r: Result<Handle>)
      requires Valid() && Fresh(connect)
      modifies this
      ensures Valid()
      ensures var a := Guard.AcquireClient(Settings(), old(client), connect);
        r == a.result && client == a.slot && calls == old(calls) + a.calls
      ensures old(client).Some? ==> r == Ok(old(client).value) && client == old(client) && calls == old(calls)
      ensures issued == if old(client).None? && connect.Ok? then old(issued) + {connect.value} else old(issued)
      ensures old(client).None? && r.Ok? ==> r.value !in old(issued)
      ensures r.Ok? ==> r.value in issued
    {
      if client == None {
        ghost var before := calls;
        calls := calls + [Connect(uri, timeout, connect)];
        CountsDistribute(before, [Connect(uri, timeout, connect)]);
        match connect
        case Err(_) =>
          r := connect;
          return;
        case Ok(c) =>
          client := Some(c);
          issued := issued + {c};
      }
      r := Ok(client.value);
    }

    /** `releaseClient(c)`: clear the slot if it holds `c`, then disconnect `c` regardless. */
    method ReleaseClient(c: Handle)
      requires Valid() && c in issued
      modifies this
      ensures Valid() && issued == old(issued)
      ensures var rel := Guard.ReleaseClient(Settings(), old(client), c);
        client == rel.slot && calls == old(calls) + rel.calls
      ensures old(client) == Some(c) ==> client == None
      ensures old(client) != Some(c) ==> client == old(client)
      ensures calls == old(calls) + [Disconnect(c, timeout)]
    {
      if client == None || client != Some(c) {
      } else {
        client := None;
      }
      ghost var before := calls;
      calls := calls + [Disconnect(c, timeout)];
      CountsDistribute(before, [Disconnect(c, timeout)]);
    }

    /** `GET(c)`: `status` and `encoded` are what the status query and the encoder return. */
    method Get(c: Handle, status: Result<Reply>, encoded: Result<string>) returns (r: Result<string>)
      requires Valid() && c in issued
      modifies this
      ensures Valid() && issued == old(issued)
      ensures var g := Http.Get(Settings(), old(client), c, status, encoded);
        r == g.result && client == g.slot && calls == old(calls) + g.calls
    {
      ghost var before := calls;
      calls := calls + [RunCommand(c, adminDb, REPL_SET_GET_STATUS, timeout)];
      CountsDistribute(before, [RunCommand(c, adminDb, REPL_SET_GET_STATUS, timeout)]);
      match status
      case Err(m) =>
        ReleaseClient(c);
        r := Err(Http.GET_STATUS_PREFIX + m);
      case Ok(_) =>
        r := encoded;
    }

    /** `ServeHTTP`: one request, with what connect, the status query and the encoder return if called. */
    method ServeHTTP(verb: string, connect: Result<Handle>, status: Result<Reply>, encoded: Result<string>)
      returns (response: Http.Response)
      requires Valid() && Fresh(connect)
      modifies this
      ensures Valid()
      ensures var r := Http.ServeHTTP(Settings(), old(client), Http.Request(verb, connect, status, encoded));
        response == r.response && client == r.slot && calls == old(calls) + r.calls
      ensures response.Status() == Http.Decide(
        Guard.AcquireClient(Settings(), old(client), connect).result.Ok?, verb, status.Ok?, encoded.Ok?).code
      ensures issued == if old(client).None? && connect.Ok? then old(issued) + {connect.value} else old(issued)
    {
      var acquired := AcquireClient(connect);
      var err: Option<Http.Error>;
      var result: string;
      match acquired
      case Err(m) =>
        response := Http.WriteError(Some(Http.Plain(m)), Http.STATUS_INTERNAL_SERVER_ERROR).value;
        return;
      case Ok(c) =>
        if verb == Http.METHOD_GET {
          var got := Get(c, status, encoded);
          match got
          case Err(m) =>
            err := Some(Http.Plain(m));
          case Ok(body) =>
            err, result := None, body;
        } else {
          err := Some(Http.UnsupportedMethod(verb));
        }
        if err.Some? {
          response := Http.WriteError(err, Http.STATUS_INTERNAL_SERVER_ERROR).value;
          return;
        }
        response := Http.Json(result);
    }
  }

  /**
   * Three requests in a row, as a caller of the class's contracts sees them: a failed status
   * query gives 500 and empties the slot, the next GET connects to a new client and gives
   * 200, and a POST reuses that client and gives 405.
   */
  method SessionExample()
  {
    var h := new Handler(SECOND, "admin", "mongodb://localhost:27017");
    var first := h.ServeHTTP("GET", Ok(Handle(1)), Err("boom"), Err("unused"));
    assert first.Status() == 500 && h.client == None;
    var second := h.ServeHTTP("GET", Ok(Handle(2)), Ok(Reply("{}")), Ok("{}"));
    assert second.Status() == 200 && h.client == Some(Handle(2));
    var third := h.ServeHTTP("POST", Ok(Handle(3)), Ok(Reply("{}")), Ok("{}"));
    assert third.Status() == 405 && h.client == Some(Handle(2));
  }
}

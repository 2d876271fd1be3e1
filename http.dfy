/**
 * The HTTP side of the handler: `writeError`, `GET` and `ServeHTTP` as pure functions over
 * the connection slot, a flat table of the status code each request ends with, and what a
 * whole session of requests does to the connection.
 */
module Http {
  import opened Wrappers
  import opened Driver
  import Guard

  const STATUS_OK: int := 200
  const STATUS_METHOD_NOT_ALLOWED: int := 405
  const STATUS_INTERNAL_SERVER_ERROR: int := 500
  const METHOD_GET: string := "GET"

  /** Prefix `GET` puts before a failed status query's message. */
  const GET_STATUS_PREFIX: string := "GET::getRsStatus: "

  /**
   * A Go `error` as `writeError` sees it: a plain error, or an `httpError`, the one kind
   * that implements `HttpError` and so carries its own status code.
   */
  datatype Error = Plain(message: string) | WithStatus(message: string, code: int)

  /** What the handler answers: an error written with `http.Error`, or the JSON document with 200. */
  datatype Response = Failure(code: int, message: string) | Json(body: string)
  {
    function Status(): int
    {
      if Failure? then code else STATUS_OK
    }
  }

  /** The error `ServeHTTP` builds for any method other than GET. */
  function UnsupportedMethod(verb: string): Error
  {
    WithStatus("unsupported method " + verb, STATUS_METHOD_NOT_ALLOWED)
  }

  /**
   * `writeError(err, code)`: nothing is written for a nil error; otherwise the error's message
   * goes out with the code the error carries, if it carries one, and with `code` if not.
   */
  function WriteError(err: Option<Error>, code: int): (r: Option<Response>)
    ensures r.Some? <==> err.Some?
    ensures err.Some? ==> r.value.Failure? && r.value.message == err.value.message
    ensures err.Some? && err.value.WithStatus? ==> r.value.code == err.value.code
    ensures err.Some? && err.value.Plain? ==> r.value.code == code
  {
    var status := if err.Some? && err.value.WithStatus? then err.value.code else code;
    if err.Some? then Some(Failure(status, err.value.message)) else None
  }

  /** What `GET` returns, the slot it leaves and the driver calls it made. */
  datatype Got = Got(result: Result<string>, slot: Option<Handle>, calls: seq<Call>)

  /**
   * `GET(client)`: one status query on the admin database; a failed query releases the
   * client (which may be broken) and is reported with a prefix; otherwise the encoded reply
   * is the result, and an encoding failure releases nothing.
   * `status` and `encoded` are what the query and the encoder return.
   */
  function Get(s: Settings, slot: Option<Handle>, c: Handle, status: Result<Reply>, encoded: Result<string>): (g: Got)
    ensures g.calls == [RunCommand(c, s.adminDb, REPL_SET_GET_STATUS, s.timeout)] +
      (if status.Err? then Guard.ReleaseClient(s, slot, c).calls else [])
    ensures Attempts(g.calls) == 0 && Established(g.calls) == 0
    ensures status.Err? ==> g.result == Err(GET_STATUS_PREFIX + status.message)
    ensures status.Err? ==> g.slot == Guard.ReleaseClient(s, slot, c).slot && Disconnected(g.calls) == [c]
    ensures status.Ok? ==> g.result == encoded && g.slot == slot && Disconnected(g.calls) == []
  {
    var query := RunCommand(c, s.adminDb, REPL_SET_GET_STATUS, s.timeout);
    match status
    case Err(m) =>
      var r := Guard.ReleaseClient(s, slot, c);
      CountsDistribute([query], r.calls);
      Got(Err(GET_STATUS_PREFIX + m), r.slot, [query] + r.calls)
    case Ok(_) =>
      Got(encoded, slot, [query])
  }

  /** The outcome of one request: its status code and whether it released (and disconnected) the client. */
  datatype Decision = Decision(code: int, released: bool)

  /**
   * The reference table: acquire failure is 500; with a client, a method other than GET is
   * 405, a failed status query is 500 and releases the client, a failed encoding is 500,
   * and otherwise the answer is 200.
   */
  function Decide(acquired: bool, verb: string, statusOk: bool, encodedOk: bool): (d: Decision)
    ensures d.code == STATUS_OK <==> acquired && verb == METHOD_GET && statusOk && encodedOk
    ensures d.code == STATUS_METHOD_NOT_ALLOWED <==> acquired && verb != METHOD_GET
    ensures d.code == STATUS_INTERNAL_SERVER_ERROR <==> !acquired || (verb == METHOD_GET && !(statusOk && encodedOk))
    ensures d.released <==> acquired && verb == METHOD_GET && !statusOk
  {
    if !acquired then Decision(STATUS_INTERNAL_SERVER_ERROR, false)
    else if verb != METHOD_GET then Decision(STATUS_METHOD_NOT_ALLOWED, false)
    else if !statusOk then Decision(STATUS_INTERNAL_SERVER_ERROR, true)
    else if !encodedOk then Decision(STATUS_INTERNAL_SERVER_ERROR, false)
    else Decision(STATUS_OK, false)
  }

  /** One request: its HTTP method, and what connect, the status query and the encoder return if called. */
  datatype Request = Request(verb: string, connect: Result<Handle>, status: Result<Reply>, encoded: Result<string>)

  /** The response, the slot left behind and the driver calls made. */
  datatype Served = Served(response: Response, slot: Option<Handle>, calls: seq<Call>)

  /** 1 when the slot holds a handle, 0 when it is empty. */
  function Held(slot: Option<Handle>): nat
  {
    if slot.Some? then 1 else 0
  }

  /**
   * `ServeHTTP`: acquire a client first, whatever the method; then GET, or the 405 error for
   * any other method; errors go through `writeError` with 500 as the default code.
   */
  function ServeHTTP(s: Settings, slot: Option<Handle>, req: Request): (r: Served)
    // the status code and the release are those of the reference table
    ensures var a := Guard.AcquireClient(s, slot, req.connect);
      var d := Decide(a.result.Ok?, req.verb, req.status.Ok?, req.encoded.Ok?);
      && r.response.Status() == d.code
      && (d.released ==> r.slot == None && Disconnected(r.calls) == [a.result.value])
      && (!d.released ==> r.slot == a.slot && Disconnected(r.calls) == [])
    // every request, GET or not, acquires a client before anything else; only a GET with a
    // client makes further driver calls, and those are the calls of `Get`
    ensures var a := Guard.AcquireClient(s, slot, req.connect);
      r.calls == a.calls + (if a.result.Ok? && req.verb == METHOD_GET
                            then Get(s, a.slot, a.result.value, req.status, req.encoded).calls else [])
    // what the failure messages and the success body are
    ensures var a := Guard.AcquireClient(s, slot, req.connect);
      && (a.result.Err? ==> r.response == Failure(STATUS_INTERNAL_SERVER_ERROR, a.result.message))
      && (a.result.Ok? && req.verb != METHOD_GET ==>
            r.response == Failure(STATUS_METHOD_NOT_ALLOWED, "unsupported method " + req.verb))
      && (a.result.Ok? && req.verb == METHOD_GET && req.status.Err? ==>
            r.response == Failure(STATUS_INTERNAL_SERVER_ERROR, GET_STATUS_PREFIX + req.status.message))
      && (r.response.Json? <==> a.result.Ok? && req.verb == METHOD_GET && req.status.Ok? && req.encoded.Ok?)
      && (r.response.Json? ==> r.response.body == req.encoded.value)
    // a connection is established only into an empty slot and dropped only from a full one
    ensures Established(r.calls) + Held(slot) == |Disconnected(r.calls)| + Held(r.slot)
  {
    var a := Guard.AcquireClient(s, slot, req.connect);
    match a.result
    case Err(m) =>
      Served(WriteError(Some(Plain(m)), STATUS_INTERNAL_SERVER_ERROR).value, a.slot, a.calls)
    case Ok(c) =>
      if req.verb == METHOD_GET then
        var g := Get(s, a.slot, c, req.status, req.encoded);
        CountsDistribute(a.calls, g.calls);
        match g.result
        case Err(m) =>
          Served(WriteError(Some(Plain(m)), STATUS_INTERNAL_SERVER_ERROR).value, g.slot, a.calls + g.calls)
        case Ok(body) =>
          Served(Json(body), g.slot, a.calls + g.calls)
      else
        Served(WriteError(Some(UnsupportedMethod(req.verb)), STATUS_INTERNAL_SERVER_ERROR).value, a.slot, a.calls)
  }

  /** The end of a session: the final slot, every driver call made and every response, in order. */
  datatype Session = Session(slot: Option<Handle>, calls: seq<Call>, responses: seq<Response>)

  /** Serves the requests one after another from `slot`. */
  function ServeAll(s: Settings, slot: Option<Handle>, reqs: seq<Request>): Session
    decreases |reqs|
  {
    if reqs == [] then Session(slot, [], [])
    else
      var r := ServeHTTP(s, slot, reqs[0]);
      var t := ServeAll(s, r.slot, reqs[1..]);
      Session(t.slot, r.calls + t.calls, [r.response] + t.responses)
  }

  /**
   * Over any session, connections established and connections dropped balance: the
   * handler reconnects only after a failed status query made it release its client, so it
   * establishes at most one connection more than it disconnects.
   */
  lemma {:induction false} ConnectionBalance(s: Settings, slot: Option<Handle>, reqs: seq<Request>)
    ensures var t := ServeAll(s, slot, reqs);
      Established(t.calls) + Held(slot) == |Disconnected(t.calls)| + Held(t.slot)
    ensures Established(ServeAll(s, slot, reqs).calls) <= |Disconnected(ServeAll(s, slot, reqs).calls)| + 1
    decreases |reqs|
  {
    if reqs != [] {
      var r := ServeHTTP(s, slot, reqs[0]);
      ConnectionBalance(s, r.slot, reqs[1..]);
      CountsDistribute(r.calls, ServeAll(s, r.slot, reqs[1..]).calls);
    }
  }

  /**
   * A failed status query releases the client, so the next request connects again; a
   * successful GET keeps the client, so the next request reuses it without connecting.
   */
  lemma FailedQueryForcesReconnect(s: Settings, slot: Option<Handle>, first: Request, next: Request)
    requires first.verb == METHOD_GET
    ensures var r := ServeHTTP(s, slot, first);
      var a := Guard.AcquireClient(s, slot, first.connect);
      && (a.result.Ok? && first.status.Err? ==> Attempts(ServeHTTP(s, r.slot, next).calls) == 1)
      && (a.result.Ok? && first.status.Ok? ==>
            Attempts(ServeHTTP(s, r.slot, next).calls) == 0 && r.slot == Some(a.result.value))
  {
    var r := ServeHTTP(s, slot, first);
    var n := ServeHTTP(s, r.slot, next);
    var a := Guard.AcquireClient(s, r.slot, next.connect);
    var rest := if a.result.Ok? && next.verb == METHOD_GET
                then Get(s, a.slot, a.result.value, next.status, next.encoded).calls else [];
    assert Attempts(rest) == 0;
    CountsDistribute(a.calls, rest);
    CountsDistribute(a.calls, []);
  }
}

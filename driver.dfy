/**
 * The collaborator boundary: the document-store driver calls that the handler makes.
 * Nothing here talks to a database; every call is recorded in a log of `Call`s, and the
 * outcome of a call is an input supplied by whoever drives the model.
 */
module Driver {
  import opened Wrappers

  /** A `time.Duration`, in nanoseconds. */
  type Duration = nat

  /** `time.Second`. */
  const SECOND: Duration := 1_000_000_000

  /** An opaque connection handle (a `*mongo.Client`); two handles are the same client iff equal. */
  datatype Handle = Handle(id: nat)

  /** An administrative reply document (a `*mongo.SingleResult`), kept opaque. */
  datatype Reply = Reply(document: string)

  /** The handler's configuration: the per-call timeout, the admin database and the URI. */
  datatype Settings = Settings(timeout: Duration, adminDb: string, uri: string)

  /** One call into the driver, with the arguments it was given and, for connect, what it returned. */
  datatype Call =
    | Connect(uri: string, timeout: Duration, outcome: Result<Handle>)
    | Disconnect(client: Handle, timeout: Duration)
    | RunCommand(client: Handle, db: string, command: string, timeout: Duration)

  /** The command that asks for the replica set's status. */
  const REPL_SET_GET_STATUS: string := "replSetGetStatus"

  /** Number of connect attempts in a log. */
  function Attempts(calls: seq<Call>): nat
  {
    if calls == [] then 0 else (if calls[0].Connect? then 1 else 0) + Attempts(calls[1..])
  }

  /** Number of connections established (connect attempts that returned a handle). */
  function Established(calls: seq<Call>): nat
  {
    if calls == [] then 0
    else (if calls[0].Connect? && calls[0].outcome.Ok? then 1 else 0) + Established(calls[1..])
  }

  /** The handles disconnected, in the order the disconnects were issued. */
  function Disconnected(calls: seq<Call>): seq<Handle>
  {
    if calls == [] then []
    else (if calls[0].Disconnect? then [calls[0].client] else []) + Disconnected(calls[1..])
  }

  /** The three counts over a log split over concatenation. */
  lemma {:induction false} CountsDistribute(a: seq<Call>, b: seq<Call>)
    ensures Attempts(a + b) == Attempts(a) + Attempts(b)
    ensures Established(a + b) == Established(a) + Established(b)
    ensures Disconnected(a + b) == Disconnected(a) + Disconnected(b)
    decreases |a|
  {
    if a == [] {
      assert a + b == b;
    } else {
      assert (a + b)[1..] == a[1..] + b;
      CountsDistribute(a[1..], b);
    }
  }

  /** Every established connection was a connect attempt. */
  lemma {:induction false} EstablishedAtMostAttempts(calls: seq<Call>)
    ensures Established(calls) <= Attempts(calls)
    decreases |calls|
  {
    if calls != [] {
      EstablishedAtMostAttempts(calls[1..]);
    }
  }
}

/**
 * The connection slot of the HTTP handler as a pure state machine: the slot is empty
 * (`None`, Go's nil `Client`) or holds one handle. Each step returns the new slot and
 * the driver calls it made, so that properties of whole sequences of steps can be stated.
 * The mutex of the source only makes each step atomic; steps are taken one at a time.
 */
module Guard {
  import opened Wrappers
  import opened Driver

  /** What `acquireClient` returns, the slot it leaves and the driver calls it made. */
  datatype Acquired = Acquired(result: Result<Handle>, slot: Option<Handle>, calls: seq<Call>)

  /** The slot `releaseClient` leaves and the driver calls it made. */
  datatype Released = Released(slot: Option<Handle>, calls: seq<Call>)

  /**
   * `acquireClient`: an empty slot is filled lazily by one connect; a filled slot is reused.
   * `connect` is what the driver's connect returns when it is called.
   */
  function AcquireClient(s: Settings, slot: Option<Handle>, connect: Result<Handle>): (a: Acquired)
    // a held handle is returned as it is, with no driver call
    ensures slot.Some? ==> a.result == Ok(slot.value) && a.slot == slot && a.calls == []
    // an empty slot costs exactly one connect, with the handler's URI and timeout
    ensures slot.None? ==> a.calls == [Connect(s.uri, s.timeout, connect)] && a.result == connect
    // a failed connect leaves the slot empty, so the next acquire connects again
    ensures slot.None? && connect.Err? ==> a.slot == None
    // whatever handle is handed out is the one the slot now holds
    ensures a.result.Ok? <==> a.slot.Some?
    ensures a.result.Ok? ==> a.slot == Some(a.result.value)
  {
    match slot
    case Some(c) => Acquired(Ok(c), slot, [])
    case None =>
      var call := Connect(s.uri, s.timeout, connect);
      match connect
      case Err(_) => Acquired(connect, None, [call])
      case Ok(c) => Acquired(connect, Some(c), [call])
  }

  /**
   * `releaseClient(c)`: the slot is cleared only when it holds `c`; `c` is disconnected
   * in every case, synchronously, after the slot decision.
   */
  function ReleaseClient(s: Settings, slot: Option<Handle>, c: Handle): (r: Released)
    ensures slot == Some(c) ==> r.slot == None
    ensures slot != Some(c) ==> r.slot == slot
    ensures r.slot.Some? ==> r.slot != Some(c)
    ensures r.calls == [Disconnect(c, s.timeout)]
  {
    var slot' := if slot == None || slot != Some(c) then slot else None;
    Released(slot', [Disconnect(c, s.timeout)])
  }

  /** One call to the guard: an acquire (with the connect outcome it would get) or a release. */
  datatype Op = AcquireOp(connect: Result<Handle>) | ReleaseOp(client: Handle)

  /** The end of a run: the final slot, every driver call made, and every acquire's result in order. */
  datatype Trace = Trace(slot: Option<Handle>, calls: seq<Call>, acquired: seq<Result<Handle>>)

  /** Runs the guard calls one after another from `slot`. */
  function Run(s: Settings, slot: Option<Handle>, ops: seq<Op>): Trace
    decreases |ops|
  {
    if ops == [] then Trace(slot, [], [])
    else
      match ops[0]
      case AcquireOp(connect) =>
        var a := AcquireClient(s, slot, connect);
        var t := Run(s, a.slot, ops[1..]);
        Trace(t.slot, a.calls + t.calls, [a.result] + t.acquired)
      case ReleaseOp(c) =>
        var r := ReleaseClient(s, slot, c);
        var t := Run(s, r.slot, ops[1..]);
        Trace(t.slot, r.calls + t.calls, t.acquired)
  }

  /** The handles released by a sequence of guard calls, in order. */
  function Releases(ops: seq<Op>): seq<Handle>
    decreases |ops|
  {
    if ops == [] then []
    else (if ops[0].ReleaseOp? then [ops[0].client] else []) + Releases(ops[1..])
  }

  /**
   * No reconnect: while nobody releases the held handle `h` (releases of other, stale
   * handles are allowed), the slot keeps `h`, no connect is attempted, and every acquire
   * returns `h`.
   */
  lemma {:induction false} HeldHandleIsReused(s: Settings, h: Handle, ops: seq<Op>)
    requires forall i :: 0 <= i < |ops| ==> ops[i] != ReleaseOp(h)
    ensures Run(s, Some(h), ops).slot == Some(h)
    ensures Attempts(Run(s, Some(h), ops).calls) == 0
    ensures forall i :: 0 <= i < |Run(s, Some(h), ops).acquired| ==> Run(s, Some(h), ops).acquired[i] == Ok(h)
    decreases |ops|
  {
    if ops != [] {
      HeldHandleIsReused(s, h, ops[1..]);
      var t := Run(s, Some(h), ops[1..]);
      match ops[0]
      case AcquireOp(connect) =>
        CountsDistribute([], t.calls);
      case ReleaseOp(c) =>
        CountsDistribute([Disconnect(c, s.timeout)], t.calls);
    }
  }

  /**
   * Any sequence of acquires with no release establishes at most one connection (none
   * if the slot was already filled), and every acquire that succeeds returns the same handle.
   * Failed connects are retried by the next acquire, each as a fresh attempt.
   */
  lemma {:induction false} AcquiresShareOneConnection(s: Settings, slot: Option<Handle>, ops: seq<Op>)
    requires forall i :: 0 <= i < |ops| ==> ops[i].AcquireOp?
    ensures Established(Run(s, slot, ops).calls) <= (if slot.None? then 1 else 0)
    ensures slot.Some? ==> forall i :: 0 <= i < |Run(s, slot, ops).acquired| ==>
      Run(s, slot, ops).acquired[i] == Ok(slot.value)
    ensures var t := Run(s, slot, ops);
      forall i, j :: 0 <= i < |t.acquired| && 0 <= j < |t.acquired| && t.acquired[i].Ok? && t.acquired[j].Ok? ==>
        t.acquired[i] == t.acquired[j]
    decreases |ops|
  {
    if ops == [] {
    } else if slot.Some? {
      HeldHandleIsReused(s, slot.value, ops);
      EstablishedAtMostAttempts(Run(s, slot, ops).calls);
    } else {
      var a := AcquireClient(s, slot, ops[0].connect);
      var t := Run(s, a.slot, ops[1..]);
      CountsDistribute(a.calls, t.calls);
      match ops[0].connect
      case Err(_) =>
        AcquiresShareOneConnection(s, None, ops[1..]);
        assert Run(s, slot, ops).acquired == [a.result] + t.acquired;
      case Ok(h) =>
        HeldHandleIsReused(s, h, ops[1..]);
        EstablishedAtMostAttempts(t.calls);
        assert Run(s, slot, ops).acquired == [Ok(h)] + t.acquired;
    }
  }

  /** Releasing always disconnects: the handles disconnected are exactly the handles released, in order. */
  lemma {:induction false} EveryReleaseDisconnects(s: Settings, slot: Option<Handle>, ops: seq<Op>)
    ensures Disconnected(Run(s, slot, ops).calls) == Releases(ops)
    decreases |ops|
  {
    if ops != [] {
      match ops[0]
      case AcquireOp(connect) =>
        var a := AcquireClient(s, slot, connect);
        EveryReleaseDisconnects(s, a.slot, ops[1..]);
        CountsDistribute(a.calls, Run(s, a.slot, ops[1..]).calls);
        assert Disconnected(a.calls) == [];
      case ReleaseOp(c) =>
        var r := ReleaseClient(s, slot, c);
        EveryReleaseDisconnects(s, r.slot, ops[1..]);
        CountsDistribute(r.calls, Run(s, r.slot, ops[1..]).calls);
        assert Disconnected(r.calls) == [c];
    }
  }

  /**
   * After the held handle is released, the next acquire establishes a new connection,
   * whatever other (stale) releases came in between.
   */
  lemma {:induction false} ReleaseForcesReconnect(s: Settings, h: Handle, stale: seq<Handle>, connect: Result<Handle>)
    ensures var ops := [ReleaseOp(h)] + StaleReleases(stale) + [AcquireOp(connect)];
      var t := Run(s, Some(h), ops);
      Attempts(t.calls) == 1 && t.acquired == [connect]
  {
    var ops := [ReleaseOp(h)] + StaleReleases(stale) + [AcquireOp(connect)];
    StaleReleasesKeepEmpty(s, stale, connect);
    assert ops[1..] == StaleReleases(stale) + [AcquireOp(connect)];
    CountsDistribute([Disconnect(h, s.timeout)], Run(s, None, ops[1..]).calls);
  }

  /** Releases of the given handles, in order. */
  function StaleReleases(hs: seq<Handle>): (ops: seq<Op>)
    ensures |ops| == |hs|
    ensures forall i :: 0 <= i < |hs| ==> ops[i] == ReleaseOp(hs[i])
    decreases |hs|
  {
    if hs == [] then [] else [ReleaseOp(hs[0])] + StaleReleases(hs[1..])
  }

  /** Releases into an empty slot leave it empty, so a following acquire connects once. */
  lemma {:induction false} StaleReleasesKeepEmpty(s: Settings, hs: seq<Handle>, connect: Result<Handle>)
    ensures Attempts(Run(s, None, StaleReleases(hs) + [AcquireOp(connect)]).calls) == 1
    ensures Run(s, None, StaleReleases(hs) + [AcquireOp(connect)]).acquired == [connect]
    decreases |hs|
  {
    var ops := StaleReleases(hs) + [AcquireOp(connect)];
    if hs == [] {
      assert ops == [AcquireOp(connect)];
      CountsDistribute([Connect(s.uri, s.timeout, connect)], []);
    } else {
      assert ops[0] == ReleaseOp(hs[0]);
      assert ops[1..] == StaleReleases(hs[1..]) + [AcquireOp(connect)];
      StaleReleasesKeepEmpty(s, hs[1..], connect);
      CountsDistribute([Disconnect(hs[0], s.timeout)], Run(s, None, ops[1..]).calls);
    }
  }
}

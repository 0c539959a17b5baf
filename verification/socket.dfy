/** The client's wire-protocol layer: the inbound router that turns a parsed
    envelope into at most one store action, the outbound frame builders, the
    identity handshake, and the (vestigial) retry counter of the connection. */
module Socket {
  import opened Wrappers
  import opened Js

  // ---------------------------------------------------------------------------
  // Inbound routing
  // ---------------------------------------------------------------------------

  /** A parsed inbound frame: `message.type` and `message.data`. The type is
      any JSON value; only exact strings are recognised. */
  datatype Envelope = Envelope(kind: Value, data: Value)

  /** The store actions the router dispatches. */
  datatype Action =
    | Configuration(payload: Value)
    | AttackResult(payload: Value)
    | ShowErrorMessage(payload: Value)

  /** The action kinds, without their payloads. */
  datatype ActionTag = ConfigurationTag | AttackResultTag | ShowErrorMessageTag

  function Tag(a: Action): ActionTag {
    match a
    case Configuration(_) => ConfigurationTag
    case AttackResult(_) => AttackResultTag
    case ShowErrorMessage(_) => ShowErrorMessageTag
  }

  const ServerErrorText: string := "Server error"

  /** The dispatch table: the only inbound types the client reacts to, and
      the kind of action each one yields. */
  const DispatchTable: map<string, ActionTag> := map[
    "configuration" := ConfigurationTag,
    "attack-result" := AttackResultTag,
    "invalid-payload" := ShowErrorMessageTag,
    "server-error" := ShowErrorMessageTag
  ]

  predicate Recognised(kind: Value) {
    kind.Str? && kind.s in DispatchTable
  }

  /** The `onmessage` handler after parsing: `Ok(None)` for an ignored frame,
      `Ok(Some(a))` when action `a` is dispatched, `Err` when reading
      `data.info` throws. */
  function Route(e: Envelope): (r: Result<Option<Action>, TypeError>)
    // a configuration frame hands its data to the store untouched
    ensures e.kind == Str("configuration") ==> r == Ok(Some(Configuration(e.data)))
    // so does an attack-result frame
    ensures e.kind == Str("attack-result") ==> r == Ok(Some(AttackResult(e.data)))
    // an invalid-payload frame shows `data.info`, and throws when data is null/undefined
    ensures e.kind == Str("invalid-payload") ==>
      (r.Err? <==> Nullish(e.data)) &&
      (r.Ok? ==> r == Ok(Some(ShowErrorMessage(Field(e.data, "info")))))
    // a server-error frame shows a constant message whatever its data
    ensures e.kind == Str("server-error") ==> r == Ok(Some(ShowErrorMessage(Str(ServerErrorText))))
    // everything else is ignored, without failing
    ensures !Recognised(e.kind) <==> r == Ok(None)
    // a dispatched action has the kind the table assigns to the frame type
    ensures r.Ok? && r.value.Some? ==> Recognised(e.kind) && Tag(r.value.value) == DispatchTable[e.kind.s]
  {
    if e.kind == Str("configuration") then
      Ok(Some(Configuration(e.data)))
    else if e.kind == Str("attack-result") then
      Ok(Some(AttackResult(e.data)))
    else if e.kind == Str("invalid-payload") then
      match Get(e.data, "info")
      case Ok(info) => Ok(Some(ShowErrorMessage(info)))
      case Err(t) => Err(t)
    else if e.kind == Str("server-error") then
      Ok(Some(ShowErrorMessage(Str(ServerErrorText))))
    else
      Ok(None)
  }

  /** The other types a server of this game sends are not routed at all. */
  lemma UnroutedServerTypes(data: Value)
    ensures forall t :: t in ["game-state", "bonus-result", "bad-attack", "score-update", "unknown-future-type"] ==>
      Route(Envelope(Str(t), data)) == Ok(None)
  {
  }

  /** The actions dispatched for a stream of frames, in arrival order. A
      frame whose handler throws dispatches nothing; later frames are still
      handled. */
  function Dispatched(frames: seq<Envelope>): (r: seq<Action>)
    ensures |r| <= |frames|
    ensures |r| == |frames| <==> forall i :: 0 <= i < |frames| ==> Route(frames[i]).Ok? && Route(frames[i]).value.Some?
  {
    if frames == [] then []
    else
      var rest := Dispatched(frames[1..]);
      assert forall i :: 1 <= i < |frames| ==> frames[i] == frames[1..][i - 1];
      match Route(frames[0])
      case Ok(Some(a)) => [a] + rest
      case _ => rest
  }

  /** The payloads of the ATTACK_RESULT actions among `actions`, in order. */
  function AttackPayloads(actions: seq<Action>): seq<Value> {
    if actions == [] then []
    else if actions[0].AttackResult? then [actions[0].payload] + AttackPayloads(actions[1..])
    else AttackPayloads(actions[1..])
  }

  /** The data of the `attack-result` frames among `frames`, in order. */
  function AttackFrameData(frames: seq<Envelope>): seq<Value> {
    if frames == [] then []
    else if frames[0].kind == Str("attack-result") then [frames[0].data] + AttackFrameData(frames[1..])
    else AttackFrameData(frames[1..])
  }

  /** Every attack-result frame reaches the store exactly once, unchanged and
      in arrival order, and nothing else produces an ATTACK_RESULT action. */
  lemma {:induction false} AttackResultsInArrivalOrder(frames: seq<Envelope>)
    ensures AttackPayloads(Dispatched(frames)) == AttackFrameData(frames)
  {
    if frames != [] {
      AttackResultsInArrivalOrder(frames[1..]);
      var f := frames[0];
      if f.kind == Str("attack-result") {
        assert Dispatched(frames) == [AttackResult(f.data)] + Dispatched(frames[1..]);
      } else {
        match Route(f)
        case Ok(Some(a)) =>
          assert !a.AttackResult?;
          assert Dispatched(frames) == [a] + Dispatched(frames[1..]);
        case _ =>
      }
    }
  }

  // ---------------------------------------------------------------------------
  // Outbound frames
  // ---------------------------------------------------------------------------

  /** An outbound frame before `JSON.stringify`. */
  datatype Frame = Frame(kind: string, data: Value)

  /** The identity the handshake carries: the stored record itself when its
      `gameId`, `playerId` and `username` are all truthy, otherwise `{}`.
      Reading a field of a null/undefined record throws. */
  function HandshakeData(stored: Value): (r: Result<Value, TypeError>)
    ensures r.Err? <==> Nullish(stored)
    ensures r.Ok? && HasIdentity(stored) ==> r.value == stored
    ensures r.Ok? && !HasIdentity(stored) ==> r.value == Obj(map[])
  {
    if Nullish(stored) then Err(CannotReadProperty("gameId"))
    else if HasIdentity(stored) then Ok(stored)
    else Ok(Obj(map[]))
  }

  /** A stored record from which a session can be resumed. */
  predicate HasIdentity(stored: Value)
    requires !Nullish(stored)
  {
    Truthy(Field(stored, "gameId")) && Truthy(Field(stored, "playerId")) && Truthy(Field(stored, "username"))
  }

  /** `sendConfigurationFrame`: nothing without a socket; otherwise one
      `connection` frame carrying the handshake identity. */
  function ConfigurationFrame(hasSocket: bool, stored: Value): (r: Result<Option<Frame>, TypeError>)
    ensures !hasSocket ==> r == Ok(None)
    ensures hasSocket ==> (r.Err? <==> Nullish(stored))
    ensures r.Ok? && r.value.Some? ==> r.value.value.kind == "connection" && Ok(r.value.value.data) == HandshakeData(stored)
    ensures hasSocket && r.Ok? ==> r.value.Some?
  {
    if !hasSocket then Ok(None)
    else
      match HandshakeData(stored)
      case Ok(data) => Ok(Some(Frame("connection", data)))
      case Err(t) => Err(t)
  }

  /** `boardLocked`: the `ship-positions` frame carries `payload.board`. */
  function ShipPositionsFrame(hasSocket: bool, payload: Value): (r: Result<Option<Frame>, TypeError>)
    ensures !hasSocket ==> r == Ok(None)
    ensures hasSocket ==> (r.Err? <==> Nullish(payload))
    ensures hasSocket && !Nullish(payload) ==> r == Ok(Some(Frame("ship-positions", Field(payload, "board"))))
  {
    if !hasSocket then Ok(None)
    else
      match Get(payload, "board")
      case Ok(board) => Ok(Some(Frame("ship-positions", board)))
      case Err(t) => Err(t)
  }

  /** `attack`: the `attack` frame carries the payload unchanged. */
  function AttackFrame(hasSocket: bool, payload: Value): (r: Option<Frame>)
    ensures r.Some? <==> hasSocket
    ensures r.Some? ==> r.value.kind == "attack" && r.value.data == payload
  {
    if hasSocket then Some(Frame("attack", payload)) else None
  }

  /** Every frame the client itself sends would be ignored if it came back:
      a sent attack is applied only through the server's `attack-result`. */
  lemma EchoedFramesAreIgnored(hasSocket: bool, stored: Value, payload: Value)
    ensures var r := ConfigurationFrame(hasSocket, stored);
      r.Ok? && r.value.Some? ==> Route(Envelope(Str(r.value.value.kind), r.value.value.data)) == Ok(None)
    ensures var r := ShipPositionsFrame(hasSocket, payload);
      r.Ok? && r.value.Some? ==> Route(Envelope(Str(r.value.value.kind), r.value.value.data)) == Ok(None)
    ensures var r := AttackFrame(hasSocket, payload);
      r.Some? ==> Route(Envelope(Str(r.value.kind), r.value.data)) == Ok(None)
  {
  }

  // ---------------------------------------------------------------------------
  // Connection lifecycle
  // ---------------------------------------------------------------------------

  /** The module-level connection state: whether a socket exists, the retry
      counter, and how many no-op intervals `onclose` has started (none is
      ever cleared). */
  datatype Connection = Connection(hasSocket: bool, numRetries: int, idleIntervals: nat)

  /** A socket event. `Opened` carries the record local storage returns when
      the handshake reads it, which may differ from one open to the next. */
  datatype SocketEvent = Opened(stored: Value) | Received(envelope: Envelope) | Closed | Errored

  /** What one socket event produces: the next state, the frames sent and the
      actions dispatched. A handler that throws keeps the state changes made
      before the throw and produces nothing after it. */
  datatype Reaction = Reaction(conn: Connection, sent: seq<Frame>, dispatched: seq<Action>)

  function OnEvent(c: Connection, ev: SocketEvent): (r: Reaction)
    // opening resets the counter, changes nothing else, and sends the handshake if it does not throw
    ensures ev.Opened? ==>
      r.conn == c.(numRetries := 0) && r.dispatched == [] &&
      (r.sent != [] <==> ConfigurationFrame(c.hasSocket, ev.stored).Ok? && ConfigurationFrame(c.hasSocket, ev.stored).value.Some?) &&
      (r.sent != [] ==> r.sent == [ConfigurationFrame(c.hasSocket, ev.stored).value.value])
    // closing resets the counter and starts one more interval that does nothing
    ensures ev.Closed? ==>
      r.conn == c.(numRetries := 0, idleIntervals := c.idleIntervals + 1) && r.sent == [] && r.dispatched == []
    // a message dispatches exactly what the router yields, and sends nothing
    ensures ev.Received? ==> r.conn == c && r.sent == [] && r.dispatched == Dispatched([ev.envelope])
    // errors are swallowed
    ensures ev.Errored? ==> r == Reaction(c, [], [])
    // no handler increments the counter or replaces the socket
    ensures r.conn.numRetries <= c.numRetries || r.conn.numRetries == 0
    ensures r.conn.hasSocket == c.hasSocket
  {
    match ev
    case Opened(stored) =>
      var c' := c.(numRetries := 0);
      (match ConfigurationFrame(c.hasSocket, stored)
       case Ok(Some(f)) => Reaction(c', [f], [])
       case _ => Reaction(c', [], []))
    case Received(e) =>
      assert [e][1..] == [];
      Reaction(c, [], Dispatched([e]))
    case Closed =>
      Reaction(c.(numRetries := 0, idleIntervals := c.idleIntervals + 1), [], [])
    case Errored =>
      Reaction(c, [], [])
  }

  /** A sequence of socket events, with everything sent and dispatched. */
  function Run(c: Connection, events: seq<SocketEvent>): Reaction
    decreases |events|
  {
    if events == [] then Reaction(c, [], [])
    else
      var first := OnEvent(c, events[0]);
      var rest := Run(first.conn, events[1..]);
      Reaction(rest.conn, first.sent + rest.sent, first.dispatched + rest.dispatched)
  }

  function CountClosed(events: seq<SocketEvent>): nat {
    if events == [] then 0 else (if events[0].Closed? then 1 else 0) + CountClosed(events[1..])
  }

  /** From the counter's declared initial value 0, whatever happens on the
      socket, the retry counter stays 0; each close leaks one more no-op interval; no event ever clears one. */
  lemma {:induction false} RetryCounterStaysZero(c: Connection, events: seq<SocketEvent>)
    requires c.numRetries == 0
    ensures Run(c, events).conn.numRetries == 0
    ensures Run(c, events).conn.idleIntervals == c.idleIntervals + CountClosed(events)
    ensures Run(c, events).conn.hasSocket == c.hasSocket
    decreases |events|
  {
    if events != [] {
      RetryCounterStaysZero(OnEvent(c, events[0]).conn, events[1..]);
    }
  }

  /** The inbound router is the only source of dispatched actions: a run
      dispatches exactly the actions routed from the frames it received. */
  function ReceivedFrames(events: seq<SocketEvent>): seq<Envelope> {
    if events == [] then []
    else if events[0].Received? then [events[0].envelope] + ReceivedFrames(events[1..])
    else ReceivedFrames(events[1..])
  }

  lemma DispatchedDistributes(a: seq<Envelope>, b: seq<Envelope>)
    ensures Dispatched(a + b) == Dispatched(a) + Dispatched(b)
    decreases |a|
  {
    if a != [] {
      assert (a + b)[0] == a[0];
      assert (a + b)[1..] == a[1..] + b;
      DispatchedDistributes(a[1..], b);
      match Route(a[0])
      case Ok(Some(x)) =>
        assert Dispatched(a + b) == [x] + Dispatched(a[1..] + b);
        assert Dispatched(a) == [x] + Dispatched(a[1..]);
      case _ =>
        assert Dispatched(a + b) == Dispatched(a[1..] + b);
        assert Dispatched(a) == Dispatched(a[1..]);
    } else {
      assert a + b == b;
    }
  }

  lemma {:induction false} RunDispatchesReceivedFrames(c: Connection, events: seq<SocketEvent>)
    ensures Run(c, events).dispatched == Dispatched(ReceivedFrames(events))
    decreases |events|
  {
    if events != [] {
      var first := OnEvent(c, events[0]);
      RunDispatchesReceivedFrames(first.conn, events[1..]);
      if events[0].Received? {
        DispatchedDistributes([events[0].envelope], ReceivedFrames(events[1..]));
      }
    }
  }

  /** `playAgain`: re-sends exactly the frame the on-open handshake sends. */
  function PlayAgain(c: Connection, stored: Value): (r: Result<Option<Frame>, TypeError>)
    ensures r.Ok? && r.value.Some? <==> OnEvent(c, Opened(stored)).sent != []
    ensures r.Ok? && r.value.Some? ==> OnEvent(c, Opened(stored)).sent == [r.value.value]
  {
    ConfigurationFrame(c.hasSocket, stored)
  }
}

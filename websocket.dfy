/**
 * The dashboard's socket server: a registry of connected sockets, each with
 * its `authenticated` flag, and the messages the server has emitted to each
 * socket. `authenticate` either marks a socket or rejects and disconnects it;
 * `broadcastMetrics` emits to every connected socket once the server exists.
 */
module WebSocket {
  import opened Wrappers
  import opened Json
  import opened Config
  import opened MetricsService

  /** A socket's id, unique for the life of the server. */
  type SocketId = nat

  /** What the server emits: the reply to `authenticate`, and a metrics update. */
  datatype ServerEvent = AuthReply(success: bool) | MetricsUpdate(metrics: Snapshot)

  /**
   * `initialized`: `io` has been set; `connected`: each connected socket's
   * `authenticated` flag (false until it authenticates); `sent`: everything
   * emitted to each socket the server has seen; `nextId`: the next fresh id.
   */
  datatype HubState = HubState(
    initialized: bool,
    connected: map<SocketId, bool>,
    sent: map<SocketId, seq<ServerEvent>>,
    nextId: nat)

  const INITIAL_HUB: HubState := HubState(false, map[], map[], 0)

  /** The ids of the registry are sockets the server has seen, and every id seen was handed out. */
  predicate Valid(s: HubState)
  {
    && (forall id :: id in s.connected ==> id in s.sent)
    && (forall id :: id in s.sent ==> id < s.nextId)
  }

  /** What was emitted to `id` so far. */
  function Sent(s: HubState, id: SocketId): seq<ServerEvent>
  {
    if id in s.sent then s.sent[id] else []
  }

  /** `socket.emit(ev)` on socket `id`. */
  function Emit(s: HubState, id: SocketId, ev: ServerEvent): (r: HubState)
    ensures Sent(r, id) == Sent(s, id) + [ev]
    ensures forall other :: other != id ==> Sent(r, other) == Sent(s, other)
    ensures r.connected == s.connected && r.initialized == s.initialized && r.nextId == s.nextId
  {
    s.(sent := s.sent[id := Sent(s, id) + [ev]])
  }

  /** `initWebSocket`: `io` is set to a new server, which has no clients yet. */
  function InitStep(s: HubState): (r: HubState)
    ensures r.initialized && r.connected == map[]
    ensures forall id :: Sent(r, id) == Sent(s, id)
  {
    s.(initialized := true, connected := map[])
  }

  /**
   * A client connects: it gets a fresh id, starts unauthenticated, and is
   * sent nothing. Before `io` exists there is no server to connect to.
   */
  function ConnectStep(s: HubState): (r: (HubState, Option<SocketId>))
    ensures !s.initialized ==> r == (s, None)
    ensures s.initialized ==>
      && r.1 == Some(s.nextId)
      && r.0.connected == s.connected[s.nextId := false]
      && Sent(r.0, s.nextId) == []
      && (forall id :: id != s.nextId ==> Sent(r.0, id) == Sent(s, id))
      && r.0.nextId > s.nextId
  {
    if !s.initialized then (s, None)
    else
      var id := s.nextId;
      (s.(connected := s.connected[id := false], sent := s.sent[id := []], nextId := id + 1), Some(id))
  }

  /** The client disconnects: the socket leaves the registry. */
  function DisconnectStep(s: HubState, id: SocketId): (r: HubState)
    ensures id !in r.connected
    ensures forall other :: other != id ==> (other in r.connected <==> other in s.connected)
    ensures forall other :: other in r.connected ==> r.connected[other] == s.connected[other]
    ensures r.sent == s.sent
  {
    s.(connected := s.connected - {id})
  }

  /**
   * The `authenticate` handler of a connected socket: the configured token,
   * compared with `===` so only that exact string passes, sets the flag and
   * is answered `{success: true}`; anything else is answered `{success: false}`
   * and the socket is disconnected.
   */
  function AuthenticateStep(s: HubState, id: SocketId, token: Json): (r: HubState)
    ensures id !in s.connected ==> r == s
    ensures id in s.connected && token == JStr(DASHBOARD_TOKEN) ==>
      id in r.connected && r.connected[id] && Sent(r, id) == Sent(s, id) + [AuthReply(true)]
    ensures id in s.connected && token != JStr(DASHBOARD_TOKEN) ==>
      id !in r.connected && Sent(r, id) == Sent(s, id) + [AuthReply(false)]
    ensures forall other :: other != id ==>
      Sent(r, other) == Sent(s, other) && (other in r.connected <==> other in s.connected)
      && (other in r.connected ==> r.connected[other] == s.connected[other])
  {
    if id !in s.connected then s
    else if token == JStr(DASHBOARD_TOKEN) then Emit(s, id, AuthReply(true)).(connected := s.connected[id := true])
    else Emit(s, id, AuthReply(false)).(connected := s.connected - {id})
  }

  /**
   * `broadcastMetrics(m)`: nothing before `io` is set; afterwards
   * `metrics:update` goes to every connected socket, authenticated or not.
   */
  function BroadcastStep(s: HubState, m: Snapshot): (r: HubState)
    ensures !s.initialized ==> r == s
    ensures s.initialized ==> forall id :: id in s.connected ==> Sent(r, id) == Sent(s, id) + [MetricsUpdate(m)]
    ensures forall id :: id !in s.connected ==> Sent(r, id) == Sent(s, id)
    ensures r.connected == s.connected && r.initialized == s.initialized && r.nextId == s.nextId
  {
    if !s.initialized then s
    else
      s.(sent := map id | id in s.sent.Keys + s.connected.Keys ::
                  if id in s.connected then Sent(s, id) + [MetricsUpdate(m)] else Sent(s, id))
  }

  /** An event the server reacts to. */
  datatype HubOp =
    | Init
    | Connect
    | ClientDisconnect(id: SocketId)
    | Authenticate(id: SocketId, token: Json)
    | Broadcast(metrics: Snapshot)

  function Apply(s: HubState, op: HubOp): HubState
  {
    match op
    case Init => InitStep(s)
    case Connect => ConnectStep(s).0
    case ClientDisconnect(id) => DisconnectStep(s, id)
    case Authenticate(id, token) => AuthenticateStep(s, id, token)
    case Broadcast(m) => BroadcastStep(s, m)
  }

  function Run(s: HubState, ops: seq<HubOp>): HubState
    decreases |ops|
  {
    if ops == [] then s else Run(Apply(s, ops[0]), ops[1..])
  }

  /** Every event keeps the registry within the sockets seen, and ids fresh. */
  lemma ApplyValid(s: HubState, op: HubOp)
    requires Valid(s)
    ensures Valid(Apply(s, op))
    ensures s.nextId <= Apply(s, op).nextId
  {
  }

  /**
   * A socket that is not connected, such as one rejected by `authenticate`,
   * stays disconnected and is sent nothing more, whatever happens next.
   */
  lemma {:induction false} DisconnectedHearsNothing(s: HubState, ops: seq<HubOp>, id: SocketId)
    requires Valid(s) && id < s.nextId && id !in s.connected
    ensures id !in Run(s, ops).connected && Sent(Run(s, ops), id) == Sent(s, id)
    decreases |ops|
  {
    if ops != [] {
      var s1 := Apply(s, ops[0]);
      ApplyValid(s, ops[0]);
      assert id !in s1.connected && Sent(s1, id) == Sent(s, id) by {
        match ops[0]
        case Init =>
        case Connect =>
        case ClientDisconnect(_) =>
        case Authenticate(_, _) =>
        case Broadcast(_) =>
      }
      DisconnectedHearsNothing(s1, ops[1..], id);
    }
  }

  /**
   * After a wrong token, the socket has heard exactly the `{success: false}`
   * reply and, from then on, nothing else: no metrics update ever reaches it.
   */
  lemma RejectedSocketGetsNoUpdates(s: HubState, id: SocketId, token: Json, later: seq<HubOp>)
    requires Valid(s) && id in s.connected && token != JStr(DASHBOARD_TOKEN)
    ensures var r := Run(AuthenticateStep(s, id, token), later);
      id !in r.connected && Sent(r, id) == Sent(s, id) + [AuthReply(false)]
  {
    var s1 := AuthenticateStep(s, id, token);
    ApplyValid(s, Authenticate(id, token));
    DisconnectedHearsNothing(s1, later, id);
  }

  /**
   * The `authenticated` flag is only ever set by presenting the configured
   * token: from the initial state, a socket marked authenticated was sent an
   * `authenticate` with exactly that token.
   */
  lemma AuthenticatedOnlyByToken(ops: seq<HubOp>, id: SocketId)
    requires id in Run(INITIAL_HUB, ops).connected && Run(INITIAL_HUB, ops).connected[id]
    ensures exists i :: 0 <= i < |ops| && ops[i] == Authenticate(id, JStr(DASHBOARD_TOKEN))
  {
    FlagNeedsToken(INITIAL_HUB, ops, id);
  }

  lemma {:induction false} FlagNeedsToken(s: HubState, ops: seq<HubOp>, id: SocketId)
    requires id in Run(s, ops).connected && Run(s, ops).connected[id]
    ensures (id in s.connected && s.connected[id])
      || exists i :: 0 <= i < |ops| && ops[i] == Authenticate(id, JStr(DASHBOARD_TOKEN))
    decreases |ops|
  {
    if ops != [] {
      var s1 := Apply(s, ops[0]);
      FlagNeedsToken(s1, ops[1..], id);
      if id in s1.connected && s1.connected[id] {
        if ops[0] != Authenticate(id, JStr(DASHBOARD_TOKEN)) {
          assert id in s.connected && s.connected[id] by {
            match ops[0]
            case Init =>
            case Connect =>
            case ClientDisconnect(_) =>
            case Authenticate(_, _) =>
            case Broadcast(_) =>
          }
        }
      } else {
        var i :| 0 <= i < |ops[1..]| && ops[1..][i] == Authenticate(id, JStr(DASHBOARD_TOKEN));
        assert ops[i + 1] == ops[1..][i];
      }
    }
  }

  /** The socket server: `io`, and the sockets it has seen. */
  class WebSocketServer {
    var initialized: bool
    var connected: map<SocketId, bool>
    var sent: map<SocketId, seq<ServerEvent>>
    var nextId: nat

    function State(): HubState
      reads this
    {
      HubState(initialized, connected, sent, nextId)
    }

    /** Module load: `io` is undefined. */
    constructor ()
      ensures State() == INITIAL_HUB
    {
      initialized := false;
      connected := map[];
      sent := map[];
      nextId := 0;
    }

    method InitWebSocket()
      modifies this
      ensures State() == InitStep(old(State()))
    {
      initialized := true;
      connected := map[];
    }

    /** The `connection` handler: registers the socket's handlers and emits nothing. */
    method Connection() returns (id: Option<SocketId>)
      modifies this
      ensures (State(), id) == ConnectStep(old(State()))
    {
      if !initialized {
        return None;
      }
      id := Some(nextId);
      connected := connected[nextId := false];
      sent := sent[nextId := []];
      nextId := nextId + 1;
    }

    /** The `disconnect` handler only logs; the socket leaves the server's registry. */
    method ClientDisconnect(id: SocketId)
      modifies this
      ensures State() == DisconnectStep(old(State()), id)
    {
      connected := connected - {id};
    }

    method OnAuthenticate(id: SocketId, token: Json)
      modifies this
      ensures State() == AuthenticateStep(old(State()), id, token)
    {
      if id !in connected {
        return;
      }
      var reply := token == JStr(DASHBOARD_TOKEN);
      sent := sent[id := Sent(State(), id) + [AuthReply(reply)]];
      if reply {
        connected := connected[id := true];
      } else {
        connected := connected - {id};
      }
    }

    method BroadcastMetrics(m: Snapshot)
      modifies this
      ensures State() == BroadcastStep(old(State()), m)
    {
      if initialized {
        var s := State();
        sent := map id | id in sent.Keys + connected.Keys ::
                  if id in connected then Sent(s, id) + [MetricsUpdate(m)] else Sent(s, id);
      }
    }
  }
}

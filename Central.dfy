/** The dashboard's HTTP front (internal/server/central.go): the route
    table, the three JSON endpoints and the browser WebSocket that
    forwards console commands to one wrapper and receives its output. */
module Central {
  import opened Text
  import opened Connection
  import opened Registry
  import CentralAuth
  import Raknet

  const StatusOK := 200
  const StatusBadRequest := 400
  const StatusNotFound := 404
  const StatusMethodNotAllowed := 405
  const StatusInternalServerError := 500

  // ---------------------------------------------------------------
  // Routing (central.go:45-64)
  // ---------------------------------------------------------------

  datatype Route = WrappersRoute | RetryRoute | ServerStatusRoute | WebSocketRoute

  /** The four exact patterns registered behind the gate; every other
      path falls to the "/" pattern, the static file server. */
  function RouteOf(path: string): (r: Option<Route>)
    ensures r.None? <==>
              path != "/api/wrappers" && path != "/api/retry" && path != "/api/serverstatus" && path != "/ws"
    ensures r == Some(WrappersRoute) <==> path == "/api/wrappers"
    ensures r == Some(RetryRoute) <==> path == "/api/retry"
    ensures r == Some(ServerStatusRoute) <==> path == "/api/serverstatus"
    ensures r == Some(WebSocketRoute) <==> path == "/ws"
  {
    if path == "/api/wrappers" then Some(WrappersRoute)
    else if path == "/api/retry" then Some(RetryRoute)
    else if path == "/api/serverstatus" then Some(ServerStatusRoute)
    else if path == "/ws" then Some(WebSocketRoute)
    else None
  }

  datatype Dispatched = FileServer | Refused(response: CentralAuth.Response) | Routed(route: Route)

  /** Where a request goes: the file server needs no credential; a
      protected route's handler runs only for an admitted request, and
      any other request to it is answered 401 by the gate. */
  function Dispatch(path: string, request: CentralAuth.Request, secret: string): (d: Dispatched)
    ensures d == FileServer <==> RouteOf(path).None?
    ensures d.Routed? <==> RouteOf(path).Some? && CentralAuth.Authorize(request, secret) == CentralAuth.Admit
    ensures d.Routed? ==> Some(d.route) == RouteOf(path)
    ensures d.Refused? ==>
              d.response == CentralAuth.Response(CentralAuth.StatusUnauthorized,
                                                 CentralAuth.Authorize(request, secret).message)
  {
    match RouteOf(path)
    case None => FileServer
    case Some(route) =>
      match CentralAuth.Authorize(request, secret)
      case Admit => Routed(route)
      case Reject(code, message) => Refused(CentralAuth.Response(code, message))
  }

  /** Whatever the credential, the static files are served. */
  lemma FilesArePublic(path: string, request: CentralAuth.Request, secret: string)
    requires RouteOf(path).None?
    ensures Dispatch(path, request, secret) == FileServer
  {
  }

  /** A request carrying no credential reaches no protected handler. */
  lemma NoKeyNoHandler(path: string, request: CentralAuth.Request, secret: string)
    requires CentralAuth.ExtractKey(request) == ""
    ensures !Dispatch(path, request, secret).Routed?
  {
  }

  // ---------------------------------------------------------------
  // Handlers (central.go:72-136)
  // ---------------------------------------------------------------

  datatype Reply =
    | HttpError(code: int, message: string)           // http.Error
    | StatusOnly(code: int)                            // WriteHeader, empty body
    | StatusJson(status: ServerStatus)                 // JSON-encoded status map
    | WrapperList(wrappers: seq<WrapperConnection>)    // JSON-encoded list

  /** The checks the ID-taking handlers make before touching a
      connection, in their order: the method (when the route restricts
      it), then a non-empty `wrapper` query parameter, then a registered
      ID. */
  function Precheck(verb: string, allowed: Option<string>, wrapperId: string, registered: set<string>): (r: Option<Reply>)
    ensures r == None <==>
              (allowed.None? || verb == allowed.value) && wrapperId != "" && wrapperId in registered
    ensures allowed.Some? && verb != allowed.value ==>
              r == Some(HttpError(StatusMethodNotAllowed, "Method not allowed"))
    ensures (allowed.None? || verb == allowed.value) && wrapperId == "" ==>
              r == Some(HttpError(StatusBadRequest, "Wrapper ID is required"))
    ensures (allowed.None? || verb == allowed.value) && wrapperId != "" && wrapperId !in registered ==>
              r == Some(HttpError(StatusNotFound, "Wrapper not found"))
  {
    if allowed.Some? && verb != allowed.value then Some(HttpError(StatusMethodNotAllowed, "Method not allowed"))
    else if wrapperId == "" then Some(HttpError(StatusBadRequest, "Wrapper ID is required"))
    else if wrapperId !in registered then Some(HttpError(StatusNotFound, "Wrapper not found"))
    else None
  }

  /** A wrong method is refused before the ID is looked at. */
  lemma MethodCheckedFirst(verb: string, allowed: string, wrapperId: string, registered: set<string>)
    requires verb != allowed
    ensures Precheck(verb, Some(allowed), wrapperId, registered) == Some(HttpError(StatusMethodNotAllowed, "Method not allowed"))
  {
  }

  // ---------------------------------------------------------------
  // The browser socket's read loop (central.go:172-198)
  // ---------------------------------------------------------------

  /** The text sent back to the browser for a command while the wrapper
      is not connected. */
  function NotConnectedReply(s: ConnState): string {
    "Error: Wrapper is " + StatusName(s.status) + " - " + s.error
  }

  /** One frame from the browser: while the wrapper is not connected it
      is answered with the wrapper's status; otherwise it is queued, and
      a refused send is answered with its error. Either way it is queued
      or answered, never both and never neither. */
  function RelayOne(s: ConnState, frame: string, closedWins: bool): (r: (ConnState, seq<string>))
    ensures s.status != Connected ==> r == (s, [NotConnectedReply(s)])
    ensures s.status == Connected ==>
              && r.0 == SendStep(s, frame, closedWins).0
              && (SendStep(s, frame, closedWins).1.None? ==> r.1 == [])
              && (SendStep(s, frame, closedWins).1.Some? ==>
                    r.1 == ["Error sending command: " + SendStep(s, frame, closedWins).1.value])
    ensures |r.1| + |r.0.queue| == |s.queue| + 1
    ensures r.0 == s.(queue := r.0.queue) && s.queue <= r.0.queue
    ensures Inv(s) ==> Inv(r.0)
  {
    if s.status != Connected then (s, [NotConnectedReply(s)])
    else
      var (s1, err) := SendStep(s, frame, closedWins);
      (s1, if err.Some? then ["Error sending command: " + err.value] else [])
  }

  /** The loop over the browser's frames. Result: the connection state
      after, and the text replies in order. */
  function Relay(s: ConnState, frames: seq<string>, closedWins: bool): (r: (ConnState, seq<string>))
    decreases |frames|
  {
    if frames == [] then (s, [])
    else
      var (s1, out) := RelayOne(s, frames[0], closedWins);
      var rest := Relay(s1, frames[1..], closedWins);
      (rest.0, out + rest.1)
  }

  /** No frame is lost silently: each one is either queued for the
      wrapper or answered, the queue only grows at its end, and nothing
      but the queue changes. */
  lemma {:induction false} RelayAccounts(s: ConnState, frames: seq<string>, closedWins: bool)
    ensures |Relay(s, frames, closedWins).1| + |Relay(s, frames, closedWins).0.queue| == |s.queue| + |frames|
    ensures s.queue <= Relay(s, frames, closedWins).0.queue
    ensures Relay(s, frames, closedWins).0 == s.(queue := Relay(s, frames, closedWins).0.queue)
    ensures Inv(s) ==> Inv(Relay(s, frames, closedWins).0)
    decreases |frames|
  {
    if frames != [] {
      RelayAccounts(RelayOne(s, frames[0], closedWins).0, frames[1..], closedWins);
    }
  }

  /** While the wrapper is down every frame gets the status reply and
      nothing is queued. */
  lemma {:induction false} RelayWhileDown(s: ConnState, frames: seq<string>, closedWins: bool)
    requires s.status != Connected
    ensures Relay(s, frames, closedWins) == (s, seq(|frames|, _ => NotConnectedReply(s)))
    decreases |frames|
  {
    if frames != [] {
      RelayWhileDown(s, frames[1..], closedWins);
      assert Relay(s, frames, closedWins) ==
        (Relay(s, frames[1..], closedWins).0, [NotConnectedReply(s)] + Relay(s, frames[1..], closedWins).1);
      assert [NotConnectedReply(s)] + seq(|frames| - 1, _ => NotConnectedReply(s))
          == seq(|frames|, _ => NotConnectedReply(s));
    } else {
      assert seq(0, _ => NotConnectedReply(s)) == [];
    }
  }

  /** With room in the queue the frames are queued in order and nothing
      is answered. */
  lemma {:induction false} RelayWithRoom(s: ConnState, frames: seq<string>, closedWins: bool)
    requires s.status == Connected && !s.done && |s.queue| + |frames| <= QueueCapacity
    ensures Relay(s, frames, closedWins) == (s.(queue := s.queue + frames), [])
    decreases |frames|
  {
    if frames != [] {
      var s1 := s.(queue := s.queue + [frames[0]]);
      assert SendStep(s, frames[0], closedWins) == (s1, None);
      RelayWithRoom(s1, frames[1..], closedWins);
      var rest := Relay(s1, frames[1..], closedWins);
      assert Relay(s, frames, closedWins) == (rest.0, [] + rest.1);
      assert [] + rest.1 == rest.1;
      assert s1.queue + frames[1..] == s.queue + frames;
    } else {
      assert s.queue + frames == s.queue;
    }
  }

  /** The relay after `i` frames. */
  lemma RelayStep(s: ConnState, frames: seq<string>, i: nat, closedWins: bool)
    requires i < |frames|
    ensures var (s1, out) := RelayOne(s, frames[i], closedWins);
            Relay(s, frames[i..], closedWins) ==
              (Relay(s1, frames[i + 1..], closedWins).0, out + Relay(s1, frames[i + 1..], closedWins).1)
  {
    assert frames[i..][1..] == frames[i + 1..];
  }

  /** One pass of the read loop. */
  method ForwardFrame(c: WrapperConnection, frame: string, closedWins: bool) returns (out: seq<string>)
    modifies c
    ensures (c.State(), out) == RelayOne(old(c.State()), frame, closedWins)
  {
    if c.status != Connected {
      return [NotConnectedReply(c.State())];
    }
    var err := c.SendMessage(frame, closedWins);
    out := if err.Some? then ["Error sending command: " + err.value] else [];
  }

  /** The read loop proper, on the subscribed connection. */
  method Forward(c: WrapperConnection, frames: seq<string>, closedWins: bool) returns (replies: seq<string>)
    modifies c
    ensures (c.State(), replies) == Relay(old(c.State()), frames, closedWins)
  {
    replies := [];
    assert frames[0..] == frames;
    assert [] + Relay(c.State(), frames, closedWins).1 == Relay(c.State(), frames, closedWins).1;
    var i := 0;
    while i < |frames|
      invariant 0 <= i <= |frames|
      invariant Relay(old(c.State()), frames, closedWins) ==
                  (Relay(c.State(), frames[i..], closedWins).0, replies + Relay(c.State(), frames[i..], closedWins).1)
    {
      RelayStep(c.State(), frames, i, closedWins);
      var out := ForwardFrame(c, frames[i], closedWins);
      assert replies + (out + Relay(c.State(), frames[i + 1..], closedWins).1)
          == (replies + out) + Relay(c.State(), frames[i + 1..], closedWins).1;
      replies := replies + out;
      i := i + 1;
    }
    assert frames[i..] == [];
    assert replies + [] == replies;
  }

  /** The socket's life after the upgrade: subscribed to the wrapper's
      output, the read loop, then unsubscribed. */
  method Subscribe(c: WrapperConnection, client: ClientId, frames: seq<string>, closedWins: bool)
    returns (replies: seq<string>)
    modifies c
    ensures var subscribed := old(c.State()).(clients := old(c.clients) + {client});
            && replies == Relay(subscribed, frames, closedWins).1
            && c.State() == Relay(subscribed, frames, closedWins).0.(clients := old(c.clients) - {client})
    ensures c.done == old(c.done) && (old(c.Valid()) ==> c.Valid())
  {
    c.AddClient(client);
    RelayAccounts(c.State(), frames, closedWins);
    replies := Forward(c, frames, closedWins);
    c.RemoveClient(client);
  }

  class CentralServer {
    const manager: ConnectionManager
    const authKey: string
    var clients: set<ClientId>

    ghost predicate Valid()
      reads this, manager, manager.connections.Values
    {
      manager.Valid()
    }

    constructor (manager: ConnectionManager, authKey: string)
      ensures this.manager == manager && this.authKey == authKey && clients == {}
    {
      this.manager, this.authKey := manager, authKey;
      clients := {};
    }

    /** GET /api/wrappers: every registered connection. */
    method HandleWrappers(verb: string) returns (reply: Reply)
      ensures verb != "GET" ==> reply == HttpError(StatusMethodNotAllowed, "Method not allowed")
      ensures verb == "GET" ==>
                && reply.WrapperList?
                && |reply.wrappers| == |manager.connections|
                && forall c :: c in reply.wrappers <==> c in manager.connections.Values
    {
      if verb != "GET" {
        return HttpError(StatusMethodNotAllowed, "Method not allowed");
      }
      var list := manager.ListConnections();
      reply := WrapperList(list);
    }

    /** GET /api/serverstatus?wrapper=ID: the game server's status
        behind that wrapper; `ping` is the outcome of the status probe. */
    method HandleServerStatus(verb: string, wrapperId: string, portOverride: string, ping: Raknet.PingOutcome)
      returns (reply: Reply)
      requires ping.PingReply? ==> |Raknet.Split(ping.data, Raknet.Semicolon)| >= 12
      ensures var pre := Precheck(verb, Some("GET"), wrapperId, manager.connections.Keys);
              pre.Some? ==> reply == pre.value
      ensures Precheck(verb, Some("GET"), wrapperId, manager.connections.Keys).None? ==>
                match GetServerStatus(manager.connections[wrapperId].address, portOverride, ping)
                case Ok(status) => reply == StatusJson(status)
                case Err(message) => reply == HttpError(StatusInternalServerError, message)
    {
      var pre := Precheck(verb, Some("GET"), wrapperId, manager.connections.Keys);
      if pre.Some? {
        return pre.value;
      }
      var c, found := manager.GetConnection(wrapperId);
      match GetServerStatus(c.address, portOverride, ping) {
        case Ok(status) => reply := StatusJson(status);
        case Err(message) => reply := HttpError(StatusInternalServerError, message);
      }
    }

    /** POST /api/retry?wrapper=ID: a manual reconnection. */
    method HandleRetry(verb: string, wrapperId: string) returns (reply: Reply)
      requires Valid()
      modifies manager.connections.Values
      ensures Valid()
      ensures var pre := Precheck(verb, Some("POST"), wrapperId, manager.connections.Keys);
              pre.Some? ==> reply == pre.value && unchanged(manager.connections.Values)
      ensures Precheck(verb, Some("POST"), wrapperId, manager.connections.Keys).None? ==>
                var c := manager.connections[wrapperId];
                var r := RetryStep(old(c.State()));
                && c.State() == r.0
                && reply == (if r.1.None? then StatusOnly(StatusOK) else HttpError(StatusInternalServerError, r.1.value))
                && forall k :: k in manager.connections && k != wrapperId ==> unchanged(manager.connections[k])
    {
      var pre := Precheck(verb, Some("POST"), wrapperId, manager.connections.Keys);
      if pre.Some? {
        return pre.value;
      }
      var c, found := manager.GetConnection(wrapperId);
      var err := c.Retry();
      if err.Some? {
        return HttpError(StatusInternalServerError, err.value);
      }
      reply := StatusOnly(StatusOK);
    }

    /** GET /ws?wrapper=ID: the browser socket. `upgradeOk` says whether
        the WebSocket upgrade succeeded, `client` is the new socket,
        `frames` are the browser's messages up to the read error that
        ends the loop, and `closedWins` resolves SendMessage's select.
        Before the upgrade the request may be refused; after it the
        socket is subscribed to the wrapper's output for the length of
        the loop and unsubscribed when it ends. */
    method HandleWebSocket(wrapperId: string, upgradeOk: bool, client: ClientId,
                           frames: seq<string>, closedWins: bool)
      returns (refusal: Option<Reply>, replies: seq<string>)
      requires Valid()
      modifies this, manager.connections.Values
      ensures Valid()
      ensures var pre := Precheck("", None, wrapperId, manager.connections.Keys);
              pre.Some? ==> refusal == pre && replies == []
                            && clients == old(clients) && unchanged(manager.connections.Values)
      ensures Precheck("", None, wrapperId, manager.connections.Keys).None? && !upgradeOk ==>
                refusal == None && replies == []
                && clients == old(clients) && unchanged(manager.connections.Values)
      ensures Precheck("", None, wrapperId, manager.connections.Keys).None? && upgradeOk ==>
                var c := manager.connections[wrapperId];
                var subscribed := old(c.State()).(clients := old(c.clients) + {client});
                && refusal == None
                && replies == Relay(subscribed, frames, closedWins).1
                && c.State() == Relay(subscribed, frames, closedWins).0.(clients := old(c.clients) - {client})
                && clients == old(clients) - {client}
                && forall k :: k in manager.connections && k != wrapperId ==> unchanged(manager.connections[k])
    {
      refusal := Precheck("", None, wrapperId, manager.connections.Keys);
      replies := [];
      if refusal.Some? {
        return;
      }
      var c, found := manager.GetConnection(wrapperId);
      if !upgradeOk {
        return;
      }
      clients := clients + {client};
      replies := Subscribe(c, client, frames, closedWins);
      clients := clients - {client};
    }
  }
}

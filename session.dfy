/** The connection bookkeeping of `EnsimeClient` as functions on a state value: `connect`, `send`,
    `send_request`, `disconnect` and `teardown`. The websocket is a scripted `Link` that says
    which of the coming connection attempts and sends fail, counts the attempts and records what
    the server received. The class in module `Client` is proved to follow these functions. */
module Session {
  import opened Wrappers
  import opened Json

  /** A request object: the part of the outbound message under `req`. */
  type Request = map<string, Json>

  /** What the client knows of a server: its address and whether it reports running. */
  datatype Server = Server(address: string, isRunning: bool)

  /** The message `send_request` serialises: `{"callId": ..., "req": ...}`. */
  datatype Envelope = Envelope(callId: nat, req: Request)

  /** The transport, as scripts of outcomes: `creates[k]` says whether the `k`-th coming call of
      `create_connection` succeeds and `sends[k]` whether the `k`-th coming `ws.send` does (a
      failure raises a websocket error); once a script is used up every further call succeeds.
      `attempts` counts the calls of `create_connection`, and `delivered` holds the messages the
      server received, in order. */
  datatype Link = Link(creates: seq<bool>, sends: seq<bool>, attempts: nat, delivered: seq<Envelope>)

  /** Whether the next scripted call succeeds. */
  predicate Succeeds(script: seq<bool>)
  {
    script == [] || script[0]
  }

  /** The script once its next call is made. */
  function Next(script: seq<bool>): seq<bool>
  {
    if script == [] then [] else script[1..]
  }

  /** Whether every scripted call succeeds. */
  predicate AllSucceed(script: seq<bool>)
  {
    forall i :: 0 <= i < |script| ==> script[i]
  }

  /** A script never grows: outcomes are consumed, never added. */
  predicate Consumed(later: seq<bool>, earlier: seq<bool>)
  {
    |later| <= |earlier|
  }

  /** The client fields involved in connecting and sending. */
  datatype State = State(
    connected: bool,
    running: bool,
    server: Option<Server>,
    retries: nat,
    callId: nat,
    link: Link)

  /** The connection budget a new client starts with. */
  const InitialRetries: nat := 6

  /** The handshake sent after every successful connection. */
  const ConnectionInfoReq: Request := map["typehint" := Str("ConnectionInfoReq")]

  /** The state of a freshly constructed client over the given transport. */
  function Initial(link: Link): State
  {
    State(false, false, None, InitialRetries, 0, link)
  }

  /** A connected client knows its server. */
  predicate Valid(s: State)
  {
    s.connected ==> s.server.Some?
  }

  /** What every operation below keeps: the budget of connection attempts plus the attempts made
      never grows, call ids only grow, what the server received is only extended, the scripts
      never grow, and polling once started stays started. */
  predicate Progress(s: State, r: State)
  {
    && r.retries <= s.retries
    && r.link.attempts + r.retries <= s.link.attempts + s.retries
    && s.callId <= r.callId
    && s.link.delivered <= r.link.delivered
    && Consumed(r.link.creates, s.link.creates)
    && Consumed(r.link.sends, s.link.sends)
    && (s.running ==> r.running)
    && (Valid(s) ==> Valid(r))
  }

  /** Whether `connect` returns at once: already connected without `reconnect`, or out of budget. */
  predicate ConnectReturnsEarly(s: State, reconnect: bool)
  {
    (s.connected && !reconnect) || s.retries < 1
  }

  /** `connect(server, reconnect)`. After the early returns the budget is spent before the server
      is looked at; a failed `create_connection` leaves the client disconnected; a successful one
      records the server, starts polling and sends the handshake. */
  function Connect(s: State, server: Option<Server>, reconnect: bool): (r: State)
    ensures Progress(s, r)
    ensures ConnectReturnsEarly(s, reconnect) ==> r == s
    ensures !ConnectReturnsEarly(s, reconnect) ==> r.retries < s.retries
    decreases s.retries, 0
  {
    if ConnectReturnsEarly(s, reconnect) then s
    else
      var s1 := s.(retries := s.retries - 1);
      if server.None? || !server.value.isRunning then s1
      else if !Succeeds(s1.link.creates) then
        s1.(connected := false,
            link := s1.link.(creates := Next(s1.link.creates), attempts := s1.link.attempts + 1))
      else
        var s2 := s1.(connected := true, server := server, running := true,
                      link := s1.link.(creates := Next(s1.link.creates), attempts := s1.link.attempts + 1));
        SendRequest(s2, ConnectionInfoReq).0
  }

  /** One `ws.send`: it consumes the next outcome of the script, and either delivers the message
      or raises. */
  function Transmit(link: Link, env: Envelope): (Link, bool)
  {
    if Succeeds(link.sends) then (link.(sends := Next(link.sends), delivered := link.delivered + [env]), true)
    else (link.(sends := Next(link.sends)), false)
  }

  /** `send(msg)`: nothing happens unless polling runs and the client is connected. A failed send
      reconnects to the last server and, once connected again, sends once more; a failure of that
      second send is swallowed by the error handler. */
  function Send(s: State, env: Envelope): (r: State)
    ensures Progress(s, r)
    ensures !(s.running && s.connected) ==> r == s
    decreases s.retries, 1
  {
    if !(s.running && s.connected) then s
    else
      var (link1, ok) := Transmit(s.link, env);
      var s1 := s.(link := link1);
      if ok then s1
      else
        var s2 := Connect(s1, s1.server, true);
        if s2.connected then s2.(link := Transmit(s2.link, env).0) else s2
  }

  /** `send_request(request)`: wraps the request with the current call id, sends it, then moves
      the counter on by one and returns the counter's value from before that step. */
  function SendRequest(s: State, req: Request): (r: (State, nat))
    ensures Progress(s, r.0)
    ensures r.0.callId == r.1 + 1 && s.callId <= r.1
    decreases s.retries, 2
  {
    var s1 := Send(s, Envelope(s.callId, req));
    (s1.(callId := s1.callId + 1), s1.callId)
  }

  /** `disconnect()`: closes a connected client's socket (the transport does not record closing). */
  function Disconnect(s: State): (r: State)
    ensures !r.connected
    ensures r == s.(connected := false)
  {
    if s.connected then s.(connected := false) else s
  }

  /** `teardown()`: stops polling and disconnects. */
  function Teardown(s: State): (r: State)
    ensures !r.running && !r.connected
    ensures r == s.(running := false, connected := false)
  {
    Disconnect(s.(running := false))
  }

  /** Sending requests one after another, collecting the ids `send_request` returns. */
  function SendAll(s: State, reqs: seq<Request>): (r: (State, seq<nat>))
    ensures |r.1| == |reqs|
    ensures Progress(s, r.0)
    decreases reqs
  {
    if reqs == [] then (s, [])
    else
      var (s1, id) := SendRequest(s, reqs[0]);
      var (s2, ids) := SendAll(s1, reqs[1..]);
      (s2, [id] + ids)
  }

  /** The ids `send_request` returns strictly increase, start no lower than the counter and stay
      below its final value, whatever the transport does. */
  lemma {:induction false} ReturnedIdsIncrease(s: State, reqs: seq<Request>)
    ensures var ids := SendAll(s, reqs).1;
      && (forall i, j :: 0 <= i < j < |ids| ==> ids[i] < ids[j])
      && (forall i :: 0 <= i < |ids| ==> s.callId <= ids[i] < SendAll(s, reqs).0.callId)
    decreases reqs
  {
    if reqs != [] {
      var first := SendRequest(s, reqs[0]);
      ReturnedIdsIncrease(first.0, reqs[1..]);
      assert forall i :: 0 <= i < |SendAll(first.0, reqs[1..]).1| ==> first.0.callId <= SendAll(first.0, reqs[1..]).1[i];
      var rest := SendAll(first.0, reqs[1..]);
      var ids := [first.1] + rest.1;
      assert SendAll(s, reqs) == (rest.0, ids);
      assert forall i :: 1 <= i < |ids| ==> ids[i] == rest.1[i - 1];
    }
  }

  /** Over a working connection each request goes out with the current id, that id is returned and
      the counter moves on by exactly one. */
  lemma SendRequestDelivers(s: State, req: Request)
    requires s.running && s.connected && Succeeds(s.link.sends)
    ensures var (r, id) := SendRequest(s, req);
      && id == s.callId && r.callId == s.callId + 1
      && r == s.(callId := s.callId + 1,
                 link := s.link.(sends := Next(s.link.sends),
                                 delivered := s.link.delivered + [Envelope(s.callId, req)]))
  {
  }

  /** Over a working connection `n` requests get the ids `c, c + 1, ..., c + n - 1` and reach the
      server in order, each carrying its id. */
  lemma {:induction false} SequentialIds(s: State, reqs: seq<Request>)
    requires s.running && s.connected && AllSucceed(s.link.sends)
    ensures var (r, ids) := SendAll(s, reqs);
      && (forall i :: 0 <= i < |ids| ==> ids[i] == s.callId + i)
      && r.callId == s.callId + |reqs|
      && r.link.delivered == s.link.delivered + seq(|reqs|, i requires 0 <= i < |reqs| => Envelope(s.callId + i, reqs[i]))
      && r.connected && r.running && r.retries == s.retries
    decreases reqs
  {
    if reqs != [] {
      var (s1, id) := SendRequest(s, reqs[0]);
      SendRequestDelivers(s, reqs[0]);
      assert forall i :: 0 <= i < |s1.link.sends| ==> s1.link.sends[i] == s.link.sends[i + 1];
      SequentialIds(s1, reqs[1..]);
      var (r, ids) := SendAll(s1, reqs[1..]);
      var sent := seq(|reqs|, i requires 0 <= i < |reqs| => Envelope(s.callId + i, reqs[i]));
      var rest := seq(|reqs| - 1, i requires 0 <= i < |reqs| - 1 => Envelope(s1.callId + i, reqs[1..][i]));
      assert sent == [Envelope(s.callId, reqs[0])] + rest;
    }
  }

  /** Past the early returns the budget drops by one before the server is checked: no server, or a
      server that is not running, costs one unit and changes nothing else. */
  lemma ConnectWithoutServer(s: State, server: Option<Server>, reconnect: bool)
    requires !ConnectReturnsEarly(s, reconnect)
    requires server.None? || !server.value.isRunning
    ensures Connect(s, server, reconnect) == s.(retries := s.retries - 1)
  {
  }

  /** A failed `create_connection` costs one unit of budget and leaves the client disconnected. */
  lemma ConnectFailure(s: State, server: Server, reconnect: bool)
    requires !ConnectReturnsEarly(s, reconnect)
    requires server.isRunning && !Succeeds(s.link.creates)
    ensures var r := Connect(s, Some(server), reconnect);
      && !r.connected
      && r == s.(connected := false, retries := s.retries - 1,
                 link := s.link.(creates := s.link.creates[1..], attempts := s.link.attempts + 1))
  {
  }

  /** A successful connection records the server, starts polling, and sends the handshake with the
      next call id, which it consumes. */
  lemma ConnectSuccess(s: State, server: Server, reconnect: bool)
    requires !ConnectReturnsEarly(s, reconnect)
    requires server.isRunning && Succeeds(s.link.creates) && Succeeds(s.link.sends)
    ensures var r := Connect(s, Some(server), reconnect);
      && r.connected && r.running && r.server == Some(server)
      && r.retries == s.retries - 1 && r.callId == s.callId + 1
      && r.link == s.link.(creates := Next(s.link.creates), sends := Next(s.link.sends),
                           attempts := s.link.attempts + 1,
                           delivered := s.link.delivered + [Envelope(s.callId, ConnectionInfoReq)])
  {
    var s2 := s.(retries := s.retries - 1, connected := true, server := Some(server), running := true,
                 link := s.link.(creates := Next(s.link.creates), attempts := s.link.attempts + 1));
    SendRequestDelivers(s2, ConnectionInfoReq);
  }

  /** A new client that connects to a running server sends the handshake first, with call id 0. */
  lemma HandshakeComesFirst(link: Link, server: Server)
    requires server.isRunning && Succeeds(link.creates) && Succeeds(link.sends) && link.delivered == []
    ensures var r := Connect(Initial(link), Some(server), false);
      && r.connected && r.link.delivered == [Envelope(0, ConnectionInfoReq)]
      && r.retries == InitialRetries - 1 && r.callId == 1
  {
    ConnectSuccess(Initial(link), server, false);
  }

  /** `connect` called `n` times in a row. */
  function ConnectTimes(s: State, server: Option<Server>, n: nat): (r: State)
    ensures Progress(s, r)
    decreases n
  {
    if n == 0 then s else ConnectTimes(Connect(s, server, false), server, n - 1)
  }

  /** Against a server that cannot be reached — absent, not running, or with every connection
      attempt failing — `b` calls of `connect` use up a budget of `b`, and any further call
      leaves the state alone without touching the transport. A budget of `b` therefore allows at
      most `b` connection attempts. */
  lemma {:induction false} ExhaustBudget(s: State, server: Option<Server>, n: nat)
    requires !s.connected && n >= s.retries
    requires server.Some? && server.value.isRunning ==>
      s.retries <= |s.link.creates| && forall i :: 0 <= i < s.retries ==> !s.link.creates[i]
    ensures var r := ConnectTimes(s, server, n);
      && r.retries == 0 && !r.connected
      && r.link.attempts <= s.link.attempts + s.retries
      && Connect(r, server, false) == r
    decreases n
  {
    if n > 0 {
      var s1 := Connect(s, server, false);
      if s.retries == 0 {
        ExhaustBudget(s1, server, n - 1);
      } else {
        assert !s1.connected && s1.retries == s.retries - 1;
        if server.Some? && server.value.isRunning {
          assert forall i :: 0 <= i < |s1.link.creates| ==> s1.link.creates[i] == s.link.creates[i + 1];
        }
        ExhaustBudget(s1, server, n - 1);
      }
    }
  }

  /** `disconnect` twice is `disconnect` once. */
  lemma DisconnectIdempotent(s: State)
    ensures Disconnect(Disconnect(s)) == Disconnect(s)
  {
  }

  /** A send that fails over a live connection reconnects first, and the handshake of that
      reconnection goes out with the very call id of the request being sent: both messages reach
      the server with id `c`, and `send_request` returns `c + 1`. */
  lemma ReconnectReusesCallId(s: State, server: Server, req: Request)
    requires s.running && s.connected && s.server == Some(server) && server.isRunning
    requires s.retries >= 1 && Succeeds(s.link.creates)
    requires !Succeeds(s.link.sends) && AllSucceed(s.link.sends[1..])
    ensures var (r, id) := SendRequest(s, req);
      && r.link.delivered == s.link.delivered + [Envelope(s.callId, ConnectionInfoReq), Envelope(s.callId, req)]
      && id == s.callId + 1 && r.callId == s.callId + 2
  {
    var s1 := s.(link := s.link.(sends := s.link.sends[1..]));
    ConnectSuccess(s1, server, true);
  }

  /** A send that fails when the server has gone away — the send fails and so does the
      reconnection — loses the request without an error: nothing more reaches the server, the
      client ends disconnected with one unit of budget spent, and the id is still handed out. */
  lemma LostConnection(s: State, server: Server, req: Request)
    requires s.running && s.connected && s.server == Some(server) && server.isRunning
    requires s.retries >= 1 && !Succeeds(s.link.creates) && !Succeeds(s.link.sends)
    ensures var (r, id) := SendRequest(s, req);
      && r.link.delivered == s.link.delivered && !r.connected
      && r.retries == s.retries - 1 && id == s.callId && r.callId == s.callId + 1
  {
    var s1 := s.(link := s.link.(sends := s.link.sends[1..]));
    ConnectFailure(s1, server, true);
  }

  /** Once disconnected, requests reach nobody: each is dropped and still consumes an id. */
  lemma DisconnectedDropsRequests(s: State, reqs: seq<Request>)
    requires !s.connected
    ensures var (r, ids) := SendAll(s, reqs);
      r == s.(callId := s.callId + |reqs|) && forall i :: 0 <= i < |ids| ==> ids[i] == s.callId + i
    decreases reqs
  {
    if reqs != [] {
      DisconnectedDropsRequests(s.(callId := s.callId + 1), reqs[1..]);
    }
  }
}

/**
 * The Gateway client as the source writes it: a class whose methods flip
 * its fields step by step, one public method per stimulus. Every method is
 * proved to keep the invariant and to perform exactly the transition of
 * the matching function of module GatewaySpec, so everything proved there
 * about the transitions holds of the class. The private steps (arming and
 * clearing a timer, sending a frame, settling a promise) each change only
 * a few fields and are specified the same way.
 */
module Gateway {
  import opened Values
  import opened GatewayProtocol
  import S = GatewaySpec
  import P = GatewayProofs
  import Q = GatewayProperties

  class OpenClawClient {
    const url: string
    const token: string
    /** Whether `new URL(url)` succeeds; URL syntax itself is not modelled. */
    const urlParses: bool

    var ws: Option<nat>
    var connected: bool
    var authenticated: bool
    var connecting: Option<nat>
    var autoReconnect: bool
    var reconnectTimer: Option<nat>
    var pendingRequests: map<Id, S.Handler>

    /** The fresh-id oracle behind `crypto.randomUUID()`, socket handles, timer handles and promises. */
    var nextId: nat

    // The parts of the runtime the client acts on.
    var sockets: map<nat, S.Socket>
    var timers: map<S.Timer, nat>
    var attempts: map<nat, S.Outcome>
    var calls: map<Id, S.CallSlot>
    var reconnectWaits: set<nat>
    var outbox: seq<S.Sent>
    var emitted: seq<S.Emission>

    function State(): S.ClientState
      reads this
    {
      S.ClientState(token, urlParses, ws, connected, authenticated, connecting, autoReconnect, reconnectTimer,
                    pendingRequests, nextId, sockets, timers, attempts, calls, reconnectWaits, outbox, emitted)
    }

    ghost predicate Valid()
      reads this
    {
      S.Inv(State())
    }

    constructor(url: string, token: string, urlParses: bool)
      ensures Valid() && State() == S.Initial(token, urlParses) && this.url == url
    {
      this.url := url;
      this.token := token;
      this.urlParses := urlParses;
      ws := None;
      connected := false;
      authenticated := false;
      connecting := None;
      autoReconnect := true;
      reconnectTimer := None;
      pendingRequests := map[];
      nextId := 0;
      sockets := map[];
      timers := map[];
      attempts := map[];
      calls := map[];
      reconnectWaits := {};
      outbox := [];
      emitted := [];
      P.InitialInv(token, urlParses);
    }

    // -------------------------------------------------------------------
    // Steps shared by several handlers
    // -------------------------------------------------------------------

    /** `setTimeout(callback, ms)`. */
    method SetTimeout(t: S.Timer, ms: nat)
      modifies this
      ensures State() == old(State()).(timers := old(timers)[t := ms])
    {
      timers := timers[t := ms];
    }

    /** `clearTimeout(t)`, or the runtime retiring a timer that fired. */
    method ClearTimeout(t: S.Timer)
      modifies this
      ensures State() == S.ClearTimer(old(State()), t)
    {
      timers := timers - {t};
    }

    /** `this.emit(e)`. */
    method Emit(e: S.Emission)
      modifies this
      ensures State() == old(State()).(emitted := old(emitted) + [e])
    {
      emitted := emitted + [e];
    }

    /** `this.ws!.send(frame)`; `threw` says whether it throws. */
    method Send(f: Frame) returns (threw: bool)
      requires ws.Some? ==> ws.value in sockets
      modifies this
      ensures State() == S.Transmit(old(State()), f) && threw == S.SendThrows(old(State()))
    {
      if ws.None? {
        return true;
      }
      var ready := sockets[ws.value].ready;
      if ready == S.Open {
        outbox := outbox + [S.Sent(ws.value, f)];
      }
      threw := ready == S.Connecting;
    }

    /** `this.ws?.close()`. */
    method CloseCurrent()
      modifies this
      ensures State() == S.CloseCurrent(old(State()))
    {
      if ws.Some? && ws.value in sockets {
        sockets := sockets[ws.value := S.CloseSocket(sockets[ws.value])];
      }
    }

    /** `connected`, `authenticated` and `connecting` reset. */
    method ResetFlags()
      modifies this
      ensures State() == old(State()).(connected := false, authenticated := false, connecting := None)
    {
      connected := false;
      authenticated := false;
      connecting := None;
    }

    method ScheduleReconnect()
      modifies this
      ensures State() == S.ScheduleReconnect(old(State()))
    {
      if reconnectTimer.Some? || !autoReconnect {
        return;
      }
      var h := nextId;
      nextId := nextId + 1;
      SetTimeout(S.ReconnectTimer(h), S.ReconnectDelayMs);
      reconnectTimer := Some(h);
    }

    /** The `resolve` of connect attempt `a`. */
    method ResolveAttempt(a: nat)
      modifies this
      ensures State() == S.ResolveAttempt(old(State()), a)
    {
      if a in attempts && attempts[a].Waiting? {
        attempts := attempts[a := S.Resolved(None)];
        reconnectWaits := reconnectWaits - {a};
      }
    }

    /** The `reject` of connect attempt `a`; the reconnect loop's `catch` runs if it awaits `a`. */
    method RejectAttempt(a: nat, reason: string)
      modifies this
      ensures State() == S.RejectAttempt(old(State()), a, reason)
    {
      if a in attempts && attempts[a].Waiting? {
        var awaited := a in reconnectWaits;
        attempts := attempts[a := S.Rejected(reason)];
        reconnectWaits := reconnectWaits - {a};
        if awaited {
          ScheduleReconnect();
        }
      }
    }

    /** The `resolve` or `reject` of call `id`'s promise. */
    method SettleCall(id: Id, o: S.Outcome)
      modifies this
      ensures State() == S.SettleCall(old(State()), id, o)
    {
      if id in calls && calls[id].outcome.Waiting? {
        calls := calls[id := calls[id].(outcome := o)];
      }
    }
  
    // -------------------------------------------------------------------
    // connect()
    // -------------------------------------------------------------------

    method Connect() returns (r: S.ConnectReturn)
      requires Valid()
      modifies this
      ensures Valid()
      ensures State() == S.Connect(old(State())) && r == S.ConnectResult(old(State()))
    {
      ghost var s := State();
      if connected && ws.Some? && sockets[ws.value].ready == S.Open {
        Q.ConnectIdempotent(s);
        return S.AlreadyConnected;
      }
      if connecting.Some? {
        Q.ConnectJoinsInFlight(s);
        return S.Joined(connecting.value);
      }
      r := StartAttempt();
      P.ConnectInv(s);
    }

    /** The executor of a new attempt, then the assignment `this.connecting = ...`. */
    method StartAttempt() returns (r: S.ConnectReturn)
      requires Valid()
      modifies this
      ensures State() == S.StartAttempt(old(State())) && r == S.Started(old(nextId))
    {
      ghost var s := State();
      var a := NewAttempt();
      TearDownCurrent();
      ghost var s1 := State();
      if urlParses {
        OpenSocket(a);
        connecting := Some(a);
        assert State() == S.OpenSocket(s1, a);
      } else {
        FailUrl(a);
        connecting := Some(a);
        assert State() == S.FailUrl(s1, a);
      }
      r := S.Started(a);
    }

    /** The promise of a new attempt, drawn from the oracle. */
    method NewAttempt() returns (a: nat)
      modifies this
      ensures State() == S.NewAttempt(old(State())) && a == old(nextId)
    {
      a := nextId;
      nextId := nextId + 1;
      attempts := attempts[a := S.Waiting];
    }

    /** The executor's first step: detach every handler of the stale socket, close it, forget it. */
    method TearDownCurrent()
      requires ws.Some? ==> ws.value in sockets
      modifies this
      ensures State() == S.TearDown(old(State()))
    {
      if ws.Some? {
        var k := sockets[ws.value].(onclose := false, handlers := false);
        sockets := sockets[ws.value := S.CloseSocket(k)];
        ws := None;
      }
    }

    /** `new WebSocket(url)` with its handlers attached, then its connection timeout armed. */
    method OpenSocket(a: nat)
      modifies this
      ensures State() == S.OpenSocket(old(State()), a).(connecting := old(connecting))
    {
      var k := nextId;
      nextId := nextId + 1;
      sockets := sockets[k := S.Socket(a, S.Connecting, true, true)];
      ws := Some(k);
      SetTimeout(S.ConnectTimeout(a), S.ConnectTimeoutMs);
    }

    /** `new URL(url)` threw: the executor's catch clears `connecting` and rejects. */
    method FailUrl(a: nat)
      modifies this
      ensures State() == S.FailUrl(old(State()), a).(connecting := None)
    {
      connecting := None;
      attempts := attempts[a := S.Rejected(S.InvalidUrlError)];
    }

    // -------------------------------------------------------------------
    // call(), listSessions(), sendMessage()
    // -------------------------------------------------------------------

    method Call(methodName: string, params: Option<Json>) returns (r: S.CallReturn)
      requires Valid()
      modifies this
      ensures Valid()
      ensures State() == S.Call(old(State()), methodName, params) && r == S.CallResult(old(State()))
    {
      ghost var s := State();
      if ws.None? || !connected || !authenticated {
        return S.Refused(S.NotConnectedError);
      }
      var id := Register(methodName);
      SetTimeout(S.RequestTimeout(id, methodName), S.RequestTimeoutMs);
      ghost var s1 := State();
      assert s1 == S.Register(s, methodName);
      var threw := Send(Req(id, methodName, params));
      if threw {
        SettleCall(id, S.Rejected(S.SendRefusedError));
      }
      P.CallInv(s, methodName, params);
      r := S.Issued(id);
    }

    /** The promise and the pending entry of request `nextId`. */
    method Register(methodName: string) returns (id: Id)
      modifies this
      ensures State() == old(State()).(nextId := old(nextId) + 1,
                                       calls := old(calls)[old(nextId) := S.CallSlot(methodName, S.Waiting)],
                                       pending := old(pendingRequests)[old(nextId) := S.CallerHandler])
      ensures id == old(nextId)
    {
      id := nextId;
      nextId := nextId + 1;
      calls := calls[id := S.CallSlot(methodName, S.Waiting)];
      pendingRequests := pendingRequests[id := S.CallerHandler];
    }

    method ListSessions() returns (r: S.CallReturn)
      requires Valid()
      modifies this
      ensures Valid()
      ensures State() == S.ListSessions(old(State())) && r == S.CallResult(old(State()))
    {
      r := Call(ListSessionsMethod, None);
    }

    method SendMessage(sessionKey: string, content: string) returns (r: S.CallReturn)
      requires Valid()
      modifies this
      ensures Valid()
      ensures State() == S.SendMessage(old(State()), sessionKey, content) && r == S.CallResult(old(State()))
    {
      r := Call(SendMessageMethod, Some(SendMessageParams(sessionKey, content)));
    }

    // -------------------------------------------------------------------
    // disconnect(), isConnected()
    // -------------------------------------------------------------------

    method Disconnect()
      requires Valid()
      modifies this
      ensures Valid()
      ensures State() == S.Disconnect(old(State()))
    {
      ghost var s := State();
      autoReconnect := false;
      CancelReconnect();
      DetachCurrent();
      ResetFlags();
      P.DisconnectInv(s);
    }

    method CancelReconnect()
      modifies this
      ensures State() == S.CancelReconnect(old(State()))
    {
      if reconnectTimer.Some? {
        ClearTimeout(S.ReconnectTimer(reconnectTimer.value));
      }
      reconnectTimer := None;
    }

    /** `onclose` detached from the current socket, which is then closed and forgotten. */
    method DetachCurrent()
      requires ws.Some? ==> ws.value in sockets
      modifies this
      ensures State() == S.DetachCurrent(old(State()))
    {
      if ws.Some? {
        var k := sockets[ws.value].(onclose := false);
        sockets := sockets[ws.value := S.CloseSocket(k)];
        ws := None;
      }
    }

    method IsConnected() returns (b: bool)
      requires ws.Some? ==> ws.value in sockets
      ensures b == S.IsConnected(State())
    {
      b := connected && authenticated && ws.Some? && sockets[ws.value].ready == S.Open;
    }
  
    // -------------------------------------------------------------------
    // Socket callbacks
    // -------------------------------------------------------------------

    /** `onopen` of socket `k`. */
    method SocketOpened(k: nat)
      requires Valid() && S.Enabled(State(), S.SocketOpened(k))
      modifies this
      ensures Valid()
      ensures State() == S.OnOpen(old(State()), k)
    {
      ghost var s := State();
      var handlers := sockets[k].handlers;
      var a := sockets[k].attempt;
      sockets := sockets[k := sockets[k].(ready := S.Open)];
      if handlers {
        ClearTimeout(S.ConnectTimeout(a));
      }
      P.OnOpenInv(s, k);
    }

    /** The peer starts the closing handshake on socket `k`. */
    method PeerClosing(k: nat)
      requires Valid() && S.Enabled(State(), S.PeerClosing(k))
      modifies this
      ensures Valid()
      ensures State() == S.OnPeerClosing(old(State()), k)
    {
      ghost var s := State();
      sockets := sockets[k := sockets[k].(ready := S.Closing)];
      P.OnPeerClosingInv(s, k);
    }

    /** `onerror` of socket `k`. */
    method SocketErrored(k: nat)
      requires Valid()
      modifies this
      ensures Valid()
      ensures State() == S.OnError(old(State()), k)
    {
      ghost var s := State();
      if k !in sockets || !sockets[k].handlers {
        return;
      }
      var a := sockets[k].attempt;
      ClearTimeout(S.ConnectTimeout(a));
      Emit(S.ErrorEvent);
      if !connected {
        connecting := None;
        RejectAttempt(a, S.SocketFailedError);
      }
      P.OnErrorInv(s, k);
    }

    /** `onclose` of socket `k`. */
    method SocketClosed(k: nat)
      requires Valid()
      modifies this
      ensures Valid()
      ensures State() == S.OnClose(old(State()), k)
    {
      ghost var s := State();
      if k !in sockets {
        return;
      }
      var k0 := sockets[k];
      sockets := sockets[k := k0.(ready := S.Closed)];
      if k0.onclose {
        Dropped(k0.attempt);
      }
      P.OnCloseInv(s, k);
    }

    /** The body of `onclose` for attempt `a`. */
    method Dropped(a: nat)
      modifies this
      ensures State() == S.Dropped(old(State()), a)
    {
      ClearTimeout(S.ConnectTimeout(a));
      var wasConnected := connected;
      ResetFlags();
      Emit(S.DisconnectedEvent);
      if autoReconnect && wasConnected {
        ScheduleReconnect();
      }
    }

    /** `onmessage` of socket `k`, with the message already parsed. */
    method MessageReceived(k: nat, m: Message)
      requires Valid()
      modifies this
      ensures Valid()
      ensures State() == S.OnMessage(old(State()), k, m)
    {
      ghost var s := State();
      if k in sockets && sockets[k].handlers {
        HandleMessage(m, sockets[k].attempt);
      }
    }

    /** `handleMessage(data, resolve, reject)`, where `resolve` and `reject` are those of attempt `a`. */
    method HandleMessage(m: Message, a: nat)
      requires Valid()
      modifies this
      ensures Valid()
      ensures State() == S.HandleMessage(old(State()), m, a)
    {
      ghost var s := State();
      if IsChallenge(m) {
        AnswerChallenge(a);
        P.AnswerChallengeInv(s, a);
      } else if IsResponse(m) && m.id.value in pendingRequests {
        RouteResponse(m.id.value, m);
      } else {
        Notify(m);
        P.NotifyInv(s, m);
      }
    }

    /** A response whose id is pending: remove the entry, then complete it. */
    method RouteResponse(id: Id, m: Message)
      requires Valid() && id in pendingRequests
      modifies this
      ensures Valid()
      ensures State() == S.RouteResponse(old(State()), id, m)
    {
      ghost var s := State();
      var h := pendingRequests[id];
      pendingRequests := pendingRequests - {id};
      Complete(id, h, ResponseSettlement(m));
      P.RouteResponseInv(s, id, m);
    }

    /** Emit a named message to `notification` listeners and to listeners of its name. */
    method Notify(m: Message)
      modifies this
      ensures State() == S.Notify(old(State()), m)
    {
      var name := NotificationName(m);
      if name.Some? {
        emitted := emitted + [S.NotificationEvent(m), S.NamedEvent(name.value, NotificationArg(m))];
      }
    }

    /** Register the handshake's pending entry under a fresh id and send the `connect` request. */
    method AnswerChallenge(a: nat)
      requires ws.Some? ==> ws.value in sockets
      modifies this
      ensures State() == S.AnswerChallenge(old(State()), a)
    {
      ghost var s := State();
      var id := RegisterHandshake(a);
      var _ := Send(Req(id, ConnectMethod, Some(AuthParams(token))));
      P.AnswerChallengeSends(s, a);
    }

    /** The handshake's pending entry for attempt `a`, under a fresh id. */
    method RegisterHandshake(a: nat) returns (id: Id)
      modifies this
      ensures id == old(nextId)
      ensures State() == old(State()).(nextId := id + 1, pending := old(pendingRequests)[id := S.AuthHandler(a)])
    {
      id := nextId;
      nextId := nextId + 1;
      pendingRequests := pendingRequests[id := S.AuthHandler(a)];
    }

    /** The entry `h` registered under `id` completes with `st`. */
    method Complete(id: Id, h: S.Handler, st: Settlement)
      requires ws.Some? ==> ws.value in sockets
      modifies this
      ensures State() == S.Complete(old(State()), id, h, st)
    {
      match h
      case AuthHandler(a) =>
        if st.Resolve? {
          AuthSucceeded(a);
        } else {
          AuthFailed(a, st.message);
        }
      case CallerHandler =>
        SettleCall(id, S.CallOutcome(st));
    }

    /** The handshake's `resolve`. */
    method AuthSucceeded(a: nat)
      modifies this
      ensures State() == S.AuthSucceeded(old(State()), a)
    {
      connected := true;
      authenticated := true;
      connecting := None;
      Emit(S.ConnectedEvent);
      ResolveAttempt(a);
    }

    /** The handshake's `reject`. */
    method AuthFailed(a: nat, message: string)
      modifies this
      ensures State() == S.AuthFailed(old(State()), a, message)
    {
      connecting := None;
      CloseCurrent();
      RejectAttempt(a, S.AuthFailedError(message));
    }

    // -------------------------------------------------------------------
    // Timers
    // -------------------------------------------------------------------

    /** The callback of the armed timer `t` runs. */
    method TimerFired(t: S.Timer)
      requires Valid() && t in timers
      modifies this
      ensures Valid()
      ensures State() == S.OnTimer(old(State()), t)
    {
      ghost var s := State();
      ClearTimeout(t);
      match t
      case ConnectTimeout(a) =>
        ConnectTimedOut(a);
        P.OnTimerInv(s, t);
      case RequestTimeout(id, methodName) =>
        RequestTimedOut(id, methodName);
        P.OnTimerInv(s, t);
      case ReconnectTimer(h) =>
        P.ClearReconnectTimer(s, h);
        ReconnectFired();
    }

    /** The connection timeout of attempt `a`. */
    method ConnectTimedOut(a: nat)
      modifies this
      ensures State() == S.ConnectTimedOut(old(State()), a)
    {
      if !connected {
        CloseCurrent();
        RejectAttempt(a, S.ConnectTimeoutError);
      }
    }

    /** The 30 s timeout of request `id`. */
    method RequestTimedOut(id: Id, methodName: string)
      modifies this
      ensures State() == S.RequestTimedOut(old(State()), id, methodName)
    {
      if id in pendingRequests {
        pendingRequests := pendingRequests - {id};
        SettleCall(id, S.Rejected(S.RequestTimeoutError(methodName)));
      }
    }

    /** The reconnect timer's callback. */
    method ReconnectFired()
      requires S.Inv(State().(reconnectTimer := None))
      modifies this
      ensures Valid()
      ensures State() == S.ReconnectFired(old(State()))
    {
      ghost var s := State();
      reconnectTimer := None;
      if autoReconnect {
        var r := Connect();
        AwaitAttempt(r);
      }
      P.ReconnectFiredInv(s);
    }

    /** `await this.connect()` in the reconnect loop, with its `catch`. */
    method AwaitAttempt(r: S.ConnectReturn)
      modifies this
      ensures State() == S.AwaitAttempt(old(State()), r)
    {
      if r.AlreadyConnected? || r.attempt !in attempts {
        return;
      }
      match attempts[r.attempt]
      case Waiting => reconnectWaits := reconnectWaits + {r.attempt};
      case Resolved(_) =>
      case Rejected(_) => ScheduleReconnect();
    }
  }

  /** The URL used when `OPENCLAW_GATEWAY_URL` is unset or empty. */
  const DefaultGatewayUrl := "ws://127.0.0.1:18789"

  /**
   * The module scope of the client file: the two defaults read from the
   * environment when the module loads, and the shared instance that
   * `getOpenClawClient` creates on first use.
   */
  class ClientModule {
    const gatewayUrl: string
    const gatewayToken: string
    /** Whether `new URL(gatewayUrl)` succeeds. */
    const urlParses: bool
    var clientInstance: Option<OpenClawClient>

    constructor(envUrl: Option<string>, envToken: Option<string>, urlParses: bool)
      ensures gatewayUrl == EnvOr(envUrl, DefaultGatewayUrl)
      ensures gatewayToken == EnvOr(envToken, "")
      ensures this.urlParses == urlParses
      ensures clientInstance.None?
    {
      gatewayUrl := EnvOr(envUrl, DefaultGatewayUrl);
      gatewayToken := EnvOr(envToken, "");
      this.urlParses := urlParses;
      clientInstance := None;
    }

    /** `getOpenClawClient()`: the shared client, built with the defaults on first use. */
    method GetOpenClawClient() returns (c: OpenClawClient)
      modifies this
      ensures old(clientInstance).Some? ==> c == old(clientInstance).value && clientInstance == old(clientInstance)
      ensures old(clientInstance).None? ==>
        fresh(c) && clientInstance == Some(c) && c.url == gatewayUrl
        && c.Valid() && c.State() == S.Initial(gatewayToken, urlParses)
    {
      if clientInstance.None? {
        var created := new OpenClawClient(gatewayUrl, gatewayToken, urlParses);
        clientInstance := Some(created);
      }
      c := clientInstance.value;
    }

    /** Every caller of `getOpenClawClient()` shares one client. */
    method SharedInstance() returns (c1: OpenClawClient, c2: OpenClawClient)
      modifies this
      ensures c1 == c2
      ensures old(clientInstance).None? ==> fresh(c1) && c1.State() == S.Initial(gatewayToken, urlParses)
    {
      c1 := GetOpenClawClient();
      c2 := GetOpenClawClient();
    }
  }
}

/**
 * The Gateway client (`OpenClawClient`) as a state machine over values.
 *
 * `ClientState` holds the client's own fields (`ws`, `connected`,
 * `authenticated`, `connecting`, `autoReconnect`, `reconnectTimer`,
 * `pendingRequests`) together with the parts of the world the client acts
 * on: the sockets it has opened, the timers armed in the event loop, the
 * promises it has handed out (set-once outcome slots), the frames it has
 * transmitted and the events it has emitted. One function per stimulus
 * gives the state after that stimulus; the class in module Gateway is
 * proved to perform exactly these transitions.
 */
module GatewaySpec {
  import opened Values
  import opened GatewayProtocol

  const ConnectTimeoutMs: nat := 10000
  const RequestTimeoutMs: nat := 30000
  const ReconnectDelayMs: nat := 10000

  const ConnectTimeoutError := "Connection timeout"
  const SocketFailedError := "Failed to connect to OpenClaw Gateway"
  const NotConnectedError := "Not connected to OpenClaw Gateway"
  /** What `new URL(url)` throws for a URL it cannot parse. */
  const InvalidUrlError := "Invalid URL"
  /** What `WebSocket.send` throws while the socket is still connecting. */
  const SendRefusedError := "InvalidStateError"

  function AuthFailedError(message: string): string {
    "Authentication failed: " + message
  }

  function RequestTimeoutError(methodName: string): string {
    "Request timeout: " + methodName
  }

  /** `WebSocket.readyState`. */
  datatype ReadyState = Connecting | Open | Closing | Closed

  /**
   * A socket the client created: the connect attempt whose executor created
   * it (its handlers close over that attempt's resolve and reject), its
   * ready state, whether `onclose` is still attached, and whether `onopen`,
   * `onerror` and `onmessage` are still attached.
   */
  datatype Socket = Socket(attempt: nat, ready: ReadyState, onclose: bool, handlers: bool)

  /** A `pendingRequests` entry: the handshake's, or an ordinary caller's. */
  datatype Handler = AuthHandler(attempt: nat) | CallerHandler

  /** A promise: settled at most once. */
  datatype Outcome = Waiting | Resolved(value: Option<Json>) | Rejected(reason: string)

  /** The promise returned by `call(method, ...)`. */
  datatype CallSlot = CallSlot(methodName: string, outcome: Outcome)

  /** A timer armed with `setTimeout`. */
  datatype Timer =
    | ConnectTimeout(attempt: nat)
    | RequestTimeout(id: Id, methodName: string)
    | ReconnectTimer(handle: nat)

  /** An event emitted through the client's `EventEmitter`. */
  datatype Emission =
    | ConnectedEvent
    | DisconnectedEvent
    | ErrorEvent
    | NotificationEvent(message: Message)
    | NamedEvent(name: string, arg: NotifyArg)

  /** A frame transmitted on a socket. */
  datatype Sent = Sent(socket: nat, frame: Frame)

  /** What `connect()` hands back: an already-resolved promise, the in-flight attempt, or a new one. */
  datatype ConnectReturn = AlreadyConnected | Joined(attempt: nat) | Started(attempt: nat)

  /** What `call()` hands back: an immediate rejection, or the promise of a registered request. */
  datatype CallReturn = Refused(reason: string) | Issued(id: Id)

  datatype ClientState = ClientState(
    token: string,
    urlParses: bool,
    ws: Option<nat>,
    connected: bool,
    authenticated: bool,
    connecting: Option<nat>,
    autoReconnect: bool,
    reconnectTimer: Option<nat>,
    pending: map<Id, Handler>,
    nextId: nat,
    sockets: map<nat, Socket>,
    timers: map<Timer, nat>,
    attempts: map<nat, Outcome>,
    calls: map<Id, CallSlot>,
    reconnectWaits: set<nat>,
    outbox: seq<Sent>,
    emitted: seq<Emission>)

  /** A newly constructed client. */
  function Initial(token: string, urlParses: bool): ClientState {
    ClientState(token, urlParses, None, false, false, None, true, None, map[], 0,
                map[], map[], map[], map[], {}, [], [])
  }

  // ---------------------------------------------------------------------
  // Helpers shared by several handlers
  // ---------------------------------------------------------------------

  /** `WebSocket.close()`: a connecting or open socket starts closing. */
  function CloseSocket(k: Socket): Socket {
    if k.ready == Connecting || k.ready == Open then k.(ready := Closing) else k
  }

  /** The ready state of `this.ws`, if there is one. */
  function CurrentReady(s: ClientState): Option<ReadyState> {
    if s.ws.Some? && s.ws.value in s.sockets then Some(s.sockets[s.ws.value].ready) else None
  }

  /** The socket table after `ws?.close()` on the socket `ws` names. */
  function ClosedAt(sockets: map<nat, Socket>, ws: Option<nat>): map<nat, Socket> {
    if ws.Some? && ws.value in sockets then sockets[ws.value := CloseSocket(sockets[ws.value])] else sockets
  }

  /** `this.ws?.close()`. */
  function CloseCurrent(s: ClientState): ClientState {
    s.(sockets := ClosedAt(s.sockets, s.ws))
  }

  /** `this.ws.send(frame)` throws: there is no socket, or it is still connecting. */
  predicate SendThrows(s: ClientState) {
    CurrentReady(s).None? || CurrentReady(s) == Some(Connecting)
  }

  /**
   * `this.ws.send(frame)`: an open socket transmits the frame; a closing or
   * closed one drops it silently (and one that throws sends nothing).
   */
  function Transmit(s: ClientState, f: Frame): ClientState {
    s.(outbox := if CurrentReady(s) == Some(Open) then s.outbox + [Sent(s.ws.value, f)] else s.outbox)
  }

  function ClearTimer(s: ClientState, t: Timer): ClientState {
    s.(timers := s.timers - {t})
  }

  /** `scheduleReconnect()`: arm one 10 s timer unless one is armed or reconnects are off. */
  function ScheduleReconnect(s: ClientState): ClientState {
    if s.reconnectTimer.Some? || !s.autoReconnect then s
    else s.(reconnectTimer := Some(s.nextId),
            timers := s.timers[ReconnectTimer(s.nextId) := ReconnectDelayMs],
            nextId := s.nextId + 1)
  }

  /** The connect attempt's `resolve()`. */
  function ResolveAttempt(s: ClientState, a: nat): ClientState {
    if a in s.attempts && s.attempts[a].Waiting?
    then s.(attempts := s.attempts[a := Resolved(None)], reconnectWaits := s.reconnectWaits - {a})
    else s
  }

  /**
   * The connect attempt's `reject(reason)`. When the reconnect loop is
   * awaiting this attempt, its `catch` runs `scheduleReconnect()`.
   */
  function RejectAttempt(s: ClientState, a: nat, reason: string): ClientState {
    if a in s.attempts && s.attempts[a].Waiting? then
      var s1 := s.(attempts := s.attempts[a := Rejected(reason)], reconnectWaits := s.reconnectWaits - {a});
      if a in s.reconnectWaits then ScheduleReconnect(s1) else s1
    else s
  }

  /** Settle the promise of call `id`, if it is still waiting. */
  function SettleCall(s: ClientState, id: Id, o: Outcome): ClientState {
    s.(calls := Settled(s.calls, id, o))
  }

  /** The call table after settling call `id` with `o`, if it is still waiting. */
  function Settled(calls: map<Id, CallSlot>, id: Id, o: Outcome): map<Id, CallSlot> {
    if id in calls && calls[id].outcome.Waiting? then calls[id := calls[id].(outcome := o)] else calls
  }

  // ---------------------------------------------------------------------
  // Public operations
  // ---------------------------------------------------------------------

  /** The socket table after the stale-socket teardown: the current socket has every handler detached and is closed. */
  function TornDown(sockets: map<nat, Socket>, ws: Option<nat>): map<nat, Socket> {
    if ws.Some? && ws.value in sockets
    then sockets[ws.value := CloseSocket(sockets[ws.value].(onclose := false, handlers := false))]
    else sockets
  }

  /** The stale-socket teardown at the start of a new attempt: detach every handler, close, forget. */
  function TearDown(s: ClientState): ClientState {
    s.(sockets := TornDown(s.sockets, s.ws), ws := None)
  }

  /** `connect()` returns at once: the client is connected on an open socket, or an attempt is in flight. */
  predicate ConnectReturnsEarly(s: ClientState) {
    (s.connected && CurrentReady(s) == Some(Open)) || s.connecting.Some?
  }

  /** The promise `connect()` hands back. */
  function ConnectResult(s: ClientState): ConnectReturn {
    if s.connected && CurrentReady(s) == Some(Open) then AlreadyConnected
    else if s.connecting.Some? then Joined(s.connecting.value)
    else Started(s.nextId)
  }

  /** A new connect attempt: its promise is drawn from the oracle, waiting. */
  function NewAttempt(s: ClientState): ClientState {
    s.(nextId := s.nextId + 1, attempts := s.attempts[s.nextId := Waiting])
  }

  /**
   * `new URL(url)` threw inside the executor of attempt `a`: its catch
   * rejects and clears `connecting`, after which the assignment
   * `this.connecting = new Promise(...)` stores the rejected attempt.
   */
  function FailUrl(s: ClientState, a: nat): ClientState {
    s.(attempts := s.attempts[a := Rejected(InvalidUrlError)], connecting := Some(a))
  }

  /** `new WebSocket(url)` for attempt `a`, its handlers attached and its 10 s connection timeout armed. */
  function OpenSocket(s: ClientState, a: nat): ClientState {
    s.(nextId := s.nextId + 1,
       sockets := s.sockets[s.nextId := Socket(a, Connecting, true, true)],
       ws := Some(s.nextId),
       timers := s.timers[ConnectTimeout(a) := ConnectTimeoutMs],
       connecting := Some(a))
  }

  /** The executor of a new attempt. */
  function StartAttempt(s: ClientState): ClientState {
    var a := s.nextId;
    var s1 := TearDown(NewAttempt(s));
    if s1.urlParses then OpenSocket(s1, a) else FailUrl(s1, a)
  }

  /** `connect()`. */
  function Connect(s: ClientState): ClientState {
    if ConnectReturnsEarly(s) then s else StartAttempt(s)
  }

  /** `call()` rejects at once: there is no socket, or the handshake has not completed. */
  predicate CallRefused(s: ClientState) {
    s.ws.None? || !s.connected || !s.authenticated
  }

  /** The promise `call()` hands back. */
  function CallResult(s: ClientState): CallReturn {
    if CallRefused(s) then Refused(NotConnectedError) else Issued(s.nextId)
  }

  /** Register request `nextId`: its promise, its pending entry and its 30 s timeout. */
  function Register(s: ClientState, methodName: string): ClientState {
    s.(nextId := s.nextId + 1,
       calls := s.calls[s.nextId := CallSlot(methodName, Waiting)],
       pending := s.pending[s.nextId := CallerHandler],
       timers := s.timers[RequestTimeout(s.nextId, methodName) := RequestTimeoutMs])
  }

  /** A registered request is sent; when `send` throws, the executor's try/catch rejects its promise. */
  function Issue(s: ClientState, methodName: string, params: Option<Json>): ClientState {
    var id := s.nextId;
    var s1 := Register(s, methodName);
    if SendThrows(s1) then SettleCall(s1, id, Rejected(SendRefusedError))
    else Transmit(s1, Req(id, methodName, params))
  }

  /** `call(method, params)`. */
  function Call(s: ClientState, methodName: string, params: Option<Json>): ClientState {
    if CallRefused(s) then s else Issue(s, methodName, params)
  }

  /** `listSessions()`. */
  function ListSessions(s: ClientState): ClientState {
    Call(s, ListSessionsMethod, None)
  }

  /** `sendMessage(sessionKey, content)`. */
  function SendMessage(s: ClientState, sessionKey: string, content: string): ClientState {
    Call(s, SendMessageMethod, Some(SendMessageParams(sessionKey, content)))
  }

  /** `clearTimeout(this.reconnectTimer)` and forget the handle. */
  function CancelReconnect(s: ClientState): ClientState {
    s.(timers := if s.reconnectTimer.Some? then s.timers - {ReconnectTimer(s.reconnectTimer.value)} else s.timers,
       reconnectTimer := None)
  }

  /** The socket table after `onclose` is detached from the current socket and it is closed (its other handlers stay). */
  function DetachedAt(sockets: map<nat, Socket>, ws: Option<nat>): map<nat, Socket> {
    if ws.Some? && ws.value in sockets then sockets[ws.value := CloseSocket(sockets[ws.value].(onclose := false))] else sockets
  }

  /** Detach `onclose` from the current socket, close it, and forget it. */
  function DetachCurrent(s: ClientState): ClientState {
    s.(sockets := DetachedAt(s.sockets, s.ws), ws := None)
  }

  /** `disconnect()`. */
  function Disconnect(s: ClientState): ClientState {
    DetachCurrent(CancelReconnect(s.(autoReconnect := false)))
      .(connected := false, authenticated := false, connecting := None)
  }

  /** `isConnected()`. */
  predicate IsConnected(s: ClientState) {
    s.connected && s.authenticated && CurrentReady(s) == Some(Open)
  }

  // ---------------------------------------------------------------------
  // Socket callbacks
  // ---------------------------------------------------------------------

  /** `onopen`: clears the attempt's connection timeout. */
  function OnOpen(s: ClientState, k: nat): ClientState {
    if k !in s.sockets then s
    else
      var s1 := s.(sockets := s.sockets[k := s.sockets[k].(ready := Open)]);
      if s.sockets[k].handlers then ClearTimer(s1, ConnectTimeout(s.sockets[k].attempt)) else s1
  }

  /** The peer starts the closing handshake (no callback runs). */
  function OnPeerClosing(s: ClientState, k: nat): ClientState {
    if k !in s.sockets then s
    else s.(sockets := s.sockets[k := s.sockets[k].(ready := Closing)])
  }

  /** `onerror`. */
  function OnError(s: ClientState, k: nat): ClientState {
    if k !in s.sockets || !s.sockets[k].handlers then s
    else
      var a := s.sockets[k].attempt;
      var s1 := ClearTimer(s, ConnectTimeout(a)).(emitted := s.emitted + [ErrorEvent]);
      if !s1.connected then RejectAttempt(s1.(connecting := None), a, SocketFailedError) else s1
  }

  /** `onclose`. */
  function OnClose(s: ClientState, k: nat): ClientState {
    if k !in s.sockets then s
    else
      var k0 := s.sockets[k];
      var s1 := s.(sockets := s.sockets[k := k0.(ready := Closed)]);
      if !k0.onclose then s1 else Dropped(s1, k0.attempt)
  }

  /**
   * The body of `onclose` for attempt `a`: clear its connection timeout,
   * drop the flags, emit `disconnected`, and schedule a reconnect when
   * reconnects are on and the client was connected.
   */
  function Dropped(s: ClientState, a: nat): ClientState {
    var s2 := ClearTimer(s, ConnectTimeout(a));
    var wasConnected := s2.connected;
    var s3 := s2.(connected := false, authenticated := false, connecting := None,
                  emitted := s2.emitted + [DisconnectedEvent]);
    if s3.autoReconnect && wasConnected then ScheduleReconnect(s3) else s3
  }

  /** The handshake's `resolve`: the client is connected and authenticated, and the attempt resolves. */
  function AuthSucceeded(s: ClientState, a: nat): ClientState {
    ResolveAttempt(s.(connected := true, authenticated := true, connecting := None,
                      emitted := s.emitted + [ConnectedEvent]), a)
  }

  /** The handshake's `reject`: the socket is closed and the attempt rejects. */
  function AuthFailed(s: ClientState, a: nat, message: string): ClientState {
    RejectAttempt(CloseCurrent(s.(connecting := None)), a, AuthFailedError(message))
  }

  /** How a caller's promise settles on a response. */
  function CallOutcome(st: Settlement): Outcome {
    match st
    case Resolve(v) => Resolved(v)
    case Reject(msg) => Rejected(msg)
  }

  /** A matched response completes the entry `h` that was registered under `id`. */
  function Complete(s: ClientState, id: Id, h: Handler, st: Settlement): ClientState {
    match h
    case AuthHandler(a) => if st.Resolve? then AuthSucceeded(s, a) else AuthFailed(s, a, st.message)
    case CallerHandler => SettleCall(s, id, CallOutcome(st))
  }

  /**
   * Answer a challenge for attempt `a`: register the handshake's pending
   * entry under a fresh id and send the `connect` request (a throwing
   * `send` is caught and logged by `onmessage`).
   */
  function AnswerChallenge(s: ClientState, a: nat): ClientState {
    Transmit(s.(nextId := s.nextId + 1, pending := s.pending[s.nextId := AuthHandler(a)]),
             Req(s.nextId, ConnectMethod, Some(AuthParams(s.token))))
  }

  /** A response whose id is pending: the entry is removed, then completed. */
  function RouteResponse(s: ClientState, id: Id, m: Message): ClientState
    requires id in s.pending
  {
    Complete(s.(pending := s.pending - {id}), id, s.pending[id], ResponseSettlement(m))
  }

  /** Any other message with a name goes to `notification` listeners and to listeners of that name. */
  function Notify(s: ClientState, m: Message): ClientState {
    if NotificationName(m).Some?
    then s.(emitted := s.emitted + [NotificationEvent(m), NamedEvent(NotificationName(m).value, NotificationArg(m))])
    else s
  }

  /** `handleMessage(data, resolve, reject)` for the attempt `a` whose socket received `m`. */
  function HandleMessage(s: ClientState, m: Message, a: nat): ClientState {
    if IsChallenge(m) then AnswerChallenge(s, a)
    else if IsResponse(m) && m.id.value in s.pending then RouteResponse(s, m.id.value, m)
    else Notify(s, m)
  }

  /** `onmessage`. */
  function OnMessage(s: ClientState, k: nat, m: Message): ClientState {
    if k in s.sockets && s.sockets[k].handlers then HandleMessage(s, m, s.sockets[k].attempt) else s
  }

  // ---------------------------------------------------------------------
  // Timers
  // ---------------------------------------------------------------------

  /** The reconnect loop awaits the promise `connect()` returned. */
  function AwaitAttempt(s: ClientState, r: ConnectReturn): ClientState {
    if r.AlreadyConnected? || r.attempt !in s.attempts then s
    else match s.attempts[r.attempt]
      case Waiting => s.(reconnectWaits := s.reconnectWaits + {r.attempt})
      case Resolved(_) => s
      case Rejected(_) => ScheduleReconnect(s)
  }

  /** The connection timeout of attempt `a`: unless connected, close the current socket and reject. */
  function ConnectTimedOut(s: ClientState, a: nat): ClientState {
    if !s.connected then RejectAttempt(CloseCurrent(s), a, ConnectTimeoutError) else s
  }

  /** The 30 s timeout of request `id`: if it is still pending, remove it and reject its promise. */
  function RequestTimedOut(s: ClientState, id: Id, methodName: string): ClientState {
    if id in s.pending
    then SettleCall(s.(pending := s.pending - {id}), id, Rejected(RequestTimeoutError(methodName)))
    else s
  }

  /** The reconnect timer: forget the handle, and unless reconnects are off, `await this.connect()`. */
  function ReconnectFired(s: ClientState): ClientState {
    var s1 := s.(reconnectTimer := None);
    if !s1.autoReconnect then s1 else AwaitAttempt(Connect(s1), ConnectResult(s1))
  }

  /** The callback of an armed timer runs; a fired timer is no longer armed. */
  function OnTimer(s: ClientState, t: Timer): ClientState {
    match t
    case ConnectTimeout(a) => ConnectTimedOut(ClearTimer(s, t), a)
    case RequestTimeout(id, methodName) => RequestTimedOut(ClearTimer(s, t), id, methodName)
    case ReconnectTimer(_) => ReconnectFired(ClearTimer(s, t))
  }

  // ---------------------------------------------------------------------
  // Runs: the stimuli in any order the runtime may deliver them
  // ---------------------------------------------------------------------

  datatype Event =
    | ConnectCalled
    | CallCalled(methodName: string, params: Option<Json>)
    | DisconnectCalled
    | SocketOpened(socket: nat)
    | PeerClosing(socket: nat)
    | SocketErrored(socket: nat)
    | SocketClosed(socket: nat)
    | MessageReceived(socket: nat, message: Message)
    | TimerFired(timer: Timer)

  /** What the runtime guarantees before it delivers an event. */
  predicate Enabled(s: ClientState, e: Event) {
    match e
    case SocketOpened(k) => k in s.sockets && s.sockets[k].ready == Connecting
    case PeerClosing(k) => k in s.sockets && s.sockets[k].ready == Open
    case SocketErrored(k) => k in s.sockets && s.sockets[k].ready != Closed
    case SocketClosed(k) => k in s.sockets && s.sockets[k].ready != Closed
    case MessageReceived(k, _) => k in s.sockets && s.sockets[k].ready == Open
    case TimerFired(t) => t in s.timers
    case _ => true
  }

  /** One stimulus; an event the runtime would not deliver changes nothing. */
  function Step(s: ClientState, e: Event): ClientState {
    if !Enabled(s, e) then s
    else match e
      case ConnectCalled => Connect(s)
      case CallCalled(methodName, params) => Call(s, methodName, params)
      case DisconnectCalled => Disconnect(s)
      case SocketOpened(k) => OnOpen(s, k)
      case PeerClosing(k) => OnPeerClosing(s, k)
      case SocketErrored(k) => OnError(s, k)
      case SocketClosed(k) => OnClose(s, k)
      case MessageReceived(k, m) => OnMessage(s, k, m)
      case TimerFired(t) => OnTimer(s, t)
  }

  function Run(s: ClientState, es: seq<Event>): ClientState
    decreases |es|
  {
    if es == [] then s else Run(Step(s, es[0]), es[1..])
  }

  // ---------------------------------------------------------------------
  // The invariant
  // ---------------------------------------------------------------------

  /** Every key of `m` was drawn from the oracle before `n`. */
  ghost predicate KeysBelow<V>(m: map<nat, V>, n: nat) {
    forall k :: k in m ==> k < n
  }

  /** The `reconnectTimer` slot names exactly the reconnect timers that are armed: at most one. */
  ghost predicate SlotExact(timers: map<Timer, nat>, slot: Option<nat>) {
    && (forall t :: t in timers && t.ReconnectTimer? ==> slot == Some(t.handle))
    && (slot.Some? ==> ReconnectTimer(slot.value) in timers)
  }

  /**
   * A socket that can still run `onopen`, `onmessage` or `onclose`. A socket
   * that is closing with `onclose` detached but its other handlers attached
   * (as `disconnect()` leaves it) is not live, yet it can still run
   * `onerror`.
   */
  predicate Live(k: Socket) {
    (k.onclose && k.ready != Closed) || (k.handlers && (k.ready == Connecting || k.ready == Open))
  }

  /** `this.ws` is a socket the client created, and no other socket is live. */
  ghost predicate OnlyCurrentLive(sockets: map<nat, Socket>, ws: Option<nat>) {
    && (ws.Some? ==> ws.value in sockets)
    && (forall k :: k in sockets && Live(sockets[k]) ==> ws == Some(k))
  }

  ghost predicate Inv(s: ClientState) {
    && KeysBelow(s.attempts, s.nextId)
    && KeysBelow(s.sockets, s.nextId)
    && KeysBelow(s.calls, s.nextId)
    && KeysBelow(s.pending, s.nextId)
    && SlotExact(s.timers, s.reconnectTimer)
    && OnlyCurrentLive(s.sockets, s.ws)
  }

  /** Every promise of `m` is still there in `m'`, and a settled one keeps its outcome. */
  ghost predicate AttemptsEvolve(m: map<nat, Outcome>, m': map<nat, Outcome>) {
    forall a :: a in m ==> a in m' && (!m[a].Waiting? ==> m'[a] == m[a])
  }

  /** Every call of `m` is still there in `m'` for the same method, and a settled one keeps its outcome. */
  ghost predicate CallsEvolve(m: map<Id, CallSlot>, m': map<Id, CallSlot>) {
    forall id :: id in m ==> id in m' && m'[id].methodName == m[id].methodName
                             && (!m[id].outcome.Waiting? ==> m'[id] == m[id])
  }

  /**
   * How any later state relates to an earlier one: the oracle only moves
   * forward, settled promises keep their outcome, frames sent and events
   * emitted are never taken back, a new pending entry has a fresh id, and
   * once reconnects are off with none armed, that stays so.
   */
  ghost predicate Evolves(s: ClientState, s': ClientState) {
    && s.nextId <= s'.nextId
    && CallsEvolve(s.calls, s'.calls)
    && AttemptsEvolve(s.attempts, s'.attempts)
    && s.outbox <= s'.outbox
    && s.emitted <= s'.emitted
    && PendingFresh(s.pending, s'.pending, s.nextId)
    && (Quiet(s) ==> Quiet(s'))
  }

  /** Every entry of `m'` that is not in `m` was registered under an id drawn at or after `n`. */
  ghost predicate PendingFresh(m: map<Id, Handler>, m': map<Id, Handler>, n: nat) {
    forall id :: id in m' && id !in m ==> id >= n
  }

  /** No socket can run `onopen`, `onmessage` or `onclose`. */
  ghost predicate NoneLive(sockets: map<nat, Socket>) {
    forall k :: k in sockets ==> !Live(sockets[k])
  }

  /** Reconnects are switched off and none is armed. */
  ghost predicate Quiet(s: ClientState) {
    !s.autoReconnect && s.reconnectTimer.None?
  }
}

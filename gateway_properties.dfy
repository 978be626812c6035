/**
 * What one stimulus does to the Gateway client, stated field by field:
 * `connect()`, the challenge and its answer, responses, `call()`, the
 * request and connection timeouts, `onclose`, the reconnect loop,
 * `disconnect()` and notifications.
 */
module GatewayProperties {
  import opened Values
  import opened GatewayProtocol
  import opened GatewaySpec
  import opened GatewayProofs

  // ---------------------------------------------------------------------
  // connect()
  // ---------------------------------------------------------------------

  /** Connected on an open socket, `connect()` returns at once and changes nothing. */
  lemma ConnectIdempotent(s: ClientState)
    requires s.connected && CurrentReady(s) == Some(Open)
    ensures Connect(s) == s && ConnectResult(s) == AlreadyConnected
  {
  }

  /** With an attempt in flight, `connect()` hands back that attempt and opens no second socket. */
  lemma ConnectJoinsInFlight(s: ClientState)
    requires s.connecting.Some? && !(s.connected && CurrentReady(s) == Some(Open))
    ensures Connect(s) == s && ConnectResult(s) == Joined(s.connecting.value)
  {
  }

  lemma StartAttemptOpens(s: ClientState)
    requires !ConnectReturnsEarly(s) && s.urlParses
    ensures Connect(s) == OpenSocket(TearDown(NewAttempt(s)), s.nextId)
  {
  }

  lemma StartAttemptFails(s: ClientState)
    requires !ConnectReturnsEarly(s) && !s.urlParses
    ensures Connect(s) == FailUrl(TearDown(NewAttempt(s)), s.nextId)
  {
  }

  /**
   * A new attempt with a parsable URL: attempt `a` is drawn from the oracle
   * and waits, a fresh socket `k` for it is connecting with all handlers
   * attached, its 10 s timeout is armed, `connecting` holds it, and the
   * previous socket has every handler detached and is closed.
   */
  lemma ConnectStarts(s: ClientState)
    requires Inv(s) && !ConnectReturnsEarly(s) && s.urlParses
    ensures var s', a, k := Connect(s), s.nextId, s.nextId + 1;
      && ConnectResult(s) == Started(a)
      && a !in s.attempts && s'.attempts == s.attempts[a := Waiting]
      && k !in s.sockets && s'.ws == Some(k) && s'.sockets[k] == Socket(a, Connecting, true, true)
      && (s.ws.Some? ==> s'.sockets[s.ws.value] == CloseSocket(s.sockets[s.ws.value].(onclose := false, handlers := false)))
      && (forall j :: j in s'.sockets && j != k ==> !Live(s'.sockets[j]))
      && s'.timers == s.timers[ConnectTimeout(a) := ConnectTimeoutMs]
      && s'.connecting == Some(a) && s'.nextId == s.nextId + 2
      && s'.pending == s.pending && s'.calls == s.calls && s'.outbox == s.outbox && s'.emitted == s.emitted
  {
    StartAttemptOpens(s);
    TearDownInv(NewAttempt(s));
  }

  /**
   * A new attempt whose URL does not parse: the attempt is rejected at once
   * with "Invalid URL", no socket is created, and, because the executor
   * runs before the assignment `this.connecting = ...`, `connecting` keeps
   * the rejected attempt.
   */
  lemma ConnectBadUrl(s: ClientState)
    requires Inv(s) && !ConnectReturnsEarly(s) && !s.urlParses
    ensures var s', a := Connect(s), s.nextId;
      && ConnectResult(s) == Started(a)
      && s'.attempts == s.attempts[a := Rejected(InvalidUrlError)]
      && s'.ws.None? && s'.connecting == Some(a) && s'.nextId == s.nextId + 1
      && s'.timers == s.timers && s'.pending == s.pending && s'.calls == s.calls
      && s'.outbox == s.outbox && s'.emitted == s.emitted
  {
    StartAttemptFails(s);
  }

  /** No socket other than the current one can still run `onerror`. */
  ghost predicate NoStaleOnError(s: ClientState) {
    forall k :: k in s.sockets && s.sockets[k].handlers && s.sockets[k].ready != Closed ==> s.ws == Some(k)
  }

  /**
   * The state an unparsable URL leaves behind: no current socket,
   * `connecting` holding the rejected attempt `a`, and no socket that can
   * still run `onerror`.
   */
  ghost predicate StuckOn(s: ClientState, a: nat) {
    && Inv(s) && s.ws.None? && s.connecting == Some(a)
    && a in s.attempts && s.attempts[a] == Rejected(InvalidUrlError)
    && (forall k :: k in s.sockets && s.sockets[k].handlers ==> s.sockets[k].ready == Closed)
  }

  /** Every stimulus other than `disconnect()` keeps the client stuck on the rejected attempt. */
  lemma StuckStep(s: ClientState, a: nat, e: Event)
    requires StuckOn(s, a) && !e.DisconnectCalled?
    ensures StuckOn(Step(s, e), a)
  {
    StepInv(s, e);
    if Enabled(s, e) {
      match e {
        case ConnectCalled => assert Connect(s) == s;
        case CallCalled(methodName, params) => assert Call(s, methodName, params) == s;
        case SocketOpened(k) => StuckSocket(s, a, k, Open);
        case PeerClosing(k) => StuckSocket(s, a, k, Closing);
        case SocketErrored(k) => assert OnError(s, k) == s;
        case SocketClosed(k) =>
          assert !Live(s.sockets[k]);
          StuckSocket(s, a, k, Closed);
        case MessageReceived(k, m) => assert OnMessage(s, k, m) == s;
        case TimerFired(t) => StuckTimer(s, a, t);
      }
    }
  }

  /** A socket whose `onerror` and `onclose` are detached changes its ready state and nothing else. */
  lemma StuckSocket(s: ClientState, a: nat, k: nat, r: ReadyState)
    requires StuckOn(s, a) && k in s.sockets && !s.sockets[k].handlers && !s.sockets[k].onclose
    ensures var s' := s.(sockets := s.sockets[k := s.sockets[k].(ready := r)]);
      && (r == Open && s.sockets[k].ready == Connecting ==> OnOpen(s, k) == s')
      && (r == Closing ==> OnPeerClosing(s, k) == s')
      && (r == Closed ==> OnClose(s, k) == s')
      && (Inv(s') ==> StuckOn(s', a))
  {
  }

  /** A timer firing keeps the client stuck: with no current socket, no timer can clear `connecting`. */
  lemma StuckTimer(s: ClientState, a: nat, t: Timer)
    requires StuckOn(s, a) && t in s.timers && Inv(OnTimer(s, t))
    ensures StuckOn(OnTimer(s, t), a)
  {
    var s0 := ClearTimer(s, t);
    match t {
      case ConnectTimeout(b) =>
        if !s0.connected {
          assert CloseCurrent(s0) == s0;
          RejectKeepsSockets(s0, b, ConnectTimeoutError);
        }
      case RequestTimeout(id, methodName) =>
      case ReconnectTimer(h) =>
        var s1 := s0.(reconnectTimer := None);
        if s1.autoReconnect {
          assert Connect(s1) == s1 && ConnectResult(s1) == Joined(a);
          assert OnTimer(s, t) == ScheduleReconnect(s1);
        }
    }
  }

  lemma {:induction false} StuckRun(s: ClientState, a: nat, es: seq<Event>)
    requires StuckOn(s, a)
    requires forall i :: 0 <= i < |es| ==> !es[i].DisconnectCalled?
    ensures StuckOn(Run(s, es), a)
    decreases |es|
  {
    if es != [] {
      StuckStep(s, a, es[0]);
      StuckRun(Step(s, es[0]), a, es[1..]);
    }
  }

  /**
   * After an attempt failed on its URL, every later `connect()` joins that
   * rejected attempt, whatever the runtime delivers in between, until
   * `disconnect()` resets `connecting`. This needs that no socket closed
   * by an earlier `disconnect()` can still run `onerror`: one that does
   * clears `connecting` (StaleErrorClearsConnecting).
   */
  lemma BadUrlAttemptSticks(s: ClientState, es: seq<Event>)
    requires Inv(s) && !ConnectReturnsEarly(s) && !s.urlParses && NoStaleOnError(s)
    requires forall i :: 0 <= i < |es| ==> !es[i].DisconnectCalled?
    ensures var s', a := Run(Connect(s), es), s.nextId;
      && s'.connecting == Some(a) && a in s'.attempts && s'.attempts[a] == Rejected(InvalidUrlError)
      && ConnectResult(s') == Joined(a) && Connect(s') == s'
  {
    var a := s.nextId;
    ConnectBadUrl(s);
    ConnectInv(s);
    StartAttemptFails(s);
    assert Connect(s).sockets == TornDown(s.sockets, s.ws);
    StuckRun(Connect(s), a, es);
  }

  // ---------------------------------------------------------------------
  // The handshake
  // ---------------------------------------------------------------------

  /** A socket that can still deliver a message is the current one. */
  lemma DeliveringSocketIsCurrent(s: ClientState, k: nat, m: Message)
    requires Inv(s) && Enabled(s, MessageReceived(k, m)) && s.sockets[k].handlers
    ensures s.ws == Some(k) && CurrentReady(s) == Some(Open)
  {
    assert Live(s.sockets[k]);
  }

  /**
   * A `connect.challenge` registers exactly one new pending entry, under a
   * fresh id, for the attempt whose socket received it, and sends one
   * `connect` request carrying the configured token on that socket.
   */
  lemma ChallengeAnswered(s: ClientState, k: nat, m: Message)
    requires Inv(s) && Enabled(s, MessageReceived(k, m)) && s.sockets[k].handlers && IsChallenge(m)
    ensures var s', id := OnMessage(s, k, m), s.nextId;
      && id !in s.pending
      && s'.pending == s.pending[id := AuthHandler(s.sockets[k].attempt)]
      && s'.outbox == s.outbox + [Sent(k, Req(id, ConnectMethod, Some(AuthParams(s.token))))]
      && s'.nextId == s.nextId + 1
      && s'.calls == s.calls && s'.attempts == s.attempts && s'.emitted == s.emitted && s'.timers == s.timers
      && s'.connected == s.connected && s'.authenticated == s.authenticated && s'.connecting == s.connecting
  {
    DeliveringSocketIsCurrent(s, k, m);
  }

  /** A response to a pending id is routed to that entry after it is removed. */
  lemma ResponseRouted(s: ClientState, m: Message, a: nat)
    requires IsResponse(m) && m.id.value in s.pending
    ensures HandleMessage(s, m, a) == RouteResponse(s, m.id.value, m)
  {
  }

  /**
   * The handshake's `resolve`: connected and authenticated, `connecting`
   * cleared, `connected` emitted, its pending entry gone, and the attempt
   * resolved if it was still waiting.
   */
  lemma AuthSucceeds(s: ClientState, id: Id, m: Message)
    requires id in s.pending && s.pending[id].AuthHandler? && ResponseSettlement(m).Resolve?
    ensures var s', a := RouteResponse(s, id, m), s.pending[id].attempt;
      && s'.connected && s'.authenticated && s'.connecting.None?
      && s'.emitted == s.emitted + [ConnectedEvent]
      && s'.pending == s.pending - {id}
      && s'.attempts == (if a in s.attempts && s.attempts[a].Waiting? then s.attempts[a := Resolved(None)] else s.attempts)
      && s'.calls == s.calls && s'.outbox == s.outbox && s'.sockets == s.sockets && s'.timers == s.timers
  {
    var a := s.pending[id].attempt;
    var s1 := s.(pending := s.pending - {id}, connected := true, authenticated := true, connecting := None,
                 emitted := s.emitted + [ConnectedEvent]);
    assert RouteResponse(s, id, m) == ResolveAttempt(s1, a);
    if a in s.attempts && s.attempts[a].Waiting? { ResolveWaiting(s1, a); } else { ResolveSettled(s1, a); }
  }

  lemma ResolveWaiting(s: ClientState, a: nat)
    requires a in s.attempts && s.attempts[a].Waiting?
    ensures ResolveAttempt(s, a) == s.(attempts := s.attempts[a := Resolved(None)], reconnectWaits := s.reconnectWaits - {a})
  {
  }

  lemma ResolveSettled(s: ClientState, a: nat)
    requires !(a in s.attempts && s.attempts[a].Waiting?)
    ensures ResolveAttempt(s, a) == s
  {
  }

  /**
   * The handshake's `reject`: `connecting` cleared, the current socket
   * closed, its pending entry gone, and the attempt rejected with
   * "Authentication failed: " and the gateway's message if it was still
   * waiting; `connected` and `authenticated` are left as they were.
   */
  lemma AuthFails(s: ClientState, id: Id, m: Message)
    requires id in s.pending && s.pending[id].AuthHandler? && ResponseSettlement(m).Reject?
    requires var a := s.pending[id].attempt; a in s.attempts && s.attempts[a].Waiting?
    ensures var s', a := RouteResponse(s, id, m), s.pending[id].attempt;
      && s'.connecting.None? && s'.connected == s.connected && s'.authenticated == s.authenticated
      && s'.sockets == ClosedAt(s.sockets, s.ws)
      && s'.pending == s.pending - {id}
      && s'.attempts == s.attempts[a := Rejected(AuthFailedError(m.error.value))]
      && s'.calls == s.calls && s'.outbox == s.outbox && s'.emitted == s.emitted
  {
    var a := s.pending[id].attempt;
    var s1 := CloseCurrent(s.(pending := s.pending - {id}, connecting := None));
    assert RouteResponse(s, id, m) == RejectAttempt(s1, a, AuthFailedError(m.error.value));
    RejectWaiting(s1, a, AuthFailedError(m.error.value));
  }

  /**
   * Rejecting a waiting attempt records the reason; beyond that, only the
   * reconnect loop's bookkeeping (and, when it awaited the attempt, a new
   * reconnect timer) changes.
   */
  lemma RejectWaiting(s: ClientState, a: nat, reason: string)
    requires a in s.attempts && s.attempts[a].Waiting?
    ensures var s' := RejectAttempt(s, a, reason);
      && s'.attempts == s.attempts[a := Rejected(reason)]
      && s'.pending == s.pending && s'.calls == s.calls && s'.outbox == s.outbox && s'.emitted == s.emitted
      && s'.sockets == s.sockets && s'.ws == s.ws && s'.connecting == s.connecting
      && s'.connected == s.connected && s'.authenticated == s.authenticated
  {
    var s1 := s.(attempts := s.attempts[a := Rejected(reason)], reconnectWaits := s.reconnectWaits - {a});
    if a in s.reconnectWaits {
      assert RejectAttempt(s, a, reason) == ScheduleReconnect(s1);
      if s1.reconnectTimer.None? && s1.autoReconnect { ArmFrame(s1); } else { ScheduleReconnectNoop(s1); }
    } else {
      assert RejectAttempt(s, a, reason) == s1;
    }
  }

  // ---------------------------------------------------------------------
  // Responses
  // ---------------------------------------------------------------------

  /** `ok === false` with an error rejects with its message; anything else resolves with `payload ?? result`. */
  lemma ResponseOutcome(m: Message)
    ensures m.ok == Some(false) && m.error.Some? ==> CallOutcome(ResponseSettlement(m)) == Rejected(m.error.value)
    ensures !(m.ok == Some(false) && m.error.Some?) ==> CallOutcome(ResponseSettlement(m)) == Resolved(Coalesce(m.payload, m.result))
  {
  }

  /** Settling a call changes only that call's outcome, and only if it was still waiting. */
  lemma SettledMeans(calls: map<Id, CallSlot>, id: Id, o: Outcome)
    ensures id in calls && calls[id].outcome.Waiting? ==> Settled(calls, id, o) == calls[id := CallSlot(calls[id].methodName, o)]
    ensures !(id in calls && calls[id].outcome.Waiting?) ==> Settled(calls, id, o) == calls
  {
  }

  /**
   * A response to a caller's pending id removes the entry before
   * completing it, and settles that caller's promise from the response;
   * nothing else changes.
   */
  lemma CallerResponse(s: ClientState, id: Id, m: Message)
    requires id in s.pending && s.pending[id] == CallerHandler
    ensures RouteResponse(s, id, m)
         == s.(pending := s.pending - {id}, calls := Settled(s.calls, id, CallOutcome(ResponseSettlement(m))))
  {
  }

  /** A response whose id is not pending completes no caller and no attempt; it is passed on as a notification. */
  lemma UnknownResponseIgnored(s: ClientState, m: Message, a: nat)
    requires IsResponse(m) && m.id.value !in s.pending
    ensures HandleMessage(s, m, a) == Notify(s, m)
    ensures Notify(s, m) == s.(emitted := Notify(s, m).emitted)
  {
  }

  /**
   * Notifications: a message that is neither a challenge nor a matched
   * response emits `notification` with the whole message and then the
   * name `method || event` with `params || message`; without a name it is
   * dropped. Nothing else changes.
   */
  lemma NotificationRouting(s: ClientState, m: Message, a: nat)
    requires !IsChallenge(m) && !(IsResponse(m) && m.id.value in s.pending)
    ensures HandleMessage(s, m, a) == Notify(s, m)
    ensures NotificationName(m).Some? ==>
      Notify(s, m) == s.(emitted := s.emitted + [NotificationEvent(m), NamedEvent(NotificationName(m).value, NotificationArg(m))])
    ensures NotificationName(m).None? ==> Notify(s, m) == s
  {
  }

  // ---------------------------------------------------------------------
  // scheduleReconnect()
  // ---------------------------------------------------------------------

  /** With reconnects on and no timer armed, exactly one 10 s reconnect timer is armed. */
  lemma ScheduleReconnectArms(s: ClientState)
    requires Inv(s) && s.reconnectTimer.None? && s.autoReconnect
    ensures var s', h := ScheduleReconnect(s), s.nextId;
      && ReconnectTimer(h) !in s.timers
      && s'.reconnectTimer == Some(h) && s'.timers == s.timers[ReconnectTimer(h) := ReconnectDelayMs]
      && s' == s.(reconnectTimer := Some(h), timers := s'.timers, nextId := s.nextId + 1)
  {
  }

  lemma ArmFrame(s: ClientState)
    requires s.reconnectTimer.None? && s.autoReconnect
    ensures ScheduleReconnect(s)
         == s.(reconnectTimer := Some(s.nextId), timers := s.timers[ReconnectTimer(s.nextId) := ReconnectDelayMs],
               nextId := s.nextId + 1)
  {
  }

  /** A timer already armed, or reconnects off: `scheduleReconnect()` does nothing. */
  lemma ScheduleReconnectNoop(s: ClientState)
    requires s.reconnectTimer.Some? || !s.autoReconnect
    ensures ScheduleReconnect(s) == s
  {
  }

  // ---------------------------------------------------------------------
  // call()
  // ---------------------------------------------------------------------

  /** Without a socket, or before the handshake completed, `call()` rejects at once and changes nothing. */
  lemma CallRefusedChangesNothing(s: ClientState, methodName: string, params: Option<Json>)
    requires CallRefused(s)
    ensures Call(s, methodName, params) == s && CallResult(s) == Refused(NotConnectedError)
  {
  }

  lemma IssueRegisters(s: ClientState, methodName: string, params: Option<Json>)
    requires !CallRefused(s)
    ensures Call(s, methodName, params) == Issue(s, methodName, params)
    ensures CallResult(s) == Issued(s.nextId)
    ensures SendThrows(Register(s, methodName)) == SendThrows(s)
    ensures CurrentReady(Register(s, methodName)) == CurrentReady(s)
  {
  }

  /**
   * Connected and authenticated on an open socket, `call()` adds exactly
   * one pending entry under a fresh id, arms its 30 s timeout, and sends
   * one `{type: "req", id, method, params}` frame on the current socket.
   */
  lemma CallSends(s: ClientState, methodName: string, params: Option<Json>)
    requires Inv(s) && !CallRefused(s) && CurrentReady(s) == Some(Open)
    ensures var s', id := Call(s, methodName, params), s.nextId;
      && CallResult(s) == Issued(id) && id !in s.pending && id !in s.calls
      && s'.pending == s.pending[id := CallerHandler]
      && s'.calls == s.calls[id := CallSlot(methodName, Waiting)]
      && s'.timers == s.timers[RequestTimeout(id, methodName) := RequestTimeoutMs]
      && s'.outbox == s.outbox + [Sent(s.ws.value, Req(id, methodName, params))]
      && s'.nextId == s.nextId + 1
      && s'.attempts == s.attempts && s'.emitted == s.emitted && s'.sockets == s.sockets
  {
    IssueRegisters(s, methodName, params);
  }

  /**
   * On a socket that is still connecting, `send` throws inside the
   * promise's executor: the promise rejects, nothing is sent, and the
   * pending entry and its timeout stay until the timeout fires.
   */
  lemma CallSendThrows(s: ClientState, methodName: string, params: Option<Json>)
    requires Inv(s) && !CallRefused(s) && SendThrows(s)
    ensures var s', id := Call(s, methodName, params), s.nextId;
      && CallResult(s) == Issued(id)
      && s'.pending == s.pending[id := CallerHandler]
      && s'.calls == s.calls[id := CallSlot(methodName, Rejected(SendRefusedError))]
      && s'.timers == s.timers[RequestTimeout(id, methodName) := RequestTimeoutMs]
      && s'.outbox == s.outbox
  {
    IssueRegisters(s, methodName, params);
  }

  /** On a closing or closed socket the frame is dropped silently and the caller waits for its timeout. */
  lemma CallDropped(s: ClientState, methodName: string, params: Option<Json>)
    requires Inv(s) && !CallRefused(s) && (CurrentReady(s) == Some(Closing) || CurrentReady(s) == Some(Closed))
    ensures var s', id := Call(s, methodName, params), s.nextId;
      && CallResult(s) == Issued(id)
      && s'.pending == s.pending[id := CallerHandler]
      && s'.calls == s.calls[id := CallSlot(methodName, Waiting)]
      && s'.outbox == s.outbox
  {
    IssueRegisters(s, methodName, params);
  }

  /** `call()` only issues a frame when there is a socket and the client is connected and authenticated. */
  lemma CallSendsOnlyWhenAuthenticated(s: ClientState, methodName: string, params: Option<Json>)
    ensures Call(s, methodName, params).outbox != s.outbox ==> s.ws.Some? && s.connected && s.authenticated
    ensures Call(s, methodName, params).pending != s.pending ==> s.ws.Some? && s.connected && s.authenticated
  {
    if CallRefused(s) {
      CallRefusedChangesNothing(s, methodName, params);
    }
  }

  /** `listSessions()` sends a `sessions.list` request without parameters. */
  lemma ListSessionsSends(s: ClientState)
    requires Inv(s) && !CallRefused(s) && CurrentReady(s) == Some(Open)
    ensures ListSessions(s).outbox == s.outbox + [Sent(s.ws.value, Req(s.nextId, ListSessionsMethod, None))]
  {
    CallSends(s, ListSessionsMethod, None);
  }

  /** `sendMessage(key, content)` sends a `sessions.send` request with `{sessionKey, content}`. */
  lemma SendMessageSends(s: ClientState, sessionKey: string, content: string)
    requires Inv(s) && !CallRefused(s) && CurrentReady(s) == Some(Open)
    ensures SendMessage(s, sessionKey, content).outbox
         == s.outbox + [Sent(s.ws.value, Req(s.nextId, SendMessageMethod, Some(SendMessageParams(sessionKey, content))))]
  {
    CallSends(s, SendMessageMethod, Some(SendMessageParams(sessionKey, content)));
  }

  // ---------------------------------------------------------------------
  // Timeouts
  // ---------------------------------------------------------------------

  /**
   * A request timeout whose id is still pending deletes the entry and
   * rejects with "Request timeout: " and the method name.
   */
  lemma RequestTimeoutFires(s: ClientState, id: Id, methodName: string)
    requires RequestTimeout(id, methodName) in s.timers && id in s.pending
    ensures OnTimer(s, RequestTimeout(id, methodName))
         == s.(timers := s.timers - {RequestTimeout(id, methodName)}, pending := s.pending - {id},
               calls := Settled(s.calls, id, Rejected(RequestTimeoutError(methodName))))
  {
  }

  /** A request timeout after the response arrived does nothing but expire. */
  lemma RequestTimeoutAfterResponse(s: ClientState, id: Id, methodName: string)
    requires RequestTimeout(id, methodName) in s.timers && id !in s.pending
    ensures OnTimer(s, RequestTimeout(id, methodName)) == s.(timers := s.timers - {RequestTimeout(id, methodName)})
  {
  }

  /** After its timeout, a late response for the id completes nothing. */
  lemma LateResponseIgnored(s: ClientState, id: Id, methodName: string, m: Message, a: nat)
    requires RequestTimeout(id, methodName) in s.timers && id in s.pending && IsResponse(m) && m.id == Some(id)
    ensures var s' := OnTimer(s, RequestTimeout(id, methodName));
      HandleMessage(s', m, a) == Notify(s', m)
  {
    RequestTimeoutFires(s, id, methodName);
  }

  /**
   * The connection timeout while not connected closes the current socket
   * and rejects the attempt with "Connection timeout"; `connecting` is left
   * as it was.
   */
  lemma ConnectTimeoutFires(s: ClientState, a: nat)
    requires ConnectTimeout(a) in s.timers && !s.connected && a in s.attempts && s.attempts[a].Waiting?
    ensures var s' := OnTimer(s, ConnectTimeout(a));
      && ConnectTimeout(a) !in s'.timers
      && s'.sockets == ClosedAt(s.sockets, s.ws)
      && s'.attempts == s.attempts[a := Rejected(ConnectTimeoutError)]
      && s'.connecting == s.connecting && s'.pending == s.pending && s'.calls == s.calls
  {
    var s1 := CloseCurrent(ClearTimer(s, ConnectTimeout(a)));
    assert OnTimer(s, ConnectTimeout(a)) == RejectAttempt(s1, a, ConnectTimeoutError);
    RejectWaiting(s1, a, ConnectTimeoutError);
    RejectKeepsTimer(s1, a, ConnectTimeoutError, ConnectTimeout(a));
  }

  /** A connection timeout that fires once connected does nothing but expire. */
  lemma ConnectTimeoutWhenConnected(s: ClientState, a: nat)
    requires ConnectTimeout(a) in s.timers && s.connected
    ensures OnTimer(s, ConnectTimeout(a)) == s.(timers := s.timers - {ConnectTimeout(a)})
  {
  }

  /** Rejecting an attempt arms at most a reconnect timer. */
  lemma RejectKeepsTimer(s: ClientState, a: nat, reason: string, t: Timer)
    requires !t.ReconnectTimer?
    ensures t in RejectAttempt(s, a, reason).timers <==> t in s.timers
  {
    if a in s.attempts && s.attempts[a].Waiting? {
      var s1 := s.(attempts := s.attempts[a := Rejected(reason)], reconnectWaits := s.reconnectWaits - {a});
      if a in s.reconnectWaits {
        assert RejectAttempt(s, a, reason) == ScheduleReconnect(s1);
        if s1.reconnectTimer.None? && s1.autoReconnect { ArmFrame(s1); } else { ScheduleReconnectNoop(s1); }
      } else {
        assert RejectAttempt(s, a, reason) == s1;
      }
    }
  }

  // ---------------------------------------------------------------------
  // onopen and onerror
  // ---------------------------------------------------------------------

  /** `onopen` clears the attempt's connection timeout and nothing else. */
  lemma OnOpenClearsTimeout(s: ClientState, k: nat)
    requires k in s.sockets && s.sockets[k].handlers
    ensures OnOpen(s, k) == s.(sockets := s.sockets[k := s.sockets[k].(ready := Open)],
                               timers := s.timers - {ConnectTimeout(s.sockets[k].attempt)})
  {
  }

  /**
   * `onerror` before the handshake completed: the connection timeout is
   * cleared, `error` is emitted, `connecting` is cleared and the attempt
   * rejects with "Failed to connect to OpenClaw Gateway".
   */
  lemma OnErrorRejects(s: ClientState, k: nat)
    requires k in s.sockets && s.sockets[k].handlers && !s.connected
    requires var a := s.sockets[k].attempt; a in s.attempts && s.attempts[a].Waiting?
    ensures var s', a := OnError(s, k), s.sockets[k].attempt;
      && s'.emitted == s.emitted + [ErrorEvent] && s'.connecting.None?
      && s'.attempts == s.attempts[a := Rejected(SocketFailedError)]
      && ConnectTimeout(a) !in s'.timers
      && s'.pending == s.pending && s'.calls == s.calls && s'.sockets == s.sockets
  {
    var a := s.sockets[k].attempt;
    var s1 := ClearTimer(s, ConnectTimeout(a)).(emitted := s.emitted + [ErrorEvent], connecting := None);
    assert OnError(s, k) == RejectAttempt(s1, a, SocketFailedError);
    RejectWaiting(s1, a, SocketFailedError);
    RejectKeepsTimer(s1, a, SocketFailedError, ConnectTimeout(a));
  }

  /** `onerror` once connected only clears the timeout and emits `error`. */
  lemma OnErrorWhenConnected(s: ClientState, k: nat)
    requires k in s.sockets && s.sockets[k].handlers && s.connected
    ensures OnError(s, k) == s.(timers := s.timers - {ConnectTimeout(s.sockets[k].attempt)}, emitted := s.emitted + [ErrorEvent])
  {
  }

  // ---------------------------------------------------------------------
  // onclose and the reconnect loop
  // ---------------------------------------------------------------------

  /** The state right after `onclose` ran its resets, before it decides on a reconnect. */
  function AfterClose(s: ClientState, k: nat): ClientState
    requires k in s.sockets
  {
    s.(sockets := s.sockets[k := s.sockets[k].(ready := Closed)],
       timers := s.timers - {ConnectTimeout(s.sockets[k].attempt)},
       connected := false, authenticated := false, connecting := None,
       emitted := s.emitted + [DisconnectedEvent])
  }

  /**
   * `onclose` on a socket that still has it: the attempt's connection
   * timeout is cleared, `connected`, `authenticated` and `connecting` are
   * reset and `disconnected` is emitted. Pending requests and their
   * promises are not failed. A reconnect is scheduled exactly when
   * reconnects are on and the client was connected.
   */
  lemma OnCloseRules(s: ClientState, k: nat)
    requires k in s.sockets && s.sockets[k].onclose
    ensures s.autoReconnect && s.connected ==> OnClose(s, k) == ScheduleReconnect(AfterClose(s, k))
    ensures !(s.autoReconnect && s.connected) ==> OnClose(s, k) == AfterClose(s, k)
    ensures var s' := OnClose(s, k);
      && !s'.connected && !s'.authenticated && s'.connecting.None?
      && s'.emitted == s.emitted + [DisconnectedEvent]
      && s'.pending == s.pending && s'.calls == s.calls && s'.attempts == s.attempts && s'.outbox == s.outbox
      && s'.sockets[k].ready == Closed
  {
    var s3 := AfterClose(s, k);
    if s.autoReconnect && s.connected {
      if s3.reconnectTimer.None? { ArmFrame(s3); } else { ScheduleReconnectNoop(s3); }
    }
  }

  /** A socket whose `onclose` was detached closes silently. */
  lemma OnCloseDetached(s: ClientState, k: nat)
    requires k in s.sockets && !s.sockets[k].onclose
    ensures OnClose(s, k) == s.(sockets := s.sockets[k := s.sockets[k].(ready := Closed)])
  {
  }

  /** A connected client whose socket closes, with reconnects on, arms exactly one reconnect timer. */
  lemma CloseWhileConnectedReconnects(s: ClientState, k: nat)
    requires Inv(s) && k in s.sockets && s.sockets[k].onclose && s.autoReconnect && s.connected && s.reconnectTimer.None?
    ensures var s' := OnClose(s, k);
      s'.reconnectTimer == Some(s.nextId) && ReconnectTimer(s.nextId) in s'.timers
  {
    OnCloseRules(s, k);
    ArmFrame(AfterClose(s, k));
  }

  /**
   * A failed reconnect re-arms the timer: when the attempt the reconnect
   * loop awaits is rejected, with reconnects on and no timer armed, a new
   * reconnect timer is armed.
   */
  lemma FailedReconnectRearms(s: ClientState, a: nat, reason: string)
    requires a in s.attempts && s.attempts[a].Waiting? && a in s.reconnectWaits
    requires s.autoReconnect && s.reconnectTimer.None?
    ensures var s' := RejectAttempt(s, a, reason);
      && s'.attempts[a] == Rejected(reason) && a !in s'.reconnectWaits
      && s'.reconnectTimer == Some(s.nextId) && s'.timers == s.timers[ReconnectTimer(s.nextId) := ReconnectDelayMs]
  {
    var s1 := s.(attempts := s.attempts[a := Rejected(reason)], reconnectWaits := s.reconnectWaits - {a});
    assert RejectAttempt(s, a, reason) == ScheduleReconnect(s1);
    ArmFrame(s1);
  }

  /** The reconnect timer with reconnects switched off only clears its slot. */
  lemma ReconnectTimerWhenOff(s: ClientState, h: nat)
    requires ReconnectTimer(h) in s.timers && !s.autoReconnect
    ensures OnTimer(s, ReconnectTimer(h)) == s.(timers := s.timers - {ReconnectTimer(h)}, reconnectTimer := None)
  {
  }

  /** The reconnect timer with reconnects on clears its slot and awaits `connect()`. */
  lemma ReconnectTimerUnfolds(s: ClientState, h: nat)
    requires ReconnectTimer(h) in s.timers && s.autoReconnect
    ensures var s1 := s.(timers := s.timers - {ReconnectTimer(h)}, reconnectTimer := None);
      OnTimer(s, ReconnectTimer(h)) == AwaitAttempt(Connect(s1), ConnectResult(s1))
  {
  }

  /**
   * The reconnect timer with reconnects on and no attempt in flight starts
   * attempt `a`. With a parsable URL its fresh socket is connecting, its
   * timeout is armed and the loop awaits it; with an unparsable URL it is
   * rejected at once and the loop re-arms the reconnect timer.
   */
  lemma ReconnectTimerConnects(s: ClientState, h: nat)
    requires ReconnectTimer(h) in s.timers && s.autoReconnect && !ConnectReturnsEarly(s)
    ensures var s', a := OnTimer(s, ReconnectTimer(h)), s.nextId;
      && s'.connecting == Some(a)
      && (s.urlParses ==>
            && s'.attempts == s.attempts[a := Waiting] && s'.reconnectWaits == s.reconnectWaits + {a}
            && s'.ws == Some(a + 1) && s'.sockets[a + 1] == Socket(a, Connecting, true, true)
            && s'.reconnectTimer.None?
            && s'.timers == (s.timers - {ReconnectTimer(h)})[ConnectTimeout(a) := ConnectTimeoutMs])
      && (!s.urlParses ==>
            && s'.attempts == s.attempts[a := Rejected(InvalidUrlError)] && s'.ws.None?
            && s'.reconnectTimer == Some(a + 1)
            && s'.timers == (s.timers - {ReconnectTimer(h)})[ReconnectTimer(a + 1) := ReconnectDelayMs])
  {
    ReconnectTimerUnfolds(s, h);
    var s1 := s.(timers := s.timers - {ReconnectTimer(h)}, reconnectTimer := None);
    if s.urlParses { ReconnectOpens(s1); } else { ReconnectFailsUrl(s1); }
  }

  lemma ReconnectOpens(s: ClientState)
    requires !ConnectReturnsEarly(s) && s.urlParses
    ensures var s', a := AwaitAttempt(Connect(s), ConnectResult(s)), s.nextId;
      && s'.connecting == Some(a)
      && s'.attempts == s.attempts[a := Waiting] && s'.reconnectWaits == s.reconnectWaits + {a}
      && s'.ws == Some(a + 1) && s'.sockets[a + 1] == Socket(a, Connecting, true, true)
      && s'.reconnectTimer == s.reconnectTimer && s'.timers == s.timers[ConnectTimeout(a) := ConnectTimeoutMs]
  {
    StartAttemptOpens(s);
    ReconnectAwaitsAttempt(Connect(s), s.nextId);
  }

  lemma ReconnectFailsUrl(s: ClientState)
    requires !ConnectReturnsEarly(s) && !s.urlParses && s.autoReconnect && s.reconnectTimer.None?
    ensures var s', a := AwaitAttempt(Connect(s), ConnectResult(s)), s.nextId;
      && s'.connecting == Some(a)
      && s'.attempts == s.attempts[a := Rejected(InvalidUrlError)] && s'.ws.None?
      && s'.reconnectTimer == Some(a + 1) && s'.timers == s.timers[ReconnectTimer(a + 1) := ReconnectDelayMs]
  {
    StartAttemptFails(s);
    ArmFrame(Connect(s));
  }

  /**
   * The reconnect timer while attempt `b` is in flight joins it: the loop
   * awaits `b` if it still waits, and re-arms the timer if it was rejected.
   * No socket is opened.
   */
  lemma ReconnectJoinsInFlight(s: ClientState, h: nat, b: nat)
    requires ReconnectTimer(h) in s.timers && s.autoReconnect
    requires s.connecting == Some(b) && !(s.connected && CurrentReady(s) == Some(Open)) && b in s.attempts
    ensures var s' := OnTimer(s, ReconnectTimer(h));
      && s'.sockets == s.sockets && s'.ws == s.ws && s'.attempts == s.attempts && s'.connecting == s.connecting
      && (s.attempts[b].Waiting? ==> s'.reconnectWaits == s.reconnectWaits + {b} && s'.reconnectTimer.None?)
      && (s.attempts[b].Rejected? ==> s'.reconnectTimer == Some(s.nextId) && ReconnectTimer(s.nextId) in s'.timers)
  {
    var s1 := s.(timers := s.timers - {ReconnectTimer(h)}, reconnectTimer := None);
    ReconnectTimerUnfolds(s, h);
    if s.attempts[b].Rejected? {
      ArmFrame(s1);
    }
  }

  /**
   * A reconnect whose attempt is started waits on that attempt; one whose
   * attempt fails at once (here, on the URL) re-arms the reconnect timer.
   */
  lemma ReconnectAwaitsAttempt(s: ClientState, a: nat)
    requires a in s.attempts && s.attempts[a].Waiting?
    ensures AwaitAttempt(s, Started(a)) == s.(reconnectWaits := s.reconnectWaits + {a})
  {
  }

  lemma ReconnectRejectedRearms(s: ClientState, a: nat)
    requires a in s.attempts && s.attempts[a].Rejected? && s.autoReconnect && s.reconnectTimer.None?
    ensures AwaitAttempt(s, Started(a)).reconnectTimer == Some(s.nextId)
  {
    ArmFrame(s);
  }

  // ---------------------------------------------------------------------
  // disconnect()
  // ---------------------------------------------------------------------

  /**
   * `disconnect()`: reconnects off, the reconnect timer cleared, `onclose`
   * detached from the current socket before it is closed, `ws` forgotten,
   * and the three flags reset. Pending requests, promises, frames and
   * events are left alone.
   */
  lemma DisconnectEffects(s: ClientState)
    ensures var s' := Disconnect(s);
      && !s'.autoReconnect && s'.reconnectTimer.None?
      && (s.reconnectTimer.Some? ==> s'.timers == s.timers - {ReconnectTimer(s.reconnectTimer.value)})
      && (s.reconnectTimer.None? ==> s'.timers == s.timers)
      && s'.ws.None? && !s'.connected && !s'.authenticated && s'.connecting.None?
      && s'.sockets == DetachedAt(s.sockets, s.ws)
      && s'.pending == s.pending && s'.calls == s.calls && s'.attempts == s.attempts
      && s'.outbox == s.outbox && s'.emitted == s.emitted && s'.nextId == s.nextId
  {
  }

  /** After `disconnect()`, the old socket's close runs no handler: nothing is emitted and no reconnect is armed. */
  lemma DisconnectedSocketClosesSilently(s: ClientState)
    requires Inv(s) && s.ws.Some?
    ensures var s', w := Disconnect(s), s.ws.value;
      && w in s'.sockets && !s'.sockets[w].onclose
      && OnClose(s', w) == s'.(sockets := s'.sockets[w := s'.sockets[w].(ready := Closed)])
  {
    var w := s.ws.value;
    var s' := Disconnect(s);
    assert s'.sockets[w] == CloseSocket(s.sockets[w].(onclose := false));
    OnCloseDetached(s', w);
  }

  /**
   * `disconnect()` detaches only `onclose`, so its socket can still run
   * `onerror` while it is closing. When it does while a newer attempt is in
   * flight on the current socket `w`, its `onerror` clears `connecting`:
   * the next `connect()` starts yet another attempt and tears `w` down.
   */
  lemma StaleErrorClearsConnecting(s: ClientState, k: nat)
    requires Inv(s) && !s.connected && s.connecting.Some? && s.ws.Some? && s.ws.value != k
    requires k in s.sockets && s.sockets[k].handlers && s.sockets[k].ready == Closing
    ensures var s', w := Step(s, SocketErrored(k)), s.ws.value;
      && Enabled(s, SocketErrored(k))
      && s'.connecting.None? && s'.ws == s.ws && s'.sockets == s.sockets
      && s'.emitted == s.emitted + [ErrorEvent]
      && ConnectResult(s') == Started(s'.nextId)
      && (s.urlParses ==> Connect(s').ws == Some(s'.nextId + 1))
      && Connect(s').sockets[w] == CloseSocket(s.sockets[w].(onclose := false, handlers := false))
  {
    var a := s.sockets[k].attempt;
    var s1 := ClearTimer(s, ConnectTimeout(a)).(emitted := s.emitted + [ErrorEvent], connecting := None);
    assert Step(s, SocketErrored(k)) == RejectAttempt(s1, a, SocketFailedError);
    RejectKeepsSockets(s1, a, SocketFailedError);
    NewAttemptTearsDown(RejectAttempt(s1, a, SocketFailedError));
  }

  /** A `connect()` that starts a new attempt detaches every handler of the current socket and closes it. */
  lemma NewAttemptTearsDown(s: ClientState)
    requires !ConnectReturnsEarly(s) && s.ws.Some? && s.ws.value in s.sockets && s.ws.value < s.nextId
    ensures s.ws.value in Connect(s).sockets
    ensures Connect(s).sockets[s.ws.value] == CloseSocket(s.sockets[s.ws.value].(onclose := false, handlers := false))
    ensures s.urlParses ==> Connect(s).ws == Some(s.nextId + 1)
  {
    if s.urlParses { StartAttemptOpens(s); } else { StartAttemptFails(s); }
  }

  /** Rejecting an attempt leaves the sockets, the flags and the events alone, and keeps every settled attempt. */
  lemma RejectKeepsSockets(s: ClientState, a: nat, reason: string)
    ensures var s' := RejectAttempt(s, a, reason);
      && s'.sockets == s.sockets && s'.ws == s.ws && s'.connecting == s.connecting
      && s'.connected == s.connected && s'.emitted == s.emitted && s'.urlParses == s.urlParses
      && s'.nextId >= s.nextId
      && (forall b :: b in s.attempts && !s.attempts[b].Waiting? ==> b in s'.attempts && s'.attempts[b] == s.attempts[b])
  {
    if a in s.attempts && s.attempts[a].Waiting? {
      var s1 := s.(attempts := s.attempts[a := Rejected(reason)], reconnectWaits := s.reconnectWaits - {a});
      var s' := RejectAttempt(s, a, reason);
      assert s'.attempts == s1.attempts && s'.sockets == s.sockets && s'.connecting == s.connecting by {
        if a in s.reconnectWaits {
          assert s' == ScheduleReconnect(s1);
          if s1.reconnectTimer.None? && s1.autoReconnect { ArmFrame(s1); } else { ScheduleReconnectNoop(s1); }
        }
      }
    }
  }

  /**
   * The situation of StaleErrorClearsConnecting is reachable: after
   * `connect()`, `disconnect()` and `connect()` again, socket 1 is closing
   * with `onerror` still attached while attempt 2 is in flight on socket 3.
   */
  lemma StaleErrorScenario(token: string)
    ensures var s3 := Connect(Disconnect(Connect(Initial(token, true))));
      && Inv(s3) && !s3.connected && s3.connecting == Some(2) && s3.ws == Some(3)
      && 1 in s3.sockets && s3.sockets[1] == Socket(0, Closing, false, true)
  {
    var s0 := Initial(token, true);
    InitialInv(token, true);
    ConnectStarts(s0);
    ConnectInv(s0);
    var s1 := Connect(s0);
    DisconnectInv(s1);
    var s2 := Disconnect(s1);
    assert s2.sockets == map[1 := Socket(0, Closing, false, true)];
    ConnectStarts(s2);
    ConnectInv(s2);
  }

  /** `isConnected()` implies that `call()` is not refused. */
  lemma IsConnectedAllowsCall(s: ClientState)
    requires IsConnected(s)
    ensures !CallRefused(s)
  {
  }

  // ---------------------------------------------------------------------
  // A whole handshake
  // ---------------------------------------------------------------------

  /**
   * A new client connects, its socket opens, the gateway sends a
   * challenge and accepts the answer: the client is then connected, the
   * attempt resolved, and the one frame sent was the `connect` request.
   */
  lemma HandshakeScenario(token: string)
    ensures var s0 := Initial(token, true);
      var s1 := Connect(s0);
      var s2 := OnOpen(s1, 1);
      var challenge := Message(Some("event"), None, None, None, Some(ChallengeEvent), None, None, None, None);
      var s3 := OnMessage(s2, 1, challenge);
      var accept := Message(Some("res"), Some(2), None, None, None, Some(true), None, None, None);
      var s4 := OnMessage(s3, 1, accept);
      && ConnectResult(s0) == Started(0)
      && s3.outbox == [Sent(1, Req(2, ConnectMethod, Some(AuthParams(token))))]
      && IsConnected(s4) && s4.attempts[0] == Resolved(None)
      && s4.emitted == [ConnectedEvent] && s4.pending == map[]
  {
    var s0 := Initial(token, true);
    InitialInv(token, true);
    ConnectStarts(s0);
    var s1 := Connect(s0);
    var s2 := OnOpen(s1, 1);
    assert s2 == s1.(sockets := s1.sockets[1 := Socket(0, Open, true, true)], timers := map[]);
    var challenge := Message(Some("event"), None, None, None, Some(ChallengeEvent), None, None, None, None);
    OnOpenInv(s1, 1);
    ChallengeAnswered(s2, 1, challenge);
    var s3 := OnMessage(s2, 1, challenge);
    var accept := Message(Some("res"), Some(2), None, None, None, Some(true), None, None, None);
    assert s3.pending == map[2 := AuthHandler(0)];
    ResponseRouted(s3, accept, 0);
    AuthSucceeds(s3, 2, accept);
  }
}

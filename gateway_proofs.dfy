/**
 * Every stimulus keeps the invariant of the Gateway client and only moves
 * its state forward (module GatewaySpec, predicates `Inv` and `Evolves`).
 * Each transition is proved through the helpers it is built from; the
 * trace lemmas at the end lift this to whole runs: ids are never reissued,
 * at most one reconnect timer is ever armed, settled promises never change,
 * and after `disconnect()` no reconnect timer is ever armed again.
 */
module GatewayProofs {
  import opened Values
  import opened GatewayProtocol
  import opened GatewaySpec

  /** `Evolves` is transitive, so the steps of a transition compose. */
  lemma EvolvesTrans(s1: ClientState, s2: ClientState, s3: ClientState)
    requires Evolves(s1, s2) && Evolves(s2, s3)
    ensures Evolves(s1, s3)
  {
  }

  lemma EvolvesRefl(s: ClientState)
    ensures Evolves(s, s)
  {
  }

  /** A step that leaves the oracle, the promises, the outbox, the emitted events, the pending table and the reconnect state alone. */
  lemma LedgerKept(s: ClientState, s': ClientState)
    requires s'.nextId == s.nextId && s'.calls == s.calls && s'.attempts == s.attempts
    requires s'.outbox == s.outbox && s'.emitted == s.emitted && s'.pending == s.pending
    requires s'.autoReconnect == s.autoReconnect && s'.reconnectTimer == s.reconnectTimer
    ensures Evolves(s, s')
  {
  }

  // ---------------------------------------------------------------------
  // Helpers
  // ---------------------------------------------------------------------

  lemma ScheduleReconnectInv(s: ClientState)
    requires Inv(s)
    ensures Inv(ScheduleReconnect(s))
  {
    if s.reconnectTimer.None? && s.autoReconnect {
      var s1 := s.(reconnectTimer := Some(s.nextId),
                   timers := s.timers[ReconnectTimer(s.nextId) := ReconnectDelayMs],
                   nextId := s.nextId + 1);
      assert ScheduleReconnect(s) == s1;
      assert SlotExact(s1.timers, s1.reconnectTimer);
    }
  }

  lemma ScheduleReconnectEvolves(s: ClientState)
    ensures Evolves(s, ScheduleReconnect(s))
  {
    if s.reconnectTimer.None? && s.autoReconnect {
      var s1 := s.(reconnectTimer := Some(s.nextId),
                   timers := s.timers[ReconnectTimer(s.nextId) := ReconnectDelayMs],
                   nextId := s.nextId + 1);
      assert ScheduleReconnect(s) == s1;
      assert Evolves(s, s1);
    } else {
      EvolvesRefl(s);
    }
  }

  lemma RejectAttemptInv(s: ClientState, a: nat, reason: string)
    requires Inv(s)
    ensures Inv(RejectAttempt(s, a, reason))
  {
    if a in s.attempts && s.attempts[a].Waiting? {
      var s1 := s.(attempts := s.attempts[a := Rejected(reason)], reconnectWaits := s.reconnectWaits - {a});
      assert KeysBelow(s1.attempts, s1.nextId);
      assert Inv(s1);
      if a in s.reconnectWaits {
        assert RejectAttempt(s, a, reason) == ScheduleReconnect(s1);
        ScheduleReconnectInv(s1);
      } else {
        assert RejectAttempt(s, a, reason) == s1;
      }
    }
  }

  lemma RejectAttemptEvolves(s: ClientState, a: nat, reason: string)
    ensures Evolves(s, RejectAttempt(s, a, reason))
  {
    if a in s.attempts && s.attempts[a].Waiting? {
      var s1 := s.(attempts := s.attempts[a := Rejected(reason)], reconnectWaits := s.reconnectWaits - {a});
      assert AttemptsEvolve(s.attempts, s1.attempts);
      assert Evolves(s, s1);
      if a in s.reconnectWaits {
        assert RejectAttempt(s, a, reason) == ScheduleReconnect(s1);
        ScheduleReconnectEvolves(s1);
        EvolvesTrans(s, s1, ScheduleReconnect(s1));
      } else {
        assert RejectAttempt(s, a, reason) == s1;
      }
    } else {
      EvolvesRefl(s);
    }
  }

  lemma ResolveAttemptInv(s: ClientState, a: nat)
    requires Inv(s)
    ensures Inv(ResolveAttempt(s, a))
  {
    if a in s.attempts && s.attempts[a].Waiting? {
      var s1 := s.(attempts := s.attempts[a := Resolved(None)], reconnectWaits := s.reconnectWaits - {a});
      assert ResolveAttempt(s, a) == s1;
      assert KeysBelow(s1.attempts, s1.nextId);
    }
  }

  lemma ResolveAttemptEvolves(s: ClientState, a: nat)
    ensures Evolves(s, ResolveAttempt(s, a))
  {
    if a in s.attempts && s.attempts[a].Waiting? {
      var s1 := s.(attempts := s.attempts[a := Resolved(None)], reconnectWaits := s.reconnectWaits - {a});
      assert ResolveAttempt(s, a) == s1;
      assert AttemptsEvolve(s.attempts, s1.attempts);
      assert Evolves(s, s1);
    } else {
      EvolvesRefl(s);
    }
  }

  lemma SettledKeys(calls: map<Id, CallSlot>, id: Id, o: Outcome)
    ensures Settled(calls, id, o).Keys == calls.Keys
  {
    if id in calls && calls[id].outcome.Waiting? {
      assert Settled(calls, id, o) == calls[id := calls[id].(outcome := o)];
    }
  }

  lemma SettledEvolves(calls: map<Id, CallSlot>, id: Id, o: Outcome)
    ensures CallsEvolve(calls, Settled(calls, id, o))
  {
    if id in calls && calls[id].outcome.Waiting? {
      assert Settled(calls, id, o) == calls[id := calls[id].(outcome := o)];
    }
  }

  lemma SettleCallInv(s: ClientState, id: Id, o: Outcome)
    requires Inv(s)
    ensures Inv(SettleCall(s, id, o))
  {    SettledKeys(s.calls, id, o);
  }

  lemma SettleCallEvolves(s: ClientState, id: Id, o: Outcome)
    ensures Evolves(s, SettleCall(s, id, o))
  {    SettledEvolves(s.calls, id, o);
  }

  lemma CloseCurrentInv(s: ClientState)
    requires Inv(s)
    ensures Inv(CloseCurrent(s))
  {
    if s.ws.Some? && s.ws.value in s.sockets {
      var s1 := s.(sockets := s.sockets[s.ws.value := CloseSocket(s.sockets[s.ws.value])]);
      assert CloseCurrent(s) == s1;
      assert KeysBelow(s1.sockets, s1.nextId);
      assert OnlyCurrentLive(s1.sockets, s1.ws);
    }
  }

  lemma CloseCurrentEvolves(s: ClientState)
    ensures Evolves(s, CloseCurrent(s))
  {
    if s.ws.Some? && s.ws.value in s.sockets {
      var s1 := s.(sockets := s.sockets[s.ws.value := CloseSocket(s.sockets[s.ws.value])]);
      assert CloseCurrent(s) == s1;
      assert Evolves(s, s1);
    } else {
      EvolvesRefl(s);
    }
  }

  lemma TransmitInv(s: ClientState, f: Frame)
    requires Inv(s)
    ensures Inv(Transmit(s, f))
  {
    if CurrentReady(s) == Some(Open) {
      assert Transmit(s, f) == s.(outbox := s.outbox + [Sent(s.ws.value, f)]);
    }
  }

  lemma TransmitEvolves(s: ClientState, f: Frame)
    ensures Evolves(s, Transmit(s, f))
  {
    if CurrentReady(s) == Some(Open) {
      var s1 := s.(outbox := s.outbox + [Sent(s.ws.value, f)]);
      assert Transmit(s, f) == s1;
      assert Evolves(s, s1);
    } else {
      EvolvesRefl(s);
    }
  }

  lemma ClearTimerInv(s: ClientState, t: Timer)
    requires Inv(s) && !t.ReconnectTimer?
    ensures Inv(ClearTimer(s, t))
  {
    assert SlotExact(ClearTimer(s, t).timers, s.reconnectTimer);
  }

  lemma ClearTimerEvolves(s: ClientState, t: Timer)
    ensures Evolves(s, ClearTimer(s, t))
  {
  }

  lemma TearDownInv(s: ClientState)
    requires Inv(s)
    ensures Inv(TearDown(s)) && TearDown(s).ws.None? && NoneLive(TearDown(s).sockets)
  {
    if s.ws.Some? && s.ws.value in s.sockets {
      var w := s.ws.value;
      var s1 := s.(sockets := s.sockets[w := CloseSocket(s.sockets[w].(onclose := false, handlers := false))], ws := None);
      assert TearDown(s) == s1;
      assert !Live(s1.sockets[w]);
      assert NoneLive(s1.sockets);
      assert KeysBelow(s1.sockets, s1.nextId);
    } else {
      assert TearDown(s) == s.(ws := None);
      assert s.ws.None?;
    }
  }

  lemma TearDownEvolves(s: ClientState)
    ensures Evolves(s, TearDown(s))
  {
  }

  // ---------------------------------------------------------------------
  // Stimuli
  // ---------------------------------------------------------------------

  lemma NewAttemptInv(s: ClientState)
    requires Inv(s)
    ensures Inv(NewAttempt(s))
  {
    assert KeysBelow(NewAttempt(s).attempts, NewAttempt(s).nextId);
  }

  lemma NewAttemptEvolves(s: ClientState)
    requires KeysBelow(s.attempts, s.nextId)
    ensures Evolves(s, NewAttempt(s))
  {
    assert AttemptsEvolve(s.attempts, NewAttempt(s).attempts);
  }

  lemma OpenSocketInv(s: ClientState, a: nat)
    requires Inv(s) && s.ws.None? && NoneLive(s.sockets)
    ensures Inv(OpenSocket(s, a))
  {
    var s1 := OpenSocket(s, a);
    assert KeysBelow(s1.sockets, s1.nextId);
    assert KeysBelow(s1.attempts, s1.nextId);
    assert OnlyCurrentLive(s1.sockets, s1.ws);
  }

  lemma OpenSocketEvolves(s: ClientState, a: nat)
    ensures Evolves(s, OpenSocket(s, a))
  {
  }

  lemma FailUrlInv(s: ClientState, a: nat)
    requires Inv(s) && a in s.attempts
    ensures Inv(FailUrl(s, a))
  {
    assert KeysBelow(FailUrl(s, a).attempts, s.nextId);
  }

  lemma FailUrlEvolves(s: ClientState, a: nat)
    requires a in s.attempts && s.attempts[a].Waiting?
    ensures Evolves(s, FailUrl(s, a))
  {
    assert AttemptsEvolve(s.attempts, FailUrl(s, a).attempts);
  }

  lemma ConnectInv(s: ClientState)
    requires Inv(s)
    ensures Inv(Connect(s))
  {
    if !ConnectReturnsEarly(s) {
      var a := s.nextId;
      var s0 := NewAttempt(s);
      NewAttemptInv(s);
      TearDownInv(s0);
      var s1 := TearDown(s0);
      assert Connect(s) == StartAttempt(s);
      if s1.urlParses {
        assert StartAttempt(s) == OpenSocket(s1, a);
        OpenSocketInv(s1, a);
      } else {
        assert StartAttempt(s) == FailUrl(s1, a);
        FailUrlInv(s1, a);
      }
    }
  }

  lemma ConnectEvolves(s: ClientState)
    requires Inv(s)
    ensures Evolves(s, Connect(s))
  {
    if !ConnectReturnsEarly(s) {
      var a := s.nextId;
      var s0 := NewAttempt(s);
      NewAttemptEvolves(s);
      var s1 := TearDown(s0);
      TearDownEvolves(s0);
      EvolvesTrans(s, s0, s1);
      assert Connect(s) == StartAttempt(s);
      if s1.urlParses {
        assert StartAttempt(s) == OpenSocket(s1, a);
        OpenSocketEvolves(s1, a);
        EvolvesTrans(s, s1, OpenSocket(s1, a));
      } else {
        assert StartAttempt(s) == FailUrl(s1, a);
        FailUrlEvolves(s1, a);
        EvolvesTrans(s, s1, FailUrl(s1, a));
      }
    } else {
      EvolvesRefl(s);
    }
  }

  lemma CallInv(s: ClientState, methodName: string, params: Option<Json>)
    requires Inv(s)
    ensures Inv(Call(s, methodName, params))
  {
    if !CallRefused(s) {
      var id := s.nextId;
      var s1 := Register(s, methodName);
      assert Inv(s1);
      TransmitInv(s1, Req(id, methodName, params));
      SettleCallInv(s1, id, Rejected(SendRefusedError));
    }
  }

  lemma CallEvolves(s: ClientState, methodName: string, params: Option<Json>)
    requires Inv(s)
    ensures Evolves(s, Call(s, methodName, params))
  {
    if !CallRefused(s) {
      var id := s.nextId;
      var s1 := Register(s, methodName);
      assert Evolves(s, s1);
      TransmitEvolves(s1, Req(id, methodName, params));
      EvolvesTrans(s, s1, Transmit(s1, Req(id, methodName, params)));
      SettleCallEvolves(s1, id, Rejected(SendRefusedError));
      EvolvesTrans(s, s1, SettleCall(s1, id, Rejected(SendRefusedError)));
    }
  }

  lemma CancelReconnectInv(s: ClientState)
    requires Inv(s)
    ensures Inv(CancelReconnect(s)) && CancelReconnect(s).reconnectTimer.None?
  {
    if s.reconnectTimer.Some? {
      var s1 := s.(timers := s.timers - {ReconnectTimer(s.reconnectTimer.value)}, reconnectTimer := None);
      assert CancelReconnect(s) == s1;
      assert SlotExact(s1.timers, s1.reconnectTimer);
    }
  }

  lemma DetachCurrentInv(s: ClientState)
    requires Inv(s)
    ensures Inv(DetachCurrent(s))
  {
    if s.ws.Some? && s.ws.value in s.sockets {
      var w := s.ws.value;
      var s1 := s.(sockets := s.sockets[w := CloseSocket(s.sockets[w].(onclose := false))], ws := None);
      assert DetachCurrent(s) == s1;
      assert !Live(s1.sockets[w]);
      assert KeysBelow(s1.sockets, s1.nextId);
      assert OnlyCurrentLive(s1.sockets, s1.ws);
    } else {
      assert DetachCurrent(s) == s.(ws := None);
    }
  }

  lemma DisconnectInv(s: ClientState)
    requires Inv(s)
    ensures Inv(Disconnect(s))
  {
    var s0 := s.(autoReconnect := false);
    assert Inv(s0);
    CancelReconnectInv(s0);
    DetachCurrentInv(CancelReconnect(s0));
  }

  lemma CancelReconnectEvolves(s: ClientState)
    requires !s.autoReconnect
    ensures Evolves(s, CancelReconnect(s))
  {
    if s.reconnectTimer.Some? {
      var s1 := s.(timers := s.timers - {ReconnectTimer(s.reconnectTimer.value)}, reconnectTimer := None);
      assert CancelReconnect(s) == s1;
      assert Evolves(s, s1);
    } else {
      EvolvesRefl(s);
    }
  }

  lemma DetachCurrentEvolves(s: ClientState)
    ensures Evolves(s, DetachCurrent(s))
  {
  }

  lemma DisconnectEvolves(s: ClientState)
    ensures Evolves(s, Disconnect(s))
  {
    var s0 := s.(autoReconnect := false);
    var s1 := CancelReconnect(s0);
    var s2 := DetachCurrent(s1);
    assert Evolves(s, s0);
    CancelReconnectEvolves(s0);
    EvolvesTrans(s, s0, s1);
    DetachCurrentEvolves(s1);
    EvolvesTrans(s, s1, s2);
    assert Evolves(s2, Disconnect(s));
    EvolvesTrans(s, s2, Disconnect(s));
  }

  lemma OnOpenInv(s: ClientState, k: nat)
    requires Inv(s) && Enabled(s, SocketOpened(k))
    ensures Inv(OnOpen(s, k))
  {
    var s1 := s.(sockets := s.sockets[k := s.sockets[k].(ready := Open)]);
    assert Live(s1.sockets[k]) == Live(s.sockets[k]);
    assert KeysBelow(s1.sockets, s1.nextId);
    assert OnlyCurrentLive(s1.sockets, s1.ws);
    if s.sockets[k].handlers {
      assert OnOpen(s, k) == ClearTimer(s1, ConnectTimeout(s.sockets[k].attempt));
      ClearTimerInv(s1, ConnectTimeout(s.sockets[k].attempt));
    } else {
      assert OnOpen(s, k) == s1;
    }
  }

  lemma OnOpenEvolves(s: ClientState, k: nat)
    ensures Evolves(s, OnOpen(s, k))
  {
    if k in s.sockets {
      var s1 := s.(sockets := s.sockets[k := s.sockets[k].(ready := Open)]);
      assert Evolves(s, s1);
      if s.sockets[k].handlers {
        assert OnOpen(s, k) == ClearTimer(s1, ConnectTimeout(s.sockets[k].attempt));
        ClearTimerEvolves(s1, ConnectTimeout(s.sockets[k].attempt));
        EvolvesTrans(s, s1, OnOpen(s, k));
      } else {
        assert OnOpen(s, k) == s1;
      }
    } else {
      EvolvesRefl(s);
    }
  }

  lemma OnPeerClosingInv(s: ClientState, k: nat)
    requires Inv(s) && Enabled(s, PeerClosing(k))
    ensures Inv(OnPeerClosing(s, k))
  {
    var s1 := s.(sockets := s.sockets[k := s.sockets[k].(ready := Closing)]);
    assert OnPeerClosing(s, k) == s1;
    assert KeysBelow(s1.sockets, s1.nextId);
    assert OnlyCurrentLive(s1.sockets, s1.ws);
  }

  lemma OnPeerClosingEvolves(s: ClientState, k: nat)
    ensures Evolves(s, OnPeerClosing(s, k))
  {
    if k in s.sockets {
      var s1 := s.(sockets := s.sockets[k := s.sockets[k].(ready := Closing)]);
      assert OnPeerClosing(s, k) == s1;
      assert Evolves(s, s1);
    } else {
      EvolvesRefl(s);
    }
  }

  lemma OnErrorInv(s: ClientState, k: nat)
    requires Inv(s)
    ensures Inv(OnError(s, k))
  {
    if k in s.sockets && s.sockets[k].handlers {
      var a := s.sockets[k].attempt;
      ClearTimerInv(s, ConnectTimeout(a));
      var s1 := ClearTimer(s, ConnectTimeout(a)).(emitted := s.emitted + [ErrorEvent]);
      assert Inv(s1);
      if !s1.connected {
        assert OnError(s, k) == RejectAttempt(s1.(connecting := None), a, SocketFailedError);
        assert Inv(s1.(connecting := None));
        RejectAttemptInv(s1.(connecting := None), a, SocketFailedError);
      } else {
        assert OnError(s, k) == s1;
      }
    }
  }

  lemma OnErrorEvolves(s: ClientState, k: nat)
    ensures Evolves(s, OnError(s, k))
  {
    if k in s.sockets && s.sockets[k].handlers {
      var a := s.sockets[k].attempt;
      var s1 := ClearTimer(s, ConnectTimeout(a)).(emitted := s.emitted + [ErrorEvent]);
      assert Evolves(s, s1);
      if !s1.connected {
        assert OnError(s, k) == RejectAttempt(s1.(connecting := None), a, SocketFailedError);
        assert Evolves(s, s1.(connecting := None));
        RejectAttemptEvolves(s1.(connecting := None), a, SocketFailedError);
        EvolvesTrans(s, s1.(connecting := None), OnError(s, k));
      } else {
        assert OnError(s, k) == s1;
      }
    } else {
      EvolvesRefl(s);
    }
  }

  lemma OnCloseInv(s: ClientState, k: nat)
    requires Inv(s)
    ensures Inv(OnClose(s, k))
  {
    if k in s.sockets {
      var k0 := s.sockets[k];
      var s1 := s.(sockets := s.sockets[k := k0.(ready := Closed)]);
      assert !Live(s1.sockets[k]);
      assert KeysBelow(s1.sockets, s1.nextId);
      assert OnlyCurrentLive(s1.sockets, s1.ws);
      if k0.onclose {
        ClearTimerInv(s1, ConnectTimeout(k0.attempt));
        var s2 := ClearTimer(s1, ConnectTimeout(k0.attempt));
        var s3 := s2.(connected := false, authenticated := false, connecting := None,
                      emitted := s2.emitted + [DisconnectedEvent]);
        assert Inv(s3);
        ScheduleReconnectInv(s3);
        if s3.autoReconnect && s2.connected {
          assert OnClose(s, k) == ScheduleReconnect(s3);
        } else {
          assert OnClose(s, k) == s3;
        }
      } else {
        assert OnClose(s, k) == s1;
      }
    }
  }

  lemma OnCloseEvolves(s: ClientState, k: nat)
    ensures Evolves(s, OnClose(s, k))
  {
    if k in s.sockets {
      var k0 := s.sockets[k];
      var s1 := s.(sockets := s.sockets[k := k0.(ready := Closed)]);
      if k0.onclose {
        var s2 := ClearTimer(s1, ConnectTimeout(k0.attempt));
        var s3 := s2.(connected := false, authenticated := false, connecting := None,
                      emitted := s2.emitted + [DisconnectedEvent]);
        assert Evolves(s, s3);
        if s3.autoReconnect && s2.connected {
          assert OnClose(s, k) == ScheduleReconnect(s3);
          ScheduleReconnectEvolves(s3);
          EvolvesTrans(s, s3, ScheduleReconnect(s3));
        } else {
          assert OnClose(s, k) == s3;
        }
      } else {
        assert OnClose(s, k) == s1;
        assert Evolves(s, s1);
      }
    } else {
      EvolvesRefl(s);
    }
  }

  lemma AuthSucceededInv(s: ClientState, a: nat)
    requires Inv(s)
    ensures Inv(AuthSucceeded(s, a))
  {
    var s1 := s.(connected := true, authenticated := true, connecting := None,
                 emitted := s.emitted + [ConnectedEvent]);
    assert Inv(s1);
    ResolveAttemptInv(s1, a);
  }

  lemma AuthSucceededEvolves(s: ClientState, a: nat)
    ensures Evolves(s, AuthSucceeded(s, a))
  {
    var s1 := s.(connected := true, authenticated := true, connecting := None,
                 emitted := s.emitted + [ConnectedEvent]);
    assert Evolves(s, s1);
    ResolveAttemptEvolves(s1, a);
    EvolvesTrans(s, s1, AuthSucceeded(s, a));
  }

  lemma AuthFailedInv(s: ClientState, a: nat, message: string)
    requires Inv(s)
    ensures Inv(AuthFailed(s, a, message))
  {
    assert Inv(s.(connecting := None));
    CloseCurrentInv(s.(connecting := None));
    RejectAttemptInv(CloseCurrent(s.(connecting := None)), a, AuthFailedError(message));
  }

  lemma AuthFailedEvolves(s: ClientState, a: nat, message: string)
    ensures Evolves(s, AuthFailed(s, a, message))
  {
    var s1 := CloseCurrent(s.(connecting := None));
    assert Evolves(s, s1);
    RejectAttemptEvolves(s1, a, AuthFailedError(message));
    EvolvesTrans(s, s1, AuthFailed(s, a, message));
  }

  lemma CompleteInv(s: ClientState, id: Id, h: Handler, st: Settlement)
    requires Inv(s)
    ensures Inv(Complete(s, id, h, st))
  {
    match h
    case AuthHandler(a) =>
      if st.Resolve? { AuthSucceededInv(s, a); } else { AuthFailedInv(s, a, st.message); }
    case CallerHandler => SettleCallInv(s, id, CallOutcome(st));
  }

  lemma CompleteEvolves(s: ClientState, id: Id, h: Handler, st: Settlement)
    ensures Evolves(s, Complete(s, id, h, st))
  {
    match h
    case AuthHandler(a) =>
      if st.Resolve? { AuthSucceededEvolves(s, a); } else { AuthFailedEvolves(s, a, st.message); }
    case CallerHandler => SettleCallEvolves(s, id, CallOutcome(st));
  }

  lemma AnswerChallengeInv(s: ClientState, a: nat)
    requires Inv(s)
    ensures Inv(AnswerChallenge(s, a))
  {
    var s1 := s.(nextId := s.nextId + 1, pending := s.pending[s.nextId := AuthHandler(a)]);
    assert KeysBelow(s1.pending, s1.nextId);
    assert KeysBelow(s1.sockets, s1.nextId);
    assert KeysBelow(s1.calls, s1.nextId);
    assert KeysBelow(s1.attempts, s1.nextId);
    TransmitInv(s1, Req(s.nextId, ConnectMethod, Some(AuthParams(s.token))));
  }

  lemma AnswerChallengeEvolves(s: ClientState, a: nat)
    ensures Evolves(s, AnswerChallenge(s, a))
  {
    var s1 := s.(nextId := s.nextId + 1, pending := s.pending[s.nextId := AuthHandler(a)]);
    var f := Req(s.nextId, ConnectMethod, Some(AuthParams(s.token)));
    assert PendingFresh(s.pending, s1.pending, s.nextId);
    assert Evolves(s, s1);
    TransmitEvolves(s1, f);
    AnswerChallengeSends(s, a);
    EvolvesTrans(s, s1, Transmit(s1, f));
  }

  /** The challenge answer is the transmission of the `connect` request on the extended pending table. */
  lemma AnswerChallengeSends(s: ClientState, a: nat)
    ensures AnswerChallenge(s, a)
         == Transmit(s.(nextId := s.nextId + 1, pending := s.pending[s.nextId := AuthHandler(a)]),
                     Req(s.nextId, ConnectMethod, Some(AuthParams(s.token))))
  {
  }

  lemma RouteResponseInv(s: ClientState, id: Id, m: Message)
    requires Inv(s) && id in s.pending
    ensures Inv(RouteResponse(s, id, m))
  {
    var s1 := s.(pending := s.pending - {id});
    assert KeysBelow(s1.pending, s1.nextId);
    CompleteInv(s1, id, s.pending[id], ResponseSettlement(m));
  }

  lemma RouteResponseEvolves(s: ClientState, id: Id, m: Message)
    requires id in s.pending
    ensures Evolves(s, RouteResponse(s, id, m))
  {
    var s1 := s.(pending := s.pending - {id});
    assert PendingFresh(s.pending, s1.pending, s.nextId);
    assert Evolves(s, s1);
    CompleteEvolves(s1, id, s.pending[id], ResponseSettlement(m));
    EvolvesTrans(s, s1, RouteResponse(s, id, m));
  }

  lemma NotifyInv(s: ClientState, m: Message)
    requires Inv(s)
    ensures Inv(Notify(s, m))
  {
    if NotificationName(m).Some? {
      var s1 := s.(emitted := s.emitted + [NotificationEvent(m), NamedEvent(NotificationName(m).value, NotificationArg(m))]);
      assert Notify(s, m) == s1;
    }
  }

  lemma NotifyEvolves(s: ClientState, m: Message)
    ensures Evolves(s, Notify(s, m))
  {
    if NotificationName(m).Some? {
      var s1 := s.(emitted := s.emitted + [NotificationEvent(m), NamedEvent(NotificationName(m).value, NotificationArg(m))]);
      assert Notify(s, m) == s1;
      assert Evolves(s, s1);
    } else {
      EvolvesRefl(s);
    }
  }

  lemma HandleMessageInv(s: ClientState, m: Message, a: nat)
    requires Inv(s)
    ensures Inv(HandleMessage(s, m, a))
  {
    if IsChallenge(m) {
      AnswerChallengeInv(s, a);
    } else if IsResponse(m) && m.id.value in s.pending {
      RouteResponseInv(s, m.id.value, m);
    } else {
      NotifyInv(s, m);
    }
  }

  lemma HandleMessageEvolves(s: ClientState, m: Message, a: nat)
    ensures Evolves(s, HandleMessage(s, m, a))
  {
    if IsChallenge(m) {
      AnswerChallengeEvolves(s, a);
    } else if IsResponse(m) && m.id.value in s.pending {
      RouteResponseEvolves(s, m.id.value, m);
    } else {
      NotifyEvolves(s, m);
    }
  }

  lemma AwaitAttemptInv(s: ClientState, r: ConnectReturn)
    requires Inv(s)
    ensures Inv(AwaitAttempt(s, r))
  {
    if !r.AlreadyConnected? && r.attempt in s.attempts {
      match s.attempts[r.attempt]
      case Waiting => assert AwaitAttempt(s, r) == s.(reconnectWaits := s.reconnectWaits + {r.attempt});
      case Resolved(_) =>
      case Rejected(_) => ScheduleReconnectInv(s);
    }
  }

  lemma AwaitAttemptEvolves(s: ClientState, r: ConnectReturn)
    ensures Evolves(s, AwaitAttempt(s, r))
  {
    if !r.AlreadyConnected? && r.attempt in s.attempts {
      match s.attempts[r.attempt]
      case Waiting =>
        var s1 := s.(reconnectWaits := s.reconnectWaits + {r.attempt});
        assert AwaitAttempt(s, r) == s1;
        assert Evolves(s, s1);
      case Resolved(_) => EvolvesRefl(s);
      case Rejected(_) => ScheduleReconnectEvolves(s);
    } else {
      EvolvesRefl(s);
    }
  }

  lemma ConnectTimedOutInv(s: ClientState, a: nat)
    requires Inv(s)
    ensures Inv(ConnectTimedOut(s, a))
  {
    CloseCurrentInv(s);
    RejectAttemptInv(CloseCurrent(s), a, ConnectTimeoutError);
  }

  lemma ConnectTimedOutEvolves(s: ClientState, a: nat)
    ensures Evolves(s, ConnectTimedOut(s, a))
  {
    CloseCurrentEvolves(s);
    RejectAttemptEvolves(CloseCurrent(s), a, ConnectTimeoutError);
    EvolvesTrans(s, CloseCurrent(s), RejectAttempt(CloseCurrent(s), a, ConnectTimeoutError));
  }

  lemma RequestTimedOutInv(s: ClientState, id: Id, methodName: string)
    requires Inv(s)
    ensures Inv(RequestTimedOut(s, id, methodName))
  {
    var s1 := s.(pending := s.pending - {id});
    assert Inv(s1);
    SettleCallInv(s1, id, Rejected(RequestTimeoutError(methodName)));
  }

  lemma RequestTimedOutEvolves(s: ClientState, id: Id, methodName: string)
    ensures Evolves(s, RequestTimedOut(s, id, methodName))
  {
    var s1 := s.(pending := s.pending - {id});
    assert Evolves(s, s1);
    SettleCallEvolves(s1, id, Rejected(RequestTimeoutError(methodName)));
    EvolvesTrans(s, s1, SettleCall(s1, id, Rejected(RequestTimeoutError(methodName))));
  }

  lemma ReconnectFiredInv(s: ClientState)
    requires Inv(s.(reconnectTimer := None))
    ensures Inv(ReconnectFired(s))
  {
    var s1 := s.(reconnectTimer := None);
    ConnectInv(s1);
    AwaitAttemptInv(Connect(s1), ConnectResult(s1));
  }

  lemma ReconnectFiredEvolves(s: ClientState)
    requires Inv(s.(reconnectTimer := None))
    ensures Evolves(s, ReconnectFired(s))
  {
    var s1 := s.(reconnectTimer := None);
    assert Evolves(s, s1);
    if s1.autoReconnect {
      ConnectEvolves(s1);
      AwaitAttemptEvolves(Connect(s1), ConnectResult(s1));
      EvolvesTrans(s, s1, Connect(s1));
      EvolvesTrans(s, Connect(s1), ReconnectFired(s));
    }
  }

  /** A fired reconnect timer leaves no reconnect timer armed, so the slot may be cleared. */
  lemma ClearReconnectTimer(s: ClientState, h: nat)
    requires Inv(s) && ReconnectTimer(h) in s.timers
    ensures var s1 := ClearTimer(s, ReconnectTimer(h)); Inv(s1.(reconnectTimer := None))
  {
  }

  lemma OnTimerInv(s: ClientState, t: Timer)
    requires Inv(s) && t in s.timers
    ensures Inv(OnTimer(s, t))
  {
    match t
    case ConnectTimeout(a) =>
      ClearTimerInv(s, t);
      ConnectTimedOutInv(ClearTimer(s, t), a);
    case RequestTimeout(id, methodName) =>
      ClearTimerInv(s, t);
      RequestTimedOutInv(ClearTimer(s, t), id, methodName);
    case ReconnectTimer(h) =>
      ClearReconnectTimer(s, h);
      ReconnectFiredInv(ClearTimer(s, t));
  }

  lemma OnTimerEvolves(s: ClientState, t: Timer)
    requires Inv(s) && t in s.timers
    ensures Evolves(s, OnTimer(s, t))
  {
    ClearTimerEvolves(s, t);
    match t
    case ConnectTimeout(a) =>
      ConnectTimedOutEvolves(ClearTimer(s, t), a);
      EvolvesTrans(s, ClearTimer(s, t), OnTimer(s, t));
    case RequestTimeout(id, methodName) =>
      RequestTimedOutEvolves(ClearTimer(s, t), id, methodName);
      EvolvesTrans(s, ClearTimer(s, t), OnTimer(s, t));
    case ReconnectTimer(h) =>
      ClearReconnectTimer(s, h);
      ReconnectFiredEvolves(ClearTimer(s, t));
      EvolvesTrans(s, ClearTimer(s, t), OnTimer(s, t));
  }

  lemma StepInv(s: ClientState, e: Event)
    requires Inv(s)
    ensures Inv(Step(s, e))
  {
    if Enabled(s, e) {
      match e
      case ConnectCalled => ConnectInv(s);
      case CallCalled(methodName, params) => CallInv(s, methodName, params);
      case DisconnectCalled => DisconnectInv(s);
      case SocketOpened(k) => OnOpenInv(s, k);
      case PeerClosing(k) => OnPeerClosingInv(s, k);
      case SocketErrored(k) => OnErrorInv(s, k);
      case SocketClosed(k) => OnCloseInv(s, k);
      case MessageReceived(k, m) =>
        if k in s.sockets && s.sockets[k].handlers {
          HandleMessageInv(s, m, s.sockets[k].attempt);
        }
      case TimerFired(t) => OnTimerInv(s, t);
    }
  }

  lemma StepEvolves(s: ClientState, e: Event)
    requires Inv(s)
    ensures Evolves(s, Step(s, e))
  {
    if Enabled(s, e) {
      match e
      case ConnectCalled => ConnectEvolves(s);
      case CallCalled(methodName, params) => CallEvolves(s, methodName, params);
      case DisconnectCalled => DisconnectEvolves(s);
      case SocketOpened(k) => OnOpenEvolves(s, k);
      case PeerClosing(k) => OnPeerClosingEvolves(s, k);
      case SocketErrored(k) => OnErrorEvolves(s, k);
      case SocketClosed(k) => OnCloseEvolves(s, k);
      case MessageReceived(k, m) =>
        if k in s.sockets && s.sockets[k].handlers {
          HandleMessageEvolves(s, m, s.sockets[k].attempt);
        }
      case TimerFired(t) => OnTimerEvolves(s, t);
    }
  }

  // ---------------------------------------------------------------------
  // Properties of whole runs
  // ---------------------------------------------------------------------

  /** A new client satisfies the invariant, is quiet about nothing yet, and is not connected. */
  lemma InitialInv(token: string, urlParses: bool)
    ensures Inv(Initial(token, urlParses))
    ensures !IsConnected(Initial(token, urlParses))
    ensures Initial(token, urlParses).autoReconnect
  {
  }

  /** The invariant holds after any sequence of stimuli. */
  lemma {:induction false} RunInv(s: ClientState, es: seq<Event>)
    requires Inv(s)
    ensures Inv(Run(s, es))
    decreases |es|
  {
    if es != [] {
      StepInv(s, es[0]);
      RunInv(Step(s, es[0]), es[1..]);
    }
  }

  /**
   * Over any run, settled promises never change, frames and events are
   * only appended, and a quiet client stays quiet.
   */
  lemma {:induction false} RunEvolves(s: ClientState, es: seq<Event>)
    requires Inv(s)
    ensures Evolves(s, Run(s, es))
    decreases |es|
  {
    if es == [] {
      EvolvesRefl(s);
    } else {
      StepInv(s, es[0]);
      StepEvolves(s, es[0]);
      RunEvolves(Step(s, es[0]), es[1..]);
      EvolvesTrans(s, Step(s, es[0]), Run(s, es));
    }
  }

  /** Never two reconnect timers: both must be the one the slot names. */
  lemma AtMostOneReconnectTimer(s: ClientState, t1: Timer, t2: Timer)
    requires Inv(s)
    requires t1 in s.timers && t1.ReconnectTimer? && t2 in s.timers && t2.ReconnectTimer?
    ensures t1 == t2
  {
  }

  /**
   * A response id is consumed at most once: an id the oracle has issued
   * and that is no longer pending never becomes pending again, whatever
   * happens, so a late response for it completes no caller.
   */
  lemma {:induction false} IdNeverReissued(s: ClientState, es: seq<Event>, id: Id)
    requires Inv(s) && id < s.nextId && id !in s.pending
    ensures id !in Run(s, es).pending
    decreases |es|
  {
    if es != [] {
      StepInv(s, es[0]);
      StepEvolves(s, es[0]);
      IdNeverReissued(Step(s, es[0]), es[1..], id);
    }
  }

  /**
   * `disconnect()` suppresses reconnects: after it, whatever the runtime
   * delivers and whatever the caller does, reconnects stay off and no
   * reconnect timer is ever armed, so the reconnect loop never runs again.
   */
  lemma DisconnectSuppressesReconnect(s: ClientState, es: seq<Event>)
    requires Inv(s)
    ensures var s' := Run(Disconnect(s), es);
      && !s'.autoReconnect && s'.reconnectTimer.None?
      && forall t :: t in s'.timers ==> !t.ReconnectTimer?
  {
    var s0 := Disconnect(s);
    DisconnectInv(s);
    DisconnectQuiet(s);
    RunInv(s0, es);
    RunEvolves(s0, es);
    QuietArmsNothing(Run(s0, es));
  }

  /** `disconnect()` switches reconnects off and cancels the armed one. */
  lemma DisconnectQuiet(s: ClientState)
    ensures Quiet(Disconnect(s))
  {
  }

  /** A quiet client has no reconnect timer armed. */
  lemma QuietArmsNothing(s: ClientState)
    requires Inv(s) && Quiet(s)
    ensures forall t :: t in s.timers ==> !t.ReconnectTimer?
  {
  }
}

/**
 * Wire shapes of the Gateway protocol as the client sees them: inbound
 * messages (already parsed from JSON), outbound request frames, and the pure
 * decisions the client makes about one inbound message.
 */
module GatewayProtocol {
  import opened Values

  /** A correlation id. The client's own ids come from a fresh-id oracle. */
  type Id = nat

  /**
   * An inbound message. Every field is optional, as in the source's
   * `OpenClawMessage` interface; `kind` is the wire field `type`, and
   * `error` holds `error.message` when the `error` object is present.
   */
  datatype Message = Message(
    kind: Option<string>,
    id: Option<Id>,
    methodName: Option<string>,
    params: Option<Json>,
    event: Option<string>,
    ok: Option<bool>,
    error: Option<string>,
    payload: Option<Json>,
    result: Option<Json>)

  /** An outbound `{type: "req", id, method, params}` frame; `params` may be undefined. */
  datatype Frame = Req(id: Id, methodName: string, params: Option<Json>)

  const ProtocolVersion := 3
  const ClientName := "mission-control"
  const ClientVersion := "1.0.0"
  const ClientPlatform := "web"
  const ClientMode := "ui"
  const ConnectMethod := "connect"
  const ChallengeEvent := "connect.challenge"
  const ListSessionsMethod := "sessions.list"
  const SendMessageMethod := "sessions.send"

  /** The `params` object of the authentication request answering a challenge. */
  function AuthParams(token: string): (r: Json)
    ensures r.JObj? && r.fields.Keys == {"minProtocol", "maxProtocol", "client", "auth"}
    ensures r.fields["minProtocol"] == JNum(ProtocolVersion) && r.fields["maxProtocol"] == JNum(ProtocolVersion)
    ensures r.fields["client"] == JObj(map["id" := JStr("mission-control"), "version" := JStr("1.0.0"),
                                           "platform" := JStr("web"), "mode" := JStr("ui")])
    ensures r.fields["auth"] == JObj(map["token" := JStr(token)])
  {
    JObj(map[
      "minProtocol" := JNum(ProtocolVersion),
      "maxProtocol" := JNum(ProtocolVersion),
      "client" := JObj(map[
        "id" := JStr(ClientName),
        "version" := JStr(ClientVersion),
        "platform" := JStr(ClientPlatform),
        "mode" := JStr(ClientMode)]),
      "auth" := JObj(map["token" := JStr(token)])])
  }

  /** `{type: "event", event: "connect.challenge"}` starts the handshake. */
  predicate IsChallenge(m: Message) {
    m.kind == Some("event") && m.event == Some(ChallengeEvent)
  }

  /** `type === "res"` with an id: a candidate response for a pending request. */
  predicate IsResponse(m: Message) {
    m.kind == Some("res") && m.id.Some?
  }

  /** How a matched response completes its pending entry. */
  datatype Settlement = Resolve(value: Option<Json>) | Reject(message: string)

  /**
   * `ok === false` together with an `error` rejects with `error.message`;
   * anything else resolves with `payload ?? result`.
   */
  function ResponseSettlement(m: Message): (r: Settlement)
    ensures r.Reject? <==> m.ok == Some(false) && m.error.Some?
    ensures r.Reject? ==> r.message == m.error.value
    ensures r.Resolve? && m.payload.Some? && m.payload.value != JNull ==> r.value == m.payload
    ensures r.Resolve? && (m.payload.None? || m.payload == Some(JNull)) ==> r.value == m.result
  {
    if m.ok == Some(false) && m.error.Some? then Reject(m.error.value)
    else Resolve(Coalesce(m.payload, m.result))
  }

  /** The listener name a notification is emitted under: `method || event`, if either is truthy. */
  function NotificationName(m: Message): (r: Option<string>)
    ensures r.Some? <==> NonEmpty(m.methodName) || NonEmpty(m.event)
    ensures NonEmpty(m.methodName) ==> r == m.methodName
    ensures !NonEmpty(m.methodName) && NonEmpty(m.event) ==> r == m.event
  {
    if NonEmpty(m.methodName) then m.methodName
    else if NonEmpty(m.event) then m.event
    else None
  }

  /** The argument of a named notification: `params || message`. */
  datatype NotifyArg = ParamsArg(params: Json) | MessageArg(message: Message)

  function NotificationArg(m: Message): (r: NotifyArg)
    ensures r.ParamsArg? <==> m.params.Some? && Truthy(m.params.value)
    ensures r.ParamsArg? ==> m.params == Some(r.params)
    ensures r.MessageArg? ==> r.message == m
  {
    if m.params.Some? && Truthy(m.params.value) then ParamsArg(m.params.value) else MessageArg(m)
  }

  /** The `{sessionKey, content}` parameters of `sendMessage`. */
  function SendMessageParams(sessionKey: string, content: string): (r: Json)
    ensures r.JObj? && r.fields.Keys == {"sessionKey", "content"}
    ensures r.fields["sessionKey"] == JStr(sessionKey) && r.fields["content"] == JStr(content)
  {
    JObj(map["sessionKey" := JStr(sessionKey), "content" := JStr(content)])
  }
}

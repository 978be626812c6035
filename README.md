# Mission Control: the Gateway client and the two REST mutation handlers

This project models the core of Mission Control, a task-tracking dashboard for a small team of
software agents. The model has two parts.

**The OpenClaw Gateway client** (`OpenClawClient`) keeps one authenticated socket to the Gateway.
- `connect()` tears down any stale socket and opens a new one, with a 10 s connection timeout.
  Callers that arrive while an attempt is in flight join that attempt.
- The handshake runs when the Gateway sends a `connect.challenge`. The client answers with a
  `connect` request that carries protocol version 3, the client identity `mission-control` and the
  token. A successful response marks the client connected and authenticated.
- `call(method, params)` registers a pending request under a fresh id, with a 30 s timeout, and
  sends a `req` frame. Responses are routed back to their pending entry by id.
- Any other message that has a `method` or an `event` is emitted as a notification.
- `onclose` resets the flags. A reconnect timer of 10 s is armed when reconnects are on and the
  client had been connected. A failed reconnect re-arms that timer.
- `disconnect()` turns reconnects off and detaches `onclose` before closing.
- `getOpenClawClient()` hands out one shared client.

**The REST handlers** `POST /api/escalations` and `POST /api/tasks` work on the `tasks` and
`activities` tables.
- Accepting an escalation reassigns the task to the agent `saraai` and logs the assignment.
- Declining an escalation turns the task back into an ordinary assigned task.
- Creating a task inserts it with the defaults and logs its creation.

## How the model is built

- `values.dfy` (module `Values`): parsed JSON values; JavaScript truthiness for `!x`, `x || y` and
  `x ?? y`; the `${v}` rendering of a nullable column; the `process.env.X || default` pattern.
- `gateway_protocol.dfy` (module `GatewayProtocol`): inbound messages and outbound `req` frames. It
  also holds the pure per-message decisions: is this a challenge, is it a response, how a response
  settles, and under which name a notification is emitted with which argument.
- `gateway_spec.dfy` (module `GatewaySpec`): the client as a state machine over values.
  - `ClientState` holds the class fields and the parts of the runtime the client acts on:
    - the sockets it created, with their ready state and which handlers are still attached;
    - the armed timers;
    - the promise of each connect attempt and of each call, each settled at most once;
    - the attempts the reconnect loop is awaiting;
    - the frames transmitted and the events emitted.
  - There is one function per stimulus.
  - `Step` and `Run` apply any sequence of stimuli that the runtime may deliver.
  - `Inv` is the invariant:
    - every identity was drawn from the oracle;
    - the `reconnectTimer` slot names the only armed reconnect timer;
    - only the current socket can run `onopen`, `onmessage` or `onclose`; a socket closed by
      `disconnect()` can still run `onerror` while it is closing.
- `gateway_proofs.dfy` (module `GatewayProofs`): every stimulus keeps `Inv`. Every stimulus also
  relates the state before and after by `Evolves`:
  - the oracle moves forward;
  - settled promises never change;
  - frames and events are only appended;
  - new pending entries have fresh ids;
  - once reconnects are off and none is armed, that stays so.

  These facts are lifted to whole runs.
- `gateway_properties.dfy` (module `GatewayProperties`): what each stimulus does, field by field.
  It ends with a whole handshake as a concrete trace.
- `gateway_client.dfy` (module `Gateway`): the class `OpenClawClient`, with the source's fields
  updated in place.
  - It has one method per stimulus. Each keeps `Valid()` and performs exactly the transition of
    the matching `GatewaySpec` function, so everything proved about those functions holds of the
    class.
  - The class `ClientModule` holds the module-level defaults and the singleton.
- `store.dfy` (modules `TaskStore`, `ApiResponse`): the two tables, with AUTOINCREMENT counters, as
  a value and as the mutable `Database` the handlers share; and the response shapes.
- `escalations_route.dfy`, `tasks_route.dfy`: each handler as a function `Handle` of the store
  before the request. Each also has a method `Post` on the shared `Database`, proved to produce
  exactly `Handle`'s store and response, and lemmas about `Handle`.

### The environment and the unknowns

- **Sockets.** Each socket's callbacks are stimuli:
  - `SocketOpened`;
  - `PeerClosing`, where the peer starts the closing handshake;
  - `SocketErrored`, `SocketClosed`;
  - `MessageReceived`, where the message has already been parsed.
- **Timers.** Timers are entries of a map. A timer firing is a stimulus; a timer that fires is no
  longer armed.
- **Fresh ids.** `crypto.randomUUID()` and every other fresh identity are drawn from one counter,
  `nextId`: a connect attempt's promise, a socket, a reconnect-timer handle. Ids are therefore
  unique.
- **Parameters.** These are inputs to the model:
  - whether `new URL(url)` succeeds (`urlParses`);
  - the environment variables;
  - the clock (`now`) in the handlers.

### Where the code departs from the documented design (the model follows the code)

- **`onclose` does not fail pending requests** (src/lib/openclaw/client.ts:93-105). The documented design
  says a close fails them all with a connection-lost error. In the code they wait until their 30 s
  timeout fires. `GatewayProperties.OnCloseRules` states that `pending` and the callers' promises
  are left as they were.
- **The connection timeout is cleared when the socket opens** (client.ts:88-91), not when
  authentication completes. A handshake that stalls after `onopen` is never timed out.
- **A URL that does not parse leaves the rejected attempt in `connecting`.** The executor's `catch`
  sets `connecting = null` before `connect()` assigns the promise to `this.connecting`
  (client.ts:59, 125-128). From then on every `connect()` returns that rejected promise, and
  every reconnect joins it and re-arms its timer, until `disconnect()` resets `connecting`
  (`GatewayProperties.BadUrlAttemptSticks`, provided no socket closed by an earlier `disconnect()`
  still runs `onerror`).
- **A stale `onerror` clears a newer attempt's `connecting`.** `disconnect()` detaches only `onclose`
  (client.ts:256-259), so its socket keeps `onerror` while it closes. When that error arrives after
  a new `connect()`, the old socket's handler sets `connecting = null` (client.ts:107-115) and
  rejects its own, older attempt. The next `connect()` then starts yet another attempt and tears
  down the newer socket while it is still connecting (`GatewayProperties.StaleErrorClearsConnecting`,
  reachable by `GatewayProperties.StaleErrorScenario`).
- **`onerror` once connected rejects nothing** (client.ts:111-114).
- **The connection timeout leaves `connecting` as it was** (client.ts:81-86).
- **Late responses are not simply dropped.** A response whose id is unknown, or has already been
  answered or timed out, is not completed, but it still falls through to the notification branch
  (client.ts:183-200). A response with a `method` or an `event` field is emitted as a
  notification.

## Model

| member | source | states |
|---|---|---|
| Gateway.OpenClawClient.constructor | src/lib/openclaw/client.ts:28-48 | A new client is disconnected, has reconnects on, holds no socket, timer or pending request, and satisfies the invariant |
| Gateway.OpenClawClient.Connect | src/lib/openclaw/client.ts:50-132 | Keeps the invariant and performs exactly `GatewaySpec.Connect`: an early return, joining the in-flight attempt, or a new attempt; returns which of the three promises it hands back |
| Gateway.OpenClawClient.StartAttempt | src/lib/openclaw/client.ts:59-129 | The executor: tear down the stale socket, then open a socket with its timeout, or reject on the URL; `connecting` is assigned after the executor ran |
| Gateway.OpenClawClient.ScheduleReconnect | src/lib/openclaw/client.ts:203-217 | Arms the reconnect timer exactly as `GatewaySpec.ScheduleReconnect` |
| Gateway.OpenClawClient.Call | src/lib/openclaw/client.ts:219-239 | Keeps the invariant; refuses, or registers the request with its timeout and sends it, exactly as `GatewaySpec.Call`; returns the refusal or the new id |
| Gateway.OpenClawClient.ListSessions | src/lib/openclaw/client.ts:242-244 | `call("sessions.list")` with no parameters |
| Gateway.OpenClawClient.SendMessage | src/lib/openclaw/client.ts:246-248 | `call("sessions.send", {sessionKey, content})` |
| Gateway.OpenClawClient.Disconnect | src/lib/openclaw/client.ts:250-264 | Keeps the invariant and performs exactly `GatewaySpec.Disconnect` |
| Gateway.OpenClawClient.IsConnected | src/lib/openclaw/client.ts:266-268 | Returns `connected && authenticated && ws.readyState === OPEN` and changes nothing |
| Gateway.OpenClawClient.SocketOpened | src/lib/openclaw/client.ts:88-91 | `onopen`: the socket is open and, while its handlers are attached, the attempt's connection timeout is cleared |
| Gateway.OpenClawClient.SocketErrored | src/lib/openclaw/client.ts:107-115 | `onerror`, exactly as `GatewaySpec.OnError`, keeping the invariant |
| Gateway.OpenClawClient.SocketClosed | src/lib/openclaw/client.ts:93-105 | `onclose`, exactly as `GatewaySpec.OnClose`, keeping the invariant |
| Gateway.OpenClawClient.MessageReceived | src/lib/openclaw/client.ts:117-124 | `onmessage` hands the message to `handleMessage` with the resolve and reject of the attempt that created the socket; a socket whose handlers were detached ignores it |
| Gateway.OpenClawClient.HandleMessage | src/lib/openclaw/client.ts:134-201 | A challenge is answered, a response to a pending id is routed, anything else goes to notification; keeps the invariant |
| Gateway.OpenClawClient.TimerFired | src/lib/openclaw/client.ts:81-86 | A connection timeout, request timeout or reconnect timer runs its callback exactly as `GatewaySpec.OnTimer`, keeping the invariant |
| Gateway.OpenClawClient.ReconnectFired | src/lib/openclaw/client.ts:206-216 | The reconnect callback forgets its handle, returns if reconnects are off, and otherwise awaits `connect()`; keeps the invariant |
| Gateway.ClientModule.constructor | src/lib/openclaw/client.ts:25-26 | The default URL is `OPENCLAW_GATEWAY_URL` when it is set and non-empty, and `ws://127.0.0.1:18789` otherwise; the default token is `OPENCLAW_GATEWAY_TOKEN`, or empty |
| Gateway.ClientModule.GetOpenClawClient | src/lib/openclaw/client.ts:271-279 | The first call creates a fresh client with the defaults and stores it; every later call returns that same client and changes nothing |
| Gateway.ClientModule.SharedInstance | src/lib/openclaw/client.ts:271-279 | Two calls of `getOpenClawClient()` return the same object |
| GatewayProtocol.AuthParams | src/lib/openclaw/client.ts:143-160 | The handshake's params: exactly `minProtocol`, `maxProtocol` (both 3), `client` with id `mission-control`, and `auth` with the configured token |
| GatewayProtocol.ResponseSettlement | src/lib/openclaw/client.ts:187-191 | A response rejects exactly when `ok === false` and `error` is present, with the error's message; otherwise it resolves with `payload ?? result` |
| GatewayProtocol.NotificationName | src/lib/openclaw/client.ts:197-199 | A message has a name exactly when `method` or `event` is truthy; the name is `method` if truthy, else `event` |
| GatewayProtocol.NotificationArg | src/lib/openclaw/client.ts:199 | The listener argument is `params` exactly when `params` is truthy, and the whole message otherwise |
| GatewayProtocol.SendMessageParams | src/lib/openclaw/client.ts:247 | The params object has exactly the keys `sessionKey` and `content`, holding the arguments |
| GatewayProofs.InitialInv | src/lib/openclaw/client.ts:28-48 | A new client satisfies the invariant, is not connected, and has reconnects on |
| GatewayProofs.StepInv | src/lib/openclaw/client.ts:50-268 | Every stimulus keeps the invariant: ids drawn from the oracle, at most one reconnect timer, only the current socket able to run `onopen`, `onmessage` or `onclose` |
| GatewayProofs.StepEvolves | src/lib/openclaw/client.ts:50-268 | Every stimulus only moves the oracle forward, never changes a settled promise, only appends frames and events, registers pending entries only under fresh ids, and keeps a quiet client quiet |
| GatewayProofs.RunInv | src/lib/openclaw/client.ts:50-268 | The invariant holds after any sequence of stimuli |
| GatewayProofs.RunEvolves | src/lib/openclaw/client.ts:50-268 | The `Evolves` relation holds between the start and the end of any run |
| GatewayProofs.AtMostOneReconnectTimer | src/lib/openclaw/client.ts:203-206 | Two armed reconnect timers are the same timer |
| GatewayProofs.IdNeverReissued | src/lib/openclaw/client.ts:224-228 | An id that was issued and is no longer pending never becomes pending again, whatever happens, so a late response completes no caller |
| GatewayProofs.DisconnectSuppressesReconnect | src/lib/openclaw/client.ts:250-264 | After `disconnect()`, under any later stimuli, reconnects stay off and no reconnect timer is ever armed |
| GatewayProofs.DisconnectQuiet | src/lib/openclaw/client.ts:251-255 | After `disconnect()` reconnects are off and no reconnect timer slot is held |
| GatewayProofs.QuietArmsNothing | src/lib/openclaw/client.ts:203-206 | With reconnects off and the slot empty, no reconnect timer is armed |
| GatewayProperties.ConnectIdempotent | src/lib/openclaw/client.ts:51-53 | Connected on an open socket, `connect()` changes nothing and returns at once |
| GatewayProperties.ConnectJoinsInFlight | src/lib/openclaw/client.ts:55-57 | With an attempt in flight, `connect()` returns that attempt and changes nothing, so no second socket is opened |
| GatewayProperties.ConnectStarts | src/lib/openclaw/client.ts:59-86 | A new attempt waits; the fresh socket is connecting with all handlers attached and is the only socket that can run `onopen`, `onmessage` or `onclose`; the stale socket is detached and closed; the 10 s timeout is armed; `connecting` holds the attempt; pending requests, promises, frames and events are untouched |
| GatewayProperties.ConnectBadUrl | src/lib/openclaw/client.ts:125-131 | An unparsable URL rejects the attempt with `Invalid URL`, creates no socket and no timer, and leaves the rejected attempt in `connecting` |
| GatewayProperties.BadUrlAttemptSticks | src/lib/openclaw/client.ts:55-131 | After an unparsable URL, and whatever stimuli follow other than `disconnect()`, `connecting` keeps the rejected attempt and every `connect()` joins it; this needs that no socket closed by an earlier `disconnect()` can still run `onerror` |
| GatewayProperties.DeliveringSocketIsCurrent | src/lib/openclaw/client.ts:117-120 | A socket that still delivers messages to `handleMessage` is `this.ws` and is open, so `this.ws!.send` works |
| GatewayProperties.ChallengeAnswered | src/lib/openclaw/client.ts:140-179 | A challenge adds exactly one pending entry, under a fresh id, for the receiving socket's attempt, and sends exactly one `connect` frame with the token on that socket; nothing else changes |
| GatewayProperties.AuthSucceeds | src/lib/openclaw/client.ts:163-170 | Handshake success: connected, authenticated, `connecting` cleared, `connected` emitted, the entry removed, the attempt resolved if it still waited; sockets, timers, frames and calls unchanged |
| GatewayProperties.AuthFails | src/lib/openclaw/client.ts:171-175 | Handshake failure: `connecting` cleared, the socket closed, the entry removed, the attempt rejected with `Authentication failed: ` plus the message; the flags are left as they were |
| GatewayProperties.RejectWaiting | src/lib/openclaw/client.ts:111-114 | Rejecting a waiting attempt records the reason and touches no request, socket, flag, frame or event |
| GatewayProperties.ResponseOutcome | src/lib/openclaw/client.ts:187-191 | A caller's promise rejects with `error.message` when `ok === false` with an error, and otherwise resolves with `payload ?? result` |
| GatewayProperties.CallerResponse | src/lib/openclaw/client.ts:183-193 | A response for a caller removes its entry first and settles its promise from the response; nothing else changes |
| GatewayProperties.UnknownResponseIgnored | src/lib/openclaw/client.ts:183-200 | A response with an id that is not pending completes nothing; it only reaches the notification branch |
| GatewayProperties.NotificationRouting | src/lib/openclaw/client.ts:196-200 | A message with a name emits `notification`, then the name with `params`, or the whole message when `params` is falsy; one without a name is dropped; nothing else changes |
| GatewayProperties.ScheduleReconnectArms | src/lib/openclaw/client.ts:203-206 | With reconnects on and no timer, exactly one fresh 10 s reconnect timer is armed and recorded |
| GatewayProperties.ScheduleReconnectNoop | src/lib/openclaw/client.ts:204 | A timer already armed, or reconnects off: nothing happens |
| GatewayProperties.CallRefusedChangesNothing | src/lib/openclaw/client.ts:220-222 | Without a socket, or not connected, or not authenticated, `call()` rejects with `Not connected to OpenClaw Gateway` and changes nothing |
| GatewayProperties.IssueRegisters | src/lib/openclaw/client.ts:224-228 | An accepted call returns the fresh id, and registering does not change the socket's state |
| GatewayProperties.CallSends | src/lib/openclaw/client.ts:224-237 | On an open socket: exactly one new pending entry and waiting promise, under a fresh id; its 30 s timeout armed; exactly the frame `{req, id, method, params}` sent on the current socket |
| GatewayProperties.CallSendThrows | src/lib/openclaw/client.ts:227-238 | A send that throws inside the executor rejects the promise, sends nothing, and leaves the entry and its timeout |
| GatewayProperties.CallDropped | src/lib/openclaw/client.ts:237 | On a closing or closed socket the frame is dropped and the caller waits for its timeout |
| GatewayProperties.CallSendsOnlyWhenAuthenticated | src/lib/openclaw/client.ts:220-222 | `call()` sends a frame or adds an entry only if there is a socket and the client is connected and authenticated |
| GatewayProperties.ListSessionsSends | src/lib/openclaw/client.ts:242-244 | `listSessions()` sends one `sessions.list` frame without parameters |
| GatewayProperties.SendMessageSends | src/lib/openclaw/client.ts:246-248 | `sendMessage` sends one `sessions.send` frame with `{sessionKey, content}` |
| GatewayProperties.RequestTimeoutFires | src/lib/openclaw/client.ts:230-235 | A request timeout for a pending id deletes the entry and rejects with `Request timeout: ` plus the method; nothing else changes |
| GatewayProperties.RequestTimeoutAfterResponse | src/lib/openclaw/client.ts:231 | After the response, the timeout only expires |
| GatewayProperties.LateResponseIgnored | src/lib/openclaw/client.ts:230-235 | After a timeout, a response with that id completes nothing |
| GatewayProperties.ConnectTimeoutFires | src/lib/openclaw/client.ts:81-86 | Not connected: the current socket is closed and the waiting attempt rejected with `Connection timeout`; `connecting`, requests and calls unchanged |
| GatewayProperties.ConnectTimeoutWhenConnected | src/lib/openclaw/client.ts:82 | Once connected, the connection timeout only expires |
| GatewayProperties.RejectKeepsTimer | src/lib/openclaw/client.ts:213-214 | Rejecting an attempt arms or disarms no timer other than a reconnect timer |
| GatewayProperties.OnOpenClearsTimeout | src/lib/openclaw/client.ts:88-91 | `onopen` marks the socket open and clears the attempt's timeout, and nothing else |
| GatewayProperties.OnErrorRejects | src/lib/openclaw/client.ts:107-115 | `onerror` before the handshake: timeout cleared, `error` emitted, `connecting` cleared, the attempt rejected with `Failed to connect to OpenClaw Gateway`; requests, sockets and calls unchanged |
| GatewayProperties.OnErrorWhenConnected | src/lib/openclaw/client.ts:107-111 | `onerror` once connected only clears the timeout and emits `error` |
| GatewayProperties.OnCloseRules | src/lib/openclaw/client.ts:93-105 | `onclose` clears the timeout, resets the three flags and emits `disconnected`; it schedules a reconnect exactly when reconnects are on and the client was connected; pending requests and promises are not failed |
| GatewayProperties.OnCloseDetached | src/lib/openclaw/client.ts:62-64 | A socket whose `onclose` was detached only becomes closed |
| GatewayProperties.CloseWhileConnectedReconnects | src/lib/openclaw/client.ts:102-104 | A connected client whose socket closes, with reconnects on, arms a reconnect timer |
| GatewayProperties.FailedReconnectRearms | src/lib/openclaw/client.ts:211-215 | When the attempt the reconnect loop awaits is rejected, a new reconnect timer is armed |
| GatewayProperties.ReconnectTimerWhenOff | src/lib/openclaw/client.ts:207-208 | With reconnects off, the reconnect timer only clears its slot |
| GatewayProperties.ReconnectTimerConnects | src/lib/openclaw/client.ts:206-216 | With reconnects on and no attempt in flight, the reconnect timer starts a new attempt: with a parsable URL its fresh socket is connecting with its timeout armed and the loop awaits it; with an unparsable URL it is rejected and the reconnect timer is re-armed |
| GatewayProperties.ReconnectJoinsInFlight | src/lib/openclaw/client.ts:206-216 | With an attempt in flight, the reconnect timer opens no socket: the loop awaits the attempt if it still waits, and re-arms the timer if it was rejected |
| GatewayProperties.ReconnectRejectedRearms | src/lib/openclaw/client.ts:212-214 | A reconnect whose attempt was rejected at once re-arms the timer |
| GatewayProperties.DisconnectEffects | src/lib/openclaw/client.ts:250-264 | Reconnects off; the reconnect timer cleared; `onclose` detached before the close; `ws` forgotten; flags reset; requests, promises, frames and events untouched |
| GatewayProperties.DisconnectedSocketClosesSilently | src/lib/openclaw/client.ts:256-260 | The disconnected socket's later close runs no handler |
| GatewayProperties.StaleErrorClearsConnecting | src/lib/openclaw/client.ts:107-115 | A closing socket that kept `onerror` clears `connecting` while a newer attempt is in flight on the current socket; the next `connect()` starts another attempt and tears the current socket down |
| GatewayProperties.StaleErrorScenario | src/lib/openclaw/client.ts:250-264 | After `connect()`, `disconnect()` and `connect()`, the first socket is closing with `onerror` attached while the second attempt is in flight, so the stale error above can happen |
| GatewayProperties.IsConnectedAllowsCall | src/lib/openclaw/client.ts:266-268 | `isConnected()` implies `call()` is not refused |
| GatewayProperties.HandshakeScenario | src/lib/openclaw/client.ts:50-201 | New client, `connect()`, socket opens, challenge, accepted answer: connected, attempt resolved, only the `connect` frame sent, only `connected` emitted, nothing pending |
| TaskStore.Database.constructor | src/lib/db/schema.ts:17-48 | An empty store satisfies the id invariant |
| TaskStore.Database.SelectTask | src/app/api/escalations/route.ts:14-20 | The `limit(1)` query returns one row exactly when the id exists, and that row is the task |
| TaskStore.Database.UpdateTaskRow | src/app/api/escalations/route.ts:26-33 | The update replaces the row with that id, if there is one, and changes nothing else |
| TaskStore.Database.InsertActivityRow | src/app/api/tasks/route.ts:31-37 | The insert appends one activity under the next activity id, with null metadata, and changes nothing else |
| TaskStore.Database.InsertTaskRow | src/app/api/tasks/route.ts:17-28 | The insert stores the row under the next AUTOINCREMENT id and returns that id |
| TaskStore.InsertTaskInv | src/lib/db/schema.ts:18 | The new task id is not in use, the key set grows by exactly that id, and the invariant holds |
| TaskStore.AppendActivityInv | src/lib/db/schema.ts:41 | Logging an activity appends exactly one row, keeps earlier rows and the tasks, and keeps the invariant |
| TaskStore.UpdateTaskInv | src/app/api/escalations/route.ts:26-33 | An update keeps the set of task ids and the invariant |
| EscalationsRoute.Post | src/app/api/escalations/route.ts:6-59 | The handler's store and response are exactly those of `Handle`, and it keeps the invariant |
| EscalationsRoute.HandleInv | src/app/api/escalations/route.ts:24-57 | Every request keeps the store's id invariant |
| EscalationsRoute.MissingFieldsRejected | src/app/api/escalations/route.ts:10-12 | A missing or falsy `escalationId` or `action` gives 400 `Missing required fields` and changes nothing |
| EscalationsRoute.ZeroIdIsMissing | src/app/api/escalations/route.ts:10-12 | The id 0 counts as missing, even when a task 0 exists |
| EscalationsRoute.UnknownIdNotFound | src/app/api/escalations/route.ts:14-22 | An id that matches no task gives 404 `Escalation not found` and changes nothing |
| EscalationsRoute.AcceptEffects | src/app/api/escalations/route.ts:24-43 | `accept` answers 200 and changes exactly `assignedAgentId` to `saraai`, `status` to `assigned` and `assignedAt` to now, on that task only; it appends exactly one activity |
| EscalationsRoute.AcceptLogsAssignment | src/app/api/escalations/route.ts:35-41 | The activity has a fresh id, the task id, agent `saraai`, type `assigned` and content `Accepted escalation from ` plus the escalating agent |
| EscalationsRoute.DeclineEffects | src/app/api/escalations/route.ts:46-57 | `decline` answers 200 and changes exactly `isEscalation` to false and `status` to `assigned`; the assignee stays and nothing is logged |
| EscalationsRoute.OtherActionRejected | src/app/api/escalations/route.ts:59 | Any other action gives 400 `Invalid action` and changes nothing |
| EscalationsRoute.SucceedsExactly | src/app/api/escalations/route.ts:10-59 | The answer is 200 exactly when both fields are present, the task exists and the action is `accept` or `decline`; every other answer leaves the store unchanged |
| TasksRoute.Post | src/app/api/tasks/route.ts:5-39 | The handler's store and response are exactly those of `Handle`, and it keeps the invariant |
| TasksRoute.HandleInv | src/app/api/tasks/route.ts:17-37 | Every request keeps the store's id invariant |
| TasksRoute.RejectedExactly | src/app/api/tasks/route.ts:9-14 | The answer is 400 exactly when `title` or `assignedAgentId` is missing or empty; then it is `Title and assigned agent required` and nothing is inserted; otherwise the answer is 200 |
| TasksRoute.CreatesOneTask | src/app/api/tasks/route.ts:17-39 | A valid request inserts exactly one task, under an id not in use, keeps every other task, and answers 200 with that id |
| TasksRoute.NewTaskColumns | src/app/api/tasks/route.ts:17-26 | The new task has the given title and agent; status `assigned`; assigner `user`; the priority, or `medium` when falsy; the description, or null when falsy; both timestamps now; it is not an escalation |
| TasksRoute.LogsCreation | src/app/api/tasks/route.ts:28-37 | Exactly one activity is appended, for the new task id, by the assigned agent, of type `created`, with content `Task "<title>" assigned` |
| TasksRoute.CreateTaskScenario | src/app/api/api.test.ts:14-29 | The test's complete request is answered 200 with `success` and the new id |
| TasksRoute.MissingTitleScenario | src/app/api/api.test.ts:31-40 | The test's request without a title is answered 400 and inserts nothing |

## Left out

- The WebSocket implementation, `setTimeout`/`clearTimeout` and the event loop are modelled as stimuli and state, not run. Timer delays are recorded as values; the order in which the runtime delivers stimuli is left arbitrary (`Run` takes any sequence).
- `new URL(url)` is the parameter `urlParses`, the only outcome of URL parsing that matters to the client. Adding the token as a query parameter (src/lib/openclaw/client.ts:73-75) changes only the URL string handed to the socket, which the model does not carry.
- `new WebSocket(wsUrl)` throwing inside the same `try` (client.ts:79), for example a `SyntaxError` for a URL with a fragment, is folded into `urlParses`: the model rejects every executor failure with the single reason `Invalid URL` and does not distinguish the constructor's error.
- The console log lines, including the redacted connect URL (client.ts:77), are output only.
- `JSON.parse` and its `catch` in `onmessage`: messages arrive already parsed, so an unparsable frame is not a stimulus.
- `crypto.randomUUID()` is a fresh-id oracle of natural numbers shared with the other fresh identities. The `string | number` ids of the wire match a pending entry exactly when they are equal.
- `JSON.stringify` of frames: a frame is kept as a value.
- JSON numbers are integers.
- Event listeners are not modelled. Each `emit` is recorded in order in `emitted`. The no-op `error` listener registered by the constructor (client.ts:47) is what makes emitting `error` safe.
- The resolved value of a caller's promise is kept as the response payload; the TypeScript type parameter `T` has no runtime effect.
- The `catch` paths that answer 500 in both handlers: they depend on failures of the database library. These include a foreign-key violation for an unknown agent id, which SQLite reports by throwing.
- Request bodies are typed. `escalationId` is an integer or absent; `title`, `description`, `priority`, `assignedAgentId` and `action` are strings or absent. Other JSON types in those fields are not modelled. This includes a string `escalationId` that SQLite would convert to an integer when comparing.
- The HTTP layer (`NextResponse`, `request.json()`): requests and responses are values.
- The database is a single in-memory store without concurrent writers. The select and update in `POST /api/escalations` cannot interleave with another request.
- `createdAt` of the activity logged on `accept` is the column default `CURRENT_TIMESTAMP`. It is modelled as the same clock value `now` that the handler uses for `assignedAt`.
- Timestamps are integers supplied by the caller; `new Date()` is the parameter `now`.

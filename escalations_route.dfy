/**
 * `POST /api/escalations`: the user accepts an escalated task, which
 * reassigns it to the system architect agent "saraai" and logs the
 * assignment, or declines it, which returns it to its agent as an ordinary
 * assigned task.
 */
module EscalationsRoute {
  import opened Values
  import opened TaskStore
  import opened ApiResponse

  /** The agent an accepted escalation is assigned to. */
  const Saraai := "saraai"
  const AssignedStatus := "assigned"
  const AssignedActivity := "assigned"

  const MissingFields := "Missing required fields"
  const NotFound := "Escalation not found"
  const InvalidAction := "Invalid action"
  const AcceptedMessage := "Escalation accepted"
  const DeclinedMessage := "Escalation declined"

  /** The two fields the handler reads from the JSON body; an absent or null field is `None`. */
  datatype Request = Request(escalationId: Option<int>, action: Option<string>)

  /** `escalationId` is truthy: present and not 0. */
  predicate HasId(v: Option<int>) {
    v.Some? && v.value != 0
  }

  /** The columns `accept` sets on the escalated task. */
  function Accepted(t: Task, now: int): Task {
    t.(assignedAgentId := Some(Saraai), status := AssignedStatus, assignedAt := Some(now))
  }

  /** The columns `decline` sets on the escalated task. */
  function Declined(t: Task): Task {
    t.(isEscalation := Some(false), status := AssignedStatus)
  }

  /** The activity `accept` logs; `t` is the row as read before the update. */
  function AcceptLog(id: int, t: Task, now: int): NewActivity {
    NewActivity(Some(id), Some(Saraai), AssignedActivity,
                Some("Accepted escalation from " + Interpolate(t.escalatedFromAgentId)), Some(now))
  }

  /** The store after a request, and the response. */
  datatype Outcome = Outcome(store: Store, response: Response)

  /** The handler as a function of the store before the request and the clock. */
  function Handle(st: Store, req: Request, now: int): Outcome {
    if !HasId(req.escalationId) || !NonEmpty(req.action) then Outcome(st, Fail(400, MissingFields))
    else
      var id := req.escalationId.value;
      if id !in st.tasks then Outcome(st, Fail(404, NotFound))
      else if req.action.value == "accept" then
        Outcome(AppendActivity(UpdateTask(st, id, Accepted(st.tasks[id], now)), AcceptLog(id, st.tasks[id], now)),
                Ok(Done(AcceptedMessage)))
      else if req.action.value == "decline" then
        Outcome(UpdateTask(st, id, Declined(st.tasks[id])), Ok(Done(DeclinedMessage)))
      else Outcome(st, Fail(400, InvalidAction))
  }

  /** The handler over the shared database: look the task up, then update it and log. */
  method Post(db: Database, req: Request, now: int) returns (resp: Response)
    modifies db
    ensures db.Contents() == Handle(old(db.Contents()), req, now).store
    ensures resp == Handle(old(db.Contents()), req, now).response
    ensures old(db.Valid()) ==> db.Valid()
  {
    ghost var st := db.Contents();
    if !HasId(req.escalationId) || !NonEmpty(req.action) {
      return Fail(400, MissingFields);
    }
    var id := req.escalationId.value;
    var rows := db.SelectTask(id);
    if |rows| == 0 {
      return Fail(404, NotFound);
    }
    if req.action.value == "accept" {
      db.UpdateTaskRow(id, Accepted(rows[0], now));
      db.InsertActivityRow(AcceptLog(id, rows[0], now));
      resp := Ok(Done(AcceptedMessage));
    } else if req.action.value == "decline" {
      db.UpdateTaskRow(id, Declined(rows[0]));
      resp := Ok(Done(DeclinedMessage));
    } else {
      resp := Fail(400, InvalidAction);
    }
    if Inv(st) {
      HandleInv(st, req, now);
    }
  }

  // ---------------------------------------------------------------------
  // Properties of the handler
  // ---------------------------------------------------------------------

  /** The handler keeps the store's id invariant. */
  lemma HandleInv(st: Store, req: Request, now: int)
    requires Inv(st)
    ensures Inv(Handle(st, req, now).store)
  {
    if HasId(req.escalationId) && NonEmpty(req.action) && req.escalationId.value in st.tasks {
      var id := req.escalationId.value;
      var t := st.tasks[id];
      UpdateTaskInv(st, id, Accepted(t, now));
      AppendActivityInv(UpdateTask(st, id, Accepted(t, now)), AcceptLog(id, t, now));
      UpdateTaskInv(st, id, Declined(t));
    }
  }

  /** A missing or falsy `escalationId` or `action` is a 400 that changes nothing. */
  lemma MissingFieldsRejected(st: Store, req: Request, now: int)
    requires !HasId(req.escalationId) || !NonEmpty(req.action)
    ensures Handle(st, req, now).response == Response(400, ErrorBody(MissingFields))
    ensures Handle(st, req, now).store == st
  {
  }

  /** The id 0 is falsy, so it is reported missing even when a task 0 exists. */
  lemma ZeroIdIsMissing(st: Store, action: Option<string>, now: int)
    ensures Handle(st, Request(Some(0), action), now).response.status == 400
    ensures Handle(st, Request(Some(0), action), now).response.body.error == MissingFields
  {
  }

  /** An id no task has is a 404 that changes nothing. */
  lemma UnknownIdNotFound(st: Store, id: int, action: string, now: int)
    requires id != 0 && action != "" && id !in st.tasks
    ensures Handle(st, Request(Some(id), Some(action)), now) == Outcome(st, Response(404, ErrorBody(NotFound)))
  {
  }

  /**
   * `accept` changes exactly `assignedAgentId`, `status` and `assignedAt`
   * of that one task, and appends exactly one activity.
   */
  lemma AcceptEffects(st: Store, id: int, now: int)
    requires Inv(st) && id != 0 && id in st.tasks
    ensures var o := Handle(st, Request(Some(id), Some("accept")), now);
      var t := st.tasks[id];
      var t' := o.store.tasks[id];
      && o.response == Response(200, Done(AcceptedMessage))
      && o.store.tasks.Keys == st.tasks.Keys
      && (forall k :: k in st.tasks && k != id ==> o.store.tasks[k] == st.tasks[k])
      && t'.assignedAgentId == Some("saraai") && t'.status == "assigned" && t'.assignedAt == Some(now)
      && t'.(assignedAgentId := t.assignedAgentId, status := t.status, assignedAt := t.assignedAt) == t
      && o.store.nextTaskId == st.nextTaskId
      && |o.store.activities| == |st.activities| + 1
      && o.store.activities[..|st.activities|] == st.activities
  {
    var t := st.tasks[id];
    AppendActivityInv(UpdateTask(st, id, Accepted(t, now)), AcceptLog(id, t, now));
  }

  /** The one activity `accept` logs. */
  lemma AcceptLogsAssignment(st: Store, id: int, now: int)
    requires Inv(st) && id != 0 && id in st.tasks
    ensures var o := Handle(st, Request(Some(id), Some("accept")), now);
      var a := o.store.activities[|st.activities|];
      && |o.store.activities| == |st.activities| + 1
      && a.id == st.nextActivityId && a.id !in (set i | 0 <= i < |st.activities| :: st.activities[i].id)
      && a.taskId == Some(id) && a.agentId == Some("saraai") && a.kind == "assigned"
      && a.content == Some("Accepted escalation from " + Interpolate(st.tasks[id].escalatedFromAgentId))
  {
  }

  /**
   * `decline` changes exactly `isEscalation` and `status` of that one task;
   * the assignee stays, and nothing is logged.
   */
  lemma DeclineEffects(st: Store, id: int, now: int)
    requires id != 0 && id in st.tasks
    ensures var o := Handle(st, Request(Some(id), Some("decline")), now);
      var t := st.tasks[id];
      var t' := o.store.tasks[id];
      && o.response == Response(200, Done(DeclinedMessage))
      && o.store.tasks.Keys == st.tasks.Keys
      && (forall k :: k in st.tasks && k != id ==> o.store.tasks[k] == st.tasks[k])
      && t'.isEscalation == Some(false) && t'.status == "assigned"
      && t'.assignedAgentId == t.assignedAgentId
      && t'.(isEscalation := t.isEscalation, status := t.status) == t
      && o.store.activities == st.activities
      && o.store.nextActivityId == st.nextActivityId && o.store.nextTaskId == st.nextTaskId
  {
  }

  /** Any other action on an existing task is a 400 that changes nothing. */
  lemma OtherActionRejected(st: Store, id: int, action: string, now: int)
    requires id != 0 && id in st.tasks && action !in {"", "accept", "decline"}
    ensures Handle(st, Request(Some(id), Some(action)), now) == Outcome(st, Response(400, ErrorBody(InvalidAction)))
  {
  }

  /**
   * The request succeeds exactly when both fields are present, the task
   * exists and the action is `accept` or `decline`; every other request
   * leaves the store as it was.
   */
  lemma SucceedsExactly(st: Store, req: Request, now: int)
    ensures var o := Handle(st, req, now);
      o.response.status == 200 <==>
        HasId(req.escalationId) && req.escalationId.value in st.tasks
        && req.action.Some? && req.action.value in {"accept", "decline"}
    ensures Handle(st, req, now).response.status != 200 ==> Handle(st, req, now).store == st
  {
  }
}

/**
 * `POST /api/tasks`: create a task assigned to an agent by the user, with
 * defaults for the optional fields, and log its creation.
 */
module TasksRoute {
  import opened Values
  import opened TaskStore
  import opened ApiResponse

  const DefaultPriority := "medium"
  const AssignedStatus := "assigned"
  const UserAssigner := "user"
  const CreatedActivity := "created"
  const MissingFields := "Title and assigned agent required"

  /** The four fields the handler reads from the JSON body; an absent or null field is `None`. */
  datatype Request = Request(
    title: Option<string>,
    description: Option<string>,
    priority: Option<string>,
    assignedAgentId: Option<string>)

  /** `x || fallback` for an optional string. */
  function OrElse(v: Option<string>, fallback: Option<string>): (r: Option<string>)
    ensures NonEmpty(v) ==> r == v
    ensures !NonEmpty(v) ==> r == fallback
  {
    if NonEmpty(v) then v else fallback
  }

  /**
   * The row the handler inserts. The columns the insert leaves out take the
   * schema's defaults: `is_escalation` false and the others null.
   */
  function NewTask(title: string, description: Option<string>, priority: Option<string>, agent: string, now: int): Task {
    Task(title := title,
         description := OrElse(description, None),
         status := AssignedStatus,
         priority := OrElse(priority, Some(DefaultPriority)),
         assignedAgentId := Some(agent),
         assignedBy := Some(UserAssigner),
         isEscalation := Some(false),
         escalatedFromAgentId := None,
         escalationReason := None,
         planJson := None,
         sessionId := None,
         boardId := None,
         tags := None,
         estimatedMinutes := None,
         dueDate := None,
         createdAt := Some(now),
         assignedAt := Some(now),
         startedAt := None,
         completedAt := None)
  }

  /** The activity logged for the new task `id`. */
  function CreatedLog(id: int, title: string, agent: string, now: int): NewActivity {
    NewActivity(Some(id), Some(agent), CreatedActivity, Some("Task \"" + title + "\" assigned"), Some(now))
  }

  /** The store after a request, and the response. */
  datatype Outcome = Outcome(store: Store, response: Response)

  /** The handler as a function of the store before the request and the clock. */
  function Handle(st: Store, req: Request, now: int): Outcome {
    if !NonEmpty(req.title) || !NonEmpty(req.assignedAgentId) then Outcome(st, Fail(400, MissingFields))
    else
      var id := st.nextTaskId;
      var st1 := InsertTask(st, NewTask(req.title.value, req.description, req.priority, req.assignedAgentId.value, now));
      Outcome(AppendActivity(st1, CreatedLog(id, req.title.value, req.assignedAgentId.value, now)), Ok(Created(id)))
  }

  /** The handler over the shared database: insert the task, then log its creation. */
  method Post(db: Database, req: Request, now: int) returns (resp: Response)
    modifies db
    ensures db.Contents() == Handle(old(db.Contents()), req, now).store
    ensures resp == Handle(old(db.Contents()), req, now).response
    ensures old(db.Valid()) ==> db.Valid()
  {
    ghost var st := db.Contents();
    if !NonEmpty(req.title) || !NonEmpty(req.assignedAgentId) {
      return Fail(400, MissingFields);
    }
    var title := req.title.value;
    var agent := req.assignedAgentId.value;
    var ids := db.InsertTaskRow(NewTask(title, req.description, req.priority, agent, now));
    var taskId := ids[0];
    db.InsertActivityRow(CreatedLog(taskId, title, agent, now));
    resp := Ok(Created(taskId));
    if Inv(st) {
      HandleInv(st, req, now);
    }
  }

  // ---------------------------------------------------------------------
  // Properties of the handler
  // ---------------------------------------------------------------------

  /** The handler keeps the store's id invariant. */
  lemma HandleInv(st: Store, req: Request, now: int)
    requires Inv(st)
    ensures Inv(Handle(st, req, now).store)
  {
    if NonEmpty(req.title) && NonEmpty(req.assignedAgentId) {
      var t := NewTask(req.title.value, req.description, req.priority, req.assignedAgentId.value, now);
      InsertTaskInv(st, t);
      AppendActivityInv(InsertTask(st, t), CreatedLog(st.nextTaskId, req.title.value, req.assignedAgentId.value, now));
    }
  }

  /** The request is rejected exactly when `title` or `assignedAgentId` is missing or empty; a rejection inserts nothing. */
  lemma RejectedExactly(st: Store, req: Request, now: int)
    ensures var o := Handle(st, req, now);
      o.response.status == 400 <==> !NonEmpty(req.title) || !NonEmpty(req.assignedAgentId)
    ensures var o := Handle(st, req, now);
      o.response.status == 400 ==> o.response.body == ErrorBody(MissingFields) && o.store == st
    ensures var o := Handle(st, req, now);
      o.response.status != 400 ==> o.response.status == 200
  {
  }

  /**
   * A valid request inserts exactly one task, under a fresh id, and
   * answers with that id.
   */
  lemma CreatesOneTask(st: Store, req: Request, now: int)
    requires Inv(st) && NonEmpty(req.title) && NonEmpty(req.assignedAgentId)
    ensures var o := Handle(st, req, now);
      var id := o.response.body.taskId;
      && o.response.status == 200 && o.response.body.Created?
      && id !in st.tasks
      && o.store.tasks.Keys == st.tasks.Keys + {id}
      && (forall k :: k in st.tasks ==> o.store.tasks[k] == st.tasks[k])
      && o.store.nextTaskId > id
  {
    InsertTaskInv(st, NewTask(req.title.value, req.description, req.priority, req.assignedAgentId.value, now));
  }

  /** The columns of the new task: fixed status and assigner, and the defaults for falsy fields. */
  lemma NewTaskColumns(st: Store, req: Request, now: int)
    requires NonEmpty(req.title) && NonEmpty(req.assignedAgentId)
    ensures var o := Handle(st, req, now);
      var t := o.store.tasks[o.response.body.taskId];
      && t.title == req.title.value
      && t.assignedAgentId == req.assignedAgentId
      && t.status == "assigned" && t.assignedBy == Some("user")
      && (NonEmpty(req.priority) ==> t.priority == req.priority)
      && (!NonEmpty(req.priority) ==> t.priority == Some("medium"))
      && (NonEmpty(req.description) ==> t.description == req.description)
      && (!NonEmpty(req.description) ==> t.description.None?)
      && t.createdAt == Some(now) && t.assignedAt == Some(now)
      && t.isEscalation == Some(false) && t.escalatedFromAgentId.None?
  {
  }

  /** After the insert, exactly one activity is logged, for the new task. */
  lemma LogsCreation(st: Store, req: Request, now: int)
    requires Inv(st) && NonEmpty(req.title) && NonEmpty(req.assignedAgentId)
    ensures var o := Handle(st, req, now);
      var a := o.store.activities[|st.activities|];
      && |o.store.activities| == |st.activities| + 1
      && o.store.activities[..|st.activities|] == st.activities
      && a.taskId == Some(o.response.body.taskId)
      && a.agentId == req.assignedAgentId && a.kind == "created"
      && a.content == Some("Task \"" + req.title.value + "\" assigned")
  {
    var t := NewTask(req.title.value, req.description, req.priority, req.assignedAgentId.value, now);
    AppendActivityInv(InsertTask(st, t), CreatedLog(st.nextTaskId, req.title.value, req.assignedAgentId.value, now));
  }

  /** The first request of the API test: a complete request succeeds. */
  lemma CreateTaskScenario(st: Store, now: int)
    ensures var o := Handle(st, Request(Some("Test Task"), Some("Test description"), Some("medium"), Some("bulma")), now);
      o.response.status == 200 && o.response.body.Created?
      && o.store.tasks[o.response.body.taskId].priority == Some("medium")
      && o.store.tasks[o.response.body.taskId].description == Some("Test description")
  {
  }

  /** The second request of the API test: a request without a title is a 400. */
  lemma MissingTitleScenario(st: Store, now: int)
    ensures var o := Handle(st, Request(None, None, None, Some("bulma")), now);
      o.response.status == 400 && o.store == st
  {
  }
}

/**
 * The two tables of the Mission Control store that the REST handlers write,
 * `tasks` and `activities`, as an in-memory value and as the database object
 * the handlers mutate. Ids are SQLite AUTOINCREMENT keys: each insert takes
 * the next value of a counter that only grows, so an id is never reused.
 * Timestamps are integers supplied by the caller.
 */
module TaskStore {
  import opened Values

  /** A row of `tasks`; every column the schema declares nullable is an `Option`. */
  datatype Task = Task(
    title: string,
    description: Option<string>,
    status: string,
    priority: Option<string>,
    assignedAgentId: Option<string>,
    assignedBy: Option<string>,
    isEscalation: Option<bool>,
    escalatedFromAgentId: Option<string>,
    escalationReason: Option<string>,
    planJson: Option<string>,
    sessionId: Option<string>,
    boardId: Option<int>,
    tags: Option<string>,
    estimatedMinutes: Option<int>,
    dueDate: Option<int>,
    createdAt: Option<int>,
    assignedAt: Option<int>,
    startedAt: Option<int>,
    completedAt: Option<int>)

  /** A row of `activities`; `kind` is the column `type`. */
  datatype Activity = Activity(
    id: int,
    taskId: Option<int>,
    agentId: Option<string>,
    kind: string,
    content: Option<string>,
    metadata: Option<string>,
    createdAt: Option<int>)

  /** An activity as an insert supplies it, before the store gives it an id. */
  datatype NewActivity = NewActivity(
    taskId: Option<int>,
    agentId: Option<string>,
    kind: string,
    content: Option<string>,
    createdAt: Option<int>)

  /**
   * Both tables and their AUTOINCREMENT counters: `nextTaskId` and
   * `nextActivityId` are the ids the next inserts receive.
   */
  datatype Store = Store(tasks: map<int, Task>, activities: seq<Activity>, nextTaskId: int, nextActivityId: int)

  /** Every stored id lies below its counter, and activity ids increase along the log. */
  ghost predicate Inv(st: Store) {
    && 1 <= st.nextTaskId
    && 1 <= st.nextActivityId
    && (forall k :: k in st.tasks ==> 1 <= k < st.nextTaskId)
    && (forall i :: 0 <= i < |st.activities| ==> 1 <= st.activities[i].id < st.nextActivityId)
    && (forall i, j :: 0 <= i < j < |st.activities| ==> st.activities[i].id < st.activities[j].id)
  }

  /** The empty database of a fresh install. */
  function Empty(): (st: Store)
    ensures Inv(st) && st.tasks == map[] && st.activities == []
  {
    Store(map[], [], 1, 1)
  }

  /** The row an insert appends to `activities`. */
  function Logged(st: Store, a: NewActivity): Activity {
    Activity(st.nextActivityId, a.taskId, a.agentId, a.kind, a.content, None, a.createdAt)
  }

  /** `db.insert(activities).values(a)`. */
  function AppendActivity(st: Store, a: NewActivity): Store {
    st.(activities := st.activities + [Logged(st, a)], nextActivityId := st.nextActivityId + 1)
  }

  /** `db.insert(tasks).values(t)`: the new row is stored under `st.nextTaskId`. */
  function InsertTask(st: Store, t: Task): Store {
    st.(tasks := st.tasks[st.nextTaskId := t], nextTaskId := st.nextTaskId + 1)
  }

  /** `db.update(tasks).set(...).where(eq(tasks.id, id))`: no row matches an absent id. */
  function UpdateTask(st: Store, id: int, t: Task): Store {
    st.(tasks := if id in st.tasks then st.tasks[id := t] else st.tasks)
  }

  lemma AppendActivityInv(st: Store, a: NewActivity)
    requires Inv(st)
    ensures Inv(AppendActivity(st, a))
    ensures AppendActivity(st, a).tasks == st.tasks
    ensures |AppendActivity(st, a).activities| == |st.activities| + 1
    ensures AppendActivity(st, a).activities[..|st.activities|] == st.activities
  {
    var st' := AppendActivity(st, a);
    assert st'.activities[..|st.activities|] == st.activities;
  }

  lemma InsertTaskInv(st: Store, t: Task)
    requires Inv(st)
    ensures Inv(InsertTask(st, t))
    ensures st.nextTaskId !in st.tasks
    ensures InsertTask(st, t).tasks.Keys == st.tasks.Keys + {st.nextTaskId}
  {
  }

  lemma UpdateTaskInv(st: Store, id: int, t: Task)
    requires Inv(st)
    ensures Inv(UpdateTask(st, id, t))
    ensures UpdateTask(st, id, t).tasks.Keys == st.tasks.Keys
  {
  }

  /**
   * The database object the route handlers share. Its methods are the
   * queries the handlers issue, each stated against the functions above.
   */
  class Database {
    var tasks: map<int, Task>
    var activities: seq<Activity>
    var nextTaskId: int
    var nextActivityId: int

    function Contents(): Store
      reads this
    {
      Store(tasks, activities, nextTaskId, nextActivityId)
    }

    ghost predicate Valid()
      reads this
    {
      Inv(Contents())
    }

    constructor()
      ensures Valid() && Contents() == Empty()
    {
      tasks := map[];
      activities := [];
      nextTaskId := 1;
      nextActivityId := 1;
    }

    /** `db.select().from(tasks).where(eq(tasks.id, id)).limit(1)`: zero rows or one. */
    method SelectTask(id: int) returns (rows: seq<Task>)
      ensures |rows| <= 1
      ensures |rows| == 1 <==> id in tasks
      ensures |rows| == 1 ==> rows[0] == tasks[id]
    {
      if id in tasks {
        rows := [tasks[id]];
      } else {
        rows := [];
      }
    }

    /** `db.update(tasks).set(...).where(eq(tasks.id, id))`: the row with that id, if any, becomes `t`. */
    method UpdateTaskRow(id: int, t: Task)
      modifies this
      ensures Contents() == UpdateTask(old(Contents()), id, t)
    {
      if id in tasks {
        tasks := tasks[id := t];
      }
    }

    /** `insert(tasks).values(t).returning({id: tasks.id})`: the one returned row holds the new id. */
    method InsertTaskRow(t: Task) returns (ids: seq<int>)
      modifies this
      ensures ids == [old(nextTaskId)]
      ensures Contents() == InsertTask(old(Contents()), t)
    {
      ids := [nextTaskId];
      tasks := tasks[nextTaskId := t];
      nextTaskId := nextTaskId + 1;
    }

    /** `db.insert(activities).values(a)`: one row appended under the next activity id. */
    method InsertActivityRow(a: NewActivity)
      modifies this
      ensures Contents() == AppendActivity(old(Contents()), a)
    {
      activities := activities + [Logged(Contents(), a)];
      nextActivityId := nextActivityId + 1;
    }
  }
}

/** The responses the route handlers return, as status and JSON body. */
module ApiResponse {
  datatype Body =
    | ErrorBody(error: string)
    | Done(message: string)
    | Created(taskId: int)

  /** `NextResponse.json(body, {status})`; `Done` and `Created` carry `success: true`. */
  datatype Response = Response(status: int, body: Body)

  function Fail(status: int, error: string): Response {
    Response(status, ErrorBody(error))
  }

  /** A body with `success: true` is sent with the default status 200. */
  function Ok(body: Body): Response
    requires !body.ErrorBody?
  {
    Response(200, body)
  }
}

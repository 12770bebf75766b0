/** `GET` and `POST` of the tasks collection route: an owner-scoped listing
    and an owner-stamped create. */
module TasksRoute {
  import opened Wrappers
  import opened Seqs
  import opened Http
  import opened Store

  /** The fields the handler destructures from the JSON body, plus a
      `userId` a client might send, which the handler never reads. */
  datatype TaskBody = TaskBody(
    title: Field,
    description: Field,
    status: Field,
    priority: Field,
    dueDate: Field,
    projectId: Field,
    userId: Field)

  const ValidationMessage := "Title & projectId wajib diisi"

  /** The check `!title || !projectId` lets the request through. */
  predicate Accepts(body: TaskBody) {
    Truthy(body.title) && Truthy(body.projectId)
  }

  /** The row `prisma.task.create` receives for an accepted body. */
  function NewTask(body: TaskBody, userId: string, id: string, now: int): (t: Task)
    requires Accepts(body)
    ensures t.id == id && t.createdAt == now
    ensures t.userId == userId
    ensures Truthy(Text(t.title)) && Text(t.title) == body.title
    ensures Truthy(Text(t.projectId)) && Text(t.projectId) == body.projectId
    ensures t.status == "todo" <==> Nullish(body.status) || body.status == Text("todo")
    ensures body.status.Text? ==> t.status == body.status.s
    ensures t.priority == "medium" <==> Nullish(body.priority) || body.priority == Text("medium")
    ensures body.priority.Text? ==> t.priority == body.priority.s
    ensures t.dueDate.None? <==> !Truthy(body.dueDate)
    ensures Truthy(body.dueDate) ==> t.dueDate == Some(body.dueDate.s)
    ensures t.description.None? <==> Nullish(body.description)
    ensures body.description.Text? ==> t.description == Some(body.description.s)
    ensures t.kanbanPosition.None?
  {
    Task(
      id := id,
      title := body.title.s,
      description := OptionalColumn(body.description),
      status := OrElse(body.status, "todo"),
      priority := OrElse(body.priority, "medium"),
      dueDate := DateOrNull(body.dueDate),
      projectId := body.projectId.s,
      userId := userId,
      kanbanPosition := None,
      createdAt := now)
  }

  /** `GET /api/tasks`: without a signed-in user, 401 and no read; otherwise
      exactly the caller's tasks (each as often as stored), newest first. */
  function Get(db: Database, session: Option<string>): (r: Reply<seq<Task>>)
    reads db
    ensures SessionUserId(session).None? ==> r == Unauthorized()
    ensures SessionUserId(session).Some? ==>
      && r.status == 200 && r.body.Json?
      && (forall t :: multiset(r.body.value)[t] ==
            if t.userId == SessionUserId(session).value then multiset(db.tasks)[t] else 0)
      && SortedBy(r.body.value, TaskNewestFirst)
  {
    match SessionUserId(session)
    case None => Unauthorized()
    case Some(uid) =>
      var owned := Filter(db.tasks, (t: Task) => t.userId == uid);
      NewestFirstIsTotalPreorder();
      SortBySorted(owned, TaskNewestFirst);
      Reply(200, Json(SortBy(owned, TaskNewestFirst)))
  }

  /** `POST /api/tasks`. `freshId` and `now` are the id and creation time the
      database assigns. */
  method Post(db: Database, session: Option<string>, body: TaskBody, freshId: string, now: int)
    returns (r: Reply<Task>)
    requires db.Valid()
    requires freshId !in TaskIds(db.tasks)
    modifies db
    ensures db.Valid()
    ensures db.projects == old(db.projects)
    ensures SessionUserId(session).None? ==> r == Unauthorized() && db.tasks == old(db.tasks)
    ensures SessionUserId(session).Some? && !Accepts(body) ==>
      r == Reply(400, ErrorBody(ValidationMessage)) && db.tasks == old(db.tasks)
    ensures SessionUserId(session).Some? && Accepts(body) ==>
      var t := NewTask(body, SessionUserId(session).value, freshId, now);
      r == Reply(201, Json(t)) && db.tasks == old(db.tasks) + [t]
  {
    var uid := SessionUserId(session);
    if uid.None? {
      return Unauthorized();
    }
    if !Accepts(body) {
      return Reply(400, ErrorBody(ValidationMessage));
    }
    var t := NewTask(body, uid.value, freshId, now);
    db.tasks := db.tasks + [t];
    assert TaskIds(db.tasks) == TaskIds(old(db.tasks)) + [freshId];
    r := Reply(201, Json(t));
  }

  /** Two different signed-in users never see a common task. */
  lemma ListingsAreDisjoint(db: Database, a: string, b: string, t: Task)
    requires a != "" && b != "" && a != b
    requires t in Get(db, Some(a)).body.value
    ensures t !in Get(db, Some(b)).body.value
  {
    assert multiset(Get(db, Some(a)).body.value)[t] > 0;
  }
}

/** `GET` and `POST` of the projects collection route. */
module ProjectsRoute {
  import opened Wrappers
  import opened Seqs
  import opened Http
  import opened Store
  import Types

  /** The fields the handler destructures from the JSON body, plus a
      `userId` a client might send, which the handler never reads. */
  datatype ProjectBody = ProjectBody(
    name: Field,
    description: Field,
    status: Field,
    color: Field,
    startDate: Field,
    endDate: Field,
    userId: Field)

  const ValidationMessage := "name and status can't be empty"

  /** The check `!name || !status` lets the request through. */
  predicate Accepts(body: ProjectBody) {
    Truthy(body.name) && Truthy(body.status)
  }

  /** The row `prisma.project.create` receives, written as the handler
      writes it, including the `status ?? "active"` fallback. */
  function NewProject(body: ProjectBody, userId: string, id: string, now: int): (p: Project)
    requires Accepts(body)
    ensures p.id == id && p.createdAt == now
    ensures p.userId == userId
    ensures Text(p.name) == body.name && p.name != ""
    ensures Text(p.status) == body.status && p.status != ""
    ensures p.startDate.None? <==> !Truthy(body.startDate)
    ensures Truthy(body.startDate) ==> p.startDate == Some(body.startDate.s)
    ensures p.endDate.None? <==> !Truthy(body.endDate)
    ensures Truthy(body.endDate) ==> p.endDate == Some(body.endDate.s)
    ensures p.description.None? <==> Nullish(body.description)
    ensures body.description.Text? ==> p.description == Some(body.description.s)
    ensures p.color.None? <==> Nullish(body.color)
    ensures body.color.Text? ==> p.color == Some(body.color.s)
  {
    Project(
      id := id,
      name := body.name.s,
      description := OptionalColumn(body.description),
      status := OrElse(body.status, "active"),
      color := OptionalColumn(body.color),
      startDate := DateOrNull(body.startDate),
      endDate := DateOrNull(body.endDate),
      userId := userId,
      createdAt := now)
  }

  /** The `"active"` fallback can never be stored: after validation a
      project gets "active" only when the client sent "active". The route
      checks no enum either, so "active", which is not a declared project
      status, is accepted when sent. */
  lemma ActiveFallbackUnreachable(body: ProjectBody, userId: string, id: string, now: int)
    requires Accepts(body)
    ensures NewProject(body, userId, id, now).status == "active" <==> body.status == Text("active")
    ensures Types.ParseProjectStatus("active").None?
  {
  }

  /** `GET /api/projects`: without a signed-in user, 401 and no read;
      otherwise exactly the caller's projects, newest first. */
  function Get(db: Database, session: Option<string>): (r: Reply<seq<Project>>)
    reads db
    ensures SessionUserId(session).None? ==> r == Unauthorized()
    ensures SessionUserId(session).Some? ==>
      && r.status == 200 && r.body.Json?
      && (forall p :: multiset(r.body.value)[p] ==
            if p.userId == SessionUserId(session).value then multiset(db.projects)[p] else 0)
      && SortedBy(r.body.value, ProjectNewestFirst)
  {
    match SessionUserId(session)
    case None => Unauthorized()
    case Some(uid) =>
      var owned := Filter(db.projects, (p: Project) => p.userId == uid);
      NewestFirstIsTotalPreorder();
      SortBySorted(owned, ProjectNewestFirst);
      Reply(200, Json(SortBy(owned, ProjectNewestFirst)))
  }

  /** `POST /api/projects`. `freshId` and `now` are the id and creation time
      the database assigns. */
  method Post(db: Database, session: Option<string>, body: ProjectBody, freshId: string, now: int)
    returns (r: Reply<Project>)
    requires db.Valid()
    requires freshId !in ProjectIds(db.projects)
    modifies db
    ensures db.Valid()
    ensures db.tasks == old(db.tasks)
    ensures SessionUserId(session).None? ==> r == Unauthorized() && db.projects == old(db.projects)
    ensures SessionUserId(session).Some? && !Accepts(body) ==>
      r == Reply(400, ErrorBody(ValidationMessage)) && db.projects == old(db.projects)
    ensures SessionUserId(session).Some? && Accepts(body) ==>
      var p := NewProject(body, SessionUserId(session).value, freshId, now);
      r == Reply(201, Json(p)) && db.projects == old(db.projects) + [p]
  {
    var uid := SessionUserId(session);
    if uid.None? {
      return Unauthorized();
    }
    if !Accepts(body) {
      return Reply(400, ErrorBody(ValidationMessage));
    }
    var p := NewProject(body, uid.value, freshId, now);
    db.projects := db.projects + [p];
    assert ProjectIds(db.projects) == ProjectIds(old(db.projects)) + [freshId];
    r := Reply(201, Json(p));
  }
}

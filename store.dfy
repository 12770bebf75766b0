/** The two tables the routes read and write (`prisma.task`,
    `prisma.project`), held by one database object. */
module Store {
  import opened Wrappers
  import opened Seqs

  /** A task row. `kanbanPosition` is `None` until the kanban reorder writes
      it (the column default is not part of this model). Dates are kept as
      the text the client sent. */
  datatype Task = Task(
    id: string,
    title: string,
    description: Option<string>,
    status: string,
    priority: string,
    dueDate: Option<string>,
    projectId: string,
    userId: string,
    kanbanPosition: Option<int>,
    createdAt: int)

  datatype Project = Project(
    id: string,
    name: string,
    description: Option<string>,
    status: string,
    color: Option<string>,
    startDate: Option<string>,
    endDate: Option<string>,
    userId: string,
    createdAt: int)

  function TaskIds(tasks: seq<Task>): (ids: seq<string>)
    ensures |ids| == |tasks|
    ensures forall i :: 0 <= i < |tasks| ==> ids[i] == tasks[i].id
  {
    seq(|tasks|, i requires 0 <= i < |tasks| => tasks[i].id)
  }

  function ProjectIds(projects: seq<Project>): (ids: seq<string>)
    ensures |ids| == |projects|
    ensures forall i :: 0 <= i < |projects| ==> ids[i] == projects[i].id
  {
    seq(|projects|, i requires 0 <= i < |projects| => projects[i].id)
  }

  /** `orderBy: { createdAt: "desc" }`: newer rows come first. */
  predicate TaskNewestFirst(a: Task, b: Task) {
    a.createdAt >= b.createdAt
  }

  predicate ProjectNewestFirst(a: Project, b: Project) {
    a.createdAt >= b.createdAt
  }

  lemma NewestFirstIsTotalPreorder()
    ensures TotalPreorder(TaskNewestFirst)
    ensures TotalPreorder(ProjectNewestFirst)
  {
  }

  class Database {
    var tasks: seq<Task>
    var projects: seq<Project>

    /** Primary keys are unique. */
    ghost predicate Valid()
      reads this
    {
      Distinct(TaskIds(tasks)) && Distinct(ProjectIds(projects))
    }

    constructor ()
      ensures Valid()
      ensures tasks == [] && projects == []
    {
      tasks := [];
      projects := [];
    }
  }
}

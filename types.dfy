/** The closed value sets declared for users, projects and tasks. The
    server stores status and priority as free strings; these enums are what
    the client types promise and what the badge mappings are checked against. */
module Types {
  import opened Wrappers

  datatype Theme = Light | Dark | System {
    function Name(): string {
      match this
      case Light => "light"
      case Dark => "dark"
      case System => "system"
    }
  }

  /** The signed-in user record. */
  datatype User = User(id: string, name: string, email: string, avatarUrl: Option<string>, themePreference: Theme)

  datatype ProjectStatus = Planning | InProgress | Completed | Archived {
    function Name(): string {
      match this
      case Planning => "planning"
      case InProgress => "in_progress"
      case Completed => "completed"
      case Archived => "archived"
    }
  }

  datatype TaskStatus = Todo | Doing | Done {
    function Name(): string {
      match this
      case Todo => "todo"
      case Doing => "in_progress"
      case Done => "done"
    }
  }

  datatype Priority = Low | Medium | High {
    function Name(): string {
      match this
      case Low => "low"
      case Medium => "medium"
      case High => "high"
    }
  }

  /** The enum member a stored string names, if any. */
  function ParseProjectStatus(s: string): (r: Option<ProjectStatus>)
    ensures r.Some? ==> r.value.Name() == s
  {
    if s == "planning" then Some(Planning)
    else if s == "in_progress" then Some(InProgress)
    else if s == "completed" then Some(Completed)
    else if s == "archived" then Some(Archived)
    else None
  }

  function ParseTaskStatus(s: string): (r: Option<TaskStatus>)
    ensures r.Some? ==> r.value.Name() == s
  {
    if s == "todo" then Some(Todo)
    else if s == "in_progress" then Some(Doing)
    else if s == "done" then Some(Done)
    else None
  }

  function ParsePriority(s: string): (r: Option<Priority>)
    ensures r.Some? ==> r.value.Name() == s
  {
    if s == "low" then Some(Low)
    else if s == "medium" then Some(Medium)
    else if s == "high" then Some(High)
    else None
  }

  /** Every enum member's name parses back to that member, so the names are
      distinct and a string names at most one member. */
  lemma NamesRoundTrip(p: ProjectStatus, t: TaskStatus, q: Priority)
    ensures ParseProjectStatus(p.Name()) == Some(p)
    ensures ParseTaskStatus(t.Name()) == Some(t)
    ensures ParsePriority(q.Name()) == Some(q)
  {
    match p
    case Planning =>
    case InProgress =>
    case Completed =>
    case Archived =>
  }
}

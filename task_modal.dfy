/** The create/edit task dialog: its form state, the request it sends, the
    loading flag, and what it does with the reply. The `fetch` itself is
    outside the model: `BeginSubmit` yields the request and `FinishSubmit`
    receives its outcome. */
module TaskModal {
  import opened Wrappers
  import opened Text
  import Http
  import TasksRoute

  /** Milliseconds since the epoch; a `Date` in the form. */
  type Timestamp = int

  /** The `task` prop: a task being edited, as the client receives it. */
  datatype EditedTask = EditedTask(
    id: string,
    title: string,
    description: Option<string>,
    status: string,
    priority: string,
    dueDate: Option<Timestamp>,
    projectId: Option<string>)

  datatype FormData = FormData(
    title: string,
    description: string,
    status: string,
    priority: string,
    dueDate: Option<Timestamp>,
    projectId: Option<string>)

  /** The text-valued fields `handleInputChange` is called with. */
  datatype TextField = TitleField | DescriptionField | StatusField | PriorityField | ProjectField

  /** `s || fallback` for a string. */
  function OrText(s: string, fallback: string): string {
    if s != "" then s else fallback
  }

  /** `Some(s) || fallback` for a nullable string. */
  function OrSome(s: Option<string>, fallback: string): string {
    if s.Some? && s.value != "" then s.value else fallback
  }

  /** The blank form of a create dialog for project `projectId`. */
  function DefaultForm(projectId: string): FormData {
    FormData("", "", "todo", "medium", None, Some(projectId))
  }

  /** The `useState` initialiser. */
  function InitialForm(task: Option<EditedTask>, projectId: string): FormData {
    match task
    case None => DefaultForm(projectId)
    case Some(t) =>
      FormData(t.title, OrSome(t.description, ""), OrText(t.status, "todo"), OrText(t.priority, "medium"),
               t.dueDate, Some(OrSome(t.projectId, projectId)))
  }

  /** The form the `useEffect` on `[task, projectId, open]` installs. */
  function FormFromProps(task: Option<EditedTask>, projectId: string): FormData {
    match task
    case None => DefaultForm(projectId)
    case Some(t) =>
      FormData(t.title, OrSome(t.description, ""), t.status, t.priority, t.dueDate, t.projectId)
  }

  /** Without a task both initialisations give the blank form; with one the
      effect copies the task, writing a missing description as "". */
  lemma FormDefaults(task: Option<EditedTask>, projectId: string)
    ensures task.None? ==> InitialForm(task, projectId) == FormFromProps(task, projectId) == DefaultForm(projectId)
    ensures task.None? ==>
      var f := FormFromProps(task, projectId);
      f.title == "" && f.description == "" && f.status == "todo" && f.priority == "medium"
      && f.dueDate.None? && f.projectId == Some(projectId)
    ensures task.Some? ==>
      var f, t := FormFromProps(task, projectId), task.value;
      f.title == t.title && f.status == t.status && f.priority == t.priority
      && f.dueDate == t.dueDate && f.projectId == t.projectId
      && (t.description.Some? ==> f.description == t.description.value)
      && (t.description.None? ==> f.description == "")
  {
  }

  /** The initialiser and the effect agree on a task whose title, status,
      priority and project are all set; they differ only where the
      initialiser's `||` replaces an empty value or a missing project. */
  lemma InitialAgreesWithEffect(t: EditedTask, projectId: string)
    ensures InitialForm(Some(t), projectId) == FormFromProps(Some(t), projectId) <==>
      t.status != "" && t.priority != "" && t.projectId.Some? && (t.projectId.value == "" ==> projectId == "")
  {
    var a, b := InitialForm(Some(t), projectId), FormFromProps(Some(t), projectId);
    if t.status == "" { assert a.status != b.status; }
    if t.priority == "" { assert a.priority != b.priority; }
    if t.projectId.Some? && t.projectId.value == "" && projectId != "" { assert a.projectId != b.projectId; }
  }

  function Read(f: FormData, field: TextField): Option<string> {
    match field
    case TitleField => Some(f.title)
    case DescriptionField => Some(f.description)
    case StatusField => Some(f.status)
    case PriorityField => Some(f.priority)
    case ProjectField => f.projectId
  }

  /** `setFormData(prev => ({ ...prev, [field]: value }))`. */
  function WithText(f: FormData, field: TextField, value: string): FormData {
    match field
    case TitleField => f.(title := value)
    case DescriptionField => f.(description := value)
    case StatusField => f.(status := value)
    case PriorityField => f.(priority := value)
    case ProjectField => f.(projectId := Some(value))
  }

  /** An input change replaces exactly the named field. */
  lemma {:induction false} WithTextReplacesOneField(f: FormData, field: TextField, value: string, other: TextField)
    ensures Read(WithText(f, field, value), field) == Some(value)
    ensures other != field ==> Read(WithText(f, field, value), other) == Read(f, other)
    ensures WithText(f, field, value).dueDate == f.dueDate
  {
  }

  /** `disabled={isLoading || !formData.title.trim()}`. */
  function SubmitDisabled(isLoading: bool, title: string): (d: bool)
    ensures d <==> isLoading || forall i :: 0 <= i < |title| ==> IsJsWhitespace(title[i])
  {
    TrimEmptyIffBlank(title);
    isLoading || Trim(title) == ""
  }

  datatype HttpMethod = Post | Put

  /** The JSON body; `dueDate` is `null` when `None` (its ISO text is not
      modelled). */
  datatype RequestBody = RequestBody(
    title: string,
    description: string,
    status: string,
    priority: string,
    dueDate: Option<Timestamp>,
    projectId: Option<string>)

  datatype Request = Request(verb: HttpMethod, url: string, body: RequestBody)

  /** The request `handleSubmit` sends: PUT to the task's own URL when
      editing, POST to the collection otherwise, with the form's fields. */
  function RequestFor(task: Option<EditedTask>, form: FormData): (req: Request)
    ensures req.verb == Put <==> task.Some?
    ensures task.Some? ==> req.url == "/api/tasks/" + task.value.id
    ensures task.None? ==> req.url == "/api/tasks"
    ensures req.body.dueDate.None? <==> form.dueDate.None?
    ensures req.body.title == form.title && req.body.description == form.description
    ensures req.body.status == form.status && req.body.priority == form.priority
    ensures req.body.projectId == form.projectId && req.body.dueDate == form.dueDate
  {
    Request(
      if task.Some? then Put else Post,
      if task.Some? then "/api/tasks/" + task.value.id else "/api/tasks",
      RequestBody(form.title, form.description, form.status, form.priority, form.dueDate, form.projectId))
  }

  /** The body as the tasks route parses it; `dueDateText` is the ISO text of
      the date when there is one. */
  function AsRouteBody(b: RequestBody, dueDateText: string): TasksRoute.TaskBody {
    TasksRoute.TaskBody(
      title := Http.Text(b.title),
      description := Http.Text(b.description),
      status := Http.Text(b.status),
      priority := Http.Text(b.priority),
      dueDate := if b.dueDate.Some? then Http.Text(dueDateText) else Http.Null,
      projectId := if b.projectId.Some? then Http.Text(b.projectId.value) else Http.Null,
      userId := Http.Absent)
  }

  /** A create request passes the route's validation exactly when the title
      and the project are non-empty, and then the stored task keeps every
      field the form supplied. An enabled submit button already guarantees
      the title. */
  lemma CreateRequestRoundTrip(form: FormData, dueDateText: string, isLoading: bool,
                               userId: string, id: string, now: int)
    requires dueDateText != ""
    ensures
      var body := AsRouteBody(RequestFor(None, form).body, dueDateText);
      TasksRoute.Accepts(body) <==> form.title != "" && form.projectId.Some? && form.projectId.value != ""
    ensures !SubmitDisabled(isLoading, form.title) ==> form.title != ""
    ensures
      var body := AsRouteBody(RequestFor(None, form).body, dueDateText);
      TasksRoute.Accepts(body) ==>
        var t := TasksRoute.NewTask(body, userId, id, now);
        && t.title == form.title && t.description == Some(form.description)
        && t.status == form.status && t.priority == form.priority
        && Some(t.projectId) == form.projectId
        && (t.dueDate.Some? <==> form.dueDate.Some?)
  {
  }

  /** The fields of the server's reply that `handleSubmit` renames. */
  datatype SavedTask = SavedTask(id: string, userId: string, createdAt: string, updatedAt: string)

  /** The object passed to `onSave`: the reply with snake_case aliases added. */
  datatype TaskData = TaskData(saved: SavedTask, user_id: string, created_at: string, updated_at: string)

  /** How the `fetch` ended: an ok reply, a reply with an error status and
      the `error` member of its body, or an exception (with its message when
      it is an `Error`). */
  datatype FetchOutcome =
    | Ok(saved: SavedTask)
    | NotOk(status: nat, error: Option<string>)
    | Threw(message: Option<string>)

  datatype Toast = Toast(title: string, description: string, destructive: bool)

  /** What a finished submit does outside the form: the `onSave` argument,
      the toast, and whether it asks to close the dialog. */
  datatype SubmitEffects = SubmitEffects(saved: Option<TaskData>, toast: Toast, closeRequested: bool)

  function ToTaskData(saved: SavedTask): (d: TaskData)
    ensures d.saved == saved
    ensures d.user_id == saved.userId && d.created_at == saved.createdAt && d.updated_at == saved.updatedAt
  {
    TaskData(saved, saved.userId, saved.createdAt, saved.updatedAt)
  }

  /** The error toast's text. A failed reply always explains itself, with the
      server's message when it has one and the status code otherwise. */
  function ErrorMessage(outcome: FetchOutcome): (m: string)
    requires !outcome.Ok?
    ensures outcome.NotOk? ==> m != ""
    ensures outcome.NotOk? && outcome.error.Some? && outcome.error.value != "" ==> m == outcome.error.value
    ensures outcome.NotOk? && (outcome.error.None? || outcome.error.value == "") ==>
      m == "HTTP error! status: " + DecimalString(outcome.status)
    ensures outcome.Threw? && outcome.message.None? ==> m == "Failed to save task. Please try again."
    ensures outcome.Threw? && outcome.message.Some? ==> m == outcome.message.value
  {
    match outcome
    case NotOk(status, error) => OrSome(error, "HTTP error! status: " + DecimalString(status))
    case Threw(message) => message.GetOr("Failed to save task. Please try again.")
  }

  /** Success saves, closes and confirms; any failure only shows an error. */
  function EffectsOf(task: Option<EditedTask>, form: FormData, outcome: FetchOutcome): (fx: SubmitEffects)
    ensures fx.saved.Some? <==> outcome.Ok?
    ensures fx.closeRequested <==> outcome.Ok?
    ensures fx.toast.destructive <==> !outcome.Ok?
    ensures outcome.Ok? ==> fx.saved == Some(ToTaskData(outcome.saved))
    ensures outcome.Ok? ==> fx.toast.title == if task.Some? then "Task updated" else "Task created"
    ensures outcome.Ok? ==>
      fx.toast.description == "\"" + form.title + "\" has been " + (if task.Some? then "updated" else "created") + " successfully."
    ensures !outcome.Ok? ==> fx.toast == Toast("Error", ErrorMessage(outcome), true)
  {
    if outcome.Ok? then
      var verb := if task.Some? then "updated" else "created";
      SubmitEffects(
        Some(ToTaskData(outcome.saved)),
        Toast(if task.Some? then "Task updated" else "Task created",
              "\"" + form.title + "\" has been " + verb + " successfully.", false),
        true)
    else
      SubmitEffects(None, Toast("Error", ErrorMessage(outcome), true), false)
  }

  /** The dialog's props and state. */
  class TaskModal {
    var open: bool
    var task: Option<EditedTask>
    var projectId: string
    var isLoading: bool
    var datePickerOpen: bool
    var formData: FormData
    /** What the running `handleSubmit` closure captured from the render in
        which the form was submitted; it reads these after the `await`. */
    var submittedTask: Option<EditedTask>
    var submittedForm: FormData
    var submittedProjectId: string

    constructor (open: bool, task: Option<EditedTask>, projectId: string)
      ensures this.open == open && this.task == task && this.projectId == projectId
      ensures !isLoading && !datePickerOpen
      ensures formData == InitialForm(task, projectId)
    {
      this.open := open;
      this.task := task;
      this.projectId := projectId;
      isLoading := false;
      datePickerOpen := false;
      formData := InitialForm(task, projectId);
      submittedTask := task;
      submittedForm := InitialForm(task, projectId);
      submittedProjectId := projectId;
    }

    /** The effect on `[task, projectId, open]`: it runs once after mounting and
        again on each prop change, re-initialising the form. */
    method PropsChanged(open: bool, task: Option<EditedTask>, projectId: string)
      modifies this`open, this`task, this`projectId, this`formData
      ensures this.open == open && this.task == task && this.projectId == projectId
      ensures formData == FormFromProps(task, projectId)
      ensures isLoading == old(isLoading) && datePickerOpen == old(datePickerOpen)
    {
      this.open := open;
      this.task := task;
      this.projectId := projectId;
      formData := FormFromProps(task, projectId);
    }

    /** `handleInputChange`. */
    method HandleInputChange(field: TextField, value: string)
      modifies this`formData
      ensures formData == WithText(old(formData), field, value)
    {
      formData := WithText(formData, field, value);
    }

    /** `handleDateSelect`: sets the due date and closes the picker. */
    method HandleDateSelect(date: Option<Timestamp>)
      modifies this`formData, this`datePickerOpen
      ensures formData == old(formData).(dueDate := date)
      ensures !datePickerOpen
    {
      formData := formData.(dueDate := date);
      datePickerOpen := false;
    }

    function SubmitButtonDisabled(): bool
      reads this
    {
      SubmitDisabled(isLoading, formData.title)
    }

    /** `handleSubmit` up to the `fetch`: the button disables, the closure
      captures the current props and form, and the request is built from them. */
    method BeginSubmit() returns (req: Request)
      modifies this`isLoading, this`submittedTask, this`submittedForm, this`submittedProjectId
      ensures isLoading && SubmitButtonDisabled()
      ensures submittedTask == task && submittedForm == formData && submittedProjectId == projectId
      ensures req == RequestFor(task, formData)
    {
      isLoading := true;
      submittedTask, submittedForm, submittedProjectId := task, formData, projectId;
      req := RequestFor(task, formData);
    }

    /** `handleSubmit` after the `fetch`: the effects of the outcome, the form
      reset after a successful create only, and the `finally` that clears
      the loading flag. The toast, the create-or-update choice and the reset
      use what `BeginSubmit` captured, whatever the props and the form have
      become while the request ran. */
    method FinishSubmit(outcome: FetchOutcome) returns (fx: SubmitEffects)
      modifies this`isLoading, this`formData
      ensures !isLoading
      ensures fx == EffectsOf(submittedTask, submittedForm, outcome)
      ensures formData == if outcome.Ok? && submittedTask.None? then DefaultForm(submittedProjectId) else old(formData)
    {
      fx := EffectsOf(submittedTask, submittedForm, outcome);
      if outcome.Ok? && submittedTask.None? {
        formData := DefaultForm(submittedProjectId);
      }
      isLoading := false;
    }
  }
}

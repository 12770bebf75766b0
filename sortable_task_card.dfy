/** The draggable task card: its badges, its checkbox and the status it
    requests when the checkbox changes. */
module SortableTaskCard {
  import opened Wrappers
  import opened Text
  import Types

  /** The task fields the card reads. `position` is `undefined`, `null` or a
      number (`NaN` is not modelled). */
  datatype CardTask = CardTask(id: string, title: string, status: string, priority: string, position: Option<int>)

  /** The call `onStatusChange(task.id, status)`. */
  datatype StatusChange = StatusChange(taskId: string, status: string)

  /** What the card shows next to the title. */
  datatype Controls = Controls(dragHandle: bool, checkbox: bool, actionsMenu: bool)

  /** `getPriorityColor`: each declared priority has its own variant; any
      other value shows as "outline". */
  function PriorityBadge(priority: string): (r: string)
    ensures r == "outline" <==> Types.ParsePriority(priority).None?
    ensures Types.ParsePriority(priority) == Some(Types.High) ==> r == "destructive"
    ensures Types.ParsePriority(priority) == Some(Types.Medium) ==> r == "default"
    ensures Types.ParsePriority(priority) == Some(Types.Low) ==> r == "secondary"
  {
    match priority
    case "high" => "destructive"
    case "medium" => "default"
    case "low" => "secondary"
    case _ => "outline"
  }

  /** `getStatusColor`: "todo" and undeclared statuses share "outline". */
  function StatusBadge(status: string): (r: string)
    ensures r == "outline" <==> Types.ParseTaskStatus(status) !in {Some(Types.Doing), Some(Types.Done)}
    ensures Types.ParseTaskStatus(status) == Some(Types.Doing) ==> r == "default"
    ensures Types.ParseTaskStatus(status) == Some(Types.Done) ==> r == "secondary"
  {
    match status
    case "todo" => "outline"
    case "in_progress" => "default"
    case "done" => "secondary"
    case _ => "outline"
  }

  /** `checked={task.status === "done"}`. */
  predicate IsChecked(task: CardTask) {
    task.status == "done"
  }

  /** `handleTaskStatusChange`. */
  function StatusChangeFor(task: CardTask, checked: bool): (c: StatusChange)
    ensures c.taskId == task.id
    ensures c.status == "done" <==> checked
    ensures c.status == "todo" <==> !checked
  {
    StatusChange(task.id, if checked then "done" else "todo")
  }

  /** The checkbox and the status it requests agree both ways: applying the
      request checks the box exactly when it was checked, a card re-requests
      its own status when that status is "todo" or "done", and
      "in_progress" is never requested. */
  lemma CheckboxRoundTrip(task: CardTask, checked: bool)
    ensures IsChecked(task.(status := StatusChangeFor(task, checked).status)) == checked
    ensures task.status in {"todo", "done"} ==> StatusChangeFor(task, IsChecked(task)).status == task.status
    ensures StatusChangeFor(task, checked).status != Types.TaskStatus.Doing.Name()
    ensures StatusBadge(StatusChangeFor(task, checked).status) == if checked then "secondary" else "outline"
  {
  }

  /** The status badge text `status.replace("_", " ")`: the status with its
      first underscore, if any, written as a space. */
  function StatusLabel(status: string): (r: string)
    ensures '_' !in status ==> r == status
    ensures '_' in status ==>
      var i := FirstIndex(status, '_');
      r == status[..i] + " " + status[i + 1..]
  {
    ReplaceFirstSplice(status, '_', ' ');
    ReplaceFirst(status, '_', ' ')
  }

  /** Only the first underscore becomes a space. */
  lemma StatusLabelExamples()
    ensures StatusLabel("in_progress") == "in progress"
    ensures StatusLabel("a_b_c") == "a b_c"
  {
    var a, b := "in_progress", "a_b_c";
    assert a[2] == '_' && a[..2] == "in";
    FirstIndexUnique(a, '_', 2);
    assert a[..2] + " " + a[3..] == "in progress";
    assert b[1] == '_' && b[..1] == "a";
    FirstIndexUnique(b, '_', 1);
    assert b[..1] + " " + b[2..] == "a b_c";
  }

  /** `task.position || 0`: for a number, the same as `task.position ?? 0`. */
  function PositionShown(task: CardTask): (n: int)
    ensures n == task.position.GetOr(0)
  {
    if task.position.Some? && task.position.value != 0 then task.position.value else 0
  }

  /** In reorder mode the card shows the drag handle in place of the
      checkbox and no actions menu; otherwise the reverse. */
  function ControlsFor(isReorderMode: bool): (c: Controls)
    ensures c.dragHandle != c.checkbox
    ensures c.actionsMenu == c.checkbox
    ensures c.dragHandle == isReorderMode
  {
    Controls(isReorderMode, !isReorderMode, !isReorderMode)
  }
}

/** `PATCH /api/tasks/reorder-kanban`: writes `kanbanPosition` and `status`
    of each listed task, found by id. The handler consults no session. */
module ReorderKanbanRoute {
  import opened Wrappers
  import opened Seqs
  import opened Http
  import opened Store

  datatype KanbanUpdate = KanbanUpdate(id: string, kanbanPosition: int, status: string)

  /** The `updates` member of the body: an array of entries, or anything else. */
  datatype UpdatesField = NotAnArray | Updates(items: seq<KanbanUpdate>)

  /** `await req.json()` either throws or yields the body. A body that parses to
      `null` also throws, at the destructuring of `{ updates }`, so it is
      `MalformedJson` too. Any other body without an array under `updates`
      (a number, a string, a boolean, an array, an object) destructures and
      is `Parsed(NotAnArray)`. */
  datatype ReorderBody = MalformedJson | Parsed(updates: UpdatesField)

  datatype Reordered = Reordered(message: string, data: seq<Task>)

  const InvalidData := "Invalid data"
  const Succeeded := "Tasks reordered successfully"
  const FailedMessage := "Failed to reorder tasks"

  function Failed(): Reply<Reordered> {
    Reply(500, ErrorBody(FailedMessage))
  }

  function UpdateIds(items: seq<KanbanUpdate>): (ids: seq<string>)
    ensures |ids| == |items|
    ensures forall k :: 0 <= k < |items| ==> ids[k] == items[k].id
  {
    seq(|items|, k requires 0 <= k < |items| => items[k].id)
  }

  /** The last entry of the batch for task `id`, if any. */
  function EntryFor(items: seq<KanbanUpdate>, id: string): Option<KanbanUpdate> {
    if items == [] then None
    else if items[|items| - 1].id == id then Some(items[|items| - 1])
    else EntryFor(items[..|items| - 1], id)
  }

  /** The data written by one `prisma.task.update`. */
  function Patch(t: Task, u: KanbanUpdate): Task {
    t.(kanbanPosition := Some(u.kanbanPosition), status := u.status)
  }

  function PatchWith(t: Task, e: Option<KanbanUpdate>): Task {
    match e
    case None => t
    case Some(u) => Patch(t, u)
  }

  /** The table after every entry of the batch has been written. */
  function Applied(tasks: seq<Task>, items: seq<KanbanUpdate>): seq<Task> {
    seq(|tasks|, i requires 0 <= i < |tasks| => PatchWith(tasks[i], EntryFor(items, tasks[i].id)))
  }

  /** Every id of the batch names an existing task. */
  predicate AllFound(tasks: seq<Task>, items: seq<KanbanUpdate>) {
    forall k :: 0 <= k < |items| ==> items[k].id in TaskIds(tasks)
  }

  /** What any interleaving of the concurrent writes can leave behind: each
      row either untouched or carrying its batch entry, nothing else changed. */
  predicate PartlyApplied(before: seq<Task>, after: seq<Task>, items: seq<KanbanUpdate>) {
    |after| == |before| &&
    forall i :: 0 <= i < |before| ==>
      after[i] == before[i] || after[i] == PatchWith(before[i], EntryFor(items, before[i].id))
  }

  lemma {:induction false} EntryForDistinct(items: seq<KanbanUpdate>, k: nat)
    requires Distinct(UpdateIds(items))
    requires k < |items|
    ensures EntryFor(items, items[k].id) == Some(items[k])
  {
    var n := |items| - 1;
    if k < n {
      assert items[n].id != items[k].id by {
        assert UpdateIds(items)[k] != UpdateIds(items)[n];
      }
      var front := items[..n];
      assert UpdateIds(front) == UpdateIds(items)[..n];
      assert front[k] == items[k];
      EntryForDistinct(front, k);
    }
  }

  lemma {:induction false} EntryForAbsent(items: seq<KanbanUpdate>, id: string)
    requires forall k :: 0 <= k < |items| ==> items[k].id != id
    ensures EntryFor(items, id) == None
  {
    if items != [] {
      EntryForAbsent(items[..|items| - 1], id);
    }
  }

  /** After a successful batch each listed task carries its entry's position
      and status. */
  lemma AppliedWritesListedTasks(tasks: seq<Task>, items: seq<KanbanUpdate>, k: nat, i: nat)
    requires Distinct(UpdateIds(items))
    requires k < |items| && i < |tasks| && tasks[i].id == items[k].id
    ensures Applied(tasks, items)[i].kanbanPosition == Some(items[k].kanbanPosition)
    ensures Applied(tasks, items)[i].status == items[k].status
  {
    EntryForDistinct(items, k);
  }

  /** The batch changes only `kanbanPosition` and `status`, and only of the
      listed tasks; the table keeps its length and ids. */
  lemma AppliedFrame(tasks: seq<Task>, items: seq<KanbanUpdate>, i: nat)
    requires i < |tasks|
    ensures |Applied(tasks, items)| == |tasks|
    ensures Applied(tasks, items)[i].(kanbanPosition := tasks[i].kanbanPosition, status := tasks[i].status) == tasks[i]
    ensures (forall k :: 0 <= k < |items| ==> items[k].id != tasks[i].id) ==> Applied(tasks, items)[i] == tasks[i]
  {
    if forall k :: 0 <= k < |items| ==> items[k].id != tasks[i].id {
      EntryForAbsent(items, tasks[i].id);
    }
  }

  lemma AppliedKeepsIds(tasks: seq<Task>, items: seq<KanbanUpdate>)
    ensures TaskIds(Applied(tasks, items)) == TaskIds(tasks)
  {
  }

  /** Writing one more entry: the loop step. */
  lemma AppliedStep(tasks: seq<Task>, items: seq<KanbanUpdate>, u: KanbanUpdate, j: nat)
    requires Distinct(TaskIds(tasks))
    requires j < |tasks| && tasks[j].id == u.id
    ensures Applied(tasks, items + [u]) == Applied(tasks, items)[j := Patch(Applied(tasks, items)[j], u)]
  {
    var a, b := Applied(tasks, items + [u]), Applied(tasks, items)[j := Patch(Applied(tasks, items)[j], u)];
    forall i | 0 <= i < |tasks| ensures a[i] == b[i] {
      assert (items + [u])[..|items|] == items;
      if i != j {
        assert TaskIds(tasks)[i] != TaskIds(tasks)[j];
      }
    }
  }

  /** A prefix of the batch, written in order, is one of the states the
      concurrent writes may leave. */
  lemma PrefixIsPartlyApplied(tasks: seq<Task>, items: seq<KanbanUpdate>, n: nat)
    requires Distinct(UpdateIds(items))
    requires n <= |items|
    ensures PartlyApplied(tasks, Applied(tasks, items[..n]), items)
  {
    forall i | 0 <= i < |tasks|
      ensures Applied(tasks, items[..n])[i] == tasks[i]
           || Applied(tasks, items[..n])[i] == PatchWith(tasks[i], EntryFor(items, tasks[i].id))
    {
      var id := tasks[i].id;
      if k :| 0 <= k < n && items[k].id == id {
        assert UpdateIds(items[..n]) == UpdateIds(items)[..n];
        assert items[..n][k] == items[k];
        EntryForDistinct(items[..n], k);
        EntryForDistinct(items, k);
      } else {
        EntryForAbsent(items[..n], id);
      }
    }
  }

  /** Position of the task with id `id`, or -1: the lookup of `where: { id }`. */
  method IndexOfTask(tasks: seq<Task>, id: string) returns (i: int)
    ensures -1 <= i < |tasks|
    ensures 0 <= i ==> tasks[i].id == id
    ensures i == -1 <==> id !in TaskIds(tasks)
  {
    i := 0;
    while i < |tasks|
      invariant 0 <= i <= |tasks|
      invariant forall p :: 0 <= p < i ==> tasks[p].id != id
    {
      if tasks[i].id == id {
        return;
      }
      i := i + 1;
    }
    i := -1;
  }

  /** Overwriting one row keeps every row with another id in the table. */
  lemma OverwriteKeepsOthers(tasks: seq<Task>, i: nat, row: Task, x: Task)
    requires i < |tasks| && x in tasks && x.id != tasks[i].id
    ensures x in tasks[i := row]
  {
    var p :| 0 <= p < |tasks| && tasks[p] == x;
    assert tasks[i := row][p] == x;
  }

  /** The writes of a non-empty batch, one entry at a time; `ok` is false
      when some id has no task, which is where `prisma.task.update` throws. */
  method WriteBatch(db: Database, items: seq<KanbanUpdate>) returns (ok: bool, data: seq<Task>)
    requires db.Valid()
    requires Distinct(UpdateIds(items))
    modifies db
    ensures db.Valid()
    ensures db.projects == old(db.projects)
    ensures ok == AllFound(old(db.tasks), items)
    ensures ok ==> db.tasks == Applied(old(db.tasks), items)
    ensures ok ==> |data| == |items|
    ensures ok ==> forall k :: 0 <= k < |items| ==> data[k] in db.tasks && data[k].id == items[k].id
    ensures !ok ==> PartlyApplied(old(db.tasks), db.tasks, items)
  {
    data := [];
    var k := 0;
    while k < |items|
      invariant 0 <= k <= |items|
      invariant db.projects == old(db.projects)
      invariant db.tasks == Applied(old(db.tasks), items[..k])
      invariant TaskIds(db.tasks) == TaskIds(old(db.tasks))
      invariant AllFound(old(db.tasks), items[..k])
      invariant |data| == k
      invariant forall j :: 0 <= j < k ==> data[j] in db.tasks && data[j].id == items[j].id
    {
      var i := IndexOfTask(db.tasks, items[k].id);
      if i < 0 {
        PrefixIsPartlyApplied(old(db.tasks), items, k);
        assert items[k].id !in TaskIds(old(db.tasks));
        return false, data;
      }
      AppliedStep(old(db.tasks), items[..k], items[k], i);
      assert items[..k + 1] == items[..k] + [items[k]];
      var row := Patch(db.tasks[i], items[k]);
      forall j | 0 <= j < k ensures data[j] in db.tasks[i := row] {
        assert UpdateIds(items)[j] != UpdateIds(items)[k];
        OverwriteKeepsOthers(db.tasks, i, row, data[j]);
      }
      db.tasks := db.tasks[i := row];
      AppliedKeepsIds(old(db.tasks), items[..k + 1]);
      data := data + [row];
      k := k + 1;
    }
    assert items[..k] == items;
    ok := true;
  }

  /** The handler. */
  method Reorder(db: Database, body: ReorderBody) returns (r: Reply<Reordered>)
    requires db.Valid()
    requires body.Parsed? && body.updates.Updates? ==> Distinct(UpdateIds(body.updates.items))
    modifies db
    ensures db.Valid()
    ensures db.projects == old(db.projects)
    ensures body.MalformedJson? ==> r == Failed() && db.tasks == old(db.tasks)
    ensures body.Parsed? && (body.updates.NotAnArray? || body.updates.items == []) ==>
      r == Reply(400, ErrorBody(InvalidData)) && db.tasks == old(db.tasks)
    ensures body.Parsed? && body.updates.Updates? && body.updates.items != [] ==>
      var items := body.updates.items;
      if AllFound(old(db.tasks), items) then
        && db.tasks == Applied(old(db.tasks), items)
        && r.status == 200 && r.body.Json? && r.body.value.message == Succeeded
        && |r.body.value.data| == |items|
        && forall k :: 0 <= k < |items| ==>
             r.body.value.data[k] in db.tasks && r.body.value.data[k].id == items[k].id
      else
        r == Failed() && PartlyApplied(old(db.tasks), db.tasks, items)
  {
    if body.MalformedJson? {
      return Failed();
    }
    if body.updates.NotAnArray? || body.updates.items == [] {
      return Reply(400, ErrorBody(InvalidData));
    }
    var ok, data := WriteBatch(db, body.updates.items);
    if ok {
      r := Reply(200, Json(Reordered(Succeeded, data)));
    } else {
      r := Failed();
    }
  }
}

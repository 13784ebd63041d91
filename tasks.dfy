/**
 * The tasks collection: `Task` records, their dictionary and CSV forms, and
 * the list operations of the tasks menu (add, mark done, edit, delete, import).
 */
module Tasks {
  import opened Collection
  import opened Dicts
  import Strings

  /** `dueDate` is `None` only when a task was built without one (the constructor's default). */
  datatype Task = Task(id: int, title: string, description: string, done: bool, priority: string, dueDate: Option<string>)

  function TaskId(t: Task): int { t.id }

  /** The constructor's default priority ("Medium" in Russian). */
  const DefaultPriority: string := "Средний"

  /** The field updates of `edit_task`: each empty entry keeps its field; `done` is never touched. */
  function Edited(t: Task, title: string, description: string, priority: string, dueDate: string): Task
  {
    t.(title := Or(title, t.title),
       description := Or(description, t.description),
       priority := Or(priority, t.priority),
       dueDate := if dueDate == "" then t.dueDate else Some(dueDate))
  }

  /** Each field is edited on its own: a non-empty entry replaces it, an empty one keeps it. */
  lemma EditFields(t: Task, title: string, description: string, priority: string, dueDate: string)
    ensures Edited(t, title, description, priority, dueDate).id == t.id
    ensures Edited(t, title, description, priority, dueDate).done == t.done
    ensures Edited(t, title, description, priority, dueDate).title == if title == "" then t.title else title
    ensures Edited(t, title, description, priority, dueDate).description == if description == "" then t.description else description
    ensures Edited(t, title, description, priority, dueDate).priority == if priority == "" then t.priority else priority
    ensures Edited(t, title, description, priority, dueDate).dueDate == if dueDate == "" then t.dueDate else Some(dueDate)
  {
  }

  /** An edit with every entry blank leaves the task as it was, and repeating an edit changes nothing more. */
  lemma EditBlankAndRepeat(t: Task, title: string, description: string, priority: string, dueDate: string)
    ensures Edited(t, "", "", "", "") == t
    ensures Edited(Edited(t, title, description, priority, dueDate), title, description, priority, dueDate)
            == Edited(t, title, description, priority, dueDate)
  {
  }

  /** The list after `edit_task` for id `id`: the first task with that id is edited in place. */
  function EditFirst(s: seq<Task>, id: int, title: string, description: string, priority: string, dueDate: string): (r: seq<Task>)
    ensures |r| == |s|
    ensures forall j :: 0 <= j < |s| ==> r[j].id == s[j].id
    ensures forall j :: 0 <= j < |s| && FirstIndex(s, TaskId, id) != Some(j) ==> r[j] == s[j]
    ensures !HasId(s, TaskId, id) ==> r == s
    ensures Find(r, TaskId, id) ==
              match Find(s, TaskId, id)
              case None => None
              case Some(t) => Some(Edited(t, title, description, priority, dueDate))
  {
    match FirstIndex(s, TaskId, id)
    case None => s
    case Some(i) =>
      var r := s[i := Edited(s[i], title, description, priority, dueDate)];
      FirstIndexSameKeys(s, r, TaskId, id);
      r
  }

  /** The list after `mark_task_done` for id `id`: the first task with that id is done, nothing else changes. */
  function MarkedDone(s: seq<Task>, id: int): (r: seq<Task>)
    ensures |r| == |s|
    ensures forall j :: 0 <= j < |s| ==> r[j].id == s[j].id
    ensures forall j :: 0 <= j < |s| && FirstIndex(s, TaskId, id) != Some(j) ==> r[j] == s[j]
    ensures !HasId(s, TaskId, id) ==> r == s
    ensures Find(r, TaskId, id) ==
              match Find(s, TaskId, id)
              case None => None
              case Some(t) => Some(t.(done := true))
  {
    match FirstIndex(s, TaskId, id)
    case None => s
    case Some(i) =>
      var r := s[i := s[i].(done := true)];
      FirstIndexSameKeys(s, r, TaskId, id);
      r
  }

  /** Marking a task done twice is the same as marking it once. */
  lemma MarkDoneIdempotent(s: seq<Task>, id: int)
    ensures MarkedDone(MarkedDone(s, id), id) == MarkedDone(s, id)
  {
    FirstIndexSameKeys(s, MarkedDone(s, id), TaskId, id);
  }

  /** Marking a task done leaves it done even after a later edit (editing never touches `done`). */
  lemma {:induction false} EditKeepsDone(s: seq<Task>, id: int, title: string, description: string, priority: string, dueDate: string)
    requires HasId(s, TaskId, id)
    ensures Find(EditFirst(MarkedDone(s, id), id, title, description, priority, dueDate), TaskId, id).value.done
  {
    var m := MarkedDone(s, id);
    assert Find(m, TaskId, id).value.done;
  }

  // ---- dictionary form (to_dict, and Task(**d) when loading) ----

  /** The keys `to_dict` writes. */
  const DictKeys: set<string> := {"id", "title", "description", "done", "priority", "due_date"}

  /** The id parameter of `Task.__init__` as the source names it. */
  const SourceIdParam := "task_id"

  function ToDict(t: Task): (d: Dict)
    ensures d.Keys == DictKeys
  {
    map["id" := Int(t.id), "title" := Str(t.title), "description" := Str(t.description),
        "done" := Bool(t.done), "priority" := Str(t.priority),
        "due_date" := if t.dueDate.Some? then Str(t.dueDate.value) else Null]
  }

  /**
   * Building a task from a loaded dictionary by keyword arguments (personal_assistent.py:188),
   * for a constructor whose id parameter is called `idParam`.
   * Missing optional keys take the constructor's defaults: not done, the
   * default priority, no due date. A value of a kind the field cannot hold is
   * reported as `WrongType`, where Python would store it unchecked.
   */
  function Rebuild(d: Dict, idParam: string): Result<Task>
  {
    match Bind(d, {idParam, "title", "description", "done", "priority", "due_date"}, {idParam, "title", "description"})
    case Err(e) => Err(e)
    case Ok(_) =>
      var done := if "done" in d then d["done"] else Bool(false);
      var priority := if "priority" in d then d["priority"] else Str(DefaultPriority);
      var due := Optional(d, "due_date");
      if d[idParam].Int? && d["title"].Str? && d["description"].Str? && done.Bool? && priority.Str? && (due.Str? || due.Null?) then
        Ok(Task(d[idParam].i, d["title"].s, d["description"].s, done.b, priority.s, if due.Str? then Some(due.s) else None))
      else
        Err(WrongType)
  }

  /** As written, rebuilding a saved task raises: the key `id` names no parameter of the constructor (personal_assistent.py:21). */
  lemma RebuildAsWrittenFails(t: Task)
    ensures Rebuild(ToDict(t), SourceIdParam) == Err(UnexpectedKeyword)
  {
    assert "id" in ToDict(t).Keys;
  }

  /** With the id parameter named after the key, rebuilding a saved task gives it back. */
  lemma RebuildRoundTrip(t: Task)
    ensures Rebuild(ToDict(t), "id") == Ok(t)
  {
  }

  /** What `save_tasks` writes (personal_assistent.py:194): one dictionary per task, in order. */
  function Save(s: seq<Task>): (ds: seq<Dict>)
    ensures |ds| == |s|
    ensures forall k :: 0 <= k < |s| ==> ds[k] == ToDict(s[k])
    decreases |s|
  {
    if s == [] then [] else [ToDict(s[0])] + Save(s[1..])
  }

  /** `Rebuild` with the id parameter's name fixed, as a function value for `LoadAll`. */
  function Rebuilder(idParam: string): Dict -> Result<Task>
  {
    d => Rebuild(d, idParam)
  }

  /** What `load_tasks` returns (personal_assistent.py:188): one task per dictionary; the first failing dictionary aborts it. */
  function Load(ds: seq<Dict>, idParam: string): (r: Result<seq<Task>>)
    ensures r.Ok? ==> |r.value| == |ds| && forall k :: 0 <= k < |ds| ==> Rebuild(ds[k], idParam) == Ok(r.value[k])
    ensures r.Ok? <==> forall k :: 0 <= k < |ds| ==> Rebuild(ds[k], idParam).Ok?
    ensures r.Err? ==>
              exists k :: 0 <= k < |ds| && Rebuild(ds[k], idParam) == Err(r.error) &&
                forall j :: 0 <= j < k ==> Rebuild(ds[j], idParam).Ok?
  {
    LoadAll(ds, Rebuilder(idParam))
  }

  /** As written, loading what was saved fails for every non-empty collection. */
  lemma {:induction false} LoadAsWrittenFails(s: seq<Task>)
    requires |s| > 0
    ensures Load(Save(s), SourceIdParam) == Err(UnexpectedKeyword)
  {
    RebuildAsWrittenFails(s[0]);
  }

  /** With the parameter named `id`, loading what was saved gives the collection back. */
  lemma {:induction false} LoadSaveRoundTrip(s: seq<Task>)
    ensures Load(Save(s), "id") == Ok(s)
    decreases |s|
  {
    if s != [] {
      assert Save(s)[0] == ToDict(s[0]) && Save(s)[1..] == Save(s[1..]);
      RebuildRoundTrip(s[0]);
      LoadSaveRoundTrip(s[1..]);
      assert [s[0]] + s[1..] == s;
    }
  }

  // ---- CSV form ----

  /** The export header, in column order. */
  const CsvFields: seq<string> := ["id", "title", "description", "done", "priority", "due_date"]

  /** The columns the import reads from each row. */
  const CsvColumns: set<string> := {"title", "description", "done", "priority", "due_date"}

  /** The task the import loop builds from a row (personal_assistent.py:251): the assigned id and the row's cells, done exactly when the `done` cell reads `True`. */
  function FromCsvRow(row: CsvRow, id: int): (t: Task)
    requires CsvColumns <= row.Keys
    ensures t.id == id && t.title == row["title"] && t.description == row["description"]
    ensures t.done <==> row["done"] == "True"
    ensures t.priority == row["priority"] && t.dueDate == Some(row["due_date"])
  {
    Task(id, row["title"], row["description"], row["done"] == "True", row["priority"], Some(row["due_date"]))
  }

  /** The row the CSV writer produces for a task's dictionary (personal_assistent.py:264): `done` as `True` or `False`, and an empty cell for no due date. */
  function ToCsvRow(t: Task): (row: CsvRow)
    ensures row.Keys == set f | f in CsvFields
  {
    map["id" := Strings.IntToString(t.id), "title" := t.title, "description" := t.description,
        "done" := if t.done then "True" else "False", "priority" := t.priority,
        "due_date" := if t.dueDate.Some? then t.dueDate.value else ""]
  }

  /** The rows `export_tasks_to_csv` writes after the header. */
  function ExportRows(s: seq<Task>): (rows: seq<CsvRow>)
    ensures |rows| == |s|
    ensures forall k :: 0 <= k < |s| ==> rows[k] == ToCsvRow(s[k])
    decreases |s|
  {
    if s == [] then [] else [ToCsvRow(s[0])] + ExportRows(s[1..])
  }

  /**
   * Importing an exported task gives it back under the id the import assigns,
   * `done` included; a task without a due date comes back with an empty one.
   */
  lemma ImportOfExport(t: Task, id: int)
    ensures CsvColumns <= ToCsvRow(t).Keys
    ensures t.dueDate.Some? ==> FromCsvRow(ToCsvRow(t), id) == t.(id := id)
    ensures t.dueDate.None? ==> FromCsvRow(ToCsvRow(t), id) == t.(id := id, dueDate := Some(""))
  {
  }

  /** Every exported row carries the columns the import reads, so importing an export never stops early. */
  lemma ExportRowsImportable(s: seq<Task>)
    ensures LeadingRows(ExportRows(s), CsvColumns) == |s|
  {
    var rows := ExportRows(s);
    forall k | 0 <= k < |rows|
      ensures CsvColumns <= rows[k].Keys
    {
      assert rows[k] == ToCsvRow(s[k]);
    }
    LeadingRowsAll(rows, CsvColumns);
  }

  // ---- the in-memory collection ----

  /** The list of tasks the tasks menu works on. */
  class TaskList {
    var items: seq<Task>

    /** The list `load_tasks` returns: the stored tasks, or none when there is no file. */
    constructor (loaded: seq<Task>)
      ensures items == loaded
    {
      items := loaded;
    }

    /** `add_task`: a task with id `len + 1`, not done, with the entered priority and due date, is appended. */
    method Add(title: string, description: string, priority: string, dueDate: string) returns (task: Task)
      modifies this
      ensures task.id == |old(items)| + 1 && task.title == title && task.description == description
      ensures !task.done && task.priority == priority && task.dueDate == Some(dueDate)
      ensures items == old(items) + [task]
      ensures DenseIds(old(items), TaskId) ==> DenseIds(items, TaskId)
    {
      task := Task(|items| + 1, title, description, false, priority, Some(dueDate));
      items := items + [task];
    }

    /** `mark_task_done`: the first task with the id is done; an absent id changes nothing. */
    method MarkDone(id: int) returns (found: bool)
      modifies this
      ensures found <==> HasId(old(items), TaskId, id)
      ensures items == MarkedDone(old(items), id)
    {
      match FirstIndex(items, TaskId, id) {
        case None =>
          found := false;
        case Some(i) =>
          var task := items[i];
          task := task.(done := true);
          items := items[i := task];
          found := true;
      }
    }

    /** `edit_task`: the first task with the id gets each new field where one was entered. */
    method Edit(id: int, title: string, description: string, priority: string, dueDate: string) returns (found: bool)
      modifies this
      ensures found <==> HasId(old(items), TaskId, id)
      ensures items == EditFirst(old(items), id, title, description, priority, dueDate)
    {
      match FirstIndex(items, TaskId, id) {
        case None =>
          found := false;
        case Some(i) =>
          var task := items[i];
          task := task.(title := Or(title, task.title));
          task := task.(description := Or(description, task.description));
          task := task.(priority := Or(priority, task.priority));
          if dueDate != "" {
            task := task.(dueDate := Some(dueDate));
          }
          items := items[i := task];
          found := true;
      }
    }

    /** `delete_task`: the first task with the id is removed; an absent id changes nothing. */
    method Delete(id: int) returns (removed: bool)
      modifies this
      ensures removed <==> HasId(old(items), TaskId, id)
      ensures items == Deleted(old(items), TaskId, id)
    {
      match FirstIndex(items, TaskId, id) {
        case None =>
          removed := false;
        case Some(i) =>
          items := items[..i] + items[i + 1..];
          removed := true;
      }
    }

    /**
     * The row loop of `import_tasks_from_csv`: each row becomes a task with id
     * `len + 1` at the time it is appended. A row without one of the columns
     * raises a KeyError, which ends the import; the rows before it stay appended.
     */
    method ImportCsv(rows: seq<CsvRow>) returns (ok: bool)
      modifies this
      ensures ok <==> LeadingRows(rows, CsvColumns) == |rows|
      ensures |items| == |old(items)| + LeadingRows(rows, CsvColumns)
      ensures items[..|old(items)|] == old(items)
      ensures forall k :: |old(items)| <= k < |items| ==>
                items[k] == FromCsvRow(rows[k - |old(items)|], k + 1)
      ensures forall k :: |old(items)| <= k < |items| ==> items[k].id == k + 1
      ensures DenseIds(old(items), TaskId) ==> DenseIds(items, TaskId)
    {
      ghost var n := LeadingRows(rows, CsvColumns);
      ghost var m := |items|;
      var i := 0;
      while i < |rows|
        invariant 0 <= i <= n
        invariant |items| == m + i
        invariant items[..m] == old(items)
        invariant forall k :: m <= k < |items| ==> items[k] == FromCsvRow(rows[k - m], k + 1)
      {
        var row := rows[i];
        if !(CsvColumns <= row.Keys) {
          return false;
        }
        var task := FromCsvRow(row, |items| + 1);
        items := items + [task];
        i := i + 1;
      }
      ok := true;
    }
  }
}

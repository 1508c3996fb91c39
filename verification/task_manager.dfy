/**
 * The task operations of app/main.py over one `DatabaseManager`: the
 * connection guard, export of fetched rows to JSON-ready records, import of
 * a parsed JSON array through `Task` validation and `insert_task`, and the
 * construction of a task from console answers in `add_new_task`.
 */
module TaskManager {
  import opened Wrappers
  import opened Dates
  import opened TaskSchema
  import opened Database

  /** One element of the imported JSON array: an object, or any other JSON value. */
  datatype Element = Object(fields: Record) | NonObject

  datatype ExportResult = ExportNotConnected | NoTasks | Exported(records: seq<Record>)

  /** What reading `tasks.json` gave: the four outcomes `import_tasks_from_json` distinguishes. */
  datatype ImportSource = FileNotFound | Unreadable | NotJson | Document(elements: seq<Element>)

  datatype ImportResult =
    | ImportNotConnected
    | MissingFile
    | ReadFailed
    | DecodeFailed
    | NothingToImport
    | Imported(count: nat)

  datatype AddError = BadDate(text: string) | Invalid(errors: seq<FieldError>)

  datatype AddResult = AddNotConnected | Rejected(error: AddError) | Submitted(result: InsertResult)

  /** `check_db_connection_status()`: true exactly when a connection is present and connected. */
  method CheckDbConnectionStatus(db: DatabaseManager) returns (active: bool)
    ensures active <==> db.connection == Open
  {
    active := db.connection != NoConnection && db.connection == Open;
  }

  // ----- export -----

  /** A row made serialisable: a copy of it whose `due_date`, when it is a date, becomes its ISO text. */
  function Serialized(row: Record): (r: Record)
    ensures r.Keys == row.Keys
    ensures forall k :: k in row && k != "due_date" ==> r[k] == row[k]
    ensures "due_date" in row && !row["due_date"].DateValue? ==> r["due_date"] == row["due_date"]
    ensures "due_date" in row && row["due_date"].DateValue? ==> r["due_date"].Str?
  {
    if "due_date" in row && row["due_date"].DateValue? then
      row["due_date" := Str(FormatIso(row["due_date"].date))]
    else row
  }

  /** The exported text of a date parses back, with `date.fromisoformat`, to that date. */
  lemma ExportedDueDateRoundTrip(row: Record)
    requires "due_date" in row && row["due_date"].DateValue?
    ensures Serialized(row)["due_date"] == Str(FormatIso(row["due_date"].date))
    ensures ParseIso(Serialized(row)["due_date"].s) == Some(row["due_date"].date)
  {
    ParseFormatRoundTrip(row["due_date"].date);
  }

  /**
   * `export_tasks_to_json()`, given the rows `get_all_tasks()` returned: one
   * serialisable record per row, in order, when connected and there is
   * something to export. The file write itself is not modelled.
   */
  method ExportTasks(db: DatabaseManager, tasksData: seq<Record>) returns (out: ExportResult)
    ensures db.connection != Open ==> out == ExportNotConnected
    ensures db.connection == Open && tasksData == [] ==> out == NoTasks
    ensures db.connection == Open && tasksData != [] ==>
              && out.Exported?
              && |out.records| == |tasksData|
              && forall i :: 0 <= i < |tasksData| ==> out.records[i] == Serialized(tasksData[i])
  {
    var active := CheckDbConnectionStatus(db);
    if !active {
      return ExportNotConnected;
    }
    if |tasksData| == 0 {
      return NoTasks;
    }
    var serializable: seq<Record> := [];
    for k := 0 to |tasksData|
      invariant |serializable| == k
      invariant forall i :: 0 <= i < k ==> serializable[i] == Serialized(tasksData[i])
    {
      var copy := tasksData[k];
      if "due_date" in copy && copy["due_date"].DateValue? {
        copy := copy["due_date" := Str(FormatIso(copy["due_date"].date))];
      }
      serializable := serializable + [copy];
    }
    return Exported(serializable);
  }

  // ----- import -----

  /** `Task(**task_data)`: `None` when it raises, either a validation error or a `TypeError` on a non-object. */
  function Constructed(e: Element): (r: Option<Task>)
    ensures e.NonObject? ==> r.None?
    ensures r.Some? <==> e.Object? && Acceptable(e.fields)
    ensures r.Some? ==> Construct(e.fields) == Success(r.value)
  {
    match e
    case NonObject => None
    case Object(kw) =>
      match Construct(kw)
      case Success(task) => Some(task)
      case Failure(_) => None
  }

  /** The tasks that pass construction, in document order. */
  function Accepted(es: seq<Element>): (ts: seq<Task>)
    ensures |ts| <= |es|
    decreases |es|
  {
    if es == [] then []
    else
      var last := es[|es| - 1];
      Accepted(es[..|es| - 1]) + (if Constructed(last).Some? then [Constructed(last).value] else [])
  }

  /**
   * The import loop over `es` against table `t` on an open connection:
   * records that fail construction are skipped; every other record is
   * passed to `insert_task` (the server refusing the one at position `i`
   * when `rejects(i)`) and counted whatever the insert returned.
   */
  function ImportRun(t: Option<Table>, es: seq<Element>, rejects: nat -> bool): (res: (Option<Table>, nat))
    ensures res.1 == |Accepted(es)| && res.1 <= |es|
    ensures t.None? <==> res.0.None?
    decreases |es|
  {
    if es == [] then (t, 0)
    else ImportStep(ImportRun(t, es[..|es| - 1], rejects), es[|es| - 1], rejects(|es| - 1))
  }

  /** One pass of the import loop body: skip the record, or insert its task and count it. */
  function ImportStep(state: (Option<Table>, nat), e: Element, rejected: bool): (Option<Table>, nat) {
    match Constructed(e)
    case None => state
    case Some(task) => (Insert(Open, state.0, task, rejected).1, state.1 + 1)
  }

  lemma ImportRunSnoc(t: Option<Table>, es: seq<Element>, e: Element, rejects: nat -> bool)
    ensures ImportRun(t, es + [e], rejects) == ImportStep(ImportRun(t, es, rejects), e, rejects(|es|))
  {
    assert (es + [e])[..|es|] == es;
  }

  /**
   * One turn of the import loop: the body's effect on the table does not
   * depend on the count so far, so the run over one more record is reached.
   */
  lemma ImportRunStep(t0: Option<Table>, es: seq<Element>, i: nat, rejects: nat -> bool,
                      before: Option<Table>, count: nat, after: Option<Table>, counted: nat)
    requires i < |es|
    requires (before, count) == ImportRun(t0, es[..i], rejects)
    requires (after, counted) == ImportStep((before, 0), es[i], rejects(i))
    ensures (after, count + counted) == ImportRun(t0, es[..i + 1], rejects)
  {
    assert es[..i + 1] == es[..i] + [es[i]];
    ImportRunSnoc(t0, es[..i], es[i], rejects);
  }

  /**
   * Import never removes or changes a row: the old rows stay in front, at
   * most one row is added per counted record, and the key discipline holds.
   */
  lemma {:induction false} ImportKeepsRows(t: Table, es: seq<Element>, rejects: nat -> bool)
    ensures var t' := ImportRun(Some(t), es, rejects).0.value;
            && t.rows <= t'.rows
            && |t'.rows| <= |t.rows| + ImportRun(Some(t), es, rejects).1
            && (WellFormed(t) ==> WellFormed(t'))
    decreases |es|
  {
    if es != [] {
      ImportKeepsRows(t, es[..|es| - 1], rejects);
    }
  }

  /** The server refuses no write. */
  function NoRejects(i: nat): bool {
    false
  }

  /** The table after appending `tasks` one by one. */
  function AppendAll(t: Table, tasks: seq<Task>): (t': Table)
    ensures t'.nextId == t.nextId + |tasks|
    ensures |t'.rows| == |t.rows| + |tasks| && t'.rows[..|t.rows|] == t.rows
    ensures forall k :: 0 <= k < |tasks| ==> t'.rows[|t.rows| + k] == RowOf(t.nextId + k, tasks[k])
    decreases |tasks|
  {
    if tasks == [] then t
    else Appended(AppendAll(t, tasks[..|tasks| - 1]), tasks[|tasks| - 1])
  }

  /** A bad record in the middle of a document costs only itself: the batch goes on. */
  lemma {:induction false} AcceptedConcat(a: seq<Element>, b: seq<Element>)
    ensures Accepted(a + b) == Accepted(a) + Accepted(b)
    decreases |b|
  {
    if b != [] {
      var b' := b[..|b| - 1];
      assert (a + b)[..|a + b| - 1] == a + b';
      AcceptedConcat(a, b');
    } else {
      assert a + b == a;
    }
  }

  lemma SkipsInvalidRecord(a: seq<Element>, bad: Element, b: seq<Element>)
    requires Constructed(bad).None?
    ensures Accepted(a + [bad] + b) == Accepted(a) + Accepted(b)
  {
    AcceptedConcat(a + [bad], b);
    assert (a + [bad])[..|a + [bad]| - 1] == a;
    assert Accepted(a + [bad]) == Accepted(a);
  }

  /** With the table present and no write refused, the accepted tasks are appended in document order. */
  lemma {:induction false} ImportAppendsAccepted(t: Table, es: seq<Element>, rejects: nat -> bool)
    requires forall i: nat :: !rejects(i)
    ensures ImportRun(Some(t), es, rejects).0 == Some(AppendAll(t, Accepted(es)))
    decreases |es|
  {
    if es != [] {
      var init, last := es[..|es| - 1], es[|es| - 1];
      ImportAppendsAccepted(t, init, rejects);
      var before := AppendAll(t, Accepted(init));
      assert ImportRun(Some(t), init, rejects).0 == Some(before);
      match Constructed(last)
      case None =>
        assert Accepted(es) == Accepted(init);
      case Some(task) =>
        var acc := Accepted(init) + [task];
        assert Accepted(es) == acc;
        assert acc[..|acc| - 1] == Accepted(init);
        assert AppendAll(t, acc) == Appended(before, task);
        assert !rejects(|es| - 1);
    }
  }

  /**
   * Without the table every insert returns `None`, yet each constructed
   * record is still counted: the reported count is the number of records
   * that passed validation, not of rows written.
   */
  lemma ImportCountsUnwrittenInserts(es: seq<Element>, rejects: nat -> bool)
    ensures ImportRun(None, es, rejects) == (None, |Accepted(es)|)
  {
  }

  /**
   * The body of the import loop for one record: build the task, insert it,
   * and report whether the record is counted (construction succeeded and
   * `insert_task` did not raise).
   */
  method ImportOne(db: DatabaseManager, e: Element, rejected: bool) returns (counted: bool)
    requires db.Valid() && db.connection == Open
    modifies db`table
    ensures db.Valid()
    ensures (db.table, if counted then 1 else 0) == ImportStep((old(db.table), 0), e, rejected)
  {
    counted := false;
    var task := Constructed(e);
    if task.Some? {
      var r := db.InsertTask(task.value, rejected);
      counted := !r.Raised?;
    }
  }

  /**
   * The counting loop of `import_tasks_from_json()` over the parsed records:
   * the table and the count end as `ImportRun` says.
   */
  method ImportRecords(db: DatabaseManager, tasksToImport: seq<Element>, rejects: nat -> bool)
    returns (importedCount: nat)
    requires db.Valid() && db.connection == Open
    modifies db`table
    ensures db.Valid()
    ensures (db.table, importedCount) == ImportRun(old(db.table), tasksToImport, rejects)
  {
    ghost var t0 := db.table;
    importedCount := 0;
    for i := 0 to |tasksToImport|
      invariant db.Valid() && db.connection == Open
      invariant (db.table, importedCount) == ImportRun(t0, tasksToImport[..i], rejects)
    {
      ghost var before := db.table;
      var counted := ImportOne(db, tasksToImport[i], rejects(i));
      ImportRunStep(t0, tasksToImport, i, rejects, before, importedCount, db.table, if counted then 1 else 0);
      if counted {
        importedCount := importedCount + 1;
      }
    }
    assert tasksToImport[..|tasksToImport|] == tasksToImport;
  }

  /**
   * `import_tasks_from_json()`, given what reading the file produced and
   * which writes the server refuses: guard, file and decoding failures, an
   * empty array, then the validate/insert/count loop.
   */
  method ImportTasks(db: DatabaseManager, source: ImportSource, rejects: nat -> bool) returns (out: ImportResult)
    requires db.Valid()
    modifies db`table
    ensures db.Valid()
    ensures db.connection != Open ==> out == ImportNotConnected
    ensures db.connection == Open && source.FileNotFound? ==> out == MissingFile
    ensures db.connection == Open && source.Unreadable? ==> out == ReadFailed
    ensures db.connection == Open && source.NotJson? ==> out == DecodeFailed
    ensures db.connection == Open && source == Document([]) ==> out == NothingToImport
    ensures !(db.connection == Open && source.Document? && source.elements != []) ==> db.table == old(db.table)
    ensures db.connection == Open && source.Document? && source.elements != [] ==>
              var (t, n) := ImportRun(old(db.table), source.elements, rejects);
              out == Imported(n) && db.table == t
  {
    var active := CheckDbConnectionStatus(db);
    if !active {
      return ImportNotConnected;
    }
    if source.FileNotFound? {
      return MissingFile;
    }
    if source.Unreadable? {
      return ReadFailed;
    }
    if source.NotJson? {
      return DecodeFailed;
    }
    var tasksToImport := source.elements;
    if |tasksToImport| == 0 {
      return NothingToImport;
    }
    var importedCount := ImportRecords(db, tasksToImport, rejects);
    return Imported(importedCount);
  }

  // ----- export followed by import -----

  /** The dictionary `get_all_tasks()` yields for a row, keyed by column name, `due_date` as a date. */
  function RowRecord(row: Row): Record {
    map["id" := Int(row.id), "title" := Str(row.title), "description" := Str(row.description),
        "status" := Str(row.status), "due_date" := DateValue(row.dueDate)]
  }

  function TaskOfRow(row: Row): Task {
    Task(row.title, row.description, row.status, row.dueDate)
  }

  function TasksOfRows(rows: seq<Row>): (ts: seq<Task>)
    ensures |ts| == |rows| && forall i :: 0 <= i < |rows| ==> ts[i] == TaskOfRow(rows[i])
    decreases |rows|
  {
    if rows == [] then [] else TasksOfRows(rows[..|rows| - 1]) + [TaskOfRow(rows[|rows| - 1])]
  }

  /** The JSON array holding `records`, as `json.load` reads it back. */
  function AsJsonArray(records: seq<Record>): (es: seq<Element>)
    ensures |es| == |records| && forall i :: 0 <= i < |records| ==> es[i] == Object(records[i])
  {
    seq(|records|, i requires 0 <= i < |records| => Object(records[i]))
  }

  /** A row whose title and status pass validation survives export and re-construction, `id` aside. */
  predicate Reimportable(row: Row) {
    |row.title| >= 1 && row.status in ValidStatuses
  }

  lemma RowRoundTrip(row: Row)
    ensures Constructed(Object(Serialized(RowRecord(row)))) ==
            (if Reimportable(row) then Some(TaskOfRow(row)) else None)
  {
    var kw := Serialized(RowRecord(row));
    ParseFormatRoundTrip(row.dueDate);
    assert kw["due_date"] == Str(FormatIso(row.dueDate));
    assert kw["title"] == Str(row.title) && kw["status"] == Str(row.status);
  }

  /** Exported records of reimportable rows are all accepted, giving back the rows' tasks in order. */
  lemma {:induction false} ExportThenAccept(rows: seq<Row>, exported: seq<Record>)
    requires |exported| == |rows|
    requires forall i :: 0 <= i < |rows| ==> exported[i] == Serialized(RowRecord(rows[i]))
    requires forall i :: 0 <= i < |rows| ==> Reimportable(rows[i])
    ensures Accepted(AsJsonArray(exported)) == TasksOfRows(rows)
    decreases |rows|
  {
    if rows != [] {
      var n := |rows| - 1;
      ExportThenAccept(rows[..n], exported[..n]);
      var es := AsJsonArray(exported);
      assert es[..n] == AsJsonArray(exported[..n]);
      RowRoundTrip(rows[n]);
      assert Constructed(es[n]) == Some(TaskOfRow(rows[n]));
      assert Accepted(es) == Accepted(es[..n]) + [TaskOfRow(rows[n])];
      assert rows[..n] == rows[..|rows| - 1];
    }
  }

  /**
   * Exporting reimportable rows and importing the records into a table with
   * no refused writes appends the rows' tasks, in order, under fresh keys;
   * the reported count is the number of rows.
   */
  lemma ExportImportRoundTrip(rows: seq<Row>, exported: seq<Record>, t: Table)
    requires |exported| == |rows|
    requires forall i :: 0 <= i < |rows| ==> exported[i] == Serialized(RowRecord(rows[i]))
    requires forall i :: 0 <= i < |rows| ==> Reimportable(rows[i])
    ensures ImportRun(Some(t), AsJsonArray(exported), NoRejects) == (Some(AppendAll(t, TasksOfRows(rows))), |rows|)
  {
    ExportThenAccept(rows, exported);
    ImportAppendsAccepted(t, AsJsonArray(exported), NoRejects);
  }

  /**
   * The table the round trip produces keeps the old rows and then holds one
   * row per exported row, with the same title, description, status and due
   * date, under consecutive keys starting at the old counter.
   */
  lemma RoundTripRows(rows: seq<Row>, t: Table)
    ensures var t' := AppendAll(t, TasksOfRows(rows));
            && |t'.rows| == |t.rows| + |rows| && t'.rows[..|t.rows|] == t.rows
            && forall k :: 0 <= k < |rows| ==>
                 TaskOfRow(t'.rows[|t.rows| + k]) == TaskOfRow(rows[k]) && t'.rows[|t.rows| + k].id == t.nextId + k
  {
    var tasks := TasksOfRows(rows);
    var t' := AppendAll(t, tasks);
    forall k | 0 <= k < |rows|
      ensures TaskOfRow(t'.rows[|t.rows| + k]) == TaskOfRow(rows[k]) && t'.rows[|t.rows| + k].id == t.nextId + k
    {
      assert t'.rows[|t.rows| + k] == RowOf(t.nextId + k, tasks[k]);
      assert tasks[k] == TaskOfRow(rows[k]);
    }
  }

  /** A record imported without a status is stored as one new row whose status is "pending". */
  lemma ImportStoresDefaultStatus(kw: Record, t: Table)
    requires Acceptable(kw) && "status" !in kw
    ensures Construct(kw).Success? && Construct(kw).value.status == DefaultStatus
    ensures ImportRun(Some(t), [Object(kw)], NoRejects) == (Some(Appended(t, Construct(kw).value)), 1)
  {
    ConstructSucceedsIffAcceptable(kw);
    var task := Construct(kw).value;
    assert Constructed(Object(kw)) == Some(task);
    assert [Object(kw)][..0] == [];
    assert Accepted([Object(kw)]) == [task];
    ImportAppendsAccepted(t, [Object(kw)], NoRejects);
    assert [task][..0] == [];
    assert AppendAll(t, [task]) == Appended(t, task);
  }

  /**
   * A record imported without a status is stored with status "pending", and
   * that row, once exported, is refused on the next import.
   */
  lemma DefaultStatusBreaksRoundTrip(kw: Record, t: Table)
    requires Acceptable(kw) && "status" !in kw
    ensures var t' := ImportRun(Some(t), [Object(kw)], NoRejects).0.value;
            && |t'.rows| == |t.rows| + 1
            && t'.rows[|t.rows|].status == DefaultStatus
            && Constructed(Object(Serialized(RowRecord(t'.rows[|t.rows|])))) == None
  {
    ImportStoresDefaultStatus(kw, t);
    var t' := Appended(t, Construct(kw).value);
    RowRoundTrip(t'.rows[|t.rows|]);
  }

  // ----- add_new_task -----

  /** The status prompt's answer, with an empty answer standing for "pendiente". */
  function StatusOrDefault(input: string): (status: string)
    ensures status != ""
    ensures input != "" ==> status == input
    ensures input == "" ==> status == Pending
  {
    if input == "" then Pending else input
  }

  /**
   * The task `add_new_task` builds from the console answers: the due date is
   * parsed first, then `Task` validates title and status.
   */
  function NewTask(title: string, description: string, statusInput: string, dueText: string): (r: Result<Task, AddError>)
    ensures ParseIso(dueText).None? ==> r == Failure(BadDate(dueText))
    ensures r.Success? <==> ParseIso(dueText).Some? && |title| >= 1 && StatusOrDefault(statusInput) in ValidStatuses
    ensures r.Success? ==>
              r.value == Task(title, description, StatusOrDefault(statusInput), ParseIso(dueText).value)
    ensures r.Success? && statusInput == "" ==> r.value.status == Pending
    ensures r.Success? ==> r.value.status in ValidStatuses
  {
    match ParseIso(dueText)
    case None => Failure(BadDate(dueText))
    case Some(d) =>
      ConstructFromFields(title, description, StatusOrDefault(statusInput), d);
      match Construct(Arguments(title, description, StatusOrDefault(statusInput), d))
      case Success(task) => Success(task)
      case Failure(errors) => Failure(Invalid(errors))
  }

  /**
   * `add_new_task()`, given the four console answers and whether the server
   * refuses the write: nothing is inserted without a connection, on an
   * unparsable date or on a failed validation.
   */
  method AddNewTask(db: DatabaseManager, title: string, description: string, statusInput: string,
                    dueText: string, rejected: bool) returns (out: AddResult)
    requires db.Valid()
    modifies db`table
    ensures db.Valid()
    ensures db.connection != Open ==> out == AddNotConnected && db.table == old(db.table)
    ensures db.connection == Open && NewTask(title, description, statusInput, dueText).Failure? ==>
              out == Rejected(NewTask(title, description, statusInput, dueText).error) && db.table == old(db.table)
    ensures db.connection == Open && NewTask(title, description, statusInput, dueText).Success? ==>
              && out.Submitted?
              && (out.result, db.table) == Insert(Open, old(db.table), NewTask(title, description, statusInput, dueText).value, rejected)
  {
    var active := CheckDbConnectionStatus(db);
    if !active {
      return AddNotConnected;
    }
    var status := StatusOrDefault(statusInput);
    var dueDate := ParseIso(dueText);
    if dueDate.None? {
      return Rejected(BadDate(dueText));
    }
    var task := Construct(Arguments(title, description, status, dueDate.value));
    if task.Failure? {
      return Rejected(Invalid(task.error));
    }
    var r := db.InsertTask(task.value, rejected);
    return Submitted(r);
  }
}

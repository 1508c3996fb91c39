# Task manager core, modelled in Dafny

This project models the verifiable core of a small console task manager
written in Python over MySQL. A task has a title, a description, a status and
a due date. Tasks are validated when the `Task` object is built, inserted
through a `DatabaseManager`, exported to JSON-ready records and imported back
from a parsed JSON array.

Modules, one per concern of the source:

- `Wrappers` (`wrappers.dfy`): `Option` and `Result`.
- `Dates` (`dates.dfy`): Gregorian dates in Python's year range 1..9999 with leap-year-aware
  validity, and their ISO 8601 extended calendar-date text `YYYY-MM-DD` (the `full-date`
  production of section 5.6 of RFC 3339). That text is what `date.isoformat` writes and
  `date.fromisoformat` reads. Formatting and parsing are proved mutually inverse.
- `TaskSchema` (`task_schema.dfy`): the `Task` value object of `app/schemas/task.py`.
  `Construct` takes the keyword arguments as a map from field name to value and returns the
  task or the list of field errors.
- `Database` (`database.dfy`): `DatabaseManager` of `app/db/database.py` as a class. Its
  connection is absent, open or closed. The MySQL `tasks` table is abstracted to an optional
  `Table`: the rows in insertion order plus the AUTO_INCREMENT counter. The pure functions
  `Insert` and `CreateTable` specify the methods `InsertTask` and `CreateTasksTable`.
- `TaskManager` (`task_manager.dfy`): the operations of `app/main.py`. It holds the connection
  guard, the export loop, the import loop with its count, the task built by `add_new_task`,
  and the export-then-import round trip.

Environment inputs are parameters:

- whether the server accepts a connection;
- whether it reports an error on `CREATE TABLE`;
- whether it refuses a given write (`rejects(i)` for the i-th imported record);
- the rows `get_all_tasks()` returned;
- what reading `tasks.json` produced;
- the console answers.

Quirks of the code that the model keeps:

- An omitted `status` takes the default `"pending"`. The status validator never sees it, so a
  task can hold a status outside the three allowed ones. `DefaultStatusBreaksRoundTrip` shows
  the consequence: such a task, once exported, is refused on the next import.
- The import count is incremented for every record that passed validation. That includes
  records whose `insert_task` returned `None`; see `ImportCountsUnwrittenInserts`.
- `create_tasks_table` without a connection returns quietly. It does not fail.
- `close` does not reset the connection to `None`. Afterwards `insert_task` and
  `create_tasks_table` pass their `None` check, and `cursor()` raises outside their `try`
  (`Raised`).

## Model

| member | source | states |
|---|---|---|
| `Dates.IsValid` | app/schemas/task.py:13 | the range check of `date(year, month, day)`: a 31st day only in the seven long months, and a February day past the 28th only as the 29th of a leap year |
| `Dates.DaysInMonth` | app/schemas/task.py:13 | February has 29 days in leap years and 28 otherwise; April, June, September and November have 30; the other seven months have 31 |
| `Dates.IsoText` | app/main.py:68 | the text of a year, month and day is ten characters: digits with `-` at positions 4 and 7 |
| `Dates.FormatIso` | app/main.py:68 | `isoformat` text has that same ten-character shape |
| `Dates.ParseIso` | app/main.py:140 | `fromisoformat` accepts only well-shaped text, and the date it yields is the one the digit groups denote |
| `Dates.ParseFormatRoundTrip` | app/main.py:68 | parsing the ISO text of any date gives back that date |
| `Dates.FormatParseRoundTrip` | app/main.py:140 | every accepted text is exactly the ISO text of the date it parses to |
| `Dates.ParseIsoAcceptsExactlyFormatted` | app/main.py:140 | a text is accepted iff it is the ISO text of some date |
| `Dates.ParseIsoOfFields` | app/main.py:140 | the text built from a year, month and day parses iff that triple is a real date, and then to that triple |
| `Dates.LeapDay` | app/schemas/task.py:13 | February 29th is a valid date iff the year is a leap year; February 30th never is |
| `Dates.RejectsFebruaryThirtieth` | app/schemas/task.py:13 | the text `2024-02-30` is rejected |
| `Dates.LeapDayText` | app/schemas/task.py:13 | the text `2024-02-29` is accepted as that date, and `2023-02-29` is rejected |
| `Dates.RejectsThirteenthMonth` | app/schemas/task.py:13 | the text `2024-13-01` is rejected |
| `Dates.DigitsValueOfPadded` | app/main.py:68 | reading back the zero-padded digits of a number that fits the width gives the number |
| `Dates.PaddedOfDigitsValue` | app/main.py:140 | a digit string is the zero-padded rendering of the number it denotes |
| `TaskSchema.ValidateStatus` | app/schemas/task.py:17-26 | a status passes iff it is one of "pendiente", "en progreso", "completada", and is then returned unchanged; otherwise the error names the value |
| `TaskSchema.Construct` | app/schemas/task.py:4-13 | on success every field equals its argument, the title is non-empty, a given status is allowed, an omitted one is "pending", and the due date is the given date or the date its text parses to; a failure reports at least one error |
| `TaskSchema.ConstructSucceedsIffAcceptable` | app/schemas/task.py:10-26 | construction succeeds exactly when the four field rules hold on the raw arguments |
| `TaskSchema.ConstructFromFields` | app/main.py:142 | with all four fields given, construction succeeds iff the title is non-empty and the status is allowed, and then keeps every field exactly |
| `TaskSchema.EmptyTitleRejected` | app/schemas/task.py:10 | an empty title is always a validation error |
| `TaskSchema.BadStatusRejected` | app/schemas/task.py:23-25 | an explicit status outside the three is always a validation error naming it |
| `TaskSchema.RequiredFields` | app/schemas/task.py:11-13 | a missing description or due date is an error naming that field; an empty description is accepted |
| `TaskSchema.DefaultStatusBypassesValidator` | app/schemas/task.py:12-18 | omitting the status yields "pending" without error, though "pending" given explicitly is refused |
| `TaskSchema.ImpossibleDueDateRejected` | app/schemas/task.py:13 | due-date text `2024-02-30` makes construction fail with an invalid-date error |
| `TaskSchema.ConstructIgnoresOtherKeys` | app/main.py:109 | keys other than the four fields (an exported `id`) do not change the outcome |
| `Database.Appended` | app/db/database.py:86-92 | one row is appended under the counter's value, earlier rows are kept, and the key discipline is preserved |
| `Database.Insert` | app/db/database.py:73-94 | no connection: `None` and nothing written; closed connection: an exception and nothing written, and an exception only then; open connection with the table missing or the write refused: `None` and nothing written; a row is inserted iff open, table present and write accepted, and then exactly one row with the task's four fields is appended under a key larger than every earlier key, which is returned |
| `Database.CreateTable` | app/db/database.py:46-71 | nothing changes without a connection or on a server error; a closed connection raises; an existing table is left as it is; otherwise an empty table appears |
| `Database.CreateTableIdempotent` | app/db/database.py:57-58 | creating the table twice is the same as creating it once |
| `Database.DatabaseManager.constructor` | app/db/database.py:12-17 | the four settings are stored and there is no connection |
| `Database.DatabaseManager.Connect` | app/db/database.py:19-36 | the connection is open after success and `None` after a failure |
| `Database.DatabaseManager.Close` | app/db/database.py:38-44 | only an open connection is affected, and it becomes closed |
| `Database.DatabaseManager.CreateTasksTable` | app/db/database.py:46-71 | the new table and the escape of an exception are those of `CreateTable`; the key discipline is kept |
| `Database.DatabaseManager.InsertTask` | app/db/database.py:73-94 | the result and the new table are those of `Insert`; the key discipline is kept |
| `TaskManager.CheckDbConnectionStatus` | app/main.py:35-42 | true exactly when a connection is present and connected |
| `TaskManager.Serialized` | app/main.py:66-68 | the record keeps its keys and every value except a date-valued `due_date`, which becomes text |
| `TaskManager.ExportedDueDateRoundTrip` | app/main.py:68 | the exported `due_date` is the ISO text of the date and parses back to it |
| `TaskManager.ExportTasks` | app/main.py:53-76 | not connected or no rows: no output; otherwise exactly one serialised record per row, in row order; the fetched rows themselves are left as they are |
| `TaskManager.Constructed` | app/main.py:109 | `Task(**task_data)` yields a task exactly for an object whose fields are acceptable, and that task is the one `Construct` builds; a non-object element raises and yields nothing |
| `TaskManager.Accepted` | app/main.py:106-115 | at most one accepted task per record |
| `TaskManager.ImportRun` | app/main.py:105-116 | the count equals the number of records that pass construction, so it never exceeds the number of records; the table exists afterwards iff it existed before |
| `TaskManager.ImportRunSnoc` | app/main.py:106-111 | one more record extends the run by exactly one loop step |
| `TaskManager.ImportKeepsRows` | app/main.py:106-111 | import keeps the old rows in front, adds at most one row per counted record, and keeps the key discipline |
| `TaskManager.ImportOne` | app/main.py:107-115 | one record: the table and the count increment are those of one loop step |
| `TaskManager.AppendAll` | app/db/database.py:86-92 | appending tasks in turn keeps earlier rows and adds one row per task, in order, under consecutive keys |
| `TaskManager.AcceptedConcat` | app/main.py:106-115 | the tasks accepted from two consecutive parts of a document are those of each part, in order |
| `TaskManager.SkipsInvalidRecord` | app/main.py:112-115 | a record that fails construction is skipped and the records after it are still processed |
| `TaskManager.ImportAppendsAccepted` | app/main.py:106-111 | with the table present and no write refused, the accepted tasks are appended in file order |
| `TaskManager.ImportCountsUnwrittenInserts` | app/main.py:110-111 | without a table nothing is written, yet every valid record is counted |
| `TaskManager.ImportRecords` | app/main.py:105-115 | on an open connection, the table and the count after the loop are those of `ImportRun` over the records |
| `TaskManager.ImportTasks` | app/main.py:78-116 | no connection, a missing file, a read or decode error, or an empty array: nothing inserted; otherwise the table and count are those of `ImportRun` |
| `TaskManager.TasksOfRows` | app/main.py:64-69 | one task per row, in order, with the row's four fields |
| `TaskManager.RowRoundTrip` | app/main.py:64-69 | an exported row is reconstructed as its own task iff its title and status pass validation |
| `TaskManager.ExportThenAccept` | app/main.py:64-69 | the exported records of valid rows are all accepted, giving back the rows' tasks in order |
| `TaskManager.ExportImportRoundTrip` | app/main.py:53-116 | importing an export of valid rows appends exactly the rows' tasks, in order, and counts one per row |
| `TaskManager.RoundTripRows` | app/db/database.py:86-92 | that table keeps the old rows, then holds one row per exported row with equal title, description, status and due date under consecutive keys from the old counter |
| `TaskManager.ImportStoresDefaultStatus` | app/schemas/task.py:12 | a valid record without a status is imported as one new row whose status is "pending", and counted |
| `TaskManager.DefaultStatusBreaksRoundTrip` | app/schemas/task.py:12 | a record imported without a status is stored as "pending", and that row is refused when re-imported |
| `TaskManager.StatusOrDefault` | app/main.py:135 | the status answer is never empty: an empty answer becomes "pendiente", any other answer is kept as typed |
| `TaskManager.NewTask` | app/main.py:135-142 | an unparsable date fails first; otherwise the task is built iff the title is non-empty and the status is allowed, where an empty status answer stands for "pendiente"; the task keeps the answers and the parsed date |
| `TaskManager.AddNewTask` | app/main.py:124-147 | nothing inserted without a connection, on a bad date or on a validation failure; otherwise the insert happens as `Insert` says |

## Left out

- `get_all_tasks` and `get_upcoming_tasks` are not part of this model. Their bodies are not in
  the source. Export takes the fetched rows as a parameter. `RowRecord` assumes the
  dictionary shape that app/main.py:65-68,166-170 reads: column-name keys, with `due_date` a date.
- The console: `display_menu`, `main`, `view_all_tasks`, `view_upcoming_tasks`, prompts and
  printed messages. This is I/O only; diagnostics are not modelled.
- `connect_and_setup_db` is process start-up: it connects, exits the process on failure, then
  creates the table. The model has `Connect` and `CreateTasksTable`, but no process exit.
- File and JSON text handling: opening, writing and loading `tasks.json`. An `IOError` during
  the export write only prints a message. The parsed document is modelled as an array;
  a top-level JSON value that is not an array is not modelled.
- The MySQL engine is reduced to the table, the counter and the "write refused" parameter. Not
  modelled: connections dropped by the server; AUTO_INCREMENT gaps after failed writes; the
  `VARCHAR(255)` and `VARCHAR(50)` widths, whose effect depends on the SQL mode; the `DATE`
  column's own range.
- Pydantic coercions are not modelled. A non-string title, description or status is a type
  error here; Pydantic 1 would turn a number into text. Numbers given as due dates (timestamps)
  are errors here, and so are the looser `YYYY-M-D` texts Pydantic 1 accepts. Field values that
  are JSON floats, arrays or nested objects (`"due_date": 1.7e9`, `"tags": ["x"]`) cannot be
  written in the model at all; under any other key Pydantic ignores them, and under the
  four field names it rejects or coerces them.
- `date.fromisoformat` reads exactly ten characters `YYYY-MM-DD` of ASCII digits. The sign,
  space and underscore leniency of older Python versions is not modelled. The wider formats
  of Python 3.11 and later are not modelled either.
- The hard-coded connection settings (app/main.py:9-14) are not modelled; the manager only
  stores them.
- `AsJsonArray`: the model assumes that writing the exported records with `json.dump`
  (app/main.py:73) and reading them back with `json.load` (app/main.py:92) gives the same
  records in the same order. This holds because the exported values are strings and
  integers, which the `json` module reads back unchanged. The round-trip lemmas rest on it.
- A `tasks.json` that is not valid UTF-8 is not modelled. It is opened with
  `encoding='utf-8'` (app/main.py:91), so reading it raises `UnicodeDecodeError`. That is
  neither `json.JSONDecodeError` nor `IOError`, so it escapes `import_tasks_from_json`
  (app/main.py:93-98) and ends the menu loop. `ImportSource` has no outcome for it.
- The 32-bit limit of the `INT AUTO_INCREMENT` key (app/db/database.py:59) is not modelled.
  Writes fail once the key reaches 2147483647; here `Table.nextId` is an unbounded `nat`.

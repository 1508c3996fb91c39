/**
 * `DatabaseManager` of app/db/database.py, with the MySQL server reduced to
 * an abstract `tasks` table: a sequence of rows and its AUTO_INCREMENT
 * counter. The manager holds its connection settings, a connection that is
 * absent, open or closed, and (standing for the server it talks to) the
 * table, which is absent until `CREATE TABLE IF NOT EXISTS` runs.
 */
module Database {
  import opened Wrappers
  import opened Dates
  import opened TaskSchema

  /** One row of `tasks(id, title, description, status, due_date)`. */
  datatype Row = Row(id: nat, title: string, description: string, status: string, dueDate: CalendarDate)

  /** The table's rows in insertion order and the next AUTO_INCREMENT value. */
  datatype Table = Table(rows: seq<Row>, nextId: nat)

  /**
   * The AUTO_INCREMENT discipline: keys are positive, strictly increasing in
   * insertion order, and all below the counter.
   */
  ghost predicate WellFormed(t: Table) {
    && t.nextId >= 1
    && (forall i :: 0 <= i < |t.rows| ==> 1 <= t.rows[i].id < t.nextId)
    && (forall i, j :: 0 <= i < j < |t.rows| ==> t.rows[i].id < t.rows[j].id)
  }

  /** The table `CREATE TABLE` makes: no rows, counter at 1. */
  const EmptyTable: Table := Table([], 1)

  /** `self.connection`: `None`, a live connection, or a connection object that is no longer connected. */
  datatype Connection = NoConnection | Open | Closed

  /** What `insert_task` gives back: `lastrowid`, `None`, or an exception that escapes it. */
  datatype InsertResult = Inserted(id: nat) | NoId | Raised

  function RowOf(id: nat, task: Task): Row {
    Row(id, task.title, task.description, task.status, task.dueDate)
  }

  /** The table after one successful INSERT of `task`. */
  function Appended(t: Table, task: Task): (t': Table)
    ensures |t'.rows| == |t.rows| + 1 && t'.rows[..|t.rows|] == t.rows
    ensures t'.rows[|t.rows|] == RowOf(t.nextId, task)
    ensures WellFormed(t) ==> WellFormed(t')
  {
    Table(t.rows + [RowOf(t.nextId, task)], t.nextId + 1)
  }

  /**
   * `insert_task(task)`, given whether the server rejects the write: without
   * a connection nothing is written and `None` comes back; on a closed
   * connection `cursor()` raises before the `try`; otherwise a missing table
   * or a rejected write is caught and falls through to `None`, and a
   * successful write appends one row under the next key and returns it.
   */
  function Insert(conn: Connection, t: Option<Table>, task: Task, rejected: bool): (res: (InsertResult, Option<Table>))
    ensures conn == NoConnection ==> res == (NoId, t)
    ensures conn == Closed ==> res == (Raised, t)
    ensures res.0.Raised? <==> conn == Closed
    ensures conn == Open && !res.0.Inserted? ==> res.0 == NoId
    ensures res.0.Inserted? <==> conn == Open && t.Some? && !rejected
    ensures !res.0.Inserted? ==> res.1 == t
    ensures res.0.Inserted? ==>
              && res.0.id == t.value.nextId
              && res.1 == Some(Table(t.value.rows + [RowOf(res.0.id, task)], t.value.nextId + 1))
    ensures res.0.Inserted? && WellFormed(t.value) ==>
              forall i :: 0 <= i < |t.value.rows| ==> t.value.rows[i].id < res.0.id
    ensures t.Some? && WellFormed(t.value) ==> res.1.Some? && WellFormed(res.1.value)
  {
    match conn
    case NoConnection => (NoId, t)
    case Closed => (Raised, t)
    case Open =>
      if t.None? || rejected then (NoId, t)
      else (Inserted(t.value.nextId), Some(Appended(t.value, task)))
  }

  /**
   * `create_tasks_table()`, given whether the server reports an error: it
   * returns early without a connection, raises from `cursor()` on a closed
   * one, and otherwise creates the table only if it does not exist. The
   * boolean says whether an exception escaped.
   */
  function CreateTable(conn: Connection, t: Option<Table>, serverError: bool): (res: (bool, Option<Table>))
    ensures res.0 <==> conn == Closed
    ensures conn != Open || serverError ==> res.1 == t
    ensures t.Some? ==> res.1 == t
    ensures conn == Open && !serverError ==> res.1.Some?
    ensures t.None? && res.1.Some? ==> res.1.value == EmptyTable
  {
    match conn
    case NoConnection => (false, t)
    case Closed => (true, t)
    case Open =>
      if serverError || t.Some? then (false, t) else (false, Some(EmptyTable))
  }

  /** `CREATE TABLE IF NOT EXISTS` is idempotent: running it twice is running it once. */
  lemma CreateTableIdempotent(conn: Connection, t: Option<Table>)
    ensures CreateTable(conn, CreateTable(conn, t, false).1, false) == CreateTable(conn, t, false)
  {
  }

  class DatabaseManager {
    const host: string
    const user: string
    const password: string
    const database: string
    var connection: Connection
    /** The server's `tasks` table, `None` while it does not exist. */
    var table: Option<Table>

    ghost predicate Valid()
      reads this
    {
      table.Some? ==> WellFormed(table.value)
    }

    /** `__init__`: keeps the four settings and starts without a connection; `server` is the table as the server holds it. */
    constructor (host: string, user: string, password: string, database: string, server: Option<Table>)
      requires server.Some? ==> WellFormed(server.value)
      ensures Valid()
      ensures this.host == host && this.user == user && this.password == password && this.database == database
      ensures connection == NoConnection && table == server
    {
      this.host := host;
      this.user := user;
      this.password := password;
      this.database := database;
      connection := NoConnection;
      table := server;
    }

    /** `connect()`: on success the connection is open; on an error it is reset to `None`. */
    method Connect(serverAccepts: bool)
      modifies this`connection
      ensures connection == if serverAccepts then Open else NoConnection
    {
      if serverAccepts {
        connection := Open;
      } else {
        connection := NoConnection;
      }
    }

    /** `close()`: acts only on a present and connected connection, which it leaves closed but not `None`. */
    method Close()
      modifies this`connection
      ensures old(connection) == Open ==> connection == Closed
      ensures old(connection) != Open ==> connection == old(connection)
    {
      if connection == Open {
        connection := Closed;
      }
    }

    /** `create_tasks_table()`; `raised` says whether an exception escaped it. */
    method CreateTasksTable(serverError: bool) returns (raised: bool)
      requires Valid()
      modifies this`table
      ensures Valid()
      ensures (raised, table) == CreateTable(connection, old(table), serverError)
    {
      if connection == NoConnection {
        return false;
      }
      if connection == Closed {
        return true;
      }
      raised := false;
      if !serverError && table.None? {
        table := Some(EmptyTable);
      }
    }

    /** `insert_task(task)`; `rejected` says whether the server refuses the write. */
    method InsertTask(task: Task, rejected: bool) returns (r: InsertResult)
      requires Valid()
      modifies this`table
      ensures Valid()
      ensures (r, table) == Insert(connection, old(table), task, rejected)
    {
      if connection == NoConnection {
        return NoId;
      }
      if connection == Closed {
        return Raised;
      }
      if table.None? || rejected {
        return NoId;
      }
      r := Inserted(table.value.nextId);
      table := Some(Appended(table.value, task));
    }
  }
}

/**
  An abstract relational store: the part of SQLite that the migration engine relies on.

  A store maps each object name to a table (its column list and its rows) or a view
  (its column list and the names of the objects it reads). A row maps column names to
  values; a column missing from a row reads as NULL. Each SQL statement the migration
  issues is a `Stmt`, and `Exec` says what it does to the store and when it fails.
 */
module Store {

  /** A stored value. `Other` stands for blobs and floating-point values, carried opaquely. */
  datatype Value = Null | Int(i: int) | Text(s: string) | Other(id: nat)

  type Row = map<string, Value>

  datatype Option<T> = None | Some(value: T)

  /** The outcome of a query: its rows, or the SQL error it raised. */
  datatype Result<T> = Ok(value: T) | Failure

  /** Reading a column of a row, as a cursor does: a missing column reads as NULL. */
  function Get(r: Row, column: string): Value {
    if column in r then r[column] else Null
  }

  datatype Obj =
    | Table(columns: seq<string>, rows: seq<Row>)
    | View(columns: seq<string>, sources: set<string>)

  type Db = map<string, Obj>

  predicate IsTable(db: Db, name: string) {
    name in db && db[name].Table?
  }

  predicate IsView(db: Db, name: string) {
    name in db && db[name].View?
  }

  predicate HasColumn(db: Db, table: string, column: string) {
    IsTable(db, table) && column in db[table].columns
  }

  /** No column name occurs twice. */
  predicate DistinctColumns(columns: seq<string>) {
    forall i, j :: 0 <= i < j < |columns| ==> columns[i] != columns[j]
  }

  /**
    A row predicate: the WHERE clauses the migration uses, plus the key conflict test
    of an INSERT OR REPLACE.
   */
  datatype Filter =
    | Everything                                          // no WHERE clause
    | ColumnIs(column: string, value: Value)              // column = 'value'
    | ColumnIn(column: string, values: set<Value>)        // column IN ('a', 'b', ...)
    | ColumnIsColumn(column: string, other: string)       // column = other (an identifier)
    | KeyIs(key: seq<string>, keyValues: seq<Value>)       // the row has this unique key

  /** The columns a filter names; a statement naming a column its table lacks fails. */
  function Refs(f: Filter): set<string> {
    match f
    case Everything => {}
    case ColumnIs(c, _) => {c}
    case ColumnIn(c, _) => {c}
    case ColumnIsColumn(c, d) => {c, d}
    case KeyIs(k, _) => set c | c in k
  }

  function KeyOf(r: Row, key: seq<string>): seq<Value> {
    seq(|key|, i requires 0 <= i < |key| => Get(r, key[i]))
  }

  /** SQL comparison: a comparison with NULL is never true. */
  predicate Matches(r: Row, f: Filter) {
    match f
    case Everything => true
    case ColumnIs(c, v) => Get(r, c) != Null && Get(r, c) == v
    case ColumnIn(c, vs) => Get(r, c) != Null && Get(r, c) in vs
    case ColumnIsColumn(c, d) => Get(r, c) != Null && Get(r, c) == Get(r, d)
    case KeyIs(k, vs) => KeyOf(r, k) == vs
  }

  /**
    The rows whose match against `f` is `wanted`, in their original order: a SELECT
    keeps the matching rows (`wanted`), a DELETE keeps the others (`!wanted`). Every
    kept row keeps its multiplicity, every other row is gone.
   */
  function Filtered(rows: seq<Row>, f: Filter, wanted: bool): (kept: seq<Row>)
    ensures |kept| <= |rows|
    ensures forall r {:trigger multiset(kept)[r]} :: multiset(kept)[r] == if Matches(r, f) == wanted then multiset(rows)[r] else 0
    decreases |rows|
  {
    if rows == [] then []
    else
      var rest := Filtered(rows[1..], f, wanted);
      assert rows == [rows[0]] + rows[1..];
      if Matches(rows[0], f) == wanted then [rows[0]] + rest else rest
  }

  lemma FilteredMembers(rows: seq<Row>, f: Filter, wanted: bool)
    ensures forall r :: r in Filtered(rows, f, wanted) <==> r in rows && Matches(r, f) == wanted
  {
    var kept := Filtered(rows, f, wanted);
    forall r ensures r in kept <==> r in rows && Matches(r, f) == wanted {
      assert r in kept <==> multiset(kept)[r] > 0;
      assert r in rows <==> multiset(rows)[r] > 0;
    }
  }

  /**
    Filtering keeps order: filtering two runs of rows one after the other keeps the
    rows of the first run, in their order, before those of the second.
   */
  lemma {:induction false} FilteredAppend(a: seq<Row>, b: seq<Row>, f: Filter, wanted: bool)
    ensures Filtered(a + b, f, wanted) == Filtered(a, f, wanted) + Filtered(b, f, wanted)
    decreases |a|
  {
    if a == [] {
      assert a + b == b;
    } else {
      FilteredAppend(a[1..], b, f, wanted);
      assert (a + b)[1..] == a[1..] + b;
    }
  }

  /** A single row is kept exactly when its match against `f` is `wanted`. */
  lemma FilteredSingle(r: Row, f: Filter, wanted: bool)
    ensures Filtered([r], f, wanted) == if Matches(r, f) == wanted then [r] else []
  {
    assert [r][1..] == [];
  }

  /** When no row matches `f`, keeping the non-matching rows keeps all of them, in order. */
  lemma {:induction false} FilteredNoneMatch(rows: seq<Row>, f: Filter)
    requires forall r :: r in rows ==> !Matches(r, f)
    ensures Filtered(rows, f, false) == rows
    decreases |rows|
  {
    if rows != [] {
      FilteredNoneMatch(rows[1..], f);
    }
  }

  /** A row restricted to a column list (the row an INSERT ... SELECT with that list copies). */
  function Project(r: Row, columns: seq<string>): Row {
    map c | c in columns :: Get(r, c)
  }

  function ProjectAll(rows: seq<Row>, columns: seq<string>): seq<Row> {
    seq(|rows|, i requires 0 <= i < |rows| => Project(rows[i], columns))
  }

  /** Every row gets `value` in `column` (ALTER TABLE ... ADD COLUMN ... DEFAULT value). */
  function SetAll(rows: seq<Row>, column: string, value: Value): seq<Row> {
    seq(|rows|, i requires 0 <= i < |rows| => rows[i][column := value])
  }

  /** Every row whose `column` is NULL gets `value` (UPDATE ... SET column = value WHERE column ISNULL). */
  function FillNull(rows: seq<Row>, column: string, value: Value): seq<Row> {
    seq(|rows|, i requires 0 <= i < |rows| =>
      if Get(rows[i], column) == Null then rows[i][column := value] else rows[i])
  }

  /** INSERT OR REPLACE of one row: rows with the same unique key are deleted, then the row is added. */
  function Put(rows: seq<Row>, r: Row, key: seq<string>): seq<Row> {
    Filtered(rows, KeyIs(key, KeyOf(r, key)), false) + [r]
  }

  /** INSERT OR REPLACE of each of `inserts`, in order. */
  function ReplaceRows(rows: seq<Row>, inserts: seq<Row>, key: seq<string>): seq<Row>
    decreases |inserts|
  {
    if inserts == [] then rows
    else Put(ReplaceRows(rows, inserts[..|inserts| - 1], key), inserts[|inserts| - 1], key)
  }

  /** The SQL statements the migration issues, one constructor per kind. */
  datatype Stmt =
    | CreateTable(name: string, columns: seq<string>)
    | CreateView(name: string, columns: seq<string>, sources: set<string>)
    | DropTable(name: string)
    | DropView(name: string)
    | RenameTable(name: string, newName: string)
    | AddColumn(table: string, column: string, initial: Value)
    | SetWhereNull(table: string, column: string, value: Value)
    | DeleteWhere(table: string, filter: Filter)
    | CopyColumns(table: string, source: string, columns: seq<string>)  // INSERT INTO table (cols) SELECT cols FROM source
    | Insert(table: string, row: Row)                                  // SQLiteDatabase.insert
    | Replace(table: string, row: Row, key: seq<string>)               // SQLiteDatabase.replaceOrThrow

  /** The store after some statements, and whether all of them succeeded. */
  datatype Outcome = Outcome(db: Db, ok: bool)

  function Done(db: Db): Outcome { Outcome(db, true) }

  function Fail(db: Db): Outcome { Outcome(db, false) }

  /**
    Executes one statement. A statement that fails raises an SQL error and changes
    nothing (SQLite makes each statement atomic). `Insert` never fails: Android's
    `insert` reports an error by returning -1, which the migration ignores.
   */
  function Exec(db: Db, s: Stmt): (o: Outcome)
    ensures !o.ok ==> o.db == db
  {
    match s
    case CreateTable(n, cols) => ExecCreateTable(db, n, cols)
    case CreateView(n, cols, src) => ExecCreateView(db, n, cols, src)
    case DropTable(n) => ExecDropTable(db, n)
    case DropView(n) => ExecDropView(db, n)
    case RenameTable(n, m) => ExecRenameTable(db, n, m)
    case AddColumn(t, c, v) => ExecAddColumn(db, t, c, v)
    case SetWhereNull(t, c, v) => ExecSetWhereNull(db, t, c, v)
    case DeleteWhere(t, f) => ExecDeleteWhere(db, t, f)
    case CopyColumns(t, src, cols) => ExecCopyColumns(db, t, src, cols)
    case Insert(t, r) => ExecInsert(db, t, r)
    case Replace(t, r, k) => ExecReplace(db, t, r, k)
  }

  function ExecCreateTable(db: Db, n: string, cols: seq<string>): Outcome {
    if n in db then Fail(db) else Done(db[n := Table(cols, [])])
  }

  function ExecCreateView(db: Db, n: string, cols: seq<string>, src: set<string>): Outcome {
    if n in db then Fail(db) else Done(db[n := View(cols, src)])
  }

  function ExecDropTable(db: Db, n: string): Outcome {
    if IsTable(db, n) then Done(db - {n}) else Fail(db)
  }

  function ExecDropView(db: Db, n: string): Outcome {
    if IsView(db, n) then Done(db - {n}) else Fail(db)
  }

  /** ALTER TABLE n RENAME TO m */
  function ExecRenameTable(db: Db, n: string, m: string): Outcome {
    if IsTable(db, n) && m !in db then Done((db - {n})[m := db[n]]) else Fail(db)
  }

  /** ALTER TABLE t ADD COLUMN c DEFAULT v: fails when the column already exists. */
  function ExecAddColumn(db: Db, t: string, c: string, v: Value): Outcome {
    if IsTable(db, t) && c !in db[t].columns
    then Done(db[t := Table(db[t].columns + [c], SetAll(db[t].rows, c, v))])
    else Fail(db)
  }

  function ExecSetWhereNull(db: Db, t: string, c: string, v: Value): Outcome {
    if HasColumn(db, t, c)
    then Done(db[t := Table(db[t].columns, FillNull(db[t].rows, c, v))])
    else Fail(db)
  }

  function ExecDeleteWhere(db: Db, t: string, f: Filter): Outcome {
    if IsTable(db, t) && Refs(f) <= (set c | c in db[t].columns)
    then Done(db[t := Table(db[t].columns, Filtered(db[t].rows, f, false))])
    else Fail(db)
  }

  function ExecCopyColumns(db: Db, t: string, src: string, cols: seq<string>): Outcome {
    if IsTable(db, t) && IsTable(db, src)
       && (forall c :: c in cols ==> c in db[t].columns && c in db[src].columns)
    then Done(db[t := Table(db[t].columns, db[t].rows + ProjectAll(db[src].rows, cols))])
    else Fail(db)
  }

  function ExecInsert(db: Db, t: string, r: Row): Outcome {
    if IsTable(db, t) then Done(db[t := Table(db[t].columns, db[t].rows + [r])]) else Done(db)
  }

  function ExecReplace(db: Db, t: string, r: Row, k: seq<string>): Outcome {
    if IsTable(db, t) then Done(db[t := Table(db[t].columns, Put(db[t].rows, r, k))]) else Fail(db)
  }

  /** Runs `s` after `o`, unless an earlier statement already failed (its error aborts the rest). */
  function Then(o: Outcome, s: Stmt): Outcome {
    if o.ok then Exec(o.db, s) else o
  }

  /** Runs `ss` in order after `o`, stopping at the first failure. */
  function ThenAll(o: Outcome, ss: seq<Stmt>): Outcome
    decreases |ss|
  {
    if ss == [] then o else Then(ThenAll(o, ss[..|ss| - 1]), ss[|ss| - 1])
  }

  /**
    A SELECT: the rows of table or view `name` that match `f`, restricted to
    `projection` when one is given. A view's rows come from `viewRows`, since the
    views' own SQL is not part of this model. Naming a missing object or column fails.
   */
  function Select(db: Db, viewRows: (string, Db) -> seq<Row>, name: string,
                  projection: Option<seq<string>>, f: Filter): Result<seq<Row>>
  {
    if name !in db then Failure
    else
      var cols := db[name].columns;
      var rows := if db[name].Table? then db[name].rows else viewRows(name, db);
      if !(Refs(f) <= (set c | c in cols)) then Failure
      else match projection
        case None => Ok(Filtered(rows, f, true))
        case Some(p) =>
          if forall c :: c in p ==> c in cols then Ok(ProjectAll(Filtered(rows, f, true), p)) else Failure
  }

  /** `db.insert` of each of `rows` into `table`, in order (a loop of single-row inserts). */
  function InsertEach(o: Outcome, table: string, rows: seq<Row>): Outcome
    decreases |rows|
  {
    if rows == [] then o else Then(InsertEach(o, table, rows[..|rows| - 1]), Insert(table, rows[|rows| - 1]))
  }

  /** `db.replaceOrThrow` of each of `rows` into `table`, in order. */
  function ReplaceEach(o: Outcome, table: string, rows: seq<Row>, key: seq<string>): Outcome
    decreases |rows|
  {
    if rows == [] then o else Then(ReplaceEach(o, table, rows[..|rows| - 1], key), Replace(table, rows[|rows| - 1], key))
  }
}

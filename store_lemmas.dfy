/**
  Properties of the abstract store: how statement runs compose, what a run of inserts
  or replaces leaves in a table, and how INSERT OR REPLACE collapses rows by key.
 */
module StoreLemmas {
  import opened Store

  /** Once a statement has failed, the rest of the run is skipped. */
  lemma {:induction false} ThenAllStops(o: Outcome, ss: seq<Stmt>)
    ensures !o.ok ==> ThenAll(o, ss) == o
    decreases |ss|
  {
    if ss != [] {
      ThenAllStops(o, ss[..|ss| - 1]);
    }
  }

  /** Running `a + b` is running `a`, then `b`. */
  lemma {:induction false} ThenAllSplit(o: Outcome, a: seq<Stmt>, b: seq<Stmt>)
    ensures ThenAll(o, a + b) == ThenAll(ThenAll(o, a), b)
    decreases |b|
  {
    if b == [] {
      assert a + b == a;
    } else {
      assert (a + b)[..|a + b| - 1] == a + b[..|b| - 1];
      ThenAllSplit(o, a, b[..|b| - 1]);
    }
  }

  /** Once a statement has failed, the remaining inserts are skipped. */
  lemma {:induction false} InsertEachStops(o: Outcome, t: string, rows: seq<Row>)
    ensures !o.ok ==> InsertEach(o, t, rows) == o
    decreases |rows|
  {
    if rows != [] {
      InsertEachStops(o, t, rows[..|rows| - 1]);
    }
  }

  /** Once a statement has failed, the remaining replaces are skipped. */
  lemma {:induction false} ReplaceEachStops(o: Outcome, t: string, rows: seq<Row>, key: seq<string>)
    ensures !o.ok ==> ReplaceEach(o, t, rows, key) == o
    decreases |rows|
  {
    if rows != [] {
      ReplaceEachStops(o, t, rows[..|rows| - 1], key);
    }
  }

  /** A SELECT without a WHERE clause yields every row, in order. */
  lemma {:induction false} SelectAllKeeps(rows: seq<Row>)
    ensures Filtered(rows, Everything, true) == rows
    decreases |rows|
  {
    if rows != [] {
      SelectAllKeeps(rows[1..]);
    }
  }

  lemma InsertLast(db: Db, t: string, rows: seq<Row>)
    requires IsTable(db, t) && rows != []
    ensures Then(Done(db[t := Table(db[t].columns, db[t].rows + rows[..|rows| - 1])]), Insert(t, rows[|rows| - 1]))
         == Done(db[t := Table(db[t].columns, db[t].rows + rows)])
  {
    assert db[t].rows + rows[..|rows| - 1] + [rows[|rows| - 1]] == db[t].rows + rows;
  }

  /**
    Inserting `rows` one by one into an existing table appends them all, in order,
    and touches nothing else.
   */
  lemma {:induction false} InsertEachAppends(db: Db, t: string, rows: seq<Row>)
    requires IsTable(db, t)
    ensures InsertEach(Done(db), t, rows) == Done(db[t := Table(db[t].columns, db[t].rows + rows)])
    decreases |rows|
  {
    if rows == [] {
      assert db[t].rows + rows == db[t].rows;
      assert db[t := Table(db[t].columns, db[t].rows)] == db;
    } else {
      InsertEachAppends(db, t, rows[..|rows| - 1]);
      InsertLast(db, t, rows);
    }
  }

  /** Creating a table and inserting `rows` one by one leaves exactly `rows` in it, in order. */
  lemma CreateAndInsert(db: Db, t: string, columns: seq<string>, rows: seq<Row>)
    requires t !in db
    ensures InsertEach(Exec(db, CreateTable(t, columns)), t, rows) == Done(db[t := Table(columns, rows)])
  {
    var d1 := db[t := Table(columns, [])];
    assert Exec(db, CreateTable(t, columns)) == Done(d1);
    InsertEachAppends(d1, t, rows);
    assert [] + rows == rows;
  }

  lemma ReplaceLast(db: Db, t: string, prev: seq<Row>, x: Row, key: seq<string>)
    requires IsTable(db, t)
    ensures Then(Done(db[t := Table(db[t].columns, prev)]), Replace(t, x, key))
         == Done(db[t := Table(db[t].columns, Put(prev, x, key))])
  {
  }

  /**
    `db.replaceOrThrow` of `rows` one by one into an existing table succeeds and
    leaves the table's rows as `ReplaceRows` says, touching nothing else.
   */
  lemma {:induction false} ReplaceEachPuts(db: Db, t: string, rows: seq<Row>, key: seq<string>)
    requires IsTable(db, t)
    ensures ReplaceEach(Done(db), t, rows, key)
         == Done(db[t := Table(db[t].columns, ReplaceRows(db[t].rows, rows, key))])
    decreases |rows|
  {
    if rows == [] {
      assert db[t := Table(db[t].columns, db[t].rows)] == db;
    } else {
      var n := |rows| - 1;
      ReplaceEachPuts(db, t, rows[..n], key);
      ReplaceLast(db, t, ReplaceRows(db[t].rows, rows[..n], key), rows[n], key);
    }
  }

  /** No two rows share a unique key, and no row occurs twice. */
  ghost predicate UniqueKeys(rows: seq<Row>, key: seq<string>) {
    && (forall r :: multiset(rows)[r] <= 1)
    && (forall r1, r2 :: r1 in rows && r2 in rows && KeyOf(r1, key) == KeyOf(r2, key) ==> r1 == r2)
  }

  /** Some later insert (position j > i) carries the same key as the insert at position i. */
  ghost predicate Superseded(inserts: seq<Row>, i: int, key: seq<string>)
    requires 0 <= i < |inserts|
  {
    exists j :: i < j < |inserts| && KeyOf(inserts[j], key) == KeyOf(inserts[i], key)
  }

  /** `r` was inserted at some position that no later insert with the same key overrides. */
  ghost predicate Live(inserts: seq<Row>, r: Row, key: seq<string>) {
    exists i :: 0 <= i < |inserts| && inserts[i] == r && !Superseded(inserts, i, key)
  }

  lemma PutMembers(rows: seq<Row>, x: Row, key: seq<string>)
    ensures forall r :: r in Put(rows, x, key) <==> r == x || (r in rows && KeyOf(r, key) != KeyOf(x, key))
  {
    FilteredMembers(rows, KeyIs(key, KeyOf(x, key)), false);
  }

  /** One INSERT OR REPLACE keeps keys unique. */
  lemma PutKeepsUnique(rows: seq<Row>, x: Row, key: seq<string>)
    requires UniqueKeys(rows, key)
    ensures UniqueKeys(Put(rows, x, key), key)
  {
    var kept := Filtered(rows, KeyIs(key, KeyOf(x, key)), false);
    var res := Put(rows, x, key);
    PutMembers(rows, x, key);
    assert res == kept + [x];
    assert multiset(kept)[x] == 0;
    forall r ensures multiset(res)[r] <= 1 {
      assert multiset(res)[r] == multiset(kept)[r] + multiset([x])[r];
    }
  }

  /** An insert still live in `init` whose key differs from `x`'s stays live once `x` is inserted. */
  lemma StaysLive(init: seq<Row>, x: Row, i: int, key: seq<string>)
    requires 0 <= i < |init|
    requires !Superseded(init, i, key) && KeyOf(init[i], key) != KeyOf(x, key)
    ensures !Superseded(init + [x], i, key)
  {
    var ins := init + [x];
    forall j | i < j < |ins| ensures KeyOf(ins[j], key) != KeyOf(ins[i], key) {
      if j < |init| {
        assert ins[j] == init[j];
      }
    }
  }

  /** An insert live after `x` was live before, and its key differs from `x`'s. */
  lemma WasLive(init: seq<Row>, x: Row, i: int, key: seq<string>)
    requires 0 <= i < |init|
    requires !Superseded(init + [x], i, key)
    ensures !Superseded(init, i, key) && KeyOf(init[i], key) != KeyOf(x, key)
  {
    var ins := init + [x];
    assert ins[|init|] == x && ins[i] == init[i];
    forall j | i < j < |init| ensures KeyOf(init[j], key) != KeyOf(init[i], key) {
      assert ins[j] == init[j];
    }
  }

  /** The membership half of `ReplaceRowsCollapses`, for one more insert at the end. */
  lemma CollapseStep(init: seq<Row>, x: Row, key: seq<string>)
    requires forall r :: r in ReplaceRows([], init, key) <==> Live(init, r, key)
    ensures forall r :: r in ReplaceRows([], init + [x], key) <==> Live(init + [x], r, key)
  {
    var ins := init + [x];
    var prev := ReplaceRows([], init, key);
    assert ins[..|ins| - 1] == init;
    assert ReplaceRows([], ins, key) == Put(prev, x, key);
    PutMembers(prev, x, key);
    forall r ensures r in Put(prev, x, key) <==> Live(ins, r, key) {
      if r in Put(prev, x, key) {
        if r == x {
          assert ins[|init|] == r && !Superseded(ins, |init|, key);
        } else {
          assert Live(init, r, key);
          var i :| 0 <= i < |init| && init[i] == r && !Superseded(init, i, key);
          StaysLive(init, x, i, key);
          assert ins[i] == r;
        }
      } else if Live(ins, r, key) {
        var i :| 0 <= i < |ins| && ins[i] == r && !Superseded(ins, i, key);
        if i < |init| {
          WasLive(init, x, i, key);
          assert init[i] == r;
          assert Live(init, r, key);
        } else {
          assert false;
        }
      }
    }
  }

  /** Replacing into an empty table leaves no two rows with the same key. */
  lemma {:induction false} ReplaceRowsUnique(inserts: seq<Row>, key: seq<string>)
    ensures UniqueKeys(ReplaceRows([], inserts, key), key)
    decreases |inserts|
  {
    if inserts != [] {
      var n := |inserts| - 1;
      ReplaceRowsUnique(inserts[..n], key);
      PutKeepsUnique(ReplaceRows([], inserts[..n], key), inserts[n], key);
    }
  }

  /**
    Replacing into an empty table collapses rows by key: a row is in the result
    exactly when it was inserted at a position that no later insert with the same
    key overrides.
   */
  lemma {:induction false} ReplaceRowsLive(inserts: seq<Row>, key: seq<string>)
    ensures forall r :: r in ReplaceRows([], inserts, key) <==> Live(inserts, r, key)
    decreases |inserts|
  {
    if inserts != [] {
      var n := |inserts| - 1;
      var init := inserts[..n];
      ReplaceRowsLive(init, key);
      CollapseStep(init, inserts[n], key);
      assert init + [inserts[n]] == inserts;
    }
  }

  /** No earlier row shares a key with the last one. */
  lemma LastKeyIsNew(init: seq<Row>, x: Row, key: seq<string>)
    requires forall i, j :: 0 <= i < j < |init + [x]| ==> KeyOf((init + [x])[i], key) != KeyOf((init + [x])[j], key)
    ensures forall r :: r in init ==> !Matches(r, KeyIs(key, KeyOf(x, key)))
  {
    var ins := init + [x];
    forall r | r in init ensures !Matches(r, KeyIs(key, KeyOf(x, key))) {
      var i :| 0 <= i < |init| && init[i] == r;
      assert ins[i] == r && ins[|init|] == x;
    }
  }

  /** When the inserted rows all carry distinct keys, replacing into an empty table loses none of them. */
  lemma {:induction false} ReplaceRowsDistinct(inserts: seq<Row>, key: seq<string>)
    requires forall i, j :: 0 <= i < j < |inserts| ==> KeyOf(inserts[i], key) != KeyOf(inserts[j], key)
    ensures ReplaceRows([], inserts, key) == inserts
    decreases |inserts|
  {
    if inserts != [] {
      var n := |inserts| - 1;
      var init := inserts[..n];
      assert init + [inserts[n]] == inserts;
      ReplaceRowsDistinct(init, key);
      LastKeyIsNew(init, inserts[n], key);
      FilteredNoneMatch(init, KeyIs(key, KeyOf(inserts[n], key)));
    }
  }

  /** A SELECT on a view yields the view's rows that match. */
  lemma SelectView(db: Db, viewRows: (string, Db) -> seq<Row>, name: string, f: Filter)
    requires IsView(db, name) && Refs(f) <= (set c | c in db[name].columns)
    ensures Select(db, viewRows, name, None, f) == Ok(Filtered(viewRows(name, db), f, true))
  {
  }

  /** A SELECT of some columns of a table yields the matching rows, projected onto those columns. */
  lemma SelectColumns(db: Db, viewRows: (string, Db) -> seq<Row>, name: string, columns: seq<string>, f: Filter)
    requires IsTable(db, name) && Refs(f) <= (set c | c in db[name].columns)
    requires forall c :: c in columns ==> c in db[name].columns
    ensures Select(db, viewRows, name, Some(columns), f) == Ok(ProjectAll(Filtered(db[name].rows, f, true), columns))
  {
  }
}

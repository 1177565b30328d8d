/**
  The open helper itself: an object holding the database, whose `onCreate` issues the
  registry's CREATE statements and whose `onUpgrade` issues, block by block, the
  statements of every version gate that fires. Each statement goes through `ExecSql`;
  an SQL error ends the method that issued it (the exception the source lets escape),
  which the returned `ok` flag records.

  Every method is proved against the function of `Steps`, `Schema` or `Migration` that
  specifies it; the properties of those functions are proved in `StepFacts`,
  `Version21Facts`, `Schema` and `Migration`.
 */
module OpenHelper {
  import opened Store
  import opened StoreLemmas
  import opened Schema
  import opened Steps
  import opened Migration

  class OpenHelper {
    /** The registry, the views, the row mappings and the serializer the helper is built with. */
    const env: Env
    /** The database the framework hands to `onCreate` and `onUpgrade`. */
    var db: Db

    constructor (env: Env, db: Db)
      ensures this.env == env && this.db == db
    {
      this.env := env;
      this.db := db;
    }

    /** `db.execSQL(s)`: an SQL error leaves the database as it was and reports `false`. */
    method ExecSql(s: Stmt) returns (ok: bool)
      modifies this
      ensures Outcome(db, ok) == Exec(old(db), s)
    {
      var o := Exec(db, s);
      db := o.db;
      ok := o.ok;
    }

    /** `db.insert(table, null, row)`, whose result the migration ignores. */
    method InsertRow(table: string, row: Row)
      modifies this
      ensures Done(db) == Exec(old(db), Insert(table, row))
    {
      db := Exec(db, Insert(table, row)).db;
    }

    /** One CREATE statement of `onCreate`, the `k`-th of the registry's script. */
    method Create(ghost start: Db, k: nat) returns (ok: bool)
      requires k < |CreationOrder|
      requires Done(db) == CreateFirst(Done(start), env.columnsOf, k)
      modifies this
      ensures ok ==> Done(db) == CreateFirst(Done(start), env.columnsOf, k + 1)
      ensures !ok ==> Outcome(db, ok) == CreateFirst(Done(start), env.columnsOf, |CreationOrder|)
    {
      ok := ExecSql(CreateStmt(CreationOrder[k], env.columnsOf));
      if !ok {
        CreateFirstStops(Done(start), env.columnsOf, k + 1, |CreationOrder|);
      }
    }

    /**
      `onCreate`: creates every table and view of the registry, in the order of
      `CreationOrder`. On an empty database it succeeds and builds the whole schema
      (`Schema.OnCreateBuildsSchema`).
     */
    method OnCreate() returns (ok: bool)
      modifies this
      ensures Outcome(db, ok) == ThenAll(Done(old(db)), CreationScript(env.columnsOf))
    {
      ghost var start := db;
      CreateFirstRunsScript(Done(start), env.columnsOf, |CreationOrder|);
      assert CreationScript(env.columnsOf)[..|CreationOrder|] == CreationScript(env.columnsOf);
      ok := Create(start, 0);
      if !ok { return; }
      ok := Create(start, 1);
      if !ok { return; }
      ok := Create(start, 2);
      if !ok { return; }
      ok := Create(start, 3);
      if !ok { return; }
      ok := Create(start, 4);
      if !ok { return; }
      ok := Create(start, 5);
      if !ok { return; }
      ok := Create(start, 6);
      if !ok { return; }
      ok := Create(start, 7);
      if !ok { return; }
      ok := Create(start, 8);
      if !ok { return; }
      ok := Create(start, 9);
      if !ok { return; }
      ok := Create(start, 10);
      if !ok { return; }
      ok := Create(start, 11);
      if !ok { return; }
      ok := Create(start, 12);
      if !ok { return; }
      ok := Create(start, 13);
      if !ok { return; }
      ok := Create(start, 14);
      if !ok { return; }
      ok := Create(start, 15);
      if !ok { return; }
      ok := Create(start, 16);
      if !ok { return; }
      ok := Create(start, 17);
      if !ok { return; }
      ok := Create(start, 18);
      if !ok { return; }
      ok := Create(start, 19);
      if !ok { return; }
      ok := Create(start, 20);
      if !ok { return; }
      ok := Create(start, 21);
      if !ok { return; }
      ok := Create(start, 22);
      if !ok { return; }
      ok := Create(start, 23);
    }

    /** Upgrading from version 2: the quest table is rebuilt without the commit message column. */
    method RebuildOsmQuests() returns (ok: bool)
      modifies this
      ensures Outcome(db, ok) == Steps.RebuildOsmQuests(old(db))
    {
      ok := ExecSql(RenameTable(OsmQuests, OsmQuestsOld));
      if !ok { return; }
      ok := ExecSql(CreateTable(OsmQuests, OsmQuestsV3Columns));
      if !ok { return; }
      ok := ExecSql(CopyColumns(OsmQuests, OsmQuestsOld, OsmQuestsV3CopyColumns));
      if !ok { return; }
      ok := ExecSql(DropTable(OsmQuestsOld));
    }

    method UpgradeTo3() returns (ok: bool)
      modifies this
      ensures Outcome(db, ok) == Steps.UpgradeTo3(old(db), env)
    {
      ok := ExecSql(CreateTableOf(OpenChangesets, env.columnsOf));
    }

    method UpgradeTo4() returns (ok: bool)
      modifies this
      ensures Outcome(db, ok) == Steps.UpgradeTo4(old(db), env)
    {
      ok := true;
      if !HasColumn(db, OsmQuests, ChangesSource) {
        ok := ExecSql(AddColumn(OsmQuests, ChangesSource, Null));
        if !ok { return; }
      }
      ok := ExecSql(SetWhereNull(OsmQuests, ChangesSource, Text("survey")));
      if !ok { return; }
      ok := ExecSql(DropTable(OpenChangesets));
      if !ok { return; }
      ok := ExecSql(CreateTableOf(OpenChangesets, env.columnsOf));
    }

    method UpgradeTo5() returns (ok: bool)
      modifies this
      ensures Outcome(db, ok) == Steps.UpgradeTo5(old(db))
    {
      ok := ExecSql(AddColumn(CreateNotes, QuestTitle, Null));
    }

    method UpgradeTo6() returns (ok: bool)
      modifies this
      ensures Outcome(db, ok) == Steps.UpgradeTo6(old(db), env)
    {
      ok := ExecSql(CreateTableOf(RoadNames, env.columnsOf));
    }

    method UpgradeTo7() returns (ok: bool)
      modifies this
      ensures Outcome(db, ok) == Steps.UpgradeTo7(old(db), env)
    {
      ok := ExecSql(CreateTableOf(UndoOsmQuests, env.columnsOf));
      if !ok { return; }
      ok := ExecSql(CreateStmt(UndoOsmQuestsView, env.columnsOf));
    }

    method UpgradeTo8() returns (ok: bool)
      modifies this
      ensures Outcome(db, ok) == Steps.UpgradeTo8(old(db))
    {
      ok := ExecSql(AddColumn(CreateNotes, ImagePaths, Null));
      if !ok { return; }
      ok := ExecSql(AddColumn(NoteQuests, ImagePaths, Null));
    }

    method UpgradeTo9() returns (ok: bool)
      modifies this
      ensures Outcome(db, ok) == Steps.UpgradeTo9(old(db), env)
    {
      ok := ExecSql(CreateTableOf(QuestVisibility, env.columnsOf));
    }

    method UpgradeTo10() returns (ok: bool)
      modifies this
      ensures Outcome(db, ok) == Steps.UpgradeTo10(old(db), env)
    {
      ok := ExecSql(CreateTableOf(WayTrafficFlow, env.columnsOf));
    }

    method UpgradeTo11() returns (ok: bool)
      modifies this
      ensures Outcome(db, ok) == Steps.UpgradeTo11(old(db))
    {
      var oneway := ColumnIs(QuestType, Text(SuspectedOneway));
      ok := ExecSql(DeleteWhere(OsmQuests, oneway));
      if !ok { return; }
      ok := ExecSql(DeleteWhere(UndoOsmQuests, oneway));
      if !ok { return; }
      ok := ExecSql(DeleteWhere(WayTrafficFlow, Everything));
    }

    method UpgradeTo12() returns (ok: bool)
      modifies this
      ensures Outcome(db, ok) == Steps.UpgradeTo12(old(db), env)
    {
      ok := ExecSql(CreateTableOf(OsmSplitWays, env.columnsOf));
      if !ok { return; }
      ok := ExecSql(DropTable(UndoOsmQuests));
      if !ok { return; }
      ok := ExecSql(DropView(UndoOsmQuestsView));
      if !ok { return; }
      ok := ExecSql(CreateTableOf(UndoOsmQuests, env.columnsOf));
      if !ok { return; }
      ok := ExecSql(CreateStmt(UndoOsmQuestsView, env.columnsOf));
    }

    method UpgradeTo13() returns (ok: bool)
      modifies this
      ensures Outcome(db, ok) == Steps.UpgradeTo13(old(db), env)
    {
      ok := ExecSql(CreateTableOf(UserAchievements, env.columnsOf));
      if !ok { return; }
      ok := ExecSql(CreateTableOf(UserLinks, env.columnsOf));
      if !ok { return; }
      ok := ExecSql(CreateTableOf(NewUserAchievements, env.columnsOf));
    }

    method UpgradeTo14() returns (ok: bool)
      modifies this
      ensures Outcome(db, ok) == Steps.UpgradeTo14(old(db), env)
    {
      ok := ExecSql(CreateTableOf(CountryStatistics, env.columnsOf));
    }

    method UpgradeTo15() returns (ok: bool)
      modifies this
      ensures Outcome(db, ok) == Steps.UpgradeTo15(old(db))
    {
      ok := ExecSql(AddColumn(OsmSplitWays, QuestTypesOnWay, Null));
    }

    method UpgradeTo16() returns (ok: bool)
      modifies this
      ensures Outcome(db, ok) == Steps.UpgradeTo16(old(db))
    {
      var relation := ColumnIs(ElementType, Text("RELATION"));
      ok := ExecSql(DeleteWhere(OsmQuests, relation));
      if !ok { return; }
      ok := ExecSql(DeleteWhere(UndoOsmQuests, relation));
      if !ok { return; }
      ok := ExecSql(DeleteWhere(Relations, Everything));
    }

    method UpgradeTo17(now: int) returns (ok: bool)
      modifies this
      ensures Outcome(db, ok) == Steps.UpgradeTo17(old(db), now)
    {
      ok := ExecSql(AddColumn(RoadNames, LastUpdate, Int(now)));
    }

    method UpgradeTo18() returns (ok: bool)
      modifies this
      ensures Outcome(db, ok) == Steps.UpgradeTo18(old(db))
    {
      ok := ExecSql(DeleteWhere(DownloadedTiles, Everything));
    }

    method UpgradeTo19() returns (ok: bool)
      modifies this
      ensures Outcome(db, ok) == Steps.UpgradeTo19(old(db), env)
    {
      ok := ExecSql(CreateTableOf(DeleteOsmElements, env.columnsOf));
      if !ok { return; }
      ok := ExecSql(DeleteWhere(OsmQuests, ColumnIs(QuestStatus, Text("REVERT"))));
    }

    method UpgradeTo20() returns (ok: bool)
      modifies this
      ensures Outcome(db, ok) == Steps.UpgradeTo20(old(db))
    {
      ok := ExecSql(DeleteWhere(OsmQuests, ColumnIn(QuestType, RetiredQuestTypes)));
    }

    /** The `replaceOrThrow` loop of version 21: every geometry entry, in order, put back by its element key. */
    method PutGeometryEntries(entries: seq<GeometryEntry>) returns (ok: bool)
      requires IsTable(db, ElementsGeometry)
      modifies this
      ensures ok
      ensures Outcome(db, ok) == ReplaceEach(Done(old(db)), ElementsGeometry,
        seq(|entries|, i requires 0 <= i < |entries| => env.geometryValues(entries[i])), GeometryKey)
    {
      hide Exec;  // each step needs only `ReplaceLast`
      ghost var rows := seq(|entries|, i requires 0 <= i < |entries| => env.geometryValues(entries[i]));
      ghost var start := db;
      ghost var columns := db[ElementsGeometry].columns;
      ghost var earlier := db[ElementsGeometry].rows;
      ok := true;
      var i := 0;
      while i < |entries|
        invariant 0 <= i <= |entries| == |rows|
        invariant ok
        invariant db == start[ElementsGeometry := Table(columns, ReplaceRows(earlier, rows[..i], GeometryKey))]
      {
        ReplaceLast(start, ElementsGeometry, ReplaceRows(earlier, rows[..i], GeometryKey), rows[i], GeometryKey);
        assert rows[..i + 1][..i] == rows[..i];
        ok := ExecSql(Replace(ElementsGeometry, env.geometryValues(entries[i]), GeometryKey));
        i := i + 1;
      }
      assert rows[..i] == rows;
      ReplaceEachPuts(start, ElementsGeometry, rows, GeometryKey);
    }

    /**
      Version 21, first part: the geometry entries are read, the table recreated, and
      every entry put back with `replaceOrThrow`.
     */
    method RebuildElementGeometry() returns (ok: bool)
      modifies this
      ensures Outcome(db, ok) == Steps.RebuildElementGeometry(old(db), env)
    {
      var query := Select(db, env.viewRows, ElementsGeometry, None, Everything);
      if query.Failure? {
        ok := false;
        return;
      }
      var snapshot := query.value;
      var entries := seq(|snapshot|, i requires 0 <= i < |snapshot| => env.toGeometryEntry(snapshot[i]));
      ok := ExecSql(DropTable(ElementsGeometry));
      if !ok {
        ReplaceEachStops(Outcome(db, ok), ElementsGeometry, GeometryRows(snapshot, env), GeometryKey);
        return;
      }
      ok := ExecSql(CreateTableOf(ElementsGeometry, env.columnsOf));
      if !ok {
        ReplaceEachStops(Outcome(db, ok), ElementsGeometry, GeometryRows(snapshot, env), GeometryKey);
        return;
      }
      ok := PutGeometryEntries(entries);
      assert GeometryRows(snapshot, env)
          == seq(|entries|, i requires 0 <= i < |entries| => env.geometryValues(entries[i]));
    }

    /** Version 21, second part: notes, nodes, ways and relations get a `last_update` column. */
    method AddLastUpdates(now: int) returns (ok: bool)
      modifies this
      ensures Outcome(db, ok) == Steps.AddLastUpdates(old(db), now)
    {
      ok := ExecSql(AddColumn(Notes, LastUpdate, Int(now)));
      if !ok { return; }
      ok := ExecSql(AddColumn(Nodes, LastUpdate, Int(now)));
      if !ok { return; }
      ok := ExecSql(AddColumn(Ways, LastUpdate, Int(now)));
      if !ok { return; }
      ok := ExecSql(AddColumn(Relations, LastUpdate, Int(now)));
    }

    /** An insert loop of version 21: every row, in order, inserted into `table`. */
    method InsertRows(table: string, rows: seq<Row>)
      modifies this
      ensures Done(db) == InsertEach(Done(old(db)), table, rows)
    {
      var i := 0;
      while i < |rows|
        invariant 0 <= i <= |rows|
        invariant Done(db) == InsertEach(Done(old(db)), table, rows[..i])
      {
        assert rows[..i + 1][..i] == rows[..i];
        InsertRow(table, rows[i]);
        i := i + 1;
      }
      assert rows[..i] == rows;
    }

    /** Version 21, third part: the answered note quests are read as comment notes and inserted one by one. */
    method MoveAnsweredNoteQuests(answered: Filter) returns (ok: bool)
      modifies this
      ensures Outcome(db, ok) == Steps.MoveAnsweredNoteQuests(old(db), env, answered)
    {
      var query := Select(db, env.viewRows, NoteQuestsFull, None, answered);
      if query.Failure? {
        ok := false;
        return;
      }
      var quests := query.value;
      var commentNotes := seq(|quests|, i requires 0 <= i < |quests| => ToCommentNote(quests[i], env));
      ok := ExecSql(CreateTableOf(CommentNotes, env.columnsOf));
      if !ok {
        InsertEachStops(Outcome(db, ok), CommentNotes, CommentNoteRows(quests, env));
        return;
      }
      InsertRows(CommentNotes, seq(|commentNotes|, i requires 0 <= i < |commentNotes| => env.commentNoteValues(commentNotes[i])));
      assert CommentNoteRows(quests, env)
          == seq(|commentNotes|, i requires 0 <= i < |commentNotes| => env.commentNoteValues(commentNotes[i]));
    }

    /** Version 21, fourth part: the ids of the hidden note quests are read and inserted one by one. */
    method MoveHiddenNoteQuests(hidden: Filter) returns (ok: bool)
      modifies this
      ensures Outcome(db, ok) == Steps.MoveHiddenNoteQuests(old(db), env, hidden)
    {
      var query := Select(db, env.viewRows, NoteQuests, Some([NoteId]), hidden);
      if query.Failure? {
        ok := false;
        return;
      }
      var quests := query.value;
      var noteIds := seq(|quests|, i requires 0 <= i < |quests| => Get(quests[i], NoteId));
      ok := ExecSql(CreateTableOf(NoteQuestsHidden, env.columnsOf));
      if !ok {
        InsertEachStops(Outcome(db, ok), NoteQuestsHidden, HiddenRows(quests));
        return;
      }
      InsertRows(NoteQuestsHidden, seq(|noteIds|, i requires 0 <= i < |noteIds| => map[NoteId := noteIds[i]]));
      assert HiddenRows(quests) == seq(|noteIds|, i requires 0 <= i < |noteIds| => map[NoteId := noteIds[i]]);
    }

    /** Version 21, last part: the legacy note quest view and table go, and the split way table is recreated. */
    method DropLegacyTables() returns (ok: bool)
      modifies this
      ensures Outcome(db, ok) == Steps.DropLegacyTables(old(db), env)
    {
      ok := ExecSql(DropView(NoteQuestsFull));
      if !ok { return; }
      ok := ExecSql(DropTable(NoteQuests));
      if !ok { return; }
      ok := ExecSql(DropTable(OsmSplitWays));
      if !ok { return; }
      ok := ExecSql(CreateTableOf(OsmSplitWays, env.columnsOf));
    }

    /**
      Version 21, with the status filters the comments describe; its effect on a
      store that has what it reads is `Version21Facts.UpgradeTo21Succeeds`.
     */
    method UpgradeTo21(now: int) returns (ok: bool)
      modifies this
      ensures Outcome(db, ok) == Steps.UpgradeTo21(old(db), env, now)
    {
      ok := RebuildElementGeometry();
      if !ok { return; }
      ok := AddLastUpdates(now);
      if !ok { return; }
      ok := MoveAnsweredNoteQuests(AnsweredFilter);
      if !ok { return; }
      ok := MoveHiddenNoteQuests(HiddenFilter);
      if !ok { return; }
      ok := DropLegacyTables();
    }

    // The twenty `if`s of `onUpgrade`, one method each. Each gate proves its step from
    // its block's `BlockAt` lemma alone, so it hides the body of `Block`.

    /** The `if` of `onUpgrade` for version 2. */
    method Gate2(ghost start: Db, oldVersion: int, newVersion: int, now: int) returns (ok: bool)
      requires Done(db) == UpgradeThrough(start, env, now, oldVersion, newVersion, 1)
      modifies this
      ensures Outcome(db, ok) == UpgradeThrough(start, env, now, oldVersion, newVersion, 2)
      ensures !ok ==> Outcome(db, ok) == Upgrade(start, env, now, oldVersion, newVersion)
    {
      hide Block;
      if oldVersion == 2 {
        ghost var before := db;
        ok := RebuildOsmQuests();
        BlockAt2(before, env, now);
        GateRuns(start, before, db, ok, 2, env, now, oldVersion, newVersion);
      } else {
        ok := true;
        GateSkips(start, db, 2, env, now, oldVersion, newVersion);
      }
    }

    /** The `if` of `onUpgrade` for version 3. */
    method Gate3(ghost start: Db, oldVersion: int, newVersion: int, now: int) returns (ok: bool)
      requires Done(db) == UpgradeThrough(start, env, now, oldVersion, newVersion, 2)
      modifies this
      ensures Outcome(db, ok) == UpgradeThrough(start, env, now, oldVersion, newVersion, 3)
      ensures !ok ==> Outcome(db, ok) == Upgrade(start, env, now, oldVersion, newVersion)
    {
      hide Block;
      if oldVersion < 3 && newVersion >= 3 {
        ghost var before := db;
        ok := UpgradeTo3();
        BlockAt3(before, env, now);
        GateRuns(start, before, db, ok, 3, env, now, oldVersion, newVersion);
      } else {
        ok := true;
        GateSkips(start, db, 3, env, now, oldVersion, newVersion);
      }
    }

    /** The `if` of `onUpgrade` for version 4. */
    method Gate4(ghost start: Db, oldVersion: int, newVersion: int, now: int) returns (ok: bool)
      requires Done(db) == UpgradeThrough(start, env, now, oldVersion, newVersion, 3)
      modifies this
      ensures Outcome(db, ok) == UpgradeThrough(start, env, now, oldVersion, newVersion, 4)
      ensures !ok ==> Outcome(db, ok) == Upgrade(start, env, now, oldVersion, newVersion)
    {
      hide Block;
      if oldVersion < 4 && newVersion >= 4 {
        ghost var before := db;
        ok := UpgradeTo4();
        BlockAt4(before, env, now);
        GateRuns(start, before, db, ok, 4, env, now, oldVersion, newVersion);
      } else {
        ok := true;
        GateSkips(start, db, 4, env, now, oldVersion, newVersion);
      }
    }

    /** The `if` of `onUpgrade` for version 5. */
    method Gate5(ghost start: Db, oldVersion: int, newVersion: int, now: int) returns (ok: bool)
      requires Done(db) == UpgradeThrough(start, env, now, oldVersion, newVersion, 4)
      modifies this
      ensures Outcome(db, ok) == UpgradeThrough(start, env, now, oldVersion, newVersion, 5)
      ensures !ok ==> Outcome(db, ok) == Upgrade(start, env, now, oldVersion, newVersion)
    {
      hide Block;
      if oldVersion < 5 && newVersion >= 5 {
        ghost var before := db;
        ok := UpgradeTo5();
        BlockAt5(before, env, now);
        GateRuns(start, before, db, ok, 5, env, now, oldVersion, newVersion);
      } else {
        ok := true;
        GateSkips(start, db, 5, env, now, oldVersion, newVersion);
      }
    }

    /** The `if` of `onUpgrade` for version 6. */
    method Gate6(ghost start: Db, oldVersion: int, newVersion: int, now: int) returns (ok: bool)
      requires Done(db) == UpgradeThrough(start, env, now, oldVersion, newVersion, 5)
      modifies this
      ensures Outcome(db, ok) == UpgradeThrough(start, env, now, oldVersion, newVersion, 6)
      ensures !ok ==> Outcome(db, ok) == Upgrade(start, env, now, oldVersion, newVersion)
    {
      hide Block;
      if oldVersion < 6 && newVersion >= 6 {
        ghost var before := db;
        ok := UpgradeTo6();
        BlockAt6(before, env, now);
        GateRuns(start, before, db, ok, 6, env, now, oldVersion, newVersion);
      } else {
        ok := true;
        GateSkips(start, db, 6, env, now, oldVersion, newVersion);
      }
    }

    /** The `if` of `onUpgrade` for version 7. */
    method Gate7(ghost start: Db, oldVersion: int, newVersion: int, now: int) returns (ok: bool)
      requires Done(db) == UpgradeThrough(start, env, now, oldVersion, newVersion, 6)
      modifies this
      ensures Outcome(db, ok) == UpgradeThrough(start, env, now, oldVersion, newVersion, 7)
      ensures !ok ==> Outcome(db, ok) == Upgrade(start, env, now, oldVersion, newVersion)
    {
      hide Block;
      if oldVersion < 7 && newVersion >= 7 {
        ghost var before := db;
        ok := UpgradeTo7();
        BlockAt7(before, env, now);
        GateRuns(start, before, db, ok, 7, env, now, oldVersion, newVersion);
      } else {
        ok := true;
        GateSkips(start, db, 7, env, now, oldVersion, newVersion);
      }
    }

    /** The `if` of `onUpgrade` for version 8. */
    method Gate8(ghost start: Db, oldVersion: int, newVersion: int, now: int) returns (ok: bool)
      requires Done(db) == UpgradeThrough(start, env, now, oldVersion, newVersion, 7)
      modifies this
      ensures Outcome(db, ok) == UpgradeThrough(start, env, now, oldVersion, newVersion, 8)
      ensures !ok ==> Outcome(db, ok) == Upgrade(start, env, now, oldVersion, newVersion)
    {
      hide Block;
      if oldVersion < 8 && newVersion >= 8 {
        ghost var before := db;
        ok := UpgradeTo8();
        BlockAt8(before, env, now);
        GateRuns(start, before, db, ok, 8, env, now, oldVersion, newVersion);
      } else {
        ok := true;
        GateSkips(start, db, 8, env, now, oldVersion, newVersion);
      }
    }

    /** The `if` of `onUpgrade` for version 9. */
    method Gate9(ghost start: Db, oldVersion: int, newVersion: int, now: int) returns (ok: bool)
      requires Done(db) == UpgradeThrough(start, env, now, oldVersion, newVersion, 8)
      modifies this
      ensures Outcome(db, ok) == UpgradeThrough(start, env, now, oldVersion, newVersion, 9)
      ensures !ok ==> Outcome(db, ok) == Upgrade(start, env, now, oldVersion, newVersion)
    {
      hide Block;
      if oldVersion < 9 && newVersion >= 9 {
        ghost var before := db;
        ok := UpgradeTo9();
        BlockAt9(before, env, now);
        GateRuns(start, before, db, ok, 9, env, now, oldVersion, newVersion);
      } else {
        ok := true;
        GateSkips(start, db, 9, env, now, oldVersion, newVersion);
      }
    }

    /** The `if` of `onUpgrade` for version 10. */
    method Gate10(ghost start: Db, oldVersion: int, newVersion: int, now: int) returns (ok: bool)
      requires Done(db) == UpgradeThrough(start, env, now, oldVersion, newVersion, 9)
      modifies this
      ensures Outcome(db, ok) == UpgradeThrough(start, env, now, oldVersion, newVersion, 10)
      ensures !ok ==> Outcome(db, ok) == Upgrade(start, env, now, oldVersion, newVersion)
    {
      hide Block;
      if oldVersion < 10 && newVersion >= 10 {
        ghost var before := db;
        ok := UpgradeTo10();
        BlockAt10(before, env, now);
        GateRuns(start, before, db, ok, 10, env, now, oldVersion, newVersion);
      } else {
        ok := true;
        GateSkips(start, db, 10, env, now, oldVersion, newVersion);
      }
    }

    /** The `if` of `onUpgrade` for version 11. */
    method Gate11(ghost start: Db, oldVersion: int, newVersion: int, now: int) returns (ok: bool)
      requires Done(db) == UpgradeThrough(start, env, now, oldVersion, newVersion, 10)
      modifies this
      ensures Outcome(db, ok) == UpgradeThrough(start, env, now, oldVersion, newVersion, 11)
      ensures !ok ==> Outcome(db, ok) == Upgrade(start, env, now, oldVersion, newVersion)
    {
      hide Block;
      if oldVersion < 11 && newVersion >= 11 {
        ghost var before := db;
        ok := UpgradeTo11();
        BlockAt11(before, env, now);
        GateRuns(start, before, db, ok, 11, env, now, oldVersion, newVersion);
      } else {
        ok := true;
        GateSkips(start, db, 11, env, now, oldVersion, newVersion);
      }
    }

    /** The `if` of `onUpgrade` for version 12. */
    method Gate12(ghost start: Db, oldVersion: int, newVersion: int, now: int) returns (ok: bool)
      requires Done(db) == UpgradeThrough(start, env, now, oldVersion, newVersion, 11)
      modifies this
      ensures Outcome(db, ok) == UpgradeThrough(start, env, now, oldVersion, newVersion, 12)
      ensures !ok ==> Outcome(db, ok) == Upgrade(start, env, now, oldVersion, newVersion)
    {
      hide Block;
      if oldVersion < 12 && newVersion >= 12 {
        ghost var before := db;
        ok := UpgradeTo12();
        BlockAt12(before, env, now);
        GateRuns(start, before, db, ok, 12, env, now, oldVersion, newVersion);
      } else {
        ok := true;
        GateSkips(start, db, 12, env, now, oldVersion, newVersion);
      }
    }

    /** The `if` of `onUpgrade` for version 13. */
    method Gate13(ghost start: Db, oldVersion: int, newVersion: int, now: int) returns (ok: bool)
      requires Done(db) == UpgradeThrough(start, env, now, oldVersion, newVersion, 12)
      modifies this
      ensures Outcome(db, ok) == UpgradeThrough(start, env, now, oldVersion, newVersion, 13)
      ensures !ok ==> Outcome(db, ok) == Upgrade(start, env, now, oldVersion, newVersion)
    {
      hide Block;
      if oldVersion < 13 && newVersion >= 13 {
        ghost var before := db;
        ok := UpgradeTo13();
        BlockAt13(before, env, now);
        GateRuns(start, before, db, ok, 13, env, now, oldVersion, newVersion);
      } else {
        ok := true;
        GateSkips(start, db, 13, env, now, oldVersion, newVersion);
      }
    }

    /** The `if` of `onUpgrade` for version 14. */
    method Gate14(ghost start: Db, oldVersion: int, newVersion: int, now: int) returns (ok: bool)
      requires Done(db) == UpgradeThrough(start, env, now, oldVersion, newVersion, 13)
      modifies this
      ensures Outcome(db, ok) == UpgradeThrough(start, env, now, oldVersion, newVersion, 14)
      ensures !ok ==> Outcome(db, ok) == Upgrade(start, env, now, oldVersion, newVersion)
    {
      hide Block;
      if oldVersion < 14 && newVersion >= 14 {
        ghost var before := db;
        ok := UpgradeTo14();
        BlockAt14(before, env, now);
        GateRuns(start, before, db, ok, 14, env, now, oldVersion, newVersion);
      } else {
        ok := true;
        GateSkips(start, db, 14, env, now, oldVersion, newVersion);
      }
    }

    /** The `if` of `onUpgrade` for version 15. */
    method Gate15(ghost start: Db, oldVersion: int, newVersion: int, now: int) returns (ok: bool)
      requires Done(db) == UpgradeThrough(start, env, now, oldVersion, newVersion, 14)
      modifies this
      ensures Outcome(db, ok) == UpgradeThrough(start, env, now, oldVersion, newVersion, 15)
      ensures !ok ==> Outcome(db, ok) == Upgrade(start, env, now, oldVersion, newVersion)
    {
      hide Block;
      if oldVersion < 15 && newVersion >= 15 {
        ghost var before := db;
        ok := UpgradeTo15();
        BlockAt15(before, env, now);
        GateRuns(start, before, db, ok, 15, env, now, oldVersion, newVersion);
      } else {
        ok := true;
        GateSkips(start, db, 15, env, now, oldVersion, newVersion);
      }
    }

    /** The `if` of `onUpgrade` for version 16. */
    method Gate16(ghost start: Db, oldVersion: int, newVersion: int, now: int) returns (ok: bool)
      requires Done(db) == UpgradeThrough(start, env, now, oldVersion, newVersion, 15)
      modifies this
      ensures Outcome(db, ok) == UpgradeThrough(start, env, now, oldVersion, newVersion, 16)
      ensures !ok ==> Outcome(db, ok) == Upgrade(start, env, now, oldVersion, newVersion)
    {
      hide Block;
      if oldVersion < 16 && newVersion >= 16 {
        ghost var before := db;
        ok := UpgradeTo16();
        BlockAt16(before, env, now);
        GateRuns(start, before, db, ok, 16, env, now, oldVersion, newVersion);
      } else {
        ok := true;
        GateSkips(start, db, 16, env, now, oldVersion, newVersion);
      }
    }

    /** The `if` of `onUpgrade` for version 17. */
    method Gate17(ghost start: Db, oldVersion: int, newVersion: int, now: int) returns (ok: bool)
      requires Done(db) == UpgradeThrough(start, env, now, oldVersion, newVersion, 16)
      modifies this
      ensures Outcome(db, ok) == UpgradeThrough(start, env, now, oldVersion, newVersion, 17)
      ensures !ok ==> Outcome(db, ok) == Upgrade(start, env, now, oldVersion, newVersion)
    {
      hide Block;
      if oldVersion < 17 && newVersion >= 17 {
        ghost var before := db;
        ok := UpgradeTo17(now);
        BlockAt17(before, env, now);
        GateRuns(start, before, db, ok, 17, env, now, oldVersion, newVersion);
      } else {
        ok := true;
        GateSkips(start, db, 17, env, now, oldVersion, newVersion);
      }
    }

    /** The `if` of `onUpgrade` for version 18. */
    method Gate18(ghost start: Db, oldVersion: int, newVersion: int, now: int) returns (ok: bool)
      requires Done(db) == UpgradeThrough(start, env, now, oldVersion, newVersion, 17)
      modifies this
      ensures Outcome(db, ok) == UpgradeThrough(start, env, now, oldVersion, newVersion, 18)
      ensures !ok ==> Outcome(db, ok) == Upgrade(start, env, now, oldVersion, newVersion)
    {
      hide Block;
      if oldVersion < 18 && newVersion >= 18 {
        ghost var before := db;
        ok := UpgradeTo18();
        BlockAt18(before, env, now);
        GateRuns(start, before, db, ok, 18, env, now, oldVersion, newVersion);
      } else {
        ok := true;
        GateSkips(start, db, 18, env, now, oldVersion, newVersion);
      }
    }

    /** The `if` of `onUpgrade` for version 19. */
    method Gate19(ghost start: Db, oldVersion: int, newVersion: int, now: int) returns (ok: bool)
      requires Done(db) == UpgradeThrough(start, env, now, oldVersion, newVersion, 18)
      modifies this
      ensures Outcome(db, ok) == UpgradeThrough(start, env, now, oldVersion, newVersion, 19)
      ensures !ok ==> Outcome(db, ok) == Upgrade(start, env, now, oldVersion, newVersion)
    {
      hide Block;
      if oldVersion < 19 && newVersion >= 19 {
        ghost var before := db;
        ok := UpgradeTo19();
        BlockAt19(before, env, now);
        GateRuns(start, before, db, ok, 19, env, now, oldVersion, newVersion);
      } else {
        ok := true;
        GateSkips(start, db, 19, env, now, oldVersion, newVersion);
      }
    }

    /** The `if` of `onUpgrade` for version 20. */
    method Gate20(ghost start: Db, oldVersion: int, newVersion: int, now: int) returns (ok: bool)
      requires Done(db) == UpgradeThrough(start, env, now, oldVersion, newVersion, 19)
      modifies this
      ensures Outcome(db, ok) == UpgradeThrough(start, env, now, oldVersion, newVersion, 20)
      ensures !ok ==> Outcome(db, ok) == Upgrade(start, env, now, oldVersion, newVersion)
    {
      hide Block;
      if oldVersion < 20 && newVersion >= 20 {
        ghost var before := db;
        ok := UpgradeTo20();
        BlockAt20(before, env, now);
        GateRuns(start, before, db, ok, 20, env, now, oldVersion, newVersion);
      } else {
        ok := true;
        GateSkips(start, db, 20, env, now, oldVersion, newVersion);
      }
    }

    /** The `if` of `onUpgrade` for version 21. */
    method Gate21(ghost start: Db, oldVersion: int, newVersion: int, now: int) returns (ok: bool)
      requires Done(db) == UpgradeThrough(start, env, now, oldVersion, newVersion, 20)
      modifies this
      ensures Outcome(db, ok) == UpgradeThrough(start, env, now, oldVersion, newVersion, 21)
      ensures !ok ==> Outcome(db, ok) == Upgrade(start, env, now, oldVersion, newVersion)
    {
      hide Block;
      if oldVersion < 21 && newVersion >= 21 {
        ghost var before := db;
        ok := UpgradeTo21(now);
        BlockAt21(before, env, now);
        GateRuns(start, before, db, ok, 21, env, now, oldVersion, newVersion);
      } else {
        ok := true;
        GateSkips(start, db, 21, env, now, oldVersion, newVersion);
      }
    }

    /**
      `onUpgrade(db, oldVersion, newVersion)`: runs the block of every gate that fires,
      in ascending version order, and stops at the first SQL error. Which blocks run,
      and in which order, is `Migration.UpgradeRunsFiredBlocks`.
     */
    method OnUpgrade(oldVersion: int, newVersion: int, now: int) returns (ok: bool)
      modifies this
      ensures Outcome(db, ok) == Upgrade(old(db), env, now, oldVersion, newVersion)
    {
      ghost var start := db;
      ok := Gate2(start, oldVersion, newVersion, now);
      if !ok { return; }
      ok := Gate3(start, oldVersion, newVersion, now);
      if !ok { return; }
      ok := Gate4(start, oldVersion, newVersion, now);
      if !ok { return; }
      ok := Gate5(start, oldVersion, newVersion, now);
      if !ok { return; }
      ok := Gate6(start, oldVersion, newVersion, now);
      if !ok { return; }
      ok := Gate7(start, oldVersion, newVersion, now);
      if !ok { return; }
      ok := Gate8(start, oldVersion, newVersion, now);
      if !ok { return; }
      ok := Gate9(start, oldVersion, newVersion, now);
      if !ok { return; }
      ok := Gate10(start, oldVersion, newVersion, now);
      if !ok { return; }
      ok := Gate11(start, oldVersion, newVersion, now);
      if !ok { return; }
      ok := Gate12(start, oldVersion, newVersion, now);
      if !ok { return; }
      ok := Gate13(start, oldVersion, newVersion, now);
      if !ok { return; }
      ok := Gate14(start, oldVersion, newVersion, now);
      if !ok { return; }
      ok := Gate15(start, oldVersion, newVersion, now);
      if !ok { return; }
      ok := Gate16(start, oldVersion, newVersion, now);
      if !ok { return; }
      ok := Gate17(start, oldVersion, newVersion, now);
      if !ok { return; }
      ok := Gate18(start, oldVersion, newVersion, now);
      if !ok { return; }
      ok := Gate19(start, oldVersion, newVersion, now);
      if !ok { return; }
      ok := Gate20(start, oldVersion, newVersion, now);
      if !ok { return; }
      ok := Gate21(start, oldVersion, newVersion, now);
    }
  }

  /**
    A gate of `onUpgrade` that fires: the gates before `v` took `start` to `d`, and the
    block for `v` takes the store from `d` to `d'`. The gates up to `v` then end in
    `d'`, and so does the whole upgrade when the block has failed.
   */
  lemma GateRuns(start: Db, d: Db, d': Db, ok: bool, v: int, env: Env, now: int, oldVersion: int, newVersion: int)
    requires 2 <= v <= DbVersion && Fires(v, oldVersion, newVersion)
    requires Done(d) == UpgradeThrough(start, env, now, oldVersion, newVersion, v - 1)
    requires Outcome(d', ok) == Block(v, d, env, now)
    ensures Outcome(d', ok) == UpgradeThrough(start, env, now, oldVersion, newVersion, v)
    ensures !ok ==> Outcome(d', ok) == Upgrade(start, env, now, oldVersion, newVersion)
  {
    if !ok {
      UpgradeThroughStops(start, env, now, oldVersion, newVersion, v, DbVersion);
    }
  }

  /** A gate of `onUpgrade` that does not fire leaves the store as the gates before it left it. */
  lemma GateSkips(start: Db, d: Db, v: int, env: Env, now: int, oldVersion: int, newVersion: int)
    requires 2 <= v <= DbVersion && !Fires(v, oldVersion, newVersion)
    requires Done(d) == UpgradeThrough(start, env, now, oldVersion, newVersion, v - 1)
    ensures Done(d) == UpgradeThrough(start, env, now, oldVersion, newVersion, v)
  {
  }
}

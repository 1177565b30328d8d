/**
  What each block of `onUpgrade` guarantees: when it succeeds, what the tables it
  touches hold afterwards, and that every other object is left alone.
 */
module StepFacts {
  import opened Store
  import opened StoreLemmas
  import opened Schema
  import opened Steps

  /** `after` has the same objects as `before`, and every object outside `touched` is unchanged. */
  ghost predicate Unchanged(before: Db, after: Db, touched: set<string>) {
    && (forall n :: n in after <==> n in before)
    && (forall n :: n in before && n !in touched ==> after[n] == before[n])
  }

  /**
    `after` is the table `before` with exactly the rows matching `f` deleted: same
    columns, and each row that does not match keeps its multiplicity.
   */
  ghost predicate Pruned(before: Obj, after: Obj, f: Filter) {
    && before.Table? && after.Table?
    && after.columns == before.columns
    && (forall r :: multiset(after.rows)[r] == if Matches(r, f) then 0 else multiset(before.rows)[r])
  }

  /** Every row of the table carries only columns the table declares. */
  ghost predicate RowsFit(t: Obj) {
    t.Table? && forall r, c :: r in t.rows && c in r ==> c in t.columns
  }

  /** The store after the version-3 rebuild, when it succeeds. */
  lemma RebuildOutcome(db: Db)
    ensures RebuildOsmQuests(db).ok <==>
      IsTable(db, OsmQuests) && OsmQuestsOld !in db
      && forall c :: c in OsmQuestsV3CopyColumns ==> c in db[OsmQuests].columns
    ensures RebuildOsmQuests(db).ok ==>
      RebuildOsmQuests(db).db
      == db[OsmQuests := Table(OsmQuestsV3Columns, ProjectAll(db[OsmQuests].rows, OsmQuestsV3CopyColumns))]
  {
    assert OsmQuests != OsmQuestsOld;
    V3ColumnsMatch();
    if IsTable(db, OsmQuests) && OsmQuestsOld !in db {
      var q := db[OsmQuests];
      var d1 := (db - {OsmQuests})[OsmQuestsOld := q];
      assert Exec(db, RenameTable(OsmQuests, OsmQuestsOld)) == Done(d1);
      var d2 := d1[OsmQuests := Table(OsmQuestsV3Columns, [])];
      assert Exec(d1, CreateTable(OsmQuests, OsmQuestsV3Columns)) == Done(d2);
      if forall c :: c in OsmQuestsV3CopyColumns ==> c in q.columns {
        var rows := ProjectAll(q.rows, OsmQuestsV3CopyColumns);
        var d3 := d1[OsmQuests := Table(OsmQuestsV3Columns, rows)];
        assert [] + rows == rows;
        assert Exec(d2, CopyColumns(OsmQuests, OsmQuestsOld, OsmQuestsV3CopyColumns)) == Done(d3);
        assert d3 - {OsmQuestsOld} == db[OsmQuests := Table(OsmQuestsV3Columns, rows)];
      } else {
        assert !Exec(d2, CopyColumns(OsmQuests, OsmQuestsOld, OsmQuestsV3CopyColumns)).ok;
      }
    }
  }

  /** Each projected row holds exactly the listed columns, with the values of its source row. */
  lemma ProjectAllKeeps(rows: seq<Row>, columns: seq<string>)
    ensures |ProjectAll(rows, columns)| == |rows|
    ensures forall i :: 0 <= i < |rows| ==>
      && (forall c :: c in ProjectAll(rows, columns)[i] <==> c in columns)
      && (forall c :: c in columns ==> ProjectAll(rows, columns)[i][c] == Get(rows[i], c))
  {
  }

  /**
    Version 3 rebuild: it succeeds exactly when `osm_quests` is a table holding the
    seven listed columns and no `osm_quests_old` exists; then the quest table has the
    version-3 columns and one row per old row, in order, holding exactly the seven
    columns with the old values, and `osm_quests_old` is gone again.
   */
  lemma RebuildKeepsEveryRow(db: Db)
    ensures RebuildOsmQuests(db).ok <==>
      IsTable(db, OsmQuests) && OsmQuestsOld !in db
      && forall c :: c in OsmQuestsV3CopyColumns ==> c in db[OsmQuests].columns
    ensures var o := RebuildOsmQuests(db);
      o.ok ==>
        && OsmQuestsOld !in o.db
        && Unchanged(db, o.db, {OsmQuests})
        && o.db[OsmQuests].Table?
        && o.db[OsmQuests].columns == OsmQuestsV3Columns
        && |o.db[OsmQuests].rows| == |db[OsmQuests].rows|
        && forall i :: 0 <= i < |db[OsmQuests].rows| ==>
             && (forall c :: c in o.db[OsmQuests].rows[i] <==> c in OsmQuestsV3Columns)
             && (forall c :: c in OsmQuestsV3Columns ==> o.db[OsmQuests].rows[i][c] == Get(db[OsmQuests].rows[i], c))
  {
    RebuildOutcome(db);
    V3ColumnsMatch();
    if RebuildOsmQuests(db).ok {
      ProjectAllKeeps(db[OsmQuests].rows, OsmQuestsV3CopyColumns);
    }
  }

  /** The quest table once version 4 has made sure it has a `changes_source` column. */
  function WithChangesSource(q: Obj): Obj
    requires q.Table?
  {
    if ChangesSource in q.columns then q
    else Table(q.columns + [ChangesSource], SetAll(q.rows, ChangesSource, Null))
  }

  /** The store after version 4, when both tables it touches exist. */
  lemma UpgradeTo4Outcome(db: Db, env: Env)
    requires IsTable(db, OsmQuests) && IsTable(db, OpenChangesets)
    ensures var q := WithChangesSource(db[OsmQuests]);
      UpgradeTo4(db, env) == Done(db[OsmQuests := Table(q.columns, FillNull(q.rows, ChangesSource, Text("survey")))]
                                    [OpenChangesets := Table(env.columnsOf(OpenChangesets), [])])
  {
    assert OsmQuests != OpenChangesets;
    var q := WithChangesSource(db[OsmQuests]);
    var d1 := db[OsmQuests := q];
    if ChangesSource in db[OsmQuests].columns {
      assert d1 == db;
    } else {
      assert Exec(db, AddColumn(OsmQuests, ChangesSource, Null)) == Done(d1);
    }
    var d2 := db[OsmQuests := Table(q.columns, FillNull(q.rows, ChangesSource, Text("survey")))];
    assert Exec(d1, SetWhereNull(OsmQuests, ChangesSource, Text("survey"))) == Done(d2);
    assert Exec(d2, DropTable(OpenChangesets)) == Done(d2 - {OpenChangesets});
  }

  /**
    Version 4: on a well-formed quest table and an existing open changesets table it
    succeeds; `changes_source` is then a column exactly once, every row whose
    `changes_source` was NULL has 'survey', every other value is unchanged, and the
    open changesets table is recreated empty.
   */
  lemma UpgradeTo4Backfills(db: Db, env: Env)
    requires IsTable(db, OsmQuests) && DistinctColumns(db[OsmQuests].columns) && RowsFit(db[OsmQuests])
    requires IsTable(db, OpenChangesets)
    ensures var o := UpgradeTo4(db, env);
      && o.ok
      && Unchanged(db, o.db, {OsmQuests, OpenChangesets})
      && o.db[OpenChangesets] == Table(env.columnsOf(OpenChangesets), [])
      && o.db[OsmQuests].Table?
      && DistinctColumns(o.db[OsmQuests].columns)
      && multiset(o.db[OsmQuests].columns)[ChangesSource] == 1
      && (forall c :: c in o.db[OsmQuests].columns <==> c in db[OsmQuests].columns || c == ChangesSource)
      && |o.db[OsmQuests].rows| == |db[OsmQuests].rows|
      && forall i :: 0 <= i < |db[OsmQuests].rows| ==>
           && Get(o.db[OsmQuests].rows[i], ChangesSource)
              == (if Get(db[OsmQuests].rows[i], ChangesSource) == Null then Text("survey")
                  else Get(db[OsmQuests].rows[i], ChangesSource))
           && (forall c :: c != ChangesSource ==> Get(o.db[OsmQuests].rows[i], c) == Get(db[OsmQuests].rows[i], c))
  {
    var q := db[OsmQuests];
    UpgradeTo4Outcome(db, env);
    if ChangesSource in q.columns {
      var k :| 0 <= k < |q.columns| && q.columns[k] == ChangesSource;
      MultisetCountOne(q.columns, k);
    } else {
      var cols := q.columns + [ChangesSource];
      assert cols[|q.columns|] == ChangesSource;
      MultisetCountOne(cols, |q.columns|);
    }
  }
  /** A column that occurs once in a list of distinct columns is counted once. */
  lemma {:induction false} MultisetCountOne(cols: seq<string>, k: int)
    requires DistinctColumns(cols) && 0 <= k < |cols|
    ensures multiset(cols)[cols[k]] == 1
    decreases |cols|
  {
    var n := |cols| - 1;
    assert cols == cols[..n] + [cols[n]];
    if k == n {
      assert cols[n] !in cols[..n];
    } else {
      assert DistinctColumns(cols[..n]);
      MultisetCountOne(cols[..n], k);
      assert cols[..n][k] == cols[k];
    }
  }

  /** A DELETE on an existing table whose columns the filter names deletes exactly the matching rows. */
  lemma DeletePrunes(db: Db, t: string, f: Filter)
    requires IsTable(db, t) && Refs(f) <= (set c | c in db[t].columns)
    ensures Exec(db, DeleteWhere(t, f)) == Done(db[t := Table(db[t].columns, Filtered(db[t].rows, f, false))])
    ensures Pruned(db[t], Table(db[t].columns, Filtered(db[t].rows, f, false)), f)
  {
  }

  /** Deleting without a WHERE clause empties the table. */
  lemma {:induction false} DeleteAllEmpties(rows: seq<Row>)
    ensures Filtered(rows, Everything, false) == []
    decreases |rows|
  {
    if rows != [] {
      DeleteAllEmpties(rows[1..]);
    }
  }

  lemma ColumnRefs(db: Db, t: string, c: string, v: Value)
    requires HasColumn(db, t, c)
    ensures Refs(ColumnIs(c, v)) <= (set c | c in db[t].columns)
  {
  }

  /**
    Version 11: suspected oneway quests are deleted from the quest and undo tables,
    every other row stays, and the traffic flow table is emptied.
   */
  lemma UpgradeTo11Prunes(db: Db)
    requires HasColumn(db, OsmQuests, QuestType) && HasColumn(db, UndoOsmQuests, QuestType)
    requires IsTable(db, WayTrafficFlow)
    ensures var o := UpgradeTo11(db);
      && o.ok
      && Unchanged(db, o.db, {OsmQuests, UndoOsmQuests, WayTrafficFlow})
      && Pruned(db[OsmQuests], o.db[OsmQuests], ColumnIs(QuestType, Text(SuspectedOneway)))
      && Pruned(db[UndoOsmQuests], o.db[UndoOsmQuests], ColumnIs(QuestType, Text(SuspectedOneway)))
      && o.db[WayTrafficFlow] == Table(db[WayTrafficFlow].columns, [])
  {
    assert OsmQuests != UndoOsmQuests && OsmQuests != WayTrafficFlow && UndoOsmQuests != WayTrafficFlow;
    var oneway := ColumnIs(QuestType, Text(SuspectedOneway));
    ColumnRefs(db, OsmQuests, QuestType, Text(SuspectedOneway));
    DeletePrunes(db, OsmQuests, oneway);
    var d1 := Exec(db, DeleteWhere(OsmQuests, oneway)).db;
    ColumnRefs(d1, UndoOsmQuests, QuestType, Text(SuspectedOneway));
    DeletePrunes(d1, UndoOsmQuests, oneway);
    var d2 := Exec(d1, DeleteWhere(UndoOsmQuests, oneway)).db;
    DeletePrunes(d2, WayTrafficFlow, Everything);
    DeleteAllEmpties(d2[WayTrafficFlow].rows);
  }

  /**
    Version 16: quests and undo entries on relations are deleted, every other row
    stays, and the relation table is emptied.
   */
  lemma UpgradeTo16Prunes(db: Db)
    requires HasColumn(db, OsmQuests, ElementType) && HasColumn(db, UndoOsmQuests, ElementType)
    requires IsTable(db, Relations)
    ensures var o := UpgradeTo16(db);
      && o.ok
      && Unchanged(db, o.db, {OsmQuests, UndoOsmQuests, Relations})
      && Pruned(db[OsmQuests], o.db[OsmQuests], ColumnIs(ElementType, Text("RELATION")))
      && Pruned(db[UndoOsmQuests], o.db[UndoOsmQuests], ColumnIs(ElementType, Text("RELATION")))
      && o.db[Relations] == Table(db[Relations].columns, [])
  {
    assert OsmQuests != UndoOsmQuests && OsmQuests != Relations && UndoOsmQuests != Relations;
    var relation := ColumnIs(ElementType, Text("RELATION"));
    ColumnRefs(db, OsmQuests, ElementType, Text("RELATION"));
    DeletePrunes(db, OsmQuests, relation);
    var d1 := Exec(db, DeleteWhere(OsmQuests, relation)).db;
    ColumnRefs(d1, UndoOsmQuests, ElementType, Text("RELATION"));
    DeletePrunes(d1, UndoOsmQuests, relation);
    var d2 := Exec(d1, DeleteWhere(UndoOsmQuests, relation)).db;
    DeletePrunes(d2, Relations, Everything);
    DeleteAllEmpties(d2[Relations].rows);
  }

  /** Version 18: every downloaded tile is forgotten, nothing else changes. */
  lemma UpgradeTo18Clears(db: Db)
    ensures UpgradeTo18(db).ok <==> IsTable(db, DownloadedTiles)
    ensures UpgradeTo18(db).ok ==>
      && Unchanged(db, UpgradeTo18(db).db, {DownloadedTiles})
      && UpgradeTo18(db).db[DownloadedTiles] == Table(db[DownloadedTiles].columns, [])
  {
    if IsTable(db, DownloadedTiles) {
      DeleteAllEmpties(db[DownloadedTiles].rows);
    }
  }

  /**
    Version 19: the deleted element table is created empty, and reverted quests are
    deleted from the quest table while every other quest stays.
   */
  lemma UpgradeTo19Prunes(db: Db, env: Env)
    requires DeleteOsmElements !in db && HasColumn(db, OsmQuests, QuestStatus)
    ensures var o := UpgradeTo19(db, env);
      && o.ok
      && (forall n :: n in o.db <==> n in db || n == DeleteOsmElements)
      && (forall n :: n in db && n != OsmQuests ==> o.db[n] == db[n])
      && o.db[DeleteOsmElements] == Table(env.columnsOf(DeleteOsmElements), [])
      && Pruned(db[OsmQuests], o.db[OsmQuests], ColumnIs(QuestStatus, Text("REVERT")))
  {
    assert OsmQuests != DeleteOsmElements;
    var d1 := db[DeleteOsmElements := Table(env.columnsOf(DeleteOsmElements), [])];
    ColumnRefs(d1, OsmQuests, QuestStatus, Text("REVERT"));
    DeletePrunes(d1, OsmQuests, ColumnIs(QuestStatus, Text("REVERT")));
  }

  /** Version 20: quests of the five retired types are deleted, every other quest stays. */
  lemma UpgradeTo20Prunes(db: Db)
    ensures UpgradeTo20(db).ok <==> HasColumn(db, OsmQuests, QuestType)
    ensures UpgradeTo20(db).ok ==>
      && Unchanged(db, UpgradeTo20(db).db, {OsmQuests})
      && Pruned(db[OsmQuests], UpgradeTo20(db).db[OsmQuests], ColumnIn(QuestType, RetiredQuestTypes))
  {
    if HasColumn(db, OsmQuests, QuestType) {
      DeletePrunes(db, OsmQuests, ColumnIn(QuestType, RetiredQuestTypes));
    }
  }

  /**
    `after` is the table `before` with column `c` added and holding `v` in every row:
    the same rows in the same order, every other value unchanged.
   */
  ghost predicate Stamped(before: Obj, after: Obj, c: string, v: Value) {
    && before.Table? && after.Table?
    && after.columns == before.columns + [c]
    && |after.rows| == |before.rows|
    && forall i :: 0 <= i < |before.rows| ==>
         && Get(after.rows[i], c) == v
         && (forall d :: d != c ==> Get(after.rows[i], d) == Get(before.rows[i], d))
  }

  /** ALTER TABLE ... ADD COLUMN succeeds exactly on an existing table without that column, and stamps every row. */
  lemma AddColumnStamps(db: Db, t: string, c: string, v: Value)
    ensures Exec(db, AddColumn(t, c, v)).ok <==> IsTable(db, t) && c !in db[t].columns
    ensures Exec(db, AddColumn(t, c, v)).ok ==>
      && Unchanged(db, Exec(db, AddColumn(t, c, v)).db, {t})
      && Stamped(db[t], Exec(db, AddColumn(t, c, v)).db[t], c, v)
  {
  }

  /** Version 17: road names get `last_update`, holding `now` in every existing row. */
  lemma UpgradeTo17Stamps(db: Db, now: int)
    ensures UpgradeTo17(db, now).ok <==> IsTable(db, RoadNames) && LastUpdate !in db[RoadNames].columns
    ensures UpgradeTo17(db, now).ok ==>
      && Unchanged(db, UpgradeTo17(db, now).db, {RoadNames})
      && Stamped(db[RoadNames], UpgradeTo17(db, now).db[RoadNames], LastUpdate, Int(now))
  {
    AddColumnStamps(db, RoadNames, LastUpdate, Int(now));
  }

  /** The four tables that get a `last_update` column in version 21. */
  const LastUpdateTables: set<string> := {Notes, Nodes, Ways, Relations}

  /** A table of `LastUpdateTables` that can take the new column. */
  ghost predicate CanStamp(db: Db, t: string) {
    IsTable(db, t) && LastUpdate !in db[t].columns
  }

  /**
    Version 21, second part: it succeeds exactly when the note, node, way and relation
    tables exist without `last_update`; each then holds `now` there in every existing
    row, and nothing else changes.
   */
  lemma AddLastUpdatesStamps(db: Db, now: int)
    ensures AddLastUpdates(db, now).ok <==>
      CanStamp(db, Notes) && CanStamp(db, Nodes) && CanStamp(db, Ways) && CanStamp(db, Relations)
    ensures var o := AddLastUpdates(db, now);
      o.ok ==>
        && Unchanged(db, o.db, LastUpdateTables)
        && Stamped(db[Notes], o.db[Notes], LastUpdate, Int(now))
        && Stamped(db[Nodes], o.db[Nodes], LastUpdate, Int(now))
        && Stamped(db[Ways], o.db[Ways], LastUpdate, Int(now))
        && Stamped(db[Relations], o.db[Relations], LastUpdate, Int(now))
  {
    assert Notes != Nodes && Notes != Ways && Notes != Relations;
    assert Nodes != Ways && Nodes != Relations && Ways != Relations;
    var v := Int(now);
    AddColumnStamps(db, Notes, LastUpdate, v);
    var o1 := Exec(db, AddColumn(Notes, LastUpdate, v));
    if o1.ok {
      AddColumnStamps(o1.db, Nodes, LastUpdate, v);
      var o2 := Exec(o1.db, AddColumn(Nodes, LastUpdate, v));
      if o2.ok {
        AddColumnStamps(o2.db, Ways, LastUpdate, v);
        var o3 := Exec(o2.db, AddColumn(Ways, LastUpdate, v));
        if o3.ok {
          AddColumnStamps(o3.db, Relations, LastUpdate, v);
        }
      }
    }
  }

  /**
    Version 12: the split way table is created empty, and the undo table and its
    merged view are replaced by new ones, so the undo table is empty afterwards.
   */
  lemma UpgradeTo12RecreatesUndo(db: Db, env: Env)
    ensures UpgradeTo12(db, env).ok <==>
      OsmSplitWays !in db && IsTable(db, UndoOsmQuests) && IsView(db, UndoOsmQuestsView)
    ensures var o := UpgradeTo12(db, env);
      o.ok ==>
        && (forall n :: n in o.db <==> n in db || n == OsmSplitWays)
        && (forall n :: n in db && n != UndoOsmQuests && n != UndoOsmQuestsView ==> o.db[n] == db[n])
        && o.db[OsmSplitWays] == Table(env.columnsOf(OsmSplitWays), [])
        && o.db[UndoOsmQuests] == Table(env.columnsOf(UndoOsmQuests), [])
        && o.db[UndoOsmQuestsView] == View(env.columnsOf(UndoOsmQuestsView), {UndoOsmQuests, ElementsGeometry})
  {
    assert OsmSplitWays != UndoOsmQuests && OsmSplitWays != UndoOsmQuestsView && UndoOsmQuests != UndoOsmQuestsView;
  }

  /** Version 3: the open changesets table is created empty, unless a table of that name exists. */
  lemma UpgradeTo3Creates(db: Db, env: Env)
    ensures UpgradeTo3(db, env).ok <==> OpenChangesets !in db
    ensures UpgradeTo3(db, env).ok ==>
      UpgradeTo3(db, env).db == db[OpenChangesets := Table(env.columnsOf(OpenChangesets), [])]
  {
  }

  /** Version 5: note drafts get an empty `quest_title` column. */
  lemma UpgradeTo5AddsTitle(db: Db)
    ensures UpgradeTo5(db).ok <==> IsTable(db, CreateNotes) && QuestTitle !in db[CreateNotes].columns
    ensures UpgradeTo5(db).ok ==>
      && Unchanged(db, UpgradeTo5(db).db, {CreateNotes})
      && Stamped(db[CreateNotes], UpgradeTo5(db).db[CreateNotes], QuestTitle, Null)
  {
    AddColumnStamps(db, CreateNotes, QuestTitle, Null);
  }

  /** Version 6: the road names table is created empty. */
  lemma UpgradeTo6Creates(db: Db, env: Env)
    ensures UpgradeTo6(db, env).ok <==> RoadNames !in db
    ensures UpgradeTo6(db, env).ok ==>
      UpgradeTo6(db, env).db == db[RoadNames := Table(env.columnsOf(RoadNames), [])]
  {
  }

  /** Version 7: the undo table is created empty, then its merged view. */
  lemma UpgradeTo7Creates(db: Db, env: Env)
    ensures UpgradeTo7(db, env).ok <==> UndoOsmQuests !in db && UndoOsmQuestsView !in db
    ensures UpgradeTo7(db, env).ok ==>
      UpgradeTo7(db, env).db
      == db[UndoOsmQuests := Table(env.columnsOf(UndoOsmQuests), [])]
           [UndoOsmQuestsView := View(env.columnsOf(UndoOsmQuestsView), {UndoOsmQuests, ElementsGeometry})]
  {
    assert UndoOsmQuests != UndoOsmQuestsView;
  }

  /** Version 8: note drafts and note quests get an empty `image_paths` column. */
  lemma UpgradeTo8AddsImagePaths(db: Db)
    ensures UpgradeTo8(db).ok <==>
      IsTable(db, CreateNotes) && ImagePaths !in db[CreateNotes].columns
      && IsTable(db, NoteQuests) && ImagePaths !in db[NoteQuests].columns
    ensures UpgradeTo8(db).ok ==>
      && Unchanged(db, UpgradeTo8(db).db, {CreateNotes, NoteQuests})
      && Stamped(db[CreateNotes], UpgradeTo8(db).db[CreateNotes], ImagePaths, Null)
      && Stamped(db[NoteQuests], UpgradeTo8(db).db[NoteQuests], ImagePaths, Null)
  {
    assert CreateNotes != NoteQuests;
    AddColumnStamps(db, CreateNotes, ImagePaths, Null);
    var o1 := Exec(db, AddColumn(CreateNotes, ImagePaths, Null));
    if o1.ok {
      AddColumnStamps(o1.db, NoteQuests, ImagePaths, Null);
    }
  }

  /** Version 9: the quest visibility table is created empty. */
  lemma UpgradeTo9Creates(db: Db, env: Env)
    ensures UpgradeTo9(db, env).ok <==> QuestVisibility !in db
    ensures UpgradeTo9(db, env).ok ==>
      UpgradeTo9(db, env).db == db[QuestVisibility := Table(env.columnsOf(QuestVisibility), [])]
  {
  }

  /** Version 10: the traffic flow table is created empty. */
  lemma UpgradeTo10Creates(db: Db, env: Env)
    ensures UpgradeTo10(db, env).ok <==> WayTrafficFlow !in db
    ensures UpgradeTo10(db, env).ok ==>
      UpgradeTo10(db, env).db == db[WayTrafficFlow := Table(env.columnsOf(WayTrafficFlow), [])]
  {
  }

  /** Version 13: the achievement, link and new achievement tables are created empty. */
  lemma UpgradeTo13Creates(db: Db, env: Env)
    ensures UpgradeTo13(db, env).ok <==>
      UserAchievements !in db && UserLinks !in db && NewUserAchievements !in db
    ensures UpgradeTo13(db, env).ok ==>
      UpgradeTo13(db, env).db
      == db[UserAchievements := Table(env.columnsOf(UserAchievements), [])]
           [UserLinks := Table(env.columnsOf(UserLinks), [])]
           [NewUserAchievements := Table(env.columnsOf(NewUserAchievements), [])]
  {
    assert UserAchievements != UserLinks && UserAchievements != NewUserAchievements && UserLinks != NewUserAchievements;
  }

  /** Version 14: the country statistics table is created empty. */
  lemma UpgradeTo14Creates(db: Db, env: Env)
    ensures UpgradeTo14(db, env).ok <==> CountryStatistics !in db
    ensures UpgradeTo14(db, env).ok ==>
      UpgradeTo14(db, env).db == db[CountryStatistics := Table(env.columnsOf(CountryStatistics), [])]
  {
  }

  /** Version 15: split ways get an empty `quest_types_on_way` column. */
  lemma UpgradeTo15AddsQuestTypes(db: Db)
    ensures UpgradeTo15(db).ok <==> IsTable(db, OsmSplitWays) && QuestTypesOnWay !in db[OsmSplitWays].columns
    ensures UpgradeTo15(db).ok ==>
      && Unchanged(db, UpgradeTo15(db).db, {OsmSplitWays})
      && Stamped(db[OsmSplitWays], UpgradeTo15(db).db[OsmSplitWays], QuestTypesOnWay, Null)
  {
    AddColumnStamps(db, OsmSplitWays, QuestTypesOnWay, Null);
  }
}

/**
  What whole upgrades do: the blocks of `onUpgrade` composed from a given old version,
  with what each block leaves for the next one.
 */
module UpgradeRuns {
  import opened Store
  import opened Schema
  import opened Steps
  import opened StepFacts
  import opened Version21Facts
  import opened Migration

  /** The quest table rebuild, then version 3, then version 4, on a store they all succeed on. */
  function FirstBlocks(db: Db, env: Env): Outcome {
    var o2 := RebuildOsmQuests(db);
    var o3 := if o2.ok then UpgradeTo3(o2.db, env) else o2;
    if o3.ok then UpgradeTo4(o3.db, env) else o3
  }

  /** The quest table after the version-4 backfill of a table whose rows hold exactly the version-3 columns. */
  lemma BackfillRebuilt(before: Db, d3: Db, env: Env)
    requires IsTable(before, OsmQuests) && IsTable(d3, OsmQuests) && IsTable(d3, OpenChangesets)
    requires d3[OsmQuests].columns == OsmQuestsV3Columns
    requires |d3[OsmQuests].rows| == |before[OsmQuests].rows|
    requires forall i :: 0 <= i < |before[OsmQuests].rows| ==>
      && (forall c :: c in d3[OsmQuests].rows[i] <==> c in OsmQuestsV3Columns)
      && (forall c :: c in OsmQuestsV3Columns ==> d3[OsmQuests].rows[i][c] == Get(before[OsmQuests].rows[i], c))
    ensures var o := UpgradeTo4(d3, env);
      && o.ok && OsmQuests in o.db
      && var q := o.db[OsmQuests];
      && q.Table?
      && q.columns == OsmQuestsV3Columns + [ChangesSource]
      && |q.rows| == |before[OsmQuests].rows|
      && forall i :: 0 <= i < |before[OsmQuests].rows| ==>
           && Get(q.rows[i], ChangesSource) == Text("survey")
           && (forall c :: c in OsmQuestsV3Columns ==> Get(q.rows[i], c) == Get(before[OsmQuests].rows[i], c))
  {
    hide UpgradeTo4;
    V3ColumnsMatch();
    assert ChangesSource !in OsmQuestsV3Columns;
    assert OsmQuests != OpenChangesets;
    UpgradeTo4Outcome(d3, env);
    var old3 := d3[OsmQuests].rows;
    var q := WithChangesSource(d3[OsmQuests]);
    assert q == Table(OsmQuestsV3Columns + [ChangesSource], SetAll(old3, ChangesSource, Null));
    var rows := FillNull(q.rows, ChangesSource, Text("survey"));
    assert UpgradeTo4(d3, env).db[OsmQuests] == Table(q.columns, rows);
    forall i | 0 <= i < |before[OsmQuests].rows|
      ensures Get(rows[i], ChangesSource) == Text("survey")
      ensures forall c :: c in OsmQuestsV3Columns ==> Get(rows[i], c) == Get(before[OsmQuests].rows[i], c)
    {
      assert rows[i] == old3[i][ChangesSource := Null][ChangesSource := Text("survey")];
    }
  }

  /**
    The first three blocks of an upgrade from version 2 succeed on a store with a
    quest table holding the copied columns and neither an old quest table nor open
    changesets; they leave every object but these two alone.
   */
  lemma FirstBlocksSucceed(db: Db, env: Env)
    requires IsTable(db, OsmQuests) && OsmQuestsOld !in db && OpenChangesets !in db
    requires forall c :: c in OsmQuestsV3CopyColumns ==> c in db[OsmQuests].columns
    ensures var o := FirstBlocks(db, env);
      && o.ok
      && OsmQuestsOld !in o.db
      && OpenChangesets in o.db && o.db[OpenChangesets] == Table(env.columnsOf(OpenChangesets), [])
      && (forall n :: n != OsmQuests && n != OpenChangesets ==>
            (n in o.db <==> n in db) && (n in db ==> o.db[n] == db[n]))
      && OsmQuests in o.db && o.db[OsmQuests].Table?
      && o.db[OsmQuests].columns == OsmQuestsV3Columns + [ChangesSource]
      && |o.db[OsmQuests].rows| == |db[OsmQuests].rows|
      && forall i :: 0 <= i < |db[OsmQuests].rows| ==>
           && Get(o.db[OsmQuests].rows[i], ChangesSource) == Text("survey")
           && (forall c :: c in OsmQuestsV3Columns ==> Get(o.db[OsmQuests].rows[i], c) == Get(db[OsmQuests].rows[i], c))
  {
    hide RebuildOsmQuests, UpgradeTo3, UpgradeTo4;
    RebuildKeepsEveryRow(db);
    var d2 := RebuildOsmQuests(db).db;
    UpgradeTo3Creates(d2, env);
    var d3 := UpgradeTo3(d2, env).db;
    assert OsmQuests != OpenChangesets && OsmQuestsOld != OpenChangesets;
    assert d3[OsmQuests] == d2[OsmQuests];
    BackfillRebuilt(db, d3, env);
    hide FillNull, WithChangesSource;
    UpgradeTo4Outcome(d3, env);
  }

  /**
    Upgrading from version 2 to version 4 runs the quest table rebuild, creates the
    open changesets table and then marks every quest as surveyed: the rebuilt quest
    table keeps one row per old row, in order, with the old values of the version-3
    columns, and `changes_source` is 'survey' in every row, since the rebuild copies no
    source. The open changesets table ends empty, and no other object changes.
   */
  lemma UpgradeFrom2To4(db: Db, env: Env, now: int)
    requires IsTable(db, OsmQuests) && OsmQuestsOld !in db && OpenChangesets !in db
    requires forall c :: c in OsmQuestsV3CopyColumns ==> c in db[OsmQuests].columns
    ensures Upgrade(db, env, now, 2, 4) == FirstBlocks(db, env)
    ensures var o := Upgrade(db, env, now, 2, 4);
      && o.ok
      && OsmQuestsOld !in o.db
      && OpenChangesets in o.db && o.db[OpenChangesets] == Table(env.columnsOf(OpenChangesets), [])
      && (forall n :: n != OsmQuests && n != OpenChangesets ==>
            (n in o.db <==> n in db) && (n in db ==> o.db[n] == db[n]))
      && OsmQuests in o.db && o.db[OsmQuests].Table?
      && o.db[OsmQuests].columns == OsmQuestsV3Columns + [ChangesSource]
      && |o.db[OsmQuests].rows| == |db[OsmQuests].rows|
      && forall i :: 0 <= i < |db[OsmQuests].rows| ==>
           && Get(o.db[OsmQuests].rows[i], ChangesSource) == Text("survey")
           && (forall c :: c in OsmQuestsV3Columns ==> Get(o.db[OsmQuests].rows[i], c) == Get(db[OsmQuests].rows[i], c))
  {
    hide Block, RebuildOsmQuests, UpgradeTo3, UpgradeTo4;
    UpgradeThroughSkips(db, env, now, 2, 4, 4, DbVersion);
    assert UpgradeThrough(db, env, now, 2, 4, 1) == Done(db);
    BlockAt2(db, env, now);
    var o2 := RebuildOsmQuests(db);
    BlockAt3(o2.db, env, now);
    var o3 := if o2.ok then UpgradeTo3(o2.db, env) else o2;
    BlockAt4(o3.db, env, now);
    assert UpgradeThrough(db, env, now, 2, 4, 3) == o3;
    FirstBlocksSucceed(db, env);
  }

  /** What version 21 reads: the element geometry, the four tables it stamps, and the note quest split's objects. */
  ghost predicate ReadyFor21(db: Db) {
    && IsTable(db, ElementsGeometry)
    && CanStamp(db, Notes) && CanStamp(db, Nodes) && CanStamp(db, Ways) && CanStamp(db, Relations)
    && ReadyToSplit(db)
  }

  ghost predicate ReadyFor20(db: Db) {
    ReadyFor21(db) && HasColumn(db, OsmQuests, QuestType)
  }

  ghost predicate ReadyFor19(db: Db) {
    ReadyFor20(db) && HasColumn(db, OsmQuests, QuestStatus) && DeleteOsmElements !in db
  }

  ghost predicate ReadyFor18(db: Db) {
    ReadyFor19(db) && IsTable(db, DownloadedTiles)
  }

  ghost predicate ReadyFor17(db: Db) {
    ReadyFor18(db) && IsTable(db, RoadNames) && LastUpdate !in db[RoadNames].columns
  }

  /**
    A version-15 store with what the blocks 16 to 21 read: the quest and undo tables
    with the columns the deletions name, the relation, road name and tile tables, no
    deleted element table yet, and what version 21 reads.
   */
  ghost predicate ReadyFor16(db: Db) {
    ReadyFor17(db) && HasColumn(db, OsmQuests, ElementType) && HasColumn(db, UndoOsmQuests, ElementType)
  }

  /** The legacy note quest table and its view are the same in both stores. */
  ghost predicate SameNoteQuests(a: Db, b: Db) {
    && NoteQuests in a && NoteQuests in b && a[NoteQuests] == b[NoteQuests]
    && NoteQuestsFull in a && NoteQuestsFull in b && a[NoteQuestsFull] == b[NoteQuestsFull]
  }

  lemma Block16Keeps(db: Db, env: Env, now: int)
    requires ReadyFor16(db)
    ensures var o := Block(16, db, env, now); o.ok && ReadyFor17(o.db) && SameNoteQuests(db, o.db)
  {
    hide Block, UpgradeTo16;
    BlockAt16(db, env, now);
    UpgradeTo16Prunes(db);
    var touched := {OsmQuests, UndoOsmQuests, Relations};
    assert ElementsGeometry !in touched && Notes !in touched && Nodes !in touched && Ways !in touched;
    assert NoteQuestsFull !in touched && NoteQuests !in touched && CommentNotes !in touched;
    assert NoteQuestsHidden !in touched && OsmSplitWays !in touched && DeleteOsmElements !in touched;
    assert DownloadedTiles !in touched && RoadNames !in touched;
  }

  lemma Block17Keeps(db: Db, env: Env, now: int)
    requires ReadyFor17(db)
    ensures var o := Block(17, db, env, now); o.ok && ReadyFor18(o.db) && SameNoteQuests(db, o.db)
  {
    hide Block, UpgradeTo17;
    BlockAt17(db, env, now);
    UpgradeTo17Stamps(db, now);
    assert ElementsGeometry != RoadNames && Notes != RoadNames && Nodes != RoadNames && Ways != RoadNames;
    assert Relations != RoadNames && NoteQuestsFull != RoadNames && NoteQuests != RoadNames;
    assert CommentNotes != RoadNames && NoteQuestsHidden != RoadNames && OsmSplitWays != RoadNames;
    assert OsmQuests != RoadNames && DownloadedTiles != RoadNames && DeleteOsmElements != RoadNames;
  }

  lemma Block18Keeps(db: Db, env: Env, now: int)
    requires ReadyFor18(db)
    ensures var o := Block(18, db, env, now); o.ok && ReadyFor19(o.db) && SameNoteQuests(db, o.db)
  {
    hide Block, UpgradeTo18;
    BlockAt18(db, env, now);
    UpgradeTo18Clears(db);
    assert ElementsGeometry != DownloadedTiles && Notes != DownloadedTiles && Nodes != DownloadedTiles;
    assert Ways != DownloadedTiles && Relations != DownloadedTiles && NoteQuestsFull != DownloadedTiles;
    assert NoteQuests != DownloadedTiles && CommentNotes != DownloadedTiles && NoteQuestsHidden != DownloadedTiles;
    assert OsmSplitWays != DownloadedTiles && OsmQuests != DownloadedTiles;
  }

  lemma Block19Keeps(db: Db, env: Env, now: int)
    requires ReadyFor19(db)
    ensures var o := Block(19, db, env, now); o.ok && ReadyFor20(o.db) && SameNoteQuests(db, o.db)
  {
    hide Block, UpgradeTo19;
    BlockAt19(db, env, now);
    UpgradeTo19Prunes(db, env);
    assert ElementsGeometry != OsmQuests && Notes != OsmQuests && Nodes != OsmQuests && Ways != OsmQuests;
    assert Relations != OsmQuests && NoteQuestsFull != OsmQuests && NoteQuests != OsmQuests;
    assert OsmSplitWays != OsmQuests;
    assert CommentNotes != DeleteOsmElements && NoteQuestsHidden != DeleteOsmElements;
  }

  lemma Block20Keeps(db: Db, env: Env, now: int)
    requires ReadyFor20(db)
    ensures var o := Block(20, db, env, now); o.ok && ReadyFor21(o.db) && SameNoteQuests(db, o.db)
  {
    hide Block, UpgradeTo20;
    BlockAt20(db, env, now);
    UpgradeTo20Prunes(db);
    assert ElementsGeometry != OsmQuests && Notes != OsmQuests && Nodes != OsmQuests && Ways != OsmQuests;
    assert Relations != OsmQuests && NoteQuestsFull != OsmQuests && NoteQuests != OsmQuests;
    assert OsmSplitWays != OsmQuests;
  }

  /**
    Upgrading from version 15 to version 21 on a store that has what the blocks read
    succeeds and splits the legacy note quests: the comment note table holds one row
    per ANSWERED quest of the note quest view and nothing else, in the view's order;
    the hidden note quest table holds the note id of each HIDDEN quest of the legacy
    table as it was before the upgrade, and nothing else, in table order; the legacy
    table and its view are gone. The view is read on `mid`, the store as it stands
    when version 21 queries it; blocks 16 to 20 and the first two parts of version
    21 leave the legacy table and the view as they were.
   */
  lemma UpgradeFrom15To21(db: Db, env: Env, now: int)
    requires ReadyFor16(db)
    ensures var o := Upgrade(db, env, now, 15, 21);
      var mid := PrepareNoteSplit(UpgradeThrough(db, env, now, 15, 21, 20).db, env, now).db;
      var quests := env.viewRows(NoteQuestsFull, mid);
      var answered := Filtered(quests, AnsweredFilter, true);
      var legacy := db[NoteQuests].rows;
      var hidden := Filtered(legacy, HiddenFilter, true);
      && o.ok
      && SameNoteQuests(db, mid)
      && NoteQuestsFull !in o.db && NoteQuests !in o.db
      && CommentNotes in o.db && o.db[CommentNotes].Table?
      && o.db[CommentNotes].columns == env.columnsOf(CommentNotes)
      && |o.db[CommentNotes].rows| == |answered|
      && (forall i :: 0 <= i < |answered| ==>
            o.db[CommentNotes].rows[i] == env.commentNoteValues(ToCommentNote(answered[i], env)))
      && (forall r :: multiset(answered)[r] == if Get(r, QuestStatus) == Text("ANSWERED") then multiset(quests)[r] else 0)
      && NoteQuestsHidden in o.db && o.db[NoteQuestsHidden].Table?
      && o.db[NoteQuestsHidden].columns == env.columnsOf(NoteQuestsHidden)
      && |o.db[NoteQuestsHidden].rows| == |hidden|
      && (forall i :: 0 <= i < |hidden| ==> o.db[NoteQuestsHidden].rows[i] == map[NoteId := Get(hidden[i], NoteId)])
      && (forall r :: multiset(hidden)[r] == if Get(r, QuestStatus) == Text("HIDDEN") then multiset(legacy)[r] else 0)
  {
    hide Block, UpgradeTo21, PrepareNoteSplit, SplitResult;
    UpgradeThroughSkips(db, env, now, 15, 21, 1, 15);
    assert UpgradeThrough(db, env, now, 15, 21, 1) == Done(db);
    Block16Keeps(db, env, now);
    var d16 := Block(16, db, env, now).db;
    assert UpgradeThrough(db, env, now, 15, 21, 16) == Done(d16);
    Block17Keeps(d16, env, now);
    var d17 := Block(17, d16, env, now).db;
    assert UpgradeThrough(db, env, now, 15, 21, 17) == Done(d17);
    Block18Keeps(d17, env, now);
    var d18 := Block(18, d17, env, now).db;
    assert UpgradeThrough(db, env, now, 15, 21, 18) == Done(d18);
    Block19Keeps(d18, env, now);
    var d19 := Block(19, d18, env, now).db;
    assert UpgradeThrough(db, env, now, 15, 21, 19) == Done(d19);
    Block20Keeps(d19, env, now);
    var d20 := Block(20, d19, env, now).db;
    assert UpgradeThrough(db, env, now, 15, 21, 20) == Done(d20);
    BlockAt21(d20, env, now);
    UpgradeTo21Succeeds(d20, env, now);
    PrepareNoteSplitFrame(d20, env, now);
    var mid := PrepareNoteSplit(d20, env, now).db;
    assert NoteQuests !in {ElementsGeometry, Notes, Nodes, Ways, Relations};
    assert NoteQuestsFull !in {ElementsGeometry, Notes, Nodes, Ways, Relations};
    assert SameNoteQuests(db, mid);
    SplitNoteQuestsFrame(mid, env);
    SplitNoteQuestsMovesAnswered(mid, env);
    SplitNoteQuestsMovesHidden(mid, env);
  }

  /** When `o` succeeded, object `n` is in `o`'s store exactly when it was in `before`, and unchanged. */
  ghost predicate Keeps(before: Db, o: Outcome, n: string) {
    o.ok ==> (n in o.db <==> n in before) && (n in before ==> o.db[n] == before[n])
  }

  /** Blocks 2 to 5 leave the road name table alone. */
  lemma EarlyBlocksKeepRoadNames(v: int, db: Db, env: Env, now: int)
    requires 2 <= v <= 5
    ensures Keeps(db, Block(v, db, env, now), RoadNames)
  {
    hide Block, Filtered, FillNull, SetAll, ProjectAll, Put;
    if v == 2 {
      BlockAt2(db, env, now);
      RebuildKeepsEveryRow(db);
      assert RoadNames != OsmQuests;
    } else if v == 3 {
      hide UpgradeTo3;
      BlockAt3(db, env, now);
      UpgradeTo3Creates(db, env);
    } else if v == 4 {
      BlockAt4(db, env, now);
    } else {
      hide UpgradeTo5;
      BlockAt5(db, env, now);
      UpgradeTo5AddsTitle(db);
    }
  }

  /** Blocks 7 to 11 leave the road name table alone. */
  lemma MiddleBlocksKeepRoadNames(v: int, db: Db, env: Env, now: int)
    requires 7 <= v <= 11
    ensures Keeps(db, Block(v, db, env, now), RoadNames)
  {
    hide Block, Filtered, FillNull, SetAll, ProjectAll, Put;
    if v == 7 {
      hide UpgradeTo7;
      BlockAt7(db, env, now);
      UpgradeTo7Creates(db, env);
    } else if v == 8 {
      hide UpgradeTo8;
      BlockAt8(db, env, now);
      UpgradeTo8AddsImagePaths(db);
    } else if v == 9 {
      hide UpgradeTo9;
      BlockAt9(db, env, now);
      UpgradeTo9Creates(db, env);
    } else if v == 10 {
      hide UpgradeTo10;
      BlockAt10(db, env, now);
      UpgradeTo10Creates(db, env);
    } else {
      BlockAt11(db, env, now);
    }
  }

  /** Blocks 12 to 16 leave the road name table alone. */
  lemma LateBlocksKeepRoadNames(v: int, db: Db, env: Env, now: int)
    requires 12 <= v <= 16
    ensures Keeps(db, Block(v, db, env, now), RoadNames)
  {
    hide Block, Filtered, FillNull, SetAll, ProjectAll, Put;
    if v == 12 {
      hide UpgradeTo12;
      BlockAt12(db, env, now);
      UpgradeTo12RecreatesUndo(db, env);
    } else if v == 13 {
      hide UpgradeTo13;
      BlockAt13(db, env, now);
      UpgradeTo13Creates(db, env);
    } else if v == 14 {
      hide UpgradeTo14;
      BlockAt14(db, env, now);
      UpgradeTo14Creates(db, env);
    } else if v == 15 {
      hide UpgradeTo15;
      BlockAt15(db, env, now);
      UpgradeTo15AddsQuestTypes(db);
    } else {
      BlockAt16(db, env, now);
    }
  }

  /** Only blocks 6 and 17 touch the road name table. */
  lemma BlockKeepsRoadNames(v: int, db: Db, env: Env, now: int)
    requires 2 <= v <= 16 && v != 6
    ensures Keeps(db, Block(v, db, env, now), RoadNames)
  {
    if v <= 5 {
      EarlyBlocksKeepRoadNames(v, db, env, now);
    } else if v <= 11 {
      MiddleBlocksKeepRoadNames(v, db, env, now);
    } else {
      LateBlocksKeepRoadNames(v, db, env, now);
    }
  }

  /** Between two gates with no block 6 in between, a successful upgrade leaves the road name table as it was. */
  lemma {:induction false} UpgradeThroughKeepsRoadNames(db: Db, env: Env, now: int, oldVersion: int, newVersion: int, a: int, w: int)
    requires 1 <= a <= w <= 16 && (a >= 6 || w < 6)
    ensures var o := UpgradeThrough(db, env, now, oldVersion, newVersion, w);
      o.ok ==> UpgradeThrough(db, env, now, oldVersion, newVersion, a).ok
               && Keeps(UpgradeThrough(db, env, now, oldVersion, newVersion, a).db, o, RoadNames)
    decreases w
  {
    hide Block;
    if w > a {
      UpgradeThroughKeepsRoadNames(db, env, now, oldVersion, newVersion, a, w - 1);
      var prev := UpgradeThrough(db, env, now, oldVersion, newVersion, w - 1);
      if Fires(w, oldVersion, newVersion) && prev.ok {
        BlockKeepsRoadNames(w, prev.db, env, now);
      }
    }
  }

  /**
    An upgrade from before version 6 to version 17 or later creates the road name
    table in block 6 with the registry's current columns, and block 17 then adds
    `last_update` to it. When the registry's table already declares `last_update`,
    block 17 raises an SQL error and the upgrade fails, whatever the store holds.
   */
  lemma UpgradeFromBefore6To17Fails(db: Db, env: Env, now: int, oldVersion: int, newVersion: int)
    requires oldVersion < 6 && newVersion >= 17
    requires RoadNames !in db && LastUpdate in env.columnsOf(RoadNames)
    ensures !Upgrade(db, env, now, oldVersion, newVersion).ok
  {
    hide Block;
    assert UpgradeThrough(db, env, now, oldVersion, newVersion, 1) == Done(db);
    UpgradeThroughKeepsRoadNames(db, env, now, oldVersion, newVersion, 1, 5);
    var o5 := UpgradeThrough(db, env, now, oldVersion, newVersion, 5);
    if !o5.ok {
      UpgradeThroughStops(db, env, now, oldVersion, newVersion, 5, DbVersion);
    } else {
      BlockAt6(o5.db, env, now);
      UpgradeTo6Creates(o5.db, env);
      UpgradeThroughKeepsRoadNames(db, env, now, oldVersion, newVersion, 6, 16);
      var o16 := UpgradeThrough(db, env, now, oldVersion, newVersion, 16);
      if !o16.ok {
        UpgradeThroughStops(db, env, now, oldVersion, newVersion, 16, DbVersion);
      } else {
        BlockAt17(o16.db, env, now);
        UpgradeTo17Stamps(o16.db, now);
        UpgradeThroughStops(db, env, now, oldVersion, newVersion, 17, DbVersion);
      }
    }
  }
}

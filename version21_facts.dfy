/**
  What version 21 guarantees: the element geometry rebuild loses no entry except those
  a later entry with the same key replaces, the four new `last_update` columns hold
  the migration time, and the legacy note quest table is split into comment notes
  (the answered quests) and hidden note quests (the hidden ones).
 */
module Version21Facts {
  import opened Store
  import opened StoreLemmas
  import opened Schema
  import opened Steps
  import opened StepFacts

  /** The store after the element geometry rebuild, when it succeeds. */
  lemma RebuildElementGeometryOutcome(db: Db, env: Env)
    ensures RebuildElementGeometry(db, env).ok <==> IsTable(db, ElementsGeometry)
    ensures RebuildElementGeometry(db, env).ok ==>
      RebuildElementGeometry(db, env).db
      == db[ElementsGeometry := Table(env.columnsOf(ElementsGeometry),
                                      ReplaceRows([], GeometryRows(db[ElementsGeometry].rows, env), GeometryKey))]
  {
    if ElementsGeometry in db {
      var rows := if db[ElementsGeometry].Table? then db[ElementsGeometry].rows else env.viewRows(ElementsGeometry, db);
      SelectAllKeeps(rows);
      assert Select(db, env.viewRows, ElementsGeometry, None, Everything) == Ok(rows);
      var o := Then(Exec(db, DropTable(ElementsGeometry)), CreateTableOf(ElementsGeometry, env.columnsOf));
      if IsTable(db, ElementsGeometry) {
        var d2 := db[ElementsGeometry := Table(env.columnsOf(ElementsGeometry), [])];
        assert o == Done(d2);
        ReplaceEachPuts(d2, ElementsGeometry, GeometryRows(rows, env), GeometryKey);
      } else {
        ReplaceEachStops(o, ElementsGeometry, GeometryRows(rows, env), GeometryKey);
      }
    }
  }

  /**
    The element geometry rebuild succeeds on an existing table and leaves it with the
    registry's new columns; its rows are the snapshot entries re-inserted with INSERT
    OR REPLACE: no two share an element key, a snapshot entry survives exactly when no
    later entry has its key, and when the snapshot keys are distinct every entry
    survives, in order. Nothing else changes.
   */
  lemma RebuildElementGeometryCollapses(db: Db, env: Env)
    requires IsTable(db, ElementsGeometry)
    ensures var o := RebuildElementGeometry(db, env);
      var snapshot := GeometryRows(db[ElementsGeometry].rows, env);
      && o.ok
      && Unchanged(db, o.db, {ElementsGeometry})
      && o.db[ElementsGeometry].Table?
      && o.db[ElementsGeometry].columns == env.columnsOf(ElementsGeometry)
      && UniqueKeys(o.db[ElementsGeometry].rows, GeometryKey)
      && (forall r :: r in o.db[ElementsGeometry].rows <==> Live(snapshot, r, GeometryKey))
      && ((forall i, j :: 0 <= i < j < |snapshot| ==> KeyOf(snapshot[i], GeometryKey) != KeyOf(snapshot[j], GeometryKey))
          ==> o.db[ElementsGeometry].rows == snapshot)
  {
    var snapshot := GeometryRows(db[ElementsGeometry].rows, env);
    RebuildElementGeometryOutcome(db, env);
    ReplaceRowsUnique(snapshot, GeometryKey);
    ReplaceRowsLive(snapshot, GeometryKey);
    if forall i, j :: 0 <= i < j < |snapshot| ==> KeyOf(snapshot[i], GeometryKey) != KeyOf(snapshot[j], GeometryKey) {
      ReplaceRowsDistinct(snapshot, GeometryKey);
    }
  }

  /** The comment note step on a store that has the view and no comment note table. */
  lemma MoveAnsweredOutcome(db: Db, env: Env, f: Filter)
    requires IsView(db, NoteQuestsFull) && Refs(f) <= (set c | c in db[NoteQuestsFull].columns)
    requires CommentNotes !in db
    ensures MoveAnsweredNoteQuests(db, env, f)
         == Done(db[CommentNotes := Table(env.columnsOf(CommentNotes),
                                          CommentNoteRows(Filtered(env.viewRows(NoteQuestsFull, db), f, true), env))])
  {
    SelectView(db, env.viewRows, NoteQuestsFull, f);
    CreateAndInsert(db, CommentNotes, env.columnsOf(CommentNotes),
                    CommentNoteRows(Filtered(env.viewRows(NoteQuestsFull, db), f, true), env));
  }

  /** The comment note query fails, and with it the step, when its filter names a column the view lacks. */
  lemma MoveAnsweredFails(db: Db, env: Env, f: Filter)
    requires IsView(db, NoteQuestsFull) && !(Refs(f) <= (set c | c in db[NoteQuestsFull].columns))
    ensures !MoveAnsweredNoteQuests(db, env, f).ok
  {
  }

  /** Reading `note_id` from a row projected onto `note_id` reads the row's own `note_id`. */
  lemma HiddenRowsOfProjection(rows: seq<Row>)
    ensures HiddenRows(ProjectAll(rows, [NoteId])) == HiddenRows(rows)
  {
    assert forall i :: 0 <= i < |rows| ==> HiddenRow(Project(rows[i], [NoteId])) == HiddenRow(rows[i]);
  }

  /** The hidden note quest step on a store that has the legacy table and no hidden note table. */
  lemma MoveHiddenOutcome(db: Db, env: Env, f: Filter)
    requires IsTable(db, NoteQuests) && Refs(f) <= (set c | c in db[NoteQuests].columns)
    requires NoteId in db[NoteQuests].columns && NoteQuestsHidden !in db
    ensures MoveHiddenNoteQuests(db, env, f)
         == Done(db[NoteQuestsHidden := Table(env.columnsOf(NoteQuestsHidden),
                                              HiddenRows(Filtered(db[NoteQuests].rows, f, true)))])
  {
    var selected := Filtered(db[NoteQuests].rows, f, true);
    SelectColumns(db, env.viewRows, NoteQuests, [NoteId], f);
    HiddenRowsOfProjection(selected);
    CreateAndInsert(db, NoteQuestsHidden, env.columnsOf(NoteQuestsHidden), HiddenRows(selected));
  }

  /** The last part of version 21 on a store that has the legacy view and table and the split way table. */
  lemma DropLegacyOutcome(db: Db, env: Env)
    requires IsView(db, NoteQuestsFull) && IsTable(db, NoteQuests) && IsTable(db, OsmSplitWays)
    ensures DropLegacyTables(db, env)
         == Done((db - {NoteQuestsFull, NoteQuests})[OsmSplitWays := Table(env.columnsOf(OsmSplitWays), [])])
  {
    assert NoteQuestsFull != NoteQuests && NoteQuestsFull != OsmSplitWays && NoteQuests != OsmSplitWays;
    assert db - {NoteQuestsFull} - {NoteQuests} == db - {NoteQuestsFull, NoteQuests};
  }

  /** What the note quest split needs of the store it starts from. */
  ghost predicate ReadyToSplit(db: Db) {
    && IsView(db, NoteQuestsFull) && QuestStatus in db[NoteQuestsFull].columns
    && IsTable(db, NoteQuests) && QuestStatus in db[NoteQuests].columns && NoteId in db[NoteQuests].columns
    && CommentNotes !in db && NoteQuestsHidden !in db
    && IsTable(db, OsmSplitWays)
  }

  /** The store the note quest split leaves, with the intended status filters. */
  function SplitResult(db: Db, env: Env): Db
    requires IsTable(db, NoteQuests)
  {
    var answered := Filtered(env.viewRows(NoteQuestsFull, db), AnsweredFilter, true);
    var hidden := Filtered(db[NoteQuests].rows, HiddenFilter, true);
    (db[CommentNotes := Table(env.columnsOf(CommentNotes), CommentNoteRows(answered, env))]
       [NoteQuestsHidden := Table(env.columnsOf(NoteQuestsHidden), HiddenRows(hidden))]
     - {NoteQuestsFull, NoteQuests})
    [OsmSplitWays := Table(env.columnsOf(OsmSplitWays), [])]
  }

  /** On a store that has what it reads, the note quest split succeeds and leaves `SplitResult`. */
  lemma SplitNoteQuestsOutcome(db: Db, env: Env)
    requires ReadyToSplit(db)
    ensures SplitNoteQuests(db, env, AnsweredFilter, HiddenFilter) == Done(SplitResult(db, env))
  {
    assert CommentNotes != NoteQuests && CommentNotes != NoteQuestsFull && CommentNotes != OsmSplitWays;
    assert NoteQuestsHidden != NoteQuests && NoteQuestsHidden != NoteQuestsFull && NoteQuestsHidden != OsmSplitWays;
    assert CommentNotes != NoteQuestsHidden;
    MoveAnsweredOutcome(db, env, AnsweredFilter);
    var d1 := MoveAnsweredNoteQuests(db, env, AnsweredFilter).db;
    MoveHiddenOutcome(d1, env, HiddenFilter);
    var d2 := MoveHiddenNoteQuests(d1, env, HiddenFilter).db;
    DropLegacyOutcome(d2, env);
  }

  /** A status filter keeps exactly the rows whose `quest_status` is that status, each as often as before. */
  lemma StatusFilterSelects(rows: seq<Row>, status: string)
    ensures var kept := Filtered(rows, ColumnIs(QuestStatus, Text(status)), true);
      forall r :: multiset(kept)[r] == if Get(r, QuestStatus) == Text(status) then multiset(rows)[r] else 0
  {
    var kept := Filtered(rows, ColumnIs(QuestStatus, Text(status)), true);
    forall r ensures multiset(kept)[r] == if Get(r, QuestStatus) == Text(status) then multiset(rows)[r] else 0 {
      assert Matches(r, ColumnIs(QuestStatus, Text(status))) <==> Get(r, QuestStatus) == Text(status);
    }
  }

  /**
    The split removes the legacy note quest table and its view, recreates the split
    way table empty, and leaves every name other than these and the two tables it
    fills alone.
   */
  lemma SplitNoteQuestsFrame(db: Db, env: Env)
    requires IsTable(db, NoteQuests)
    ensures var d := SplitResult(db, env);
      && NoteQuestsFull !in d && NoteQuests !in d
      && d[OsmSplitWays] == Table(env.columnsOf(OsmSplitWays), [])
      && (forall n :: n != NoteQuestsFull && n != NoteQuests && n != CommentNotes && n != NoteQuestsHidden && n != OsmSplitWays ==>
            (n in d <==> n in db) && (n in db ==> d[n] == db[n]))
  {
    var answered := Filtered(env.viewRows(NoteQuestsFull, db), AnsweredFilter, true);
    var hidden := Filtered(db[NoteQuests].rows, HiddenFilter, true);
    SplitShapeFrame(db, CommentNotes, NoteQuestsHidden, NoteQuestsFull, NoteQuests, OsmSplitWays,
      Table(env.columnsOf(CommentNotes), CommentNoteRows(answered, env)),
      Table(env.columnsOf(NoteQuestsHidden), HiddenRows(hidden)),
      Table(env.columnsOf(OsmSplitWays), []));
  }

  /** Two writes, two drops and one more write leave every other name alone. */
  lemma SplitShapeFrame(db: Db, a: string, b: string, c: string, e: string, f: string, x: Obj, y: Obj, z: Obj)
    ensures var d := (db[a := x][b := y] - {c, e})[f := z];
      forall n :: n != a && n != b && n != c && n != e && n != f ==>
        (n in d <==> n in db) && (n in db ==> d[n] == db[n])
  {
  }

  /**
    Every answered note quest of the view, and nothing else, becomes one comment note,
    in the order the view lists them.
   */
  lemma SplitNoteQuestsMovesAnswered(db: Db, env: Env)
    requires IsTable(db, NoteQuests)
    ensures var d := SplitResult(db, env);
      var quests := env.viewRows(NoteQuestsFull, db);
      var answered := Filtered(quests, AnsweredFilter, true);
      && CommentNotes in d && d[CommentNotes].Table?
      && d[CommentNotes].columns == env.columnsOf(CommentNotes)
      && |d[CommentNotes].rows| == |answered|
      && (forall i :: 0 <= i < |answered| ==>
            d[CommentNotes].rows[i] == env.commentNoteValues(ToCommentNote(answered[i], env)))
      && (forall r :: multiset(answered)[r] == if Get(r, QuestStatus) == Text("ANSWERED") then multiset(quests)[r] else 0)
  {
    assert CommentNotes != NoteQuests && CommentNotes != NoteQuestsFull && CommentNotes != OsmSplitWays;
    assert CommentNotes != NoteQuestsHidden;
    StatusFilterSelects(env.viewRows(NoteQuestsFull, db), "ANSWERED");
  }

  /**
    Every hidden note quest of the legacy table, and nothing else, becomes one row of
    the hidden note quest table holding only its note id, in table order.
   */
  lemma SplitNoteQuestsMovesHidden(db: Db, env: Env)
    requires IsTable(db, NoteQuests)
    ensures var d := SplitResult(db, env);
      var legacy := db[NoteQuests].rows;
      var hidden := Filtered(legacy, HiddenFilter, true);
      && NoteQuestsHidden in d && d[NoteQuestsHidden].Table?
      && d[NoteQuestsHidden].columns == env.columnsOf(NoteQuestsHidden)
      && |d[NoteQuestsHidden].rows| == |hidden|
      && (forall i :: 0 <= i < |hidden| ==> d[NoteQuestsHidden].rows[i] == map[NoteId := Get(hidden[i], NoteId)])
      && (forall r :: multiset(hidden)[r] == if Get(r, QuestStatus) == Text("HIDDEN") then multiset(legacy)[r] else 0)
  {
    assert NoteQuestsHidden != NoteQuests && NoteQuestsHidden != NoteQuestsFull && NoteQuestsHidden != OsmSplitWays;
    StatusFilterSelects(db[NoteQuests].rows, "HIDDEN");
  }

  /** The first two parts of version 21 touch only the element geometry and the four stamped tables. */
  lemma PrepareNoteSplitFrame(db: Db, env: Env, now: int)
    ensures PrepareNoteSplit(db, env, now).ok <==>
      IsTable(db, ElementsGeometry)
      && CanStamp(db, Notes) && CanStamp(db, Nodes) && CanStamp(db, Ways) && CanStamp(db, Relations)
    ensures PrepareNoteSplit(db, env, now).ok ==>
      Unchanged(db, PrepareNoteSplit(db, env, now).db, {ElementsGeometry, Notes, Nodes, Ways, Relations})
  {
    hide RebuildElementGeometry, AddLastUpdates, Stamped, ReplaceRows, GeometryRows;
    RebuildElementGeometryOutcome(db, env);
    var o1 := RebuildElementGeometry(db, env);
    if o1.ok {
      assert ElementsGeometry !in LastUpdateTables;
      AddLastUpdatesStamps(o1.db, now);
    }
  }

  /** The first two parts of version 21 leave what the note quest split reads. */
  lemma FrameKeepsReady(db: Db, mid: Db)
    requires ReadyToSplit(db) && Unchanged(db, mid, {ElementsGeometry, Notes, Nodes, Ways, Relations})
    ensures ReadyToSplit(mid)
  {
    assert NoteQuestsFull !in {ElementsGeometry, Notes, Nodes, Ways, Relations};
    assert NoteQuests !in {ElementsGeometry, Notes, Nodes, Ways, Relations};
    assert OsmSplitWays !in {ElementsGeometry, Notes, Nodes, Ways, Relations};
  }

  /**
    Version 21 with the intended filters succeeds on a store that has what it reads,
    and ends with the note quest split of the store its first two parts leave.
   */
  lemma UpgradeTo21Succeeds(db: Db, env: Env, now: int)
    requires IsTable(db, ElementsGeometry)
    requires CanStamp(db, Notes) && CanStamp(db, Nodes) && CanStamp(db, Ways) && CanStamp(db, Relations)
    requires ReadyToSplit(db)
    ensures var mid := PrepareNoteSplit(db, env, now);
      && mid.ok
      && ReadyToSplit(mid.db)
      && UpgradeTo21(db, env, now) == Done(SplitResult(mid.db, env))
  {
    PrepareNoteSplitFrame(db, env, now);
    var mid := PrepareNoteSplit(db, env, now).db;
    FrameKeepsReady(db, mid);
    SplitNoteQuestsOutcome(mid, env);
  }

  /**
    As written, the answered note query compares `quest_status` with a column named
    ANSWERED. On a store whose note quest view has no such column, version 21 raises
    an error and the upgrade aborts, whatever the rest of the store holds.
   */
  lemma AsWrittenStatusQueryFails(db: Db, env: Env, now: int)
    requires IsView(db, NoteQuestsFull) && "ANSWERED" !in db[NoteQuestsFull].columns
    ensures !UpgradeTo21AsWritten(db, env, now).ok
  {
    PrepareNoteSplitFrame(db, env, now);
    var mid := PrepareNoteSplit(db, env, now);
    if mid.ok {
      assert NoteQuestsFull !in {ElementsGeometry, Notes, Nodes, Ways, Relations};
      assert mid.db[NoteQuestsFull] == db[NoteQuestsFull];
      assert "ANSWERED" in Refs(AnsweredFilterAsWritten);
      MoveAnsweredFails(mid.db, env, AnsweredFilterAsWritten);
    }
  }
}

/**
  What each version-gated block of `onUpgrade` does to the store, one function per
  block. A block is the run of statements the source issues, in the same order; the
  first statement that raises an SQL error aborts the block (and, with it, the whole
  upgrade), which the `ok` flag of the returned `Outcome` records.
 */
module Steps {
  import opened Store
  import opened Schema

  datatype LatLon = LatLon(latitude: Value, longitude: Value)

  /** An element geometry entry, as the geometry mapping reads it from a row. */
  datatype GeometryEntry = GeometryEntry(elementType: Value, elementId: Value, geometry: Value)

  /** A note comment as version 21 stores it: the note, its position, the text and the serialized image paths. */
  datatype CommentNote = CommentNote(noteId: Value, position: LatLon, text: Value, imagePaths: Option<Value>)

  /**
    Everything the migration depends on whose code is not part of this model: the
    registry's column lists, the rows a view yields, the two row mappings and the
    image path serializer.
   */
  datatype Env = Env(
    columnsOf: string -> seq<string>,
    viewRows: (string, Db) -> seq<Row>,
    toGeometryEntry: Row -> GeometryEntry,
    geometryValues: GeometryEntry -> Row,
    commentNoteValues: CommentNote -> Row,
    deserialize: Value -> Value)

  const SuspectedOneway := "AddSuspectedOneway"

  /** The quest types removed by version 20. */
  const RetiredQuestTypes: set<Value> := {
    Text("DetailRoadSurface"),
    Text("AddTrafficSignalsBlindFeatures"),
    Text("AddAccessibleForPedestrians"),
    Text("AddWheelChairAccessPublicTransport"),
    Text("AddWheelChairAccessToilets")
  }

  /** The filters of the two version-21 status queries, as the comments around them intend. */
  const AnsweredFilter := ColumnIs(QuestStatus, Text("ANSWERED"))
  const HiddenFilter := ColumnIs(QuestStatus, Text("HIDDEN"))

  /**
    The same filters as the source writes them: `quest_status = ANSWERED` with the
    status unquoted compares with a column named ANSWERED.
   */
  const AnsweredFilterAsWritten := ColumnIsColumn(QuestStatus, "ANSWERED")
  const HiddenFilterAsWritten := ColumnIsColumn(QuestStatus, "HIDDEN")

  /**
    Dropping the commit message column (taken when upgrading from version 2): the quest
    table is renamed, recreated in its version-3 shape, refilled through the explicit
    column list, and the renamed copy dropped.
   */
  function RebuildOsmQuests(db: Db): Outcome {
    var o1 := Exec(db, RenameTable(OsmQuests, OsmQuestsOld));
    var o2 := Then(o1, CreateTable(OsmQuests, OsmQuestsV3Columns));
    var o3 := Then(o2, CopyColumns(OsmQuests, OsmQuestsOld, OsmQuestsV3CopyColumns));
    Then(o3, DropTable(OsmQuestsOld))
  }

  function UpgradeTo3(db: Db, env: Env): Outcome {
    Exec(db, CreateTableOf(OpenChangesets, env.columnsOf))
  }

  /**
    Adds `changes_source` unless the quest table has it already, marks every quest
    without a source as surveyed, and recreates the open changesets table.
   */
  function UpgradeTo4(db: Db, env: Env): Outcome {
    var o1 := if HasColumn(db, OsmQuests, ChangesSource) then Done(db)
              else Exec(db, AddColumn(OsmQuests, ChangesSource, Null));
    var o2 := Then(o1, SetWhereNull(OsmQuests, ChangesSource, Text("survey")));
    var o3 := Then(o2, DropTable(OpenChangesets));
    Then(o3, CreateTableOf(OpenChangesets, env.columnsOf))
  }

  function UpgradeTo5(db: Db): Outcome {
    Exec(db, AddColumn(CreateNotes, QuestTitle, Null))
  }

  function UpgradeTo6(db: Db, env: Env): Outcome {
    Exec(db, CreateTableOf(RoadNames, env.columnsOf))
  }

  function UpgradeTo7(db: Db, env: Env): Outcome {
    Then(Exec(db, CreateTableOf(UndoOsmQuests, env.columnsOf)), CreateStmt(UndoOsmQuestsView, env.columnsOf))
  }

  function UpgradeTo8(db: Db): Outcome {
    Then(Exec(db, AddColumn(CreateNotes, ImagePaths, Null)), AddColumn(NoteQuests, ImagePaths, Null))
  }

  function UpgradeTo9(db: Db, env: Env): Outcome {
    Exec(db, CreateTableOf(QuestVisibility, env.columnsOf))
  }

  function UpgradeTo10(db: Db, env: Env): Outcome {
    Exec(db, CreateTableOf(WayTrafficFlow, env.columnsOf))
  }

  /** All oneway quest data is invalid: suspected oneway quests and undo entries, and all traffic flow data. */
  function UpgradeTo11(db: Db): Outcome {
    var oneway := ColumnIs(QuestType, Text(SuspectedOneway));
    var o1 := Exec(db, DeleteWhere(OsmQuests, oneway));
    var o2 := Then(o1, DeleteWhere(UndoOsmQuests, oneway));
    Then(o2, DeleteWhere(WayTrafficFlow, Everything))
  }

  /** Adds the split way table, and replaces the undo table and its view by empty ones of the new shape. */
  function UpgradeTo12(db: Db, env: Env): Outcome {
    var o1 := Exec(db, CreateTableOf(OsmSplitWays, env.columnsOf));
    var o2 := Then(o1, DropTable(UndoOsmQuests));
    var o3 := Then(o2, DropView(UndoOsmQuestsView));
    var o4 := Then(o3, CreateTableOf(UndoOsmQuests, env.columnsOf));
    Then(o4, CreateStmt(UndoOsmQuestsView, env.columnsOf))
  }

  function UpgradeTo13(db: Db, env: Env): Outcome {
    var o1 := Exec(db, CreateTableOf(UserAchievements, env.columnsOf));
    var o2 := Then(o1, CreateTableOf(UserLinks, env.columnsOf));
    Then(o2, CreateTableOf(NewUserAchievements, env.columnsOf))
  }

  function UpgradeTo14(db: Db, env: Env): Outcome {
    Exec(db, CreateTableOf(CountryStatistics, env.columnsOf))
  }

  function UpgradeTo15(db: Db): Outcome {
    Exec(db, AddColumn(OsmSplitWays, QuestTypesOnWay, Null))
  }

  /** Relations may be corrupt: quests and undo entries on relations go, and so does every relation. */
  function UpgradeTo16(db: Db): Outcome {
    var relation := ColumnIs(ElementType, Text("RELATION"));
    var o1 := Exec(db, DeleteWhere(OsmQuests, relation));
    var o2 := Then(o1, DeleteWhere(UndoOsmQuests, relation));
    Then(o2, DeleteWhere(Relations, Everything))
  }

  /** Road names get a `last_update` column holding the migration time. */
  function UpgradeTo17(db: Db, now: int): Outcome {
    Exec(db, AddColumn(RoadNames, LastUpdate, Int(now)))
  }

  /** The quest tile zoom changed: every downloaded tile is forgotten. */
  function UpgradeTo18(db: Db): Outcome {
    Exec(db, DeleteWhere(DownloadedTiles, Everything))
  }

  function UpgradeTo19(db: Db, env: Env): Outcome {
    var o1 := Exec(db, CreateTableOf(DeleteOsmElements, env.columnsOf));
    Then(o1, DeleteWhere(OsmQuests, ColumnIs(QuestStatus, Text("REVERT"))))
  }

  function UpgradeTo20(db: Db): Outcome {
    Exec(db, DeleteWhere(OsmQuests, ColumnIn(QuestType, RetiredQuestTypes)))
  }

  /** The rows the element geometry rebuild re-inserts: each snapshot row through the geometry mapping and back. */
  function GeometryRows(snapshot: seq<Row>, env: Env): seq<Row> {
    seq(|snapshot|, i requires 0 <= i < |snapshot| => env.geometryValues(env.toGeometryEntry(snapshot[i])))
  }

  /**
    Version 21, first part: snapshot `elements_geometry`, drop it, recreate it in the
    new shape and put every snapshot entry back with INSERT OR REPLACE.
   */
  function RebuildElementGeometry(db: Db, env: Env): Outcome {
    match Select(db, env.viewRows, ElementsGeometry, None, Everything)
    case Failure => Fail(db)
    case Ok(snapshot) =>
      var o := Then(Exec(db, DropTable(ElementsGeometry)), CreateTableOf(ElementsGeometry, env.columnsOf));
      ReplaceEach(o, ElementsGeometry, GeometryRows(snapshot, env), GeometryKey)
  }

  /** Version 21, second part: notes, nodes, ways and relations get a `last_update` column holding the migration time. */
  function AddLastUpdates(db: Db, now: int): Outcome {
    var o1 := Exec(db, AddColumn(Notes, LastUpdate, Int(now)));
    var o2 := Then(o1, AddColumn(Nodes, LastUpdate, Int(now)));
    var o3 := Then(o2, AddColumn(Ways, LastUpdate, Int(now)));
    Then(o3, AddColumn(Relations, LastUpdate, Int(now)))
  }

  /** A row of the note quest view read as a comment note. */
  function ToCommentNote(r: Row, env: Env): CommentNote {
    var images := Get(r, ImagePaths);
    CommentNote(
      Get(r, NoteId),
      LatLon(Get(r, Latitude), Get(r, Longitude)),
      Get(r, Changes),
      if images == Null then None else Some(env.deserialize(images)))
  }

  function CommentNoteRows(answered: seq<Row>, env: Env): seq<Row> {
    seq(|answered|, i requires 0 <= i < |answered| => env.commentNoteValues(ToCommentNote(answered[i], env)))
  }

  function HiddenRow(r: Row): Row {
    map[NoteId := Get(r, NoteId)]
  }

  function HiddenRows(hidden: seq<Row>): seq<Row> {
    seq(|hidden|, i requires 0 <= i < |hidden| => HiddenRow(hidden[i]))
  }

  /** Version 21, third part: the answered note quests become comment notes. */
  function MoveAnsweredNoteQuests(db: Db, env: Env, answered: Filter): Outcome {
    match Select(db, env.viewRows, NoteQuestsFull, None, answered)
    case Failure => Fail(db)
    case Ok(rows) =>
      InsertEach(Exec(db, CreateTableOf(CommentNotes, env.columnsOf)), CommentNotes, CommentNoteRows(rows, env))
  }

  /** Version 21, fourth part: the ids of the hidden note quests go to the hidden note quest table. */
  function MoveHiddenNoteQuests(db: Db, env: Env, hidden: Filter): Outcome {
    match Select(db, env.viewRows, NoteQuests, Some([NoteId]), hidden)
    case Failure => Fail(db)
    case Ok(rows) =>
      InsertEach(Exec(db, CreateTableOf(NoteQuestsHidden, env.columnsOf)), NoteQuestsHidden, HiddenRows(rows))
  }

  /** Version 21, last part: the legacy note quest view and table go, and the split way table is recreated. */
  function DropLegacyTables(db: Db, env: Env): Outcome {
    var o1 := Exec(db, DropView(NoteQuestsFull));
    var o2 := Then(o1, DropTable(NoteQuests));
    var o3 := Then(o2, DropTable(OsmSplitWays));
    Then(o3, CreateTableOf(OsmSplitWays, env.columnsOf))
  }

  /** The first two parts of version 21, which run before the note quest queries. */
  function PrepareNoteSplit(db: Db, env: Env, now: int): Outcome {
    var o1 := RebuildElementGeometry(db, env);
    if o1.ok then AddLastUpdates(o1.db, now) else o1
  }

  /** The note quest split of version 21, with the given filters for answered and hidden quests. */
  function SplitNoteQuests(db: Db, env: Env, answered: Filter, hidden: Filter): Outcome {
    var o1 := MoveAnsweredNoteQuests(db, env, answered);
    var o2 := if o1.ok then MoveHiddenNoteQuests(o1.db, env, hidden) else o1;
    if o2.ok then DropLegacyTables(o2.db, env) else o2
  }

  function UpgradeTo21With(db: Db, env: Env, now: int, answered: Filter, hidden: Filter): Outcome {
    var o := PrepareNoteSplit(db, env, now);
    if o.ok then SplitNoteQuests(o.db, env, answered, hidden) else o
  }

  /** Version 21 with the status filters the comments describe. */
  function UpgradeTo21(db: Db, env: Env, now: int): Outcome {
    UpgradeTo21With(db, env, now, AnsweredFilter, HiddenFilter)
  }

  /** Version 21 with the status filters exactly as written, unquoted. */
  function UpgradeTo21AsWritten(db: Db, env: Env, now: int): Outcome {
    UpgradeTo21With(db, env, now, AnsweredFilterAsWritten, HiddenFilterAsWritten)
  }
}

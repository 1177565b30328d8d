/**
  The schema registry as the migration engine sees it: the names of the tables and
  views, the column names the migration steps mention, the version-3 shape of the
  quest table, and the ordered script of CREATE statements that builds the
  current (version 21) schema from nothing.

  The registry's own CREATE statements are not part of this model; the column list
  of each registry object is a parameter `columnsOf`.
 */
module Schema {
  import opened Store

  /** The schema version this release declares. */
  const DbVersion := 21

  // Tables and views.
  const ElementsGeometry := "elements_geometry"
  const OsmQuests := "osm_quests"
  const OsmQuestsOld := "osm_quests_old"
  const OsmQuestsView := "osm_quests_full"
  const UndoOsmQuests := "osm_quests_undo"
  const UndoOsmQuestsView := "osm_quests_undo_full"
  const Nodes := "osm_nodes"
  const Ways := "osm_ways"
  const Relations := "osm_relations"
  const Notes := "osm_notes"
  const NoteQuestsHidden := "osm_notequests_hidden"
  const CreateNotes := "osm_create_notes"
  const CommentNotes := "osm_comment_notes"
  const QuestStatistics := "quest_statistics"
  const CountryStatistics := "country_statistics"
  const UserAchievements := "user_achievements"
  const UserLinks := "user_links"
  const NewUserAchievements := "new_user_achievements"
  const DownloadedTiles := "downloaded_tiles"
  const OpenChangesets := "open_changesets"
  const QuestVisibility := "quest_visibility"
  const OsmSplitWays := "osm_split_ways"
  const DeleteOsmElements := "osm_delete_elements"
  const RoadNames := "road_names"
  const WayTrafficFlow := "way_trafficflow"
  /** The legacy note quest table and its view, both gone since version 21. */
  const NoteQuests := "osm_notequests"
  const NoteQuestsFull := "osm_notequests_full"

  // Columns.
  const QuestType := "quest_type"
  const QuestStatus := "quest_status"
  const ElementType := "element_type"
  const ElementId := "element_id"
  const ChangesSource := "changes_source"
  const LastUpdate := "last_update"
  const QuestTitle := "quest_title"
  const ImagePaths := "image_paths"
  const QuestTypesOnWay := "quest_types_on_way"
  const NoteId := "note_id"
  const Latitude := "latitude"
  const Longitude := "longitude"
  const Changes := "changes"

  /** The columns of `osm_quests` in the order its version-3 CREATE statement declares them. */
  const OsmQuestsV3Columns: seq<string> :=
    ["quest_id", "quest_type", "quest_status", "tag_changes", "last_update", "element_id", "element_type"]

  /** The explicit column list through which the version-3 rebuild copies `osm_quests`. */
  const OsmQuestsV3CopyColumns: seq<string> :=
    ["quest_id", "quest_type", "element_id", "element_type", "quest_status", "tag_changes", "last_update"]

  /** The unique key of `elements_geometry`, the one the quest table's foreign key refers to. */
  const GeometryKey: seq<string> := [ElementType, ElementId]

  /** The version-3 quest table declares each column once, and the copy list names exactly those columns. */
  lemma V3ColumnsMatch()
    ensures DistinctColumns(OsmQuestsV3Columns) && DistinctColumns(OsmQuestsV3CopyColumns)
    ensures forall c :: c in OsmQuestsV3CopyColumns <==> c in OsmQuestsV3Columns
  {
  }

  /** A CREATE statement of the registry. */
  predicate IsCreate(s: Stmt) {
    s.CreateTable? || s.CreateView?
  }

  /** The object a CREATE statement makes: an empty table, or a view. */
  function ObjectOf(s: Stmt): Obj
    requires IsCreate(s)
  {
    if s.CreateTable? then Table(s.columns, []) else View(s.columns, s.sources)
  }

  function CreateTableOf(name: string, columnsOf: string -> seq<string>): Stmt {
    CreateTable(name, columnsOf(name))
  }

  /** Every statement creates something, and no two statements create the same name. */
  predicate CreatesEachOnce(script: seq<Stmt>) {
    && (forall i :: 0 <= i < |script| ==> IsCreate(script[i]))
    && (forall i, j :: 0 <= i < j < |script| ==> script[i].name != script[j].name)
  }

  /** The names of the tables created by the first `n` statements. */
  function TablesBefore(script: seq<Stmt>, n: nat): set<string>
    requires n <= |script|
  {
    set j | 0 <= j < n && script[j].CreateTable? :: script[j].name
  }

  /** Every view is created after every table it reads. */
  predicate ViewsAfterSources(script: seq<Stmt>) {
    forall i :: 0 <= i < |script| && script[i].CreateView? ==> script[i].sources <= TablesBefore(script, i)
  }

  /**
    The objects `onCreate` creates, in the order it creates them: sixteen tables, the
    quest view and the merged undo view, then six more tables.
   */
  const CreationOrder: seq<string> :=
    [ ElementsGeometry, OsmQuests, UndoOsmQuests,
      Nodes, Ways, Relations,
      Notes, NoteQuestsHidden, CreateNotes, CommentNotes,
      QuestStatistics, CountryStatistics, UserAchievements, UserLinks, NewUserAchievements,
      DownloadedTiles,
      OsmQuestsView, UndoOsmQuestsView,
      OpenChangesets, QuestVisibility, OsmSplitWays, DeleteOsmElements, RoadNames, WayTrafficFlow ]

  lemma CreationOrderDistinct()
    ensures forall i, j :: 0 <= i < j < |CreationOrder| ==> CreationOrder[i] != CreationOrder[j]
  {
  }

  /** What each view reads: the quest table, or the undo table, joined with the element geometry. */
  function ViewSources(name: string): set<string> {
    if name == OsmQuestsView then {OsmQuests, ElementsGeometry}
    else if name == UndoOsmQuestsView then {UndoOsmQuests, ElementsGeometry}
    else {}
  }

  function CreateStmt(name: string, columnsOf: string -> seq<string>): Stmt {
    if name == OsmQuestsView || name == UndoOsmQuestsView
    then CreateView(name, columnsOf(name), ViewSources(name))
    else CreateTable(name, columnsOf(name))
  }

  /** The statements of `onCreate`, in order: one CREATE per name of `CreationOrder`. */
  function CreationScript(columnsOf: string -> seq<string>): (script: seq<Stmt>)
    ensures |script| == |CreationOrder| == 24
    ensures forall i :: 0 <= i < |script| ==> IsCreate(script[i]) && script[i].name == CreationOrder[i]
  {
    seq(|CreationOrder|, i requires 0 <= i < |CreationOrder| => CreateStmt(CreationOrder[i], columnsOf))
  }

  /** The first `k` statements of `onCreate`, run after `o`. */
  function CreateFirst(o: Outcome, columnsOf: string -> seq<string>, k: nat): Outcome
    requires k <= |CreationOrder|
  {
    if k == 0 then o else Then(CreateFirst(o, columnsOf, k - 1), CreateStmt(CreationOrder[k - 1], columnsOf))
  }

  /** Running the first `k` statements is running the first `k` statements of the script. */
  lemma {:induction false} CreateFirstRunsScript(o: Outcome, columnsOf: string -> seq<string>, k: nat)
    requires k <= |CreationOrder|
    ensures CreateFirst(o, columnsOf, k) == ThenAll(o, CreationScript(columnsOf)[..k])
  {
    var script := CreationScript(columnsOf);
    if k > 0 {
      CreateFirstRunsScript(o, columnsOf, k - 1);
      assert script[..k][..k - 1] == script[..k - 1];
    }
  }

  /** Once a CREATE has failed, the later ones change nothing. */
  lemma {:induction false} CreateFirstStops(o: Outcome, columnsOf: string -> seq<string>, k: nat, m: nat)
    requires k <= m <= |CreationOrder|
    requires !CreateFirst(o, columnsOf, k).ok
    ensures CreateFirst(o, columnsOf, m) == CreateFirst(o, columnsOf, k)
    decreases m
  {
    if m > k {
      CreateFirstStops(o, columnsOf, k, m - 1);
    }
  }

  /** `onCreate` creates every object once, and each view only after the tables it reads. */
  lemma CreationScriptWellOrdered(columnsOf: string -> seq<string>)
    ensures CreatesEachOnce(CreationScript(columnsOf))
    ensures ViewsAfterSources(CreationScript(columnsOf))
  {
    var script := CreationScript(columnsOf);
    CreationOrderDistinct();
    assert script[0].CreateTable? && script[0].name == ElementsGeometry;
    assert script[1].CreateTable? && script[1].name == OsmQuests;
    assert script[2].CreateTable? && script[2].name == UndoOsmQuests;
    forall i | 0 <= i < |script| && script[i].CreateView?
      ensures script[i].sources <= TablesBefore(script, i)
    {
      assert i == 16 || i == 17;
    }
  }

  /** The objects a run of CREATE statements leaves in an empty store. */
  function Objects(script: seq<Stmt>): Db
    requires forall i :: 0 <= i < |script| ==> IsCreate(script[i])
    decreases |script|
  {
    if script == [] then map[]
    else
      var n := |script| - 1;
      assert IsCreate(script[n]);
      Objects(script[..n])[script[n].name := ObjectOf(script[n])]
  }

  /** The store `Objects` builds holds exactly the created names. */
  lemma {:induction false} ObjectsNames(script: seq<Stmt>)
    requires forall i :: 0 <= i < |script| ==> IsCreate(script[i])
    ensures forall name :: name in Objects(script) <==> exists i :: 0 <= i < |script| && script[i].name == name
    decreases |script|
  {
    if script != [] {
      var n := |script| - 1;
      ObjectsNames(script[..n]);
      forall name ensures name in Objects(script) <==> exists i :: 0 <= i < |script| && script[i].name == name {
        if name != script[n].name {
          assert name in Objects(script) <==> name in Objects(script[..n]);
          if name in Objects(script[..n]) {
            var i :| 0 <= i < n && script[..n][i].name == name;
            assert script[i].name == name;
          }
          if exists i :: 0 <= i < |script| && script[i].name == name {
            var i :| 0 <= i < |script| && script[i].name == name;
            assert script[..n][i].name == name;
          }
        }
      }
    }
  }

  lemma CreateLast(script: seq<Stmt>)
    requires |script| > 0 && CreatesEachOnce(script)
    ensures var n := |script| - 1;
      Exec(Objects(script[..n]), script[n]) == Done(Objects(script))
  {
    var n := |script| - 1;
    ObjectsNames(script[..n]);
  }

  /** From an empty store, a script that creates each name once succeeds and leaves exactly its objects. */
  lemma {:induction false} CreatesFromEmpty(script: seq<Stmt>)
    requires CreatesEachOnce(script)
    ensures ThenAll(Done(map[]), script) == Done(Objects(script))
    decreases |script|
  {
    if script != [] {
      var n := |script| - 1;
      assert CreatesEachOnce(script[..n]);
      CreatesFromEmpty(script[..n]);
      CreateLast(script);
    }
  }

  /** Each created name holds the object its own statement creates. */
  lemma {:induction false} ObjectsAt(script: seq<Stmt>)
    requires CreatesEachOnce(script)
    ensures forall i :: 0 <= i < |script| ==> script[i].name in Objects(script) && Objects(script)[script[i].name] == ObjectOf(script[i])
    decreases |script|
  {
    if script != [] {
      var n := |script| - 1;
      assert CreatesEachOnce(script[..n]);
      ObjectsAt(script[..n]);
      forall i | 0 <= i < n
        ensures script[i].name in Objects(script) && Objects(script)[script[i].name] == ObjectOf(script[i])
      {
        assert script[..n][i] == script[i];
      }
    }
  }

  /**
    `onCreate` on a fresh store succeeds and leaves exactly the registry's objects:
    one per name of `CreationOrder`, every table of them empty.
   */
  lemma OnCreateBuildsSchema(columnsOf: string -> seq<string>)
    ensures var o := ThenAll(Done(map[]), CreationScript(columnsOf));
      && o.ok
      && (forall name :: name in o.db <==> name in CreationOrder)
      && (forall i :: 0 <= i < |CreationOrder| ==> o.db[CreationOrder[i]] == ObjectOf(CreationScript(columnsOf)[i]))
      && (forall name :: IsTable(o.db, name) ==> o.db[name].rows == [])
  {
    var script := CreationScript(columnsOf);
    CreationScriptWellOrdered(columnsOf);
    CreatesFromEmpty(script);
    ObjectsNames(script);
    ObjectsAt(script);
    var db := Objects(script);
    forall name ensures name in db <==> name in CreationOrder {
      if name in CreationOrder {
        var i :| 0 <= i < |CreationOrder| && CreationOrder[i] == name;
        assert script[i].name == name;
      }
    }
    forall name | IsTable(db, name) ensures db[name].rows == [] {
      var i :| 0 <= i < |script| && script[i].name == name;
    }
  }
}

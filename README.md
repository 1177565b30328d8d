# StreetComplete database schema migration, modelled in Dafny

This project models the schema migration engine of StreetComplete's
`StreetCompleteSQLiteOpenHelper`. The helper owns the app's SQLite database. When the
database is new, `onCreate` builds the current (version 21) schema. When the database
is older, `onUpgrade(oldVersion, newVersion)` brings it forward through twenty
version-gated blocks:
- the quest table rebuild, taken only when upgrading from version 2;
- then one block per version V from 3 to 21, taken when `oldVersion < V <= newVersion`.

The model has these parts:

- `Store` (store.dfy): the database as a map from names to tables (columns and rows)
  or views, and every kind of SQL statement the migration issues, as a `Stmt`.
  `Exec` says what each statement does and when it raises an SQL error. A failing
  statement changes nothing. An error aborts the rest of the migration; the `ok`
  flag of an `Outcome` records it.
- `StoreLemmas` (store_lemmas.dfy): facts about runs of statements, the insert and
  replace loops, and the rows an INSERT OR REPLACE loop leaves.
- `Schema` (schema.dfy): table, view and column names; the version-3 quest table
  shape (`OSM_QUEST_TABLE_ALL_COLUMNS_DB_VERSION_3`); `DB_VERSION`; and the 24 CREATE
  statements of `onCreate`, in order.
- `Steps` (steps.dfy): each block of `onUpgrade` as a function from a store to an
  `Outcome`. Version 21 is split into its five parts.
- `StepFacts` and `Version21Facts`: what each block does to the store:
  - which rows the prunes remove;
  - what the quest table rebuild keeps;
  - what version 4 backfills;
  - the `last_update` stamps;
  - how the geometry re-insert collapses rows by key;
  - how the note quests are split.
- `Migration` (migration.dfy): the gating. It defines which blocks fire and shows
  that `onUpgrade` runs exactly those blocks, in ascending order, stopping at the
  first error.
- `UpgradeRuns` (upgrade_runs.dfy): whole upgrades. From version 2 to 4, every
  rebuilt quest ends as surveyed. From version 15 to 21, the legacy note quests end
  split into comment notes and hidden note ids. From before version 6 to 17 or
  later, the road name table is created by block 6 and altered by block 17.
- `OpenHelper` (open_helper.dfy): the helper as a class holding the database, with
  one method per block and per gate, and `OnCreate` and `OnUpgrade`. Each method is
  proved to leave the database as the corresponding function says.

The mappers, the serializer, the registry's column lists and the rows a view yields
are not part of this model. They are parameters, gathered in `Steps.Env`. The clock
is the parameter `now`.

Some choices follow the code where a looser reading of the design is possible:
- Only version 4 checks whether its column already exists. The other ADD COLUMN
  statements (versions 5, 8, 15, 17 and 21) raise an error on a store that already
  has the column, and the model says so (`StepFacts.AddColumnStamps`).
- `insert` in version 21 reports an error by returning -1, which the migration
  ignores, so an insert never aborts it. `replaceOrThrow` does abort.
- The double-quoted "RELATION" and "REVERT" of versions 16 and 19, and the quest type
  names of version 20, are read as string literals. SQLite does this when no column
  has that name.

## Model

| member | source | states |
|---|---|---|
| Store.Exec | app/src/main/java/de/westnordost/streetcomplete/data/StreetCompleteSQLiteOpenHelper.kt:101-105 | a statement that raises an SQL error leaves the store as it was |
| Store.Filtered | app/src/main/java/de/westnordost/streetcomplete/data/StreetCompleteSQLiteOpenHelper.kt:174-180 | a WHERE clause keeps no more rows than there were: exactly the rows whose match is the wanted one, each with its multiplicity, and no others |
| Store.FilteredAppend | app/src/main/java/de/westnordost/streetcomplete/data/StreetCompleteSQLiteOpenHelper.kt:174-180 | filtering keeps order: filtering two runs of rows back to back keeps the first run's rows, in order, before the second's |
| Store.FilteredSingle | app/src/main/java/de/westnordost/streetcomplete/data/StreetCompleteSQLiteOpenHelper.kt:174-180 | a single row is kept iff its match is the wanted one; with `FilteredAppend` this fixes the kept rows as the matching rows in their original order |
| Store.FilteredMembers | app/src/main/java/de/westnordost/streetcomplete/data/StreetCompleteSQLiteOpenHelper.kt:174-180 | a row survives a DELETE (or is returned by a SELECT) iff it was there and does not match (does match) the clause |
| Store.FilteredNoneMatch | app/src/main/java/de/westnordost/streetcomplete/data/StreetCompleteSQLiteOpenHelper.kt:174-180 | deleting with a clause no row matches keeps every row in order |
| StoreLemmas.ThenAllStops | app/src/main/java/de/westnordost/streetcomplete/data/StreetCompleteSQLiteOpenHelper.kt:94-338 | after an SQL error the remaining statements change nothing |
| StoreLemmas.ThenAllSplit | app/src/main/java/de/westnordost/streetcomplete/data/StreetCompleteSQLiteOpenHelper.kt:94-338 | running two runs of statements one after the other is running their concatenation |
| StoreLemmas.InsertEachStops | app/src/main/java/de/westnordost/streetcomplete/data/StreetCompleteSQLiteOpenHelper.kt:308-312 | after an SQL error the insert loop changes nothing |
| StoreLemmas.ReplaceEachStops | app/src/main/java/de/westnordost/streetcomplete/data/StreetCompleteSQLiteOpenHelper.kt:269-273 | after an SQL error the replace loop changes nothing |
| StoreLemmas.SelectAllKeeps | app/src/main/java/de/westnordost/streetcomplete/data/StreetCompleteSQLiteOpenHelper.kt:266 | a query without WHERE clause returns every row, in table order |
| StoreLemmas.InsertEachAppends | app/src/main/java/de/westnordost/streetcomplete/data/StreetCompleteSQLiteOpenHelper.kt:308-312 | inserting rows one by one into a table appends exactly those rows, in order, and touches nothing else |
| StoreLemmas.CreateAndInsert | app/src/main/java/de/westnordost/streetcomplete/data/StreetCompleteSQLiteOpenHelper.kt:307-312 | creating a new table and inserting rows one by one leaves it holding exactly those rows |
| StoreLemmas.ReplaceLast | app/src/main/java/de/westnordost/streetcomplete/data/StreetCompleteSQLiteOpenHelper.kt:271 | one INSERT OR REPLACE removes the rows with the same key and appends the new row |
| StoreLemmas.ReplaceEachPuts | app/src/main/java/de/westnordost/streetcomplete/data/StreetCompleteSQLiteOpenHelper.kt:269-273 | the replace loop into an existing table succeeds and leaves the rows `ReplaceRows` describes, nothing else changed |
| StoreLemmas.PutKeepsUnique | app/src/main/java/de/westnordost/streetcomplete/data/StreetCompleteSQLiteOpenHelper.kt:271 | an INSERT OR REPLACE keeps the table free of duplicate rows and duplicate keys |
| StoreLemmas.CollapseStep | app/src/main/java/de/westnordost/streetcomplete/data/StreetCompleteSQLiteOpenHelper.kt:269-273 | one more replace keeps the table holding exactly the rows no later insert overrides |
| StoreLemmas.ReplaceRowsUnique | app/src/main/java/de/westnordost/streetcomplete/data/StreetCompleteSQLiteOpenHelper.kt:269-273 | after the replace loop no two rows share a key and no row occurs twice |
| StoreLemmas.ReplaceRowsLive | app/src/main/java/de/westnordost/streetcomplete/data/StreetCompleteSQLiteOpenHelper.kt:269-273 | after the replace loop a row is present iff some insert put it there and no later insert carried its key |
| StoreLemmas.ReplaceRowsDistinct | app/src/main/java/de/westnordost/streetcomplete/data/StreetCompleteSQLiteOpenHelper.kt:269-273 | when the inserted keys are pairwise distinct the replace loop keeps every row in order |
| StoreLemmas.SelectView | app/src/main/java/de/westnordost/streetcomplete/data/StreetCompleteSQLiteOpenHelper.kt:297-300 | a filtered query on a view whose columns the filter names returns the matching view rows |
| StoreLemmas.SelectColumns | app/src/main/java/de/westnordost/streetcomplete/data/StreetCompleteSQLiteOpenHelper.kt:314-318 | a filtered query with a column list returns the matching rows restricted to those columns |
| Schema.V3ColumnsMatch | app/src/main/java/de/westnordost/streetcomplete/data/StreetCompleteSQLiteOpenHelper.kt:341-371 | the version-3 column list names exactly the columns of the version-3 CREATE, each once |
| Schema.CreationOrderDistinct | app/src/main/java/de/westnordost/streetcomplete/data/StreetCompleteSQLiteOpenHelper.kt:55-92 | no name is created twice by `onCreate` |
| Schema.CreationScript | app/src/main/java/de/westnordost/streetcomplete/data/StreetCompleteSQLiteOpenHelper.kt:55-92 | `onCreate` issues 24 CREATE statements, the i-th creating the i-th name of the creation order |
| Schema.CreateFirstRunsScript | app/src/main/java/de/westnordost/streetcomplete/data/StreetCompleteSQLiteOpenHelper.kt:55-92 | the first k CREATE statements of `onCreate` are the first k statements of its script |
| Schema.CreateFirstStops | app/src/main/java/de/westnordost/streetcomplete/data/StreetCompleteSQLiteOpenHelper.kt:55-92 | once a CREATE statement of `onCreate` has failed, the later ones change nothing |
| Schema.CreationScriptWellOrdered | app/src/main/java/de/westnordost/streetcomplete/data/StreetCompleteSQLiteOpenHelper.kt:55-92 | `onCreate` creates each object once, and each view after the tables it reads |
| Schema.ObjectsNames | app/src/main/java/de/westnordost/streetcomplete/data/StreetCompleteSQLiteOpenHelper.kt:55-92 | the objects a CREATE script builds are exactly the names it creates |
| Schema.CreatesFromEmpty | app/src/main/java/de/westnordost/streetcomplete/data/StreetCompleteSQLiteOpenHelper.kt:55-92 | on an empty store a script that creates each name once succeeds and builds exactly its objects |
| Schema.ObjectsAt | app/src/main/java/de/westnordost/streetcomplete/data/StreetCompleteSQLiteOpenHelper.kt:55-92 | each name of such a script holds the object its statement creates |
| Schema.OnCreateBuildsSchema | app/src/main/java/de/westnordost/streetcomplete/data/StreetCompleteSQLiteOpenHelper.kt:55-92 | on an empty database `onCreate` succeeds, creates exactly the 24 objects of the creation order, each as its statement says, every table empty |
| StepFacts.RebuildOutcome | app/src/main/java/de/westnordost/streetcomplete/data/StreetCompleteSQLiteOpenHelper.kt:98-106 | the rebuild succeeds iff the quest table exists, no `osm_quests_old` exists and it has the seven copied columns; it then replaces the quest table by the version-3 table holding every row projected onto the seven columns |
| StepFacts.ProjectAllKeeps | app/src/main/java/de/westnordost/streetcomplete/data/StreetCompleteSQLiteOpenHelper.kt:103-104 | the INSERT ... SELECT through the column list keeps every row, in order, with exactly those columns and their values |
| StepFacts.RebuildKeepsEveryRow | app/src/main/java/de/westnordost/streetcomplete/data/StreetCompleteSQLiteOpenHelper.kt:98-106 | after the rebuild `osm_quests_old` is gone, only the quest table changed, and it holds as many rows as before, row i holding exactly the seven columns with row i's values |
| StepFacts.UpgradeTo4Outcome | app/src/main/java/de/westnordost/streetcomplete/data/StreetCompleteSQLiteOpenHelper.kt:112-133 | version 4 adds `changes_source` when it is missing, sets NULL values to 'survey', and recreates `open_changesets` empty |
| StepFacts.UpgradeTo4Backfills | app/src/main/java/de/westnordost/streetcomplete/data/StreetCompleteSQLiteOpenHelper.kt:112-133 | version 4 succeeds, leaves exactly one `changes_source` column, writes 'survey' into NULL values only and keeps every other value, recreates `open_changesets` empty and changes nothing else |
| StepFacts.DeletePrunes | app/src/main/java/de/westnordost/streetcomplete/data/StreetCompleteSQLiteOpenHelper.kt:174-180 | a DELETE on a table whose columns the clause names removes exactly the matching rows |
| StepFacts.DeleteAllEmpties | app/src/main/java/de/westnordost/streetcomplete/data/StreetCompleteSQLiteOpenHelper.kt:179 | a DELETE without WHERE clause removes every row |
| StepFacts.UpgradeTo11Prunes | app/src/main/java/de/westnordost/streetcomplete/data/StreetCompleteSQLiteOpenHelper.kt:174-180 | version 11 removes exactly the suspected-oneway quests from the quest and undo tables, empties the traffic flow table, and changes nothing else |
| StepFacts.UpgradeTo16Prunes | app/src/main/java/de/westnordost/streetcomplete/data/StreetCompleteSQLiteOpenHelper.kt:209-225 | version 16 removes exactly the relation quests from the quest and undo tables, empties the relation table, and changes nothing else |
| StepFacts.UpgradeTo18Clears | app/src/main/java/de/westnordost/streetcomplete/data/StreetCompleteSQLiteOpenHelper.kt:234-237 | version 18 succeeds iff the tile table exists, and then empties it and changes nothing else |
| StepFacts.UpgradeTo19Prunes | app/src/main/java/de/westnordost/streetcomplete/data/StreetCompleteSQLiteOpenHelper.kt:239-245 | version 19 creates the empty delete-element table and removes exactly the REVERT quests, nothing else changed |
| StepFacts.UpgradeTo20Prunes | app/src/main/java/de/westnordost/streetcomplete/data/StreetCompleteSQLiteOpenHelper.kt:247-260 | version 20 succeeds iff the quest table has `quest_type`, and then removes exactly the quests of the five retired types, nothing else changed |
| StepFacts.AddColumnStamps | app/src/main/java/de/westnordost/streetcomplete/data/StreetCompleteSQLiteOpenHelper.kt:135-141 | ADD COLUMN succeeds iff the table exists without the column; every row then holds the default there and keeps its other values |
| StepFacts.UpgradeTo17Stamps | app/src/main/java/de/westnordost/streetcomplete/data/StreetCompleteSQLiteOpenHelper.kt:227-232 | version 17 gives every road name row `last_update` = `now`, nothing else changed |
| StepFacts.AddLastUpdatesStamps | app/src/main/java/de/westnordost/streetcomplete/data/StreetCompleteSQLiteOpenHelper.kt:275-293 | the four ADD COLUMNs of version 21 succeed iff the four tables exist without `last_update`; each row then holds `now` there, nothing else changed |
| StepFacts.UpgradeTo12RecreatesUndo | app/src/main/java/de/westnordost/streetcomplete/data/StreetCompleteSQLiteOpenHelper.kt:182-189 | version 12 creates the split way table, and leaves the undo table empty and its merged view recreated, nothing else changed |
| StepFacts.UpgradeTo3Creates | app/src/main/java/de/westnordost/streetcomplete/data/StreetCompleteSQLiteOpenHelper.kt:108-110 | version 3 succeeds iff `open_changesets` is missing, and then creates it empty |
| StepFacts.UpgradeTo5AddsTitle | app/src/main/java/de/westnordost/streetcomplete/data/StreetCompleteSQLiteOpenHelper.kt:135-141 | version 5 adds `quest_title` (NULL in every row) to the create-note table, nothing else changed |
| StepFacts.UpgradeTo6Creates | app/src/main/java/de/westnordost/streetcomplete/data/StreetCompleteSQLiteOpenHelper.kt:143-145 | version 6 succeeds iff the road name table is missing, and then creates it empty |
| StepFacts.UpgradeTo7Creates | app/src/main/java/de/westnordost/streetcomplete/data/StreetCompleteSQLiteOpenHelper.kt:147-150 | version 7 creates the empty undo table and its merged view |
| StepFacts.UpgradeTo8AddsImagePaths | app/src/main/java/de/westnordost/streetcomplete/data/StreetCompleteSQLiteOpenHelper.kt:152-163 | version 8 adds `image_paths` (NULL in every row) to the create-note and note quest tables, nothing else changed |
| StepFacts.UpgradeTo9Creates | app/src/main/java/de/westnordost/streetcomplete/data/StreetCompleteSQLiteOpenHelper.kt:165-167 | version 9 creates the empty quest visibility table |
| StepFacts.UpgradeTo10Creates | app/src/main/java/de/westnordost/streetcomplete/data/StreetCompleteSQLiteOpenHelper.kt:169-171 | version 10 creates the empty traffic flow table |
| StepFacts.UpgradeTo13Creates | app/src/main/java/de/westnordost/streetcomplete/data/StreetCompleteSQLiteOpenHelper.kt:191-195 | version 13 creates the three empty achievement tables |
| StepFacts.UpgradeTo14Creates | app/src/main/java/de/westnordost/streetcomplete/data/StreetCompleteSQLiteOpenHelper.kt:197-199 | version 14 creates the empty country statistics table |
| StepFacts.UpgradeTo15AddsQuestTypes | app/src/main/java/de/westnordost/streetcomplete/data/StreetCompleteSQLiteOpenHelper.kt:201-207 | version 15 adds `quest_types_on_way` (NULL in every row) to the split way table, nothing else changed |
| Version21Facts.RebuildElementGeometryOutcome | app/src/main/java/de/westnordost/streetcomplete/data/StreetCompleteSQLiteOpenHelper.kt:266-273 | the geometry rebuild succeeds iff the geometry table exists, and then holds the re-inserted entries as INSERT OR REPLACE leaves them |
| Version21Facts.RebuildElementGeometryCollapses | app/src/main/java/de/westnordost/streetcomplete/data/StreetCompleteSQLiteOpenHelper.kt:266-273 | after the geometry rebuild the table has no duplicate key, holds exactly the entries no later entry with the same key overrides, and all of them in order when the keys were distinct |
| Version21Facts.MoveAnsweredOutcome | app/src/main/java/de/westnordost/streetcomplete/data/StreetCompleteSQLiteOpenHelper.kt:297-312 | the answered query, with a filter on existing columns, fills a new comment note table with one mapped row per matching quest of the view, in the order `Filtered` keeps them (`Store.FilteredAppend`) |
| Version21Facts.MoveAnsweredFails | app/src/main/java/de/westnordost/streetcomplete/data/StreetCompleteSQLiteOpenHelper.kt:297-300 | the answered query fails when its filter names a column the view lacks |
| Version21Facts.MoveHiddenOutcome | app/src/main/java/de/westnordost/streetcomplete/data/StreetCompleteSQLiteOpenHelper.kt:313-326 | the hidden query fills a new hidden note quest table with the note id of each matching quest, in the order `Filtered` keeps them (`Store.FilteredAppend`) |
| Version21Facts.DropLegacyOutcome | app/src/main/java/de/westnordost/streetcomplete/data/StreetCompleteSQLiteOpenHelper.kt:328-333 | the last part drops the legacy note quest view and table and recreates the split way table empty |
| Version21Facts.SplitNoteQuestsOutcome | app/src/main/java/de/westnordost/streetcomplete/data/StreetCompleteSQLiteOpenHelper.kt:295-333 | on a store that has what it reads, the note quest split succeeds and leaves `SplitResult` |
| Version21Facts.StatusFilterSelects | app/src/main/java/de/westnordost/streetcomplete/data/StreetCompleteSQLiteOpenHelper.kt:297-318 | a status filter keeps exactly the rows with that status, each with its multiplicity |
| Version21Facts.SplitNoteQuestsFrame | app/src/main/java/de/westnordost/streetcomplete/data/StreetCompleteSQLiteOpenHelper.kt:295-333 | after the split the legacy view and table are gone, the split way table is empty, and every object the split does not name is unchanged |
| Version21Facts.SplitNoteQuestsMovesAnswered | app/src/main/java/de/westnordost/streetcomplete/data/StreetCompleteSQLiteOpenHelper.kt:297-312 | the comment note table holds one mapped row for each ANSWERED quest of the view, and only those, each as often as the view lists it, in the order `Filtered` keeps them |
| Version21Facts.SplitNoteQuestsMovesHidden | app/src/main/java/de/westnordost/streetcomplete/data/StreetCompleteSQLiteOpenHelper.kt:313-326 | the hidden note quest table holds the note id of each HIDDEN legacy quest, and only those, each as often as the table holds it, in the order `Filtered` keeps them |
| Version21Facts.PrepareNoteSplitFrame | app/src/main/java/de/westnordost/streetcomplete/data/StreetCompleteSQLiteOpenHelper.kt:262-293 | the first two parts of version 21 succeed iff the geometry table exists and the four tables can take `last_update`, and touch nothing else |
| Version21Facts.FrameKeepsReady | app/src/main/java/de/westnordost/streetcomplete/data/StreetCompleteSQLiteOpenHelper.kt:262-293 | the first two parts of version 21 keep everything the note quest split reads |
| Version21Facts.UpgradeTo21Succeeds | app/src/main/java/de/westnordost/streetcomplete/data/StreetCompleteSQLiteOpenHelper.kt:262-334 | version 21 with status literals succeeds on a store that has what it reads and ends with the note quest split of the store after its first two parts |
| Version21Facts.AsWrittenStatusQueryFails | app/src/main/java/de/westnordost/streetcomplete/data/StreetCompleteSQLiteOpenHelper.kt:297-300 | version 21 as written aborts on any store whose note quest view has no column named ANSWERED |
| Migration.UpgradeThroughStops | app/src/main/java/de/westnordost/streetcomplete/data/StreetCompleteSQLiteOpenHelper.kt:94-338 | once a block has failed, no later gate changes anything |
| Migration.UpgradeThroughSkips | app/src/main/java/de/westnordost/streetcomplete/data/StreetCompleteSQLiteOpenHelper.kt:94-338 | gates that do not fire leave the outcome of the earlier gates as it was |
| Migration.FiredThrough | app/src/main/java/de/westnordost/streetcomplete/data/StreetCompleteSQLiteOpenHelper.kt:94-338 | the versions up to v whose gates fire, each once, in strictly ascending order |
| Migration.RunBlocksSnoc | app/src/main/java/de/westnordost/streetcomplete/data/StreetCompleteSQLiteOpenHelper.kt:94-338 | one more block at the end of the list runs after the others, unless one failed |
| Migration.UpgradeThroughRunsFiredBlocks | app/src/main/java/de/westnordost/streetcomplete/data/StreetCompleteSQLiteOpenHelper.kt:94-338 | the gates up to v do exactly what running the fired blocks in ascending order does |
| Migration.UpgradeRunsFiredBlocks | app/src/main/java/de/westnordost/streetcomplete/data/StreetCompleteSQLiteOpenHelper.kt:94-338 | `onUpgrade` runs exactly the blocks that fire, in ascending order: the rebuild iff oldVersion == 2, block V (3..21) iff oldVersion < V <= newVersion |
| UpgradeRuns.BackfillRebuilt | app/src/main/java/de/westnordost/streetcomplete/data/StreetCompleteSQLiteOpenHelper.kt:112-133 | version 4 on a rebuilt quest table (rows holding exactly the version-3 columns) appends `changes_source` and sets it to 'survey' in every row, every version-3 value kept |
| UpgradeRuns.FirstBlocksSucceed | app/src/main/java/de/westnordost/streetcomplete/data/StreetCompleteSQLiteOpenHelper.kt:98-133 | the rebuild, version 3 and version 4 in sequence succeed when the quest table has the copied columns and neither `osm_quests_old` nor `open_changesets` exists, and leave every other object alone |
| UpgradeRuns.UpgradeFrom2To4 | app/src/main/java/de/westnordost/streetcomplete/data/StreetCompleteSQLiteOpenHelper.kt:98-133 | `onUpgrade(2, 4)` runs exactly those three blocks and succeeds: one quest row per old row, in order, with the old version-3 values and `changes_source` = 'survey', the open changesets table empty, nothing else changed |
| UpgradeRuns.Block16Keeps | app/src/main/java/de/westnordost/streetcomplete/data/StreetCompleteSQLiteOpenHelper.kt:209-225 | on a store ready for blocks 16 to 21, block 16 succeeds, keeps that readiness for block 17 and leaves the legacy note quest table and view alone |
| UpgradeRuns.Block17Keeps | app/src/main/java/de/westnordost/streetcomplete/data/StreetCompleteSQLiteOpenHelper.kt:227-232 | block 17 succeeds, keeps the readiness for block 18 and leaves the legacy note quest table and view alone |
| UpgradeRuns.Block18Keeps | app/src/main/java/de/westnordost/streetcomplete/data/StreetCompleteSQLiteOpenHelper.kt:234-237 | block 18 succeeds, keeps the readiness for block 19 and leaves the legacy note quest table and view alone |
| UpgradeRuns.Block19Keeps | app/src/main/java/de/westnordost/streetcomplete/data/StreetCompleteSQLiteOpenHelper.kt:239-245 | block 19 succeeds, keeps the readiness for block 20 and leaves the legacy note quest table and view alone |
| UpgradeRuns.Block20Keeps | app/src/main/java/de/westnordost/streetcomplete/data/StreetCompleteSQLiteOpenHelper.kt:247-260 | block 20 succeeds, keeps what version 21 reads and leaves the legacy note quest table and view alone |
| UpgradeRuns.UpgradeFrom15To21 | app/src/main/java/de/westnordost/streetcomplete/data/StreetCompleteSQLiteOpenHelper.kt:209-334 | `onUpgrade(15, 21)` succeeds on a store that has what blocks 16 to 21 read; the comment note table then holds exactly the ANSWERED quests of the view, mapped, and the hidden note table exactly the note ids of the HIDDEN quests of the legacy table as it was before the upgrade; the legacy table and view are gone |
| UpgradeRuns.EarlyBlocksKeepRoadNames | app/src/main/java/de/westnordost/streetcomplete/data/StreetCompleteSQLiteOpenHelper.kt:98-141 | blocks 2 to 5, when they succeed, leave the road name table (or its absence) as it was |
| UpgradeRuns.MiddleBlocksKeepRoadNames | app/src/main/java/de/westnordost/streetcomplete/data/StreetCompleteSQLiteOpenHelper.kt:147-180 | blocks 7 to 11, when they succeed, leave the road name table (or its absence) as it was |
| UpgradeRuns.LateBlocksKeepRoadNames | app/src/main/java/de/westnordost/streetcomplete/data/StreetCompleteSQLiteOpenHelper.kt:182-225 | blocks 12 to 16, when they succeed, leave the road name table (or its absence) as it was |
| UpgradeRuns.BlockKeepsRoadNames | app/src/main/java/de/westnordost/streetcomplete/data/StreetCompleteSQLiteOpenHelper.kt:98-225 | every block up to 16 other than block 6 leaves the road name table (or its absence) as it was |
| UpgradeRuns.UpgradeThroughKeepsRoadNames | app/src/main/java/de/westnordost/streetcomplete/data/StreetCompleteSQLiteOpenHelper.kt:98-225 | a successful run of gates with no block 6 among them leaves the road name table as it was |
| UpgradeRuns.UpgradeFromBefore6To17Fails | app/src/main/java/de/westnordost/streetcomplete/data/StreetCompleteSQLiteOpenHelper.kt:143-232 | an upgrade from before version 6 to 17 or later fails whenever the registry's road name table already declares `last_update`: block 6 creates it with that column and block 17 adds it again |
| OpenHelper.OpenHelper.constructor | app/src/main/java/de/westnordost/streetcomplete/data/StreetCompleteSQLiteOpenHelper.kt:44-53 | the helper holds the given registry and database |
| OpenHelper.OpenHelper.ExecSql | app/src/main/java/de/westnordost/streetcomplete/data/StreetCompleteSQLiteOpenHelper.kt:101 | `execSQL` changes the database as the statement says, or leaves it and reports the error |
| OpenHelper.OpenHelper.InsertRow | app/src/main/java/de/westnordost/streetcomplete/data/StreetCompleteSQLiteOpenHelper.kt:310 | `insert` changes the database as one INSERT says and never aborts the migration |
| OpenHelper.OpenHelper.Create | app/src/main/java/de/westnordost/streetcomplete/data/StreetCompleteSQLiteOpenHelper.kt:55-92 | the k-th CREATE of `onCreate` continues the script, and an error ends `onCreate` where the script ends |
| OpenHelper.OpenHelper.OnCreate | app/src/main/java/de/westnordost/streetcomplete/data/StreetCompleteSQLiteOpenHelper.kt:55-92 | `onCreate` leaves the database as running its 24 CREATE statements in order does |
| OpenHelper.OpenHelper.RebuildOsmQuests | app/src/main/java/de/westnordost/streetcomplete/data/StreetCompleteSQLiteOpenHelper.kt:98-106 | the rebuild leaves the database as `Steps.RebuildOsmQuests` says |
| OpenHelper.OpenHelper.UpgradeTo3 | app/src/main/java/de/westnordost/streetcomplete/data/StreetCompleteSQLiteOpenHelper.kt:108-110 | block 3 leaves the database as `Steps.UpgradeTo3` says |
| OpenHelper.OpenHelper.UpgradeTo4 | app/src/main/java/de/westnordost/streetcomplete/data/StreetCompleteSQLiteOpenHelper.kt:112-133 | block 4 leaves the database as `Steps.UpgradeTo4` says |
| OpenHelper.OpenHelper.UpgradeTo5 | app/src/main/java/de/westnordost/streetcomplete/data/StreetCompleteSQLiteOpenHelper.kt:135-141 | block 5 leaves the database as `Steps.UpgradeTo5` says |
| OpenHelper.OpenHelper.UpgradeTo6 | app/src/main/java/de/westnordost/streetcomplete/data/StreetCompleteSQLiteOpenHelper.kt:143-145 | block 6 leaves the database as `Steps.UpgradeTo6` says |
| OpenHelper.OpenHelper.UpgradeTo7 | app/src/main/java/de/westnordost/streetcomplete/data/StreetCompleteSQLiteOpenHelper.kt:147-150 | block 7 leaves the database as `Steps.UpgradeTo7` says |
| OpenHelper.OpenHelper.UpgradeTo8 | app/src/main/java/de/westnordost/streetcomplete/data/StreetCompleteSQLiteOpenHelper.kt:152-163 | block 8 leaves the database as `Steps.UpgradeTo8` says |
| OpenHelper.OpenHelper.UpgradeTo9 | app/src/main/java/de/westnordost/streetcomplete/data/StreetCompleteSQLiteOpenHelper.kt:165-167 | block 9 leaves the database as `Steps.UpgradeTo9` says |
| OpenHelper.OpenHelper.UpgradeTo10 | app/src/main/java/de/westnordost/streetcomplete/data/StreetCompleteSQLiteOpenHelper.kt:169-171 | block 10 leaves the database as `Steps.UpgradeTo10` says |
| OpenHelper.OpenHelper.UpgradeTo11 | app/src/main/java/de/westnordost/streetcomplete/data/StreetCompleteSQLiteOpenHelper.kt:174-180 | block 11 leaves the database as `Steps.UpgradeTo11` says |
| OpenHelper.OpenHelper.UpgradeTo12 | app/src/main/java/de/westnordost/streetcomplete/data/StreetCompleteSQLiteOpenHelper.kt:182-189 | block 12 leaves the database as `Steps.UpgradeTo12` says |
| OpenHelper.OpenHelper.UpgradeTo13 | app/src/main/java/de/westnordost/streetcomplete/data/StreetCompleteSQLiteOpenHelper.kt:191-195 | block 13 leaves the database as `Steps.UpgradeTo13` says |
| OpenHelper.OpenHelper.UpgradeTo14 | app/src/main/java/de/westnordost/streetcomplete/data/StreetCompleteSQLiteOpenHelper.kt:197-199 | block 14 leaves the database as `Steps.UpgradeTo14` says |
| OpenHelper.OpenHelper.UpgradeTo15 | app/src/main/java/de/westnordost/streetcomplete/data/StreetCompleteSQLiteOpenHelper.kt:201-207 | block 15 leaves the database as `Steps.UpgradeTo15` says |
| OpenHelper.OpenHelper.UpgradeTo16 | app/src/main/java/de/westnordost/streetcomplete/data/StreetCompleteSQLiteOpenHelper.kt:209-225 | block 16 leaves the database as `Steps.UpgradeTo16` says |
| OpenHelper.OpenHelper.UpgradeTo17 | app/src/main/java/de/westnordost/streetcomplete/data/StreetCompleteSQLiteOpenHelper.kt:227-232 | block 17 leaves the database as `Steps.UpgradeTo17` says |
| OpenHelper.OpenHelper.UpgradeTo18 | app/src/main/java/de/westnordost/streetcomplete/data/StreetCompleteSQLiteOpenHelper.kt:234-237 | block 18 leaves the database as `Steps.UpgradeTo18` says |
| OpenHelper.OpenHelper.UpgradeTo19 | app/src/main/java/de/westnordost/streetcomplete/data/StreetCompleteSQLiteOpenHelper.kt:239-245 | block 19 leaves the database as `Steps.UpgradeTo19` says |
| OpenHelper.OpenHelper.UpgradeTo20 | app/src/main/java/de/westnordost/streetcomplete/data/StreetCompleteSQLiteOpenHelper.kt:247-260 | block 20 leaves the database as `Steps.UpgradeTo20` says |
| OpenHelper.OpenHelper.PutGeometryEntries | app/src/main/java/de/westnordost/streetcomplete/data/StreetCompleteSQLiteOpenHelper.kt:269-273 | the replace loop succeeds and leaves the geometry table as replacing every entry in order does |
| OpenHelper.OpenHelper.RebuildElementGeometry | app/src/main/java/de/westnordost/streetcomplete/data/StreetCompleteSQLiteOpenHelper.kt:266-273 | the geometry rebuild leaves the database as `Steps.RebuildElementGeometry` says |
| OpenHelper.OpenHelper.AddLastUpdates | app/src/main/java/de/westnordost/streetcomplete/data/StreetCompleteSQLiteOpenHelper.kt:275-293 | the four ADD COLUMNs leave the database as `Steps.AddLastUpdates` says |
| OpenHelper.OpenHelper.InsertRows | app/src/main/java/de/westnordost/streetcomplete/data/StreetCompleteSQLiteOpenHelper.kt:308-312 | the insert loop leaves the database as inserting every row in order does |
| OpenHelper.OpenHelper.MoveAnsweredNoteQuests | app/src/main/java/de/westnordost/streetcomplete/data/StreetCompleteSQLiteOpenHelper.kt:297-312 | the comment note part leaves the database as `Steps.MoveAnsweredNoteQuests` says |
| OpenHelper.OpenHelper.MoveHiddenNoteQuests | app/src/main/java/de/westnordost/streetcomplete/data/StreetCompleteSQLiteOpenHelper.kt:313-326 | the hidden note part leaves the database as `Steps.MoveHiddenNoteQuests` says |
| OpenHelper.OpenHelper.DropLegacyTables | app/src/main/java/de/westnordost/streetcomplete/data/StreetCompleteSQLiteOpenHelper.kt:328-333 | the last part leaves the database as `Steps.DropLegacyTables` says |
| OpenHelper.OpenHelper.UpgradeTo21 | app/src/main/java/de/westnordost/streetcomplete/data/StreetCompleteSQLiteOpenHelper.kt:262-334 | block 21 leaves the database as `Steps.UpgradeTo21` says |
| OpenHelper.OpenHelper.Gate2 | app/src/main/java/de/westnordost/streetcomplete/data/StreetCompleteSQLiteOpenHelper.kt:98-106 | the `if` for version 2 continues the gates before it exactly as `Migration.UpgradeThrough` says, and an error there ends the upgrade |
| OpenHelper.OpenHelper.Gate3 | app/src/main/java/de/westnordost/streetcomplete/data/StreetCompleteSQLiteOpenHelper.kt:108-110 | the `if` for version 3 continues the gates before it exactly as `Migration.UpgradeThrough` says, and an error there ends the upgrade |
| OpenHelper.OpenHelper.Gate4 | app/src/main/java/de/westnordost/streetcomplete/data/StreetCompleteSQLiteOpenHelper.kt:112-133 | the `if` for version 4 continues the gates before it exactly as `Migration.UpgradeThrough` says, and an error there ends the upgrade |
| OpenHelper.OpenHelper.Gate5 | app/src/main/java/de/westnordost/streetcomplete/data/StreetCompleteSQLiteOpenHelper.kt:135-141 | the `if` for version 5 continues the gates before it exactly as `Migration.UpgradeThrough` says, and an error there ends the upgrade |
| OpenHelper.OpenHelper.Gate6 | app/src/main/java/de/westnordost/streetcomplete/data/StreetCompleteSQLiteOpenHelper.kt:143-145 | the `if` for version 6 continues the gates before it exactly as `Migration.UpgradeThrough` says, and an error there ends the upgrade |
| OpenHelper.OpenHelper.Gate7 | app/src/main/java/de/westnordost/streetcomplete/data/StreetCompleteSQLiteOpenHelper.kt:147-150 | the `if` for version 7 continues the gates before it exactly as `Migration.UpgradeThrough` says, and an error there ends the upgrade |
| OpenHelper.OpenHelper.Gate8 | app/src/main/java/de/westnordost/streetcomplete/data/StreetCompleteSQLiteOpenHelper.kt:152-163 | the `if` for version 8 continues the gates before it exactly as `Migration.UpgradeThrough` says, and an error there ends the upgrade |
| OpenHelper.OpenHelper.Gate9 | app/src/main/java/de/westnordost/streetcomplete/data/StreetCompleteSQLiteOpenHelper.kt:165-167 | the `if` for version 9 continues the gates before it exactly as `Migration.UpgradeThrough` says, and an error there ends the upgrade |
| OpenHelper.OpenHelper.Gate10 | app/src/main/java/de/westnordost/streetcomplete/data/StreetCompleteSQLiteOpenHelper.kt:169-171 | the `if` for version 10 continues the gates before it exactly as `Migration.UpgradeThrough` says, and an error there ends the upgrade |
| OpenHelper.OpenHelper.Gate11 | app/src/main/java/de/westnordost/streetcomplete/data/StreetCompleteSQLiteOpenHelper.kt:174-180 | the `if` for version 11 continues the gates before it exactly as `Migration.UpgradeThrough` says, and an error there ends the upgrade |
| OpenHelper.OpenHelper.Gate12 | app/src/main/java/de/westnordost/streetcomplete/data/StreetCompleteSQLiteOpenHelper.kt:182-189 | the `if` for version 12 continues the gates before it exactly as `Migration.UpgradeThrough` says, and an error there ends the upgrade |
| OpenHelper.OpenHelper.Gate13 | app/src/main/java/de/westnordost/streetcomplete/data/StreetCompleteSQLiteOpenHelper.kt:191-195 | the `if` for version 13 continues the gates before it exactly as `Migration.UpgradeThrough` says, and an error there ends the upgrade |
| OpenHelper.OpenHelper.Gate14 | app/src/main/java/de/westnordost/streetcomplete/data/StreetCompleteSQLiteOpenHelper.kt:197-199 | the `if` for version 14 continues the gates before it exactly as `Migration.UpgradeThrough` says, and an error there ends the upgrade |
| OpenHelper.OpenHelper.Gate15 | app/src/main/java/de/westnordost/streetcomplete/data/StreetCompleteSQLiteOpenHelper.kt:201-207 | the `if` for version 15 continues the gates before it exactly as `Migration.UpgradeThrough` says, and an error there ends the upgrade |
| OpenHelper.OpenHelper.Gate16 | app/src/main/java/de/westnordost/streetcomplete/data/StreetCompleteSQLiteOpenHelper.kt:209-225 | the `if` for version 16 continues the gates before it exactly as `Migration.UpgradeThrough` says, and an error there ends the upgrade |
| OpenHelper.OpenHelper.Gate17 | app/src/main/java/de/westnordost/streetcomplete/data/StreetCompleteSQLiteOpenHelper.kt:227-232 | the `if` for version 17 continues the gates before it exactly as `Migration.UpgradeThrough` says, and an error there ends the upgrade |
| OpenHelper.OpenHelper.Gate18 | app/src/main/java/de/westnordost/streetcomplete/data/StreetCompleteSQLiteOpenHelper.kt:234-237 | the `if` for version 18 continues the gates before it exactly as `Migration.UpgradeThrough` says, and an error there ends the upgrade |
| OpenHelper.OpenHelper.Gate19 | app/src/main/java/de/westnordost/streetcomplete/data/StreetCompleteSQLiteOpenHelper.kt:239-245 | the `if` for version 19 continues the gates before it exactly as `Migration.UpgradeThrough` says, and an error there ends the upgrade |
| OpenHelper.OpenHelper.Gate20 | app/src/main/java/de/westnordost/streetcomplete/data/StreetCompleteSQLiteOpenHelper.kt:247-260 | the `if` for version 20 continues the gates before it exactly as `Migration.UpgradeThrough` says, and an error there ends the upgrade |
| OpenHelper.OpenHelper.Gate21 | app/src/main/java/de/westnordost/streetcomplete/data/StreetCompleteSQLiteOpenHelper.kt:262-334 | the `if` for version 21 continues the gates before it exactly as `Migration.UpgradeThrough` says, and an error there ends the upgrade |
| OpenHelper.OpenHelper.OnUpgrade | app/src/main/java/de/westnordost/streetcomplete/data/StreetCompleteSQLiteOpenHelper.kt:94-338 | `onUpgrade` leaves the database as `Migration.Upgrade` says |
| OpenHelper.GateRuns | app/src/main/java/de/westnordost/streetcomplete/data/StreetCompleteSQLiteOpenHelper.kt:94-338 | a gate that fires takes the store from the earlier gates' result through its block |
| OpenHelper.GateSkips | app/src/main/java/de/westnordost/streetcomplete/data/StreetCompleteSQLiteOpenHelper.kt:94-338 | a gate that does not fire changes nothing |

## Left out

- The framework around the helper is not modelled: `SQLiteOpenHelper` decides when
  to call `onCreate` or `onUpgrade`, refuses downgrades and records the new version
  number.
- Transactions and rollback are not modelled. A failed block leaves the statements it
  already ran in place. The transactions around the version-21 insert loops only
  group statements that cannot fail in the model.
- The SQL of the views is not modelled. A view's rows come from the parameter
  `viewRows`.
- Which tables each view reads (`Schema.ViewSources`) is the model's own reading of
  the view names (a merged view reads its table and the geometry table). It is not
  taken from the views' SQL, so the "views after the tables they read" of
  `Schema.CreationScriptWellOrdered` rests on that reading.
- The registry's CREATE statements are not modelled. The columns of each registry
  object come from the parameter `columnsOf`. Names that the file only takes from
  registry constants are stand-ins with the registry's spelling.
- `columnsOf` is left unconstrained, because the registry's own column lists are not
  part of this model. In particular the model does not decide whether the road name
  table's CREATE declares `last_update`. `onCreate` (line 89) runs that same CREATE
  for a version-21 store, which suggests it does. If so, an upgrade from before
  version 6 to version 17 or later aborts: block 6 creates the table with the column,
  and block 17 adds it again (`UpgradeRuns.UpgradeFromBefore6To17Fails`).
- Cursor type conversions (`getLong`, `getDouble`, `getBlobOrNull`) are not
  modelled. Values are read as stored. Floating-point values and blobs are carried as
  opaque values.
- Reading the clock is not modelled: `Date().time` is read once per ALTER statement,
  but the model uses a single `now` for the whole upgrade.
- Column types, NOT NULL and key constraints other than the geometry key of
  INSERT OR REPLACE are not modelled, so an insert never conflicts. NULL key values
  compare equal in `KeyOf`.
- `ALTER TABLE ... RENAME` in the version-3 rebuild does not rewrite the views that
  read the renamed table.
- StepFacts.UpgradeTo4Backfills: states its result only for a quest table whose
  column names are distinct and whose rows carry only declared columns
  (`DistinctColumns`, `RowsFit`), which SQLite guarantees and the model does not
  enforce.

## Findings

| source | as written | input that shows it | evidently intended | confidence | as-written member | corrected member |
|---|---|---|---|---|---|---|
| app/src/main/java/de/westnordost/streetcomplete/data/StreetCompleteSQLiteOpenHelper.kt:297-318 | the version-21 queries filter with `quest_status = ANSWERED` and `quest_status = HIDDEN`, unquoted, which compares the status with columns named ANSWERED and HIDDEN | any store whose `osm_notequests_full` view has no column named ANSWERED (every real one): the query raises "no such column" and the upgrade to 21 aborts | compare with the string literals 'ANSWERED' and 'HIDDEN', so answered quests become comment notes and hidden quests become hidden note ids | high, not executed | Version21Facts.AsWrittenStatusQueryFails | Version21Facts.UpgradeTo21Succeeds |

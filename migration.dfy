/**
  The whole of `onUpgrade`: the version-gated blocks of `Steps`, tried in ascending
  order. Block 2 is the quest table rebuild taken only when upgrading from version 2;
  block V, for V from 3 to 21, is taken when the store is older than V and the target
  is V or newer. An SQL error in a block aborts the rest of the upgrade.
 */
module Migration {
  import opened Store
  import opened Schema
  import opened Steps

  /** Whether the block for version `v` runs when upgrading from `oldVersion` to `newVersion`. */
  predicate Fires(v: int, oldVersion: int, newVersion: int) {
    if v == 2 then oldVersion == 2 else oldVersion < v && newVersion >= v
  }

  /**
    The block for version `v`. The versions are split in halves, so that picking a
    block takes a handful of comparisons rather than a chain of twenty.
   */
  function Block(v: int, db: Db, env: Env, now: int): Outcome
    requires 2 <= v <= DbVersion
  {
    if v <= 11 then
      if v <= 6 then
        if v <= 3 then (if v == 2 then RebuildOsmQuests(db) else UpgradeTo3(db, env))
        else if v == 4 then UpgradeTo4(db, env) else if v == 5 then UpgradeTo5(db) else UpgradeTo6(db, env)
      else
        if v <= 8 then (if v == 7 then UpgradeTo7(db, env) else UpgradeTo8(db))
        else if v == 9 then UpgradeTo9(db, env) else if v == 10 then UpgradeTo10(db, env) else UpgradeTo11(db)
    else
      if v <= 16 then
        if v <= 13 then (if v == 12 then UpgradeTo12(db, env) else UpgradeTo13(db, env))
        else if v == 14 then UpgradeTo14(db, env) else if v == 15 then UpgradeTo15(db) else UpgradeTo16(db)
      else
        if v <= 18 then (if v == 17 then UpgradeTo17(db, now) else UpgradeTo18(db))
        else if v == 19 then UpgradeTo19(db, env) else if v == 20 then UpgradeTo20(db) else UpgradeTo21(db, env, now)
  }

  // The block of each version, one lemma per version: a gate's proof needs only its own.

  lemma BlockAt2(db: Db, env: Env, now: int)
    ensures Block(2, db, env, now) == RebuildOsmQuests(db)
  {
  }

  lemma BlockAt3(db: Db, env: Env, now: int)
    ensures Block(3, db, env, now) == UpgradeTo3(db, env)
  {
  }

  lemma BlockAt4(db: Db, env: Env, now: int)
    ensures Block(4, db, env, now) == UpgradeTo4(db, env)
  {
  }

  lemma BlockAt5(db: Db, env: Env, now: int)
    ensures Block(5, db, env, now) == UpgradeTo5(db)
  {
  }

  lemma BlockAt6(db: Db, env: Env, now: int)
    ensures Block(6, db, env, now) == UpgradeTo6(db, env)
  {
  }

  lemma BlockAt7(db: Db, env: Env, now: int)
    ensures Block(7, db, env, now) == UpgradeTo7(db, env)
  {
  }

  lemma BlockAt8(db: Db, env: Env, now: int)
    ensures Block(8, db, env, now) == UpgradeTo8(db)
  {
  }

  lemma BlockAt9(db: Db, env: Env, now: int)
    ensures Block(9, db, env, now) == UpgradeTo9(db, env)
  {
  }

  lemma BlockAt10(db: Db, env: Env, now: int)
    ensures Block(10, db, env, now) == UpgradeTo10(db, env)
  {
  }

  lemma BlockAt11(db: Db, env: Env, now: int)
    ensures Block(11, db, env, now) == UpgradeTo11(db)
  {
  }

  lemma BlockAt12(db: Db, env: Env, now: int)
    ensures Block(12, db, env, now) == UpgradeTo12(db, env)
  {
  }

  lemma BlockAt13(db: Db, env: Env, now: int)
    ensures Block(13, db, env, now) == UpgradeTo13(db, env)
  {
  }

  lemma BlockAt14(db: Db, env: Env, now: int)
    ensures Block(14, db, env, now) == UpgradeTo14(db, env)
  {
  }

  lemma BlockAt15(db: Db, env: Env, now: int)
    ensures Block(15, db, env, now) == UpgradeTo15(db)
  {
  }

  lemma BlockAt16(db: Db, env: Env, now: int)
    ensures Block(16, db, env, now) == UpgradeTo16(db)
  {
  }

  lemma BlockAt17(db: Db, env: Env, now: int)
    ensures Block(17, db, env, now) == UpgradeTo17(db, now)
  {
  }

  lemma BlockAt18(db: Db, env: Env, now: int)
    ensures Block(18, db, env, now) == UpgradeTo18(db)
  {
  }

  lemma BlockAt19(db: Db, env: Env, now: int)
    ensures Block(19, db, env, now) == UpgradeTo19(db, env)
  {
  }

  lemma BlockAt20(db: Db, env: Env, now: int)
    ensures Block(20, db, env, now) == UpgradeTo20(db)
  {
  }

  lemma BlockAt21(db: Db, env: Env, now: int)
    ensures Block(21, db, env, now) == UpgradeTo21(db, env, now)
  {
  }

  /** Block `v` run after `o`, unless `o` already failed. */
  function Next(o: Outcome, v: int, env: Env, now: int): Outcome
    requires 2 <= v <= DbVersion
  {
    if o.ok then Block(v, o.db, env, now) else o
  }

  /** The `if` for version `v`: its block runs when it fires and nothing has failed yet. */
  function Gate(o: Outcome, v: int, env: Env, now: int, oldVersion: int, newVersion: int): Outcome
    requires 2 <= v <= DbVersion
  {
    if Fires(v, oldVersion, newVersion) then Next(o, v, env, now) else o
  }

  /** The gates for versions 2 to `v`, in order, run on `db`. */
  function UpgradeThrough(db: Db, env: Env, now: int, oldVersion: int, newVersion: int, v: int): Outcome
    requires 1 <= v <= DbVersion
    decreases v
  {
    if v == 1 then Done(db)
    else Gate(UpgradeThrough(db, env, now, oldVersion, newVersion, v - 1), v, env, now, oldVersion, newVersion)
  }

  /** `onUpgrade(db, oldVersion, newVersion)`, with `now` for every reading of the clock. */
  function Upgrade(db: Db, env: Env, now: int, oldVersion: int, newVersion: int): Outcome {
    UpgradeThrough(db, env, now, oldVersion, newVersion, DbVersion)
  }

  /** Once a block has failed, the later gates change nothing. */
  lemma {:induction false} UpgradeThroughStops(db: Db, env: Env, now: int, oldVersion: int, newVersion: int, v: int, w: int)
    requires 1 <= v <= w <= DbVersion
    requires !UpgradeThrough(db, env, now, oldVersion, newVersion, v).ok
    ensures UpgradeThrough(db, env, now, oldVersion, newVersion, w) == UpgradeThrough(db, env, now, oldVersion, newVersion, v)
    decreases w
  {
    if w > v {
      UpgradeThroughStops(db, env, now, oldVersion, newVersion, v, w - 1);
    }
  }

  /** Gates that do not fire change nothing: the outcome after `v` is the outcome after `w`. */
  lemma {:induction false} UpgradeThroughSkips(db: Db, env: Env, now: int, oldVersion: int, newVersion: int, w: int, v: int)
    requires 1 <= w <= v <= DbVersion
    requires forall x :: w < x <= v ==> !Fires(x, oldVersion, newVersion)
    ensures UpgradeThrough(db, env, now, oldVersion, newVersion, v) == UpgradeThrough(db, env, now, oldVersion, newVersion, w)
    decreases v
  {
    hide Block;
    if v > w {
      UpgradeThroughSkips(db, env, now, oldVersion, newVersion, w, v - 1);
    }
  }

  /** The versions from 2 to `v` whose blocks fire, in ascending order. */
  function FiredThrough(oldVersion: int, newVersion: int, v: int): (vs: seq<int>)
    requires 1 <= v <= DbVersion
    ensures forall x :: x in vs <==> 2 <= x <= v && Fires(x, oldVersion, newVersion)
    ensures forall i :: 0 <= i < |vs| ==> 2 <= vs[i] <= v
    ensures forall i, j :: 0 <= i < j < |vs| ==> vs[i] < vs[j]
    decreases v
  {
    if v == 1 then []
    else
      var earlier := FiredThrough(oldVersion, newVersion, v - 1);
      if Fires(v, oldVersion, newVersion) then earlier + [v] else earlier
  }

  /** The blocks `onUpgrade(oldVersion, newVersion)` runs, in the order it runs them. */
  function FiredBlocks(oldVersion: int, newVersion: int): seq<int> {
    FiredThrough(oldVersion, newVersion, DbVersion)
  }

  /** Runs the blocks `vs` in order on `db`, stopping at the first failure. */
  function RunBlocks(db: Db, vs: seq<int>, env: Env, now: int): Outcome
    requires forall i :: 0 <= i < |vs| ==> 2 <= vs[i] <= DbVersion
    decreases |vs|
  {
    if vs == [] then Done(db)
    else
      Next(RunBlocks(db, vs[..|vs| - 1], env, now), vs[|vs| - 1], env, now)
  }

  /** One more block at the end of the list is one more `Next`. */
  lemma RunBlocksSnoc(db: Db, vs: seq<int>, v: int, env: Env, now: int)
    requires forall i :: 0 <= i < |vs| ==> 2 <= vs[i] <= DbVersion
    requires 2 <= v <= DbVersion
    ensures RunBlocks(db, vs + [v], env, now) == Next(RunBlocks(db, vs, env, now), v, env, now)
  {
    assert (vs + [v])[..|vs|] == vs;
  }

  /**
    Gating and order: the gates up to `v` do exactly what running the blocks that
    fire, in ascending order, does.
   */
  lemma {:induction false} UpgradeThroughRunsFiredBlocks(db: Db, env: Env, now: int, oldVersion: int, newVersion: int, v: int)
    requires 1 <= v <= DbVersion
    ensures UpgradeThrough(db, env, now, oldVersion, newVersion, v)
         == RunBlocks(db, FiredThrough(oldVersion, newVersion, v), env, now)
    decreases v
  {
    if v > 1 {
      var earlier := FiredThrough(oldVersion, newVersion, v - 1);
      UpgradeThroughRunsFiredBlocks(db, env, now, oldVersion, newVersion, v - 1);
      if Fires(v, oldVersion, newVersion) {
        RunBlocksSnoc(db, earlier, v, env, now);
      }
    }
  }

  /**
    `onUpgrade` runs exactly the blocks that fire, each once, in ascending version
    order: block V (3 <= V <= 21) when `oldVersion < V <= newVersion`, and the quest
    table rebuild when `oldVersion == 2`.
   */
  lemma UpgradeRunsFiredBlocks(db: Db, env: Env, now: int, oldVersion: int, newVersion: int)
    ensures Upgrade(db, env, now, oldVersion, newVersion)
         == RunBlocks(db, FiredBlocks(oldVersion, newVersion), env, now)
    ensures forall v :: v in FiredBlocks(oldVersion, newVersion) <==>
      (v == 2 && oldVersion == 2) || (3 <= v <= DbVersion && oldVersion < v <= newVersion)
    ensures forall i, j :: 0 <= i < j < |FiredBlocks(oldVersion, newVersion)| ==>
      FiredBlocks(oldVersion, newVersion)[i] < FiredBlocks(oldVersion, newVersion)[j]
  {
    UpgradeThroughRunsFiredBlocks(db, env, now, oldVersion, newVersion, DbVersion);
  }
}

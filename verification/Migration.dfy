/**
 The Agent's directory migration: legacy entries of an instance move into `data/`, and a crash
 at any point loses nothing.
 */
module Migration {
  import opened Wrappers

  type Name = string
  type Content = string

  const COMPOSE: Name := "docker-compose.yml"
  const WORKSPACE: Name := "workspace"
  const DATA: Name := "data"
  const MARKER: Name := ".xcloud-layout-v2-migrating"
  const NOTE: Content := "legacy instance data migration in progress\n"
  const TEMP_PREFIX: Name := ".xcloud-agent-"

  const KEPT: set<Name> := {COMPOSE, WORKSPACE, DATA, MARKER}

  /** The instance directory: its entries, and `data/` once it exists. */
  datatype Tree = Tree(root: map<Name, Content>, data: Option<map<Name, Content>>)

  predicate Temporary(n: Name) {
    |n| >= |TEMP_PREFIX| && n[..|TEMP_PREFIX|] == TEMP_PREFIX
  }

  /** The original layout: a Compose file, no `data/`, no marker, no leftovers of this program. */
  ghost predicate Legacy(t: Tree) {
    COMPOSE in t.root && t.data.None? && MARKER !in t.root && DATA !in t.root
    && forall n :: n in t.root ==> !Temporary(n)
  }

  predicate LegacyEntry(t: Tree, n: Name) {
    n in t.root && n !in KEPT
  }

  predicate InRoot(t: Tree, n: Name, c: Content) {
    n in t.root && t.root[n] == c
  }

  predicate InData(t: Tree, n: Name, c: Content) {
    t.data.Some? && n in t.data.value && t.data.value[n] == c
  }

  /** A Compose file or workspace is there before exactly if it is there after, with the same content. */
  predicate SameEntry(a: Tree, b: Tree, n: Name) {
    (n in a.root <==> n in b.root) && (n in a.root ==> a.root[n] == b.root[n])
  }

  /** What holds at every crash point of every run that started from `legacy`. */
  ghost predicate Midway(legacy: Tree, t: Tree) {
    && SameEntry(legacy, t, COMPOSE) && SameEntry(legacy, t, WORKSPACE) && DATA !in t.root
    && (forall n :: LegacyEntry(legacy, n) ==> (InRoot(t, n, legacy.root[n]) || InData(t, n, legacy.root[n])))
    && (forall n :: n in t.root && t.data.Some? && n in t.data.value ==> n in KEPT)
    && (forall n :: n in t.root ==> n in KEPT || LegacyEntry(legacy, n) || Temporary(n))
    && (forall n :: t.data.Some? && n in t.data.value ==> LegacyEntry(legacy, n) || Temporary(n))
    && (t.data.Some? && MARKER !in t.root ==> forall n :: n in t.root ==> n in KEPT)
  }

  /** Every legacy entry is in `data/` with its content; nothing else is left at the root. */
  ghost predicate Migrated(legacy: Tree, t: Tree) {
    && t.data.Some? && MARKER !in t.root
    && SameEntry(legacy, t, COMPOSE) && SameEntry(legacy, t, WORKSPACE)
    && (forall n :: n in t.root ==> n in {COMPOSE, WORKSPACE})
    && (forall n :: LegacyEntry(legacy, n) ==> InData(t, n, legacy.root[n]))
    && (forall n :: n in t.data.value ==> LegacyEntry(legacy, n) || Temporary(n))
  }

  /** At every crash point each legacy entry sits in exactly one of the two places. */
  lemma InExactlyOnePlace(legacy: Tree, t: Tree, n: Name)
    requires Midway(legacy, t) && LegacyEntry(legacy, n)
    ensures (n in t.root && t.root[n] == legacy.root[n] && !(t.data.Some? && n in t.data.value))
            || (n !in t.root && t.data.Some? && n in t.data.value && t.data.value[n] == legacy.root[n])
  {
    assert InRoot(t, n, legacy.root[n]) || InData(t, n, legacy.root[n]);
  }

  lemma LegacyIsMidway(legacy: Tree)
    requires Legacy(legacy)
    ensures Midway(legacy, legacy)
  {
    assert forall n :: LegacyEntry(legacy, n) ==> InRoot(legacy, n, legacy.root[n]);
  }

  /** What a completed run leaves is what the promise asks for. */
  lemma FinishedIsMigrated(legacy: Tree, t: Tree)
    requires Legacy(legacy) && Midway(legacy, t) && t.data.Some? && MARKER !in t.root
    ensures Migrated(legacy, t)
  {
    forall n | LegacyEntry(legacy, n) ensures InData(t, n, legacy.root[n]) {
      assert InRoot(t, n, legacy.root[n]) || InData(t, n, legacy.root[n]);
    }
  }

  /** Nothing to migrate: the current layout, or a new instance without a Compose file. */
  predicate Untouchable(t: Tree) {
    MARKER !in t.root && (t.data.Some? || COMPOSE !in t.root)
  }

  // ---------- any directory ----------

  /** The entry is waiting to be moved and its destination is taken. */
  predicate Taken(t: Tree, n: Name) {
    n in t.root && n !in KEPT && t.data.Some? && n in t.data.value
  }

  /** Nothing is lost, overwritten or invented; entries only move from the root to `data/`. */
  ghost predicate Moved(a: Tree, b: Tree) {
    && (a.data.Some? ==> b.data.Some?) && SameEntry(a, b, COMPOSE) && SameEntry(a, b, WORKSPACE)
       && SameEntry(a, b, DATA)
    && (forall n, c :: InData(a, n, c) ==> InData(b, n, c))
    && (forall n :: LegacyEntry(a, n) ==> InRoot(b, n, a.root[n]) || InData(b, n, a.root[n]))
    && (forall n :: Taken(a, n) ==> InRoot(b, n, a.root[n]))
    && (forall n :: n in b.root ==> n in a.root || n == MARKER || Temporary(n))
    && (forall n :: n in b.root && LegacyEntry(a, n) ==> b.root[n] == a.root[n] || Temporary(n))
    && (forall n, c :: InData(b, n, c) ==> InData(a, n, c) || (LegacyEntry(a, n) && InRoot(a, n, c)) || Temporary(n))
  }

  datatype Outcome = Finished | Crashed | Clash(name: Name)

  class InstanceDir {
    var root: map<Name, Content>
    var data: Option<map<Name, Content>>

    function Now(): Tree
      reads this
    {
      Tree(root, data)
    }

    /**
     One run of the migration. `budget` is the number of file-system operations before the
     process dies, and `temp` the temporary name the system hands out for the marker.
     */
    method Migrate(ghost legacy: Tree, temp: Name, budget: nat) returns (outcome: Outcome)
      requires DATA !in root && Temporary(temp) && temp !in root && temp !in KEPT
      modifies this
      ensures Moved(old(Now()), Now()) && DATA !in root
      ensures Untouchable(old(Now())) ==> outcome.Finished? && Now() == old(Now())
      ensures outcome.Finished? ==> Untouchable(Now())
      ensures outcome.Finished? && !Untouchable(old(Now())) ==> root.Keys <= {COMPOSE, WORKSPACE}
      ensures outcome.Clash? ==> Taken(old(Now()), outcome.name) && Taken(Now(), outcome.name) && MARKER in root
      ensures budget >= 6 + |old(root)| ==>
                (outcome.Finished? <==> Untouchable(old(Now())) || forall n :: !Taken(old(Now()), n))
      ensures Legacy(legacy) && old(Midway(legacy, Now())) ==>
                Midway(legacy, Now()) && !outcome.Clash? && (outcome.Finished? ==> Migrated(legacy, Now()))
    {
      hide Midway, Moved, Migrated;
      ghost var mid := Legacy(legacy) && Midway(legacy, Now());
      ghost var before := Now();
      NothingMoved(before);
      if mid {
        MidwayNeverClashes(legacy, before);
      }
      var left := budget;
      if MARKER !in root {
        if data.Some? {
          if mid {
            FinishedIsMigrated(legacy, before);
          }
          return Finished;
        }
        if COMPOSE !in root {
          return Finished;
        }
        WriteMarker(legacy, temp, left);
        if left < 3 {
          return Crashed;
        }
        left := left - 3;
      }
      if left == 0 {
        return Crashed;
      }
      ghost var marked := Now();
      if data.None? {
        data := Some(map[]);
        EmptyData(before, marked);
        if mid {
          DataAppears(legacy, marked);
        }
      }
      assert forall n :: Taken(Now(), n) <==> Taken(before, n);
      left := left - 1;
      ghost var started := Now();
      outcome := MoveEntries(legacy, left);
      MovedOnward(before, started, Now());
      if outcome.Finished? && mid {
        FinishedIsMigrated(legacy, Now());
      }
    }

    /** The marker appears whole: it is written under a temporary name first. */
    method WriteMarker(ghost legacy: Tree, temp: Name, left: nat)
      requires data.None? && MARKER !in root && DATA !in root && Temporary(temp) && temp !in root && temp !in KEPT
      modifies this`root
      ensures Moved(old(Now()), Now()) && DATA !in root
      ensures left >= 3 ==> root == old(root)[MARKER := NOTE]
      ensures left < 3 ==> MARKER !in root && root - {temp} == old(root)
      ensures old(Midway(legacy, Now())) ==> Midway(legacy, Now())
    {
      if left == 0 {
        return;
      }
      root := root[temp := ""];
      if left == 1 {
        return;
      }
      root := root[temp := NOTE];
      if left == 2 {
        return;
      }
      ghost var before := old(root);
      root := (root - {temp})[MARKER := NOTE];
      assert root == before[MARKER := NOTE];
    }

    /** Rename every entry that is not a management path, in any order, then remove the marker. */
    method MoveEntries(ghost legacy: Tree, budget: nat) returns (outcome: Outcome)
      requires data.Some? && MARKER in root && DATA !in root
      modifies this
      ensures Moved(old(Now()), Now()) && data.Some? && DATA !in root
      ensures old(Midway(legacy, Now())) ==> Midway(legacy, Now())
      ensures outcome.Finished? ==> root.Keys <= {COMPOSE, WORKSPACE} && forall n :: !Taken(old(Now()), n)
      ensures outcome.Clash? ==> Taken(old(Now()), outcome.name) && Taken(Now(), outcome.name) && MARKER in root
      ensures budget >= |old(root)| + 1 ==> !outcome.Crashed?
    {
      hide Midway, Moved;
      ghost var before := Now();
      var entries := root.Keys - KEPT;
      var left := budget;
      ghost var total := |root|;
      EntriesFit(root);
      NothingMoved(before);
      while entries != {}
        invariant data.Some? && MARKER in root && Moved(before, Now())
        invariant Midway(legacy, before) ==> Midway(legacy, Now())
        invariant forall m :: Taken(Now(), m) <==> Taken(before, m)
        invariant entries == root.Keys - KEPT && DATA !in root
        invariant budget >= total + 1 ==> left >= |entries| + 1
        decreases |entries|
      {
        var n :| n in entries;
        if n in data.value {
          assert Taken(Now(), n);
          return Clash(n);
        }
        if left == 0 {
          return Crashed;
        }
        MoveOne(legacy, before, Now(), n);
        data := Some(data.value[n := root[n]]);
        root := root - {n};
        entries := entries - {n};
        left := left - 1;
      }
      assert forall m :: !Taken(Now(), m) by {
        forall m ensures !Taken(Now(), m) {
          assert m !in root.Keys - KEPT;
        }
      }
      if left == 0 {
        return Crashed;
      }
      ghost var at := Now();
      if Midway(legacy, at) {
        UnmarkKeeps(legacy, at);
      }
      UnmarkMoves(at);
      MovedOnward(before, at, Tree(root - {MARKER}, data));
      root := root - {MARKER};
      OnlyKeptIsLeft(root);
      return Finished;
    }
  }

  lemma NothingMoved(t: Tree)
    ensures Moved(t, t)
  {
  }

  lemma EmptyData(a: Tree, t: Tree)
    requires Moved(a, t) && t.data.None?
    ensures Moved(a, Tree(t.root, Some(map[])))
  {
    forall n | LegacyEntry(a, n) ensures InRoot(t, n, a.root[n]) {
      assert InRoot(t, n, a.root[n]) || InData(t, n, a.root[n]);
    }
  }

  lemma DataAppears(legacy: Tree, t: Tree)
    requires Midway(legacy, t) && t.data.None? && MARKER in t.root
    ensures Midway(legacy, Tree(t.root, Some(map[])))
  {
    var u := Tree(t.root, Some(map[]));
    forall n | LegacyEntry(legacy, n) ensures InRoot(u, n, legacy.root[n]) {
      assert InRoot(t, n, legacy.root[n]) || InData(t, n, legacy.root[n]);
    }
  }

  lemma MovedOnward(a: Tree, b: Tree, c: Tree)
    requires Moved(a, b) && Moved(b, c) && (forall n :: Taken(a, n) ==> Taken(b, n))
    ensures Moved(a, c)
  {
  }

  lemma RenameMoves(t: Tree, n: Name)
    requires n in t.root && n !in KEPT && t.data.Some? && n !in t.data.value
    ensures Moved(t, Renamed(t, n)) && forall m :: Taken(Renamed(t, n), m) <==> Taken(t, m)
  {
    var u := Renamed(t, n);
    forall m | LegacyEntry(t, m) ensures InRoot(u, m, t.root[m]) || InData(u, m, t.root[m]) {
      assert m == n || InRoot(u, m, t.root[m]);
    }
  }

  lemma MoveOne(legacy: Tree, before: Tree, t: Tree, n: Name)
    requires n in t.root && n !in KEPT && t.data.Some? && n !in t.data.value && MARKER in t.root
    requires Moved(before, t) && forall m :: Taken(t, m) <==> Taken(before, m)
    ensures var u := Renamed(t, n);
            Moved(before, u) && (Midway(legacy, t) ==> Midway(legacy, u))
            && forall m :: Taken(u, m) <==> Taken(before, m)
  {
    hide Midway, Moved, Taken;
    if Midway(legacy, t) {
      RenameKeeps(legacy, t, n);
    }
    RenameMoves(t, n);
    MovedOnward(before, t, Renamed(t, n));
  }

  lemma UnmarkMoves(t: Tree)
    ensures Moved(t, Tree(t.root - {MARKER}, t.data))
  {
  }

  lemma OnlyKeptIsLeft(root: map<Name, Content>)
    requires root.Keys - KEPT == {} && MARKER !in root && DATA !in root
    ensures root.Keys <= {COMPOSE, WORKSPACE}
  {
    forall n | n in root ensures n in {COMPOSE, WORKSPACE} {
      assert n !in root.Keys - KEPT;
    }
  }

  lemma MidwayNeverClashes(legacy: Tree, t: Tree)
    requires Legacy(legacy) && Midway(legacy, t)
    ensures COMPOSE in t.root && forall n :: !Taken(t, n)
  {
  }

  lemma UnmarkKeeps(legacy: Tree, t: Tree)
    requires Midway(legacy, t) && t.data.Some? && t.root.Keys - KEPT == {}
    ensures Midway(legacy, Tree(t.root - {MARKER}, t.data))
  {
    var u := Tree(t.root - {MARKER}, t.data);
    forall n | n in u.root ensures n in KEPT {
      assert n !in t.root.Keys - KEPT;
    }
    forall m | LegacyEntry(legacy, m) ensures InRoot(u, m, legacy.root[m]) || InData(u, m, legacy.root[m]) {
      assert InRoot(t, m, legacy.root[m]) || InData(t, m, legacy.root[m]);
    }
  }

  lemma EntriesFit(root: map<Name, Content>)
    ensures MARKER in root ==> |root.Keys - KEPT| + 1 <= |root|
  {
    if MARKER in root {
      assert (root.Keys - KEPT) + {MARKER} <= root.Keys;
      Subset((root.Keys - KEPT) + {MARKER}, root.Keys);
    }
  }

  lemma {:induction false} Subset(a: set<Name>, b: set<Name>)
    requires a <= b
    ensures |a| <= |b|
    decreases |a|
  {
    if a != {} {
      var x :| x in a;
      Subset(a - {x}, b - {x});
    }
  }

  function Renamed(t: Tree, n: Name): Tree
    requires n in t.root && t.data.Some?
  {
    Tree(t.root - {n}, Some(t.data.value[n := t.root[n]]))
  }

  /** A rename takes an entry from one place to the other, with its content. */
  lemma RenameKeeps(legacy: Tree, t: Tree, n: Name)
    requires Midway(legacy, t) && n in t.root && n !in KEPT && t.data.Some? && n !in t.data.value && MARKER in t.root
    ensures Midway(legacy, Renamed(t, n))
  {
    var u := Renamed(t, n);
    forall m | LegacyEntry(legacy, m) ensures InRoot(u, m, legacy.root[m]) || InData(u, m, legacy.root[m]) {
      assert InRoot(t, m, legacy.root[m]) || InData(t, m, legacy.root[m]);
    }
  }

  /**
   Any number of runs that crash wherever their budget ends, then one that is not interrupted:
   everything is migrated, and further runs change nothing.
   */
  method RunUntilDone(dir: InstanceDir, budgets: seq<nat>)
    requires Legacy(dir.Now())
    modifies dir
    ensures Migrated(old(dir.Now()), dir.Now()) && Untouchable(dir.Now())
  {
    ghost var legacy := dir.Now();
    LegacyIsMidway(legacy);
    var k := 0;
    while k < |budgets|
      invariant 0 <= k <= |budgets| && Midway(legacy, dir.Now())
    {
      var temp := FreshTemporary(dir.root.Keys);
      var _ := dir.Migrate(legacy, temp, budgets[k]);
      k := k + 1;
    }
    var temp := FreshTemporary(dir.root.Keys);
    var _ := dir.Migrate(legacy, temp, 6 + |dir.root|);
  }

  /** A temporary name that is not taken, as the system hands it out. */
  method FreshTemporary(taken: set<Name>) returns (n: Name)
    ensures Temporary(n) && n !in KEPT && n !in taken
  {
    n := TEMP_PREFIX;
    var rest := taken;
    while n in rest
      invariant Temporary(n) && rest <= taken
      invariant forall m :: m in taken && m !in rest ==> |m| < |n|
      decreases |rest|
    {
      rest := rest - {n};
      assert (n + "0")[..|TEMP_PREFIX|] == n[..|TEMP_PREFIX|];
      n := n + "0";
    }
    KeptIsPermanent(n);
  }

  lemma KeptIsPermanent(n: Name)
    requires Temporary(n)
    ensures n !in KEPT
  {
    assert n[..|TEMP_PREFIX|][1] == 'x' && n[..|TEMP_PREFIX|][8] == 'a';
  }
}

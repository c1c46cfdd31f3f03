/** The two consent directories of a feature, and what a consent change does to them
    (feature_event.cpp). */
module FeatureEventStorages {
  import opened Filenames
  import opened Directories

  ghost function BatchNames(d: Dir): set<Name> {
    set n | n in d && IsNumeric(n)
  }

  /** The batch files a sorted pass gets through that stops at the first of `blocked`. */
  ghost function Reached(p: Dir, blocked: set<Name>): set<Name> {
    set n | n in BatchNames(p) && forall m <- BatchNames(p) * blocked :: Less(n, m)
  }

  // ---- deletion ----

  ghost function Resisting(x: Platform, p: Dir): set<Name> {
    set n | n in BatchNames(p) && Resists(x, n)
  }

  ghost predicate Deletes(x: Platform, p: Dir) {
    !x.unlistable && Resisting(x, p) == {}
  }

  ghost function AfterDeletion(x: Platform, p: Dir): Dir {
    if x.unlistable then p else p - Reached(p, Resisting(x, p))
  }

  lemma SuccessfulDeletion(x: Platform, p: Dir)
    requires Deletes(x, p)
    ensures AfterDeletion(x, p) == p - BatchNames(p) && BatchNames(AfterDeletion(x, p)) == {}
  {
    assert Reached(p, {}) == BatchNames(p);
  }

  // ---- migration ----

  /** What the platform does to the two directories of a feature. */
  datatype Platforms = Platforms(pending: Platform, granted: Platform)

  predicate Blocks(x: Platforms, n: Name) {
    !Fits(x.pending, n) || !Fits(x.granted, n) || n in x.pending.unmovable
  }

  ghost function Blocked(x: Platforms, p: Dir): set<Name> {
    set n | n in BatchNames(p) && Blocks(x, n)
  }

  ghost predicate Migrates(x: Platforms, p: Dir) {
    !x.pending.unlistable && Blocked(x, p) == {}
  }

  /** The files that a migration gets to. */
  ghost function Processed(x: Platforms, p: Dir): (r: set<Name>)
    ensures r <= BatchNames(p)
  {
    if x.pending.unlistable then {} else Reached(p, Blocked(x, p))
  }

  /** A file whose name is taken stays pending if it cannot be deleted. */
  ghost function Stuck(x: Platforms, g: Dir, done: set<Name>): set<Name> {
    done * g.Keys * x.pending.undeletable
  }

  ghost function PendingAfter(x: Platforms, p: Dir, g: Dir, done: set<Name>): Dir {
    p - (done - Stuck(x, g, done))
  }

  /** The granted directory gains the files whose names are free there and that have not vanished
      meanwhile. */
  ghost function GrantedAfter(x: Platforms, p: Dir, g: Dir, done: set<Name>): Dir
    requires done <= p.Keys
  {
    map n | n in g.Keys + (done - x.pending.vanishing) :: if n in g then g[n] else p[n]
  }

  lemma ProcessesAll(x: Platforms, p: Dir)
    requires Migrates(x, p)
    ensures Processed(x, p) == BatchNames(p)
  {
  }

  /** Even if it stops half-way, every file is where it was, moved, or gone because its name was
      taken or it had vanished. */
  ghost predicate PartlyMigrated(p: Dir, g: Dir, p': Dir, g': Dir) {
    && (forall n :: n in p' ==> n in p && p'[n] == p[n])
    && (forall n :: n in g ==> n in g' && g'[n] == g[n])
    && (forall n :: n in g' && n !in g ==> n in p && n !in p' && IsNumeric(n) && g'[n] == p[n])
    && (forall n :: n in p && !IsNumeric(n) ==> n in p')
  }

  lemma MigrationIsPartial(x: Platforms, p: Dir, g: Dir, done: set<Name>)
    requires done <= BatchNames(p)
    ensures PartlyMigrated(p, g, PendingAfter(x, p, g, done), GrantedAfter(x, p, g, done))
  {
  }

  // ---- both as loops over a listing ----

  /** Files of `d` with an all-digit name in `names`. */
  ghost function Among(d: Dir, names: seq<Name>): set<Name> {
    set n | n in BatchNames(d) && n in names
  }

  lemma AmongGrows(d: Dir, names: seq<Name>, i: nat)
    requires i < |names|
    ensures Among(d, names[..i + 1]) == Among(d, names[..i]) + if names[i] in BatchNames(d) then {names[i]} else {}
  {
    assert names[..i + 1] == names[..i] + [names[i]];
  }

  /** Where the pass stops: nothing before is blocked. */
  lemma StopsAt(p: Dir, names: seq<Name>, i: nat, blocked: set<Name>)
    requires Lists(names, p) && i <= |names|
    requires Among(p, names[..i]) !! blocked
    requires i < |names| ==> names[i] in BatchNames(p) * blocked
    ensures Among(p, names[..i]) == Reached(p, blocked)
    ensures i == |names| ==> Among(p, names[..i]) == BatchNames(p)
  {
    forall n <- BatchNames(p)
      ensures n in names[..i] <==> n in Reached(p, blocked)
    {
      var k: nat :| k < |names| && names[k] == n;
      if k < i {
        forall m <- BatchNames(p) * blocked
          ensures Less(n, m)
        {
          var l: nat :| l < |names| && names[l] == m;
          assert m !in Among(p, names[..i]);
          assert forall j | 0 <= j < i :: names[..i][j] != m;
        }
      } else {
        NotListedBefore(names, i, k);
        if k > i {
          LessIsAsymmetric(names[i], n);
        } else if Less(n, n) {
          LessIsAsymmetric(n, n);
        }
      }
    }
  }

  lemma NotListedBefore(names: seq<Name>, i: nat, k: nat)
    requires Sorted(names) && i <= k < |names|
    ensures names[k] !in names[..i]
  {
    forall j | 0 <= j < i
      ensures names[j] != names[k]
    {
      ListedOnce(names, j, k);
    }
  }

  datatype Fate = Moved | Dropped | Left | Vanished

  /** What becomes of a file that is not blocked. */
  function FateOf(x: Platforms, g: Dir, n: Name): Fate {
    if n in g then if n in x.pending.undeletable then Left else Dropped
    else if n in x.pending.vanishing then Vanished else Moved
  }

  ghost predicate Migrated(p: Dir, g: Dir, n: Name, fate: Fate, p': Dir, g': Dir) {
    match fate
    case Moved => n in p && p' == p - {n} && g' == g[n := p[n]]
    case Left => p' == p && g' == g
    case _ => p' == p - {n} && g' == g
  }

  lemma MigratesOne(x: Platforms, p: Dir, g: Dir, done: set<Name>, n: Name, p': Dir, g': Dir)
    requires done <= BatchNames(p) && n in BatchNames(p) && n !in done
    requires Migrated(PendingAfter(x, p, g, done), GrantedAfter(x, p, g, done), n, FateOf(x, g, n), p', g')
    ensures p' == PendingAfter(x, p, g, done + {n}) && g' == GrantedAfter(x, p, g, done + {n})
  {
  }

  class FeatureEventStorage {
    const pending: Directory
    const granted: Directory

    constructor (pending: Directory, granted: Directory)
      requires pending != granted
      ensures this.pending == pending && this.granted == granted
    {
      this.pending := pending;
      this.granted := granted;
    }

    function Environment(): Platforms
      reads pending, granted
    {
      Platforms(pending.platform, granted.platform)
    }

    /** Deletes the pending batch files in order, up to the first one that resists. */
    method DeletePendingBatches() returns (ok: bool)
      modifies pending`files
      ensures ok == Deletes(pending.platform, old(pending.files))
      ensures pending.files == AfterDeletion(pending.platform, old(pending.files))
    {
      ghost var x, p := pending.platform, pending.files;
      var names;
      ok, names := pending.ListFiles();
      if !ok {
        return false;
      }
      names := SortNames(names);
      var i := 0;
      while i < |names|
        invariant 0 <= i <= |names|
        invariant Among(p, names[..i]) !! Resisting(x, p)
        invariant pending.files == p - Among(p, names[..i])
      {
        ok := DeleteNext(names, i, p);
        if !ok {
          StopsAt(p, names, i, Resisting(x, p));
          return;
        }
        i := i + 1;
      }
      StopsAt(p, names, i, Resisting(x, p));
      assert Resisting(x, p) <= BatchNames(p);
    }

    method DeleteNext(names: seq<Name>, i: nat, ghost p: Dir) returns (ok: bool)
      requires Lists(names, p) && i < |names| && pending.files == p - Among(p, names[..i])
      modifies pending`files
      ensures ok == (names[i] !in Resisting(pending.platform, p))
      ensures pending.files == p - Among(p, if ok then names[..i + 1] else names[..i])
    {
      var name := names[i];
      AmongGrows(p, names, i);
      if !IsNumeric(name) {
        return true;
      }
      if !Fits(pending.platform, name) {
        return false;
      }
      var r := pending.Delete(name);
      assert p - Among(p, names[..i]) - {name} == p - (Among(p, names[..i]) + {name});
      return r == OK || r == DoesNotExist;
    }

    /** One file of the migration. */
    method MigrateFile(name: Name) returns (ok: bool)
      requires pending != granted && name in pending.files
      modifies pending`files, granted`files
      ensures ok == !Blocks(Environment(), name)
      ensures ok ==> Migrated(old(pending.files), old(granted.files), name,
        FateOf(Environment(), old(granted.files), name), pending.files, granted.files)
      ensures !ok ==> pending.files == old(pending.files) && granted.files == old(granted.files)
    {
      if !Fits(pending.platform, name) || !Fits(granted.platform, name) {
        return false;
      }
      var r := pending.Rename(name, granted);
      if r == OK {
        return true;
      }
      if r == AlreadyExists {
        r := pending.Delete(name);
        return true;
      }
      return r == DoesNotExist;
    }

    /** Moves the pending batch files to the granted directory, in order. A file whose name is
        taken there is deleted instead, or left if even that fails; only another kind of failure
        stops the migration. */
    method MigratePendingBatchesToGranted() returns (ok: bool)
      requires pending != granted
      modifies pending`files, granted`files
      ensures ok == Migrates(Environment(), old(pending.files))
      ensures
        var done := Processed(Environment(), old(pending.files));
        && pending.files == PendingAfter(Environment(), old(pending.files), old(granted.files), done)
        && granted.files == GrantedAfter(Environment(), old(pending.files), old(granted.files), done)
    {
      ghost var x, p, g := Environment(), pending.files, granted.files;
      var names;
      ok, names := pending.ListFiles();
      if !ok {
        return;
      }
      names := SortNames(names);
      var i := 0;
      while i < |names|
        invariant 0 <= i <= |names|
        invariant Among(p, names[..i]) !! Blocked(x, p)
        invariant pending.files == PendingAfter(x, p, g, Among(p, names[..i]))
        invariant granted.files == GrantedAfter(x, p, g, Among(p, names[..i]))
      {
        ok := MigrateNext(names, i, x, p, g);
        if !ok {
          StopsAt(p, names, i, Blocked(x, p));
          return;
        }
        i := i + 1;
      }
      StopsAt(p, names, i, Blocked(x, p));
      assert Blocked(x, p) <= BatchNames(p);
    }

    method MigrateNext(names: seq<Name>, i: nat, ghost x: Platforms, ghost p: Dir, ghost g: Dir) returns (ok: bool)
      requires pending != granted && x == Environment()
      requires Lists(names, p) && i < |names|
      requires pending.files == PendingAfter(x, p, g, Among(p, names[..i]))
      requires granted.files == GrantedAfter(x, p, g, Among(p, names[..i]))
      modifies pending`files, granted`files
      ensures ok == (names[i] !in Blocked(x, p))
      ensures !ok ==> pending.files == old(pending.files) && granted.files == old(granted.files)
      ensures ok ==>
        && pending.files == PendingAfter(x, p, g, Among(p, names[..i + 1]))
        && granted.files == GrantedAfter(x, p, g, Among(p, names[..i + 1]))
    {
      var name := names[i];
      AmongGrows(p, names, i);
      NotListedBefore(names, i, i);
      ghost var done := Among(p, names[..i]);
      if !IsNumeric(name) {
        assert Among(p, names[..i + 1]) == done;
        return true;
      }
      ok := MigrateFile(name);
      if ok {
        MigratesOne(x, p, g, done, name, pending.files, granted.files);
        assert Among(p, names[..i + 1]) == done + {name};
      }
    }
  }

  // ---- consequences ----

  predicate Kept(p': Dir, g': Dir, n: Name, b: Body) {
    (n in p' && p'[n] == b) || (n in g' && g'[n] == b)
  }

  /** What a successful migration loses: files that vanish under it, and files whose name is
      taken by a file with other contents, unless they cannot be deleted. */
  lemma MigrationLosesExactly(x: Platforms, p: Dir, g: Dir, n: Name)
    requires Migrates(x, p) && n in BatchNames(p)
    ensures
      var done := Processed(x, p);
      Kept(PendingAfter(x, p, g, done), GrantedAfter(x, p, g, done), n, p[n]) <==>
        if n in g then g[n] == p[n] || n in x.pending.undeletable else n !in x.pending.vanishing
  {
    ProcessesAll(x, p);
  }

  /** What it leaves in the pending directory, although it reports success: files whose name is
      taken and that cannot be deleted. */
  lemma MigrationLeavesExactly(x: Platforms, p: Dir, g: Dir)
    requires Migrates(x, p)
    ensures BatchNames(PendingAfter(x, p, g, Processed(x, p))) == BatchNames(p) * g.Keys * x.pending.undeletable
  {
    ProcessesAll(x, p);
  }

  // ---- what stops a deletion or a migration, and where ----

  lemma ReachedUnlessBehind(p: Dir, blocked: set<Name>, n: Name)
    requires n in BatchNames(p)
    ensures n in Reached(p, blocked) <==>
      forall m <- p :: IsNumeric(m) && (m == n || Less(m, n)) ==> m !in blocked
  {
    forall m <- p
      ensures Less(n, m) <==> m != n && !Less(m, n)
    {
      LessIsTotal(n, m);
      if Less(n, m) {
        LessIsAsymmetric(n, m);
      }
    }
    if m :| m in p && IsNumeric(m) && (m == n || Less(m, n)) && m in blocked {
      assert m in BatchNames(p) * blocked;
    }
  }

  lemma NoneBlocked(p: Dir, blocked: set<Name>)
    requires blocked <= BatchNames(p)
    ensures blocked == {} <==> forall m <- p :: IsNumeric(m) ==> m !in blocked
  {
  }

  /** Batch files go in order of their names, up to the first with too long a path or that cannot
      be deleted; nothing else goes. The deletion succeeds if there is no such file. */
  lemma DeletionStopsAtFirstFailure(x: Platform, p: Dir, n: Name)
    requires n in p
    ensures Sub(AfterDeletion(x, p), p)
    ensures n !in AfterDeletion(x, p) <==>
      && !x.unlistable && IsNumeric(n)
      && forall m <- p :: IsNumeric(m) && (m == n || Less(m, n)) ==> |m| <= x.room && m !in x.undeletable
    ensures Deletes(x, p) <==>
      !x.unlistable && forall m <- p :: IsNumeric(m) ==> |m| <= x.room && m !in x.undeletable
  {
    forall m <- p | IsNumeric(m)
      ensures m in Resisting(x, p) <==> !(|m| <= x.room && m !in x.undeletable)
    {
    }
    NoneBlocked(p, Resisting(x, p));
    if IsNumeric(n) {
      ReachedUnlessBehind(p, Resisting(x, p), n);
    }
  }

  /** The same for a migration: the first batch file whose path is too long in either directory or
      that cannot be moved stops it. */
  lemma MigrationStopsAtFirstFailure(x: Platforms, p: Dir, n: Name)
    requires n in p && IsNumeric(n)
    ensures n in Processed(x, p) <==>
      && !x.pending.unlistable
      && forall m <- p :: IsNumeric(m) && (m == n || Less(m, n)) ==>
        |m| <= x.pending.room && |m| <= x.granted.room && m !in x.pending.unmovable
    ensures Migrates(x, p) <==>
      && !x.pending.unlistable
      && forall m <- p :: IsNumeric(m) ==>
        |m| <= x.pending.room && |m| <= x.granted.room && m !in x.pending.unmovable
  {
    forall m <- p | IsNumeric(m)
      ensures m in Blocked(x, p) <==>
        !(|m| <= x.pending.room && |m| <= x.granted.room && m !in x.pending.unmovable)
    {
    }
    NoneBlocked(p, Blocked(x, p));
    ReachedUnlessBehind(p, Blocked(x, p), n);
  }

  /** A pending file that the migration gets to is moved if its name is free, unless it has
      vanished; otherwise it is deleted if that is possible. All other files stay as they are. */
  lemma MigrationMovesOrDeletes(x: Platforms, p: Dir, g: Dir, n: Name)
    ensures
      var done := Processed(x, p);
      var p', g' := PendingAfter(x, p, g, done), GrantedAfter(x, p, g, done);
      && (n in g ==> n in g' && g'[n] == g[n])
      && (n in done && n in g ==> (n in p' <==> n in x.pending.undeletable))
      && (n in done && n !in g && n in x.pending.vanishing ==> n !in p' && n !in g')
      && (n in done && n !in g && n !in x.pending.vanishing ==> n !in p' && n in g' && g'[n] == p[n])
      && (n in p' ==> n in p && p'[n] == p[n])
      && (n !in done ==> (n in p' <==> n in p) && (n in g' <==> n in g))
  {
  }
}

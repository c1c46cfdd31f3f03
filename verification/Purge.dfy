/** Directory quota (storage_write.cpp, PurgeDirectoryIfNeeded): oldest batch files are deleted
    until the rest fit, over two vectors that are erased from in lock-step. */
module Purge {
  import opened Filenames
  import opened Directories

  /** What the sizing loop records: the true size, or zero for a file that cannot be sized. */
  function RecordedSize(x: Platform, d: Dir, n: Name): nat {
    if Sizable(x, n) && n in d then BodySize(d[n]) else 0
  }

  function RecordedSizes(x: Platform, d: Dir, names: seq<Name>): (r: seq<nat>)
    ensures |r| == |names|
  {
    if names == [] then [] else [RecordedSize(x, d, names[0])] + RecordedSizes(x, d, names[1..])
  }

  function RecordedTotal(x: Platform, d: Dir, names: seq<Name>): nat {
    Sum(RecordedSizes(x, d, names))
  }

  function OnlyResisting(x: Platform, names: seq<Name>): (r: seq<Name>)
    ensures forall n :: n in r <==> n in names && Resists(x, n)
  {
    if names == [] then []
    else if Resists(x, names[0]) then [names[0]] + OnlyResisting(x, names[1..])
    else OnlyResisting(x, names[1..])
  }

  /** The listing after an attempt to delete its first `k` files. */
  function Survivors(x: Platform, names: seq<Name>, k: nat): seq<Name>
    requires k <= |names|
  {
    OnlyResisting(x, names[..k]) + names[k..]
  }

  /** Going through the first `k` files does not bring the recorded total within quota. */
  predicate Exceeds(x: Platform, d: Dir, names: seq<Name>, quota: nat, k: nat)
    requires k <= |names|
  {
    RecordedTotal(x, d, Survivors(x, names, k)) > quota
  }

  /** Going through the first `k` files is what it takes, or all there is, and no fewer would do. */
  ghost predicate ShortestSufficientPrefix(x: Platform, d: Dir, names: seq<Name>, quota: nat, k: nat) {
    && k <= |names|
    && (k == |names| || !Exceeds(x, d, names, quota, k))
    && forall j | 0 <= j < k :: Exceeds(x, d, names, quota, j)
  }

  /** There is exactly one such prefix. */
  lemma ShortestSufficientPrefixIsUnique(x: Platform, d: Dir, names: seq<Name>, quota: nat, k: nat, k': nat)
    requires ShortestSufficientPrefix(x, d, names, quota, k) && ShortestSufficientPrefix(x, d, names, quota, k')
    ensures k == k'
  {
  }

  // ---- sizing ----

  lemma {:induction false} RecordedConcat(x: Platform, d: Dir, a: seq<Name>, b: seq<Name>)
    ensures RecordedSizes(x, d, a + b) == RecordedSizes(x, d, a) + RecordedSizes(x, d, b)
  {
    if a == [] {
      assert a + b == b;
    } else {
      RecordedConcat(x, d, a[1..], b);
      assert (a + b)[1..] == a[1..] + b;
    }
  }

  method MeasureFiles(dir: Directory, names: seq<Name>) returns (sizes: seq<nat>, total: nat)
    ensures sizes == RecordedSizes(dir.platform, dir.files, names)
    ensures total == RecordedTotal(dir.platform, dir.files, names)
  {
    sizes, total := [], 0;
    var i := 0;
    while i < |names|
      invariant 0 <= i <= |names|
      invariant sizes == RecordedSizes(dir.platform, dir.files, names[..i]) && total == Sum(sizes)
    {
      var ok, size := false, 0;
      if Fits(dir.platform, names[i]) {
        ok, size := dir.FileSize(names[i]);
      }
      if !ok {
        size := 0;
      }
      assert names[..i + 1] == names[..i] + [names[i]];
      RecordedConcat(dir.platform, dir.files, names[..i], [names[i]]);
      SumAppends(sizes, size);
      sizes, total := sizes + [size], total + size;
      i := i + 1;
    }
    assert names[..i] == names;
  }

  // ---- deleting ----

  function Erase<T>(s: seq<T>, i: nat): seq<T>
    requires i < |s|
  {
    s[..i] + s[i + 1..]
  }

  ghost function Lost(names: seq<Name>, kept: seq<Name>): set<Name> {
    set n | n in names && n !in kept
  }

  lemma {:induction false} ResistingAppends(x: Platform, names: seq<Name>, n: Name)
    ensures OnlyResisting(x, names + [n]) == OnlyResisting(x, names) + if Resists(x, n) then [n] else []
  {
    if names != [] {
      ResistingAppends(x, names[1..], n);
      assert (names + [n])[1..] == names[1..] + [n];
    }
  }

  /** The next file either stays and is passed over, or is erased where the index stands. */
  lemma NextSurvivor(x: Platform, names: seq<Name>, k: nat)
    requires k < |names|
    ensures
      var kept, i := Survivors(x, names, k), |OnlyResisting(x, names[..k])|;
      && kept[i] == names[k]
      && Survivors(x, names, k + 1) == (if Resists(x, names[k]) then kept else Erase(kept, i))
      && |OnlyResisting(x, names[..k + 1])| == (if Resists(x, names[k]) then i + 1 else i)
  {
    assert names[..k + 1] == names[..k] + [names[k]];
    ResistingAppends(x, names[..k], names[k]);
    assert names[k..] == [names[k]] + names[k + 1..];
  }

  lemma ErasedSizes(x: Platform, d: Dir, kept: seq<Name>, i: nat)
    requires i < |kept|
    ensures RecordedSizes(x, d, Erase(kept, i)) == Erase(RecordedSizes(x, d, kept), i)
    ensures RecordedSizes(x, d, kept)[i] <= RecordedTotal(x, d, kept)
    ensures RecordedTotal(x, d, Erase(kept, i)) == RecordedTotal(x, d, kept) - RecordedSizes(x, d, kept)[i]
  {
    assert kept == kept[..i] + ([kept[i]] + kept[i + 1..]);
    RecordedConcat(x, d, kept[..i], [kept[i]] + kept[i + 1..]);
    RecordedConcat(x, d, [kept[i]], kept[i + 1..]);
    RecordedConcat(x, d, kept[..i], kept[i + 1..]);
    SumRemoves(RecordedSizes(x, d, kept), i);
  }

  /** Attempted deletions leave the directory without exactly the names erased. */
  lemma LostAfter(x: Platform, names: seq<Name>, k: nat)
    requires Sorted(names) && k < |names|
    ensures Lost(names, Survivors(x, names, k + 1)) ==
      Lost(names, Survivors(x, names, k)) + if Resists(x, names[k]) then {} else {names[k]}
  {
    NextSurvivor(x, names, k);
    if !Resists(x, names[k]) {
      forall j | 0 <= j < |names| && j != k
        ensures names[j] != names[k]
      {
        ListedOnce(names, if j < k then j else k, if j < k then k else j);
      }
      assert names[k] !in names[k + 1..] && names[k] !in OnlyResisting(x, names[..k]);
    }
  }

  /** Where the delete loop stands after going through `k` files. */
  ghost predicate Progress(x: Platform, d: Dir, names: seq<Name>, quota: nat, k: nat,
                           kept: seq<Name>, sizes: seq<nat>, total: nat, i: nat)
  {
    && k <= |names| && i + |names| == k + |kept|
    && kept == Survivors(x, names, k)
    && sizes == RecordedSizes(x, d, kept) && total == RecordedTotal(x, d, kept)
    && forall j | 0 <= j < k :: Exceeds(x, d, names, quota, j)
  }

  /** A file that resists is passed over, any other is erased from both vectors. */
  lemma Advances(x: Platform, d: Dir, names: seq<Name>, quota: nat, k: nat,
                 kept: seq<Name>, sizes: seq<nat>, total: nat, i: nat)
    requires Sorted(names)
    requires Progress(x, d, names, quota, k, kept, sizes, total, i) && i < |kept| && total > quota
    ensures k < |names| && i < |sizes| && sizes[i] <= total
    ensures if Resists(x, kept[i]) then Progress(x, d, names, quota, k + 1, kept, sizes, total, i + 1)
      else Progress(x, d, names, quota, k + 1, Erase(kept, i), Erase(sizes, i), total - sizes[i], i)
    ensures !Resists(x, kept[i]) ==> Lost(names, Erase(kept, i)) == Lost(names, kept) + {kept[i]}
  {
    NextSurvivor(x, names, k);
    assert Exceeds(x, d, names, quota, k);
    LostAfter(x, names, k);
    ErasedSizes(x, d, kept, i);
  }

  /** One pass through the delete loop: the file at `i` is erased from directory and vectors,
      or passed over if its path is too long or the deletion fails. */
  method PurgeNext(dir: Directory, kept0: seq<Name>, sizes0: seq<nat>, total0: nat, i0: nat,
                   ghost d: Dir, ghost names: seq<Name>, ghost quota: nat, ghost k: nat)
    returns (kept: seq<Name>, sizes: seq<nat>, total: nat, i: nat)
    requires Sorted(names)
    requires Progress(dir.platform, d, names, quota, k, kept0, sizes0, total0, i0) && i0 < |kept0| && total0 > quota
    requires dir.files == d - Lost(names, kept0)
    modifies dir`files
    ensures Progress(dir.platform, d, names, quota, k + 1, kept, sizes, total, i)
    ensures dir.files == d - Lost(names, kept)
  {
    Advances(dir.platform, d, names, quota, k, kept0, sizes0, total0, i0);
    var name := kept0[i0];
    if Fits(dir.platform, name) {
      var r := dir.Delete(name);
      if r == OK || r == DoesNotExist {
        assert d - Lost(names, kept0) - {name} == d - (Lost(names, kept0) + {name});
        return Erase(kept0, i0), Erase(sizes0, i0), total0 - sizes0[i0], i0;
      }
    }
    return kept0, sizes0, total0, i0 + 1;
  }

  /** `kept` and `sizes` are what the two vectors hold in the end: the listing without the
      deletable files of the shortest prefix that brings the recorded total within quota. */
  method PurgeDirectoryIfNeeded(dir: Directory, names: seq<Name>, quota: nat)
    returns (kept: seq<Name>, sizes: seq<nat>, ghost k: nat)
    requires Sorted(names)
    modifies dir`files
    ensures ShortestSufficientPrefix(dir.platform, old(dir.files), names, quota, k)
    ensures kept == Survivors(dir.platform, names, k)
    ensures sizes == RecordedSizes(dir.platform, old(dir.files), kept)
    ensures dir.files == old(dir.files) - Lost(names, kept)
  {
    ghost var x, d := dir.platform, dir.files;
    var total: nat;
    sizes, total := MeasureFiles(dir, names);
    kept, k := names, 0;
    var i: nat := 0;
    assert Survivors(x, names, 0) == names;
    while i < |kept| && total > quota
      invariant Progress(x, d, names, quota, k, kept, sizes, total, i)
      invariant dir.files == d - Lost(names, kept)
      decreases |names| - k
    {
      kept, sizes, total, i := PurgeNext(dir, kept, sizes, total, i, d, names, quota, k);
      k := k + 1;
    }
    assert i == |kept| ==> names[k..] == [];
  }

  // ---- consequences ----

  lemma {:induction false} ResistingStaySorted(x: Platform, names: seq<Name>)
    requires Sorted(names)
    ensures Sorted(OnlyResisting(x, names))
  {
    if names != [] {
      ResistingStaySorted(x, names[1..]);
      var r := OnlyResisting(x, names[1..]);
      assert r != [] ==> r[0] in names[1..];
      if Resists(x, names[0]) {
        PrependSmaller(names[0], r);
      }
    }
  }

  /** The cached listing is still the listing of the directory. */
  lemma SurvivorsAreListed(x: Platform, d: Dir, names: seq<Name>, k: nat)
    requires Lists(names, Batches(d)) && k <= |names|
    ensures Lists(Survivors(x, names, k), Batches(d - Lost(names, Survivors(x, names, k))))
  {
    var a, b := OnlyResisting(x, names[..k]), names[k..];
    ResistingStaySorted(x, names[..k]);
    forall i, j | 0 <= i < |a| && 0 <= j < |b|
      ensures Less(a[i], b[j])
    {
      assert a[i] in names[..k];
    }
    assert Sorted(a + b);
    var kept := Survivors(x, names, k);
    assert names[..k] + names[k..] == names;
    assert forall n :: n in kept <==> n in names && n !in Lost(names, kept);
  }

  /** The files that a purge cannot measure or get rid of. */
  ghost function Stubborn(x: Platform, d: Dir): Dir {
    map n | n in d && (!Sizable(x, n) || Resists(x, n)) :: d[n]
  }

  lemma StubbornWithout(x: Platform, d: Dir, n: Name)
    requires n in d
    ensures DirSize(Stubborn(x, d)) == DirSize(Stubborn(x, d - {n})) + if n in Stubborn(x, d) then BodySize(d[n]) else 0
  {
    var s := Stubborn(x, d);
    assert Stubborn(x, d - {n}) == s - {n};
    if n in s {
      DirSizeRemoves(s, n);
    } else {
      assert s - {n} == s;
    }
  }

  /** Unsized files count as empty, so the recorded total is at most what is there, and falls short
      of it by no more than the stubborn files. */
  lemma {:induction false} RecordedAgainstDirSize(x: Platform, d: Dir, whole: Dir, names: seq<Name>)
    requires Lists(names, d) && forall n <- names :: n in whole && whole[n] == d[n]
    ensures RecordedTotal(x, whole, names) <= DirSize(d) <= RecordedTotal(x, whole, names) + DirSize(Stubborn(x, d))
    decreases |names|
  {
    if names == [] {
      assert d == map[];
    } else {
      var n := names[0];
      RestOfListing(names, d);
      DirSizeRemoves(d, n);
      StubbornWithout(x, d, n);
      RecordedAgainstDirSize(x, d - {n}, whole, names[1..]);
      assert RecordedSizes(x, whole, names)[1..] == RecordedSizes(x, whole, names[1..]);
    }
  }

  /** Nothing is deleted from a directory within quota. */
  lemma WithinQuotaIsLeftAlone(x: Platform, d: Dir, names: seq<Name>, quota: nat, k: nat)
    requires Lists(names, Batches(d)) && DirSize(Batches(d)) <= quota
    requires ShortestSufficientPrefix(x, d, names, quota, k)
    ensures Survivors(x, names, k) == names
  {
    RecordedAgainstDirSize(x, Batches(d), d, names);
    assert Survivors(x, names, 0) == names;
    assert !Exceeds(x, d, names, quota, 0);
  }

  /** Stubborn files aside, the purge gets the directory within quota. */
  lemma PurgeMeetsQuota(x: Platform, d: Dir, names: seq<Name>, quota: nat, k: nat)
    requires Lists(names, Batches(d)) && ShortestSufficientPrefix(x, d, names, quota, k)
    ensures DirSize(Batches(d - Lost(names, Survivors(x, names, k)))) <= quota + DirSize(Stubborn(x, Batches(d)))
  {
    var kept := Survivors(x, names, k);
    var d' := Batches(d - Lost(names, kept));
    SurvivorsAreListed(x, d, names, k);
    assert forall n <- names :: n in Batches(d);
    if k == |names| {
      assert names[..k] == names;
      SmallerDirSize(d', Stubborn(x, Batches(d)));
    } else {
      RecordedAgainstDirSize(x, d', d, kept);
      SmallerDirSize(Stubborn(x, d'), Stubborn(x, Batches(d)));
    }
  }

  /** In general the directory is within quota, as far as it can be sized, or nothing that is left
      can be deleted. */
  lemma PurgeDoesItsBest(x: Platform, d: Dir, names: seq<Name>, quota: nat, k: nat)
    requires ShortestSufficientPrefix(x, d, names, quota, k)
    ensures RecordedTotal(x, d, Survivors(x, names, k)) <= quota || forall n <- Survivors(x, names, k) :: Resists(x, n)
  {
    if k == |names| {
      assert names[..k] == names;
    }
  }

  lemma SurvivesExactly(x: Platform, names: seq<Name>, k: nat, i: nat)
    requires Sorted(names) && k <= |names| && i < |names|
    ensures names[i] in Survivors(x, names, k) <==> k <= i || Resists(x, names[i])
  {
    if i < k {
      assert names[..k][i] == names[i];
      forall j | k <= j < |names|
        ensures names[j] != names[i]
      {
        ListedOnce(names, i, j);
      }
    } else {
      assert names[k..][i - k] == names[i];
    }
  }

  /** Where in the listing a purged file was. */
  lemma PurgedAt(x: Platform, d: Dir, names: seq<Name>, k: nat, n: Name) returns (j: nat)
    requires Lists(names, Batches(d)) && k <= |names|
    requires n in d && n !in d - Lost(names, Survivors(x, names, k))
    ensures j < k && names[j] == n && !Resists(x, n)
  {
    j :| j < |names| && names[j] == n;
    SurvivesExactly(x, names, k, j);
  }

  /** A purge deletes nothing but batch files that it can delete, and the oldest of these first:
      every other that it could have deleted has a later name. */
  lemma OldestArePurgedFirst(x: Platform, d: Dir, names: seq<Name>, quota: nat, k: nat, n: Name)
    requires Lists(names, Batches(d)) && ShortestSufficientPrefix(x, d, names, quota, k)
    requires n in d && n !in d - Lost(names, Survivors(x, names, k))
    ensures IsNumeric(n) && |n| <= x.room && n !in x.undeletable
    ensures
      var d' := d - Lost(names, Survivors(x, names, k));
      forall m <- d' :: IsNumeric(m) && |m| <= x.room && m !in x.undeletable ==> Less(n, m)
  {
    var d' := d - Lost(names, Survivors(x, names, k));
    var j := PurgedAt(x, d, names, k, n);
    forall m <- d' | IsNumeric(m) && |m| <= x.room && m !in x.undeletable
      ensures Less(n, m)
    {
      assert m in Batches(d);
      var i: nat :| i < |names| && names[i] == m;
      SurvivesExactly(x, names, k, i);
    }
  }

  /** The files that a purge from `d` to `d'` has deleted before it came to `n`. */
  ghost function GoneBefore(d: Dir, d': Dir, n: Name): set<Name> {
    set m | m in d && m !in d' && Less(m, n)
  }

  /** No file is deleted without need: with it and all younger files, and the older ones that are
      left, the directory would be over quota. */
  lemma PurgedForNeed(x: Platform, d: Dir, names: seq<Name>, quota: nat, k: nat, n: Name)
    requires Lists(names, Batches(d)) && ShortestSufficientPrefix(x, d, names, quota, k)
    requires n in d && n !in d - Lost(names, Survivors(x, names, k))
    ensures DirSize(Batches(d) - GoneBefore(d, d - Lost(names, Survivors(x, names, k)), n)) > quota
  {
    var j := PurgedAt(x, d, names, k, n);
    var kept := Survivors(x, names, j);
    var dj := Batches(d - Lost(names, kept));
    SurvivorsAreListed(x, d, names, j);
    assert Exceeds(x, d, names, quota, j);
    RecordedAgainstDirSize(x, dj, d, kept);
    NotGoneBefore(x, d, names, k, j);
    SmallerDirSize(dj, Batches(d) - GoneBefore(d, d - Lost(names, Survivors(x, names, k)), names[j]));
  }

  lemma NotGoneBefore(x: Platform, d: Dir, names: seq<Name>, k: nat, j: nat)
    requires Lists(names, Batches(d)) && j < k <= |names|
    ensures Sub(Batches(d - Lost(names, Survivors(x, names, j))),
      Batches(d) - GoneBefore(d, d - Lost(names, Survivors(x, names, k)), names[j]))
  {
    var dj := Batches(d - Lost(names, Survivors(x, names, j)));
    forall m <- dj
      ensures m !in GoneBefore(d, d - Lost(names, Survivors(x, names, k)), names[j])
    {
      StaysOrIsYounger(x, d, names, k, j, m);
    }
  }

  lemma StaysOrIsYounger(x: Platform, d: Dir, names: seq<Name>, k: nat, j: nat, m: Name)
    requires Lists(names, Batches(d)) && j < k <= |names|
    requires m in Batches(d - Lost(names, Survivors(x, names, j)))
    ensures m in d - Lost(names, Survivors(x, names, k)) || !Less(m, names[j])
  {
    assert m in Batches(d);
    var i: nat :| i < |names| && names[i] == m;
    SurvivesExactly(x, names, j, i);
    if i < j {
      SurvivesExactly(x, names, k, i);
    } else if i > j {
      LessIsAsymmetric(names[j], m);
    } else if Less(m, m) {
      LessIsAsymmetric(m, m);
    }
  }
}

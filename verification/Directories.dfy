/** A directory of batch files, the platform calls on it, and the cached listing that a new
    batch file needs (filesystem.hpp, storage_write.cpp). Every platform call may fail. */
module Directories {
  import opened Filenames
  import Tlv

  /** Where a stored event came from: an earlier process, or the message at this position of
      the storage queue's history. */
  datatype Origin = Prior | Handled(position: nat)

  /** A file is a sequence of whole writes and of the first `size` bytes of writes that failed
      part-way. */
  datatype Entry = Stored(write: Tlv.Write, origin: Origin) | Torn(write: Tlv.Write, size: nat)

  type Body = seq<Entry>
  type Dir = map<Name, Body>

  datatype Result = OK | AlreadyExists | DoesNotExist | Failure

  function EntrySize(e: Entry): nat {
    match e
    case Stored(w, _) => Tlv.EncodedSize(w)
    case Torn(_, n) => n
  }

  function BodySize(b: Body): nat {
    if b == [] then 0 else BodySize(b[..|b| - 1]) + EntrySize(b[|b| - 1])
  }

  /** Bytes and number of the whole writes only. */
  function StoredSize(b: Body): nat {
    if b == [] then 0
    else StoredSize(b[..|b| - 1]) + if b[|b| - 1].Stored? then EntrySize(b[|b| - 1]) else 0
  }

  function Events(b: Body): nat {
    if b == [] then 0 else Events(b[..|b| - 1]) + if b[|b| - 1].Stored? then 1 else 0
  }

  function TornSize(b: Body): nat {
    if b == [] then 0
    else TornSize(b[..|b| - 1]) + if b[|b| - 1].Torn? then EntrySize(b[|b| - 1]) else 0
  }

  lemma {:induction false} SizeIsStoredAndTorn(b: Body)
    ensures BodySize(b) == StoredSize(b) + TornSize(b)
  {
    if b != [] {
      SizeIsStoredAndTorn(b[..|b| - 1]);
    }
  }

  predicate Untorn(b: Body) {
    forall e <- b :: e.Stored?
  }

  lemma AppendedEntry(b: Body, e: Entry)
    ensures BodySize(b + [e]) == BodySize(b) + EntrySize(e)
    ensures StoredSize(b + [e]) == StoredSize(b) + if e.Stored? then EntrySize(e) else 0
    ensures Events(b + [e]) == Events(b) + if e.Stored? then 1 else 0
    ensures TornSize(b + [e]) == TornSize(b) + if e.Torn? then EntrySize(e) else 0
  {
    assert (b + [e])[..|b|] == b;
  }

  lemma {:induction false} UntornSize(b: Body)
    requires Untorn(b)
    ensures BodySize(b) == StoredSize(b) && TornSize(b) == 0
  {
    if b != [] {
      UntornSize(b[..|b| - 1]);
    }
  }

  /** The files the SDK itself wrote: those with all-digit names. */
  function Batches(d: Dir): Dir {
    map n | n in d && IsNumeric(n) :: d[n]
  }

  function BodyIn(d: Dir, n: Name): Body {
    if n in d then d[n] else []
  }

  ghost predicate Holds(d: Dir, o: Origin) {
    exists n, i :: n in d && 0 <= i < |d[n]| && d[n][i].Stored? && d[n][i].origin == o
  }

  // ---- total size of a directory ----

  ghost function DirSize(d: Dir): nat
    decreases |d|
  {
    if d == map[] then 0
    else
      var n :| n in d;
      BodySize(d[n]) + DirSize(d - {n})
  }

  lemma {:induction false} DirSizeRemoves(d: Dir, n: Name)
    requires n in d
    ensures DirSize(d) == BodySize(d[n]) + DirSize(d - {n})
    decreases |d|
  {
    var m :| m in d && DirSize(d) == BodySize(d[m]) + DirSize(d - {m});
    if m != n {
      DirSizeRemoves(d - {m}, n);
      DirSizeRemoves(d - {n}, m);
      assert d - {m} - {n} == d - {n} - {m};
    }
  }

  /** Some files of `d` are gone. */
  ghost predicate Sub(d': Dir, d: Dir) {
    forall n :: n in d' ==> n in d && d'[n] == d[n]
  }

  lemma {:induction false} SmallerDirSize(d': Dir, d: Dir)
    requires Sub(d', d)
    ensures DirSize(d') <= DirSize(d)
    decreases |d'|
  {
    if d' != map[] {
      var n :| n in d';
      DirSizeRemoves(d', n);
      DirSizeRemoves(d, n);
      SmallerDirSize(d' - {n}, d - {n});
    }
  }

  function Sum(s: seq<nat>): nat {
    if s == [] then 0 else s[0] + Sum(s[1..])
  }

  lemma {:induction false} SumRemoves(s: seq<nat>, i: nat)
    requires i < |s|
    ensures Sum(s) == s[i] + Sum(s[..i] + s[i + 1..])
  {
    var r := s[..i] + s[i + 1..];
    if i > 0 {
      SumRemoves(s[1..], i - 1);
      assert r[1..] == s[1..][..i - 1] + s[1..][i..];
    } else {
      assert r == s[1..];
    }
  }

  lemma {:induction false} SumAppends(s: seq<nat>, n: nat)
    ensures Sum(s + [n]) == Sum(s) + n
  {
    if s != [] {
      SumAppends(s[1..], n);
      assert (s + [n])[1..] == s[1..] + [n];
    }
  }

  ghost predicate Lists(names: seq<Name>, d: Dir) {
    Sorted(names) && forall n :: n in names <==> n in d
  }

  lemma ListedOnce(names: seq<Name>, i: nat, j: nat)
    requires Sorted(names) && i < j < |names|
    ensures names[i] != names[j]
  {
    LessIsAsymmetric(names[i], names[j]);
  }

  /** A directory has one listing. */
  lemma {:induction false} ListingIsUnique(a: seq<Name>, b: seq<Name>, d: Dir)
    requires Lists(a, d) && Lists(b, d)
    ensures a == b
    decreases |a|
  {
    if b != [] {
      assert b[0] in b && b[0] in a;
    }
    if a != [] {
      var n := a[0];
      assert n in a && n in b;
      assert b[0] in b && b[0] in a;
      var i: nat :| i < |b| && b[i] == n;
      var j: nat :| j < |a| && a[j] == b[0];
      if i > 0 && j > 0 {
        LessIsAsymmetric(b[0], n);
      }
      assert b[0] == n;
      RestOfListing(a, d);
      RestOfListing(b, d);
      ListingIsUnique(a[1..], b[1..], d - {n});
      assert a == [n] + a[1..] && b == [n] + b[1..];
    }
  }

  lemma RestOfListing(names: seq<Name>, d: Dir)
    requires Lists(names, d) && names != []
    ensures Lists(names[1..], d - {names[0]})
  {
    forall i | 0 < i < |names|
      ensures names[i] != names[0]
    {
      ListedOnce(names, 0, i);
    }
    assert names == [names[0]] + names[1..];
  }

  lemma {:induction false} ListingSum(names: seq<Name>, sizes: seq<nat>, d: Dir)
    requires Lists(names, d) && |sizes| == |names|
    requires forall i | 0 <= i < |names| :: names[i] in d && sizes[i] == BodySize(d[names[i]])
    ensures Sum(sizes) == DirSize(d)
    decreases |names|
  {
    if names == [] {
      assert d == map[];
    } else {
      var n := names[0];
      RestOfListing(names, d);
      DirSizeRemoves(d, n);
      ListingSum(names[1..], sizes[1..], d - {n});
    }
  }

  // ---- sorted, numeric listings ----

  lemma PrependSmaller(n: Name, names: seq<Name>)
    requires Sorted(names) && (names != [] ==> Less(n, names[0]))
    ensures Sorted([n] + names)
  {
    forall i | 0 < i < |names|
      ensures Less(n, names[i])
    {
      LessIsTransitive(n, names[0], names[i]);
    }
  }

  function Insert(names: seq<Name>, n: Name): (r: seq<Name>)
    requires Sorted(names)
    ensures Sorted(r) && forall m :: m in r <==> m in names || m == n
  {
    if names == [] then [n]
    else if n == names[0] then names
    else if Less(n, names[0]) then
      PrependSmaller(n, names);
      [n] + names
    else
      var r := Insert(names[1..], n);
      LessIsTotal(n, names[0]);
      PrependSmaller(names[0], r);
      [names[0]] + r
  }

  function SortNames(names: seq<Name>): (r: seq<Name>)
    ensures Sorted(r) && forall m :: m in r <==> m in names
  {
    if names == [] then [] else Insert(SortNames(names[1..]), names[0])
  }

  function OnlyNumeric(names: seq<Name>): (r: seq<Name>)
    ensures forall m :: m in r <==> m in names && IsNumeric(m)
    ensures Sorted(names) ==> Sorted(r)
  {
    if names == [] then []
    else if IsNumeric(names[0]) then
      var r := OnlyNumeric(names[1..]);
      assert Sorted(names) && r != [] ==> Less(names[0], r[0]) by {
        assert r != [] ==> r[0] in names[1..];
      }
      assert Sorted(names) ==> Sorted([names[0]] + r) by {
        if Sorted(names) {
          PrependSmaller(names[0], r);
        }
      }
      [names[0]] + r
    else OnlyNumeric(names[1..])
  }

  // ---- the platform ----

  /** What the platform and other threads do to the calls on one directory during an operation.
      Names longer than `room` do not fit into a path. */
  datatype Platform = Platform(
    room: nat,
    unlistable: bool,
    unsizable: set<Name>, undeletable: set<Name>, unmovable: set<Name>, unopenable: set<Name>,
    vanishing: set<Name>,     // removed by another thread just before the call
    tearing: map<Name, nat>)  // writes fail after this many bytes

  predicate Fits(x: Platform, n: Name) {
    |n| <= x.room
  }

  /** A file that an operation cannot get rid of. */
  predicate Resists(x: Platform, n: Name) {
    !Fits(x, n) || n in x.undeletable
  }

  predicate Sizable(x: Platform, n: Name) {
    Fits(x, n) && n !in x.unsizable
  }

  ghost function LongestName(names: set<Name>): (r: nat)
    ensures forall n <- names :: |n| <= r
    decreases |names|
  {
    if names == {} then 0
    else
      var n :| n in names;
      var r := LongestName(names - {n});
      assert names == names - {n} + {n};
      if |n| > r then |n| else r
  }

  /** No call on these files fails. */
  ghost function Faultless(names: set<Name>): (x: Platform)
    ensures forall n <- names :: Fits(x, n)
  {
    Platform(LongestName(names), false, {}, {}, {}, {}, {}, map[])
  }

  /** What a failing write leaves behind: nothing, unless it got through some of its bytes. */
  function Remains(x: Platform, n: Name, w: Tlv.Write): Body
    requires n in x.tearing
  {
    if 0 < x.tearing[n] < Tlv.EncodedSize(w) then [Torn(w, x.tearing[n])] else []
  }

  class Directory {
    var files: Dir
    /** Not under the control of the code: it may change between operations. */
    var platform: Platform

    constructor (files: Dir, platform: Platform)
      ensures this.files == files && this.platform == platform
    {
      this.files := files;
      this.platform := platform;
    }

    /** Names in no particular order. */
    method ListFiles() returns (ok: bool, names: seq<Name>)
      ensures ok == !platform.unlistable
      ensures ok ==> forall n :: n in names <==> n in files
    {
      ok, names := !platform.unlistable, [];
      var left := files.Keys;
      while left != {}
        invariant left <= files.Keys
        invariant forall n :: n in files <==> n in names || n in left
        decreases |left|
      {
        var n :| n in left;
        names, left := names + [n], left - {n};
      }
    }

    method FileSize(n: Name) returns (ok: bool, size: nat)
      ensures ok == (n in files && n !in platform.unsizable)
      ensures ok ==> size == BodySize(files[n])
    {
      ok, size := n in files && n !in platform.unsizable, 0;
      if ok {
        size := BodySize(files[n]);
      }
    }

    method Delete(n: Name) returns (r: Result)
      modifies this`files
      ensures r == if n in platform.undeletable then Failure
        else if n in old(files) && n !in platform.vanishing then OK else DoesNotExist
      ensures files == if n in platform.undeletable then old(files) else old(files) - {n}
    {
      if n in platform.undeletable {
        return Failure;
      }
      r := if n in files && n !in platform.vanishing then OK else DoesNotExist;
      files := files - {n};
    }

    /** Moves a file, refusing to overwrite. */
    method Rename(n: Name, to: Directory) returns (r: Result)
      requires to != this
      modifies this`files, to`files
      ensures r == if n in platform.unmovable then Failure
        else if n in old(to.files) then AlreadyExists
        else if n in old(files) && n !in platform.vanishing then OK else DoesNotExist
      ensures files == if r == OK || r == DoesNotExist then old(files) - {n} else old(files)
      ensures to.files == if r == OK then old(to.files)[n := old(files)[n]] else old(to.files)
    {
      if n in platform.unmovable {
        return Failure;
      }
      if n in to.files {
        return AlreadyExists;
      }
      if n in files && n !in platform.vanishing {
        r := OK;
        to.files := to.files[n := files[n]];
      } else {
        r := DoesNotExist;
      }
      files := files - {n};
    }

    /** Opens for append, creating the file if need be. */
    method OpenForWrite(n: Name) returns (ok: bool)
      modifies this`files
      ensures ok == (n !in platform.unopenable)
      ensures files == if ok then old(files)[n := BodyIn(old(files), n)] else old(files)
    {
      ok := n !in platform.unopenable;
      if ok {
        files := files[n := BodyIn(files, n)];
      }
    }

    /** One write of a whole encoded event. */
    method Write(n: Name, data: array<Tlv.Byte>, w: Tlv.Write, o: Origin) returns (ok: bool)
      requires n in files && data[..] == Tlv.EncodeAll(Tlv.Blocks(w))
      modifies this`files
      ensures ok == (n !in platform.tearing)
      ensures files == old(files)[n := old(files)[n] + if ok then [Stored(w, o)] else Remains(platform, n, w)]
    {
      ok := n !in platform.tearing;
      files := files[n := files[n] + if ok then [Stored(w, o)] else Remains(platform, n, w)];
    }
  }

  lemma NumericExactly(n: Name)
    ensures IsNumeric(n) <==> forall c <- n :: c in "0123456789"
  {
    if IsNumeric(n) {
      forall c <- n
        ensures c in "0123456789"
      {
        DigitsListed(c);
      }
    } else {
      var i: nat :| i < |n| && !('0' <= n[i] <= '9');
      DigitsListed(n[i]);
    }
  }

  lemma DigitsListed(c: char)
    ensures '0' <= c <= '9' <==> c in "0123456789"
  {
    var s := "0123456789";
    assert s[0] == '0' && s[1] == '1' && s[2] == '2' && s[3] == '3' && s[4] == '4';
    assert s[5] == '5' && s[6] == '6' && s[7] == '7' && s[8] == '8' && s[9] == '9';
    if '0' <= c <= '9' {
      assert s[c as int - '0' as int] == c;
    }
  }

  /** CacheKnownFilenames: the sorted names of the batch files, or none if listing fails. */
  method CacheKnownFilenames(dir: Directory) returns (ok: bool, names: seq<Name>)
    ensures ok == !dir.platform.unlistable
    ensures ok ==> Lists(names, Batches(dir.files))
    ensures ok ==> Sorted(names) && forall n :: n in names <==> n in dir.files && forall c <- n :: c in "0123456789"
  {
    ok, names := dir.ListFiles();
    if ok {
      names := OnlyNumeric(SortNames(names));
      forall n
        ensures IsNumeric(n) <==> forall c <- n :: c in "0123456789"
      {
        NumericExactly(n);
      }
    }
  }
}

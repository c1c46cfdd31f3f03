/** How large a consent directory can get (storage_write.cpp): over a whole run, and from any
    rotation on, the quota, plus one batch file, plus what failed writes left in that file. */
module DirectoryBounds {
  import opened Consents
  import opened Filenames
  import opened Directories
  import opened FeatureEventStorages
  import opened Purge
  import opened BatchWriters
  import opened StorageMessages
  import opened WriterRuns
  import opened BatchBounds
  import Tlv

  /** All but one batch file are within `quota`, and that one, which is the active file if there
      is one, is within the file limit except for at most `torn` bytes of failed writes. */
  ghost predicate AllBut(cfg: Config, quota: nat, torn: nat, a: Active, d: Dir, x: Name) {
    && (a.name != "" ==> x == a.name)
    && DirSize(Batches(d) - {x}) <= quota
    && StoredSize(BodyIn(Batches(d), x)) <= cfg.maxFileSize
    && TornSize(BodyIn(Batches(d), x)) <= torn
  }

  lemma AllButBoundsDirectory(cfg: Config, quota: nat, torn: nat, a: Active, d: Dir, x: Name)
    requires AllBut(cfg, quota, torn, a, d, x)
    ensures DirSize(Batches(d)) <= quota + cfg.maxFileSize + torn
  {
    if x in Batches(d) {
      DirSizeRemoves(Batches(d), x);
      SizeIsStoredAndTorn(d[x]);
    } else {
      assert Batches(d) - {x} == Batches(d);
    }
  }

  lemma WithinQuota(cfg: Config, quota: nat, torn: nat, a: Active, d: Dir) returns (x: Name)
    requires DirSize(Batches(d)) <= quota && (a.name == "" || a.name !in d)
    ensures AllBut(cfg, quota, torn, a, d, x)
  {
    EmptyBodyCounts();
    // no batch file is called "-"
    assert "-"[0] < '0';
    x := if a.name == "" then "-" else a.name;
    assert Batches(d) - {x} == Batches(d);
  }

  /** Files of two directories, put together. */
  lemma {:induction false} UnionDirSize(u: Dir, d: Dir, p: Dir)
    requires forall n :: n in u ==> (n in d && u[n] == d[n]) || (n in p && u[n] == p[n])
    ensures DirSize(u) <= DirSize(d) + DirSize(p)
    decreases |u|
  {
    if u != map[] {
      var n :| n in u;
      DirSizeRemoves(u, n);
      if n in d && u[n] == d[n] {
        DirSizeRemoves(d, n);
        UnionDirSize(u - {n}, d - {n}, p);
      } else {
        DirSizeRemoves(p, n);
        UnionDirSize(u - {n}, d, p - {n});
      }
    }
  }

  /** `g'` is `g` with some files of `p` added, but no active file among them. */
  ghost predicate Gains(a: Active, g: Dir, p: Dir, g': Dir) {
    && (forall n :: n in g ==> n in g' && g'[n] == g[n])
    && (forall n :: n in g' && n !in g ==> n in p && g'[n] == p[n] && (a.name != "" ==> n != a.name))
  }

  lemma StillAllButWithGains(cfg: Config, quota: nat, torn: nat, a: Active, g: Dir, p: Dir, g': Dir, x: Name)
    returns (x': Name)
    requires AllBut(cfg, quota, torn, a, g, x) && Gains(a, g, p, g')
    ensures AllBut(cfg, quota + DirSize(Batches(p)), torn, a, g', x')
  {
    if a.name == "" && x !in Batches(g) {
      assert Batches(g) - {x} == Batches(g);
      UnionDirSize(Batches(g'), Batches(g), Batches(p));
      x' := WithinQuota(cfg, quota + DirSize(Batches(p)), torn, a, g');
    } else {
      UnionDirSize(Batches(g') - {x}, Batches(g) - {x}, Batches(p));
      assert BodyIn(Batches(g'), x) == BodyIn(Batches(g), x);
      x' := x;
    }
  }

  /** A migration adds at most what was pending. */
  lemma MigrationGains(t: Turn)
    requires ConsentSet(t.x, t.start, Granted, t.end, t.ok) && t.start.consent != Granted
    requires !Usurps(t.x, t.start, TrackingConsentChanged(Granted))
    ensures Gains(t.start.activeGranted, t.start.granted, t.start.pending, t.end.granted)
  {
  }

  ghost predicate Shrinks(a: Active, d: Dir, a': Active, d': Dir) {
    Sub(d', d) && (a' == a || a' == NO_FILE)
  }

  lemma StillAllBut(cfg: Config, quota: nat, torn: nat, a: Active, d: Dir, torn': nat, a': Active, d': Dir, x: Name)
    requires AllBut(cfg, quota, torn, a, d, x) && torn <= torn' && Shrinks(a, d, a', d')
    ensures AllBut(cfg, quota, torn', a', d', x)
  {
    EmptyBodyCounts();
    SmallerDirSize(Batches(d') - {x}, Batches(d) - {x});
  }

  // ---- one event ----

  /** A purge during which the batch files that cannot be sized or deleted have no more than
      `stubborn` bytes. */
  ghost predicate Purges(cfg: Config, stubborn: nat, x: Platform, a: Active, d: Dir, now: int, size: nat) {
    !CanReuse(cfg, a, now, size) && !x.unlistable && DirSize(Stubborn(x, Batches(d))) <= stubborn
  }

  ghost predicate RotatesWithin(cfg: Config, stubborn: nat, x: Platform, a: Active, d: Dir, now: int, size: nat) {
    CanReuse(cfg, a, now, size) || x.unlistable || Purges(cfg, stubborn, x, a, d, now, size)
  }

  /** Whatever was there before. */
  lemma PurgedAllBut(cfg: Config, stubborn: nat, torn: nat, x: Platform, a: Active, d: Dir, now: int, size: nat,
                     a1: Active, d1: Dir)
    returns (n: Name)
    requires FileReady(cfg, x, a, d, now, size, a1, d1) && SameDigitCount(now)
    requires Purges(cfg, stubborn, x, a, d, now, size)
    ensures AllBut(cfg, cfg.maxDirectorySize + stubborn, torn, a1, d1, n)
  {
    var names :| Purged(cfg, x, d, names, d1) && a1 == NewFile(x, names, now);
    PurgedListing(cfg, x, d, names, d1);
    RotationIsFresh(cfg, x, a, d, now, size, a1, d1);
    n := WithinQuota(cfg, cfg.maxDirectorySize + stubborn, torn, a1, d1);
  }

  lemma ReadyStillAllBut(cfg: Config, quota: nat, stubborn: nat, torn: nat, x: Platform, a: Active, d: Dir, now: int,
                         size: nat, a1: Active, d1: Dir, n: Name)
    returns (n': Name)
    requires FileReady(cfg, x, a, d, now, size, a1, d1) && SameDigitCount(now)
    requires RotatesWithin(cfg, stubborn, x, a, d, now, size) && cfg.maxDirectorySize + stubborn <= quota
    requires AllBut(cfg, quota, torn, a, d, n)
    ensures AllBut(cfg, quota, torn, a1, d1, n')
  {
    n' := n;
    if !CanReuse(cfg, a, now, size) && !x.unlistable {
      n' := PurgedAllBut(cfg, stubborn, torn, x, a, d, now, size, a1, d1);
    }
  }

  lemma CommitStillAllBut(cfg: Config, quota: nat, torn: nat, x: Platform, a1: Active, d1: Dir, w: Tlv.Write, o: Origin,
                          a': Active, d': Dir, ok: bool, n: Name)
    requires Committed(x, a1, d1, w, o, a', d', ok) && AllBut(cfg, quota, torn, a1, d1, n)
    requires DirWithinLimits(cfg, a', d')
    ensures AllBut(cfg, quota, torn + Tear(x, a'.name, w), a', d', n)
  {
    if a1.name != "" {
      CommitCounts(x, a1, d1, w, o, a', d', ok);
      assert Batches(d') - {n} == Batches(d1) - {n};
      assert BodyIn(Batches(d'), n) == BodyIn(d', n) && BodyIn(Batches(d1), n) == BodyIn(d1, n);
    }
  }

  lemma FlushStillAllBut(cfg: Config, quota: nat, stubborn: nat, torn: nat, x: Platform, a: Active, d: Dir,
                         w: Tlv.Write, o: Origin, now: int, a': Active, d': Dir, ok: bool, n: Name)
    returns (n': Name)
    requires Flushed(cfg, x, a, d, w, o, now, a', d', ok) && Accepts(cfg, w) && SameDigitCount(now)
    requires RotatesWithin(cfg, stubborn, x, a, d, now, Tlv.EncodedSize(w)) && cfg.maxDirectorySize + stubborn <= quota
    requires AllBut(cfg, quota, torn, a, d, n) && DirWithinLimits(cfg, a', d')
    ensures AllBut(cfg, quota, torn + Tear(x, a'.name, w), a', d', n')
  {
    var size := Tlv.EncodedSize(w);
    var a1, d1 :| FileReady(cfg, x, a, d, now, size, a1, d1) && Committed(x, a1, d1, w, o, a', d', ok);
    n' := ReadyStillAllBut(cfg, quota, stubborn, torn, x, a, d, now, size, a1, d1, n);
    CommitStillAllBut(cfg, quota, torn, x, a1, d1, w, o, a', d', ok, n');
  }

  lemma FlushAfterPurge(cfg: Config, stubborn: nat, x: Platform, a: Active, d: Dir, w: Tlv.Write, o: Origin, now: int,
                        a': Active, d': Dir, ok: bool)
    returns (n: Name)
    requires Flushed(cfg, x, a, d, w, o, now, a', d', ok) && Accepts(cfg, w) && SameDigitCount(now)
    requires Purges(cfg, stubborn, x, a, d, now, Tlv.EncodedSize(w)) && DirWithinLimits(cfg, a', d')
    ensures AllBut(cfg, cfg.maxDirectorySize + stubborn, Tear(x, a'.name, w), a', d', n)
  {
    var size := Tlv.EncodedSize(w);
    var a1, d1 :| FileReady(cfg, x, a, d, now, size, a1, d1) && Committed(x, a1, d1, w, o, a', d', ok);
    n := PurgedAllBut(cfg, stubborn, 0, x, a, d, now, size, a1, d1);
    CommitStillAllBut(cfg, cfg.maxDirectorySize + stubborn, 0, x, a1, d1, w, o, a', d', ok, n);
  }

  // ---- the part of a turn that one directory sees ----

  function DirOf(s: Writer, c: Consent): Dir {
    if c == Granted then s.granted else s.pending
  }

  function ActiveOf(s: Writer, c: Consent): Active {
    if c == Granted then s.activeGranted else s.activePending
  }

  function PlatformOf(x: Platforms, c: Consent): Platform {
    if c == Granted then x.granted else x.pending
  }

  /** An acceptable event for directory `c`. */
  ghost predicate WritesTo(cfg: Config, f: FeatureId, c: Consent, m: Message, t: Turn) {
    m.EventGenerated? && m.feature == f && Target(t.start.consent, m.bypass) == c && Accepts(cfg, m.write)
  }

  ghost predicate MigratesTo(c: Consent, m: Message, t: Turn) {
    c == Granted && m == TrackingConsentChanged(Granted) && t.start.consent != Granted
  }

  lemma EvictionShrinks(s: Writer, s': Writer, c: Consent)
    requires Evicted(s, s')
    ensures Shrinks(ActiveOf(s, c), DirOf(s, c), ActiveOf(s', c), DirOf(s', c))
  {
  }

  lemma WriteFlushes(cfg: Config, f: FeatureId, c: Consent, i: nat, m: Message, t: Turn)
    requires Handles(cfg, f, i, m, t) && WritesTo(cfg, f, c, m, t) && c != NotGranted
    ensures Flushed(cfg, PlatformOf(t.x, c), ActiveOf(t.start, c), DirOf(t.start, c), m.write, Handled(i), t.now,
      ActiveOf(t.end, c), DirOf(t.end, c), t.ok)
  {
  }

  /** Whatever is neither written nor moved to a directory leaves it smaller, if anything. */
  lemma OthersShrink(cfg: Config, f: FeatureId, c: Consent, i: nat, m: Message, t: Turn)
    requires Handles(cfg, f, i, m, t) && !WritesTo(cfg, f, c, m, t) && !MigratesTo(c, m, t) && c != NotGranted
    ensures Shrinks(ActiveOf(t.start, c), DirOf(t.start, c), ActiveOf(t.end, c), DirOf(t.end, c))
  {
  }

  /** Bytes that a failing write of the turn leaves in the directory. */
  ghost function TornBy(cfg: Config, f: FeatureId, c: Consent, m: Message, t: Turn): nat {
    if WritesTo(cfg, f, c, m, t) then Tear(PlatformOf(t.x, c), ActiveOf(t.end, c).name, m.write) else 0
  }

  /** Bytes that the turn may move to the directory. */
  ghost function MigratedBy(c: Consent, m: Message, t: Turn): nat {
    if MigratesTo(c, m, t) then DirSize(Batches(t.start.pending)) else 0
  }

  /** If the turn starts a new file in the directory, the files that cannot be purged are within
      `stubborn`. */
  ghost predicate TurnWithin(cfg: Config, stubborn: nat, f: FeatureId, c: Consent, m: Message, t: Turn) {
    WritesTo(cfg, f, c, m, t) ==>
      RotatesWithin(cfg, stubborn, PlatformOf(t.x, c), ActiveOf(t.start, c), DirOf(t.start, c), t.now,
        Tlv.EncodedSize(m.write))
  }

  /** The turn does start a new file, or tries to, and can list the directory. */
  ghost predicate TurnPurges(cfg: Config, stubborn: nat, f: FeatureId, c: Consent, m: Message, t: Turn) {
    && WritesTo(cfg, f, c, m, t)
    && Purges(cfg, stubborn, PlatformOf(t.x, c), ActiveOf(t.start, c), DirOf(t.start, c), t.now,
      Tlv.EncodedSize(m.write))
  }

  /** A turn of a regular run. */
  ghost predicate RegularTurn(cfg: Config, f: FeatureId, prev: Writer, i: nat, m: Message, t: Turn) {
    && Evicted(prev, t.start) && Handles(cfg, f, i, m, t)
    && !Usurps(t.x, t.start, m) && (m.EventGenerated? ==> SameDigitCount(t.now))
    && WriterWithinLimits(cfg, t.end)
  }

  lemma TurnStillAllBut(cfg: Config, stubborn: nat, f: FeatureId, c: Consent, quota: nat, torn: nat, prev: Writer,
                        i: nat, m: Message, t: Turn, x: Name)
    returns (x': Name)
    requires RegularTurn(cfg, f, prev, i, m, t) && TurnWithin(cfg, stubborn, f, c, m, t)
    requires c != NotGranted && cfg.maxDirectorySize + stubborn <= quota
    requires AllBut(cfg, quota, torn, ActiveOf(prev, c), DirOf(prev, c), x)
    ensures
      AllBut(cfg, quota + MigratedBy(c, m, t), torn + TornBy(cfg, f, c, m, t), ActiveOf(t.end, c), DirOf(t.end, c), x')
  {
    var a, d, a', d' := ActiveOf(t.start, c), DirOf(t.start, c), ActiveOf(t.end, c), DirOf(t.end, c);
    EvictionShrinks(prev, t.start, c);
    StillAllBut(cfg, quota, torn, ActiveOf(prev, c), DirOf(prev, c), torn, a, d, x);
    if WritesTo(cfg, f, c, m, t) {
      WriteFlushes(cfg, f, c, i, m, t);
      x' := FlushStillAllBut(cfg, quota, stubborn, torn, PlatformOf(t.x, c), a, d, m.write, Handled(i), t.now, a', d',
        t.ok, x);
    } else if MigratesTo(c, m, t) {
      MigrationGains(t);
      x' := StillAllButWithGains(cfg, quota, torn, a, d, t.start.pending, d', x);
    } else {
      OthersShrink(cfg, f, c, i, m, t);
      StillAllBut(cfg, quota, torn, a, d, torn, a', d', x);
      x' := x;
    }
  }

  lemma TurnAfterPurge(cfg: Config, stubborn: nat, f: FeatureId, c: Consent, prev: Writer, i: nat, m: Message, t: Turn)
    returns (x: Name)
    requires RegularTurn(cfg, f, prev, i, m, t) && TurnPurges(cfg, stubborn, f, c, m, t) && c != NotGranted
    ensures
      AllBut(cfg, cfg.maxDirectorySize + stubborn, TornBy(cfg, f, c, m, t), ActiveOf(t.end, c), DirOf(t.end, c), x)
  {
    WriteFlushes(cfg, f, c, i, m, t);
    x := FlushAfterPurge(cfg, stubborn, PlatformOf(t.x, c), ActiveOf(t.start, c), DirOf(t.start, c), m.write,
      Handled(i), t.now, ActiveOf(t.end, c), DirOf(t.end, c), t.ok);
  }

  // ---- whole runs ----

  ghost predicate RegularRun(cfg: Config, f: FeatureId, init: Writer, log: History, turns: seq<Turn>) {
    Initial(init) && IsRun(cfg, f, init, log, turns) && Regular(log, turns)
  }

  lemma {:induction false} RunPrefix(cfg: Config, f: FeatureId, init: Writer, log: History, turns: seq<Turn>, n: nat)
    requires RegularRun(cfg, f, init, log, turns) && n <= |log|
    ensures RegularRun(cfg, f, init, log[..n], turns[..n])
    decreases |log|
  {
    PrefixIsRegular(log, turns, n);
    if n == |log| {
      assert log[..n] == log && turns[..n] == turns;
    } else {
      var m := |log| - 1;
      PrefixIsRegular(log, turns, m);
      RunPrefix(cfg, f, init, log[..m], turns[..m], n);
      assert log[..m][..n] == log[..n] && turns[..m][..n] == turns[..n];
    }
  }

  /** After `i` turns. */
  function StateAt(init: Writer, turns: seq<Turn>, i: nat): Writer
    requires i <= |turns|
  {
    if i == 0 then init else turns[i - 1].end
  }

  lemma TurnOf(cfg: Config, f: FeatureId, init: Writer, log: History, turns: seq<Turn>, i: nat)
    requires RegularRun(cfg, f, init, log, turns) && i < |log|
    ensures RegularTurn(cfg, f, StateAt(init, turns, i), i, log[i], turns[i])
  {
    RunPrefix(cfg, f, init, log, turns, i + 1);
    var log', turns' := log[..i + 1], turns[..i + 1];
    BatchFilesStayWithinLimits(cfg, f, init, log', turns');
    assert log'[i] == log[i] && turns'[i] == turns[i];
    assert StateAfter(init, turns'[..i]) == StateAt(init, turns, i);
  }

  /** Bytes torn in the directory by the turns from `r` to before `n`. */
  ghost function TornBytes(cfg: Config, f: FeatureId, c: Consent, log: History, turns: seq<Turn>, r: nat, n: nat): nat
    requires |turns| == |log| && r <= n <= |log|
  {
    if r == n then 0
    else TornBytes(cfg, f, c, log, turns, r, n - 1) + TornBy(cfg, f, c, log[n - 1], turns[n - 1])
  }

  ghost function MigratedBytes(c: Consent, log: History, turns: seq<Turn>, r: nat, n: nat): nat
    requires |turns| == |log| && r <= n <= |log|
  {
    if r == n then 0
    else MigratedBytes(c, log, turns, r, n - 1) + MigratedBy(c, log[n - 1], turns[n - 1])
  }

  ghost predicate TurnAt(cfg: Config, stubborn: nat, f: FeatureId, c: Consent, init: Writer, log: History,
                         turns: seq<Turn>, i: nat)
    requires i < |turns| == |log|
  {
    && RegularTurn(cfg, f, StateAt(init, turns, i), i, log[i], turns[i])
    && TurnWithin(cfg, stubborn, f, c, log[i], turns[i])
  }

  ghost predicate AllButAt(cfg: Config, quota: nat, torn: nat, c: Consent, init: Writer, turns: seq<Turn>, i: nat,
                           x: Name)
    requires i <= |turns|
  {
    AllBut(cfg, quota, torn, ActiveOf(StateAt(init, turns, i), c), DirOf(StateAt(init, turns, i), c), x)
  }

  lemma NextStillAllBut(cfg: Config, stubborn: nat, f: FeatureId, c: Consent, quota: nat, torn: nat, init: Writer,
                        log: History, turns: seq<Turn>, i: nat, x: Name)
    returns (x': Name)
    requires i < |turns| == |log| && TurnAt(cfg, stubborn, f, c, init, log, turns, i)
    requires c != NotGranted && cfg.maxDirectorySize + stubborn <= quota
    requires AllButAt(cfg, quota, torn, c, init, turns, i, x)
    ensures AllButAt(cfg, quota + MigratedBy(c, log[i], turns[i]), torn + TornBy(cfg, f, c, log[i], turns[i]),
      c, init, turns, i + 1, x')
  {
    x' := TurnStillAllBut(cfg, stubborn, f, c, quota, torn, StateAt(init, turns, i), i, log[i], turns[i], x);
  }

  lemma {:induction false} AllButFrom(cfg: Config, stubborn: nat, f: FeatureId, c: Consent, quota: nat, torn: nat,
                                      init: Writer, log: History, turns: seq<Turn>, r: nat, n: nat, x: Name)
    returns (x': Name)
    requires r <= n <= |turns| == |log| && c != NotGranted && cfg.maxDirectorySize + stubborn <= quota
    requires forall i | r <= i < n :: TurnAt(cfg, stubborn, f, c, init, log, turns, i)
    requires AllButAt(cfg, quota, torn, c, init, turns, r, x)
    ensures AllButAt(cfg, quota + MigratedBytes(c, log, turns, r, n), torn + TornBytes(cfg, f, c, log, turns, r, n),
      c, init, turns, n, x')
    decreases n
  {
    x' := x;
    if r < n {
      x' := AllButFrom(cfg, stubborn, f, c, quota, torn, init, log, turns, r, n - 1, x);
      x' := NextStillAllBut(cfg, stubborn, f, c, quota + MigratedBytes(c, log, turns, r, n - 1),
        torn + TornBytes(cfg, f, c, log, turns, r, n - 1), init, log, turns, n - 1, x');
    }
  }

  /** So the directory is bounded in the end if it was at `r`. */
  lemma BoundedFrom(cfg: Config, stubborn: nat, f: FeatureId, c: Consent, quota: nat, torn: nat, init: Writer,
                    log: History, turns: seq<Turn>, r: nat, x: Name)
    requires RegularRun(cfg, f, init, log, turns) && r <= |log| && c != NotGranted
    requires forall i | r <= i < |log| :: TurnWithin(cfg, stubborn, f, c, log[i], turns[i])
    requires cfg.maxDirectorySize + stubborn <= quota && AllButAt(cfg, quota, torn, c, init, turns, r, x)
    ensures DirSize(Batches(DirOf(StateAfter(init, turns), c))) <= quota + cfg.maxFileSize
      + (torn + TornBytes(cfg, f, c, log, turns, r, |log|)) + MigratedBytes(c, log, turns, r, |log|)
  {
    var n, s := |log|, StateAfter(init, turns);
    forall i | r <= i < n
      ensures TurnAt(cfg, stubborn, f, c, init, log, turns, i)
    {
      TurnOf(cfg, f, init, log, turns, i);
    }
    var x' := AllButFrom(cfg, stubborn, f, c, quota, torn, init, log, turns, r, n, x);
    AllButBoundsDirectory(cfg, quota + MigratedBytes(c, log, turns, r, n),
      torn + TornBytes(cfg, f, c, log, turns, r, n), ActiveOf(s, c), DirOf(s, c), x');
  }

  lemma PurgedAt(cfg: Config, stubborn: nat, f: FeatureId, c: Consent, init: Writer, log: History, turns: seq<Turn>,
                 r: nat)
    returns (x: Name)
    requires RegularRun(cfg, f, init, log, turns) && r < |log| && c != NotGranted
    requires TurnPurges(cfg, stubborn, f, c, log[r], turns[r])
    ensures
      AllButAt(cfg, cfg.maxDirectorySize + stubborn, TornBy(cfg, f, c, log[r], turns[r]), c, init, turns, r + 1, x)
  {
    TurnOf(cfg, f, init, log, turns, r);
    x := TurnAfterPurge(cfg, stubborn, f, c, StateAt(init, turns, r), r, log[r], turns[r]);
  }

  // ---- the bounds ----

  function Max(a: nat, b: nat): nat {
    if a < b then b else a
  }

  /** In every run, whatever fails and whatever other threads remove, if the files that a rotation
      in this directory cannot size or delete never have more than `stubborn` bytes: it is at most
      its quota and these (or what it began with) plus one file large, plus the bytes that failed
      writes left and those migrated to it. */
  lemma DirectoryStaysNearQuota(cfg: Config, stubborn: nat, f: FeatureId, c: Consent, init: Writer, log: History,
                                turns: seq<Turn>)
    requires RegularRun(cfg, f, init, log, turns) && c != NotGranted
    requires forall i | 0 <= i < |log| :: TurnWithin(cfg, stubborn, f, c, log[i], turns[i])
    ensures DirSize(Batches(DirOf(StateAfter(init, turns), c))) <=
      Max(cfg.maxDirectorySize + stubborn, DirSize(Batches(DirOf(init, c)))) + cfg.maxFileSize
      + TornBytes(cfg, f, c, log, turns, 0, |log|) + MigratedBytes(c, log, turns, 0, |log|)
  {
    var quota := Max(cfg.maxDirectorySize + stubborn, DirSize(Batches(DirOf(init, c))));
    var x := WithinQuota(cfg, quota, 0, ActiveOf(init, c), DirOf(init, c));
    BoundedFrom(cfg, stubborn, f, c, quota, 0, init, log, turns, 0, x);
  }

  /** Every rotation starts afresh: what the directory held before, what was migrated or torn, and
      which earlier rotations could not purge, no longer matters. */
  lemma DirectoryIsNearQuotaSinceRotation(cfg: Config, stubborn: nat, f: FeatureId, c: Consent, init: Writer,
                                          log: History, turns: seq<Turn>, r: nat)
    requires RegularRun(cfg, f, init, log, turns) && r < |log| && c != NotGranted
    requires TurnPurges(cfg, stubborn, f, c, log[r], turns[r])
    requires forall i | r < i < |log| :: TurnWithin(cfg, stubborn, f, c, log[i], turns[i])
    ensures DirSize(Batches(DirOf(StateAfter(init, turns), c))) <=
      cfg.maxDirectorySize + stubborn + cfg.maxFileSize
      + TornBytes(cfg, f, c, log, turns, r, |log|) + MigratedBytes(c, log, turns, r + 1, |log|)
  {
    var x := PurgedAt(cfg, stubborn, f, c, init, log, turns, r);
    BoundedFrom(cfg, stubborn, f, c, cfg.maxDirectorySize + stubborn, TornBy(cfg, f, c, log[r], turns[r]),
      init, log, turns, r + 1, x);
    TornFirst(cfg, f, c, log, turns, r, |log|);
  }

  lemma {:induction false} TornFirst(cfg: Config, f: FeatureId, c: Consent, log: History, turns: seq<Turn>, r: nat,
                                     n: nat)
    requires |turns| == |log| && r < n <= |log|
    ensures TornBytes(cfg, f, c, log, turns, r, n)
      == TornBy(cfg, f, c, log[r], turns[r]) + TornBytes(cfg, f, c, log, turns, r + 1, n)
  {
    if r + 1 < n {
      TornFirst(cfg, f, c, log, turns, r, n - 1);
    }
  }

  /** Nothing torn in the directory, and nothing migrated to it, in these turns. */
  ghost predicate Calm(cfg: Config, f: FeatureId, c: Consent, log: History, turns: seq<Turn>, r: nat, n: nat)
    requires |turns| == |log| && r <= n <= |log|
  {
    forall i | r <= i < n :: TornBy(cfg, f, c, log[i], turns[i]) == 0 && MigratedBy(c, log[i], turns[i]) == 0
  }

  lemma {:induction false} CalmAddsNothing(cfg: Config, f: FeatureId, c: Consent, log: History, turns: seq<Turn>,
                                           r: nat, n: nat)
    requires |turns| == |log| && r <= n <= |log| && Calm(cfg, f, c, log, turns, r, n)
    ensures TornBytes(cfg, f, c, log, turns, r, n) == 0 && MigratedBytes(c, log, turns, r, n) == 0
  {
    if r < n {
      CalmAddsNothing(cfg, f, c, log, turns, r, n - 1);
    }
  }

  /** From any rotation that could size and delete every batch file, whatever happened before it,
      and until files are migrated or a write fails part-way or such a file comes up: at most quota
      plus one file. */
  lemma DirectoryExceedsQuotaByAtMostOneFile(cfg: Config, f: FeatureId, c: Consent, init: Writer, log: History,
                                             turns: seq<Turn>, r: nat)
    requires RegularRun(cfg, f, init, log, turns) && r < |log| && c != NotGranted
    requires TurnPurges(cfg, 0, f, c, log[r], turns[r]) && Calm(cfg, f, c, log, turns, r, |log|)
    requires forall i | r < i < |log| :: TurnWithin(cfg, 0, f, c, log[i], turns[i])
    ensures DirSize(Batches(DirOf(StateAfter(init, turns), c))) <= cfg.maxDirectorySize + cfg.maxFileSize
  {
    DirectoryIsNearQuotaSinceRotation(cfg, 0, f, c, init, log, turns, r);
    CalmAddsNothing(cfg, f, c, log, turns, r, |log|);
    CalmAddsNothing(cfg, f, c, log, turns, r + 1, |log|);
  }

  /** The same from the start, for a directory within its quota then. */
  lemma DirectoryBeginsNearQuota(cfg: Config, f: FeatureId, c: Consent, init: Writer, log: History, turns: seq<Turn>)
    requires RegularRun(cfg, f, init, log, turns) && c != NotGranted
    requires DirSize(Batches(DirOf(init, c))) <= cfg.maxDirectorySize && Calm(cfg, f, c, log, turns, 0, |log|)
    requires forall i | 0 <= i < |log| :: TurnWithin(cfg, 0, f, c, log[i], turns[i])
    ensures DirSize(Batches(DirOf(StateAfter(init, turns), c))) <= cfg.maxDirectorySize + cfg.maxFileSize
  {
    DirectoryStaysNearQuota(cfg, 0, f, c, init, log, turns);
    CalmAddsNothing(cfg, f, c, log, turns, 0, |log|);
  }

  ghost predicate NoWriteTears(cfg: Config, f: FeatureId, log: History, turns: seq<Turn>)
    requires |turns| == |log|
  {
    forall i, c | 0 <= i < |log| :: TornBy(cfg, f, c, log[i], turns[i]) == 0
  }
}

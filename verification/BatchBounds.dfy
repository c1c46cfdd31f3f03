/** How large batch files and consent directories can get, and whether the counters kept in
    memory agree with what is on disk (storage_write.cpp). */
module BatchBounds {
  import opened Consents
  import opened Filenames
  import opened Directories
  import opened FeatureEventStorages
  import opened Purge
  import opened BatchWriters
  import opened StorageMessages
  import opened WriterRuns
  import Tlv

  // ---- one event ----

  /** The counters are upper bounds of the whole writes in the active file. */
  ghost predicate Covers(a: Active, d: Dir) {
    a.name != "" ==> Events(BodyIn(d, a.name)) <= a.writes && StoredSize(BodyIn(d, a.name)) <= a.bytes
  }

  ghost predicate Exact(a: Active, d: Dir) {
    a.name != "" ==> Events(BodyIn(d, a.name)) == a.writes && StoredSize(BodyIn(d, a.name)) == a.bytes
  }

  ghost predicate CountersWithinLimits(cfg: Config, a: Active) {
    a.name != "" ==> IsNumeric(a.name) && a.writes <= cfg.maxWritesPerFile && a.bytes <= cfg.maxFileSize
  }

  /** All candidate names of a new file have the same number of digits. */
  predicate SameDigitCount(now: int) {
    |Digits(ToMs(now))| == |Digits(ToMs(now) + ATTEMPTS - 1)|
  }

  lemma PurgedListing(cfg: Config, x: Platform, d: Dir, names: seq<Name>, d1: Dir)
    requires Purged(cfg, x, d, names, d1)
    ensures Lists(names, Batches(d1))
    ensures DirSize(Batches(d1)) <= cfg.maxDirectorySize + DirSize(Stubborn(x, Batches(d)))
  {
    var listing: seq<Name>, k: nat :|
      && Lists(listing, Batches(d)) && ShortestSufficientPrefix(x, d, listing, cfg.maxDirectorySize, k)
      && names == Survivors(x, listing, k) && d1 == d - Lost(listing, names);
    SurvivorsAreListed(x, d, listing, k);
    PurgeMeetsQuota(x, d, listing, cfg.maxDirectorySize, k);
  }

  /** The name of a new file is not in use. */
  lemma RotationIsFresh(cfg: Config, x: Platform, a: Active, d: Dir, now: int, size: nat, a1: Active, d1: Dir)
    requires FileReady(cfg, x, a, d, now, size, a1, d1) && !CanReuse(cfg, a, now, size) && SameDigitCount(now)
    ensures a1 == NO_FILE || (a1 == Active(Digits(a1.ms), a1.ms, 0, 0) && a1.name !in d1)
  {
    if !x.unlistable {
      var names :| Purged(cfg, x, d, names, d1) && a1 == NewFile(x, names, now);
      PurgedListing(cfg, x, d, names, d1);
      SameDigitCountIsSafe(names, ToMs(now));
      AllocationIsRightExactly(names, ToMs(now));
      FirstFreeIsLeast(names, ToMs(now), ATTEMPTS);
      assert a1 != NO_FILE ==> a1.name !in Batches(d1);
    }
  }

  /** Bytes that a failing write leaves in the file. */
  function Tear(x: Platform, n: Name, w: Tlv.Write): nat {
    if n != "" && n !in x.unopenable && n in x.tearing then TornSize(Remains(x, n, w)) else 0
  }

  lemma EntryCounts(x: Platform, n: Name, b: Body, w: Tlv.Write, o: Origin)
    requires n != "" && n !in x.unopenable
    ensures
      var b', stored := b + if n in x.tearing then Remains(x, n, w) else [Stored(w, o)], n !in x.tearing;
      && Events(b') == Events(b) + (if stored then 1 else 0)
      && StoredSize(b') == StoredSize(b) + (if stored then Tlv.EncodedSize(w) else 0)
      && TornSize(b') == TornSize(b) + Tear(x, n, w)
  {
    if n !in x.tearing {
      AppendedEntry(b, Stored(w, o));
    } else if Remains(x, n, w) == [] {
      assert b + [] == b;
    } else {
      AppendedEntry(b, Torn(w, x.tearing[n]));
      AppendedEntry([], Torn(w, x.tearing[n]));
      assert [] + [Torn(w, x.tearing[n])] == [Torn(w, x.tearing[n])];
    }
  }

  /** What one event does to a file's contents and to its counters. */
  lemma CommitCounts(x: Platform, a1: Active, d1: Dir, w: Tlv.Write, o: Origin, a': Active, d': Dir, ok: bool)
    requires Committed(x, a1, d1, w, o, a', d', ok)
    ensures a'.name == a1.name
    ensures
      var b, b', n := BodyIn(d1, a1.name), BodyIn(d', a1.name), if ok then Tlv.EncodedSize(w) else 0;
      && Events(b') - Events(b) == a'.writes - a1.writes == (if ok then 1 else 0)
      && StoredSize(b') - StoredSize(b) == a'.bytes - a1.bytes == n
      && TornSize(b') - TornSize(b) == Tear(x, a1.name, w)
    ensures forall n :: n != a1.name ==> (n in d' <==> n in d1) && (n in d' ==> d'[n] == d1[n])
  {
    if a1.name != "" && a1.name !in x.unopenable {
      EntryCounts(x, a1.name, BodyIn(d1, a1.name), w, o);
    }
  }

  lemma EmptyBodyCounts()
    ensures Events([]) == 0 && StoredSize([]) == 0 && TornSize([]) == 0
  {
  }

  // ---- the limits of a file ----

  /** The limits of the configuration. Remains of failed writes are not counted: they are what
      can take a file over its size. */
  ghost predicate FileWithinLimits(cfg: Config, b: Body) {
    Events(b) <= cfg.maxWritesPerFile && StoredSize(b) <= cfg.maxFileSize
  }

  /** The run has stored something in it. */
  ghost predicate FromRun(b: Body) {
    exists i :: 0 <= i < |b| && b[i].Stored? && b[i].origin.Handled?
  }

  ghost predicate FilesWithinLimits(cfg: Config, d: Dir) {
    forall n :: n in d && FromRun(d[n]) ==> FileWithinLimits(cfg, d[n])
  }

  ghost predicate DirWithinLimits(cfg: Config, a: Active, d: Dir) {
    FilesWithinLimits(cfg, d) && Covers(a, d) && CountersWithinLimits(cfg, a)
  }

  lemma ReadyFileHasRoom(cfg: Config, x: Platform, a: Active, d: Dir, now: int, size: nat, a1: Active, d1: Dir)
    requires FileReady(cfg, x, a, d, now, size, a1, d1) && SameDigitCount(now) && IsNumeric(a.name)
    requires DirWithinLimits(cfg, a, d) && cfg.maxWritesPerFile > 0 && size <= cfg.maxFileSize
    ensures FilesWithinLimits(cfg, d1) && Covers(a1, d1)
    ensures a1.name != "" ==>
      IsNumeric(a1.name) && a1.writes < cfg.maxWritesPerFile && a1.bytes + size <= cfg.maxFileSize
  {
    ReadyFile(cfg, x, a, d, now, size, a1, d1);
    EmptyBodyCounts();
    if !CanReuse(cfg, a, now, size) {
      RotationIsFresh(cfg, x, a, d, now, size, a1, d1);
    }
  }

  lemma FlushKeepsLimits(cfg: Config, x: Platform, a: Active, d: Dir, w: Tlv.Write, o: Origin, now: int,
                         a': Active, d': Dir, ok: bool)
    requires Flushed(cfg, x, a, d, w, o, now, a', d', ok) && SameDigitCount(now) && IsNumeric(a.name)
    requires DirWithinLimits(cfg, a, d)
    ensures DirWithinLimits(cfg, a', d')
  {
    if Accepts(cfg, w) {
      var size := Tlv.EncodedSize(w);
      var a1, d1 :| FileReady(cfg, x, a, d, now, size, a1, d1) && Committed(x, a1, d1, w, o, a', d', ok);
      ReadyFileHasRoom(cfg, x, a, d, now, size, a1, d1);
      CommitKeepsLimits(cfg, x, a1, d1, w, o, a', d', ok);
    }
  }

  lemma CommitKeepsLimits(cfg: Config, x: Platform, a1: Active, d1: Dir, w: Tlv.Write, o: Origin,
                          a': Active, d': Dir, ok: bool)
    requires Committed(x, a1, d1, w, o, a', d', ok) && FilesWithinLimits(cfg, d1) && Covers(a1, d1)
    requires a1.name != "" ==>
      IsNumeric(a1.name) && a1.writes < cfg.maxWritesPerFile && a1.bytes + Tlv.EncodedSize(w) <= cfg.maxFileSize
    ensures DirWithinLimits(cfg, a', d')
  {
    CommitCounts(x, a1, d1, w, o, a', d', ok);
    if a1.name != "" {
      forall n | n in d' && FromRun(d'[n])
        ensures FileWithinLimits(cfg, d'[n])
      {
        if n == a1.name {
          assert d'[n] == BodyIn(d', n);
        }
      }
    }
  }

  lemma ReadyFileIsExact(cfg: Config, x: Platform, a: Active, d: Dir, now: int, size: nat, a1: Active, d1: Dir)
    requires FileReady(cfg, x, a, d, now, size, a1, d1) && SameDigitCount(now) && Exact(a, d)
    ensures Exact(a1, d1)
  {
    if !CanReuse(cfg, a, now, size) {
      RotationIsFresh(cfg, x, a, d, now, size, a1, d1);
      EmptyBodyCounts();
    }
  }

  lemma FlushKeepsExact(cfg: Config, x: Platform, a: Active, d: Dir, w: Tlv.Write, o: Origin, now: int,
                        a': Active, d': Dir, ok: bool)
    requires Flushed(cfg, x, a, d, w, o, now, a', d', ok) && SameDigitCount(now) && Exact(a, d)
    ensures Exact(a', d')
  {
    if Accepts(cfg, w) {
      var size := Tlv.EncodedSize(w);
      var a1, d1 :| FileReady(cfg, x, a, d, now, size, a1, d1) && Committed(x, a1, d1, w, o, a', d', ok);
      ReadyFileIsExact(cfg, x, a, d, now, size, a1, d1);
      CommitCounts(x, a1, d1, w, o, a', d', ok);
    }
  }

  // ---- migrations and the active granted file ----

  /** A migration puts a pending file in the place of the active granted file, which no longer
      exists on disk, or never did because opening it failed. */
  ghost predicate Usurps(x: Platforms, s: Writer, m: Message) {
    && m == TrackingConsentChanged(Granted) && s.consent != Granted
    && s.activeGranted.name != "" && s.activeGranted.name !in s.granted
    && s.activeGranted.name in Processed(x, s.pending) - x.pending.vanishing
  }

  /** Exactly then are the counters of the active granted file wrong after a migration, complete
      or not, unless the file that takes the name happens to match them. */
  lemma MigrationKeepsCountersExactlyUnlessUsurped(x: Platforms, s: Writer, s': Writer, ok: bool)
    requires s.consent != Granted && ConsentSet(x, s, Granted, s', ok) && Exact(s.activeGranted, s.granted)
    ensures Exact(s'.activeGranted, s'.granted) <==>
      (Usurps(x, s, TrackingConsentChanged(Granted)) ==>
        var b := s.pending[s.activeGranted.name]; Events(b) == 0 && StoredSize(b) == 0)
  {
  }

  /** If the file moved in is full and the counters still allow one more event, the next event is
      added to it and the file exceeds its limit. */
  lemma UsurpedFileOverflows(cfg: Config, x1: Platforms, s: Writer, s1: Writer, x2: Platforms, w: Tlv.Write, o: Origin,
                             now: int, s2: Writer)
    requires Usurps(x1, s, TrackingConsentChanged(Granted)) && ConsentSet(x1, s, Granted, s1, true)
    requires Events(s.pending[s.activeGranted.name]) == cfg.maxWritesPerFile
    requires CanReuse(cfg, s.activeGranted, now, Tlv.EncodedSize(w))
    requires HandledWrite(cfg, x2, s1, w, o, false, now, s2, true)
    ensures s.activeGranted.name in s2.granted && Events(s2.granted[s.activeGranted.name]) == cfg.maxWritesPerFile + 1
  {
    var n := s.activeGranted.name;
    assert s1.granted[n] == s.pending[n];
    AppendedEntry(s1.granted[n], Stored(w, o));
  }

  // ---- a run that gets there ----

  /** The four states after the start. */
  function UsurpingStates(w: Tlv.Write, ms: nat): seq<Writer> {
    var n, size := Digits(ms), Tlv.EncodedSize(w);
    var first := [Stored(w, Handled(0))];
    [ Writer(Pending, Active(n, ms, 1, size), NO_FILE, map[n := first], map[]),
      Writer(Pending, Active(n, ms, 1, size), Active(n, ms, 0, 0), map[n := first], map[]),
      Writer(Granted, NO_FILE, Active(n, ms, 0, 0), map[], map[n := first]),
      Writer(Granted, NO_FILE, Active(n, ms, 1, size), map[], map[n := first + [Stored(w, Handled(3))]]) ]
  }

  function UsurpingLog(f: FeatureId, w: Tlv.Write): History {
    [EventGenerated(f, w, false), EventGenerated(f, w, true), TrackingConsentChanged(Granted),
     EventGenerated(f, w, false)]
  }

  /** Only the opening of the second file fails. */
  ghost function UsurpingTurns(w: Tlv.Write, ms: nat): (turns: seq<Turn>)
    ensures |turns| == 4
  {
    var x, s, now := Faultless({Digits(ms)}), UsurpingStates(w, ms), ms * NANOS_PER_MS;
    [ Turn(Writer(Pending, NO_FILE, NO_FILE, map[], map[]), now, Platforms(x, x), s[0], true),
      Turn(s[0], now, Platforms(x, x.(unopenable := {Digits(ms)})), s[1], false),
      Turn(s[1], now, Platforms(x, x), s[2], true),
      Turn(s[2], now, Platforms(x, x), s[3], true) ]
  }

  lemma FirstTurnsArePossible(cfg: Config, f: FeatureId, w: Tlv.Write, ms: nat)
    requires Accepts(cfg, w)
    ensures
      var log, turns := UsurpingLog(f, w), UsurpingTurns(w, ms);
      Handles(cfg, f, 0, log[0], turns[0]) && Handles(cfg, f, 1, log[1], turns[1])
  {
    var turns := UsurpingTurns(w, ms);
    FirstWriteIsPossible(cfg, w, Handled(0), turns[0].x.pending, ms);
    FirstOpenCanFail(cfg, w, Handled(1), turns[1].x.granted, ms);
  }

  lemma LastTurnsArePossible(cfg: Config, f: FeatureId, w: Tlv.Write, ms: nat)
    requires cfg.maxWritesPerFile == 1 && Accepts(cfg, w) && cfg.maxFileAge >= 0
    ensures
      var log, turns := UsurpingLog(f, w), UsurpingTurns(w, ms);
      Handles(cfg, f, 2, log[2], turns[2]) && Handles(cfg, f, 3, log[3], turns[3])
  {
    var turns := UsurpingTurns(w, ms);
    ProcessesAll(turns[2].x, turns[2].start.pending);
    var t := turns[3];
    assert FileReady(cfg, t.x.granted, t.start.activeGranted, t.start.granted, t.now, Tlv.EncodedSize(w),
      t.start.activeGranted, t.start.granted);
    assert Committed(t.x.granted, t.start.activeGranted, t.start.granted, w, Handled(3), t.end.activeGranted,
      t.end.granted, true);
  }

  lemma UsurpingRun(cfg: Config, f: FeatureId, w: Tlv.Write, ms: nat)
    requires cfg.maxWritesPerFile == 1 && Accepts(cfg, w) && cfg.maxFileAge >= 0
    ensures IsRun(cfg, f, Writer(Pending, NO_FILE, NO_FILE, map[], map[]), UsurpingLog(f, w), UsurpingTurns(w, ms))
  {
    var init, log, turns := Writer(Pending, NO_FILE, NO_FILE, map[], map[]), UsurpingLog(f, w), UsurpingTurns(w, ms);
    forall i | 0 <= i < 4
      ensures Continues(cfg, f, init, log, turns, i)
    {
      if i < 2 {
        FirstTurnsArePossible(cfg, f, w, ms);
      } else {
        LastTurnsArePossible(cfg, f, w, ms);
      }
    }
    TurnsMakeRun(cfg, f, init, log, turns);
  }

  /** With one event per file: a pending event, a bypassing event in the same millisecond whose file
      cannot be opened, a grant, and one more event leave a file with two events. */
  lemma UsurpedFileOverflowsInARun(cfg: Config, f: FeatureId, w: Tlv.Write, ms: nat)
    returns (init: Writer, log: History, turns: seq<Turn>)
    requires cfg.maxWritesPerFile == 1 && Accepts(cfg, w) && cfg.maxFileAge >= 0
    ensures Initial(init) && IsRun(cfg, f, init, log, turns) && |turns| == 4
    ensures log == [EventGenerated(f, w, false), EventGenerated(f, w, true), TrackingConsentChanged(Granted),
                    EventGenerated(f, w, false)]
    ensures forall i | 0 <= i < 4 :: turns[i].now == ms * NANOS_PER_MS && (turns[i].ok <==> i != 1)
    ensures
      var g, n := StateAfter(init, turns).granted, Digits(ms);
      n in g && Events(g[n]) == 2 > cfg.maxWritesPerFile
  {
    init, log, turns := Writer(Pending, NO_FILE, NO_FILE, map[], map[]), UsurpingLog(f, w), UsurpingTurns(w, ms);
    UsurpingRun(cfg, f, w, ms);
    AppendedEntry([], Stored(w, Handled(0)));
    AppendedEntry([Stored(w, Handled(0))], Stored(w, Handled(3)));
    assert [] + [Stored(w, Handled(0))] == [Stored(w, Handled(0))];
  }

  // ---- over whole runs ----

  ghost predicate Regular(log: History, turns: seq<Turn>)
    requires |turns| == |log|
  {
    forall i | 0 <= i < |log| ::
      !Usurps(turns[i].x, turns[i].start, log[i]) && (log[i].EventGenerated? ==> SameDigitCount(turns[i].now))
  }

  ghost predicate WriterWithinLimits(cfg: Config, s: Writer) {
    && DirWithinLimits(cfg, s.activePending, s.pending)
    && DirWithinLimits(cfg, s.activeGranted, s.granted)
  }

  lemma SubWithinLimits(cfg: Config, a: Active, d: Dir, a': Active, d': Dir)
    requires DirWithinLimits(cfg, a, d) && Sub(d', d) && (a' == a || a' == NO_FILE)
    ensures DirWithinLimits(cfg, a', d')
  {
    EmptyBodyCounts();
  }

  lemma MigrationKeepsLimits(cfg: Config, s: Writer, m: Message, t: Turn)
    requires m == TrackingConsentChanged(Granted) && s.consent != Granted && WriterWithinLimits(cfg, s)
    requires ConsentSet(t.x, s, Granted, t.end, t.ok) && !Usurps(t.x, s, m)
    ensures DirWithinLimits(cfg, t.end.activeGranted, t.end.granted)
  {
    var g' := t.end.granted;
    forall n | n in g' && FromRun(g'[n])
      ensures FileWithinLimits(cfg, g'[n])
    {
      assert g'[n] == if n in s.granted then s.granted[n] else s.pending[n];
    }
  }

  lemma TurnKeepsLimits(cfg: Config, f: FeatureId, i: nat, m: Message, t: Turn)
    requires Handles(cfg, f, i, m, t) && WriterWithinLimits(cfg, t.start)
    requires IsNumeric(t.start.activePending.name) && IsNumeric(t.start.activeGranted.name)
    requires !Usurps(t.x, t.start, m) && (m.EventGenerated? ==> SameDigitCount(t.now))
    ensures WriterWithinLimits(cfg, t.end)
  {
    var s, s' := t.start, t.end;
    match m
    case EventGenerated(g, w, bypass) =>
      if g == f && Target(s.consent, bypass) == Granted {
        FlushKeepsLimits(cfg, t.x.granted, s.activeGranted, s.granted, w, Handled(i), t.now,
          s'.activeGranted, s'.granted, t.ok);
      } else if g == f && Target(s.consent, bypass) == Pending {
        FlushKeepsLimits(cfg, t.x.pending, s.activePending, s.pending, w, Handled(i), t.now,
          s'.activePending, s'.pending, t.ok);
      }
    case TrackingConsentChanged(v) =>
      SubWithinLimits(cfg, s.activePending, s.pending, s'.activePending, s'.pending);
      if v == Granted && s.consent != Granted {
        MigrationKeepsLimits(cfg, s, m, t);
      }
  }

  lemma PrefixIsRegular(log: History, turns: seq<Turn>, n: nat)
    requires |turns| == |log| && Regular(log, turns) && n <= |log|
    ensures Regular(log[..n], turns[..n])
  {
  }

  /** In every run, with failing operations and with other threads removing files, the whole writes
      in a batch file that the run has written to are within the limits, and the counters never fall
      below the whole writes in the active files. */
  lemma {:induction false} BatchFilesStayWithinLimits(
      cfg: Config, f: FeatureId, init: Writer, log: History, turns: seq<Turn>)
    requires Initial(init) && IsRun(cfg, f, init, log, turns) && Regular(log, turns)
    ensures WriterWithinLimits(cfg, StateAfter(init, turns))
  {
    if log == [] {
      NothingFromRun(init);
    } else {
      var n := |log| - 1;
      PrefixIsRegular(log, turns, n);
      BatchFilesStayWithinLimits(cfg, f, init, log[..n], turns[..n]);
      var s, start := StateAfter(init, turns[..n]), turns[n].start;
      RunStaysWithin(cfg, f, init, log[..n], turns[..n]);
      SubWithinLimits(cfg, s.activePending, s.pending, start.activePending, start.pending);
      SubWithinLimits(cfg, s.activeGranted, s.granted, start.activeGranted, start.granted);
      TurnKeepsLimits(cfg, f, n, log[n], turns[n]);
    }
  }

  lemma NothingFromRun(init: Writer)
    requires Initial(init)
    ensures forall n :: n in init.pending ==> !FromRun(init.pending[n])
    ensures forall n :: n in init.granted ==> !FromRun(init.granted[n])
  {
    forall d: Dir, n | (d == init.pending || d == init.granted) && n in d
      ensures !FromRun(d[n])
    {
      if FromRun(d[n]) {
        var i :| 0 <= i < |d[n]| && d[n][i].Stored? && d[n][i].origin.Handled?;
        assert Holds(d, Handled(d[n][i].origin.position));
      }
    }
  }

  ghost predicate NoEvictions(init: Writer, turns: seq<Turn>) {
    forall i | 0 <= i < |turns| :: turns[i].start == StateAfter(init, turns[..i])
  }

  lemma TurnKeepsExact(cfg: Config, f: FeatureId, i: nat, m: Message, t: Turn)
    requires Handles(cfg, f, i, m, t)
    requires Exact(t.start.activePending, t.start.pending) && Exact(t.start.activeGranted, t.start.granted)
    requires t.start.consent != Pending ==> t.start.activePending == NO_FILE
    requires !Usurps(t.x, t.start, m) && (m.EventGenerated? ==> SameDigitCount(t.now))
    ensures Exact(t.end.activePending, t.end.pending) && Exact(t.end.activeGranted, t.end.granted)
  {
    var s, s' := t.start, t.end;
    match m
    case EventGenerated(g, w, bypass) =>
      if g == f && Target(s.consent, bypass) == Granted {
        FlushKeepsExact(cfg, t.x.granted, s.activeGranted, s.granted, w, Handled(i), t.now,
          s'.activeGranted, s'.granted, t.ok);
      } else if g == f && Target(s.consent, bypass) == Pending {
        FlushKeepsExact(cfg, t.x.pending, s.activePending, s.pending, w, Handled(i), t.now,
          s'.activePending, s'.pending, t.ok);
      }
    case TrackingConsentChanged(v) =>
      if v == Granted && s.consent != Granted {
        MigrationKeepsCountersExactlyUnlessUsurped(t.x, s, s', t.ok);
      }
  }

  /** While only the writer touches the files, the counters agree after every message with the whole
      writes on disk, whether or not its operation failed; they do not see what is left of a write
      that failed part-way. */
  lemma {:induction false} CountersStayExact(cfg: Config, f: FeatureId, init: Writer, log: History, turns: seq<Turn>)
    requires Initial(init) && IsRun(cfg, f, init, log, turns) && Regular(log, turns) && NoEvictions(init, turns)
    ensures
      var s := StateAfter(init, turns);
      Exact(s.activePending, s.pending) && Exact(s.activeGranted, s.granted)
  {
    if log != [] {
      var n := |log| - 1;
      forall i | 0 <= i < n
        ensures turns[..n][..i] == turns[..i]
      {
      }
      PrefixIsRegular(log, turns, n);
      CountersStayExact(cfg, f, init, log[..n], turns[..n]);
      RunStaysWithin(cfg, f, init, log[..n], turns[..n]);
      TurnKeepsExact(cfg, f, n, log[n], turns[n]);
    }
  }
}

/** What a reader finds in the batch files that a run leaves behind (storage_write.cpp,
    feature_read.cpp). */
module BatchContents {
  import opened Consents
  import opened Filenames
  import opened Directories
  import opened FeatureEventStorages
  import opened BatchWriters
  import opened StorageMessages
  import opened WriterRuns
  import opened BatchBounds
  import opened DirectoryBounds
  import Tlv

  /** The bytes of an entry: all of a write, or the first of a write that failed. */
  function EntryBytes(e: Entry): Tlv.Bytes {
    var bytes := Tlv.EncodeAll(Tlv.Blocks(e.write));
    match e
    case Stored(_, _) => bytes
    case Torn(_, n) => if n <= |bytes| then bytes[..n] else bytes
  }

  function Contents(b: Body): Tlv.Bytes {
    if b == [] then [] else Contents(b[..|b| - 1]) + EntryBytes(b[|b| - 1])
  }

  /** The blocks of an entry that got into the file whole. */
  function WholeBlocksOf(e: Entry): seq<Tlv.Block> {
    match e
    case Stored(w, _) => Tlv.Blocks(w)
    case Torn(w, n) => Tlv.Blocks(w)[..Tlv.WholeBlocks(Tlv.Blocks(w), n)]
  }

  function AllWholeBlocks(b: Body): seq<Tlv.Block> {
    if b == [] then [] else AllWholeBlocks(b[..|b| - 1]) + WholeBlocksOf(b[|b| - 1])
  }

  /** The failure fell between the two blocks of the write, or before or after them. */
  predicate CleanlyTorn(e: Entry) {
    e.Torn? ==> e.size == |Tlv.EncodeAll(WholeBlocksOf(e))|
  }

  /** Entries as the writer makes them. */
  predicate Writable(b: Body) {
    forall e <- b :: Tlv.StorableWrite(e.write) && (e.Torn? ==> e.size < Tlv.EncodedSize(e.write))
  }

  lemma EntryEncodes(e: Entry)
    requires Writable([e])
    ensures |EntryBytes(e)| == EntrySize(e)
    ensures |Tlv.EncodeAll(WholeBlocksOf(e))| <= EntrySize(e)
    ensures CleanlyTorn(e) <==> EntryBytes(e) == Tlv.EncodeAll(WholeBlocksOf(e))
    ensures CleanlyTorn(e) <==> |Tlv.EncodeAll(WholeBlocksOf(e))| == EntrySize(e)
    ensures forall b <- WholeBlocksOf(e) :: Tlv.Storable(b)
  {
    assert e in [e];
    Tlv.EncodedWriteSize(e.write);
    if e.Torn? {
      Tlv.WholeBlocksFit(Tlv.Blocks(e.write), e.size);
      Tlv.CleanCut(Tlv.Blocks(e.write), Tlv.WholeBlocks(Tlv.Blocks(e.write), e.size));
    }
  }

  /** The size accounting is about these bytes, and the whole blocks take up all of them exactly
      if every failure was a clean one. */
  lemma {:induction false} ContentsSize(b: Body)
    requires Writable(b)
    ensures |Contents(b)| == BodySize(b)
    ensures |Tlv.EncodeAll(AllWholeBlocks(b))| <= BodySize(b)
    ensures |Tlv.EncodeAll(AllWholeBlocks(b))| == BodySize(b) <==> forall e <- b :: CleanlyTorn(e)
    ensures (forall e <- b :: CleanlyTorn(e)) ==> Contents(b) == Tlv.EncodeAll(AllWholeBlocks(b))
    ensures forall c <- AllWholeBlocks(b) :: Tlv.Storable(c)
  {
    if b != [] {
      var before, e := b[..|b| - 1], b[|b| - 1];
      assert b == before + [e];
      ContentsSize(before);
      EntryEncodes(e);
      Tlv.EncodingConcatenates(AllWholeBlocks(before), WholeBlocksOf(e));
    }
  }

  /** A batch file is read back whole, block by block in the order of the writes and up to a clean
      end, if and only if every write that failed did so between blocks. */
  lemma FileReadsBackExactly(b: Body)
    requires Writable(b)
    ensures Tlv.ReadAll(Contents(b)) == (AllWholeBlocks(b), Tlv.EndOfFile) <==> forall e <- b :: CleanlyTorn(e)
  {
    ContentsSize(b);
    if Tlv.ReadAll(Contents(b)) == (AllWholeBlocks(b), Tlv.EndOfFile) {
      Tlv.CleanEndMeansEncoded(Contents(b));
    }
    if forall e <- b :: CleanlyTorn(e) {
      Tlv.BlocksReadBack(AllWholeBlocks(b));
    }
  }

  /** That is: before the write, or after its metadata. */
  lemma TornCleanlyExactlyBetweenBlocks(w: Tlv.Write, n: nat)
    requires Tlv.StorableWrite(w) && n < Tlv.EncodedSize(w)
    ensures CleanlyTorn(Torn(w, n)) <==> n == 0 || (w.metadata != [] && n == Tlv.HEADER_SIZE + |w.metadata|)
  {
    var bs := Tlv.Blocks(w);
    var event := Tlv.Block(Tlv.Event, w.event);
    assert bs[..0] == [];
    if w.metadata != [] {
      var meta := Tlv.Block(Tlv.Metadata, w.metadata);
      assert bs == [meta, event] && bs[1..] == [event];
      assert Tlv.EncodeAll([meta]) == Tlv.Encode(meta) + [];
      if n >= |Tlv.Encode(meta)| {
        assert Tlv.WholeBlocks([event], n - |Tlv.Encode(meta)|) == 0;
        assert bs[..1] == [meta];
      }
    }
  }

  // ---- the files of a run ----

  /** A file as the run writes it, without torn entries if no write fails part-way. */
  ghost predicate Intact(whole: bool, b: Body) {
    Writable(b) && (whole ==> Untorn(b))
  }

  ghost predicate FilesIntact(whole: bool, d: Dir) {
    forall n :: n in d && FromRun(d[n]) ==> Intact(whole, d[n])
  }

  ghost predicate DirIntact(whole: bool, a: Active, d: Dir) {
    FilesIntact(whole, d) && (a.name != "" ==> Intact(whole, BodyIn(d, a.name)))
  }

  lemma ShrunkIsIntact(whole: bool, a: Active, d: Dir, a': Active, d': Dir)
    requires DirIntact(whole, a, d) && Shrinks(a, d, a', d')
    ensures DirIntact(whole, a', d')
  {
  }

  lemma WriteIsIntact(whole: bool, x: Platform, n: Name, b: Body, w: Tlv.Write, o: Origin)
    requires Intact(whole, b) && Tlv.StorableWrite(w) && n !in x.unopenable
    requires n != "" && (whole ==> Tear(x, n, w) == 0)
    ensures Intact(whole, b + if n in x.tearing then Remains(x, n, w) else [Stored(w, o)])
  {
    if n in x.tearing && Remains(x, n, w) != [] {
      var e := Torn(w, x.tearing[n]);
      AppendedEntry([], e);
      assert [] + [e] == [e];
    }
  }

  lemma ReadyIsIntact(cfg: Config, whole: bool, x: Platform, a: Active, d: Dir, now: int, size: nat, a1: Active,
                      d1: Dir)
    requires FileReady(cfg, x, a, d, now, size, a1, d1) && SameDigitCount(now) && IsNumeric(a.name)
    requires DirIntact(whole, a, d)
    ensures DirIntact(whole, a1, d1)
  {
    ReadyFile(cfg, x, a, d, now, size, a1, d1);
    if !CanReuse(cfg, a, now, size) {
      RotationIsFresh(cfg, x, a, d, now, size, a1, d1);
    }
  }

  lemma FlushIsIntact(cfg: Config, whole: bool, x: Platform, a: Active, d: Dir, w: Tlv.Write, o: Origin, now: int,
                      a': Active, d': Dir, ok: bool)
    requires Flushed(cfg, x, a, d, w, o, now, a', d', ok) && SameDigitCount(now) && IsNumeric(a.name)
    requires cfg.maxEventSize < Tlv.LENGTH_LIMIT && w.event != []
    requires DirIntact(whole, a, d) && (whole && Accepts(cfg, w) ==> Tear(x, a'.name, w) == 0)
    ensures DirIntact(whole, a', d')
  {
    if Accepts(cfg, w) {
      var size := Tlv.EncodedSize(w);
      var a1, d1 :| FileReady(cfg, x, a, d, now, size, a1, d1) && Committed(x, a1, d1, w, o, a', d', ok);
      ReadyIsIntact(cfg, whole, x, a, d, now, size, a1, d1);
      CommitIsIntact(whole, x, a1, d1, w, o, a', d', ok);
    }
  }

  lemma CommitIsIntact(whole: bool, x: Platform, a1: Active, d1: Dir, w: Tlv.Write, o: Origin, a': Active, d': Dir,
                       ok: bool)
    requires Committed(x, a1, d1, w, o, a', d', ok) && Tlv.StorableWrite(w)
    requires DirIntact(whole, a1, d1) && (whole ==> Tear(x, a'.name, w) == 0)
    ensures DirIntact(whole, a', d')
  {
    var n := a1.name;
    if n != "" && n !in x.unopenable {
      WriteIsIntact(whole, x, n, BodyIn(d1, n), w, o);
      forall m | m in d' && FromRun(d'[m])
        ensures Intact(whole, d'[m])
      {
      }
    }
  }

  lemma GainedIsIntact(whole: bool, a: Active, g: Dir, p: Dir, g': Dir)
    requires DirIntact(whole, a, g) && FilesIntact(whole, p) && Gains(a, g, p, g')
    ensures DirIntact(whole, a, g')
  {
    forall n | n in g' && FromRun(g'[n])
      ensures Intact(whole, g'[n])
    {
      assert g'[n] == if n in g then g[n] else p[n];
    }
  }

  predicate NonEmptyEvents(log: History) {
    forall m <- log :: m.EventGenerated? ==> m.write.event != []
  }

  ghost predicate WriterIntact(whole: bool, s: Writer) {
    DirIntact(whole, s.activePending, s.pending) && DirIntact(whole, s.activeGranted, s.granted)
  }

  lemma TurnIsIntact(cfg: Config, whole: bool, f: FeatureId, c: Consent, i: nat, m: Message, t: Turn)
    requires cfg.maxEventSize < Tlv.LENGTH_LIMIT && (m.EventGenerated? ==> m.write.event != [] && SameDigitCount(t.now))
    requires Handles(cfg, f, i, m, t) && !Usurps(t.x, t.start, m) && (whole ==> TornBy(cfg, f, c, m, t) == 0)
    requires WriterIntact(whole, t.start) && IsNumeric(ActiveOf(t.start, c).name) && c != NotGranted
    ensures DirIntact(whole, ActiveOf(t.end, c), DirOf(t.end, c))
  {
    var a, d, a', d' := ActiveOf(t.start, c), DirOf(t.start, c), ActiveOf(t.end, c), DirOf(t.end, c);
    if WritesTo(cfg, f, c, m, t) {
      WriteFlushes(cfg, f, c, i, m, t);
      FlushIsIntact(cfg, whole, PlatformOf(t.x, c), a, d, m.write, Handled(i), t.now, a', d', t.ok);
    } else if MigratesTo(c, m, t) {
      MigrationGains(t);
      GainedIsIntact(whole, a, d, t.start.pending, d');
    } else {
      OthersShrink(cfg, f, c, i, m, t);
      ShrunkIsIntact(whole, a, d, a', d');
    }
  }

  lemma EvictedIsIntact(whole: bool, s: Writer, s': Writer)
    requires WriterIntact(whole, s) && Evicted(s, s')
    ensures WriterIntact(whole, s')
  {
    EvictionShrinks(s, s', Pending);
    EvictionShrinks(s, s', Granted);
    ShrunkIsIntact(whole, s.activePending, s.pending, s'.activePending, s'.pending);
    ShrunkIsIntact(whole, s.activeGranted, s.granted, s'.activeGranted, s'.granted);
  }

  lemma {:induction false} RunIsIntact(cfg: Config, whole: bool, f: FeatureId, init: Writer, log: History,
                                       turns: seq<Turn>)
    requires cfg.maxEventSize < Tlv.LENGTH_LIMIT && NonEmptyEvents(log)
    requires RegularRun(cfg, f, init, log, turns) && (whole ==> NoWriteTears(cfg, f, log, turns))
    ensures WriterIntact(whole, StateAfter(init, turns))
  {
    if log == [] {
      NothingFromRun(init);
    } else {
      var n := |log| - 1;
      PrefixIsRegular(log, turns, n);
      RunIsIntact(cfg, whole, f, init, log[..n], turns[..n]);
      RunStaysWithin(cfg, f, init, log[..n], turns[..n]);
      EvictedIsIntact(whole, StateAfter(init, turns[..n]), turns[n].start);
      TurnIsIntact(cfg, whole, f, Pending, n, log[n], turns[n]);
      TurnIsIntact(cfg, whole, f, Granted, n, log[n], turns[n]);
    }
  }

  ghost predicate ReadsBack(b: Body) {
    Tlv.ReadAll(Contents(b)) == (AllWholeBlocks(b), Tlv.EndOfFile)
  }

  /** A file that the run has stored something in, or that it would write to next. */
  ghost predicate FileOfRun(s: Writer, c: Consent, n: Name) {
    n in DirOf(s, c) && (FromRun(DirOf(s, c)[n]) || (n != "" && n == ActiveOf(s, c).name))
  }

  lemma FileOfRunIsIntact(whole: bool, s: Writer, c: Consent, n: Name)
    requires WriterIntact(whole, s) && FileOfRun(s, c, n)
    ensures Intact(whole, DirOf(s, c)[n])
  {
    assert n == ActiveOf(s, c).name ==> BodyIn(DirOf(s, c), n) == DirOf(s, c)[n];
  }

  /** Every batch file of a run can be read back whole if and only if each write to it that failed
      part-way did so between blocks; so while no write fails part-way, all of them can. */
  lemma RunFilesReadBackExactly(cfg: Config, f: FeatureId, init: Writer, log: History, turns: seq<Turn>, c: Consent,
                                n: Name)
    requires cfg.maxEventSize < Tlv.LENGTH_LIMIT && NonEmptyEvents(log) && RegularRun(cfg, f, init, log, turns)
    requires FileOfRun(StateAfter(init, turns), c, n)
    ensures
      var b := DirOf(StateAfter(init, turns), c)[n];
      && |Contents(b)| == BodySize(b)
      && (ReadsBack(b) <==> forall e <- b :: CleanlyTorn(e))
      && (NoWriteTears(cfg, f, log, turns) ==> Untorn(b) && ReadsBack(b))
  {
    var s := StateAfter(init, turns);
    RunIsIntact(cfg, false, f, init, log, turns);
    FileOfRunIsIntact(false, s, c, n);
    ContentsSize(DirOf(s, c)[n]);
    FileReadsBackExactly(DirOf(s, c)[n]);
    if NoWriteTears(cfg, f, log, turns) {
      RunIsIntact(cfg, true, f, init, log, turns);
      FileOfRunIsIntact(true, s, c, n);
    }
  }

  // ---- limits and counters against the bytes on disk ----

  lemma FileOfRunWithinLimits(cfg: Config, s: Writer, c: Consent, n: Name)
    requires WriterWithinLimits(cfg, s) && FileOfRun(s, c, n)
    ensures FileWithinLimits(cfg, DirOf(s, c)[n])
  {
    assert n == ActiveOf(s, c).name ==> BodyIn(DirOf(s, c), n) == DirOf(s, c)[n];
  }

  /** A file of the run exceeds its size limit by no more than the remains of failed writes in it. */
  lemma FilesExceedLimitsByTornBytesOnly(cfg: Config, f: FeatureId, init: Writer, log: History, turns: seq<Turn>,
                                         c: Consent, n: Name)
    requires cfg.maxEventSize < Tlv.LENGTH_LIMIT && NonEmptyEvents(log) && RegularRun(cfg, f, init, log, turns)
    requires FileOfRun(StateAfter(init, turns), c, n)
    ensures
      var b := DirOf(StateAfter(init, turns), c)[n];
      && Events(b) <= cfg.maxWritesPerFile
      && |Contents(b)| <= cfg.maxFileSize + TornSize(b)
      && (NoWriteTears(cfg, f, log, turns) ==> |Contents(b)| <= cfg.maxFileSize)
  {
    var s := StateAfter(init, turns);
    var b := DirOf(s, c)[n];
    RunFilesReadBackExactly(cfg, f, init, log, turns, c, n);
    BatchFilesStayWithinLimits(cfg, f, init, log, turns);
    FileOfRunWithinLimits(cfg, s, c, n);
    SizeIsStoredAndTorn(b);
    if NoWriteTears(cfg, f, log, turns) {
      UntornSize(b);
    }
  }

  /** While only the writer touches the files, the byte counter of an active file is its size on
      disk if and only if no write to it has failed part-way. */
  lemma CounterIsFileSizeExactlyUntorn(cfg: Config, f: FeatureId, init: Writer, log: History, turns: seq<Turn>,
                                       c: Consent)
    requires RegularRun(cfg, f, init, log, turns) && NoEvictions(init, turns)
    requires c != NotGranted && ActiveOf(StateAfter(init, turns), c).name != ""
    ensures
      var s := StateAfter(init, turns);
      var a, b := ActiveOf(s, c), BodyIn(DirOf(s, c), ActiveOf(s, c).name);
      && a.writes == Events(b) && BodySize(b) == a.bytes + TornSize(b)
      && (BodySize(b) == a.bytes <==> TornSize(b) == 0)
  {
    var s := StateAfter(init, turns);
    CountersStayExact(cfg, f, init, log, turns);
    SizeIsStoredAndTorn(BodyIn(DirOf(s, c), ActiveOf(s, c).name));
  }

  // ---- a run whose file outgrows its limit ----

  /** `i` remains of the same length. */
  function Remnants(w: Tlv.Write, k: nat, i: nat): (b: Body)
    ensures |b| == i
  {
    if i == 0 then [] else Remnants(w, k, i - 1) + [Torn(w, k)]
  }

  lemma {:induction false} RemnantsSize(w: Tlv.Write, k: nat, i: nat)
    ensures BodySize(Remnants(w, k, i)) == i * k
  {
    if i > 0 {
      RemnantsSize(w, k, i - 1);
      AppendedEntry(Remnants(w, k, i - 1), Torn(w, k));
      assert (i - 1) * k + k == i * k;
    }
  }

  /** After `i` events of which only the first `k` bytes got through. */
  function TornState(w: Tlv.Write, ms: nat, k: nat, i: nat): Writer {
    if i == 0 then Writer(Pending, NO_FILE, NO_FILE, map[], map[])
    else Writer(Pending, Active(Digits(ms), ms, 0, 0), NO_FILE, map[Digits(ms) := Remnants(w, k, i)], map[])
  }

  ghost function TornTurn(w: Tlv.Write, ms: nat, k: nat, i: nat): Turn {
    var x := Faultless({Digits(ms)}).(tearing := map[Digits(ms) := k]);
    Turn(TornState(w, ms, k, i), ms * NANOS_PER_MS, Platforms(x, x), TornState(w, ms, k, i + 1), false)
  }

  lemma TornWriteIsPossible(cfg: Config, x: Platform, a: Active, d: Dir, a1: Active, w: Tlv.Write, o: Origin, now: int,
                            k: nat)
    requires Accepts(cfg, w) && 0 < k < Tlv.EncodedSize(w) && FileReady(cfg, x, a, d, now, Tlv.EncodedSize(w), a1, d)
    requires a1.name != "" && a1.name !in x.unopenable && a1.name in x.tearing && x.tearing[a1.name] == k
    ensures Flushed(cfg, x, a, d, w, o, now, a1, d[a1.name := BodyIn(d, a1.name) + [Torn(w, k)]], false)
  {
    assert Committed(x, a1, d, w, o, a1, d[a1.name := BodyIn(d, a1.name) + [Torn(w, k)]], false);
  }

  lemma TornTurnIsPossible(cfg: Config, f: FeatureId, w: Tlv.Write, ms: nat, k: nat, i: nat)
    requires Accepts(cfg, w) && cfg.maxFileAge >= 0 && 0 < k < Tlv.EncodedSize(w)
    ensures Handles(cfg, f, i, EventGenerated(f, w, false), TornTurn(w, ms, k, i))
  {
    var t, a1 := TornTurn(w, ms, k, i), Active(Digits(ms), ms, 0, 0);
    if i == 0 {
      FirstFileIsReady(cfg, t.x.pending, ms, Tlv.EncodedSize(w));
    }
    TornWriteIsPossible(cfg, t.x.pending, t.start.activePending, t.start.pending, a1, w, Handled(i), t.now, k);
    assert BodyIn(t.start.pending, a1.name) == Remnants(w, k, i);
  }

  lemma TornTurnsMakeRun(cfg: Config, f: FeatureId, w: Tlv.Write, ms: nat, k: nat, n: nat)
    returns (log: History, turns: seq<Turn>)
    requires Accepts(cfg, w) && cfg.maxFileAge >= 0 && 0 < k < Tlv.EncodedSize(w)
    ensures |turns| == |log| == n && IsRun(cfg, f, TornState(w, ms, k, 0), log, turns)
    ensures forall i | 0 <= i < n :: log[i] == EventGenerated(f, w, false) && turns[i] == TornTurn(w, ms, k, i)
  {
    log := seq(n, _ => EventGenerated(f, w, false));
    turns := seq(n, i requires 0 <= i => TornTurn(w, ms, k, i));
    forall i | 0 <= i < n
      ensures Continues(cfg, f, TornState(w, ms, k, 0), log, turns, i)
    {
      TornTurnIsPossible(cfg, f, w, ms, k, i);
    }
    TurnsMakeRun(cfg, f, TornState(w, ms, k, 0), log, turns);
  }

  lemma TornRunIsRegular(f: FeatureId, w: Tlv.Write, ms: nat, k: nat, n: nat, log: History, turns: seq<Turn>)
    requires |turns| == |log| == n && SameDigitCount(ms * NANOS_PER_MS)
    requires forall i | 0 <= i < n :: log[i] == EventGenerated(f, w, false) && turns[i] == TornTurn(w, ms, k, i)
    ensures Regular(log, turns) && NoEvictions(TornState(w, ms, k, 0), turns)
    ensures StateAfter(TornState(w, ms, k, 0), turns) == TornState(w, ms, k, n)
  {
    forall i | 0 <= i < n
      ensures !Usurps(turns[i].x, turns[i].start, log[i]) && turns[i].now == ms * NANOS_PER_MS
      ensures turns[i].start == StateAfter(TornState(w, ms, k, 0), turns[..i])
    {
      assert i > 0 ==> turns[..i][i - 1] == TornTurn(w, ms, k, i - 1);
    }
  }

  /** Events that fail after `k` bytes, one after another, all go to the same file: no counter sees
      them, and the file grows by `k` bytes each. */
  lemma TornWritesAddUp(cfg: Config, f: FeatureId, w: Tlv.Write, ms: nat, k: nat, n: nat)
    returns (init: Writer, log: History, turns: seq<Turn>)
    requires Accepts(cfg, w) && cfg.maxFileAge >= 0 && 0 < k < Tlv.EncodedSize(w)
    requires n > 0 && SameDigitCount(ms * NANOS_PER_MS)
    ensures RegularRun(cfg, f, init, log, turns) && NoEvictions(init, turns) && |log| == n
    ensures
      var s, name := StateAfter(init, turns), Digits(ms);
      && s.activePending == Active(name, ms, 0, 0) && name in s.pending
      && BodySize(s.pending[name]) == n * k
  {
    init := TornState(w, ms, k, 0);
    log, turns := TornTurnsMakeRun(cfg, f, w, ms, k, n);
    TornRunIsRegular(f, w, ms, k, n, log, turns);
    RemnantsSize(w, k, n);
  }

  /** So a file can exceed its size limit, however large. */
  lemma TornWritesOutgrowLimit(cfg: Config, f: FeatureId, w: Tlv.Write, ms: nat)
    returns (init: Writer, log: History, turns: seq<Turn>)
    requires Accepts(cfg, w) && cfg.maxFileAge >= 0 && SameDigitCount(ms * NANOS_PER_MS)
    ensures RegularRun(cfg, f, init, log, turns) && NoEvictions(init, turns)
    ensures
      var s, name := StateAfter(init, turns), Digits(ms);
      name in s.pending && name == s.activePending.name && BodySize(s.pending[name]) > cfg.maxFileSize
  {
    init, log, turns := TornWritesAddUp(cfg, f, w, ms, 1, cfg.maxFileSize + 1);
  }
}

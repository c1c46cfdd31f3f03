/** The storage writer of one feature (storage_write.cpp): which consent directory an event
    goes to, when a batch file is reused or rotated, and all-or-nothing writes. */
module BatchWriters {
  import opened Options
  import opened Consents
  import opened Filenames
  import opened Directories
  import opened FeatureEventStorages
  import opened Purge
  import Tlv

  datatype Config = Config(maxFileAge: int, maxFileSize: nat, maxEventSize: nat, maxDirectorySize: nat,
                           maxWritesPerFile: int)

  /** The defaults of BatchWriterConfig; only the file age is configurable in production. */
  function ProductionConfig(maxFileAge: int): (cfg: Config)
    ensures 0 < cfg.maxEventSize < cfg.maxFileSize < cfg.maxDirectorySize
    ensures cfg.maxEventSize < Tlv.LENGTH_LIMIT && 0 < cfg.maxWritesPerFile
  {
    Config(maxFileAge, 0x40_0000, 512 * 1024, 512 * 1024 * 1024, 500)
  }

  const NANOS_PER_MS: nat := 1_000_000

  function ToMs(time: int): nat {
    if time < 0 then 0 else time / NANOS_PER_MS
  }

  // ---- the writer's state as a value ----

  /** What the writer remembers of the file it last wrote to; no name, no file. */
  datatype Active = Active(name: Name, ms: nat, writes: nat, bytes: nat)

  const NO_FILE := Active("", 0, 0, 0)

  datatype Writer = Writer(consent: Consent, activePending: Active, activeGranted: Active, pending: Dir,
                           granted: Dir)

  function MaxWrite(cfg: Config): nat {
    if cfg.maxEventSize < cfg.maxFileSize then cfg.maxEventSize else cfg.maxFileSize
  }

  ghost predicate Accepts(cfg: Config, w: Tlv.Write) {
    cfg.maxWritesPerFile > 0 && Tlv.EncodedSize(w) <= MaxWrite(cfg)
  }

  predicate CanReuse(cfg: Config, a: Active, now: int, size: nat) {
    && a.name != ""
    && now - a.ms * NANOS_PER_MS <= cfg.maxFileAge
    && a.writes < cfg.maxWritesPerFile
    && a.bytes + size <= cfg.maxFileSize
  }

  /** A quota purge of `d` leaves `d1`, of which `names` is then the listing. */
  ghost predicate Purged(cfg: Config, x: Platform, d: Dir, names: seq<Name>, d1: Dir) {
    exists listing: seq<Name>, k: nat ::
      && Lists(listing, Batches(d))
      && ShortestSufficientPrefix(x, d, listing, cfg.maxDirectorySize, k)
      && names == Survivors(x, listing, k)
      && d1 == d - Lost(listing, names)
  }

  /** The file that a rotation starts, if a name is left and fits. */
  function NewFile(x: Platform, names: seq<Name>, now: int): Active {
    match Allocate(names, ToMs(now))
    case None => NO_FILE
    case Some(ms) => if Fits(x, Digits(ms)) then Active(Digits(ms), ms, 0, 0) else NO_FILE
  }

  /** `a1` is the file to write to, if there is one, and `d1` what the search for it leaves. */
  ghost predicate FileReady(cfg: Config, x: Platform, a: Active, d: Dir, now: int, size: nat, a1: Active, d1: Dir) {
    if CanReuse(cfg, a, now, size) then a1 == a && d1 == d
    else if x.unlistable then a1 == NO_FILE && d1 == d
    else exists names :: Purged(cfg, x, d, names, d1) && a1 == NewFile(x, names, now)
  }

  predicate Writes(x: Platform, a1: Active) {
    a1.name != "" && a1.name !in x.unopenable && a1.name !in x.tearing
  }

  /** What opening the file and the write itself leave in it. */
  function Written(x: Platform, n: Name, d1: Dir, w: Tlv.Write, o: Origin): Dir {
    if n in x.unopenable then d1
    else d1[n := BodyIn(d1, n) + if n in x.tearing then Remains(x, n, w) else [Stored(w, o)]]
  }

  /** The write is done and accounted for, or fails with at most a torn remainder. */
  ghost predicate Committed(x: Platform, a1: Active, d1: Dir, w: Tlv.Write, o: Origin, a': Active, d': Dir, ok: bool) {
    && ok == Writes(x, a1)
    && a' == (if ok then a1.(writes := a1.writes + 1, bytes := a1.bytes + Tlv.EncodedSize(w)) else a1)
    && d' == if a1.name == "" then d1 else Written(x, a1.name, d1, w, o)
  }

  /** Effect of one event on the directory and active file of its consent level. */
  ghost predicate Flushed(cfg: Config, x: Platform, a: Active, d: Dir, w: Tlv.Write, o: Origin, now: int,
                          a': Active, d': Dir, ok: bool)
  {
    if !Accepts(cfg, w) then !ok && a' == a && d' == d
    else exists a1, d1 ::
      && FileReady(cfg, x, a, d, now, Tlv.EncodedSize(w), a1, d1)
      && Committed(x, a1, d1, w, o, a', d', ok)
  }

  function Target(consent: Consent, bypass: bool): Consent {
    if bypass then Granted else consent
  }

  ghost predicate HandledWrite(cfg: Config, x: Platforms, s: Writer, w: Tlv.Write, o: Origin, bypass: bool, now: int,
                               s': Writer, ok: bool)
  {
    match Target(s.consent, bypass)
    case NotGranted => ok && s' == s
    case Granted =>
      && Flushed(cfg, x.granted, s.activeGranted, s.granted, w, o, now, s'.activeGranted, s'.granted, ok)
      && s' == s.(activeGranted := s'.activeGranted, granted := s'.granted)
    case Pending =>
      && Flushed(cfg, x.pending, s.activePending, s.pending, w, o, now, s'.activePending, s'.pending, ok)
      && s' == s.(activePending := s'.activePending, pending := s'.pending)
  }

  ghost predicate ConsentSet(x: Platforms, s: Writer, v: Consent, s': Writer, ok: bool) {
    if v == s.consent then ok && s' == s
    else
      var active := if s.consent.Pending? then NO_FILE else s.activePending;
      match v
      case Pending => ok && s' == s.(consent := v, activePending := active)
      case NotGranted =>
        && ok == Deletes(x.pending, s.pending)
        && s' == s.(consent := v, activePending := active, pending := AfterDeletion(x.pending, s.pending))
      case Granted =>
        var done := Processed(x, s.pending);
        && ok == Migrates(x, s.pending)
        && s' == s.(consent := v, activePending := active, pending := PendingAfter(x, s.pending, s.granted, done),
          granted := GrantedAfter(x, s.pending, s.granted, done))
  }

  // ---- when an event is stored ----

  /** What can keep an acceptable event from being stored: the file cannot be opened or written;
      or, when a new file is due, the directory cannot be listed, all names tried are taken after
      the purge, or the name does not fit into a path. */
  ghost predicate Hindered(cfg: Config, x: Platform, a: Active, d: Dir, now: int, size: nat) {
    if CanReuse(cfg, a, now, size) then a.name in x.unopenable || a.name in x.tearing
    else
      || x.unlistable
      || exists names, d1 :: Purged(cfg, x, d, names, d1) && NoNewFile(x, names, now)
  }

  predicate NoNewFile(x: Platform, names: seq<Name>, now: int) {
    match Allocate(names, ToMs(now))
    case None => true
    case Some(ms) => !Fits(x, Digits(ms)) || Digits(ms) in x.unopenable || Digits(ms) in x.tearing
  }

  lemma PurgedIsUnique(cfg: Config, x: Platform, d: Dir, names: seq<Name>, d1: Dir, names': seq<Name>, d1': Dir)
    requires Purged(cfg, x, d, names, d1) && Purged(cfg, x, d, names', d1')
    ensures names == names' && d1 == d1'
  {
    var l: seq<Name>, k: nat :|
      && Lists(l, Batches(d)) && ShortestSufficientPrefix(x, d, l, cfg.maxDirectorySize, k)
      && names == Survivors(x, l, k) && d1 == d - Lost(l, names);
    var l': seq<Name>, k': nat :|
      && Lists(l', Batches(d)) && ShortestSufficientPrefix(x, d, l', cfg.maxDirectorySize, k')
      && names' == Survivors(x, l', k') && d1' == d - Lost(l', names');
    ListingIsUnique(l, l', Batches(d));
    ShortestSufficientPrefixIsUnique(x, d, l, cfg.maxDirectorySize, k, k');
  }

  lemma FileReadyIsUnique(cfg: Config, x: Platform, a: Active, d: Dir, now: int, size: nat,
                          a1: Active, d1: Dir, a2: Active, d2: Dir)
    requires FileReady(cfg, x, a, d, now, size, a1, d1) && FileReady(cfg, x, a, d, now, size, a2, d2)
    ensures a1 == a2 && d1 == d2
  {
    if !CanReuse(cfg, a, now, size) && !x.unlistable {
      var names1 :| Purged(cfg, x, d, names1, d1) && a1 == NewFile(x, names1, now);
      var names2 :| Purged(cfg, x, d, names2, d2) && a2 == NewFile(x, names2, now);
      PurgedIsUnique(cfg, x, d, names1, d1, names2, d2);
    }
  }

  /** Files, clock and platform determine what becomes of an event. */
  lemma FlushedIsDetermined(cfg: Config, x: Platform, a: Active, d: Dir, w: Tlv.Write, o: Origin, now: int,
                            a': Active, d': Dir, ok': bool, a'': Active, d'': Dir, ok'': bool)
    requires Flushed(cfg, x, a, d, w, o, now, a', d', ok') && Flushed(cfg, x, a, d, w, o, now, a'', d'', ok'')
    ensures a' == a'' && d' == d'' && ok' == ok''
  {
    if Accepts(cfg, w) {
      var size := Tlv.EncodedSize(w);
      var a1, d1 :| FileReady(cfg, x, a, d, now, size, a1, d1) && Committed(x, a1, d1, w, o, a', d', ok');
      var a2, d2 :| FileReady(cfg, x, a, d, now, size, a2, d2) && Committed(x, a2, d2, w, o, a'', d'', ok'');
      FileReadyIsUnique(cfg, x, a, d, now, size, a1, d1, a2, d2);
    }
  }

  lemma AcceptedUnlessHindered(cfg: Config, x: Platform, a: Active, d: Dir, w: Tlv.Write, o: Origin, now: int,
                               a': Active, d': Dir, ok: bool)
    requires Flushed(cfg, x, a, d, w, o, now, a', d', ok) && Accepts(cfg, w)
    ensures ok <==> !Hindered(cfg, x, a, d, now, Tlv.EncodedSize(w))
    ensures ok ==> a'.name in d' && d'[a'.name] != [] && d'[a'.name][|d'[a'.name]| - 1] == Stored(w, o)
  {
    var size := Tlv.EncodedSize(w);
    var a1, d1 :| FileReady(cfg, x, a, d, now, size, a1, d1) && Committed(x, a1, d1, w, o, a', d', ok);
    if !CanReuse(cfg, a, now, size) && !x.unlistable {
      var names :| Purged(cfg, x, d, names, d1) && a1 == NewFile(x, names, now);
      forall names', d1' | Purged(cfg, x, d, names', d1')
        ensures names' == names
      {
        PurgedIsUnique(cfg, x, d, names, d1, names', d1');
      }
    }
  }

  /** The bytes of an event: a header of six bytes each for event and metadata, if there is any. */
  function SizeInFile(w: Tlv.Write): nat {
    6 + |w.event| + if w.metadata == [] then 0 else 6 + |w.metadata|
  }

  /** An event that is within both size limits, in a configuration that allows events at all, is
      stored unless it is hindered; any other changes nothing. */
  lemma StoredUnlessHindered(cfg: Config, x: Platform, a: Active, d: Dir, w: Tlv.Write, o: Origin, now: int,
                             a': Active, d': Dir, ok: bool)
    requires Flushed(cfg, x, a, d, w, o, now, a', d', ok)
    ensures
      if cfg.maxWritesPerFile > 0 && SizeInFile(w) <= cfg.maxEventSize && SizeInFile(w) <= cfg.maxFileSize
      then ok <==> !Hindered(cfg, x, a, d, now, SizeInFile(w))
      else !ok && a' == a && d' == d
    ensures ok ==> a'.name in d' && d'[a'.name] != [] && d'[a'.name][|d'[a'.name]| - 1] == Stored(w, o)
  {
    if Accepts(cfg, w) {
      AcceptedUnlessHindered(cfg, x, a, d, w, o, now, a', d', ok);
    }
  }

  /** The first millisecond at which a new file can be named. */
  function NowInMs(now: int): nat {
    if now < 0 then 0 else now / 1_000_000
  }

  lemma {:induction false} SomeNameIsFound(names: seq<Name>, ms: nat, count: nat, free: nat)
    requires 0 < ms <= free < ms + count && Digits(free) !in names
    ensures Search(names, ms, count).Some?
    decreases count
  {
    if ms < free {
      SomeNameIsFound(names, ms + 1, count - 1, free);
    }
  }

  lemma {:induction false} SearchStaysNear(names: seq<Name>, ms: nat, count: nat)
    requires ms > 0
    ensures Search(names, ms, count).Some? ==> ms <= Search(names, ms, count).value < ms + count
    decreases count
  {
    if count > 0 {
      SearchStaysNear(names, ms + 1, count - 1);
    }
  }

  /** A new file is named after one of the hundred milliseconds from now on. */
  lemma NewFileIsNew(x: Platform, names: seq<Name>, now: int)
    ensures
      var a := NewFile(x, names, now);
      a == NO_FILE || (a == Active(Digits(a.ms), a.ms, 0, 0) && NowInMs(now) <= a.ms < NowInMs(now) + 100)
  {
    SearchStaysNear(names, ToMs(now) + 1, ATTEMPTS - 1);
  }

  lemma NameIsFound(x: Platform, names: seq<Name>, now: int, free: nat)
    requires x.unopenable == {} && x.tearing == map[]
    requires NowInMs(now) <= free < NowInMs(now) + 100 && Digits(free) !in names
    requires forall ms | NowInMs(now) <= ms < NowInMs(now) + 100 :: |Digits(ms)| <= x.room
    ensures !NoNewFile(x, names, now)
  {
    if Digits(ToMs(now)) in names {
      SomeNameIsFound(names, ToMs(now) + 1, ATTEMPTS - 1, free);
      SearchStaysNear(names, ToMs(now) + 1, ATTEMPTS - 1);
    }
  }

  lemma PurgedNames(cfg: Config, x: Platform, d: Dir, names: seq<Name>, d1: Dir)
    requires Purged(cfg, x, d, names, d1)
    ensures forall n <- names :: n in d
  {
    var listing: seq<Name>, k: nat :|
      && Lists(listing, Batches(d)) && ShortestSufficientPrefix(x, d, listing, cfg.maxDirectorySize, k)
      && names == Survivors(x, listing, k) && d1 == d - Lost(listing, names);
    forall n <- names
      ensures n in d
    {
      assert n in listing[..k] || n in listing[k..];
      assert n in Batches(d);
    }
  }

  /** Where no call fails and the directory does not have all of these hundred names, an event
      within the limits is stored. */
  lemma StoredWhenNothingFails(cfg: Config, x: Platform, a: Active, d: Dir, w: Tlv.Write, o: Origin, now: int,
                               a': Active, d': Dir, ok: bool, free: nat)
    requires Flushed(cfg, x, a, d, w, o, now, a', d', ok)
    requires cfg.maxWritesPerFile > 0 && SizeInFile(w) <= cfg.maxEventSize && SizeInFile(w) <= cfg.maxFileSize
    requires !x.unlistable && x.unopenable == {} && x.tearing == map[]
    requires NowInMs(now) <= free < NowInMs(now) + 100 && Digits(free) !in d
    requires forall ms | NowInMs(now) <= ms < NowInMs(now) + 100 :: |Digits(ms)| <= x.room
    ensures ok && a'.name in d' && d'[a'.name] != [] && d'[a'.name][|d'[a'.name]| - 1] == Stored(w, o)
  {
    StoredUnlessHindered(cfg, x, a, d, w, o, now, a', d', ok);
    forall names, d1 | Purged(cfg, x, d, names, d1)
      ensures !NoNewFile(x, names, now)
    {
      PurgedNames(cfg, x, d, names, d1);
      NameIsFound(x, names, now, free);
    }
  }

  // ---- which file is written to ----

  /** A file is written to again exactly while it is young, has had few enough events and has
      room for one more. */
  lemma FileIsKeptOrReplaced(cfg: Config, x: Platform, a: Active, d: Dir, now: int, size: nat, a1: Active, d1: Dir)
    requires FileReady(cfg, x, a, d, now, size, a1, d1)
    ensures
      if a.name != "" && now - a.ms * 1_000_000 <= cfg.maxFileAge
        && a.writes < cfg.maxWritesPerFile && a.bytes + size <= cfg.maxFileSize
      then a1 == a && d1 == d
      else a1 == NO_FILE || (a1 == Active(Digits(a1.ms), a1.ms, 0, 0) && NowInMs(now) <= a1.ms < NowInMs(now) + 100)
  {
    if !CanReuse(cfg, a, now, size) && !x.unlistable {
      var names :| Purged(cfg, x, d, names, d1) && a1 == NewFile(x, names, now);
      NewFileIsNew(x, names, now);
    }
  }

  // ---- when a grant does not do what it should ----

  /** A grant that reports success can leave pending batch files behind exactly when one of them
      has the name of a granted file. */
  lemma GrantLeavesFilesExactlyOnCollisions(s: Writer)
    requires s.consent != Granted
    ensures (exists x, s' :: ConsentSet(x, s, Granted, s', true) && BatchNames(s'.pending) != {})
      <==> BatchNames(s.pending) * s.granted.Keys != {}
  {
    if x, s' :| ConsentSet(x, s, Granted, s', true) && BatchNames(s'.pending) != {} {
      MigrationLeavesExactly(x, s.pending, s.granted);
    }
    if n :| n in BatchNames(s.pending) * s.granted.Keys {
      var x := Platforms(Faultless(s.pending.Keys).(undeletable := {n}), Faultless(s.pending.Keys));
      var s' := GrantedWriter(x, s);
      MigrationLeavesExactly(x, s.pending, s.granted);
      assert n in BatchNames(s'.pending);
    }
  }

  ghost function GrantedWriter(x: Platforms, s: Writer): (s': Writer)
    requires s.consent != Granted && Migrates(x, s.pending)
    ensures ConsentSet(x, s, Granted, s', true)
  {
    var done := Processed(x, s.pending);
    Writer(Granted, if s.consent.Pending? then NO_FILE else s.activePending, s.activeGranted,
      PendingAfter(x, s.pending, s.granted, done), GrantedAfter(x, s.pending, s.granted, done))
  }

  /** It can lose the contents of a batch file that nobody else removes exactly when a granted
      file of that name has other contents. */
  lemma GrantLosesFilesExactlyOnCollisions(s: Writer)
    requires s.consent != Granted
    ensures (exists x, s', n <- BatchNames(s.pending) ::
        && ConsentSet(x, s, Granted, s', true) && n !in x.pending.vanishing
        && !Kept(s'.pending, s'.granted, n, s.pending[n]))
      <==> exists n <- BatchNames(s.pending) :: n in s.granted && s.granted[n] != s.pending[n]
  {
    if x, s', n :|
      && n in BatchNames(s.pending) && ConsentSet(x, s, Granted, s', true) && n !in x.pending.vanishing
      && !Kept(s'.pending, s'.granted, n, s.pending[n])
    {
      MigrationLosesExactly(x, s.pending, s.granted, n);
    }
    if n :| n in BatchNames(s.pending) && n in s.granted && s.granted[n] != s.pending[n] {
      var x := Platforms(Faultless(s.pending.Keys), Faultless(s.pending.Keys));
      var s' := GrantedWriter(x, s);
      MigrationLosesExactly(x, s.pending, s.granted, n);
    }
  }

  // ---- the writer as an object ----

  class FileDetails {
    var name: Name
    var filenameMs: nat
    var numWrites: nat
    var numBytes: nat

    constructor ()
      ensures Value() == NO_FILE
    {
      name, filenameMs, numWrites, numBytes := "", 0, 0, 0;
    }

    function Value(): Active
      reads this
    {
      Active(name, filenameMs, numWrites, numBytes)
    }

    method Clear()
      modifies this
      ensures Value() == NO_FILE
    {
      name, filenameMs, numWrites, numBytes := "", 0, 0, 0;
    }

    /** Points at a new, empty file; clears if the name does not fit into a path. */
    method Reset(parent: Directory, filename: Name, ms: nat) returns (ok: bool)
      modifies this
      ensures ok == Fits(parent.platform, filename)
      ensures Value() == if ok then Active(filename, ms, 0, 0) else NO_FILE
    {
      if Fits(parent.platform, filename) {
        name, filenameMs, numWrites, numBytes := filename, ms, 0, 0;
        return true;
      }
      Clear();
      return false;
    }
  }

  class BatchWriter {
    const cfg: Config
    const storage: FeatureEventStorage
    var consent: Consent
    const activePending: FileDetails
    const activeGranted: FileDetails
    var lastKnownFilenames: seq<Name>

    /** Block lengths are stored in 32 bits. */
    ghost predicate Valid() {
      && storage.pending != storage.granted
      && activePending != activeGranted
      && cfg.maxEventSize < Tlv.LENGTH_LIMIT
    }

    ghost function State(): Writer
      reads this, activePending, activeGranted, storage.pending, storage.granted
    {
      Writer(consent, activePending.Value(), activeGranted.Value(), storage.pending.files, storage.granted.files)
    }

    constructor (cfg: Config, storage: FeatureEventStorage)
      requires storage.pending != storage.granted && cfg.maxEventSize < Tlv.LENGTH_LIMIT
      ensures Valid() && fresh(activePending) && fresh(activeGranted)
      ensures this.cfg == cfg && this.storage == storage
      ensures State() == Writer(Pending, NO_FILE, NO_FILE, storage.pending.files, storage.granted.files)
    {
      this.cfg, this.storage := cfg, storage;
      consent := Pending;
      activePending := new FileDetails();
      activeGranted := new FileDetails();
      lastKnownFilenames := [];
    }

    method SetTrackingConsent(value: Consent) returns (ok: bool)
      requires Valid()
      modifies this, activePending, storage.pending`files, storage.granted`files
      ensures ConsentSet(storage.Environment(), old(State()), value, State(), ok)
    {
      if consent == value {
        return true;
      }
      if consent == Pending {
        activePending.Clear();
      }
      consent := value;
      if value == NotGranted {
        ok := storage.DeletePendingBatches();
        return;
      }
      if value == Granted {
        ok := storage.MigratePendingBatchesToGranted();
        return;
      }
      return true;
    }

    method HandleWrite(w: Tlv.Write, o: Origin, bypass: bool, now: int) returns (ok: bool)
      requires Valid() && w.event != []
      modifies this, activePending, activeGranted, storage.pending`files, storage.granted`files
      ensures HandledWrite(cfg, storage.Environment(), old(State()), w, o, bypass, now, State(), ok)
    {
      if bypass || consent == Granted {
        ok := FlushEvent(w, o, activeGranted, storage.granted, now);
      } else if consent == Pending {
        ok := FlushEvent(w, o, activePending, storage.pending, now);
      } else {
        ok := true;
      }
    }

    method FlushEvent(w: Tlv.Write, o: Origin, active: FileDetails, dir: Directory, now: int) returns (ok: bool)
      requires Valid() && w.event != []
      modifies this`lastKnownFilenames, active, dir`files
      ensures Flushed(cfg, dir.platform, old(active.Value()), old(dir.files), w, o, now, active.Value(), dir.files, ok)
    {
      if cfg.maxWritesPerFile <= 0 {
        return false;
      }
      var size := Tlv.EncodedSize(w);
      if size > MaxWrite(cfg) {
        return false;
      }
      var ready := PrepareFileForNextWrite(active, dir, now, size);
      if !ready {
        return false;
      }
      ok := WriteToFile(w, o, active, dir);
    }

    /** Opens the active file for append, encodes the event into one contiguous buffer and
        hands that over in a single write. */
    method WriteToFile(w: Tlv.Write, o: Origin, active: FileDetails, dir: Directory) returns (ok: bool)
      requires Tlv.StorableWrite(w) && active.name != ""
      modifies active, dir`files
      ensures Committed(dir.platform, old(active.Value()), old(dir.files), w, o, active.Value(), dir.files, ok)
    {
      var isOpen := dir.OpenForWrite(active.name);
      if !isOpen {
        return false;
      }
      var buffer := Tlv.AssembleWrite(w);
      Tlv.EncodedWriteSize(w);
      ok := dir.Write(active.name, buffer, w, o);
      if ok {
        active.numWrites := active.numWrites + 1;
        active.numBytes := active.numBytes + buffer.Length;
      }
    }

    /** Leaves `active` pointing at the file to write to, or cleared if there is none. */
    method PrepareFileForNextWrite(active: FileDetails, dir: Directory, now: int, size: nat) returns (ready: bool)
      modifies this`lastKnownFilenames, active, dir`files
      ensures ready == (active.name != "")
      ensures FileReady(cfg, dir.platform, old(active.Value()), old(dir.files), now, size, active.Value(), dir.files)
    {
      if CanReuse(cfg, active.Value(), now, size) {
        return true;
      }
      var listed;
      listed, lastKnownFilenames := CacheKnownFilenames(dir);
      if !listed {
        active.Clear();
        return false;
      }
      Purge(dir);
      var next := GetFilenameForNextWrite(lastKnownFilenames, ToMs(now));
      if next == None {
        active.Clear();
        return false;
      }
      ready := active.Reset(dir, Digits(next.value), next.value);
    }

    method Purge(dir: Directory)
      requires Lists(lastKnownFilenames, Batches(dir.files))
      modifies this`lastKnownFilenames, dir`files
      ensures Purged(cfg, dir.platform, old(dir.files), lastKnownFilenames, dir.files)
      ensures Lists(lastKnownFilenames, Batches(dir.files))
    {
      ghost var d, listing := dir.files, lastKnownFilenames;
      var sizes;
      ghost var k;
      lastKnownFilenames, sizes, k := PurgeDirectoryIfNeeded(dir, lastKnownFilenames, cfg.maxDirectorySize);
      SurvivorsAreListed(dir.platform, d, listing, k);
    }
  }
}

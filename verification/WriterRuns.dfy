/** Whole runs of one feature's writer: the storage thread hands it the messages of a history
    one by one, while other threads may remove files at any time (storage_write.cpp,
    storage_thread.cpp). */
module WriterRuns {
  import opened Consents
  import opened Filenames
  import opened Directories
  import opened FeatureEventStorages
  import opened BatchWriters
  import opened Purge
  import opened StorageMessages
  import Tlv

  /** One message: the state, clock and platform it found, and what came of it. */
  datatype Turn = Turn(start: Writer, now: int, x: Platforms, end: Writer, ok: bool)

  /** The upload thread deletes files of either directory. */
  ghost predicate Evicted(s: Writer, s': Writer) {
    && s' == s.(pending := s'.pending, granted := s'.granted)
    && (exists gone: set<Name> :: s'.pending == s.pending - gone)
    && (exists gone: set<Name> :: s'.granted == s.granted - gone)
  }

  ghost predicate Handles(cfg: Config, f: FeatureId, i: nat, m: Message, t: Turn) {
    match m
    case TrackingConsentChanged(v) => ConsentSet(t.x, t.start, v, t.end, t.ok)
    case EventGenerated(g, w, bypass) =>
      if g != f then t.ok && t.end == t.start
      else HandledWrite(cfg, t.x, t.start, w, Handled(i), bypass, t.now, t.end, t.ok)
  }

  function StateAfter(init: Writer, turns: seq<Turn>): Writer {
    if turns == [] then init else turns[|turns| - 1].end
  }

  ghost predicate IsRun(cfg: Config, f: FeatureId, init: Writer, log: History, turns: seq<Turn>) {
    && |turns| == |log|
    && (log == [] ||
        var n := |log| - 1;
        && IsRun(cfg, f, init, log[..n], turns[..n])
        && Evicted(StateAfter(init, turns[..n]), turns[n].start)
        && Handles(cfg, f, n, log[n], turns[n]))
  }

  lemma RunExtends(cfg: Config, f: FeatureId, init: Writer, log: History, turns: seq<Turn>, m: Message, t: Turn)
    requires IsRun(cfg, f, init, log, turns)
    requires Evicted(StateAfter(init, turns), t.start) && Handles(cfg, f, |log|, m, t)
    ensures IsRun(cfg, f, init, log + [m], turns + [t]) && StateAfter(init, turns + [t]) == t.end
  {
    assert (log + [m])[..|log|] == log && (turns + [t])[..|turns|] == turns;
  }

  lemma StaysPut(s: Writer)
    ensures Evicted(s, s)
  {
    assert s.pending == s.pending - {} && s.granted == s.granted - {};
  }

  /** The turn at `i` starts where the one before it ended. */
  ghost predicate Continues(cfg: Config, f: FeatureId, init: Writer, log: History, turns: seq<Turn>, i: nat)
    requires i < |turns| == |log|
  {
    turns[i].start == (if i == 0 then init else turns[i - 1].end) && Handles(cfg, f, i, log[i], turns[i])
  }

  lemma {:induction false} TurnsMakeRun(cfg: Config, f: FeatureId, init: Writer, log: History, turns: seq<Turn>)
    requires |turns| == |log| && forall i | 0 <= i < |log| :: Continues(cfg, f, init, log, turns, i)
    ensures IsRun(cfg, f, init, log, turns)
  {
    if log != [] {
      var n := |log| - 1;
      forall i | 0 <= i < n
        ensures Continues(cfg, f, init, log[..n], turns[..n], i)
      {
        assert Continues(cfg, f, init, log, turns, i);
      }
      TurnsMakeRun(cfg, f, init, log[..n], turns[..n]);
      assert Continues(cfg, f, init, log, turns, n);
      StaysPut(turns[n].start);
    }
  }

  /** A writer that has not handled anything yet. */
  ghost predicate Initial(s: Writer) {
    && s.activePending == NO_FILE && s.activeGranted == NO_FILE
    && forall j :: !Holds(s.pending, Handled(j)) && !Holds(s.granted, Handled(j))
  }

  // ---- what failing operations may let through ----

  /** Like `Apply`, but a revocation that fails may leave everything in place, and a migration
      may leave files behind. */
  function MayApply(f: FeatureId, l: Ledger, j: nat, m: Message, ok: bool): Ledger {
    match m
    case TrackingConsentChanged(v) =>
      if v == l.consent then l
      else (
        match v
        case Pending => l.(consent := v)
        case NotGranted => Ledger(v, if ok then {} else l.pending, l.granted)
        case Granted => Ledger(v, l.pending, l.granted + l.pending))
    case EventGenerated(_, _, _) => Apply(f, l, j, m)
  }

  function MayHold(f: FeatureId, c0: Consent, log: History, turns: seq<Turn>): Ledger
    requires |turns| == |log|
  {
    if log == [] then Ledger(c0, {}, {})
    else
      var n := |log| - 1;
      MayApply(f, MayHold(f, c0, log[..n], turns[..n]), n, log[n], turns[n].ok)
  }

  ghost predicate BatchesOnly(d: Dir) {
    forall n, i :: n in d && 0 <= i < |d[n]| && d[n][i].Stored? && d[n][i].origin.Handled? ==> IsNumeric(n)
  }

  /** Only events of the ledger are stored, only in batch files, and no pending file is active
      unless consent is pending. */
  ghost predicate Within(s: Writer, l: Ledger) {
    && s.consent == l.consent
    && (forall j :: Holds(s.pending, Handled(j)) ==> j in l.pending)
    && (forall j :: Holds(s.granted, Handled(j)) ==> j in l.granted)
    && BatchesOnly(s.pending) && BatchesOnly(s.granted)
    && IsNumeric(s.activePending.name) && IsNumeric(s.activeGranted.name)
    && (s.consent != Pending ==> s.activePending == NO_FILE)
  }

  lemma SubHolds(d': Dir, d: Dir, o: Origin)
    requires Sub(d', d) && Holds(d', o)
    ensures Holds(d, o)
  {
    var n, i :| n in d' && 0 <= i < |d'[n]| && d'[n][i].Stored? && d'[n][i].origin == o;
    assert d[n] == d'[n];
  }

  lemma EvictionStaysWithin(s: Writer, s': Writer, l: Ledger)
    requires Within(s, l) && Evicted(s, s')
    ensures Within(s', l)
  {
    assert Sub(s'.pending, s.pending) && Sub(s'.granted, s.granted);
    forall j
      ensures Holds(s'.pending, Handled(j)) ==> Holds(s.pending, Handled(j))
      ensures Holds(s'.granted, Handled(j)) ==> Holds(s.granted, Handled(j))
    {
      if Holds(s'.pending, Handled(j)) {
        SubHolds(s'.pending, s.pending, Handled(j));
      }
      if Holds(s'.granted, Handled(j)) {
        SubHolds(s'.granted, s.granted, Handled(j));
      }
    }
  }

  lemma AppendHolds(d: Dir, n: Name, e: Entry, o: Origin)
    ensures Holds(d[n := BodyIn(d, n) + [e]], o) <==> Holds(d, o) || (e.Stored? && e.origin == o)
  {
    var d' := d[n := BodyIn(d, n) + [e]];
    if Holds(d', o) {
      var m, i :| m in d' && 0 <= i < |d'[m]| && d'[m][i].Stored? && d'[m][i].origin == o;
      if m != n || i < |BodyIn(d, n)| {
        assert m in d && d[m][i] == d'[m][i];
      }
    }
    if Holds(d, o) {
      var m, i :| m in d && 0 <= i < |d[m]| && d[m][i].Stored? && d[m][i].origin == o;
      assert d'[m][i] == d[m][i];
    }
    if e.Stored? && e.origin == o {
      assert d'[n][|BodyIn(d, n)|] == e;
    }
  }

  lemma PurgedIsSub(cfg: Config, x: Platform, d: Dir, names: seq<Name>, d1: Dir)
    requires Purged(cfg, x, d, names, d1)
    ensures Sub(d1, d)
    ensures DirSize(Batches(d)) <= cfg.maxDirectorySize ==> d1 == d
  {
    var listing: seq<Name>, k: nat :|
      && Lists(listing, Batches(d)) && ShortestSufficientPrefix(x, d, listing, cfg.maxDirectorySize, k)
      && names == Survivors(x, listing, k) && d1 == d - Lost(listing, names);
    if DirSize(Batches(d)) <= cfg.maxDirectorySize {
      WithinQuotaIsLeftAlone(x, d, listing, cfg.maxDirectorySize, k);
      assert Lost(listing, listing) == {};
    }
  }

  lemma ReadyFile(cfg: Config, x: Platform, a: Active, d: Dir, now: int, size: nat, a1: Active, d1: Dir)
    requires FileReady(cfg, x, a, d, now, size, a1, d1) && IsNumeric(a.name)
    ensures Sub(d1, d) && IsNumeric(a1.name)
    ensures DirSize(Batches(d)) <= cfg.maxDirectorySize ==> d1 == d
  {
    if !CanReuse(cfg, a, now, size) && !x.unlistable {
      var names :| Purged(cfg, x, d, names, d1) && a1 == NewFile(x, names, now);
      PurgedIsSub(cfg, x, d, names, d1);
    }
  }

  /** In an empty directory the name of a new file is the time. */
  lemma FirstFileIsReady(cfg: Config, x: Platform, ms: nat, size: nat)
    requires Fits(x, Digits(ms)) && !x.unlistable
    ensures FileReady(cfg, x, NO_FILE, map[], ms * NANOS_PER_MS, size, Active(Digits(ms), ms, 0, 0), map[])
  {
    var d: Dir := map[];
    assert Lists([], Batches(d)) && Survivors(x, [], 0) == [] && Lost([], []) == {};
    assert ShortestSufficientPrefix(x, d, [], cfg.maxDirectorySize, 0);
    assert Purged(cfg, x, d, [], d);
    assert ToMs(ms * NANOS_PER_MS) == ms;
    assert NewFile(x, [], ms * NANOS_PER_MS) == Active(Digits(ms), ms, 0, 0);
  }

  lemma FirstWriteIsPossible(cfg: Config, w: Tlv.Write, o: Origin, x: Platform, ms: nat)
    requires Accepts(cfg, w) && Fits(x, Digits(ms)) && !x.unlistable && x.unopenable == {} && x.tearing == map[]
    ensures Flushed(cfg, x, NO_FILE, map[], w, o, ms * NANOS_PER_MS,
      Active(Digits(ms), ms, 1, Tlv.EncodedSize(w)), map[Digits(ms) := [Stored(w, o)]], true)
  {
    var d: Dir, n := map[], Digits(ms);
    FirstFileIsReady(cfg, x, ms, Tlv.EncodedSize(w));
    assert BodyIn(d, n) + [Stored(w, o)] == [Stored(w, o)];
    var a' := Active(n, ms, 1, Tlv.EncodedSize(w));
    assert Committed(x, Active(n, ms, 0, 0), d, w, o, a', map[n := [Stored(w, o)]], true);
  }

  lemma FirstOpenCanFail(cfg: Config, w: Tlv.Write, o: Origin, x: Platform, ms: nat)
    requires Accepts(cfg, w) && Fits(x, Digits(ms)) && !x.unlistable && Digits(ms) in x.unopenable
    ensures Flushed(cfg, x, NO_FILE, map[], w, o, ms * NANOS_PER_MS, Active(Digits(ms), ms, 0, 0), map[], false)
  {
    var d: Dir, a1 := map[], Active(Digits(ms), ms, 0, 0);
    FirstFileIsReady(cfg, x, ms, Tlv.EncodedSize(w));
    assert Committed(x, a1, d, w, o, a1, d, false);
  }

  /** One event adds at most itself, in a numeric file. */
  lemma FlushAddsAtMost(cfg: Config, x: Platform, a: Active, d: Dir, w: Tlv.Write, o: Origin, now: int,
                        a': Active, d': Dir, ok: bool)
    requires Flushed(cfg, x, a, d, w, o, now, a', d', ok)
    requires IsNumeric(a.name) && BatchesOnly(d)
    ensures IsNumeric(a'.name) && BatchesOnly(d')
    ensures forall p :: Holds(d', p) ==> Holds(d, p) || p == o
    ensures ok ==> Holds(d', o)
    ensures DirSize(Batches(d)) <= cfg.maxDirectorySize ==> forall p :: Holds(d, p) ==> Holds(d', p)
  {
    if Accepts(cfg, w) {
      var a1, d1 :| FileReady(cfg, x, a, d, now, Tlv.EncodedSize(w), a1, d1) && Committed(x, a1, d1, w, o, a', d', ok);
      ReadyFile(cfg, x, a, d, now, Tlv.EncodedSize(w), a1, d1);
      forall p
        ensures Holds(d1, p) ==> Holds(d, p)
      {
        if Holds(d1, p) {
          SubHolds(d1, d, p);
        }
      }
      CommitHolds(x, a1, d1, w, o, a', d', ok);
    }
  }

  lemma CommitHolds(x: Platform, a1: Active, d1: Dir, w: Tlv.Write, o: Origin, a': Active, d': Dir, ok: bool)
    requires Committed(x, a1, d1, w, o, a', d', ok)
    requires IsNumeric(a1.name) && BatchesOnly(d1)
    ensures IsNumeric(a'.name) && BatchesOnly(d')
    ensures forall p :: Holds(d', p) <==> Holds(d1, p) || (ok && p == o)
  {
    forall p
      ensures Holds(d', p) <==> Holds(d1, p) || (ok && p == o)
    {
      var n := a1.name;
      if ok {
        AppendHolds(d1, n, Stored(w, o), p);
      } else if n != "" && n !in x.unopenable {
        if Remains(x, n, w) == [] {
          assert BodyIn(d1, n) + [] == BodyIn(d1, n);
          CreationHolds(d1, n, p);
        } else {
          AppendHolds(d1, n, Torn(w, x.tearing[n]), p);
        }
      }
    }
  }

  lemma CreationHolds(d: Dir, n: Name, o: Origin)
    ensures Holds(d[n := BodyIn(d, n)], o) <==> Holds(d, o)
  {
    var d' := d[n := BodyIn(d, n)];
    assert forall m :: m in d' ==> d'[m] == BodyIn(d, m);
    if Holds(d, o) {
      var m, i :| m in d && 0 <= i < |d[m]| && d[m][i].Stored? && d[m][i].origin == o;
      assert d'[m][i].Stored? && d'[m][i].origin == o;
    }
  }

  lemma WriteStaysWithin(cfg: Config, f: FeatureId, s: Writer, l: Ledger, i: nat, m: Message, t: Turn)
    requires m.EventGenerated? && t.start == s && Handles(cfg, f, i, m, t)
    requires Within(s, l)
    ensures Within(t.end, MayApply(f, l, i, m, t.ok))
  {
    if m.feature == f {
      match Target(s.consent, m.bypass)
      case NotGranted =>
      case Granted =>
        FlushAddsAtMost(cfg, t.x.granted, s.activeGranted, s.granted, m.write, Handled(i), t.now,
          t.end.activeGranted, t.end.granted, t.ok);
      case Pending =>
        FlushAddsAtMost(cfg, t.x.pending, s.activePending, s.pending, m.write, Handled(i), t.now,
          t.end.activePending, t.end.pending, t.ok);
    }
  }

  lemma MigrationHolds(p: Dir, g: Dir, p': Dir, g': Dir, o: Origin)
    requires PartlyMigrated(p, g, p', g')
    ensures Holds(p', o) ==> Holds(p, o)
    ensures Holds(g', o) ==> Holds(g, o) || Holds(p, o)
    ensures Holds(g, o) ==> Holds(g', o)
  {
    if Holds(p', o) {
      SubHolds(p', p, o);
    }
    if Holds(g, o) {
      SubHolds(g, g', o);
    }
    if Holds(g', o) {
      var n, i :| n in g' && 0 <= i < |g'[n]| && g'[n][i].Stored? && g'[n][i].origin == o;
      if n in g {
        assert g[n] == g'[n];
      } else {
        assert p[n] == g'[n];
      }
    }
  }

  lemma ConsentChangeStaysWithin(cfg: Config, f: FeatureId, s: Writer, l: Ledger, i: nat, m: Message, t: Turn)
    requires m.TrackingConsentChanged? && t.start == s && Handles(cfg, f, i, m, t)
    requires Within(s, l)
    ensures Within(t.end, MayApply(f, l, i, m, t.ok))
  {
    var s' := t.end;
    if m.value != s.consent {
      match m.value
      case Pending =>
      case NotGranted =>
        assert Sub(s'.pending, s.pending);
        if t.ok {
          SuccessfulDeletion(t.x.pending, s.pending);
        }
        forall j | Holds(s'.pending, Handled(j))
          ensures Holds(s.pending, Handled(j)) && !t.ok
        {
          SubHolds(s'.pending, s.pending, Handled(j));
        }
      case Granted =>
        MigrationIsPartial(t.x, s.pending, s.granted, Processed(t.x, s.pending));
        forall j
          ensures Holds(s'.pending, Handled(j)) ==> Holds(s.pending, Handled(j))
          ensures Holds(s'.granted, Handled(j)) ==> Holds(s.granted, Handled(j)) || Holds(s.pending, Handled(j))
        {
          MigrationHolds(s.pending, s.granted, s'.pending, s'.granted, Handled(j));
        }
    }
  }

  /** In every run, whatever fails, only events of the ledger `MayHold` are stored. */
  lemma {:induction false} RunStaysWithin(cfg: Config, f: FeatureId, init: Writer, log: History, turns: seq<Turn>)
    requires Initial(init) && IsRun(cfg, f, init, log, turns)
    ensures Within(StateAfter(init, turns), MayHold(f, init.consent, log, turns))
  {
    if log != [] {
      var n := |log| - 1;
      RunStaysWithin(cfg, f, init, log[..n], turns[..n]);
      var l := MayHold(f, init.consent, log[..n], turns[..n]);
      EvictionStaysWithin(StateAfter(init, turns[..n]), turns[n].start, l);
      if log[n].EventGenerated? {
        WriteStaysWithin(cfg, f, turns[n].start, l, n, log[n], turns[n]);
      } else {
        ConsentChangeStaysWithin(cfg, f, turns[n].start, l, n, log[n], turns[n]);
      }
    }
  }

  // ---- the same, said about the history alone ----

  predicate ChangesTo(c0: Consent, log: History, k: nat, v: Consent) {
    k < |log| && log[k] == TrackingConsentChanged(v) && ConsentAfter(c0, log[..k]) != v
  }

  /** No consent revocation strictly between the two positions succeeded. */
  predicate NotDeleted(c0: Consent, log: History, turns: seq<Turn>, j: nat, to: nat)
    requires |turns| == |log|
  {
    forall k | j < k < to && ChangesTo(c0, log, k, NotGranted) :: !turns[k].ok
  }

  predicate WrittenWhilePending(c0: Consent, f: FeatureId, log: History, j: nat) {
    IsEventOf(f, log, j) && !log[j].bypass && ConsentAfter(c0, log[..j]) == Pending
  }

  ghost predicate MayReachGranted(c0: Consent, f: FeatureId, log: History, turns: seq<Turn>, j: nat)
    requires |turns| == |log|
  {
    && IsEventOf(f, log, j)
    && (|| log[j].bypass
        || ConsentAfter(c0, log[..j]) == Granted
        || (&& ConsentAfter(c0, log[..j]) == Pending
            && exists m :: j < m < |log| && ChangesTo(c0, log, m, Granted) && NotDeleted(c0, log, turns, j, m)))
  }

  lemma PrefixChanges(c0: Consent, log: History, n: nat, k: nat, v: Consent)
    requires k < n <= |log|
    ensures ChangesTo(c0, log[..n], k, v) == ChangesTo(c0, log, k, v)
    ensures log[..n][..k] == log[..k]
  {
    assert log[..n][..k] == log[..k];
  }

  lemma {:induction false} MayHoldConsent(f: FeatureId, c0: Consent, log: History, turns: seq<Turn>)
    requires |turns| == |log|
    ensures MayHold(f, c0, log, turns).consent == ConsentAfter(c0, log)
  {
    if log != [] {
      MayHoldConsent(f, c0, log[..|log| - 1], turns[..|log| - 1]);
    }
  }

  lemma PrefixNotDeleted(c0: Consent, log: History, turns: seq<Turn>, n: nat, j: nat, to: nat)
    requires |turns| == |log| && to <= n <= |log|
    ensures NotDeleted(c0, log[..n], turns[..n], j, to) == NotDeleted(c0, log, turns, j, to)
  {
    forall k | j < k < to
      ensures ChangesTo(c0, log[..n], k, NotGranted) == ChangesTo(c0, log, k, NotGranted)
    {
      PrefixChanges(c0, log, n, k, NotGranted);
    }
  }

  /** The ledger of a run with failures holds exactly the events that some migration reached
      before any revocation succeeded. */
  lemma {:induction false} MayHoldExactly(f: FeatureId, c0: Consent, log: History, turns: seq<Turn>, j: nat)
    requires |turns| == |log|
    ensures j in MayHold(f, c0, log, turns).granted <==> MayReachGranted(c0, f, log, turns, j)
    ensures j in MayHold(f, c0, log, turns).pending
      <==> WrittenWhilePending(c0, f, log, j) && NotDeleted(c0, log, turns, j, |log|)
  {
    if log != [] {
      var n := |log| - 1;
      MayHoldExactly(f, c0, log[..n], turns[..n], j);
      MayHoldConsent(f, c0, log[..n], turns[..n]);
      PrefixNotDeleted(c0, log, turns, n, j, n);
      if j < n {
        assert log[..n][..j] == log[..j];
        PrefixReachesGranted(f, c0, log, turns, j);
      }
    }
  }

  lemma PrefixReachesGranted(f: FeatureId, c0: Consent, log: History, turns: seq<Turn>, j: nat)
    requires |turns| == |log| && j < |log| - 1
    ensures
      var n := |log| - 1;
      MayReachGranted(c0, f, log, turns, j) <==>
        || MayReachGranted(c0, f, log[..n], turns[..n], j)
        || (&& WrittenWhilePending(c0, f, log, j) && ChangesTo(c0, log, n, Granted)
            && NotDeleted(c0, log, turns, j, n))
  {
    var n := |log| - 1;
    assert log[..n][..j] == log[..j];
    forall m | j < m < n
      ensures ChangesTo(c0, log[..n], m, Granted) == ChangesTo(c0, log, m, Granted)
      ensures NotDeleted(c0, log[..n], turns[..n], j, m) == NotDeleted(c0, log, turns, j, m)
    {
      PrefixChanges(c0, log, n, m, Granted);
      PrefixNotDeleted(c0, log, turns, n, j, m);
    }
  }
}

/** Consent over whole runs: which events can be where, and when the two directories hold
    exactly what the message history entitles them to (storage_write.hpp, storage_write.cpp). */
module ConsentSafety {
  import opened Options
  import opened Consents
  import opened Filenames
  import opened Directories
  import opened FeatureEventStorages
  import opened BatchWriters
  import opened StorageMessages
  import opened WriterRuns

  /** The position of the consent change that `NextConsent` reports. */
  lemma {:induction false} NextConsentIsFirstChange(c0: Consent, log: History, j: nat) returns (k: nat)
    ensures NextConsent(c0, log, j).Some? ==> j < k < |log| && ChangesTo(c0, log, k, NextConsent(c0, log, j).value)
    ensures NextConsent(c0, log, j).None? ==> k == |log|
    ensures forall i: nat, v | j < i < k :: !ChangesTo(c0, log, i, v)
  {
    k := |log|;
    if |log| > j + 1 {
      var n := |log| - 1;
      k := NextConsentIsFirstChange(c0, log[..n], j);
      forall i: nat, v | i < n
        ensures ChangesTo(c0, log[..n], i, v) == ChangesTo(c0, log, i, v)
      {
        PrefixChanges(c0, log, n, i, v);
      }
      if NextConsent(c0, log[..n], j).None? && NextConsent(c0, log, j).None? {
        k := |log|;
      }
    }
  }

  lemma FirstChangeIsElsewhere(c0: Consent, f: FeatureId, log: History, j: nat)
    requires WrittenWhilePending(c0, f, log, j)
    ensures NextConsent(c0, log, j) != Some(Pending)
  {
    var k := NextConsentIsFirstChange(c0, log, j);
    if NextConsent(c0, log, j).Some? {
      var before := log[..k];
      assert before[..j] == log[..j];
      var k' := NextConsentIsFirstChange(c0, before, j);
      if k' < k {
        PrefixChanges(c0, log, k, k', NextConsent(c0, before, j).value);
      }
      UnchangedSince(c0, before, j);
    }
  }

  /** If the first change after `j` is a revocation, it failed. */
  lemma RevokedFirst(c0: Consent, f: FeatureId, log: History, turns: seq<Turn>, j: nat, m: nat)
    requires |turns| == |log| && WrittenWhilePending(c0, f, log, j)
    requires NextConsent(c0, log, j) == Some(NotGranted)
    requires j < m && (m == |log| || ChangesTo(c0, log, m, Granted)) && NotDeleted(c0, log, turns, j, m)
    ensures exists k: nat :: ChangesTo(c0, log, k, NotGranted) && !turns[k].ok
  {
    var k := NextConsentIsFirstChange(c0, log, j);
    assert ChangesTo(c0, log, k, NotGranted);
  }

  ghost predicate RevocationsSucceed(c0: Consent, log: History, turns: seq<Turn>)
    requires |turns| == |log|
  {
    forall k: nat | ChangesTo(c0, log, k, NotGranted) :: turns[k].ok
  }

  /** In every run in which each revocation could delete the pending files, whatever else fails
      and whatever files other threads remove: an event is in the granted directory only if it
      bypassed consent, was handled under granted consent, or was handled under pending consent
      that next changed to granted. What is in the pending directory was handled under pending
      consent and has not been revoked, so an event handled under refused consent is nowhere. */
  lemma ConsentSafety(cfg: Config, f: FeatureId, init: Writer, log: History, turns: seq<Turn>)
    requires Initial(init) && IsRun(cfg, f, init, log, turns)
    requires RevocationsSucceed(init.consent, log, turns)
    ensures
      var s := StateAfter(init, turns);
      && s.consent == ConsentAfter(init.consent, log)
      && (s.consent != Pending ==> s.activePending == NO_FILE)
      && (forall j :: Holds(s.granted, Handled(j)) ==> BelongsInGranted(init.consent, f, log, j))
      && (forall j :: Holds(s.pending, Handled(j)) ==>
        WrittenWhilePending(init.consent, f, log, j) && NextConsent(init.consent, log, j) != Some(NotGranted))
      && (forall j: nat | Refused(init.consent, log, j) ::
        !Holds(s.granted, Handled(j)) && !Holds(s.pending, Handled(j)))
  {
    var s, c0 := StateAfter(init, turns), init.consent;
    RunStaysWithin(cfg, f, init, log, turns);
    MayHoldConsent(f, c0, log, turns);
    forall j: nat | Holds(s.granted, Handled(j))
      ensures BelongsInGranted(c0, f, log, j)
    {
      MayHoldExactly(f, c0, log, turns, j);
      if WrittenWhilePending(c0, f, log, j) {
        var m: nat :| j < m < |log| && ChangesTo(c0, log, m, Granted) && NotDeleted(c0, log, turns, j, m);
        var k := NextConsentIsFirstChange(c0, log, j);
        FirstChangeIsElsewhere(c0, f, log, j);
        if NextConsent(c0, log, j) == Some(NotGranted) {
          RevokedFirst(c0, f, log, turns, j, m);
        }
      }
    }
    forall j: nat | Holds(s.pending, Handled(j))
      ensures WrittenWhilePending(c0, f, log, j) && NextConsent(c0, log, j) != Some(NotGranted)
    {
      MayHoldExactly(f, c0, log, turns, j);
      if NextConsent(c0, log, j) == Some(NotGranted) {
        RevokedFirst(c0, f, log, turns, j, |log|);
      }
    }
  }

  /** The proviso is needed: from every state under pending consent with a batch file whose name
      is free in the granted directory, a revocation that fails to delete it, followed by a
      grant, uploads what the user refused. */
  lemma FailedRevocationLeaks(s: Writer, n: Name) returns (x1: Platforms, s1: Writer, x2: Platforms, s2: Writer)
    requires s.consent == Pending && n in s.pending && IsNumeric(n) && n !in s.granted
    ensures ConsentSet(x1, s, NotGranted, s1, false) && ConsentSet(x2, s1, Granted, s2, true)
    ensures n in s2.granted && s2.granted[n] == s.pending[n]
  {
    var x := Faultless(s.pending.Keys);
    x1, x2 := Platforms(x.(unlistable := true), x), Platforms(x, x);
    s1 := s.(consent := NotGranted, activePending := NO_FILE);
    s2 := GrantedWriter(x2, s1);
    ProcessesAll(x2, s.pending);
  }

  // ---- the pending directory outside pending consent ----

  /** A consent change that did all it should: it succeeded, and every pending file that met a file
      of the same name could be deleted. */
  ghost predicate Complete(m: Message, t: Turn) {
    && t.ok
    && (m == TrackingConsentChanged(Granted) ==>
      BatchNames(t.start.pending) * t.start.granted.Keys * t.x.pending.undeletable == {})
  }

  ghost predicate ChangesComplete(log: History, turns: seq<Turn>)
    requires |turns| == |log|
  {
    forall k | 0 <= k < |log| && log[k].TrackingConsentChanged? :: Complete(log[k], turns[k])
  }

  lemma CompleteChangeEmptiesPending(m: Message, t: Turn)
    requires m.TrackingConsentChanged? && ConsentSet(t.x, t.start, m.value, t.end, t.ok) && Complete(m, t)
    requires t.start.consent != Pending ==> BatchNames(t.start.pending) == {}
    ensures t.end.consent != Pending ==> BatchNames(t.end.pending) == {}
  {
    if m.value != t.start.consent {
      match m.value
      case Granted => MigrationLeavesExactly(t.x, t.start.pending, t.start.granted);
      case NotGranted => SuccessfulDeletion(t.x.pending, t.start.pending);
      case Pending =>
    }
  }

  /** Whenever consent is not pending, there are no pending batch files at all. */
  lemma {:induction false} PendingDirectoryIsEmptyUnlessPending(
      cfg: Config, f: FeatureId, init: Writer, log: History, turns: seq<Turn>)
    requires init.consent != Pending ==> BatchNames(init.pending) == {}
    requires IsRun(cfg, f, init, log, turns) && ChangesComplete(log, turns)
    ensures
      var s := StateAfter(init, turns);
      s.consent != Pending ==> BatchNames(s.pending) == {}
  {
    if log != [] {
      var n := |log| - 1;
      PendingDirectoryIsEmptyUnlessPending(cfg, f, init, log[..n], turns[..n]);
      assert Sub(turns[n].start.pending, StateAfter(init, turns[..n]).pending);
      if log[n].TrackingConsentChanged? {
        assert Complete(log[n], turns[n]);
        CompleteChangeEmptiesPending(log[n], turns[n]);
      }
    }
  }

  // ---- without failures: exactly what the history entitles to ----

  ghost predicate Mirrors(s: Writer, l: Ledger) {
    && Within(s, l)
    && (forall j <- l.pending :: Holds(s.pending, Handled(j)))
    && (forall j <- l.granted :: Holds(s.granted, Handled(j)))
  }

  /** Nothing failed, nothing was removed by others, no name was taken, and no quota purge was
      due. */
  ghost predicate Undisturbed(cfg: Config, before: Writer, m: Message, t: Turn) {
    && t.start == before && Complete(m, t)
    && (m == TrackingConsentChanged(Granted) ==>
      BatchNames(t.start.pending) !! t.start.granted.Keys + t.x.pending.vanishing)
    && (m.EventGenerated? ==>
      && DirSize(Batches(t.start.pending)) <= cfg.maxDirectorySize
      && DirSize(Batches(t.start.granted)) <= cfg.maxDirectorySize)
  }

  lemma WriteMirrors(cfg: Config, f: FeatureId, s: Writer, l: Ledger, i: nat, m: Message, t: Turn)
    requires m.EventGenerated? && Handles(cfg, f, i, m, t) && Mirrors(s, l) && Undisturbed(cfg, s, m, t)
    ensures Mirrors(t.end, Apply(f, l, i, m))
  {
    WriteStaysWithin(cfg, f, s, l, i, m, t);
    if m.feature == f {
      match Target(s.consent, m.bypass)
      case NotGranted =>
      case Granted =>
        FlushAddsAtMost(cfg, t.x.granted, s.activeGranted, s.granted, m.write, Handled(i), t.now,
          t.end.activeGranted, t.end.granted, t.ok);
      case Pending =>
        FlushAddsAtMost(cfg, t.x.pending, s.activePending, s.pending, m.write, Handled(i), t.now,
          t.end.activePending, t.end.pending, t.ok);
    }
  }

  lemma BatchesMigrate(x: Platforms, s: Writer, s': Writer, o: Origin)
    requires s.consent != Granted && ConsentSet(x, s, Granted, s', true)
    requires BatchNames(s.pending) !! s.granted.Keys + x.pending.vanishing
    requires BatchesOnly(s.pending) && o.Handled?
    ensures !Holds(s'.pending, o)
    ensures Holds(s'.granted, o) <==> Holds(s.granted, o) || Holds(s.pending, o)
  {
    ProcessesAll(x, s.pending);
    MigrationIsPartial(x, s.pending, s.granted, Processed(x, s.pending));
    MigrationHolds(s.pending, s.granted, s'.pending, s'.granted, o);
    if Holds(s.pending, o) {
      var n, i :| n in s.pending && 0 <= i < |s.pending[n]| && s.pending[n][i].Stored? && s.pending[n][i].origin == o;
      assert s'.granted[n][i] == s.pending[n][i];
    }
  }

  lemma ConsentChangeMirrors(cfg: Config, f: FeatureId, s: Writer, l: Ledger, i: nat, m: Message, t: Turn)
    requires m.TrackingConsentChanged? && Handles(cfg, f, i, m, t) && Mirrors(s, l) && Undisturbed(cfg, s, m, t)
    ensures Mirrors(t.end, Apply(f, l, i, m))
  {
    ConsentChangeStaysWithin(cfg, f, s, l, i, m, t);
    if m.value == Granted && m.value != s.consent {
      forall j
        ensures !Holds(t.end.pending, Handled(j))
        ensures Holds(t.end.granted, Handled(j)) <==> Holds(s.granted, Handled(j)) || Holds(s.pending, Handled(j))
      {
        BatchesMigrate(t.x, s, t.end, Handled(j));
      }
    }
  }

  ghost predicate UndisturbedRun(cfg: Config, init: Writer, log: History, turns: seq<Turn>)
    requires |turns| == |log|
  {
    forall i | 0 <= i < |log| :: Undisturbed(cfg, StateAfter(init, turns[..i]), log[i], turns[i])
  }

  lemma {:induction false} UndisturbedRunMirrors(cfg: Config, f: FeatureId, init: Writer, log: History,
                                                 turns: seq<Turn>)
    requires Initial(init) && IsRun(cfg, f, init, log, turns) && UndisturbedRun(cfg, init, log, turns)
    ensures Mirrors(StateAfter(init, turns), Replay(f, init.consent, log))
  {
    if log != [] {
      var n := |log| - 1;
      forall i | 0 <= i < n
        ensures turns[..n][..i] == turns[..i]
      {
      }
      UndisturbedRunMirrors(cfg, f, init, log[..n], turns[..n]);
      var s, l := StateAfter(init, turns[..n]), Replay(f, init.consent, log[..n]);
      assert Undisturbed(cfg, s, log[n], turns[n]);
      if log[n].EventGenerated? {
        WriteMirrors(cfg, f, s, l, n, log[n], turns[n]);
      } else {
        ConsentChangeMirrors(cfg, f, s, l, n, log[n], turns[n]);
      }
    }
  }

  /** Without failures, uploads or purges, after any history each directory holds an event if
      and only if the history entitles it to. */
  lemma StoredExactlyWhatConsentAllows(cfg: Config, f: FeatureId, init: Writer, log: History, turns: seq<Turn>)
    requires Initial(init) && IsRun(cfg, f, init, log, turns) && UndisturbedRun(cfg, init, log, turns)
    ensures
      var s := StateAfter(init, turns);
      && (forall j :: Holds(s.granted, Handled(j)) <==> BelongsInGranted(init.consent, f, log, j))
      && (forall j :: Holds(s.pending, Handled(j)) <==> BelongsInPending(init.consent, f, log, j))
  {
    UndisturbedRunMirrors(cfg, f, init, log, turns);
    ReplayDescribes(init.consent, f, log);
  }
}

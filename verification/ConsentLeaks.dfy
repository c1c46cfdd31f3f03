/** Exactly which events can end up in the granted directory, given which revocations of consent
    failed to delete the pending files (storage_write.cpp). */
module ConsentLeaks {
  import opened Options
  import opened Consents
  import opened Filenames
  import opened Directories
  import opened FeatureEventStorages
  import opened BatchWriters
  import opened StorageMessages
  import opened WriterRuns
  import opened ConsentSafety
  import Tlv

  /** The revocations of a run fail at the positions in `fails` and nowhere else. */
  ghost predicate RevocationsFail(c0: Consent, log: History, turns: seq<Turn>, fails: set<nat>)
    requires |turns| == |log|
  {
    forall k: nat | ChangesTo(c0, log, k, NotGranted) :: turns[k].ok <==> k !in fails
  }

  ghost predicate StoresInGranted(cfg: Config, f: FeatureId, log: History, j: nat, fails: set<nat>, init: Writer,
                                  turns: seq<Turn>)
  {
    && Initial(init) && IsRun(cfg, f, init, log, turns)
    && RevocationsFail(init.consent, log, turns, fails)
    && Holds(StateAfter(init, turns).granted, Handled(j))
  }

  /** A grant follows the event, and no revocation between the two deletes the event. */
  predicate GrantReaches(c0: Consent, log: History, j: nat, fails: set<nat>, m: nat) {
    && j < m < |log| && ChangesTo(c0, log, m, Granted)
    && forall k | j < k < m && ChangesTo(c0, log, k, NotGranted) :: k in fails
  }

  // ---- a run in which the event gets through ----

  /** The file that a writer goes on with if a new one is due and the directory cannot be listed. */
  ghost function LeftWith(cfg: Config, a: Active, w: Tlv.Write): Active {
    if !Accepts(cfg, w) || CanReuse(cfg, a, 0, Tlv.EncodedSize(w)) then a else NO_FILE
  }

  /** All calls on a directory fail from now on. */
  function Unusable(a: Active): Platform {
    Platform(0, true, {}, {}, {}, {a.name}, {}, map[])
  }

  /** Nothing but the event in question is ever stored. */
  ghost function LeakingTurn(cfg: Config, f: FeatureId, j: nat, fails: set<nat>, s: Writer, i: nat, m: Message): Turn {
    var x := Faultless(s.pending.Keys + {Digits(0)});
    match m
    case TrackingConsentChanged(v) =>
      var s1 := s.(consent := v, activePending := if s.consent.Pending? then NO_FILE else s.activePending);
      if v == s.consent then Turn(s, 0, Platforms(x, x), s, true)
      else (
        match v
        case Pending => Turn(s, 0, Platforms(x, x), s1, true)
        case NotGranted =>
          if i in fails then Turn(s, 0, Platforms(x.(unlistable := true), x), s1, false)
          else Turn(s, 0, Platforms(x, x), s1.(pending := AfterDeletion(x, s.pending)), true)
        case Granted => Turn(s, 0, Platforms(x, x), GrantedWriter(Platforms(x, x), s), true))
    case EventGenerated(g, w, bypass) =>
      if g != f then Turn(s, 0, Platforms(x, x), s, true)
      else if i == j then
        Turn(s, 0, Platforms(x, x), s.(activePending := Active(Digits(0), 0, 1, Tlv.EncodedSize(w)),
          pending := s.pending[Digits(0) := [Stored(w, Handled(i))]]), true)
      else (
        var down := Platforms(Unusable(s.activePending), Unusable(s.activeGranted));
        match Target(s.consent, bypass)
        case NotGranted => Turn(s, 0, down, s, true)
        case Granted => Turn(s, 0, down, s.(activeGranted := LeftWith(cfg, s.activeGranted, w)), false)
        case Pending => Turn(s, 0, down, s.(activePending := LeftWith(cfg, s.activePending, w)), false))
  }

  function Fresh(c0: Consent): Writer {
    Writer(c0, NO_FILE, NO_FILE, map[], map[])
  }

  ghost predicate IsFirst(cfg: Config, f: FeatureId, s: Writer, m: Message) {
    && m.EventGenerated? && m.feature == f && Accepts(cfg, m.write) && Target(s.consent, m.bypass) == Pending
    && s.pending == map[] && s.activePending == NO_FILE
  }

  /** A turn that stores nothing, or stores the event into an empty directory, is one the writer
      can take. */
  lemma LeakingTurnIsPossible(cfg: Config, f: FeatureId, j: nat, fails: set<nat>, s: Writer, i: nat, m: Message)
    requires i == j ==> IsFirst(cfg, f, s, m)
    ensures Handles(cfg, f, i, m, LeakingTurn(cfg, f, j, fails, s, i, m))
  {
    if i == j {
      FirstWriteIsPossible(cfg, m.write, Handled(i), Faultless(s.pending.Keys + {Digits(0)}), 0);
    } else if m.EventGenerated? && m.feature == f && Target(s.consent, m.bypass) == Granted {
      NothingIsWritten(cfg, s.activeGranted, s.granted, m.write, Handled(i));
    } else if m.EventGenerated? && m.feature == f && Target(s.consent, m.bypass) == Pending {
      NothingIsWritten(cfg, s.activePending, s.pending, m.write, Handled(i));
    }
  }

  lemma NothingIsWritten(cfg: Config, a: Active, d: Dir, w: Tlv.Write, o: Origin)
    ensures Flushed(cfg, Unusable(a), a, d, w, o, 0, LeftWith(cfg, a, w), d, false)
  {
    if Accepts(cfg, w) {
      var a1 := LeftWith(cfg, a, w);
      assert FileReady(cfg, Unusable(a), a, d, 0, Tlv.EncodedSize(w), a1, d);
      assert Committed(Unusable(a), a1, d, w, o, a1, d, false);
    }
  }

  predicate Unrevoked(c0: Consent, log: History, j: nat, fails: set<nat>) {
    forall k | j < k < |log| && ChangesTo(c0, log, k, NotGranted) :: k in fails
  }

  ghost predicate GrantComes(c0: Consent, log: History, j: nat, fails: set<nat>) {
    exists m :: GrantReaches(c0, log, j, fails, m)
  }

  /** Where the event is: nowhere yet, pending, or granted. */
  ghost predicate Tracked(c0: Consent, log: History, j: nat, fails: set<nat>, s: Writer) {
    && s.consent == ConsentAfter(c0, log)
    && (|log| <= j ==> s.pending == map[] && s.granted == map[] && s.activePending == NO_FILE)
    && (j < |log| && GrantComes(c0, log, j, fails) ==> Holds(s.granted, Handled(j)))
    && (j < |log| && Unrevoked(c0, log, j, fails) && !GrantComes(c0, log, j, fails) ==>
      s.granted == map[] && s.pending.Keys == {Digits(0)} && Holds(s.pending, Handled(j)))
  }

  /** How one more message changes the two conditions. */
  lemma ConditionsAfter(c0: Consent, log: History, j: nat, fails: set<nat>)
    requires |log| > j + 1
    ensures
      var n := |log| - 1;
      && (GrantComes(c0, log, j, fails) <==>
        (|| GrantComes(c0, log[..n], j, fails)
         || (ChangesTo(c0, log, n, Granted) && Unrevoked(c0, log[..n], j, fails))))
      && (Unrevoked(c0, log, j, fails) <==>
        (&& Unrevoked(c0, log[..n], j, fails)
         && (ChangesTo(c0, log, n, NotGranted) ==> n in fails)))
  {
    var n := |log| - 1;
    forall k: nat, v | k < n
      ensures ChangesTo(c0, log[..n], k, v) == ChangesTo(c0, log, k, v)
    {
      PrefixChanges(c0, log, n, k, v);
    }
    forall m: nat | m < n
      ensures GrantReaches(c0, log[..n], j, fails, m) == GrantReaches(c0, log, j, fails, m)
    {
    }
    if GrantComes(c0, log[..n], j, fails) {
      var m: nat :| GrantReaches(c0, log[..n], j, fails, m);
      assert GrantReaches(c0, log, j, fails, m);
    }
    if ChangesTo(c0, log, n, Granted) && Unrevoked(c0, log[..n], j, fails) {
      assert GrantReaches(c0, log, j, fails, n);
    }
    if GrantComes(c0, log, j, fails) {
      var m: nat :| GrantReaches(c0, log, j, fails, m);
      assert m < n ==> GrantReaches(c0, log[..n], j, fails, m);
    }
  }

  lemma TurnKeepsHeld(cfg: Config, f: FeatureId, j: nat, fails: set<nat>, s: Writer, i: nat, m: Message)
    requires i != j
    ensures
      var s' := LeakingTurn(cfg, f, j, fails, s, i, m).end;
      && (Holds(s.granted, Handled(j)) ==> Holds(s'.granted, Handled(j)))
      && (m.EventGenerated? || (m.TrackingConsentChanged? && m.value == s.consent) ==>
        s'.pending == s.pending && s'.granted == s.granted && s'.consent == s.consent)
  {
    var s' := LeakingTurn(cfg, f, j, fails, s, i, m).end;
    if Holds(s.granted, Handled(j)) {
      SubHolds(s.granted, s'.granted, Handled(j));
    }
  }

  /** A grant moves the file with the event, a failed revocation and a change to pending leave it. */
  lemma ChangeMovesFile(cfg: Config, f: FeatureId, j: nat, fails: set<nat>, s: Writer, i: nat, v: Consent)
    requires v != s.consent && s.granted == map[] && s.pending.Keys == {Digits(0)} && Holds(s.pending, Handled(j))
    ensures
      var s' := LeakingTurn(cfg, f, j, fails, s, i, TrackingConsentChanged(v)).end;
      && (v == Granted ==> Holds(s'.granted, Handled(j)))
      && (v == Pending || (v == NotGranted && i in fails) ==> s'.pending == s.pending && s'.granted == s.granted)
  {
    var s' := LeakingTurn(cfg, f, j, fails, s, i, TrackingConsentChanged(v)).end;
    if v == Granted {
      assert s'.granted[Digits(0)] == s.pending[Digits(0)];
      SubHolds(s.pending, s'.granted, Handled(j));
    }
  }

  lemma TurnKeepsTracked(cfg: Config, f: FeatureId, c0: Consent, j: nat, fails: set<nat>, log: History, s: Writer)
    requires |log| > j + 1 && Tracked(c0, log[..|log| - 1], j, fails, s)
    ensures Tracked(c0, log, j, fails, LeakingTurn(cfg, f, j, fails, s, |log| - 1, log[|log| - 1]).end)
  {
    var n := |log| - 1;
    var m, before := log[n], log[..n];
    ConditionsAfter(c0, log, j, fails);
    TurnKeepsHeld(cfg, f, j, fails, s, n, m);
    assert s.consent == ConsentAfter(c0, before);
    if
      && Unrevoked(c0, before, j, fails) && !GrantComes(c0, before, j, fails)
      && m.TrackingConsentChanged? && m.value != s.consent
    {
      assert ChangesTo(c0, log, n, m.value);
      ChangeMovesFile(cfg, f, j, fails, s, n, m.value);
    }
  }

  lemma FirstTurnTracked(cfg: Config, f: FeatureId, c0: Consent, j: nat, fails: set<nat>, log: History, s: Writer)
    requires |log| == j + 1 && Tracked(c0, log[..j], j, fails, s) && IsFirst(cfg, f, s, log[j])
    ensures Tracked(c0, log, j, fails, LeakingTurn(cfg, f, j, fails, s, j, log[j]).end)
  {
    var s' := LeakingTurn(cfg, f, j, fails, s, j, log[j]).end;
    assert s'.pending[Digits(0)][0] == Stored(log[j].write, Handled(j));
    assert Holds(s'.pending, Handled(j));
    assert !GrantComes(c0, log, j, fails);
  }

  lemma EarlyTurnTracked(cfg: Config, f: FeatureId, c0: Consent, j: nat, fails: set<nat>, log: History, s: Writer)
    requires 0 < |log| <= j && Tracked(c0, log[..|log| - 1], j, fails, s)
    ensures Tracked(c0, log, j, fails, LeakingTurn(cfg, f, j, fails, s, |log| - 1, log[|log| - 1]).end)
  {
    var s' := LeakingTurn(cfg, f, j, fails, s, |log| - 1, log[|log| - 1]).end;
    assert s.pending - BatchNames(s.pending) == map[];
  }

  lemma NextTurnTracked(cfg: Config, f: FeatureId, c0: Consent, j: nat, fails: set<nat>, whole: History, n: nat,
                        s: Writer)
    requires WrittenWhilePending(c0, f, whole, j) && Accepts(cfg, whole[j].write) && n < |whole|
    requires Tracked(c0, whole[..n], j, fails, s)
    ensures n == j ==> IsFirst(cfg, f, s, whole[n])
    ensures Tracked(c0, whole[..n + 1], j, fails, LeakingTurn(cfg, f, j, fails, s, n, whole[n]).end)
  {
    var log := whole[..n + 1];
    assert log[..n] == whole[..n];
    if n < j {
      EarlyTurnTracked(cfg, f, c0, j, fails, log, s);
    } else if n == j {
      FirstTurnTracked(cfg, f, c0, j, fails, log, s);
    } else {
      TurnKeepsTracked(cfg, f, c0, j, fails, log, s);
    }
  }

  ghost predicate Leads(cfg: Config, f: FeatureId, c0: Consent, j: nat, fails: set<nat>, log: History,
                        turns: seq<Turn>)
  {
    && IsRun(cfg, f, Fresh(c0), log, turns) && RevocationsFail(c0, log, turns, fails)
    && Tracked(c0, log, j, fails, StateAfter(Fresh(c0), turns))
  }

  lemma NextTurn(cfg: Config, f: FeatureId, c0: Consent, j: nat, fails: set<nat>, whole: History, n: nat, s: Writer)
    returns (t: Turn)
    requires WrittenWhilePending(c0, f, whole, j) && Accepts(cfg, whole[j].write) && n < |whole|
    requires Tracked(c0, whole[..n], j, fails, s)
    ensures t.start == s && Handles(cfg, f, n, whole[n], t)
    ensures Tracked(c0, whole[..n + 1], j, fails, t.end)
    ensures ChangesTo(c0, whole, n, NotGranted) ==> (t.ok <==> n !in fails)
  {
    t := LeakingTurn(cfg, f, j, fails, s, n, whole[n]);
    NextTurnTracked(cfg, f, c0, j, fails, whole, n, s);
    LeakingTurnIsPossible(cfg, f, j, fails, s, n, whole[n]);
  }

  lemma OutcomesAfter(c0: Consent, log: History, turns: seq<Turn>, fails: set<nat>)
    requires |turns| == |log| > 0
    requires RevocationsFail(c0, log[..|log| - 1], turns[..|log| - 1], fails)
    requires ChangesTo(c0, log, |log| - 1, NotGranted) ==> (turns[|log| - 1].ok <==> |log| - 1 !in fails)
    ensures RevocationsFail(c0, log, turns, fails)
  {
    var n := |log| - 1;
    forall k: nat | ChangesTo(c0, log, k, NotGranted)
      ensures turns[k].ok <==> k !in fails
    {
      if k < n {
        PrefixChanges(c0, log, n, k, NotGranted);
        assert turns[..n][k].ok <==> k !in fails;
      }
    }
  }

  lemma LeadsOn(cfg: Config, f: FeatureId, c0: Consent, j: nat, fails: set<nat>, whole: History, n: nat,
                turns: seq<Turn>, t: Turn)
    requires n < |whole| && |turns| == n && Leads(cfg, f, c0, j, fails, whole[..n], turns)
    requires t.start == StateAfter(Fresh(c0), turns) && Handles(cfg, f, n, whole[n], t)
    requires Tracked(c0, whole[..n + 1], j, fails, t.end)
    requires ChangesTo(c0, whole, n, NotGranted) ==> (t.ok <==> n !in fails)
    ensures Leads(cfg, f, c0, j, fails, whole[..n + 1], turns + [t])
  {
    var log, turns' := whole[..n + 1], turns + [t];
    StaysPut(t.start);
    RunExtends(cfg, f, Fresh(c0), whole[..n], turns, whole[n], t);
    assert log == whole[..n] + [whole[n]] && log[..n] == whole[..n] && turns'[..n] == turns;
    OutcomesAfter(c0, log, turns', fails);
  }

  lemma {:induction false} LeakingRun(cfg: Config, f: FeatureId, c0: Consent, j: nat, fails: set<nat>, whole: History,
                                      n: nat)
    returns (turns: seq<Turn>)
    requires WrittenWhilePending(c0, f, whole, j) && Accepts(cfg, whole[j].write) && n <= |whole|
    ensures |turns| == n && Leads(cfg, f, c0, j, fails, whole[..n], turns)
  {
    turns := [];
    if n > 0 {
      turns := LeakingRun(cfg, f, c0, j, fails, whole, n - 1);
      var t := NextTurn(cfg, f, c0, j, fails, whole, n - 1, StateAfter(Fresh(c0), turns));
      LeadsOn(cfg, f, c0, j, fails, whole, n - 1, turns, t);
      turns := turns + [t];
    }
  }

  lemma StoredOnlyIfGrantComes(cfg: Config, f: FeatureId, c0: Consent, log: History, j: nat, fails: set<nat>,
                               init: Writer, turns: seq<Turn>)
    requires WrittenWhilePending(c0, f, log, j) && init.consent == c0
    requires StoresInGranted(cfg, f, log, j, fails, init, turns)
    ensures GrantComes(c0, log, j, fails)
  {
    RunStaysWithin(cfg, f, init, log, turns);
    MayHoldExactly(f, c0, log, turns, j);
    var m: nat :| j < m < |log| && ChangesTo(c0, log, m, Granted) && NotDeleted(c0, log, turns, j, m);
    assert GrantReaches(c0, log, j, fails, m);
  }

  /** An event written under pending consent can be found in the granted directory after some run
      with the given failing revocations if and only if a grant follows it and every revocation
      between the two fails. */
  lemma GrantedExactlyWhenGrantReaches(cfg: Config, f: FeatureId, c0: Consent, log: History, j: nat, fails: set<nat>)
    requires WrittenWhilePending(c0, f, log, j) && Accepts(cfg, log[j].write)
    ensures (exists init: Writer, turns: seq<Turn> ::
        init.consent == c0 && StoresInGranted(cfg, f, log, j, fails, init, turns))
      <==> GrantComes(c0, log, j, fails)
  {
    if GrantComes(c0, log, j, fails) {
      assert log[..|log|] == log;
      var turns := LeakingRun(cfg, f, c0, j, fails, log, |log|);
      assert StoresInGranted(cfg, f, log, j, fails, Fresh(c0), turns);
    }
    if init: Writer, turns: seq<Turn> :| init.consent == c0 && StoresInGranted(cfg, f, log, j, fails, init, turns) {
      StoredOnlyIfGrantComes(cfg, f, c0, log, j, fails, init, turns);
    }
  }

  /** So a run can upload an event it must not upload exactly if the first change after the event
      revokes consent, that and all further revocations before some grant fail, and the grant
      comes. */
  lemma LeaksExactlyWhenRevocationsFail(cfg: Config, f: FeatureId, c0: Consent, log: History, j: nat, fails: set<nat>)
    requires WrittenWhilePending(c0, f, log, j) && Accepts(cfg, log[j].write)
    ensures
      (&& !BelongsInGranted(c0, f, log, j)
       && exists init: Writer, turns: seq<Turn> ::
         init.consent == c0 && StoresInGranted(cfg, f, log, j, fails, init, turns))
      <==> (NextConsent(c0, log, j) == Some(NotGranted) && GrantComes(c0, log, j, fails))
  {
    GrantedExactlyWhenGrantReaches(cfg, f, c0, log, j, fails);
    FirstChangeIsElsewhere(c0, f, log, j);
    if m: nat :| GrantReaches(c0, log, j, fails, m) {
      var k := NextConsentIsFirstChange(c0, log, j);
      assert ChangesTo(c0, log, m, Granted);
    }
  }
}

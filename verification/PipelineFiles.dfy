/** The pipeline with the files on disk (core.cpp, storage_thread.cpp): every run of the threads,
    together with a run of every feature's writer from its registration on. */
module PipelineFiles {
  import opened Options
  import opened Consents
  import opened Directories
  import opened FeatureEventStorages
  import opened BatchWriters
  import opened StorageMessages
  import opened Pipeline
  import opened PipelineInvariant
  import ConsentLeaks
  import ConsentSafety
  import W = WriterRuns

  /** A feature's writer: its state after registration, when `since` messages had been handled,
      and what it did with each message since then. */
  datatype Record = Record(cfg: Config, since: nat, init: Writer, turns: seq<W.Turn>)

  type Files = map<FeatureId, Record>

  function Now(r: Record): Writer {
    W.StateAfter(r.init, r.turns)
  }

  /** A new writer finds the files of earlier processes and is told the consent, whatever comes
      of that. */
  ghost predicate Registered(r: Record, since: nat, tracking: Consent) {
    && r.since == since && r.turns == []
    && exists p: Dir, g: Dir, x: Platforms, ok: bool ::
      && W.Initial(Writer(Pending, NO_FILE, NO_FILE, p, g))
      && ConsentSet(x, Writer(Pending, NO_FILE, NO_FILE, p, g), tracking, r.init, ok)
  }

  /** The message at position `i` is handled by every writer. */
  ghost predicate TakesTurn(f: FeatureId, r: Record, i: nat, m: Message, r': Record) {
    && r.since <= i && r'.turns != []
    && r' == r.(turns := r.turns + [r'.turns[|r'.turns| - 1]])
    && var t := r'.turns[|r'.turns| - 1];
      W.Evicted(Now(r), t.start) && W.Handles(r.cfg, f, i - r.since, m, t)
  }

  ghost predicate AllTakeTurns(files: Files, i: nat, m: Message, files': Files) {
    && files'.Keys == files.Keys
    && forall f :: f in files ==> TakesTurn(f, files[f], i, m, files'[f])
  }

  /** The message that a step handles, if any. */
  function HandledBy(s: State, step: Step): Option<Message>
    requires Enabled(s, step)
  {
    match step
    case OfMain(SetTrackingConsent(v)) => if s.main.Idle? then Some(TrackingConsentChanged(v)) else None
    case OfStorage(TakeMessage) => Some(s.storage.queue.value.items[0])
    case _ => None
  }

  ghost predicate Follow(s: State, step: Step, files: Files, files': Files)
    requires Enabled(s, step)
  {
    if step.OfMain? && step.m.Register? then
      var f := step.m.feature;
      f in files' && Registered(files'[f], |s.storage.handled|, s.tracking) && files' == files[f := files'[f]]
    else
      match HandledBy(s, step)
      case Some(m) => AllTakeTurns(files, |s.storage.handled|, m, files')
      case None => files' == files
  }

  ghost predicate IsRunWithFiles(c0: Consent, states: seq<State>, steps: seq<Step>, fs: seq<Files>) {
    && IsRun(c0, states, steps) && |fs| == |states| && fs[0] == map[]
    && forall i | 0 <= i < |steps| :: Follow(states[i], steps[i], fs[i], fs[i + 1])
  }

  // ---- every step can be followed ----

  lemma RegistrationIsPossible(cfg: Config, since: nat, tracking: Consent) returns (r: Record)
    ensures r.cfg == cfg && Registered(r, since, tracking)
  {
    var d: Dir := map[];
    var w := Writer(Pending, NO_FILE, NO_FILE, d, d);
    var x := Platforms(Faultless({}), Faultless({}));
    var init := match tracking
      case Pending => w
      case NotGranted => w.(consent := NotGranted, pending := AfterDeletion(x.pending, d))
      case Granted => GrantedWriter(x, w);
    r := Record(cfg, since, init, []);
    assert W.Initial(w);
    assert exists ok :: ConsentSet(x, w, tracking, init, ok) by {
      assert ConsentSet(x, w, tracking, init, true);
    }
  }

  lemma TurnIsPossible(f: FeatureId, r: Record, i: nat, m: Message) returns (r': Record)
    requires r.since <= i
    ensures TakesTurn(f, r, i, m, r')
  {
    var k := i - r.since;
    ConsentLeaks.LeakingTurnIsPossible(r.cfg, f, k + 1, {}, Now(r), k, m);
    var t := ConsentLeaks.LeakingTurn(r.cfg, f, k + 1, {}, Now(r), k, m);
    W.StaysPut(Now(r));
    r' := r.(turns := r.turns + [t]);
  }

  lemma {:induction false} AllTurnsArePossible(files: Files, left: set<FeatureId>, i: nat, m: Message)
    returns (files': Files)
    requires left <= files.Keys && forall f :: f in files ==> files[f].since <= i
    ensures files'.Keys == left && forall f :: f in left ==> TakesTurn(f, files[f], i, m, files'[f])
    decreases |left|
  {
    if left == {} {
      files' := map[];
    } else {
      var f :| f in left;
      var r := TurnIsPossible(f, files[f], i, m);
      files' := AllTurnsArePossible(files, left - {f}, i, m);
      files' := files'[f := r];
    }
  }

  lemma StepIsPossible(cfg: Config, s: State, step: Step, files: Files) returns (files': Files)
    requires Enabled(s, step) && forall f :: f in files ==> files[f].since <= |s.storage.handled|
    ensures Follow(s, step, files, files')
  {
    files' := files;
    if step.OfMain? && step.m.Register? {
      var r := RegistrationIsPossible(cfg, |s.storage.handled|, s.tracking);
      files' := files[step.m.feature := r];
    } else if HandledBy(s, step).Some? {
      files' := AllTurnsArePossible(files, files.Keys, |s.storage.handled|, HandledBy(s, step).value);
    }
  }

  // ---- what a writer has done is a run over the messages since its registration ----

  predicate NoEventsOf(f: FeatureId, log: History) {
    forall m <- log :: m.EventGenerated? ==> m.feature != f
  }

  ghost predicate RecordInv(c0: Consent, f: FeatureId, r: Record, handled: History) {
    && r.since <= |handled| && NoEventsOf(f, handled[..r.since])
    && W.Initial(r.init) && r.init.consent == ConsentAfter(c0, handled[..r.since])
    && W.IsRun(r.cfg, f, r.init, handled[r.since..], r.turns)
  }

  ghost predicate FilesInv(c0: Consent, st: Storage, files: Files) {
    files.Keys == st.writers.Keys && forall f :: f in files ==> RecordInv(c0, f, files[f], st.handled)
  }

  lemma NothingHandledIn(d: Dir, d': Dir, e: Dir)
    requires forall j :: !Holds(d, Handled(j)) && !Holds(e, Handled(j))
    requires forall n :: n in d' ==> (n in d && d'[n] == d[n]) || (n in e && d'[n] == e[n])
    ensures forall j :: !Holds(d', Handled(j))
  {
    forall j | Holds(d', Handled(j))
      ensures false
    {
      var n, i :| n in d' && 0 <= i < |d'[n]| && d'[n][i].Stored? && d'[n][i].origin == Handled(j);
      if n in d && d'[n] == d[n] {
        assert Holds(d, Handled(j));
      } else {
        assert Holds(e, Handled(j));
      }
    }
  }

  lemma RegisteredIsInitial(r: Record, since: nat, tracking: Consent)
    requires Registered(r, since, tracking)
    ensures W.Initial(r.init) && r.init.consent == tracking
  {
    var p: Dir, g: Dir, x: Platforms, ok: bool :|
      && W.Initial(Writer(Pending, NO_FILE, NO_FILE, p, g))
      && ConsentSet(x, Writer(Pending, NO_FILE, NO_FILE, p, g), tracking, r.init, ok);
    NothingHandledIn(p, r.init.pending, p);
    NothingHandledIn(g, r.init.granted, p);
  }

  lemma RecordContinues(c0: Consent, f: FeatureId, r: Record, handled: History, m: Message, r': Record)
    requires RecordInv(c0, f, r, handled) && TakesTurn(f, r, |handled|, m, r')
    ensures RecordInv(c0, f, r', handled + [m])
  {
    W.RunExtends(r.cfg, f, r.init, handled[r.since..], r.turns, m, r'.turns[|r'.turns| - 1]);
    assert (handled + [m])[..r.since] == handled[..r.since];
    assert (handled + [m])[r.since..] == handled[r.since..] + [m];
  }

  /** Only these steps touch what has been handled. */
  lemma HandledMessages(s: State, step: Step)
    requires Enabled(s, step)
    ensures
      var st, st' := s.storage, Next(s, step).storage;
      match HandledBy(s, step)
      case Some(m) => st'.handled == st.handled + [m] && st'.writers.Keys == st.writers.Keys
      case None =>
        && st'.handled == st.handled
        && st'.writers.Keys == st.writers.Keys + if step.OfMain? && step.m.Register? then {step.m.feature} else {}
  {
  }

  lemma NewRecord(c0: Consent, st: Storage, tracking: Consent, f: FeatureId, r: Record)
    requires WritersReplay(c0, st) && st.history == st.handled && ConsentAfter(c0, st.history) == tracking
    requires f !in st.writers && Registered(r, |st.handled|, tracking)
    ensures RecordInv(c0, f, r, st.handled)
  {
    RegisteredIsInitial(r, |st.handled|, tracking);
    assert st.handled[..|st.handled|] == st.handled && st.handled[|st.handled|..] == [];
  }

  lemma AllContinue(c0: Consent, handled: History, m: Message, files: Files, files': Files)
    requires forall f :: f in files ==> RecordInv(c0, f, files[f], handled)
    requires AllTakeTurns(files, |handled|, m, files')
    ensures forall f :: f in files' ==> RecordInv(c0, f, files'[f], handled + [m])
  {
    forall f | f in files'
      ensures RecordInv(c0, f, files'[f], handled + [m])
    {
      RecordContinues(c0, f, files[f], handled, m, files'[f]);
    }
  }

  /** Nothing is queued while the core is stopped, and its consent is the history's. */
  ghost predicate Settled(c0: Consent, st: Storage, tracking: Consent) {
    WritersReplay(c0, st) && st.history == st.handled && ConsentAfter(c0, st.history) == tracking
  }

  lemma IdleIsSettled(c0: Consent, s: State)
    requires Inv(c0, s) && s.main.Idle?
    ensures Settled(c0, s.storage, s.tracking)
  {
  }

  lemma RegistrationKeepsFiles(c0: Consent, st: Storage, tracking: Consent, f: FeatureId, files: Files, files': Files,
                               st': Storage)
    requires Settled(c0, st, tracking) && FilesInv(c0, st, files) && f !in st.writers
    requires f in files' && Registered(files'[f], |st.handled|, tracking) && files' == files[f := files'[f]]
    requires st'.handled == st.handled && st'.writers.Keys == st.writers.Keys + {f}
    ensures FilesInv(c0, st', files')
  {
    NewRecord(c0, st, tracking, f, files'[f]);
  }

  lemma MessageKeepsFiles(c0: Consent, st: Storage, m: Message, files: Files, files': Files, st': Storage)
    requires FilesInv(c0, st, files) && AllTakeTurns(files, |st.handled|, m, files')
    requires st'.handled == st.handled + [m] && st'.writers.Keys == st.writers.Keys
    ensures FilesInv(c0, st', files')
  {
    AllContinue(c0, st.handled, m, files, files');
  }

  lemma StepKeepsFiles(c0: Consent, s: State, step: Step, files: Files, files': Files)
    requires s.main.Idle? ==> Settled(c0, s.storage, s.tracking)
    requires FilesInv(c0, s.storage, files) && Enabled(s, step) && Follow(s, step, files, files')
    ensures FilesInv(c0, Next(s, step).storage, files')
  {
    HandledMessages(s, step);
    if step.OfMain? && step.m.Register? {
      RegistrationKeepsFiles(c0, s.storage, s.tracking, step.m.feature, files, files', Next(s, step).storage);
    } else if HandledBy(s, step).Some? {
      MessageKeepsFiles(c0, s.storage, HandledBy(s, step).value, files, files', Next(s, step).storage);
    } else {
      OthersKeepFiles(c0, s.storage, files, Next(s, step).storage);
    }
  }

  lemma OthersKeepFiles(c0: Consent, st: Storage, files: Files, st': Storage)
    requires FilesInv(c0, st, files) && st'.handled == st.handled && st'.writers.Keys == st.writers.Keys
    ensures FilesInv(c0, st', files)
  {
  }

  /** In every state of every run, each feature's directories are what its writer's run over the
      messages handled since its registration has made of them. */
  lemma {:induction false} WritersMakeRuns(c0: Consent, states: seq<State>, steps: seq<Step>, fs: seq<Files>, i: nat)
    requires IsRunWithFiles(c0, states, steps, fs) && i < |states|
    ensures FilesInv(c0, states[i].storage, fs[i])
  {
    if i > 0 {
      WritersMakeRuns(c0, states, steps, fs, i - 1);
      InvHolds(c0, states, steps, i - 1);
      if states[i - 1].main.Idle? {
        IdleIsSettled(c0, states[i - 1]);
      }
      assert Enabled(states[i - 1], steps[i - 1]) && Follow(states[i - 1], steps[i - 1], fs[i - 1], fs[i]);
      StepKeepsFiles(c0, states[i - 1], steps[i - 1], fs[i - 1], fs[i]);
    }
  }

  lemma RunPrefix(c0: Consent, states: seq<State>, steps: seq<Step>, n: nat)
    requires IsRun(c0, states, steps) && n <= |steps|
    ensures IsRun(c0, states[..n + 1], steps[..n])
  {
  }

  /** Nothing that the threads do keeps the writers from following. */
  lemma {:induction false} EveryRunHasFiles(cfg: Config, c0: Consent, states: seq<State>, steps: seq<Step>)
    returns (fs: seq<Files>)
    requires IsRun(c0, states, steps)
    ensures IsRunWithFiles(c0, states, steps, fs)
    decreases |steps|
  {
    if steps == [] {
      fs := [map[]];
    } else {
      var n := |steps| - 1;
      RunPrefix(c0, states, steps, n);
      fs := EveryRunHasFiles(cfg, c0, states[..n + 1], steps[..n]);
      WritersMakeRuns(c0, states[..n + 1], steps[..n], fs, n);
      assert Enabled(states[n], steps[n]);
      var files := StepIsPossible(cfg, states[n], steps[n], fs[n]);
      fs := fs + [files];
    }
  }

  // ---- the ledger of a feature that was registered late ----

  lemma {:induction false} ReplayAfter(f: FeatureId, c0: Consent, before: History, log: History, j: nat)
    requires NoEventsOf(f, before)
    ensures
      var whole, own := Replay(f, c0, before + log), Replay(f, ConsentAfter(c0, before), log);
      && whole.consent == own.consent
      && (|before| + j in whole.granted <==> j in own.granted)
      && (|before| + j in whole.pending <==> j in own.pending)
  {
    if log == [] {
      assert before + log == before;
      ReplayWithoutEvents(f, c0, before);
    } else {
      var n := |log| - 1;
      ReplayAfter(f, c0, before, log[..n], j);
      assert (before + log)[..|before| + n] == before + log[..n];
    }
  }

  lemma LedgerOf(c0: Consent, f: FeatureId, r: Record, handled: History, j: nat)
    requires RecordInv(c0, f, r, handled)
    ensures
      var whole, own := Replay(f, c0, handled), Replay(f, r.init.consent, handled[r.since..]);
      && whole.consent == own.consent
      && (r.since + j in whole.granted <==> j in own.granted)
      && (r.since + j in whole.pending <==> j in own.pending)
  {
    assert handled == handled[..r.since] + handled[r.since..];
    ReplayAfter(f, c0, handled[..r.since], handled[r.since..], j);
  }

  // ---- guarantees about the files ----

  lemma RecordOf(c0: Consent, states: seq<State>, steps: seq<Step>, fs: seq<Files>, i: nat, f: FeatureId)
    requires IsRunWithFiles(c0, states, steps, fs) && i < |states| && f in fs[i]
    ensures
      var st := states[i].storage;
      && RecordInv(c0, f, fs[i][f], st.handled)
      && f in st.writers && st.writers[f] == Replay(f, c0, st.handled)
      && (Items(st.queue) == [] ==> st.history == st.handled)
  {
    WritersMakeRuns(c0, states, steps, fs, i);
    InvHolds(c0, states, steps, i);
    StorageOf(c0, states[i]);
  }

  lemma StorageOf(c0: Consent, s: State)
    requires Inv(c0, s)
    ensures WritersReplay(c0, s.storage)
    ensures Items(s.storage.queue) == [] ==> s.storage.history == s.storage.handled
  {
  }

  /** Every revocation of consent handled so far could delete the pending files of this feature. */
  ghost predicate RevocationsSucceed(r: Record, handled: History) {
    && r.since <= |handled| && |r.turns| == |handled| - r.since
    && ConsentSafety.RevocationsSucceed(r.init.consent, handled[r.since..], r.turns)
  }

  lemma RefusedSince(c0: Consent, f: FeatureId, r: Record, handled: History, j: nat)
    requires RecordInv(c0, f, r, handled)
    ensures Refused(c0, handled, r.since + j) <==> Refused(r.init.consent, handled[r.since..], j)
  {
    if j < |handled| - r.since {
      ConsentAfterMore(c0, handled[..r.since], handled[r.since..][..j]);
      assert handled[..r.since] + handled[r.since..][..j] == handled[..r.since + j];
    }
  }

  /** In every interleaving, and whatever fails except a revocation: the granted directory of a
      feature holds nothing but events that the messages handled so far entitle it to, and an event
      handled under refused consent is nowhere on disk. */
  lemma FilesStayWithinConsent(c0: Consent, states: seq<State>, steps: seq<Step>, fs: seq<Files>, i: nat, f: FeatureId)
    requires IsRunWithFiles(c0, states, steps, fs) && i < |states| && f in fs[i]
    requires RevocationsSucceed(fs[i][f], states[i].storage.handled)
    ensures
      var r, st := fs[i][f], states[i].storage;
      && f in st.writers && Now(r).consent == st.writers[f].consent
      && (forall j :: Holds(Now(r).granted, Handled(j)) ==> r.since + j in st.writers[f].granted)
      && (forall j: nat | Refused(c0, st.handled, r.since + j) ::
        !Holds(Now(r).granted, Handled(j)) && !Holds(Now(r).pending, Handled(j)))
  {
    RecordOf(c0, states, steps, fs, i, f);
    RecordStaysWithinConsent(c0, f, fs[i][f], states[i].storage.handled);
  }

  lemma RecordStaysWithinConsent(c0: Consent, f: FeatureId, r: Record, handled: History)
    requires RecordInv(c0, f, r, handled) && RevocationsSucceed(r, handled)
    ensures Now(r).consent == Replay(f, c0, handled).consent
    ensures forall j :: Holds(Now(r).granted, Handled(j)) ==> r.since + j in Replay(f, c0, handled).granted
    ensures forall j: nat | Refused(c0, handled, r.since + j) ::
      !Holds(Now(r).granted, Handled(j)) && !Holds(Now(r).pending, Handled(j))
  {
    var own := handled[r.since..];
    ConsentSafety.ConsentSafety(r.cfg, f, r.init, own, r.turns);
    ReplayDescribes(r.init.consent, f, own);
    forall j
      ensures r.since + j in Replay(f, c0, handled).granted <==> j in Replay(f, r.init.consent, own).granted
      ensures Refused(c0, handled, r.since + j) <==> Refused(r.init.consent, own, j)
    {
      LedgerOf(c0, f, r, handled, j);
      RefusedSince(c0, f, r, handled, j);
    }
    LedgerOf(c0, f, r, handled, 0);
  }

  ghost predicate Undisturbed(r: Record, handled: History) {
    && r.since <= |handled| && |r.turns| == |handled| - r.since
    && ConsentSafety.UndisturbedRun(r.cfg, r.init, handled[r.since..], r.turns)
  }

  /** The directories hold the events of the ledger, no more and no less. */
  ghost predicate Matches(r: Record, l: Ledger) {
    && Now(r).consent == l.consent
    && (forall j :: Holds(Now(r).granted, Handled(j)) <==> r.since + j in l.granted)
    && (forall j :: Holds(Now(r).pending, Handled(j)) <==> r.since + j in l.pending)
  }

  /** Asynchronous handling refines synchronous handling on disk: once the queue is empty, the
      directories of an undisturbed writer hold exactly what handling every message at the moment
      it was accepted would have put there. */
  lemma AsyncFilesMatchSync(c0: Consent, states: seq<State>, steps: seq<Step>, fs: seq<Files>, i: nat, f: FeatureId)
    requires IsRunWithFiles(c0, states, steps, fs) && i < |states| && f in fs[i]
    requires Items(states[i].storage.queue) == [] && Undisturbed(fs[i][f], states[i].storage.handled)
    ensures Matches(fs[i][f], Replay(f, c0, states[i].storage.history))
  {
    RecordOf(c0, states, steps, fs, i, f);
    assert states[i].storage.history == states[i].storage.handled;
    RecordMatchesReplay(c0, f, fs[i][f], states[i].storage.handled);
  }

  lemma RecordMatchesReplay(c0: Consent, f: FeatureId, r: Record, handled: History)
    requires RecordInv(c0, f, r, handled) && Undisturbed(r, handled)
    ensures Matches(r, Replay(f, c0, handled))
  {
    ConsentSafety.UndisturbedRunMirrors(r.cfg, f, r.init, handled[r.since..], r.turns);
    LedgerOf(c0, f, r, handled, 0);
    forall j
      ensures Holds(Now(r).granted, Handled(j)) <==> r.since + j in Replay(f, c0, handled).granted
      ensures Holds(Now(r).pending, Handled(j)) <==> r.since + j in Replay(f, c0, handled).pending
    {
      LedgerOf(c0, f, r, handled, j);
    }
  }
}

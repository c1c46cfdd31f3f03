/** What the pipeline promises over whole runs. */
module PipelineGuarantees {
  import opened Options
  import opened Consents
  import opened StorageMessages
  import opened Pipeline
  import opened PipelineInvariant

  // ---- what is accepted ----

  ghost predicate Accepted(s: State, call: Call, s': State) {
    match call
    case Post(thunk) => s'.work.posted == s.work.posted + [thunk]
    case Publish(payload) => s'.bus.sent == s.bus.sent + [Published(payload)]
    case Write(f, w, bypass) => s'.storage.history == s.storage.history + [EventGenerated(f, w, bypass)]
  }

  /** Feature code always finds the queue it calls into alive. Every event it writes is
      accepted, on whichever thread and at whatever stage of startup or shutdown it runs; a
      thunk is accepted exactly until Stop is called, and a message exactly until the context
      thread has been joined, so a thunk never loses a message it publishes. */
  lemma CallsAreAccepted(c0: Consent, states: seq<State>, steps: seq<Step>, i: nat, actor: Actor, call: Call)
    requires IsRun(c0, states, steps) && i < |steps| && steps[i] == Calling(actor, call)
    ensures
      var s := states[i];
      && s.work.queue.Some? && s.bus.queue.Some? && s.storage.queue.Some?
      && (call.Write? ==> Accepted(s, call, states[i + 1]))
      && (call.Post? ==> (Accepted(s, call, states[i + 1]) <==> Rank(s.main) < Rank(ContextStopped)))
      && (call.Publish? ==> (Accepted(s, call, states[i + 1]) <==> Rank(s.main) < Rank(BusStopped)))
      && (actor == ContextActor && call.Publish? ==> Accepted(s, call, states[i + 1]))
  {
    InvHolds(c0, states, steps, i);
    assert Enabled(states[i], steps[i]);
    ActorsAreUp(states[i], actor);
  }

  /** What the context thread sends on its own account, context snapshots, is accepted too. */
  lemma SnapshotsAreAccepted(c0: Consent, states: seq<State>, steps: seq<Step>, i: nat)
    requires IsRun(c0, states, steps) && i < |steps| && steps[i] == OfContext(SendSnapshot)
    ensures states[i].work.thread.Sending?
    ensures states[i + 1].bus.sent == states[i].bus.sent + [ContextChanged(states[i].work.thread.snapshot)]
  {
    InvHolds(c0, states, steps, i);
    assert Enabled(states[i], steps[i]);
  }

  // ---- shutdown ----

  /** When Stop is about to destroy the context queue and the bus, every thunk accepted in the
      session has run to its end and every handler has seen every message accepted, in order. */
  lemma WorkIsDoneBeforeRelease(c0: Consent, states: seq<State>, steps: seq<Step>, i: nat)
    requires IsRun(c0, states, steps) && i < |states|
    requires states[i].main.BusJoined? || states[i].main.Stopping?
    ensures states[i].work.begun == states[i].work.posted && states[i].work.thread.NoContext?
    ensures forall k | 0 <= k < |states[i].bus.delivered| :: states[i].bus.delivered[k] == states[i].bus.sent
  {
    InvHolds(c0, states, steps, i);
    WorkIsDone(states[i]);
  }

  lemma WorkIsDone(s: State)
    requires Lifetimes(s) && NothingLost(s) && (s.main.BusJoined? || s.main.Stopping?)
    ensures s.work.begun == s.work.posted && s.work.thread.NoContext?
    ensures forall k | 0 <= k < |s.bus.delivered| :: s.bus.delivered[k] == s.bus.sent
  {
  }

  /** When Stop is about to destroy the storage queue, every event and consent change ever
      accepted has been handled, in order. */
  lemma StorageIsDrainedBeforeRelease(c0: Consent, states: seq<State>, steps: seq<Step>, i: nat)
    requires IsRun(c0, states, steps) && i < |states|
    requires states[i].main.StorageJoined? || states[i].main.Idle?
    ensures states[i].storage.handled == states[i].storage.history
    ensures states[i].work.begun == states[i].work.posted
  {
    InvHolds(c0, states, steps, i);
    DrainedState(states[i]);
  }

  lemma DrainedState(s: State)
    requires Lifetimes(s) && NothingLost(s) && (s.main.StorageJoined? || s.main.Idle?)
    ensures s.storage.handled == s.storage.history && s.work.begun == s.work.posted
  {
  }

  /** A step that is neither an API call nor a call by feature code. */
  predicate Internal(step: Step) {
    !step.OfMain? && !step.Calling?
  }

  function StorageStepOf(st: Storage): StorageStep {
    if HasItem(st.queue) then TakeMessage else ExitStorage
  }

  function BusStepOf(b: Bus): MessagingStep {
    if b.thread.Delivering? then if b.thread.next < |b.delivered| then Deliver else FinishDelivery
    else if HasItem(b.queue) then TakeNotice
    else ExitMessaging
  }

  function ContextStepOf(s: State): ContextStep {
    match s.work.thread
    case Updating(_) => Mutate
    case Sending(_) => SendSnapshot
    case Executing(_) => FinishExecute
    case _ => if HasItem(s.work.queue) then TakeThunk else ExitContext
  }

  /** A consumer can go on unless it has exited or waits for a queue that is empty and open. */
  lemma ConsumersGoOn(s: State)
    requires Lifetimes(s)
    ensures 7 <= Rank(s.main) <= 12 && !s.work.thread.ContextExited? ==>
      ContextEnabled(s, ContextStepOf(s)) || (Items(s.work.queue) == [] && Rank(s.main) < 12)
    ensures 9 <= Rank(s.main) <= 14 && !s.bus.thread.MessagingExited? ==>
      MessagingEnabled(s.bus, BusStepOf(s.bus)) || (Items(s.bus.queue) == [] && Rank(s.main) < 14)
    ensures 2 <= Rank(s.main) <= 18 && !s.storage.thread.StorageExited? ==>
      StorageEnabled(s.storage, StorageStepOf(s.storage)) || (Items(s.storage.queue) == [] && Rank(s.main) < 18)
    ensures s.main.Running? ==>
      !s.work.thread.ContextExited? && !s.bus.thread.MessagingExited? && !s.storage.thread.StorageExited?
  {
  }

  /** No deadlock between the threads: while Start or Stop is under way, or work is queued,
      some thread can take a step of its own. */
  lemma NeverStuck(c0: Consent, states: seq<State>, steps: seq<Step>, i: nat) returns (step: Step)
    requires IsRun(c0, states, steps) && i < |states|
    requires !states[i].main.Idle? && !states[i].main.StorageUp?
    ensures
      || (Internal(step) && Enabled(states[i], step))
      || (&& states[i].main.Running?
          && Items(states[i].work.queue) == [] && Items(states[i].bus.queue) == []
          && Items(states[i].storage.queue) == [])
  {
    InvHolds(c0, states, steps, i);
    step := StepOf(states[i]);
    SomeStepIsEnabled(states[i]);
  }

  lemma SomeStepIsEnabled(s: State)
    requires Lifetimes(s) && !s.main.Idle? && !s.main.StorageUp?
    ensures
      || Enabled(s, StepOf(s))
      || (s.main.Running? && Items(s.work.queue) == [] && Items(s.bus.queue) == [] && Items(s.storage.queue) == [])
  {
    ConsumersGoOn(s);
  }

  function StepOf(s: State): Step {
    if CanProceed(s) then Proceeding
    else if s.main.ContextStopped? || (s.main.Running? && ContextEnabled(s, ContextStepOf(s))) then
      OfContext(ContextStepOf(s))
    else if s.main.BusStopped? || (s.main.Running? && MessagingEnabled(s.bus, BusStepOf(s.bus))) then
      OfMessaging(BusStepOf(s.bus))
    else OfStorage(StorageStepOf(s.storage))
  }

  // ---- the context log ----

  /** When the messaging thread is joined, all handlers have seen the same messages. The first
      is the context the session began with, which carries no feature state of an earlier
      session; the contexts among them are the provider's successive states, one for each
      update posted, in the order of posting; the last is the provider's state now. */
  lemma ContextLogIsFaithful(c0: Consent, states: seq<State>, steps: seq<Step>, i: nat, k: nat)
    requires IsRun(c0, states, steps) && i < |states| && states[i].main.BusJoined?
    requires k < |states[i].bus.delivered|
    ensures
      var p, log := states[i].provider, states[i].bus.delivered[k];
      && log != [] && log[0] == ContextChanged(p.base) && p.base.rum == None
      && Contexts(log) == Snapshots(p.base, states[i].work.posted)
      && Contexts(log) != [] && Contexts(log)[|Contexts(log)| - 1] == p.context
  {
    InvHolds(c0, states, steps, i);
    WorkIsDoneBeforeRelease(c0, states, steps, i);
    SentContextsAtJoin(states[i]);
  }

  lemma SentContextsAtJoin(s: State)
    requires ContextKept(s) && s.main.BusJoined? && s.work.thread.NoContext?
    ensures s.bus.sent != [] && s.bus.sent[0] == ContextChanged(s.provider.base) && s.provider.base.rum == None
    ensures Contexts(s.bus.sent) == s.provider.updates == Snapshots(s.provider.base, s.work.begun)
    ensures s.provider.updates[|s.provider.updates| - 1] == s.provider.context
  {
  }

  // ---- asynchronous handling refines synchronous handling ----

  function ApplyAll(f: FeatureId, l: Ledger, at: nat, log: History): Ledger
    decreases |log|
  {
    if log == [] then l else ApplyAll(f, Apply(f, l, at, log[0]), at + 1, log[1..])
  }

  lemma {:induction false} ApplyAllContinuesReplay(f: FeatureId, c0: Consent, handled: History, rest: History)
    ensures ApplyAll(f, Replay(f, c0, handled), |handled|, rest) == Replay(f, c0, handled + rest)
    decreases |rest|
  {
    if rest == [] {
      assert handled + rest == handled;
    } else {
      assert (handled + [rest[0]])[..|handled|] == handled;
      ApplyAllContinuesReplay(f, c0, handled + [rest[0]], rest[1..]);
      assert handled + [rest[0]] + rest[1..] == handled + rest;
    }
  }

  /** At any moment of any interleaving, handling what is still queued would give every feature
      what it would have had if each message had been handled the moment it was accepted. */
  lemma AsyncRefinesSync(c0: Consent, states: seq<State>, steps: seq<Step>, i: nat, f: FeatureId)
    requires IsRun(c0, states, steps) && i < |states| && f in states[i].storage.writers
    ensures
      var st := states[i].storage;
      && ApplyAll(f, st.writers[f], |st.handled|, Items(st.queue)) == Replay(f, c0, st.history)
      && (Items(st.queue) == [] ==> st.writers[f] == Replay(f, c0, st.history))
      && (Items(st.queue) == [] ==> Describes(c0, f, st.history, st.writers[f]))
  {
    InvHolds(c0, states, steps, i);
    var st := states[i].storage;
    ApplyAllContinuesReplay(f, c0, st.handled, Items(st.queue));
    ReplayDescribes(c0, f, st.history);
  }

  // ---- consent ----

  /** Once a writer has caught up with the consent changes queued for it, it has the consent
      the core was last told, except between the two halves of SetTrackingConsent; so all
      writers agree with the core whenever it is stopped. */
  lemma ConsentIsCoherent(c0: Consent, states: seq<State>, steps: seq<Step>, i: nat, f: FeatureId)
    requires IsRun(c0, states, steps) && i < |states| && f in states[i].storage.writers
    ensures
      var s := states[i];
      && (!s.main.ConsentStored? ==>
        ConsentAfter(s.storage.writers[f].consent, Items(s.storage.queue)) == s.tracking)
      && (s.main.Idle? ==> s.storage.writers[f].consent == s.tracking)
  {
    InvHolds(c0, states, steps, i);
    var st := states[i].storage;
    ReplayDescribes(c0, f, st.handled);
    ConsentAfterMore(c0, st.handled, Items(st.queue));
  }

  /** In between, the writers are exactly one change behind, and it is the next one queued. */
  lemma ConsentChangeCompletes(c0: Consent, states: seq<State>, steps: seq<Step>, i: nat, f: FeatureId)
    requires IsRun(c0, states, steps) && i < |steps| && f in states[i].storage.writers
    requires states[i].main.ConsentStored? && steps[i] == Proceeding
    ensures
      var st, st' := states[i].storage, states[i + 1].storage;
      && Items(st'.queue) == Items(st.queue) + [TrackingConsentChanged(states[i].tracking)]
      && ConsentAfter(st'.writers[f].consent, Items(st'.queue)) == states[i].tracking
  {
    InvHolds(c0, states, steps, i);
    assert Enabled(states[i], steps[i]);
    InvHolds(c0, states, steps, i + 1);
    ConsentIsCoherent(c0, states, steps, i + 1, f);
  }

  // ---- consent as the context shows it ----

  /** Feature code updates the context without touching the consent in it. */
  ghost predicate LeavesConsentAlone(callback: Context -> Context) {
    forall c :: callback(c).consent == c.consent
  }

  ghost predicate Courteous(step: Step) {
    && (step.OfMain? && step.m.UpdateDirectly? ==> LeavesConsentAlone(step.m.update))
    && (step.Calling? && step.call.Post? && step.call.thunk.UpdateContext? ==>
          LeavesConsentAlone(step.call.thunk.callback))
  }

  /** Context updates begun but not made yet, and those still queued. */
  function Outstanding(w: Work): seq<Thunk> {
    (if w.thread.Updating? then [UpdateContext(w.thread.callback)] else []) + Items(w.queue)
  }

  ghost predicate ContextShowsConsent(s: State) {
    s.main.ConsentStored? || s.main.ConsentQueued? ||
    ContextAfter(s.provider.context, Outstanding(s.work)).consent == s.tracking
  }

  lemma PostShowsConsent(c: Context, w: Work, thunk: Thunk)
    ensures
      var before, c' := ContextAfter(c, Outstanding(w)), ContextAfter(c, Outstanding(PostThunk(w, thunk)));
      c' == if PushTo(w.queue, thunk).1 then Effect(thunk, before) else before
  {
    if PushTo(w.queue, thunk).1 {
      ContextAfterAppended(c, Outstanding(w), thunk);
      assert Outstanding(PostThunk(w, thunk)) == Outstanding(w) + [thunk];
    }
  }

  lemma ProceedShowsConsent(s: State)
    requires Lifetimes(s) && ContextShowsConsent(s) && CanProceed(s)
    ensures ContextShowsConsent(Proceed(s))
  {
    if s.main.ConsentQueued? {
      PostShowsConsent(s.provider.context, s.work, UpdateContext(ConsentUpdate(s.tracking)));
    } else {
      assert Outstanding(Proceed(s).work) == Outstanding(s.work);
    }
  }

  lemma ContextThreadShowsConsent(s: State, step: ContextStep)
    requires ContextShowsConsent(s) && ContextEnabled(s, step)
    ensures ContextShowsConsent(ContextNext(s, step))
  {
    var w, w' := s.work, ContextNext(s, step).work;
    if step.TakeThunk? && w.queue.value.items[0].UpdateContext? {
      assert Outstanding(w') == Outstanding(w);
    } else if step.TakeThunk? || step.Mutate? {
      assert Outstanding(w)[1..] == Outstanding(w');
    } else {
      assert Outstanding(w') == Outstanding(w);
    }
  }

  lemma StepShowsConsent(s: State, step: Step)
    requires Lifetimes(s) && ContextShowsConsent(s) && Enabled(s, step) && Courteous(step)
    ensures ContextShowsConsent(Next(s, step))
  {
    match step
    case OfMain(m) =>
      assert s.main.Idle? ==> Outstanding(s.work) == [];
    case Proceeding => ProceedShowsConsent(s);
    case Calling(_, call) =>
      if call.Post? {
        PostShowsConsent(s.provider.context, s.work, call.thunk);
      }
    case OfContext(c) => ContextThreadShowsConsent(s, c);
    case _ =>
  }

  /** What the main thread's calls do to the context. Stopped, at once: a consent change replaces
      the consent alone, an update is made, and Start takes away feature state alone. Running, the
      consent change is posted as an update that replaces the consent of whatever context it finds. */
  lemma MainThreadUpdates(c0: Consent, states: seq<State>, steps: seq<Step>, i: nat)
    requires IsRun(c0, states, steps) && i < |steps|
    ensures
      var c, c' := states[i].provider.context, states[i + 1].provider.context;
      var w, w' := states[i].work, states[i + 1].work;
      && (states[i].main.Idle? && steps[i].OfMain? ==>
        match steps[i].m
        case SetTrackingConsent(v) => c' == Context(c.rum, v, c.other)
        case UpdateDirectly(f) => c' == f(c)
        case BeginStart => c' == Context(None, c.consent, c.other)
        case _ => c' == c)
      && (states[i].main.ConsentQueued? && steps[i] == Proceeding ==>
        && c' == c && |w'.posted| == |w.posted| + 1 && w'.posted[..|w.posted|] == w.posted
        && w'.posted[|w.posted|].UpdateContext?
        && forall d :: w'.posted[|w.posted|].callback(d) == Context(d.rum, states[i].tracking, d.other))
  {
    InvHolds(c0, states, steps, i);
    assert Enabled(states[i], steps[i]);
    if states[i].main.ConsentQueued? && steps[i] == Proceeding {
      assert states[i + 1].work.posted == states[i].work.posted + [UpdateContext(ConsentUpdate(states[i].tracking))];
    }
  }

  /** Features that watch the context learn the consent: once the outstanding updates are made,
      the context shows the consent the core was last told; stopped, it shows it at once. */
  lemma {:induction false} ContextTellsConsent(c0: Consent, states: seq<State>, steps: seq<Step>, i: nat)
    requires IsRun(c0, states, steps) && i < |states| && states[0].provider.context.consent == c0
    requires forall k | 0 <= k < |steps| :: Courteous(steps[k])
    ensures ContextShowsConsent(states[i])
    ensures states[i].main.Idle? ==> states[i].provider.context.consent == states[i].tracking
  {
    InvHolds(c0, states, steps, i);
    if i > 0 {
      ContextTellsConsent(c0, states, steps, i - 1);
      InvHolds(c0, states, steps, i - 1);
      assert Enabled(states[i - 1], steps[i - 1]);
      StepShowsConsent(states[i - 1], steps[i - 1]);
    }
    assert states[i].main.Idle? ==> Outstanding(states[i].work) == [];
  }
}

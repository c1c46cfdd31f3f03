/** The storage thread (storage_thread.cpp): it takes one message after another and lets the
    writers of all registered features act on it. */
module StorageThread {
  import opened Consents
  import opened Directories
  import opened Filenames
  import opened FeatureEventStorages
  import opened BatchWriters
  import opened StorageMessages
  import opened WriterRuns

  /** `since` counts the messages handled before the feature was registered. */
  datatype RegisteredFeature = RegisteredFeature(id: FeatureId, name: string, since: nat, writer: BatchWriter)

  ghost function Footprint(w: BatchWriter): set<object> {
    {w, w.activePending, w.activeGranted, w.storage.pending, w.storage.granted}
  }

  /** Writers share no files and no objects; no feature is registered twice. */
  ghost predicate Separate(features: seq<RegisteredFeature>) {
    forall i, j | 0 <= i < j < |features| ::
      Footprint(features[i].writer) !! Footprint(features[j].writer) && features[i].id != features[j].id
  }

  /** `repr` holds all objects of the writers; `count` messages have been handled so far. */
  ghost predicate Ready(features: seq<RegisteredFeature>, count: nat, repr: set<object>) {
    && Separate(features)
    && forall k | 0 <= k < |features| ::
      features[k].writer.Valid() && Footprint(features[k].writer) <= repr && features[k].since <= count
  }

  ghost predicate Current(features: seq<RegisteredFeature>, count: nat, repr: set<object>, states: seq<Writer>)
    requires Ready(features, count, repr)
    reads repr
  {
    |states| == |features| && forall k | 0 <= k < |features| :: features[k].writer.State() == states[k]
  }

  /** One feature's part in handling the message at position `i`; other threads may have removed
      files meanwhile. */
  ghost predicate TakesTurn(f: RegisteredFeature, i: nat, m: Message, before: Writer, t: Turn) {
    && Evicted(before, t.start)
    && f.since <= i && Handles(f.writer.cfg, f.id, i - f.since, m, t)
  }

  /** What one message does to every feature. */
  ghost predicate HandledByAll(features: seq<RegisteredFeature>, i: nat, m: Message, before: seq<Writer>,
                               turns: seq<Turn>)
  {
    && |turns| == |before| == |features|
    && forall k | 0 <= k < |features| :: TakesTurn(features[k], i, m, before[k], turns[k])
  }

  function Ends(turns: seq<Turn>): (r: seq<Writer>)
    ensures |r| == |turns| && forall k | 0 <= k < |turns| :: r[k] == turns[k].end
  {
    if turns == [] then [] else Ends(turns[..|turns| - 1]) + [turns[|turns| - 1].end]
  }

  // ---- one writer ----

  /** What happens to a writer's directories between two messages: other threads remove files,
      and the calls that will fail next are others. */
  method OthersAct(w: BatchWriter)
    requires w.Valid()
    modifies w.storage.pending, w.storage.granted
    ensures Evicted(old(w.State()), w.State())
  {
    var p: set<Name>, g: set<Name> := *, *;
    w.storage.pending.files := w.storage.pending.files - p;
    w.storage.granted.files := w.storage.granted.files - g;
    w.storage.pending.platform := *;
    w.storage.granted.platform := *;
  }

  method ConsentTurn(f: RegisteredFeature, value: Consent, i: nat) returns (ghost turn: Turn)
    requires f.writer.Valid() && f.since <= i
    modifies Footprint(f.writer)
    ensures TakesTurn(f, i, TrackingConsentChanged(value), old(f.writer.State()), turn) && f.writer.State() == turn.end
  {
    OthersAct(f.writer);
    ghost var start := f.writer.State();
    var ok := f.writer.SetTrackingConsent(value);
    turn := Turn(start, 0, f.writer.storage.Environment(), f.writer.State(), ok);
  }

  method WriteTurn(f: RegisteredFeature, m: Message, i: nat, now: int) returns (ghost turn: Turn)
    requires f.writer.Valid() && f.since <= i && m.EventGenerated? && m.feature == f.id && m.write.event != []
    modifies Footprint(f.writer)
    ensures TakesTurn(f, i, m, old(f.writer.State()), turn) && f.writer.State() == turn.end
  {
    OthersAct(f.writer);
    ghost var start := f.writer.State();
    var ok := f.writer.HandleWrite(m.write, Handled(i - f.since), m.bypass, now);
    turn := Turn(start, now, f.writer.storage.Environment(), f.writer.State(), ok);
  }

  /** One feature's writer changes, the others stay as they are. */
  method SetTrackingConsentOf(features: seq<RegisteredFeature>, k: nat, value: Consent, i: nat,
      ghost before: seq<Writer>, ghost repr: set<object>)
    returns (ghost turn: Turn)
    requires Ready(features, i, repr) && Current(features, i, repr, before) && k < |features|
    modifies repr
    ensures Current(features, i, repr, before[k := turn.end])
    ensures TakesTurn(features[k], i, TrackingConsentChanged(value), before[k], turn)
  {
    assert forall l | 0 <= l < |features| && l != k :: Footprint(features[l].writer) !! Footprint(features[k].writer);
    turn := ConsentTurn(features[k], value, i);
  }

  method HandleWriteOf(features: seq<RegisteredFeature>, k: nat, m: Message, i: nat, now: int,
      ghost before: seq<Writer>, ghost repr: set<object>)
    returns (ghost turn: Turn)
    requires Ready(features, i, repr) && Current(features, i, repr, before) && k < |features|
    requires m.EventGenerated? && m.feature == features[k].id && m.write.event != []
    modifies repr
    ensures Current(features, i, repr, before[k := turn.end])
    ensures TakesTurn(features[k], i, m, before[k], turn)
  {
    assert forall l | 0 <= l < |features| && l != k :: Footprint(features[l].writer) !! Footprint(features[k].writer);
    turn := WriteTurn(features[k], m, i, now);
  }

  // ---- one message ----

  method HandleTrackingConsentChanged(features: seq<RegisteredFeature>, i: nat, value: Consent,
      ghost before: seq<Writer>, ghost repr: set<object>)
    returns (ghost turns: seq<Turn>)
    requires Ready(features, i, repr) && Current(features, i, repr, before)
    modifies repr
    ensures HandledByAll(features, i, TrackingConsentChanged(value), before, turns)
    ensures Current(features, i, repr, Ends(turns))
  {
    turns := [];
    ghost var states := before;
    var k := 0;
    while k < |features|
      invariant 0 <= k <= |features|
      invariant Current(features, i, repr, states)
      invariant ChangedUpTo(features, i, value, before, k, turns, states)
    {
      ghost var turn := SetTrackingConsentOf(features, k, value, i, states, repr);
      turns, states := turns + [turn], states[k := turn.end];
      k := k + 1;
    }
    assert Ends(turns) == states;
  }

  ghost predicate ChangedUpTo(features: seq<RegisteredFeature>, i: nat, value: Consent, before: seq<Writer>, k: nat,
                              turns: seq<Turn>, states: seq<Writer>)
  {
    && |turns| == k <= |features| == |before| == |states|
    && (forall l | k <= l < |features| :: states[l] == before[l])
    && (forall l | 0 <= l < k :: turns[l].end == states[l])
    && (forall l | 0 <= l < k :: TakesTurn(features[l], i, TrackingConsentChanged(value), before[l], turns[l]))
  }

  /** The first feature with the given id handles the event; without one it is dropped. */
  method HandleEventGenerated(features: seq<RegisteredFeature>, i: nat, m: Message, now: int, ghost before: seq<Writer>,
      ghost repr: set<object>)
    returns (ghost turns: seq<Turn>)
    requires Ready(features, i, repr) && Current(features, i, repr, before) && m.EventGenerated? && m.write.event != []
    modifies repr
    ensures HandledByAll(features, i, m, before, turns)
    ensures Current(features, i, repr, Ends(turns))
  {
    var k := 0;
    while k < |features| && features[k].id != m.feature
      invariant 0 <= k <= |features|
      invariant forall l | 0 <= l < k :: features[l].id != m.feature
    {
      k := k + 1;
    }
    if k == |features| {
      turns := Bystanders(features, i, m, before);
      return;
    }
    ghost var turn := HandleWriteOf(features, k, m, i, now, before, repr);
    turns := WrittenByOne(features, i, m, before, k, turn);
  }

  ghost function Idle(s: Writer): Turn {
    Turn(s, 0, Platforms(Faultless({}), Faultless({})), s, true)
  }

  lemma IdleTurn(f: RegisteredFeature, i: nat, m: Message, s: Writer)
    requires f.since <= i && m.EventGenerated? && m.feature != f.id
    ensures TakesTurn(f, i, m, s, Idle(s))
  {
    StaysPut(s);
  }

  /** Nobody has registered under the event's id. */
  lemma Bystanders(features: seq<RegisteredFeature>, i: nat, m: Message, before: seq<Writer>)
    returns (turns: seq<Turn>)
    requires |before| == |features| && m.EventGenerated? && forall f <- features :: f.id != m.feature && f.since <= i
    ensures HandledByAll(features, i, m, before, turns) && Ends(turns) == before
  {
    turns := seq(|features|, k requires 0 <= k < |features| => Idle(before[k]));
    forall k | 0 <= k < |features|
      ensures TakesTurn(features[k], i, m, before[k], turns[k])
    {
      IdleTurn(features[k], i, m, before[k]);
    }
  }

  lemma WrittenByOne(features: seq<RegisteredFeature>, i: nat, m: Message, before: seq<Writer>, k: nat, turn: Turn)
    returns (turns: seq<Turn>)
    requires |before| == |features| && Separate(features) && k < |features| && forall f <- features :: f.since <= i
    requires m.EventGenerated? && features[k].id == m.feature
    requires TakesTurn(features[k], i, m, before[k], turn)
    ensures HandledByAll(features, i, m, before, turns) && Ends(turns) == before[k := turn.end]
  {
    turns := seq(|features|, l requires 0 <= l < |features| => if l == k then turn else Idle(before[l]));
    forall l | 0 <= l < |features|
      ensures TakesTurn(features[l], i, m, before[l], turns[l])
    {
      if l != k {
        IdleTurn(features[l], i, m, before[l]);
      }
    }
  }

  // ---- all messages of a session ----

  /** Runs of all features over the messages since their registration, ending in the given states. */
  ghost predicate RunsOfAll(features: seq<RegisteredFeature>, init: seq<Writer>, log: History,
                            runs: seq<seq<Turn>>, states: seq<Writer>)
  {
    && |runs| == |init| == |states| == |features|
    && forall k | 0 <= k < |features| :: RunOf(features[k], init[k], log, runs[k], states[k])
  }

  /** The writers are where their runs over the messages handled so far have brought them. */
  ghost predicate Following(features: seq<RegisteredFeature>, count: nat, repr: set<object>, log: History,
                            init: seq<Writer>, runs: seq<seq<Turn>>, states: seq<Writer>)
    reads repr
  {
    && Ready(features, count, repr) && Current(features, count, repr, states)
    && |log| == count && RunsOfAll(features, init, log, runs, states)
  }

  /** A new feature begins its run. */
  lemma OneMoreFollows(features: seq<RegisteredFeature>, count: nat, repr: set<object>, log: History,
                       init: seq<Writer>, runs: seq<seq<Turn>>, states: seq<Writer>, f: RegisteredFeature)
    requires Following(features, count, repr, log, init, runs, states) && f.since == count && f.writer.Valid()
    requires Footprint(f.writer) !! repr && forall g <- features :: g.id != f.id
    ensures
      var s := f.writer.State();
      Following(features + [f], count, repr + Footprint(f.writer), log, init + [s], runs + [[]], states + [s])
  {
    assert RunOf(f, f.writer.State(), log, [], f.writer.State());
    forall k | 0 <= k < |features|
      ensures Footprint(features[k].writer) !! Footprint(f.writer)
    {
      assert Footprint(features[k].writer) <= repr;
    }
  }

  /** Every run goes on from where it was. */
  ghost predicate Continued(past: seq<seq<Turn>>, runs: seq<seq<Turn>>) {
    |past| == |runs| && forall k | 0 <= k < |past| :: past[k] <= runs[k]
  }

  lemma ContinuedFurther(a: seq<seq<Turn>>, b: seq<seq<Turn>>, c: seq<seq<Turn>>)
    requires Continued(a, b) && Continued(b, c)
    ensures Continued(a, c)
  {
    forall k | 0 <= k < |a|
      ensures a[k] <= c[k]
    {
      assert a[k] <= b[k] && b[k] <= c[k];
    }
  }

  ghost predicate RunOf(f: RegisteredFeature, init: Writer, log: History, run: seq<Turn>, state: Writer) {
    && f.since <= |log|
    && IsRun(f.writer.cfg, f.id, init, log[f.since..], run)
    && StateAfter(init, run) == state
  }

  lemma RunsExtend(features: seq<RegisteredFeature>, init: seq<Writer>, log: History, runs: seq<seq<Turn>>,
                   states: seq<Writer>, m: Message, turns: seq<Turn>)
    returns (runs': seq<seq<Turn>>)
    requires RunsOfAll(features, init, log, runs, states)
    requires HandledByAll(features, |log|, m, states, turns)
    ensures RunsOfAll(features, init, log + [m], runs', Ends(turns)) && Continued(runs, runs')
  {
    runs' := seq(|features|, k requires 0 <= k < |features| => runs[k] + [turns[k]]);
    forall k | 0 <= k < |features|
      ensures RunOf(features[k], init[k], log + [m], runs'[k], turns[k].end)
    {
      OneRunExtends(features[k], init[k], log, runs[k], states[k], m, turns[k]);
    }
  }

  lemma OneRunExtends(f: RegisteredFeature, init: Writer, log: History, run: seq<Turn>, state: Writer, m: Message,
                      t: Turn)
    requires RunOf(f, init, log, run, state) && TakesTurn(f, |log|, m, state, t)
    ensures RunOf(f, init, log + [m], run + [t], t.end)
  {
    RunExtends(f.writer.cfg, f.id, init, log[f.since..], run, m, t);
    assert (log + [m])[f.since..] == log[f.since..] + [m];
  }

  /** All writers will have the same consent once they have handled what is queued. */
  ghost predicate Agreed(states: seq<Writer>, queued: History, value: Consent) {
    forall k | 0 <= k < |states| :: ConsentAfter(states[k].consent, queued) == value
  }

  lemma AllAgree(features: seq<RegisteredFeature>, i: nat, before: seq<Writer>, turns: seq<Turn>, value: Consent)
    requires HandledByAll(features, i, TrackingConsentChanged(value), before, turns)
    ensures Agreed(Ends(turns), [], value)
  {
    forall k | 0 <= k < |turns|
      ensures turns[k].end.consent == value
    {
      assert TakesTurn(features[k], i, TrackingConsentChanged(value), before[k], turns[k]);
    }
  }

  /** Every writer's consent is what the messages have made of it. */
  ghost predicate Settled(before: seq<Writer>, queued: History, states: seq<Writer>) {
    && |states| == |before|
    && forall k | 0 <= k < |states| :: states[k].consent == ConsentAfter(before[k].consent, queued)
  }

  lemma AgreedOnceSettled(before: seq<Writer>, queued: History, states: seq<Writer>, value: Consent)
    requires Agreed(before, queued, value) && Settled(before, queued, states)
    ensures Agreed(states, [], value)
  {
  }

  lemma {:induction false} ConsentOfRun(cfg: Config, f: FeatureId, init: Writer, log: History, turns: seq<Turn>)
    requires IsRun(cfg, f, init, log, turns)
    ensures StateAfter(init, turns).consent == ConsentAfter(init.consent, log)
  {
    if log != [] {
      ConsentOfRun(cfg, f, init, log[..|log| - 1], turns[..|log| - 1]);
    }
  }

  lemma SettledWhenHandled(features: seq<RegisteredFeature>, init: seq<Writer>, log: History, past: seq<seq<Turn>>,
                          before: seq<Writer>, queued: History, runs: seq<seq<Turn>>, states: seq<Writer>)
    requires RunsOfAll(features, init, log, past, before) && RunsOfAll(features, init, log + queued, runs, states)
    ensures Settled(before, queued, states)
  {
    forall k | 0 <= k < |states|
      ensures states[k].consent == ConsentAfter(before[k].consent, queued)
    {
      var f := features[k];
      assert RunOf(f, init[k], log, past[k], before[k]);
      assert RunOf(f, init[k], log + queued, runs[k], states[k]);
      ConsentOfRun(f.writer.cfg, f.id, init[k], log[f.since..], past[k]);
      ConsentOfRun(f.writer.cfg, f.id, init[k], (log + queued)[f.since..], runs[k]);
      assert (log + queued)[f.since..] == log[f.since..] + queued;
      ConsentAfterMore(init[k].consent, log[f.since..], queued);
    }
  }

  /** A change of consent as part of the features' runs, after which all agree. */
  method TellAll(features: seq<RegisteredFeature>, count: nat, value: Consent, ghost log: History,
      ghost init: seq<Writer>, ghost past: seq<seq<Turn>>, ghost before: seq<Writer>, ghost repr: set<object>)
    returns (ghost runs: seq<seq<Turn>>, ghost states: seq<Writer>)
    requires Following(features, count, repr, log, init, past, before)
    modifies repr
    ensures Following(features, count + 1, repr, log + [TrackingConsentChanged(value)], init, runs, states)
    ensures Continued(past, runs) && Agreed(states, [], value)
  {
    ghost var turns := HandleTrackingConsentChanged(features, count, value, before, repr);
    runs := RunsExtend(features, init, log, past, before, TrackingConsentChanged(value), turns);
    states := Ends(turns);
    AllAgree(features, count, before, turns, value);
  }

  method HandleMessage(m: Message, features: seq<RegisteredFeature>, i: nat, ghost before: seq<Writer>,
      ghost repr: set<object>)
    returns (ghost turns: seq<Turn>)
    requires Ready(features, i, repr) && Current(features, i, repr, before)
    requires m.EventGenerated? ==> m.write.event != []
    modifies repr
    ensures HandledByAll(features, i, m, before, turns)
    ensures Current(features, i, repr, Ends(turns))
  {
    match m {
      case TrackingConsentChanged(value) =>
        turns := HandleTrackingConsentChanged(features, i, value, before, repr);
      case EventGenerated(_, _, _) =>
        var now: int := *;
        turns := HandleEventGenerated(features, i, m, now, before, repr);
    }
  }

  /** The message after `log`, as part of the features' runs. */
  method HandleNext(m: Message, features: seq<RegisteredFeature>, count: nat, ghost log: History,
      ghost init: seq<Writer>, ghost past: seq<seq<Turn>>, ghost before: seq<Writer>, ghost repr: set<object>)
    returns (ghost runs: seq<seq<Turn>>, ghost states: seq<Writer>)
    requires Following(features, count, repr, log, init, past, before) && (m.EventGenerated? ==> m.write.event != [])
    modifies repr
    ensures Following(features, count + 1, repr, log + [m], init, runs, states) && Continued(past, runs)
  {
    ghost var turns := HandleMessage(m, features, count, before, repr);
    runs := RunsExtend(features, init, log, past, before, m, turns);
    states := Ends(turns);
  }

  /** Drains a stopped queue. Every feature continues its run, over exactly these messages in this
      order, from where registration or the sessions before this one, with the messages `log`,
      have left it. */
  method StorageThreadMain(queue: seq<Message>, features: seq<RegisteredFeature>, count: nat, ghost log: History,
      ghost init: seq<Writer>, ghost past: seq<seq<Turn>>, ghost before: seq<Writer>, ghost repr: set<object>)
    returns (ghost runs: seq<seq<Turn>>, ghost states: seq<Writer>)
    requires Following(features, count, repr, log, init, past, before)
    requires forall m <- queue :: m.EventGenerated? ==> m.write.event != []
    modifies repr
    ensures Following(features, count + |queue|, repr, log + queue, init, runs, states) && Continued(past, runs)
    ensures Settled(before, queue, states)
  {
    states, runs := before, past;
    ghost var handled := log;
    var i := 0;
    while i < |queue|
      invariant 0 <= i <= |queue| && handled == log + queue[..i]
      invariant Following(features, count + i, repr, handled, init, runs, states) && Continued(past, runs)
    {
      ghost var sofar := runs;
      runs, states := HandleNext(queue[i], features, count + i, handled, init, runs, states, repr);
      ContinuedFurther(past, sofar, runs);
      handled := handled + [queue[i]];
      i := i + 1;
    }
    assert handled == log + queue;
    SettledWhenHandled(features, init, log, past, before, queue, runs, states);
  }
}

/** The core and its helpers as objects (core.cpp, context.cpp, context_thread.cpp,
    messaging_thread.cpp): what each call and each thread's loop does to their fields. How the
    threads interleave is the subject of `Pipeline`, whose functions these methods meet. */
module CoreObjects {
  import opened Options
  import opened Consents
  import opened AtomicQueues
  import opened FeatureEventStorages
  import opened BatchWriters
  import opened StorageMessages
  import opened Pipeline
  import opened PipelineInvariant
  import StorageThread
  import Tlv
  import opened WriterRuns

  class CoreContextProvider {
    var context: Context
    var bus: QueueObject?<Notice>

    constructor (context: Context)
      ensures this.context == context && bus == null
    {
      this.context, bus := context, null;
    }

    ghost function Footprint(): set<object>
      reads this
    {
      if bus == null then {this} else {this, bus}
    }

    /** The notices queued, if a bus is installed. */
    ghost function Sent(): seq<Notice>
      reads Footprint()
    {
      if bus == null then [] else bus.items
    }

    method SetMessageBus(bus: QueueObject?<Notice>)
      modifies this
      ensures this.bus == bus && context == old(context)
    {
      this.bus := bus;
    }

    /** Changes the context and sends the result to the bus, unless there is none or it has
        been stopped. */
    method Update(callback: Context -> Context)
      modifies Footprint()
      ensures bus == old(bus) && context == callback(old(context))
      ensures bus != null ==> Pushed(old(bus.State()), ContextChanged(context), bus.State(), !old(bus.isStopped))
    {
      context := callback(context);
      if bus != null {
        var accepted := bus.Push(ContextChanged(context));
      }
    }
  }

  // ---- what runs on the context thread ----

  function AnnouncedByOne(call: Call): seq<Notice> {
    if call.Publish? then [Published(call.payload)] else []
  }

  function Announced(calls: seq<Call>): seq<Notice>
    decreases |calls|
  {
    if calls == [] then [] else AnnouncedByOne(calls[0]) + Announced(calls[1..])
  }

  function EnqueuedByOne(call: Call): History {
    if call.Write? then [EventGenerated(call.feature, call.write, call.bypass)] else []
  }

  function Enqueued(calls: seq<Call>): History
    decreases |calls|
  {
    if calls == [] then [] else EnqueuedByOne(calls[0]) + Enqueued(calls[1..])
  }

  /** Of a function's calls every publication is announced, in order, and nothing else. */
  lemma {:induction false} PublicationsOneByOne(calls: seq<Call>, call: Call)
    ensures Announced(calls + [call]) == Announced(calls) + if call.Publish? then [Published(call.payload)] else []
    ensures Announced([]) == []
    decreases |calls|
  {
    if calls == [] {
      assert [] + [call] == [call] && Announced([call][1..]) == [];
    } else {
      PublicationsOneByOne(calls[1..], call);
      assert (calls + [call])[1..] == calls[1..] + [call];
      Tlv.ConcatIsAssociative(AnnouncedByOne(calls[0]), Announced(calls[1..]), AnnouncedByOne(call));
    }
  }

  /** And every write is enqueued. */
  lemma {:induction false} WritesOneByOne(calls: seq<Call>, call: Call)
    ensures Enqueued(calls + [call]) ==
      Enqueued(calls) + if call.Write? then [EventGenerated(call.feature, call.write, call.bypass)] else []
    ensures Enqueued([]) == []
    decreases |calls|
  {
    if calls == [] {
      assert [] + [call] == [call] && Enqueued([call][1..]) == [];
    } else {
      WritesOneByOne(calls[1..], call);
      assert (calls + [call])[1..] == calls[1..] + [call];
      Tlv.ConcatIsAssociative(EnqueuedByOne(calls[0]), Enqueued(calls[1..]), EnqueuedByOne(call));
    }
  }

  /** What a thunk sends to the bus; an executed function makes the given calls. */
  function NoticesOfOne(thunk: Thunk, context: Context, calls: seq<Call>): seq<Notice> {
    match thunk
    case UpdateContext(f) => [ContextChanged(f(context))]
    case Execute(_) => Announced(calls)
  }

  function NoticesOf(context: Context, thunks: seq<Thunk>, does: seq<seq<Call>>): seq<Notice>
    requires |does| == |thunks|
  {
    if thunks == [] then []
    else
      var n := |thunks| - 1;
      NoticesOf(context, thunks[..n], does[..n]) + NoticesOfOne(thunks[n], ContextAfter(context, thunks[..n]), does[n])
  }

  function EventsOfOne(thunk: Thunk, calls: seq<Call>): History {
    if thunk.Execute? then Enqueued(calls) else []
  }

  function EventsOf(thunks: seq<Thunk>, does: seq<seq<Call>>): History
    requires |does| == |thunks|
  {
    if thunks == [] then []
    else
      var n := |thunks| - 1;
      EventsOf(thunks[..n], does[..n]) + EventsOfOne(thunks[n], does[n])
  }

  /** Every update sends the context it makes of the one that the thunks before it have left; every
      function executed sends and writes what it calls for. */
  lemma ThunksOneByOne(context: Context, thunks: seq<Thunk>, does: seq<seq<Call>>, last: Thunk, calls: seq<Call>)
    requires |does| == |thunks|
    ensures NoticesOf(context, [], []) == [] && EventsOf([], []) == []
    ensures
      var before, sent := ContextAfter(context, thunks), NoticesOf(context, thunks, does);
      NoticesOf(context, thunks + [last], does + [calls]) ==
      if last.UpdateContext? then sent + [ContextChanged(last.callback(before))] else sent + Announced(calls)
    ensures EventsOf(thunks + [last], does + [calls]) ==
      if last.UpdateContext? then EventsOf(thunks, does) else EventsOf(thunks, does) + Enqueued(calls)
    ensures ContextAfter(context, []) == context
    ensures ContextAfter(context, thunks + [last]) ==
      if last.UpdateContext? then last.callback(ContextAfter(context, thunks)) else ContextAfter(context, thunks)
  {
    ContextAfterAppended(context, thunks, last);
    assert (thunks + [last])[..|thunks|] == thunks && (does + [calls])[..|does|] == does;
  }

  /** The storage thread asserts that events are not empty. */
  predicate Writable(log: History) {
    forall m <- log :: m.EventGenerated? ==> m.write.event != []
  }

  predicate OnlyEvents(log: History) {
    forall m <- log :: m.EventGenerated?
  }

  predicate Sound(calls: seq<Call>) {
    forall i | 0 <= i < |calls| :: calls[i].Write? ==> calls[i].write.event != []
  }

  lemma {:induction false} EnqueuedAreEvents(calls: seq<Call>)
    requires Sound(calls)
    ensures Writable(Enqueued(calls)) && OnlyEvents(Enqueued(calls))
    decreases |calls|
  {
    if calls != [] {
      EnqueuedAreEvents(calls[1..]);
    }
  }

  ghost predicate Apart(work: QueueObject<Thunk>, bus: QueueObject<Notice>, storageQueue: QueueObject<Message>) {
    work as object != bus && work as object != storageQueue && bus as object != storageQueue
  }

  method RunCall(call: Call, queue: QueueObject<Thunk>, bus: QueueObject<Notice>, storageQueue: QueueObject<Message>)
    requires queue.isStopped && !bus.isStopped && !storageQueue.isStopped && Apart(queue, bus, storageQueue)
    modifies queue, bus, storageQueue
    ensures queue.State() == old(queue.State())
    ensures !bus.isStopped && bus.items == old(bus.items) + AnnouncedByOne(call)
    ensures !storageQueue.isStopped && storageQueue.items == old(storageQueue.items) + EnqueuedByOne(call)
  {
    var accepted;
    match call
    case Post(thunk) => accepted := queue.Push(thunk);
    case Publish(payload) => accepted := bus.Push(Published(payload));
    case Write(f, write, bypass) => accepted := storageQueue.Push(EventGenerated(f, write, bypass));
  }

  /** A function executed after Stop has been called: what it publishes and writes is accepted,
      what it posts is not. */
  method Run(calls: seq<Call>, queue: QueueObject<Thunk>, bus: QueueObject<Notice>, storageQueue: QueueObject<Message>)
    requires queue.isStopped && !bus.isStopped && !storageQueue.isStopped && Apart(queue, bus, storageQueue)
    modifies queue, bus, storageQueue
    ensures queue.State() == old(queue.State())
    ensures !bus.isStopped && bus.items == old(bus.items) + Announced(calls)
    ensures !storageQueue.isStopped && storageQueue.items == old(storageQueue.items) + Enqueued(calls)
  {
    ghost var sent, stored := bus.items, storageQueue.items;
    var i := 0;
    while i < |calls|
      invariant 0 <= i <= |calls| && queue.State() == old(queue.State())
      invariant !bus.isStopped && bus.items == sent + Announced(calls[..i])
      invariant !storageQueue.isStopped && storageQueue.items == stored + Enqueued(calls[..i])
    {
      RunCall(calls[i], queue, bus, storageQueue);
      assert calls[..i + 1] == calls[..i] + [calls[i]];
      PublicationsOneByOne(calls[..i], calls[i]);
      WritesOneByOne(calls[..i], calls[i]);
      Tlv.ConcatIsAssociative(sent, Announced(calls[..i]), AnnouncedByOne(calls[i]));
      Tlv.ConcatIsAssociative(stored, Enqueued(calls[..i]), EnqueuedByOne(calls[i]));
      i := i + 1;
    }
    assert calls[..i] == calls;
  }

  /** `calls` is what the function calls, if the thunk executes one. */
  method RunThunk(thunk: Thunk, calls: seq<Call>, queue: QueueObject<Thunk>, provider: CoreContextProvider,
      storageQueue: QueueObject<Message>)
    requires queue.isStopped && provider.bus != null && !provider.bus.isStopped && !storageQueue.isStopped
    requires Apart(queue, provider.bus, storageQueue)
    modifies queue, provider, provider.bus, storageQueue
    ensures queue.State() == old(queue.State()) && provider.bus == old(provider.bus) && !provider.bus.isStopped
    ensures provider.context == Effect(thunk, old(provider.context)) && !storageQueue.isStopped
    ensures provider.bus.items == old(provider.bus.items) + NoticesOfOne(thunk, old(provider.context), calls)
    ensures storageQueue.items == old(storageQueue.items) + EventsOfOne(thunk, calls)
  {
    match thunk
    case UpdateContext(callback) => provider.Update(callback);
    case Execute(_) => Run(calls, queue, provider.bus, storageQueue);
  }

  /** What has become of context, notices and events once `thunks` have run. */
  ghost predicate HaveRun(context: Context, sent: seq<Notice>, stored: History, thunks: seq<Thunk>,
                          does: seq<seq<Call>>, context': Context, sent': seq<Notice>, stored': History)
  {
    && |does| == |thunks|
    && context' == ContextAfter(context, thunks)
    && sent' == sent + NoticesOf(context, thunks, does)
    && stored' == stored + EventsOf(thunks, does)
  }

  lemma OneMoreHasRun(context: Context, sent: seq<Notice>, stored: History, thunks: seq<Thunk>, does: seq<seq<Call>>,
                      c: Context, n: seq<Notice>, e: History, last: Thunk, calls: seq<Call>,
                      context': Context, sent': seq<Notice>, stored': History)
    requires HaveRun(context, sent, stored, thunks, does, c, n, e)
    requires HaveRun(c, n, e, [last], [calls], context', sent', stored')
    ensures HaveRun(context, sent, stored, thunks + [last], does + [calls], context', sent', stored')
  {
    ContextAfterAppended(context, thunks, last);
    assert (thunks + [last])[..|thunks|] == thunks && (does + [calls])[..|does|] == does;
    assert ContextAfter(c, [last]) == Effect(last, c);
    assert NoticesOf(c, [last], [calls]) == NoticesOfOne(last, c, calls);
    assert EventsOf([last], [calls]) == EventsOfOne(last, calls);
    Tlv.ConcatIsAssociative(sent, NoticesOf(context, thunks, does), NoticesOfOne(last, c, calls));
    Tlv.ConcatIsAssociative(stored, EventsOf(thunks, does), EventsOfOne(last, calls));
  }

  /** One turn of the loop; None once the queue is empty. */
  method RunNext(calls: seq<Call>, queue: QueueObject<Thunk>, provider: CoreContextProvider,
      storageQueue: QueueObject<Message>)
    returns (thunk: Option<Thunk>)
    requires queue.isStopped && provider.bus != null && !provider.bus.isStopped && !storageQueue.isStopped
    requires Apart(queue, provider.bus, storageQueue)
    modifies queue, provider, provider.bus, storageQueue
    ensures queue.isStopped && provider.bus == old(provider.bus) && !provider.bus.isStopped && !storageQueue.isStopped
    ensures Popped(old(queue.State()), queue.State(), thunk)
    ensures
      if thunk == None
      then (provider.context, provider.Sent(), storageQueue.items)
        == old((provider.context, provider.Sent(), storageQueue.items))
      else HaveRun(old(provider.context), old(provider.Sent()), old(storageQueue.items), [thunk.value], [calls],
                   provider.context, provider.Sent(), storageQueue.items)
  {
    thunk := queue.Pop();
    if thunk.Some? {
      RunThunk(thunk.value, calls, queue, provider, storageQueue);
    }
  }

  /** Drains a stopped context queue: every update is made and announced, and every function is
      executed, in order. Whatever the functions call, `does` says so: `does[i]` is what the one
      in position `i` of the queue does. */
  method ContextThreadMain(queue: QueueObject<Thunk>, provider: CoreContextProvider, storageQueue: QueueObject<Message>,
      does: seq<seq<Call>>)
    requires queue.isStopped && provider.bus != null && !provider.bus.isStopped && !storageQueue.isStopped
    requires Apart(queue, provider.bus, storageQueue) && |does| == |queue.items|
    modifies queue, provider, provider.bus, storageQueue
    ensures queue.items == [] && queue.isStopped && provider.bus == old(provider.bus)
    ensures !provider.bus.isStopped && !storageQueue.isStopped
    ensures HaveRun(old(provider.context), old(provider.Sent()), old(storageQueue.items), old(queue.items), does,
                    provider.context, provider.Sent(), storageQueue.items)
  {
    var i, more := 0, true;
    ghost var context, sent, stored, posted := provider.context, provider.Sent(), storageQueue.items, queue.items;
    while more
      invariant queue.isStopped && !storageQueue.isStopped
      invariant provider.bus == old(provider.bus) && !provider.bus.isStopped
      invariant 0 <= i <= |does| && queue.items == posted[i..] && (!more ==> i == |does|)
      invariant HaveRun(context, sent, stored, posted[..i], does[..i],
                        provider.context, provider.Sent(), storageQueue.items)
      decreases more, |queue.items|
    {
      ghost var c, n, e := provider.context, provider.Sent(), storageQueue.items;
      var calls := if i < |does| then does[i] else [];
      var thunk := RunNext(calls, queue, provider, storageQueue);
      if thunk == None {
        more := false;
      } else {
        OneMoreTaken(posted, does, i);
        OneMoreHasRun(context, sent, stored, posted[..i], does[..i], c, n, e, thunk.value, calls,
                      provider.context, provider.Sent(), storageQueue.items);
        i := i + 1;
      }
    }
    assert posted[..i] == posted && does[..i] == does;
  }

  lemma OneMoreTaken(posted: seq<Thunk>, does: seq<seq<Call>>, i: nat)
    requires i < |posted| == |does|
    ensures posted[..i + 1] == posted[..i] + [posted[i]] && does[..i + 1] == does[..i] + [does[i]]
    ensures posted[i..][0] == posted[i] && posted[i..][1..] == posted[i + 1..]
  {
  }

  lemma {:induction false} AnnouncedAreNoContexts(notices: seq<Notice>, calls: seq<Call>)
    ensures Contexts(notices + Announced(calls)) == Contexts(notices)
    decreases |calls|
  {
    if calls == [] {
      assert notices + Announced(calls) == notices;
    } else if calls[0].Publish? {
      var n := Published(calls[0].payload);
      ContextsOfAppended(notices, n);
      AnnouncedAreNoContexts(notices + [n], calls[1..]);
      assert notices + [n] + Announced(calls[1..]) == notices + ([n] + Announced(calls[1..]));
    } else {
      AnnouncedAreNoContexts(notices, calls[1..]);
      assert [] + Announced(calls[1..]) == Announced(calls[1..]);
    }
  }

  lemma ContextsOfOne(context: Context, notices: seq<Notice>, thunk: Thunk, calls: seq<Call>)
    ensures Contexts(notices + NoticesOfOne(thunk, context, calls))
      == Contexts(notices) + if thunk.UpdateContext? then [thunk.callback(context)] else []
  {
    match thunk
    case UpdateContext(f) => ContextsOfAppended(notices, ContextChanged(f(context)));
    case Execute(_) =>
      AnnouncedAreNoContexts(notices, calls);
      assert Contexts(notices) + [] == Contexts(notices);
  }

  ghost predicate SnapshotsNoticed(context: Context, thunks: seq<Thunk>, does: seq<seq<Call>>) {
    && |does| == |thunks|
    && [context] + Contexts(NoticesOf(context, thunks, does)) == Snapshots(context, thunks)
    && ContextAfter(context, thunks) == Snapshots(context, thunks)[|Snapshots(context, thunks)| - 1]
  }

  lemma OneMoreSnapshot(context: Context, thunks: seq<Thunk>, does: seq<seq<Call>>, last: Thunk, calls: seq<Call>)
    requires SnapshotsNoticed(context, thunks, does)
    ensures SnapshotsNoticed(context, thunks + [last], does + [calls])
  {
    var c, notices := ContextAfter(context, thunks), NoticesOf(context, thunks, does);
    ContextAfterAppended(context, thunks, last);
    assert (thunks + [last])[..|thunks|] == thunks && (does + [calls])[..|does|] == does;
    ContextsOfOne(c, notices, last, calls);
    Tlv.ConcatIsAssociative([context], Contexts(notices), if last.UpdateContext? then [last.callback(c)] else []);
  }

  lemma {:induction false} AllSnapshotsNoticed(context: Context, thunks: seq<Thunk>, does: seq<seq<Call>>)
    requires |does| == |thunks|
    ensures SnapshotsNoticed(context, thunks, does)
  {
    if thunks != [] {
      var n := |thunks| - 1;
      var before, called := thunks[..n], does[..n];
      AllSnapshotsNoticed(context, before, called);
      assert thunks == before + [thunks[n]] && does == called + [does[n]];
      OneMoreSnapshot(context, before, called, thunks[n], does[n]);
    }
  }

  /** The two ways to describe what observers are told of the context agree. */
  lemma NoticesAreSnapshots(context: Context, thunks: seq<Thunk>, does: seq<seq<Call>>)
    requires |does| == |thunks|
    ensures [context] + Contexts(NoticesOf(context, thunks, does)) == Snapshots(context, thunks)
    ensures ContextAfter(context, thunks) == Snapshots(context, thunks)[|Snapshots(context, thunks)| - 1]
  {
    AllSnapshotsNoticed(context, thunks, does);
  }

  lemma {:induction false} EventsOfAreEvents(thunks: seq<Thunk>, does: seq<seq<Call>>)
    requires |does| == |thunks| && forall calls <- does :: Sound(calls)
    ensures Writable(EventsOf(thunks, does)) && OnlyEvents(EventsOf(thunks, does))
  {
    if thunks != [] {
      var n := |thunks| - 1;
      EventsOfAreEvents(thunks[..n], does[..n]);
      EnqueuedAreEvents(does[n]);
    }
  }

  /** Drains a stopped bus: every handler is given every notice, in order. */
  method MessagingThreadMain(queue: QueueObject<Notice>, handlers: nat) returns (delivered: seq<seq<Notice>>)
    requires queue.isStopped
    modifies queue
    ensures queue.items == [] && |delivered| == handlers
    ensures forall k | 0 <= k < handlers :: delivered[k] == old(queue.items)
  {
    delivered := seq(handlers, _ => []);
    ghost var taken: seq<Notice> := [];
    var more := true;
    while more
      invariant queue.isStopped && |delivered| == handlers && (!more ==> queue.items == [])
      invariant taken + queue.items == old(queue.items)
      invariant forall k | 0 <= k < handlers :: delivered[k] == taken
      decreases more, |queue.items|
    {
      var notice := queue.Pop();
      if notice == None {
        more := false;
      } else {
        var k := 0;
        while k < handlers
          invariant 0 <= k <= handlers == |delivered|
          invariant forall l | 0 <= l < k :: delivered[l] == taken + [notice.value]
          invariant forall l | k <= l < handlers :: delivered[l] == taken
        {
          delivered := delivered[k := delivered[k] + [notice.value]];
          k := k + 1;
        }
        taken := taken + [notice.value];
      }
    }
  }

  // ---- consent of the writers ----

  lemma {:induction false} EventsKeepConsent(c: Consent, log: History, events: History)
    requires OnlyEvents(events)
    ensures ConsentAfter(c, log + events) == ConsentAfter(c, log)
  {
    if events == [] {
      assert log + events == log;
    } else {
      var n := |events| - 1;
      EventsKeepConsent(c, log, events[..n]);
      assert log + events == log + events[..n] + [events[n]] && events[n] in events;
      ExtensionAtEnd(c, log + events[..n], events[n]);
    }
  }

  lemma AgreedOnChange(states: seq<Writer>, queued: History, value: Consent)
    ensures StorageThread.Agreed(states, queued + [TrackingConsentChanged(value)], value)
  {
  }

  lemma StillAgreed(states: seq<Writer>, queued: History, events: History, value: Consent)
    requires StorageThread.Agreed(states, queued, value) && OnlyEvents(events)
    ensures StorageThread.Agreed(states, queued + events, value)
  {
    forall k | 0 <= k < |states|
      ensures ConsentAfter(states[k].consent, queued + events) == value
    {
      EventsKeepConsent(states[k].consent, queued, events);
    }
  }

  class Core {
    var started: bool
    var trackingConsent: Consent
    var features: seq<StorageThread.RegisteredFeature>
    /** Messages handled so far; those of a running session are counted when it ends. */
    var handled: nat
    /** Message handlers of the running session's bus. */
    var handlers: nat
    const provider: CoreContextProvider
    var storageQueue: QueueObject?<Message>
    var contextQueue: QueueObject?<Thunk>
    /** The objects of all writers. */
    ghost var repr: set<object>
    /** The messages handled so far, and each writer's run over those since its registration. */
    ghost var log: History
    ghost var init: seq<Writer>
    ghost var runs: seq<seq<Turn>>
    ghost var states: seq<Writer>

    ghost function Session(): set<object>
      reads this, provider
    {
      var a: set<object> := if storageQueue == null then {} else {storageQueue};
      var b: set<object> := if contextQueue == null then {} else {contextQueue};
      var c: set<object> := if provider.bus == null then {} else {provider.bus};
      a + b + c
    }

    ghost function Queued(): History
      reads this, storageQueue
    {
      if storageQueue == null then [] else storageQueue.items
    }

    ghost predicate Followed()
      reads this, repr
    {
      StorageThread.Following(features, handled, repr, log, init, runs, states)
    }

    /** Between calls the queues exist, and are open, exactly in a running session. */
    ghost predicate Staged()
      reads this, provider, Session()
    {
      if started then
        && storageQueue != null && contextQueue != null && provider.bus != null
        && Apart(contextQueue, provider.bus, storageQueue)
        && !contextQueue.isStopped && !provider.bus.isStopped && !storageQueue.isStopped
      else
        storageQueue == null && contextQueue == null && provider.bus == null
    }

    ghost predicate Valid()
      reads this, provider, Session(), repr
    {
      && Followed() && Staged()
      && {this, provider} + Session() !! repr
      && StorageThread.Agreed(states, Queued(), trackingConsent)
    }

    /** All writers agree with the core. */
    ghost predicate Coherent()
      reads this, repr
      requires Followed()
    {
      forall k | 0 <= k < |features| :: features[k].writer.consent == trackingConsent
    }

    lemma CoherentWhileStopped()
      requires Valid() && !started
      ensures Coherent()
    {
      assert forall k | 0 <= k < |features| :: features[k].writer.State() == states[k];
    }

    constructor (trackingConsent: Consent, context: Context)
      ensures Valid() && fresh(provider) && !started && features == [] && handled == 0 && repr == {}
      ensures this.trackingConsent == trackingConsent && provider.context == context
    {
      started, features, handled, handlers, storageQueue, contextQueue, repr := false, [], 0, 0, null, null, {};
      log, init, runs, states := [], [], [], [];
      this.trackingConsent := trackingConsent;
      provider := new CoreContextProvider(context);
    }

    /** UpdateContext: on the context thread if there is one, else at once. */
    method UpdateContext(callback: Context -> Context)
      requires contextQueue == null ==> provider.bus == null
      modifies provider, if contextQueue == null then {} else {contextQueue}
      ensures old(Valid()) ==> Valid()
      ensures provider.bus == old(provider.bus)
      ensures contextQueue == null ==> provider.context == callback(old(provider.context))
      ensures contextQueue != null ==>
        && provider.context == old(provider.context)
        && Pushed(old(contextQueue.State()), Thunk.UpdateContext(callback), contextQueue.State(),
          !old(contextQueue.isStopped))
    {
      if contextQueue != null {
        var accepted := contextQueue.Push(Thunk.UpdateContext(callback));
      } else {
        provider.Update(callback);
      }
    }

    /** While the core runs, the change goes through both queues; otherwise every writer and the
        context are told at once, and all agree afterwards. */
    method SetTrackingConsent(value: Consent)
      requires Valid()
      modifies this`trackingConsent, this`handled, this`log, this`runs, this`states, provider, Session(), repr
      ensures Valid() && trackingConsent == value && provider.bus == old(provider.bus)
      ensures value == old(trackingConsent) || started ==> log == old(log) && runs == old(runs) && states == old(states)
      ensures value == old(trackingConsent) ==>
        && provider.context == old(provider.context) && Queued() == old(Queued())
        && (started ==> contextQueue.State() == old(contextQueue.State()))
      ensures value != old(trackingConsent) && started ==>
        && Pushed(old(storageQueue.State()), TrackingConsentChanged(value), storageQueue.State(), true)
        && |contextQueue.items| == |old(contextQueue.items)| + 1
        && contextQueue.items[..|old(contextQueue.items)|] == old(contextQueue.items)
        && SetsConsentOnly(contextQueue.items[|old(contextQueue.items)|], value)
      ensures value != old(trackingConsent) && !started ==>
        && log == old(log) + [TrackingConsentChanged(value)] && StorageThread.Continued(old(runs), runs)
        && provider.context == Context(old(provider.context.rum), value, old(provider.context.other))
      ensures !started ==> Coherent()
    {
      if trackingConsent != value {
        if started {
          ChangeWhileRunning(value);
        } else {
          ChangeWhileStopped(value);
        }
      }
      if !started {
        CoherentWhileStopped();
      }
    }

    /** The thunk replaces the consent of whatever context it finds, and nothing else. */
    ghost static predicate SetsConsentOnly(thunk: Thunk, value: Consent) {
      thunk.UpdateContext? && forall c :: thunk.callback(c) == Context(c.rum, value, c.other)
    }

    method ChangeWhileRunning(value: Consent)
      requires Valid() && started
      modifies this`trackingConsent, provider, Session()
      ensures Valid() && trackingConsent == value && provider.bus == old(provider.bus)
      ensures Pushed(old(storageQueue.State()), TrackingConsentChanged(value), storageQueue.State(), true)
      ensures Pushed(old(contextQueue.State()), Thunk.UpdateContext(ConsentUpdate(value)), contextQueue.State(), true)
    {
      trackingConsent := value;
      AgreedOnChange(states, storageQueue.items, value);
      var accepted := storageQueue.Push(TrackingConsentChanged(value));
      UpdateContext(ConsentUpdate(value));
    }

    method ChangeWhileStopped(value: Consent)
      requires Valid() && !started
      modifies this`trackingConsent, this`handled, this`log, this`runs, this`states, provider, repr
      ensures Valid() && trackingConsent == value && provider.bus == old(provider.bus)
      ensures log == old(log) + [TrackingConsentChanged(value)] && StorageThread.Continued(old(runs), runs)
      ensures provider.context == ConsentUpdate(value)(old(provider.context))
    {
      trackingConsent := value;
      TellWriters();
      UpdateContext(ConsentUpdate(value));
    }

    method TellWriters()
      requires Followed() && Staged() && !started && {this, provider} !! repr
      modifies this`handled, this`log, this`runs, this`states, repr
      ensures Valid()
      ensures log == old(log) + [TrackingConsentChanged(trackingConsent)] && StorageThread.Continued(old(runs), runs)
    {
      ghost var continued, after := StorageThread.TellAll(features, handled, trackingConsent, log, init, runs, states,
        repr);
      log, runs, states := log + [TrackingConsentChanged(trackingConsent)], continued, after;
      handled := handled + 1;
    }

    /** EnqueueStorageWrite: accepted only while the core runs. */
    method EnqueueStorageWrite(f: FeatureId, write: Tlv.Write, bypass: bool) returns (accepted: bool)
      requires Valid()
      modifies if storageQueue == null then {} else {storageQueue}
      ensures Valid() && accepted == started
      ensures Queued() == if accepted then old(Queued()) + [EventGenerated(f, write, bypass)] else old(Queued())
    {
      if !started {
        return false;
      }
      StillAgreed(states, storageQueue.items, [EventGenerated(f, write, bypass)], trackingConsent);
      accepted := storageQueue.Push(EventGenerated(f, write, bypass));
    }

    /** The writer of a new feature is told the current consent, whatever comes of that. */
    static method NewWriter(storage: FeatureEventStorage, cfg: Config, value: Consent)
      returns (writer: BatchWriter, done: bool)
      requires cfg.maxEventSize < Tlv.LENGTH_LIMIT && storage.pending != storage.granted
      modifies storage.pending`files, storage.granted`files
      ensures writer.Valid() && writer.cfg == cfg && writer.storage == storage && writer.consent == value
      ensures fresh(writer) && fresh(writer.activePending) && fresh(writer.activeGranted)
      ensures ConsentSet(storage.Environment(),
        Writer(Pending, NO_FILE, NO_FILE, old(storage.pending.files), old(storage.granted.files)),
        value, writer.State(), done)
    {
      writer := new BatchWriter(cfg, storage);
      done := writer.SetTrackingConsent(value);
    }

    predicate Registered(id: FeatureId, name: string)
      reads this
    {
      exists k :: 0 <= k < |features| && (features[k].id == id || features[k].name == name)
    }

    /** RegisterFeature: only before Start, once per id and per name, and if the storage could be
        initialized. The new writer is brought to the current consent at once, whatever comes of
        that. */
    method RegisterFeature(id: FeatureId, name: string, storage: FeatureEventStorage?, cfg: Config)
      returns (ok: bool, ghost done: bool)
      requires Valid() && cfg.maxEventSize < Tlv.LENGTH_LIMIT
      requires storage != null ==> storage.pending != storage.granted
      requires storage != null ==> {storage.pending, storage.granted} !! repr + {this, provider}
      modifies this`features, this`repr, this`init, this`runs, this`states,
        if storage == null then {} else {storage.pending}, if storage == null then {} else {storage.granted}
      ensures Valid() && (ok <==> !started && !old(Registered(id, name)) && storage != null)
      ensures !ok ==> features == old(features) && repr == old(repr) && states == old(states)
      ensures ok ==>
        && |features| == |old(features)| + 1 && features[..|old(features)|] == old(features)
        && states == old(states) + [features[|old(features)|].writer.State()]
        && var f := features[|old(features)|];
          && f.id == id && f.name == name && f.since == handled && f.writer.cfg == cfg && f.writer.storage == storage
          && ConsentSet(storage.Environment(),
            Writer(Pending, NO_FILE, NO_FILE, old(storage.pending.files), old(storage.granted.files)),
            trackingConsent, f.writer.State(), done)
    {
      ok, done := false, false;
      if started {
        return;
      }
      var k := 0;
      while k < |features|
        invariant 0 <= k <= |features|
        invariant forall l | 0 <= l < k :: features[l].id != id && features[l].name != name
      {
        if features[k].id == id || features[k].name == name {
          return;
        }
        k := k + 1;
      }
      if storage == null {
        return;
      }
      var writer;
      writer, done := NewWriter(storage, cfg, trackingConsent);
      AddFeature(StorageThread.RegisteredFeature(id, name, handled, writer));
      ok := true;
    }

    method AddFeature(f: StorageThread.RegisteredFeature)
      requires Valid() && !started && f.since == handled && f.writer.Valid() && f.writer.consent == trackingConsent
      requires StorageThread.Footprint(f.writer) !! repr + {this, provider}
      requires forall g <- features :: g.id != f.id
      modifies this`features, this`repr, this`init, this`runs, this`states
      ensures Valid() && features == old(features) + [f] && states == old(states) + [f.writer.State()]
    {
      StorageThread.OneMoreFollows(features, handled, repr, log, init, runs, states, f);
      features := features + [f];
      repr := repr + StorageThread.Footprint(f.writer);
      init, runs, states := init + [f.writer.State()], runs + [[]], states + [f.writer.State()];
    }

    // ---- a session ----

    /** Start: resets the context, creates the queues, and lets handlers see the context first. */
    method Start(handlers: nat) returns (ok: bool)
      requires Valid()
      modifies this`started, this`storageQueue, this`contextQueue, this`handlers, provider
      ensures Valid() && (ok <==> !old(started) && features != []) && started == (old(started) || ok)
      ensures !ok ==>
        && storageQueue == old(storageQueue) && contextQueue == old(contextQueue)
        && provider.bus == old(provider.bus) && provider.context == old(provider.context)
      ensures ok ==>
        && fresh(Session()) && this.handlers == handlers
        && provider.context == Context(None, old(provider.context.consent), old(provider.context.other))
        && provider.Sent() == [ContextChanged(provider.context)]
        && storageQueue.items == [] && contextQueue.items == []
    {
      if started || features == [] {
        return false;
      }
      Prepare(handlers);
      started := true;
      return true;
    }

    method Prepare(handlers: nat)
      requires Valid() && !started
      modifies this`storageQueue, this`contextQueue, this`handlers, provider
      ensures Followed() && this.handlers == handlers && provider.context == Reset(old(provider.context))
      ensures storageQueue != null && contextQueue != null && provider.bus != null
      ensures fresh(Session()) && Session() !! repr
      ensures Apart(contextQueue, provider.bus, storageQueue)
      ensures storageQueue.State() == Queue([], false) && contextQueue.State() == Queue([], false)
      ensures provider.bus.State() == Queue([ContextChanged(provider.context)], false)
    {
      provider.Update(Reset);
      this.handlers := handlers;
      OpenQueues();
    }

    method OpenQueues()
      requires provider.bus == null && {this, provider} !! repr
      modifies this`storageQueue, this`contextQueue, provider
      ensures Session() !! repr
      ensures storageQueue != null && contextQueue != null && provider.bus != null && fresh(Session())
      ensures Apart(contextQueue, provider.bus, storageQueue)
      ensures storageQueue.State() == Queue([], false) && contextQueue.State() == Queue([], false)
      ensures provider.context == old(provider.context)
      ensures provider.bus.State() == Queue([ContextChanged(provider.context)], false)
    {
      storageQueue := new QueueObject<Message>();
      var bus := new QueueObject<Notice>();
      provider.SetMessageBus(bus);
      provider.Update(c => c);
      contextQueue := new QueueObject<Thunk>();
    }

    /** Features are told that the core stops: what they write then is accepted, nothing else is. */
    method FeaturesStop(calls: seq<Call>)
      requires storageQueue != null && !storageQueue.isStopped
      modifies storageQueue
      ensures !storageQueue.isStopped && storageQueue.items == old(storageQueue.items) + Enqueued(calls)
    {
      var i := 0;
      while i < |calls|
        invariant 0 <= i <= |calls| && !storageQueue.isStopped
        invariant storageQueue.items + Enqueued(calls[i..]) == old(storageQueue.items) + Enqueued(calls)
      {
        if calls[i].Write? {
          var accepted := storageQueue.Push(EventGenerated(calls[i].feature, calls[i].write, calls[i].bypass));
        }
        assert calls[i..][1..] == calls[i + 1..];
        i := i + 1;
      }
    }

    /** The context thread ends, then the messaging thread. */
    method StopContextAndBus(does: seq<seq<Call>>) returns (delivered: seq<seq<Notice>>)
      requires contextQueue != null && provider.bus != null && storageQueue != null
      requires Apart(contextQueue, provider.bus, storageQueue) && !provider.bus.isStopped && !storageQueue.isStopped
      requires |does| == |contextQueue.items|
      modifies this`contextQueue, provider, Session()
      ensures contextQueue == null && provider.bus == null && !storageQueue.isStopped && |delivered| == handlers
      ensures
        HaveRun(old(provider.context), old(provider.Sent()), old(storageQueue.items), old(contextQueue.items), does,
          provider.context,
          old(provider.Sent()) + NoticesOf(old(provider.context), old(contextQueue.items), does),
          storageQueue.items)
      ensures forall k | 0 <= k < handlers ::
        delivered[k] == old(provider.Sent()) + NoticesOf(old(provider.context), old(contextQueue.items), does)
    {
      contextQueue.Stop();
      ContextThreadMain(contextQueue, provider, storageQueue, does);
      provider.bus.Stop();
      delivered := MessagingThreadMain(provider.bus, handlers);
      provider.SetMessageBus(null);
      contextQueue := null;
    }

    /** All that feature code does before its queues are gone. */
    method StopFeatures(does: seq<seq<Call>>, atLast: seq<Call>) returns (delivered: seq<seq<Notice>>)
      requires Valid() && started && Writable(Queued())
      requires |does| == |contextQueue.items| && (forall calls <- does :: Sound(calls)) && Sound(atLast)
      modifies this`contextQueue, provider, Session()
      ensures contextQueue == null && provider.bus == null && !storageQueue.isStopped && Writable(storageQueue.items)
      ensures Followed() && StorageThread.Agreed(states, storageQueue.items, trackingConsent)
      ensures provider.context == ContextAfter(old(provider.context), old(contextQueue.items))
      ensures storageQueue.items == old(Queued()) + EventsOf(old(contextQueue.items), does) + Enqueued(atLast)
      ensures |delivered| == handlers && forall k | 0 <= k < handlers ::
        delivered[k] == old(provider.Sent()) + NoticesOf(old(provider.context), old(contextQueue.items), does)
    {
      ghost var queued, thunks := storageQueue.items, contextQueue.items;
      delivered := StopContextAndBus(does);
      EventsOfAreEvents(thunks, does);
      FeaturesStop(atLast);
      EnqueuedAreEvents(atLast);
      StillAgreed(states, queued, EventsOf(thunks, does), trackingConsent);
      StillAgreed(states, queued + EventsOf(thunks, does), Enqueued(atLast), trackingConsent);
    }

    /** The storage thread ends. */
    method StopStorage()
      requires Followed() && this !in repr && provider !in repr && storageQueue != null && storageQueue !in repr
      requires contextQueue == null && provider.bus == null && Writable(storageQueue.items)
      requires StorageThread.Agreed(states, storageQueue.items, trackingConsent)
      modifies this`started, this`storageQueue, this`handled, this`log, this`runs, this`states, storageQueue, repr
      ensures Valid() && !started && log == old(log) + old(storageQueue.items)
      ensures StorageThread.Continued(old(runs), runs)
    {
      storageQueue.Stop();
      HandleQueued();
      storageQueue, started := null, false;
    }

    method HandleQueued()
      requires Followed() && this !in repr
      requires storageQueue != null && storageQueue !in repr && Writable(storageQueue.items)
      requires StorageThread.Agreed(states, storageQueue.items, trackingConsent)
      modifies this`handled, this`log, this`runs, this`states, repr
      ensures Followed() && log == old(log) + storageQueue.items && StorageThread.Continued(old(runs), runs)
      ensures StorageThread.Agreed(states, [], trackingConsent)
    {
      var queue := storageQueue.items;
      ghost var before, value := states, trackingConsent;
      ghost var continued, after := StorageThread.StorageThreadMain(queue, features, handled, log, init, runs, before,
        repr);
      StorageThread.AgreedOnceSettled(before, queue, after, value);
      log, runs, states := log + queue, continued, after;
      handled := handled + |queue|;
    }

    /** Stop: the three threads finish their work one after another. Every thunk has run, every
        handler has been given every notice, and every writer has handled every message, after
        which all agree with the core. `does` and `atLast` are what the functions still queued call,
        and what features call when they are told. */
    method Stop(does: seq<seq<Call>>, atLast: seq<Call>) returns (delivered: seq<seq<Notice>>)
      requires Valid() && Writable(Queued())
      requires started ==>
        |does| == |contextQueue.items| && (forall calls <- does :: Sound(calls)) && Sound(atLast)
      modifies this`started, this`storageQueue, this`contextQueue, this`handled, this`log, this`runs, this`states
      modifies provider, Session(), repr
      ensures Valid() && !started && Coherent() && StorageThread.Continued(old(runs), runs)
      ensures !old(started) ==> log == old(log) && states == old(states) && provider.context == old(provider.context)
      ensures old(started) ==>
        && provider.context == ContextAfter(old(provider.context), old(contextQueue.items))
        && log == old(log) + (old(Queued()) + EventsOf(old(contextQueue.items), does) + Enqueued(atLast))
        && |delivered| == handlers
        && forall k | 0 <= k < handlers ::
          delivered[k] == old(provider.Sent()) + NoticesOf(old(provider.context), old(contextQueue.items), does)
    {
      delivered := [];
      if started {
        delivered := StopFeatures(does, atLast);
        StopStorage();
      }
      CoherentWhileStopped();
    }
  }
}

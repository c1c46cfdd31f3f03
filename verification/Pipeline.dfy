/** The core's threads and queues (core.cpp, context.cpp, feature_scope.cpp, message_bus.cpp,
    context_thread.cpp, messaging_thread.cpp, storage_thread.cpp) as one transition system. The
    main thread starts and stops the core and makes API calls; the context thread runs thunks,
    which write events, publish messages, update the context or post further thunks; the
    messaging thread hands messages to all handlers, which may do the same; the storage thread
    handles what is written. Any interleaving of their steps is a run. */
module Pipeline {
  import opened Options
  import opened Consents
  import opened AtomicQueues
  import opened StorageMessages
  import Tlv

  datatype Context = Context(rum: Option<string>, consent: Consent, other: string)

  function Reset(c: Context): Context {
    c.(rum := None)
  }

  /** Work for the context thread. What an `Execute` function does is decided while it runs. */
  datatype Thunk = UpdateContext(callback: Context -> Context) | Execute(id: nat)

  datatype Notice = ContextChanged(context: Context) | Published(payload: string)

  /** Where the main thread is in Start, Stop or an API call; listed in the order of a session. */
  datatype Main =
    | Idle             // initialized, not started
    | ContextReset
    | StorageUp        // storage queue and thread exist
    | BusUp
    | BusInstalled     // the context provider sends to the bus
    | SnapshotTaken    // no-op update done, snapshot not sent yet
    | SnapshotSent
    | ContextUp        // context queue and thread exist
    | Starting         // state is Started, features run OnCoreStarted
    | Running          // messaging thread exists
    | ConsentStored    // SetTrackingConsent: value stored
    | ConsentQueued    // SetTrackingConsent: storage message pushed
    | ContextStopped   // Stop: context queue stopped
    | ContextJoined
    | BusStopped
    | BusJoined
    | Stopping         // bus detached, features run OnCoreStopping
    | Released         // context queue and bus destroyed
    | StorageStopped
    | StorageJoined

  function Rank(m: Main): nat {
    match m
    case Idle => 0 case ContextReset => 1 case StorageUp => 2 case BusUp => 3 case BusInstalled => 4
    case SnapshotTaken => 5 case SnapshotSent => 6 case ContextUp => 7 case Starting => 8 case Running => 9
    case ConsentStored => 10 case ConsentQueued => 11 case ContextStopped => 12 case ContextJoined => 13
    case BusStopped => 14 case BusJoined => 15 case Stopping => 16 case Released => 17
    case StorageStopped => 18 case StorageJoined => 19
  }

  datatype ContextThread = NoContext | ContextIdle | Updating(callback: Context -> Context)
    | Sending(snapshot: Context) | Executing(id: nat) | ContextExited

  datatype MessagingThread = NoMessaging | MessagingIdle | Delivering(notice: Notice, next: nat) | MessagingExited

  datatype StorageThread = NoStorage | StorageIdle | StorageExited

  // ---- the parts of the state, each with its history ----

  /** The context provider; `base` is its state when the session began, `updates` its states
      since the bus was installed. */
  datatype Provider = Provider(context: Context, base: Context, updates: seq<Context>)

  /** Context queue and thread; thunks accepted and thunks begun in this session. */
  datatype Work = Work(queue: Option<Queue<Thunk>>, thread: ContextThread, posted: seq<Thunk>, begun: seq<Thunk>)

  /** Message bus and thread; notices accepted, taken, and handed to each handler. */
  datatype Bus = Bus(queue: Option<Queue<Notice>>, thread: MessagingThread, sent: seq<Notice>, taken: seq<Notice>,
                     delivered: seq<seq<Notice>>)

  /** Storage queue and thread; all messages accepted and handled since initialization; what
      the writer of each registered feature holds. */
  datatype Storage = Storage(queue: Option<Queue<Message>>, thread: StorageThread, history: History, handled: History,
                             writers: map<FeatureId, Ledger>)

  datatype State = State(main: Main, tracking: Consent, provider: Provider, work: Work, bus: Bus, storage: Storage)

  function PushTo<T>(q: Option<Queue<T>>, x: T): (r: (Option<Queue<T>>, bool))
    ensures q.Some? ==> r.0.Some? && Pushed(q.value, x, r.0.value, r.1)
    ensures q.None? ==> r == (None, false)
  {
    if q.None? then (None, false)
    else if q.value.stopped then (q, false)
    else (Some(q.value.(items := q.value.items + [x])), true)
  }

  predicate HasItem<T>(q: Option<Queue<T>>) {
    q.Some? && q.value.items != []
  }

  function Rest<T>(q: Option<Queue<T>>): (r: Option<Queue<T>>)
    requires HasItem(q)
    ensures r.Some? && Popped(q.value, r.value, Some(q.value.items[0]))
  {
    Some(q.value.(items := q.value.items[1..]))
  }

  /** A pop returns nullopt: the consumer leaves its loop. */
  predicate Drained<T>(q: Option<Queue<T>>) {
    q.Some? && q.value.items == [] && q.value.stopped
  }

  function Stop<T>(q: Option<Queue<T>>): Option<Queue<T>> {
    if q.Some? then Some(q.value.(stopped := true)) else None
  }

  function PostThunk(w: Work, thunk: Thunk): Work {
    var (q, accepted) := PushTo(w.queue, thunk);
    w.(queue := q, posted := if accepted then w.posted + [thunk] else w.posted)
  }

  function SendNotice(b: Bus, notice: Notice): Bus {
    var (q, accepted) := PushTo(b.queue, notice);
    b.(queue := q, sent := if accepted then b.sent + [notice] else b.sent)
  }

  function Enqueue(st: Storage, m: Message): Storage {
    var (q, accepted) := PushTo(st.queue, m);
    st.(queue := q, history := if accepted then st.history + [m] else st.history)
  }

  function HandleMessage(st: Storage, m: Message): Storage {
    st.(handled := st.handled + [m],
        writers := map f | f in st.writers :: Apply(f, st.writers[f], |st.handled|, m))
  }

  // ---- steps of the main thread ----

  datatype MainStep =
    | Register(feature: FeatureId)
    | UpdateDirectly(update: Context -> Context)
    | BeginStart
    | CreateBus(handlers: nat)
    | BeginStop
    | SetTrackingConsent(value: Consent)

  predicate MainEnabled(s: State, step: MainStep) {
    match step
    case Register(f) => s.main.Idle? && f !in s.storage.writers
    case UpdateDirectly(_) => s.main.Idle?
    case BeginStart => s.main.Idle? && s.storage.writers != map[]
    case CreateBus(_) => s.main.StorageUp?
    case BeginStop => s.main.Running?
    case SetTrackingConsent(v) => v != s.tracking && (s.main.Idle? || s.main.Running?)
  }

  function ConsentUpdate(v: Consent): Context -> Context {
    (c: Context) => c.(consent := v)
  }

  /** A change of consent shows in the context's consent and nowhere else; a reset takes away what
      features have put there and nothing else. */
  lemma UpdatesTouchOneField(v: Consent, c: Context)
    ensures ConsentUpdate(v)(c) == Context(c.rum, v, c.other)
    ensures Reset(c) == Context(None, c.consent, c.other)
  {
  }

  /** A new writer starts out as pending and is then told the current consent. */
  function NewWriter(f: FeatureId, tracking: Consent): Ledger {
    Apply(f, Ledger(Pending, {}, {}), 0, TrackingConsentChanged(tracking))
  }

  function MainNext(s: State, step: MainStep): State
    requires MainEnabled(s, step)
  {
    match step
    case Register(f) => s.(storage := s.storage.(writers := s.storage.writers[f := NewWriter(f, s.tracking)]))
    case UpdateDirectly(f) => s.(provider := s.provider.(context := f(s.provider.context)))
    case BeginStart =>
      var c := Reset(s.provider.context);
      s.(main := ContextReset, provider := Provider(c, c, []), work := s.work.(posted := [], begun := []),
         bus := s.bus.(sent := [], taken := [], delivered := []))
    case CreateBus(n) => s.(main := BusUp, bus := s.bus.(queue := Some(Queue([], false)), delivered := seq(n, _ => [])))
    case BeginStop => s.(main := ContextStopped, work := s.work.(queue := Stop(s.work.queue)))
    case SetTrackingConsent(v) =>
      if s.main.Running? then s.(tracking := v, main := ConsentStored)
      else
        // without a storage thread the writers are told at once
        var m := TrackingConsentChanged(v);
        s.(tracking := v,
           storage := HandleMessage(s.storage, m).(history := s.storage.history + [m]),
           provider := s.provider.(context := ConsentUpdate(v)(s.provider.context)))
  }

  predicate CanProceed(s: State) {
    && !s.main.Idle? && !s.main.StorageUp? && !s.main.Running?
    && (s.main.ContextStopped? ==> s.work.thread.ContextExited?)
    && (s.main.BusStopped? ==> s.bus.thread.MessagingExited?)
    && (s.main.StorageStopped? ==> s.storage.thread.StorageExited?)
  }

  /** The main thread goes on with Start, Stop or SetTrackingConsent. */
  function Proceed(s: State): State
    requires CanProceed(s)
  {
    match s.main
    case ContextReset =>
      s.(main := StorageUp, storage := s.storage.(queue := Some(Queue([], false)), thread := StorageIdle))
    case BusUp => s.(main := BusInstalled)
    case BusInstalled => s.(main := SnapshotTaken, provider := s.provider.(updates := [s.provider.context]))
    case SnapshotTaken => s.(main := SnapshotSent, bus := SendNotice(s.bus, ContextChanged(s.provider.context)))
    case SnapshotSent => s.(main := ContextUp, work := s.work.(queue := Some(Queue([], false)), thread := ContextIdle))
    case ContextUp => s.(main := Starting)
    case Starting => s.(main := Running, bus := s.bus.(thread := MessagingIdle))
    case ConsentStored => s.(main := ConsentQueued, storage := Enqueue(s.storage, TrackingConsentChanged(s.tracking)))
    case ConsentQueued => s.(main := Running, work := PostThunk(s.work, UpdateContext(ConsentUpdate(s.tracking))))
    case ContextStopped => s.(main := ContextJoined, work := s.work.(thread := NoContext))
    case ContextJoined => s.(main := BusStopped, bus := s.bus.(queue := Stop(s.bus.queue)))
    case BusStopped => s.(main := BusJoined, bus := s.bus.(thread := NoMessaging))
    case BusJoined => s.(main := Stopping)
    case Stopping => s.(main := Released, work := s.work.(queue := None), bus := s.bus.(queue := None))
    case Released => s.(main := StorageStopped, storage := s.storage.(queue := Stop(s.storage.queue)))
    case StorageStopped => s.(main := StorageJoined, storage := s.storage.(thread := NoStorage))
    case StorageJoined => s.(main := Idle, storage := s.storage.(queue := None))
    case _ => s
  }

  // ---- calls of feature code, on whichever thread it runs ----

  datatype Actor = MainThread | ContextActor | MessagingActor

  datatype Call =
    | Post(thunk: Thunk)
    | Publish(payload: string)
    | Write(feature: FeatureId, write: Tlv.Write, bypass: bool)

  predicate CanAct(s: State, actor: Actor) {
    match actor
    case MainThread => s.main.Starting? || s.main.Running? || s.main.Stopping?
    case ContextActor => s.work.thread.Executing?
    case MessagingActor => s.bus.thread.Delivering?
  }

  predicate CallEnabled(s: State, actor: Actor, call: Call) {
    CanAct(s, actor) && (call.Write? ==> call.feature in s.storage.writers)
  }

  /** EnqueueStorageWrite and the storage queue accept an event. */
  predicate AcceptsWrite(s: State) {
    8 <= Rank(s.main) && s.storage.queue.Some? && !s.storage.queue.value.stopped
  }

  function CallNext(s: State, call: Call): State {
    match call
    case Post(thunk) => s.(work := PostThunk(s.work, thunk))
    case Publish(payload) => s.(bus := SendNotice(s.bus, Published(payload)))
    case Write(f, w, bypass) =>
      if AcceptsWrite(s) then s.(storage := Enqueue(s.storage, EventGenerated(f, w, bypass))) else s
  }

  // ---- the context thread ----

  datatype ContextStep = TakeThunk | Mutate | SendSnapshot | FinishExecute | ExitContext

  predicate ContextEnabled(s: State, step: ContextStep) {
    match step
    case TakeThunk => s.work.thread.ContextIdle? && HasItem(s.work.queue)
    case Mutate => s.work.thread.Updating?
    case SendSnapshot => s.work.thread.Sending?
    case FinishExecute => s.work.thread.Executing?
    case ExitContext => s.work.thread.ContextIdle? && Drained(s.work.queue)
  }

  function ContextNext(s: State, step: ContextStep): State
    requires ContextEnabled(s, step)
  {
    match step
    case TakeThunk =>
      var thunk := s.work.queue.value.items[0];
      s.(work := s.work.(queue := Rest(s.work.queue), begun := s.work.begun + [thunk],
         thread := if thunk.UpdateContext? then Updating(thunk.callback) else Executing(thunk.id)))
    case Mutate =>
      var c := s.work.thread.callback(s.provider.context);
      s.(provider := s.provider.(context := c, updates := s.provider.updates + [c]),
         work := s.work.(thread := Sending(c)))
    case SendSnapshot =>
      s.(bus := SendNotice(s.bus, ContextChanged(s.work.thread.snapshot)), work := s.work.(thread := ContextIdle))
    case FinishExecute => s.(work := s.work.(thread := ContextIdle))
    case ExitContext => s.(work := s.work.(thread := ContextExited))
  }

  // ---- the messaging thread ----

  datatype MessagingStep = TakeNotice | Deliver | FinishDelivery | ExitMessaging

  predicate MessagingEnabled(b: Bus, step: MessagingStep) {
    match step
    case TakeNotice => b.thread.MessagingIdle? && HasItem(b.queue)
    case Deliver => b.thread.Delivering? && b.thread.next < |b.delivered|
    case FinishDelivery => b.thread.Delivering? && b.thread.next >= |b.delivered|
    case ExitMessaging => b.thread.MessagingIdle? && Drained(b.queue)
  }

  function MessagingNext(b: Bus, step: MessagingStep): Bus
    requires MessagingEnabled(b, step)
  {
    match step
    case TakeNotice =>
      var notice := b.queue.value.items[0];
      b.(queue := Rest(b.queue), taken := b.taken + [notice], thread := Delivering(notice, 0))
    case Deliver =>
      var k := b.thread.next;
      b.(delivered := b.delivered[k := b.delivered[k] + [b.thread.notice]], thread := b.thread.(next := k + 1))
    case FinishDelivery => b.(thread := MessagingIdle)
    case ExitMessaging => b.(thread := MessagingExited)
  }

  // ---- the storage thread ----

  datatype StorageStep = TakeMessage | ExitStorage

  predicate StorageEnabled(st: Storage, step: StorageStep) {
    match step
    case TakeMessage => st.thread.StorageIdle? && HasItem(st.queue)
    case ExitStorage => st.thread.StorageIdle? && Drained(st.queue)
  }

  function StorageNext(st: Storage, step: StorageStep): Storage
    requires StorageEnabled(st, step)
  {
    match step
    case TakeMessage => HandleMessage(st, st.queue.value.items[0]).(queue := Rest(st.queue))
    case ExitStorage => st.(thread := StorageExited)
  }

  // ---- runs ----

  datatype Step = OfMain(m: MainStep) | Proceeding | Calling(actor: Actor, call: Call) | OfContext(c: ContextStep)
    | OfMessaging(d: MessagingStep) | OfStorage(w: StorageStep)

  predicate Enabled(s: State, step: Step) {
    match step
    case OfMain(m) => MainEnabled(s, m)
    case Proceeding => CanProceed(s)
    case Calling(actor, call) => CallEnabled(s, actor, call)
    case OfContext(c) => ContextEnabled(s, c)
    case OfMessaging(d) => MessagingEnabled(s.bus, d)
    case OfStorage(w) => StorageEnabled(s.storage, w)
  }

  function Next(s: State, step: Step): State
    requires Enabled(s, step)
  {
    match step
    case OfMain(m) => MainNext(s, m)
    case Proceeding => Proceed(s)
    case Calling(_, call) => CallNext(s, call)
    case OfContext(c) => ContextNext(s, c)
    case OfMessaging(d) => s.(bus := MessagingNext(s.bus, d))
    case OfStorage(w) => s.(storage := StorageNext(s.storage, w))
  }

  /** After Init: no feature registered, nothing started. */
  function Initialized(tracking: Consent, context: Context): State {
    State(Idle, tracking, Provider(context, context, []), Work(None, NoContext, [], []),
          Bus(None, NoMessaging, [], [], []), Storage(None, NoStorage, [], [], map[]))
  }

  ghost predicate IsRun(c0: Consent, states: seq<State>, steps: seq<Step>) {
    && |states| == |steps| + 1 && states[0] == Initialized(c0, states[0].provider.context)
    && forall i | 0 <= i < |steps| :: Enabled(states[i], steps[i]) && states[i + 1] == Next(states[i], steps[i])
  }
}

/** What holds in every state of every run. */
module PipelineInvariant {
  import opened Options
  import opened Consents
  import opened AtomicQueues
  import opened StorageMessages
  import opened Pipeline

  // ---- which objects exist when ----

  ghost predicate StorageLifetime(main: Main, st: Storage) {
    var r := Rank(main);
    && (st.queue.Some? <==> 2 <= r)
    && (st.queue.Some? ==> (st.queue.value.stopped <==> 18 <= r))
    && (!st.thread.NoStorage? <==> 2 <= r <= 18)
    && (st.thread.StorageExited? || r == 19 ==> Drained(st.queue))
  }

  ghost predicate BusLifetime(main: Main, b: Bus) {
    var r := Rank(main);
    && (b.queue.Some? <==> 3 <= r <= 16)
    && (b.queue.Some? ==> (b.queue.value.stopped <==> 14 <= r))
    && (!b.thread.NoMessaging? <==> 9 <= r <= 14)
    && (b.thread.MessagingExited? || 15 <= r <= 16 ==> Drained(b.queue))
  }

  ghost predicate WorkLifetime(main: Main, w: Work) {
    var r := Rank(main);
    && (w.queue.Some? <==> 7 <= r <= 16)
    && (w.queue.Some? ==> (w.queue.value.stopped <==> 12 <= r))
    && (!w.thread.NoContext? <==> 7 <= r <= 12)
    && (w.thread.ContextExited? || 13 <= r <= 16 ==> Drained(w.queue))
    && (1 <= r <= 7 ==> w.posted == [] && w.begun == [])
    && (r == 7 ==> w.thread.ContextIdle?)
  }

  // ---- nothing is lost or reordered ----

  function Items<T>(q: Option<Queue<T>>): seq<T> {
    if q.Some? then q.value.items else []
  }

  ghost predicate WorkKept(w: Work) {
    w.posted == w.begun + Items(w.queue)
  }

  /** Every handler has seen what was taken from the bus, except perhaps the last notice. */
  ghost predicate BusKept(b: Bus) {
    && b.sent == b.taken + Items(b.queue)
    && (b.thread.Delivering? ==>
      b.taken != [] && b.thread.notice == b.taken[|b.taken| - 1] && b.thread.next <= |b.delivered|)
    && forall k | 0 <= k < |b.delivered| ::
      b.delivered[k] == if b.thread.Delivering? && b.thread.next <= k then b.taken[..|b.taken| - 1] else b.taken
  }

  ghost predicate StorageKept(st: Storage) {
    st.history == st.handled + Items(st.queue)
  }

  // ---- the context as its observers see it ----

  function Contexts(notices: seq<Notice>): seq<Context> {
    if notices == [] then []
    else
      var before, last := Contexts(notices[..|notices| - 1]), notices[|notices| - 1];
      if last.ContextChanged? then before + [last.context] else before
  }

  lemma ContextsOfAppended(notices: seq<Notice>, n: Notice)
    ensures Contexts(notices + [n]) == Contexts(notices) + if n.ContextChanged? then [n.context] else []
  {
    assert (notices + [n])[..|notices|] == notices;
  }

  /** The provider's states when `thunks` run one after another, beginning with `base`. */
  function Snapshots(base: Context, thunks: seq<Thunk>): (r: seq<Context>)
    ensures r != []
  {
    if thunks == [] then [base]
    else
      var before, last := Snapshots(base, thunks[..|thunks| - 1]), thunks[|thunks| - 1];
      if last.UpdateContext? then before + [last.callback(before[|before| - 1])] else before
  }

  function Effect(thunk: Thunk, c: Context): Context {
    if thunk.UpdateContext? then thunk.callback(c) else c
  }

  function ContextAfter(c: Context, thunks: seq<Thunk>): Context
    decreases |thunks|
  {
    if thunks == [] then c else ContextAfter(Effect(thunks[0], c), thunks[1..])
  }

  lemma {:induction false} ContextAfterAppended(c: Context, thunks: seq<Thunk>, last: Thunk)
    ensures ContextAfter(c, thunks + [last]) == Effect(last, ContextAfter(c, thunks))
    decreases |thunks|
  {
    if thunks != [] {
      ContextAfterAppended(Effect(thunks[0], c), thunks[1..], last);
      assert (thunks + [last])[1..] == thunks[1..] + [last];
    }
  }

  /** A snapshot taken but not sent yet. */
  function InHand(main: Main, p: Provider, thread: ContextThread): seq<Context> {
    if main.SnapshotTaken? then [p.context]
    else if thread.Sending? then [thread.snapshot]
    else []
  }

  /** The notices sent so far carry all states the provider has had, in order, and the first
      of them is the context the session began with. */
  ghost predicate ContextsSent(main: Main, p: Provider, sent: seq<Notice>, thread: ContextThread) {
    var r := Rank(main);
    && (1 <= r <= 5 ==> sent == [] && p.context == p.base)
    && (6 <= r ==> sent != [] && sent[0] == ContextChanged(p.base))
    && (5 <= r ==> p.updates == Contexts(sent) + InHand(main, p, thread))
  }

  /** The thunks whose effect on the context has happened. */
  function Mutated(w: Work): seq<Thunk> {
    if w.thread.Updating? && w.begun != [] then w.begun[..|w.begun| - 1] else w.begun
  }

  ghost predicate UpdatesOfThunks(main: Main, p: Provider, w: Work) {
    && (1 <= Rank(main) ==> p.base.rum == None)
    && (5 <= Rank(main) ==>
      && p.updates == Snapshots(p.base, Mutated(w))
      && p.updates != [] && p.updates[|p.updates| - 1] == p.context)
    && (w.thread.Updating? ==> w.begun != [] && w.begun[|w.begun| - 1] == UpdateContext(w.thread.callback))
  }

  // ---- consent ----

  ghost predicate ConsentFollows(c0: Consent, main: Main, tracking: Consent, history: History) {
    main.ConsentStored? || ConsentAfter(c0, history) == tracking
  }

  ghost predicate WritersReplay(c0: Consent, st: Storage) {
    && (forall j: nat :: j < |st.history| && st.history[j].EventGenerated? ==> st.history[j].feature in st.writers)
    && (forall f :: f in st.writers ==> st.writers[f] == Replay(f, c0, st.handled))
  }

  ghost predicate Lifetimes(s: State) {
    StorageLifetime(s.main, s.storage) && BusLifetime(s.main, s.bus) && WorkLifetime(s.main, s.work)
  }

  ghost predicate NothingLost(s: State) {
    StorageKept(s.storage) && BusKept(s.bus) && WorkKept(s.work)
  }

  ghost predicate ContextKept(s: State) {
    ContextsSent(s.main, s.provider, s.bus.sent, s.work.thread) && UpdatesOfThunks(s.main, s.provider, s.work)
  }

  ghost predicate ConsentKept(c0: Consent, s: State) {
    ConsentFollows(c0, s.main, s.tracking, s.storage.history) && WritersReplay(c0, s.storage)
  }

  ghost predicate Inv(c0: Consent, s: State) {
    Lifetimes(s) && NothingLost(s) && ContextKept(s) && ConsentKept(c0, s)
  }

  // ---- the main thread keeps it ----

  lemma ProceedKeepsStorageLifetime(s: State)
    requires StorageLifetime(s.main, s.storage) && CanProceed(s)
    ensures StorageLifetime(Proceed(s).main, Proceed(s).storage)
  {
  }

  lemma ProceedKeepsBusLifetime(s: State)
    requires BusLifetime(s.main, s.bus) && CanProceed(s)
    ensures BusLifetime(Proceed(s).main, Proceed(s).bus)
  {
  }

  lemma ProceedKeepsWorkLifetime(s: State)
    requires WorkLifetime(s.main, s.work) && CanProceed(s)
    ensures WorkLifetime(Proceed(s).main, Proceed(s).work)
  {
  }

  lemma ProceedKeepsLifetimes(s: State)
    requires Lifetimes(s) && CanProceed(s)
    ensures Lifetimes(Proceed(s))
  {
    ProceedKeepsStorageLifetime(s);
    ProceedKeepsBusLifetime(s);
    ProceedKeepsWorkLifetime(s);
  }

  lemma ProceedKeepsWork(s: State)
    requires Lifetimes(s) && WorkKept(s.work) && CanProceed(s)
    ensures WorkKept(Proceed(s).work)
  {
  }

  lemma ProceedKeepsBus(s: State)
    requires Lifetimes(s) && BusKept(s.bus) && CanProceed(s)
    ensures BusKept(Proceed(s).bus)
  {
    if s.main.SnapshotTaken? {
      SendKeepsBus(s.main, s.bus, ContextChanged(s.provider.context));
    } else {
      assert Proceed(s).bus.taken == s.bus.taken && Proceed(s).bus.delivered == s.bus.delivered;
    }
  }

  lemma ProceedKeepsStorage(s: State)
    requires Lifetimes(s) && StorageKept(s.storage) && CanProceed(s)
    ensures StorageKept(Proceed(s).storage)
  {
  }

  lemma FirstSnapshotSent(s: State)
    requires Lifetimes(s) && ContextsSent(s.main, s.provider, s.bus.sent, s.work.thread) && s.main.SnapshotTaken?
    ensures
      var s' := Proceed(s);
      ContextsSent(s'.main, s'.provider, s'.bus.sent, s'.work.thread)
  {
    ContextsOfAppended([], ContextChanged(s.provider.context));
    assert Proceed(s).bus.sent == [ContextChanged(s.provider.context)];
    assert s.provider.updates == [s.provider.context];
  }

  lemma ProceedKeepsContextsSent(s: State)
    requires Lifetimes(s) && ContextsSent(s.main, s.provider, s.bus.sent, s.work.thread) && CanProceed(s)
    ensures
      var s' := Proceed(s);
      ContextsSent(s'.main, s'.provider, s'.bus.sent, s'.work.thread)
  {
    var s' := Proceed(s);
    if s.main.SnapshotTaken? {
      FirstSnapshotSent(s);
    } else if s.main.BusInstalled? {
      assert InHand(s'.main, s'.provider, s'.work.thread) == [s.provider.context];
    } else {
      assert s'.bus.sent == s.bus.sent && s'.provider == s.provider;
      assert InHand(s'.main, s'.provider, s'.work.thread) == InHand(s.main, s.provider, s.work.thread);
    }
  }

  lemma ProceedKeepsUpdates(s: State)
    requires Lifetimes(s) && ContextKept(s) && CanProceed(s)
    ensures
      var s' := Proceed(s);
      UpdatesOfThunks(s'.main, s'.provider, s'.work)
  {
    var s' := Proceed(s);
    if s.main.BusInstalled? {
      assert Mutated(s'.work) == [];
    } else {
      assert s'.provider == s.provider || s'.main.Idle?;
      assert Mutated(s'.work) == Mutated(s.work);
    }
  }

  lemma ProceedKeepsConsent(c0: Consent, s: State)
    requires Lifetimes(s) && ConsentKept(c0, s) && CanProceed(s)
    ensures ConsentKept(c0, Proceed(s))
  {
  }

  lemma ProceedKeepsInv(c0: Consent, s: State)
    requires Inv(c0, s) && CanProceed(s)
    ensures Inv(c0, Proceed(s))
  {
    ProceedKeepsLifetimes(s);
    ProceedKeepsWork(s);
    ProceedKeepsBus(s);
    ProceedKeepsStorage(s);
    ProceedKeepsContextsSent(s);
    ProceedKeepsUpdates(s);
    ProceedKeepsConsent(c0, s);
  }

  /** A writer of a feature without events knows nothing but the current consent. */
  lemma {:induction false} ReplayWithoutEvents(f: FeatureId, c0: Consent, log: History)
    requires forall m <- log :: m.EventGenerated? ==> m.feature != f
    ensures Replay(f, c0, log) == Ledger(ConsentAfter(c0, log), {}, {})
  {
    if log != [] {
      ReplayWithoutEvents(f, c0, log[..|log| - 1]);
    }
  }

  lemma HandlingKeepsReplay(c0: Consent, st: Storage, m: Message)
    requires forall f :: f in st.writers ==> st.writers[f] == Replay(f, c0, st.handled)
    ensures
      var st' := HandleMessage(st, m);
      forall f :: f in st'.writers ==> st'.writers[f] == Replay(f, c0, st'.handled)
  {
    assert (st.handled + [m])[..|st.handled|] == st.handled;
  }

  lemma MainKeepsConsent(c0: Consent, s: State, step: MainStep)
    requires Inv(c0, s) && MainEnabled(s, step)
    ensures ConsentKept(c0, MainNext(s, step))
  {
    match step
    case Register(f) =>
      assert s.storage.history == s.storage.handled;
      ReplayWithoutEvents(f, c0, s.storage.handled);
    case SetTrackingConsent(v) =>
      HandlingKeepsReplay(c0, s.storage, TrackingConsentChanged(v));
    case _ =>
  }

  lemma MainKeepsLifetimes(s: State, step: MainStep)
    requires Lifetimes(s) && MainEnabled(s, step)
    ensures Lifetimes(MainNext(s, step))
  {
  }

  lemma MainKeepsQueues(s: State, step: MainStep)
    requires Lifetimes(s) && NothingLost(s) && ContextKept(s) && MainEnabled(s, step)
    ensures NothingLost(MainNext(s, step))
  {
    if step.SetTrackingConsent? && s.main.Idle? {
      assert s.storage.history == s.storage.handled;
    }
  }

  lemma MainKeepsContext(s: State, step: MainStep)
    requires Lifetimes(s) && ContextKept(s) && MainEnabled(s, step)
    ensures ContextKept(MainNext(s, step))
  {
  }

  // ---- and so do all others ----

  lemma PostKeepsWork(main: Main, w: Work, thunk: Thunk)
    requires WorkLifetime(main, w) && WorkKept(w) && !main.ContextUp?
    ensures WorkLifetime(main, PostThunk(w, thunk)) && WorkKept(PostThunk(w, thunk))
  {
  }

  lemma SendKeepsBus(main: Main, b: Bus, notice: Notice)
    requires BusLifetime(main, b) && BusKept(b)
    ensures BusLifetime(main, SendNotice(b, notice)) && BusKept(SendNotice(b, notice))
  {
  }

  lemma EnqueueKeepsStorage(main: Main, st: Storage, m: Message)
    requires StorageLifetime(main, st) && StorageKept(st)
    ensures StorageLifetime(main, Enqueue(st, m)) && StorageKept(Enqueue(st, m))
  {
  }

  lemma PostKeepsInv(c0: Consent, s: State, actor: Actor, thunk: Thunk)
    requires Inv(c0, s) && CallEnabled(s, actor, Post(thunk))
    ensures Inv(c0, CallNext(s, Post(thunk)))
  {
    PostKeepsWork(s.main, s.work, thunk);
    assert Mutated(PostThunk(s.work, thunk)) == Mutated(s.work);
  }

  /** Feature code runs only between OnCoreStarted and OnCoreStopping. */
  lemma ActorsAreUp(s: State, actor: Actor)
    requires Lifetimes(s) && CanAct(s, actor)
    ensures 8 <= Rank(s.main) <= 16
  {
  }

  lemma PublishKeepsContextsSent(main: Main, p: Provider, b: Bus, payload: string, thread: ContextThread)
    requires ContextsSent(main, p, b.sent, thread) && Rank(main) >= 8
    ensures ContextsSent(main, p, SendNotice(b, Published(payload)).sent, thread)
  {
    ContextsOfAppended(b.sent, Published(payload));
    assert Contexts(b.sent) + [] == Contexts(b.sent);
  }

  lemma PublishKeepsInv(c0: Consent, s: State, actor: Actor, payload: string)
    requires Inv(c0, s) && CallEnabled(s, actor, Publish(payload))
    ensures Inv(c0, CallNext(s, Publish(payload)))
  {
    ActorsAreUp(s, actor);
    SendKeepsBus(s.main, s.bus, Published(payload));
    PublishKeepsContextsSent(s.main, s.provider, s.bus, payload, s.work.thread);
  }

  lemma WriteKeepsInv(c0: Consent, s: State, actor: Actor, call: Call)
    requires Inv(c0, s) && call.Write? && CallEnabled(s, actor, call)
    ensures Inv(c0, CallNext(s, call))
  {
    EnqueueKeepsStorage(s.main, s.storage, EventGenerated(call.feature, call.write, call.bypass));
  }

  lemma ContextThreadKeepsLifetimes(s: State, step: ContextStep)
    requires Lifetimes(s) && NothingLost(s) && ContextEnabled(s, step)
    ensures Lifetimes(ContextNext(s, step)) && NothingLost(ContextNext(s, step))
  {
    if step.SendSnapshot? {
      SendKeepsBus(s.main, s.bus, ContextChanged(s.work.thread.snapshot));
    }
  }

  lemma SendKeepsContextsSent(s: State)
    requires Lifetimes(s) && ContextKept(s) && s.work.thread.Sending?
    ensures
      var s' := ContextNext(s, SendSnapshot);
      ContextsSent(s'.main, s'.provider, s'.bus.sent, s'.work.thread)
  {
    var n := ContextChanged(s.work.thread.snapshot);
    ContextsOfAppended(s.bus.sent, n);
    assert SendNotice(s.bus, n).sent == s.bus.sent + [n];
    assert Contexts(s.bus.sent + [n]) + [] == Contexts(s.bus.sent) + [s.work.thread.snapshot];
  }

  lemma ContextThreadKeepsContextsSent(s: State, step: ContextStep)
    requires Lifetimes(s) && ContextKept(s) && ContextEnabled(s, step)
    ensures
      var s' := ContextNext(s, step);
      ContextsSent(s'.main, s'.provider, s'.bus.sent, s'.work.thread)
  {
    if step.SendSnapshot? {
      SendKeepsContextsSent(s);
    } else if step.Mutate? {
      var c := s.work.thread.callback(s.provider.context);
      assert (Contexts(s.bus.sent) + []) + [c] == Contexts(s.bus.sent) + [c];
    } else {
      assert ContextNext(s, step).bus == s.bus && ContextNext(s, step).provider == s.provider;
    }
  }

  lemma ContextThreadKeepsUpdates(s: State, step: ContextStep)
    requires Lifetimes(s) && ContextKept(s) && ContextEnabled(s, step)
    ensures
      var s' := ContextNext(s, step);
      UpdatesOfThunks(s'.main, s'.provider, s'.work)
  {
    var w' := ContextNext(s, step).work;
    if step.TakeThunk? {
      var thunk := s.work.queue.value.items[0];
      assert w'.begun[..|s.work.begun|] == s.work.begun;
      assert w'.begun[|w'.begun| - 1] == thunk;
    } else {
      assert w'.begun == s.work.begun;
      assert step.Mutate? || Mutated(w') == Mutated(s.work);
    }
  }

  lemma MessagingThreadKeepsBus(main: Main, b: Bus, step: MessagingStep)
    requires BusLifetime(main, b) && BusKept(b) && MessagingEnabled(b, step)
    ensures BusLifetime(main, MessagingNext(b, step)) && BusKept(MessagingNext(b, step))
    ensures MessagingNext(b, step).sent == b.sent
  {
  }

  lemma StorageThreadKeepsStorage(c0: Consent, main: Main, st: Storage, step: StorageStep)
    requires StorageLifetime(main, st) && StorageKept(st) && WritersReplay(c0, st) && StorageEnabled(st, step)
    ensures
      var st' := StorageNext(st, step);
      StorageLifetime(main, st') && StorageKept(st') && WritersReplay(c0, st') && st'.history == st.history
  {
    if step.TakeMessage? {
      HandlingKeepsReplay(c0, st, st.queue.value.items[0]);
    }
  }

  lemma StepKeepsInv(c0: Consent, s: State, step: Step)
    requires Inv(c0, s) && Enabled(s, step)
    ensures Inv(c0, Next(s, step))
  {
    match step
    case OfMain(m) =>
      MainKeepsConsent(c0, s, m);
      MainKeepsLifetimes(s, m);
      MainKeepsQueues(s, m);
      MainKeepsContext(s, m);
    case Proceeding => ProceedKeepsInv(c0, s);
    case Calling(actor, call) =>
      match call {
        case Post(thunk) => PostKeepsInv(c0, s, actor, thunk);
        case Publish(payload) => PublishKeepsInv(c0, s, actor, payload);
        case Write(_, _, _) => WriteKeepsInv(c0, s, actor, call);
      }
    case OfContext(c) =>
      ContextThreadKeepsLifetimes(s, c);
      ContextThreadKeepsContextsSent(s, c);
      ContextThreadKeepsUpdates(s, c);
    case OfMessaging(d) => MessagingThreadKeepsBus(s.main, s.bus, d);
    case OfStorage(w) => StorageThreadKeepsStorage(c0, s.main, s.storage, w);
  }

  lemma {:induction false} InvHolds(c0: Consent, states: seq<State>, steps: seq<Step>, i: nat)
    requires IsRun(c0, states, steps) && i < |states|
    ensures Inv(c0, states[i])
  {
    if i > 0 {
      InvHolds(c0, states, steps, i - 1);
      assert Enabled(states[i - 1], steps[i - 1]);
      StepKeepsInv(c0, states[i - 1], steps[i - 1]);
    }
  }
}

/** The queue between threads (queue.hpp) as its callers see it: operations that happen at once. */
module AtomicQueues {
  import opened Options

  datatype Queue<T> = Queue(items: seq<T>, stopped: bool)

  ghost predicate Pushed<T>(q: Queue<T>, x: T, q': Queue<T>, accepted: bool) {
    accepted == !q.stopped && q' == if accepted then q.(items := q.items + [x]) else q
  }

  /** Popping is possible only once there is an item or the queue is stopped. */
  ghost predicate Popped<T>(q: Queue<T>, q': Queue<T>, r: Option<T>) {
    if q.items == [] then q.stopped && q' == q && r == None
    else r == Some(q.items[0]) && q' == q.(items := q.items[1..])
  }

  ghost predicate Stopped<T>(q: Queue<T>, q': Queue<T>) {
    q' == q.(stopped := true)
  }

  /** What the critical sections do to the queue object. */
  class QueueObject<T> {
    var items: seq<T>
    var isStopped: bool

    constructor ()
      ensures State() == Queue([], false)
    {
      items, isStopped := [], false;
    }

    ghost function State(): Queue<T>
      reads this
    {
      Queue(items, isStopped)
    }

    method Push(item: T) returns (accepted: bool)
      modifies this
      ensures Pushed(old(State()), item, State(), accepted)
    {
      if isStopped {
        return false;
      }
      items := items + [item];
      return true;
    }

    /** From where the wait ends. */
    method Pop() returns (r: Option<T>)
      requires items != [] || isStopped
      modifies this
      ensures Popped(old(State()), State(), r)
    {
      if items == [] {
        return None;
      }
      r := Some(items[0]);
      items := items[1..];
    }

    method Stop()
      modifies this
      ensures Stopped(old(State()), State())
    {
      isStopped := true;
    }
  }
}

/** The same queue with every lock operation, flag access, wait and notification as a step of
    its own, for any number of producers and consumers. */
module ConcurrentQueue {
  import opened Options
  import opened AtomicQueues

  type ThreadId = nat

  /** Where a thread is. `Holds` lists the places at which it owns the mutex. */
  datatype Place<T> =
    | Outside
    | PushCalled(item: T)      // waiting for the mutex
    | PushLocked(item: T)
    | PushAdmitted(item: T)    // has read the flag as unset
    | PushEmplaced             // has stored the item, has not notified yet
    | PushDone(accepted: bool) // about to release the mutex and return
    | PopCalled                // waiting for the mutex, at first or after a wakeup
    | PopLocked                // about to evaluate the wait predicate
    | PopUnsatisfied           // predicate was false, about to wait
    | PopBlocked               // waiting for a notification, mutex released
    | PopSatisfied             // predicate was true
    | StopCalled
    | StopFlagged              // flag set, waiting for the mutex
    | StopLocked

  datatype State<T> = State(
    items: seq<T>, stopped: bool, owner: Option<ThreadId>, at: map<ThreadId, Place<T>>,
    accepted: seq<T>,  // items whose push was admitted, in that order
    popped: seq<T>, exhausted: bool,  // a pop has returned nullopt
    stopReturned: bool)

  predicate Holds<T>(p: Place<T>) {
    p.PushLocked? || p.PushAdmitted? || p.PushEmplaced? || p.PushDone? || p.PopLocked? || p.PopUnsatisfied? ||
    p.PopSatisfied? || p.StopLocked?
  }

  datatype Step<T> =
    | CallPush(t: ThreadId, item: T) | CallPop(t: ThreadId) | CallStop(t: ThreadId)
    | Acquire(t: ThreadId)
    | ReadFlag(t: ThreadId) | Emplace(t: ThreadId) | NotifyOne(t: ThreadId, woken: Option<ThreadId>)
    | ReturnPush(t: ThreadId)
    | Evaluate(t: ThreadId) | Wait(t: ThreadId) | SpuriousWakeup(t: ThreadId) | ReturnPop(t: ThreadId)
    | SetFlag(t: ThreadId) | NotifyAll(t: ThreadId)

  function PlaceOf<T>(s: State<T>, t: ThreadId): Place<T> {
    if t in s.at then s.at[t] else Outside
  }

  predicate Blocked<T>(s: State<T>, t: ThreadId) {
    PlaceOf(s, t).PopBlocked?
  }

  predicate Enabled<T>(s: State<T>, step: Step<T>) {
    var p := PlaceOf(s, step.t);
    match step
    case CallPush(_, _) => p.Outside?
    case CallPop(_) => p.Outside?
    case CallStop(_) => p.Outside?
    case Acquire(_) => s.owner == None && (p.PushCalled? || p.PopCalled? || p.StopFlagged?)
    case ReadFlag(_) => p.PushLocked?
    case Emplace(_) => p.PushAdmitted?
    case NotifyOne(_, woken) => p.PushEmplaced? && OneWoken(s, woken)
    case ReturnPush(_) => p.PushDone?
    case Evaluate(_) => p.PopLocked?
    case Wait(_) => p.PopUnsatisfied?
    case SpuriousWakeup(_) => p.PopBlocked?
    case ReturnPop(_) => p.PopSatisfied?
    case SetFlag(_) => p.StopCalled?
    case NotifyAll(_) => p.StopLocked?
  }

  /** A notification wakes one of the blocked threads, if there are any. */
  predicate OneWoken<T>(s: State<T>, woken: Option<ThreadId>) {
    match woken
    case Some(u) => Blocked(s, u)
    case None => forall u <- s.at :: !Blocked(s, u)
  }

  function Moved<T>(s: State<T>, t: ThreadId, p: Place<T>): State<T> {
    s.(at := s.at[t := p])
  }

  /** Where the thread that takes the step is afterwards. */
  function PlaceAfter<T>(s: State<T>, step: Step<T>): Place<T>
    requires Enabled(s, step)
  {
    var p := PlaceOf(s, step.t);
    match step
    case CallPush(_, x) => PushCalled(x)
    case CallPop(_) => PopCalled
    case CallStop(_) => StopCalled
    case Acquire(_) => if p.PushCalled? then PushLocked(p.item) else if p.PopCalled? then PopLocked else StopLocked
    case ReadFlag(_) => if s.stopped then PushDone(false) else PushAdmitted(p.item)
    case Emplace(_) => PushEmplaced
    case NotifyOne(_, _) => PushDone(true)
    case Evaluate(_) => if s.items != [] || s.stopped then PopSatisfied else PopUnsatisfied
    case Wait(_) => PopBlocked
    case SpuriousWakeup(_) => PopCalled
    case SetFlag(_) => StopFlagged
    case _ => Outside  // returns from push, pop and stop
  }

  function Next<T>(s: State<T>, step: Step<T>): State<T>
    requires Enabled(s, step)
  {
    var s1 := Moved(s, step.t, PlaceAfter(s, step));
    match step
    case Acquire(t) => s1.(owner := Some(t))
    case ReadFlag(t) => if s.stopped then s1 else s1.(accepted := s.accepted + [PlaceOf(s, t).item])
    case Emplace(t) => s1.(items := s.items + [PlaceOf(s, t).item])
    case NotifyOne(_, woken) => if woken.Some? then Moved(s1, woken.value, PopCalled) else s1
    case ReturnPush(_) => s1.(owner := None)
    case Wait(_) => s1.(owner := None)
    case ReturnPop(_) =>
      if s.items == [] then s1.(owner := None, exhausted := true)
      else s1.(owner := None, items := s.items[1..], popped := s.popped + [s.items[0]])
    case SetFlag(_) => s1.(stopped := true)
    case NotifyAll(_) => s1.(at := AllWoken(s1.at), owner := None, stopReturned := true)
    case _ => s1
  }

  function AllWoken<T>(at: map<ThreadId, Place<T>>): map<ThreadId, Place<T>> {
    map u | u in at :: if at[u].PopBlocked? then PopCalled else at[u]
  }

  function Start<T>(): State<T> {
    State([], false, None, map[], [], [], false, false)
  }

  /** A run: the states passed through and the steps between them. */
  ghost predicate IsRun<T(!new)>(states: seq<State<T>>, steps: seq<Step<T>>) {
    && |states| == |steps| + 1 && states[0] == Start()
    && forall i | 0 <= i < |steps| :: Enabled(states[i], steps[i]) && states[i + 1] == Next(states[i], steps[i])
  }

  // ---- invariants ----

  /** The mutex owner, and nobody else, is at a place that holds the mutex. */
  ghost predicate Exclusive<T>(s: State<T>) {
    forall t: ThreadId :: Holds(PlaceOf(s, t)) <==> s.owner == Some(t)
  }

  /** The item of the thread that was admitted and has not stored it yet. */
  function InFlight<T>(s: State<T>): seq<T> {
    match s.owner
    case Some(t) => if PlaceOf(s, t).PushAdmitted? then [PlaceOf(s, t).item] else []
    case None => []
  }

  ghost predicate Conserved<T>(s: State<T>) {
    s.accepted == s.popped + s.items + InFlight(s)
  }

  /** The flag is set but blocked consumers have not been told yet. */
  predicate Stopping<T>(p: Place<T>) {
    p.StopFlagged? || p.StopLocked?
  }

  ghost predicate StopSettled<T>(s: State<T>) {
    && (s.stopped ==> s.stopReturned || exists t :: Stopping(PlaceOf(s, t)))
    && (s.stopReturned ==> s.stopped)
    && (forall t :: Stopping(PlaceOf(s, t)) ==> s.stopped)
  }

  ghost predicate PopsSettled<T>(s: State<T>) {
    && (s.exhausted ==> s.stopped && s.items == [] && InFlight(s) == [])
    && (forall t :: PlaceOf(s, t).PopUnsatisfied? ==> s.items == [])
    && (forall t :: PlaceOf(s, t).PopSatisfied? ==> s.items != [] || s.stopped)
  }

  ghost predicate NobodyWaits<T>(s: State<T>) {
    s.stopReturned ==> forall t :: !PlaceOf(s, t).PopBlocked? && !PlaceOf(s, t).PopUnsatisfied?
  }

  ghost predicate Settled<T>(s: State<T>) {
    StopSettled(s) && PopsSettled(s) && NobodyWaits(s)
  }

  predicate Awake<T>(p: Place<T>) {
    p.PopCalled? || p.PopLocked? || p.PopSatisfied? || p.PushEmplaced?
  }

  function AwakeIn<T>(at: map<ThreadId, Place<T>>): set<ThreadId> {
    set t | t in at && Awake(at[t])
  }

  /** Consumers that will look at the items before they wait again, and a producer that has
      yet to notify. */
  function AwakeThreads<T>(s: State<T>): set<ThreadId> {
    AwakeIn(s.at)
  }

  ghost predicate NoLostWakeup<T>(s: State<T>) {
    (exists t :: Blocked(s, t)) ==> |s.items| <= |AwakeThreads(s)|
  }

  ghost predicate Inv<T>(s: State<T>) {
    Exclusive(s) && Conserved(s) && Settled(s) && NoLostWakeup(s)
  }

  lemma ActorMoves<T>(s: State<T>, step: Step<T>)
    requires Enabled(s, step)
    ensures PlaceOf(Next(s, step), step.t) == PlaceAfter(s, step)
  {
  }

  /** A notification aside, a step moves one thread. */
  lemma MovesOne<T>(s: State<T>, step: Step<T>)
    requires Enabled(s, step) && !step.NotifyOne? && !step.NotifyAll?
    ensures Next(s, step).at == s.at[step.t := PlaceAfter(s, step)]
  {
  }

  lemma NotifyOneMoves<T>(s: State<T>, step: Step<T>, u: ThreadId)
    requires Enabled(s, step) && step.NotifyOne? && u != step.t
    ensures PlaceOf(Next(s, step), u) == if step.woken == Some(u) then PopCalled else PlaceOf(s, u)
    ensures step.woken == Some(u) ==> PlaceOf(s, u).PopBlocked?
  {
  }

  lemma NotifyAllMoves<T>(s: State<T>, t: ThreadId, u: ThreadId)
    requires Enabled(s, NotifyAll(t)) && u != t
    ensures PlaceOf(Next(s, NotifyAll(t)), u) == if PlaceOf(s, u).PopBlocked? then PopCalled else PlaceOf(s, u)
  {
  }

  /** Steps of one thread only ever wake others. */
  lemma OthersStay<T>(s: State<T>, step: Step<T>, u: ThreadId)
    requires Enabled(s, step) && u != step.t
    ensures PlaceOf(Next(s, step), u) == PlaceOf(s, u)
      || (PlaceOf(s, u).PopBlocked? && PlaceOf(Next(s, step), u).PopCalled?)
  {
    match step
    case NotifyOne(_, _) => NotifyOneMoves(s, step, u);
    case NotifyAll(t) => NotifyAllMoves(s, t, u);
    case _ => MovesOne(s, step);
  }

  /** Who owns the mutex after a step. */
  lemma OwnerAfter<T>(s: State<T>, step: Step<T>)
    requires Enabled(s, step) && (Holds(PlaceOf(s, step.t)) <==> s.owner == Some(step.t))
    ensures Holds(PlaceOf(Next(s, step), step.t)) <==> Next(s, step).owner == Some(step.t)
    ensures Next(s, step).owner == s.owner || step.Acquire? || Holds(PlaceOf(s, step.t))
    ensures Next(s, step).owner in {s.owner, None, Some(step.t)}
  {
    ActorMoves(s, step);
  }

  lemma StepKeepsExclusive<T>(s: State<T>, step: Step<T>)
    requires Exclusive(s) && Enabled(s, step)
    ensures Exclusive(Next(s, step))
  {
    var s' := Next(s, step);
    assert Holds(PlaceOf(s, step.t)) <==> s.owner == Some(step.t);
    OwnerAfter(s, step);
    forall u: ThreadId
      ensures Holds(PlaceOf(s', u)) <==> s'.owner == Some(u)
    {
      assert Holds(PlaceOf(s, u)) <==> s.owner == Some(u);
      if u != step.t {
        OthersStay(s, step, u);
      }
    }
  }

  lemma StepKeepsConserved<T>(s: State<T>, step: Step<T>)
    requires Exclusive(s) && Conserved(s) && Enabled(s, step)
    ensures Conserved(Next(s, step))
  {
    assert Holds(PlaceOf(s, step.t)) <==> s.owner == Some(step.t);
    if !step.ReadFlag? && !step.Emplace? && !step.ReturnPop? {
      InFlightStays(s, step);
    }
  }

  /** The only steps that touch the flag, and what they leave of a stop under way. */
  lemma FlagAfter<T>(s: State<T>, step: Step<T>)
    requires Enabled(s, step)
    ensures Next(s, step).stopped == (s.stopped || step.SetFlag?)
    ensures Next(s, step).stopReturned == (s.stopReturned || step.NotifyAll?)
    ensures Stopping(PlaceOf(Next(s, step), step.t)) <==>
      step.SetFlag? || (step.Acquire? && PlaceOf(s, step.t).StopFlagged?)
    ensures Stopping(PlaceOf(s, step.t)) ==> step.NotifyAll? || step.Acquire?
    ensures step.NotifyAll? ==> Stopping(PlaceOf(s, step.t))
  {
    ActorMoves(s, step);
  }

  lemma StepKeepsStopSettled<T>(s: State<T>, step: Step<T>)
    requires StopSettled(s) && Enabled(s, step)
    ensures StopSettled(Next(s, step))
  {
    var s' := Next(s, step);
    FlagAfter(s, step);
    forall u | u != step.t
      ensures Stopping(PlaceOf(s', u)) <==> Stopping(PlaceOf(s, u))
    {
      OthersStay(s, step, u);
    }
    if step.SetFlag? {
      assert Stopping(PlaceOf(s', step.t));
    } else if s.stopped && !s.stopReturned {
      var u :| Stopping(PlaceOf(s, u));
      assert step.NotifyAll? || Stopping(PlaceOf(s', u));
    }
  }

  /** What a step does to the items, and to the place of the thread in `Pop`. */
  lemma ItemsAfter<T>(s: State<T>, step: Step<T>)
    requires Enabled(s, step)
    ensures !step.Emplace? && !step.ReturnPop? ==> Next(s, step).items == s.items
    ensures PlaceOf(Next(s, step), step.t).PopUnsatisfied? ==> step.Evaluate? && s.items == [] && !s.stopped
    ensures PlaceOf(Next(s, step), step.t).PopSatisfied? ==> step.Evaluate? && (s.items != [] || s.stopped)
    ensures PlaceOf(Next(s, step), step.t).PopBlocked? ==> step.Wait?
    ensures Next(s, step).exhausted == (s.exhausted || (step.ReturnPop? && s.items == []))
  {
    ActorMoves(s, step);
  }

  /** While one thread is in the critical section, no other is. */
  lemma OthersHoldNothing<T>(s: State<T>, t: ThreadId, u: ThreadId)
    requires Exclusive(s) && Holds(PlaceOf(s, t)) && u != t
    ensures !Holds(PlaceOf(s, u))
  {
    assert Holds(PlaceOf(s, u)) <==> s.owner == Some(u);
  }

  lemma StepKeepsPlacesSettled<T>(s: State<T>, step: Step<T>, u: ThreadId)
    requires Exclusive(s) && PopsSettled(s) && Enabled(s, step)
    ensures PlaceOf(Next(s, step), u).PopUnsatisfied? ==> Next(s, step).items == []
    ensures PlaceOf(Next(s, step), u).PopSatisfied? ==> Next(s, step).items != [] || Next(s, step).stopped
  {
    ItemsAfter(s, step);
    FlagAfter(s, step);
    if u != step.t {
      OthersStay(s, step, u);
      if step.Emplace? || step.ReturnPop? {
        OthersHoldNothing(s, step.t, u);
      }
    }
  }

  lemma StepKeepsExhausted<T>(s: State<T>, step: Step<T>)
    requires Exclusive(s) && PopsSettled(s) && Enabled(s, step) && Next(s, step).exhausted
    ensures Next(s, step).stopped && Next(s, step).items == [] && InFlight(Next(s, step)) == []
  {
    assert Holds(PlaceOf(s, step.t)) <==> s.owner == Some(step.t);
    if !step.ReadFlag? && !step.Emplace? && !step.ReturnPop? {
      InFlightStays(s, step);
    }
  }

  lemma StepKeepsNobodyWaiting<T>(s: State<T>, step: Step<T>, u: ThreadId)
    requires Exclusive(s) && Settled(s) && Enabled(s, step) && Next(s, step).stopReturned
    ensures !PlaceOf(Next(s, step), u).PopBlocked? && !PlaceOf(Next(s, step), u).PopUnsatisfied?
  {
    FlagAfter(s, step);
    ItemsAfter(s, step);
    if u != step.t {
      OthersStay(s, step, u);
      if step.NotifyAll? {
        NotifyAllMoves(s, step.t, u);
        OthersHoldNothing(s, step.t, u);
      }
    }
  }

  lemma StepKeepsSettled<T>(s: State<T>, step: Step<T>)
    requires Exclusive(s) && Settled(s) && Enabled(s, step)
    ensures Settled(Next(s, step))
  {
    var s' := Next(s, step);
    StepKeepsStopSettled(s, step);
    if s'.exhausted {
      StepKeepsExhausted(s, step);
    }
    forall u: ThreadId
      ensures PlaceOf(s', u).PopUnsatisfied? ==> s'.items == []
      ensures PlaceOf(s', u).PopSatisfied? ==> s'.items != [] || s'.stopped
      ensures s'.stopReturned ==> !PlaceOf(s', u).PopBlocked? && !PlaceOf(s', u).PopUnsatisfied?
    {
      StepKeepsPlacesSettled(s, step, u);
      if s'.stopReturned {
        StepKeepsNobodyWaiting(s, step, u);
      }
    }
  }

  lemma MoveCounts<T>(at: map<ThreadId, Place<T>>, t: ThreadId, p: Place<T>)
    ensures |AwakeIn(at[t := p])| ==
      |AwakeIn(at)| + (if Awake(p) then 1 else 0) - (if t in at && Awake(at[t]) then 1 else 0)
  {
    assert AwakeIn(at[t := p]) == if Awake(p) then AwakeIn(at) + {t} else AwakeIn(at) - {t};
  }

  lemma StepKeepsNoLostWakeup<T>(s: State<T>, step: Step<T>)
    requires Exclusive(s) && Settled(s) && NoLostWakeup(s) && Enabled(s, step)
    ensures NoLostWakeup(Next(s, step))
  {
    var s' := Next(s, step);
    if t :| Blocked(s', t) {
      StillOneBlocked(s, step, t);
      if !step.NotifyAll? {
        AwakeAfter(s, step);
      }
    }
  }

  lemma StillOneBlocked<T>(s: State<T>, step: Step<T>, t: ThreadId)
    requires Enabled(s, step) && Blocked(Next(s, step), t)
    ensures t != step.t ==> Blocked(s, t)
    ensures t == step.t ==> step.Wait?
    ensures !step.NotifyAll?
  {
    if t != step.t {
      OthersStay(s, step, t);
    }
  }

  lemma AwakeAfterNotifyOne<T>(s: State<T>, t: ThreadId, woken: Option<ThreadId>)
    requires Enabled(s, NotifyOne(t, woken))
    ensures |AwakeThreads(Next(s, NotifyOne(t, woken)))| == |AwakeThreads(s)| - if woken.Some? then 0 else 1
  {
    MoveCounts(s.at, t, PushDone(true));
    if woken.Some? {
      MoveCounts(s.at[t := PushDone(true)], woken.value, PopCalled);
    }
  }

  lemma AwakeAfter<T>(s: State<T>, step: Step<T>)
    requires Enabled(s, step) && !step.NotifyAll?
    ensures |AwakeThreads(Next(s, step))| ==
      |AwakeThreads(s)|
      + (if Awake(PlaceOf(Next(s, step), step.t)) then 1 else 0) - (if Awake(PlaceOf(s, step.t)) then 1 else 0)
      + if step.NotifyOne? && step.woken.Some? then 1 else 0
  {
    if step.NotifyOne? {
      AwakeAfterNotifyOne(s, step.t, step.woken);
    } else {
      MovesOne(s, step);
      MoveCounts(s.at, step.t, PlaceAfter(s, step));
    }
  }

  lemma {:induction false} InvHolds<T(!new)>(states: seq<State<T>>, steps: seq<Step<T>>, i: nat)
    requires IsRun(states, steps) && i < |states|
    ensures Inv(states[i])
  {
    if i > 0 {
      InvHolds(states, steps, i - 1);
      var s, step := states[i - 1], steps[i - 1];
      StepKeepsExclusive(s, step);
      StepKeepsConserved(s, step);
      StepKeepsSettled(s, step);
      StepKeepsNoLostWakeup(s, step);
      assert Enabled(states[i - 1], steps[i - 1]);
    }
  }

  // ---- what callers rely on ----

  /** In every state of every run, the admitted items are those taken followed by those still
      queued, in order; at most one, owned by the thread in the critical section, is on its way
      into the queue. */
  lemma Conservation<T(!new)>(states: seq<State<T>>, steps: seq<Step<T>>, i: nat)
    requires IsRun(states, steps) && i < |states|
    ensures states[i].accepted == states[i].popped + states[i].items + InFlight(states[i])
    ensures states[i].owner == None ==> states[i].accepted == states[i].popped + states[i].items
  {
    InvHolds(states, steps, i);
  }

  lemma NothingLeft<T>(s: State<T>)
    requires Conserved(s) && PopsSettled(s) && s.exhausted
    ensures s.items == [] && s.accepted == s.popped
  {
  }

  /** After a pop has returned nullopt nothing is ever admitted, queued or taken again. */
  lemma {:induction false} ExhaustedForGood<T(!new)>(states: seq<State<T>>, steps: seq<Step<T>>, i: nat, j: nat)
    requires IsRun(states, steps) && i <= j < |states| && states[i].exhausted
    ensures states[j].exhausted && states[j].items == []
    ensures states[j].accepted == states[i].accepted == states[j].popped == states[i].popped
  {
    if i == j {
      InvHolds(states, steps, j);
      NothingLeft(states[j]);
    } else {
      ExhaustedForGood(states, steps, i, j - 1);
      InvHolds(states, steps, j - 1);
      assert Enabled(states[j - 1], steps[j - 1]);
      StepAfterExhaustion(states[j - 1], steps[j - 1]);
    }
  }

  lemma StepAfterExhaustion<T>(s: State<T>, step: Step<T>)
    requires Exclusive(s) && PopsSettled(s) && s.exhausted && Enabled(s, step)
    ensures
      var s' := Next(s, step);
      s'.exhausted && s'.items == [] && s'.accepted == s.accepted && s'.popped == s.popped
  {
    assert Holds(PlaceOf(s, step.t)) <==> s.owner == Some(step.t);
  }

  /** Once a call to Stop has returned, no consumer waits or is about to wait. */
  lemma NobodyWaitsAfterStop<T(!new)>(states: seq<State<T>>, steps: seq<Step<T>>, i: nat, t: ThreadId)
    requires IsRun(states, steps) && i < |states| && states[i].stopReturned
    ensures !PlaceOf(states[i], t).PopBlocked? && !PlaceOf(states[i], t).PopUnsatisfied?
  {
    InvHolds(states, steps, i);
  }

  /** Queued items never outnumber the threads awake to deal with them while a consumer waits. */
  lemma SomeoneIsAwake<T(!new)>(states: seq<State<T>>, steps: seq<Step<T>>, i: nat, t: ThreadId)
    requires IsRun(states, steps) && i < |states| && Blocked(states[i], t) && states[i].items != []
    ensures |states[i].items| <= |AwakeThreads(states[i])|
    ensures exists u :: u in states[i].at && Awake(states[i].at[u])
  {
    InvHolds(states, steps, i);
    var u :| u in AwakeThreads(states[i]);
  }

  /** A step that does not begin a new call and does not rely on luck. */
  predicate Progress<T>(step: Step<T>) {
    !step.CallPush? && !step.CallPop? && !step.CallStop? && !step.SpuriousWakeup?
  }

  /** No deadlock: as long as any thread is inside an operation some thread can go on, unless
      all of them wait in Pop on an empty queue that nobody has stopped. */
  lemma NeverStuck<T(!new)>(states: seq<State<T>>, steps: seq<Step<T>>, i: nat, t: ThreadId) returns (step: Step<T>)
    requires IsRun(states, steps) && i < |states| && !PlaceOf(states[i], t).Outside?
    ensures (Progress(step) && Enabled(states[i], step))
      || (&& states[i].items == [] && !states[i].stopped
          && forall u :: PlaceOf(states[i], u).Outside? || PlaceOf(states[i], u).PopBlocked?)
  {
    var s := states[i];
    InvHolds(states, steps, i);
    if s.owner.Some? {
      assert Holds(PlaceOf(s, s.owner.value));
      step := StepOfOwner(s, s.owner.value);
    } else if u :| PlaceOf(s, u).PushCalled? || PlaceOf(s, u).PopCalled? || PlaceOf(s, u).StopFlagged? {
      step := Acquire(u);
    } else if u :| PlaceOf(s, u).StopCalled? {
      step := SetFlag(u);
    } else {
      step := Acquire(t);
      forall u: ThreadId
        ensures PlaceOf(s, u).Outside? || PlaceOf(s, u).PopBlocked?
      {
        assert Holds(PlaceOf(s, u)) <==> s.owner == Some(u);
      }
      assert forall u <- s.at :: s.at[u] == PlaceOf(s, u);
      assert AwakeThreads(s) == {};
      assert Blocked(s, t);
    }
  }

  lemma StepOfOwner<T>(s: State<T>, t: ThreadId) returns (step: Step<T>)
    requires Holds(PlaceOf(s, t))
    ensures Progress(step) && Enabled(s, step)
  {
    match PlaceOf(s, t)
    case PushLocked(_) => step := ReadFlag(t);
    case PushAdmitted(_) => step := Emplace(t);
    case PushEmplaced =>
      if u :| u in s.at && Blocked(s, u) {
        step := NotifyOne(t, Some(u));
      } else {
        step := NotifyOne(t, None);
      }
    case PushDone(_) => step := ReturnPush(t);
    case PopLocked => step := Evaluate(t);
    case PopUnsatisfied => step := Wait(t);
    case PopSatisfied => step := ReturnPop(t);
    case StopLocked => step := NotifyAll(t);
  }

  // ---- refinement ----

  function Abstract<T>(s: State<T>): Queue<T> {
    Queue(s.items + InFlight(s), s.stopped)
  }

  /** Seen from outside, a push happens when it reads the flag, a pop when it takes the item, a
      stop when it sets the flag; all other steps are invisible. */
  ghost predicate ActsAtomically<T>(s: State<T>, step: Step<T>)
    requires Enabled(s, step)
  {
    var q, q' := Abstract(s), Abstract(Next(s, step));
    match step
    case ReadFlag(t) => Pushed(q, PlaceOf(s, t).item, q', PlaceOf(Next(s, step), t).PushAdmitted?)
    case ReturnPop(_) =>
      Popped(q, q', if Next(s, step).popped == s.popped then None else Some(Next(s, step).popped[|s.popped|]))
    case SetFlag(_) => Stopped(q, q')
    case _ => q' == q
  }

  lemma RefinesAtomicQueue<T(!new)>(states: seq<State<T>>, steps: seq<Step<T>>, i: nat)
    requires IsRun(states, steps) && i < |steps|
    ensures Enabled(states[i], steps[i]) && ActsAtomically(states[i], steps[i])
  {
    InvHolds(states, steps, i);
    assert Enabled(states[i], steps[i]);
    StepActsAtomically(states[i], steps[i]);
  }

  lemma ReadFlagPushes<T>(s: State<T>, t: ThreadId)
    requires Exclusive(s) && Enabled(s, ReadFlag(t))
    ensures ActsAtomically(s, ReadFlag(t))
  {
    assert s.owner == Some(t);
  }

  lemma EmplaceIsInvisible<T>(s: State<T>, t: ThreadId)
    requires Exclusive(s) && Enabled(s, Emplace(t))
    ensures ActsAtomically(s, Emplace(t))
  {
    assert s.owner == Some(t);
  }

  lemma ReturnPopPops<T>(s: State<T>, t: ThreadId)
    requires Exclusive(s) && PopsSettled(s) && Enabled(s, ReturnPop(t))
    ensures ActsAtomically(s, ReturnPop(t))
  {
    assert s.owner == Some(t);
  }

  lemma StepActsAtomically<T>(s: State<T>, step: Step<T>)
    requires Exclusive(s) && PopsSettled(s) && Enabled(s, step)
    ensures ActsAtomically(s, step)
  {
    match step
    case ReadFlag(t) => ReadFlagPushes(s, t);
    case Emplace(t) => EmplaceIsInvisible(s, t);
    case ReturnPop(t) => ReturnPopPops(s, t);
    case _ =>
      InFlightStays(s, step);
      FlagAfter(s, step);
  }

  /** Only reading the flag and storing the item change what is on its way. */
  lemma InFlightStays<T>(s: State<T>, step: Step<T>)
    requires Exclusive(s) && Enabled(s, step) && !step.ReadFlag? && !step.Emplace? && !step.ReturnPop?
    ensures InFlight(Next(s, step)) == InFlight(s) && Next(s, step).items == s.items
  {
    assert Holds(PlaceOf(s, step.t)) <==> s.owner == Some(step.t);
    OwnerAfter(s, step);
    if s.owner.Some? && s.owner.value != step.t {
      OthersStay(s, step, s.owner.value);
    }
  }
}

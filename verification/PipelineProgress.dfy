/** Stop ends (core.cpp): a bound on the steps that the threads can still take. */
module PipelineProgress {
  import opened Consents
  import opened Pipeline
  import opened PipelineInvariant
  import opened PipelineGuarantees

  function Handlers(b: Bus): nat {
    |b.delivered|
  }

  /** One step for taking a notice, one for each handler, one for being done with it. */
  function NoticeSteps(handlers: nat): nat {
    handlers + 2
  }

  /** A thunk is taken, makes its update, and sends a notice; or is executed. */
  function ThunkSteps(handlers: nat): nat {
    NoticeSteps(handlers) + 3
  }

  function ContextSteps(w: Work, handlers: nat): nat {
    |Items(w.queue)| * ThunkSteps(handlers)
    + match w.thread
      case NoContext => 0
      case ContextExited => 0
      case ContextIdle => 1
      case Executing(_) => 2
      case Sending(_) => 2 + NoticeSteps(handlers)
      case Updating(_) => 3 + NoticeSteps(handlers)
  }

  function BusSteps(b: Bus): nat {
    |Items(b.queue)| * NoticeSteps(Handlers(b))
    + match b.thread
      case NoMessaging => 0
      case MessagingExited => 0
      case MessagingIdle => 1
      case Delivering(_, next) => 2 + if next <= Handlers(b) then Handlers(b) - next else 0
  }

  function StorageSteps(st: Storage): nat {
    |Items(st.queue)| + if st.thread.StorageIdle? then 1 else 0
  }

  predicate InStop(s: State) {
    12 <= Rank(s.main)
  }

  /** Steps of all threads until Stop returns, if feature code makes no more calls. */
  function StepsLeft(s: State): nat {
    (if InStop(s) then 20 - Rank(s.main) else 0)
    + ContextSteps(s.work, Handlers(s.bus)) + BusSteps(s.bus) + StorageSteps(s.storage)
  }

  lemma OneLess(n: nat, c: nat)
    requires n > 0
    ensures (n - 1) * c == n * c - c
  {
  }

  lemma SendingCosts(b: Bus, notice: Notice)
    ensures BusSteps(SendNotice(b, notice)) <= BusSteps(b) + NoticeSteps(Handlers(b))
    ensures Handlers(SendNotice(b, notice)) == Handlers(b)
  {
    var b' := SendNotice(b, notice);
    if Items(b'.queue) != Items(b.queue) {
      OneLess(|Items(b'.queue)|, NoticeSteps(Handlers(b)));
    }
  }

  lemma ContextStepCounts(s: State, step: ContextStep)
    requires ContextEnabled(s, step)
    ensures
      var s' := ContextNext(s, step);
      ContextSteps(s'.work, Handlers(s'.bus)) + BusSteps(s'.bus) <
      ContextSteps(s.work, Handlers(s.bus)) + BusSteps(s.bus)
  {
    match step
    case TakeThunk => OneLess(|Items(s.work.queue)|, ThunkSteps(Handlers(s.bus)));
    case SendSnapshot => SendingCosts(s.bus, ContextChanged(s.work.thread.snapshot));
    case _ =>
  }

  lemma MessagingStepCounts(b: Bus, step: MessagingStep)
    requires MessagingEnabled(b, step)
    ensures BusSteps(MessagingNext(b, step)) < BusSteps(b) && Handlers(MessagingNext(b, step)) == Handlers(b)
  {
    if step.TakeNotice? {
      OneLess(|Items(b.queue)|, NoticeSteps(Handlers(b)));
    }
  }

  lemma StorageStepCounts(st: Storage, step: StorageStep)
    requires StorageEnabled(st, step)
    ensures StorageSteps(StorageNext(st, step)) < StorageSteps(st)
  {
  }

  lemma MainStepCounts(s: State)
    requires Lifetimes(s) && InStop(s) && CanProceed(s)
    ensures StepsLeft(Proceed(s)) < StepsLeft(s)
  {
  }

  /** Every step of a thread brings Stop nearer to its end. */
  lemma InternalStepCounts(s: State, step: Step)
    requires Lifetimes(s) && InStop(s) && Enabled(s, step) && Internal(step)
    ensures StepsLeft(Next(s, step)) < StepsLeft(s)
    ensures Handlers(Next(s, step).bus) == Handlers(s.bus)
  {
    match step
    case Proceeding => MainStepCounts(s);
    case OfContext(c) => ContextStepCounts(s, c);
    case OfMessaging(d) => MessagingStepCounts(s.bus, d);
    case OfStorage(w) => StorageStepCounts(s.storage, w);
  }

  /** A call of feature code costs no more than a notice: thunks are not accepted any more. */
  lemma CallCosts(s: State, actor: Actor, call: Call)
    requires Lifetimes(s) && InStop(s) && CallEnabled(s, actor, call)
    ensures StepsLeft(CallNext(s, call)) <= StepsLeft(s) + NoticeSteps(Handlers(s.bus))
    ensures Handlers(CallNext(s, call).bus) == Handlers(s.bus)
  {
    match call
    case Post(thunk) => ActorsAreUp(s, actor);
    case Publish(payload) => SendingCosts(s.bus, Published(payload));
    case Write(_, _, _) =>
  }

  /** Steps of the threads, and calls of feature code, from `i` to before `j`. */
  function InternalSteps(steps: seq<Step>, i: nat, j: nat): nat
    requires i <= j <= |steps|
  {
    if i == j then 0 else InternalSteps(steps, i, j - 1) + if Internal(steps[j - 1]) then 1 else 0
  }

  function Calls(steps: seq<Step>, i: nat, j: nat): nat
    requires i <= j <= |steps|
  {
    if i == j then 0 else Calls(steps, i, j - 1) + if steps[j - 1].Calling? then 1 else 0
  }

  lemma StepInStop(s: State, step: Step)
    requires Lifetimes(s) && InStop(s) && Enabled(s, step)
    ensures Handlers(Next(s, step).bus) == Handlers(s.bus)
    ensures StepsLeft(Next(s, step)) + (if Internal(step) then 1 else 0)
      <= StepsLeft(s) + if step.Calling? then NoticeSteps(Handlers(s.bus)) else 0
  {
    match step
    case OfMain(_) =>
    case Calling(actor, call) => CallCosts(s, actor, call);
    case _ => InternalStepCounts(s, step);
  }

  lemma RunStepInStop(c0: Consent, states: seq<State>, steps: seq<Step>, k: nat)
    requires IsRun(c0, states, steps) && k < |steps| && InStop(states[k])
    ensures Handlers(states[k + 1].bus) == Handlers(states[k].bus)
    ensures StepsLeft(states[k + 1]) + (if Internal(steps[k]) then 1 else 0)
      <= StepsLeft(states[k]) + if steps[k].Calling? then NoticeSteps(Handlers(states[k].bus)) else 0
  {
    InvHolds(c0, states, steps, k);
    assert Enabled(states[k], steps[k]);
    StepInStop(states[k], steps[k]);
  }

  /** A count that every step lowers and every call raises by at most `cost`. */
  lemma {:induction false} AddsUp(left: seq<nat>, steps: seq<Step>, i: nat, j: nat, cost: nat)
    requires |left| == |steps| + 1 && i <= j <= |steps|
    requires forall k | i <= k < j ::
      left[k + 1] + (if Internal(steps[k]) then 1 else 0) <= left[k] + if steps[k].Calling? then cost else 0
    ensures InternalSteps(steps, i, j) + left[j] <= left[i] + Calls(steps, i, j) * cost
    decreases j
  {
    if i < j {
      AddsUp(left, steps, i, j - 1, cost);
      if steps[j - 1].Calling? {
        OneLess(Calls(steps, i, j), cost);
      }
    }
  }

  lemma {:induction false} SameHandlers(c0: Consent, states: seq<State>, steps: seq<Step>, i: nat, j: nat)
    requires IsRun(c0, states, steps) && i <= j < |states|
    requires forall k | i <= k < j :: InStop(states[k])
    ensures Handlers(states[j].bus) == Handlers(states[i].bus)
    decreases j
  {
    if i < j {
      SameHandlers(c0, states, steps, i, j - 1);
      RunStepInStop(c0, states, steps, j - 1);
    }
  }

  /** Stop ends: while it is under way the threads take no more steps than the work left when it
      began, plus a fixed number for every call that feature code makes meanwhile. */
  lemma StopEnds(c0: Consent, states: seq<State>, steps: seq<Step>, i: nat, j: nat)
    requires IsRun(c0, states, steps) && i <= j < |states|
    requires forall k | i <= k < j :: InStop(states[k])
    ensures InternalSteps(steps, i, j) + StepsLeft(states[j])
      <= StepsLeft(states[i]) + Calls(steps, i, j) * NoticeSteps(Handlers(states[i].bus))
  {
    var left := seq(|states|, k requires 0 <= k < |states| => StepsLeft(states[k]));
    forall k | i <= k < j
      ensures left[k + 1] + (if Internal(steps[k]) then 1 else 0)
        <= left[k] + if steps[k].Calling? then NoticeSteps(Handlers(states[i].bus)) else 0
    {
      RunStepInStop(c0, states, steps, k);
      SameHandlers(c0, states, steps, i, k);
    }
    AddsUp(left, steps, i, j, NoticeSteps(Handlers(states[i].bus)));
  }

  /** A thread of the core cannot leave Stop but by ending it. */
  lemma {:induction false} StaysInStop(c0: Consent, states: seq<State>, steps: seq<Step>, i: nat, j: nat)
    requires IsRun(c0, states, steps) && i <= j < |states| && InStop(states[i])
    requires forall k | i < k <= j :: !states[k].main.Idle?
    ensures forall k | i <= k <= j :: InStop(states[k])
    decreases j
  {
    if i < j {
      StaysInStop(c0, states, steps, i, j - 1);
      InvHolds(c0, states, steps, j - 1);
      assert Enabled(states[j - 1], steps[j - 1]);
      MainMovesOn(states[j - 1], steps[j - 1]);
    }
  }

  lemma MainMovesOn(s: State, step: Step)
    requires InStop(s) && Enabled(s, step)
    ensures InStop(Next(s, step)) || Next(s, step).main.Idle?
  {
  }

  lemma {:induction false} AllInternal(steps: seq<Step>, i: nat, j: nat)
    requires i <= j <= |steps| && forall k | i <= k < j :: Internal(steps[k])
    ensures InternalSteps(steps, i, j) == j - i && Calls(steps, i, j) == 0
    decreases j
  {
    if i < j {
      AllInternal(steps, i, j - 1);
    }
  }

  lemma MainHasToGoOn(s: State)
    requires InStop(s)
    ensures StepsLeft(s) > 0
  {
  }

  /** In particular: while feature code makes no calls, Stop returns within the number of steps
      left. */
  lemma StopReturns(c0: Consent, states: seq<State>, steps: seq<Step>, i: nat, j: nat)
    requires IsRun(c0, states, steps) && i <= j < |states| && InStop(states[i])
    requires forall k | i <= k < j :: Internal(steps[k])
    requires j - i >= StepsLeft(states[i])
    ensures exists k | i < k <= j :: states[k].main.Idle?
  {
    if forall k | i < k <= j :: !states[k].main.Idle? {
      StaysInStop(c0, states, steps, i, j);
      StopEnds(c0, states, steps, i, j);
      AllInternal(steps, i, j);
      MainHasToGoOn(states[j]);
    }
  }
}

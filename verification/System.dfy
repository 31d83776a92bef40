/** The scheduler as one interleaved system: the scheduling loop, any number of binding cycles, permit plugins calling
    in at any time, and cluster events. Every queue operation, map access and permit call is one atomic step. */
module System {
  import opened Framework
  import opened Queue
  import opened WaitingPods
  import opened SchedulingCycle

  /** How a cycle decides, which draws its attempt can meet, and which events were registered. */
  datatype Config = Config(decide: Attempt -> Decision, drawable: Attempt -> bool, events: EventMap)

  /** The system that runs the plugins of a profile. */
  ghost function Running(pf: Profile, events: EventMap): Config {
    Config(a => Decide(pf, a), a => Drawable(pf, a), events)
  }

  // ---- States ----

  /** A cycle that chose a node: what it worked on, and the waiting-pod object it registered, if any. */
  datatype Cycle = Cycle(attempt: Attempt, node: string, waits: map<string, int>, permit: Option<nat>)

  /** Where the scheduling loop is. */
  datatype Loop =
    | Idle
    | Popped(pod: Pod)
    | GivingUp(pod: Pod, plugins: set<string>)  // about to call ErrorFunc
    | Registering(cycle: Cycle)                 // about to enter the pod into waitingPods
    | Starting(cycle: Cycle)                    // about to start the binding goroutine

  /** Where a binding goroutine is. */
  datatype Stage =
    | Entering                                  // about to look the pod up in waitingPods
    | Blocked(id: nat)                          // in GetSignal
    | Signalled(id: nat, status: Status)        // about to delete the entry and return from WaitOnPermit
    | Binding                                   // about to call Bind
    | Failing                                   // about to call ErrorFunc

  datatype Binder = Binder(cycle: Cycle, stage: Stage)

  /** A waiting-pod object and the calls made on it. */
  datatype Waiter = Waiter(pod: Pod, initial: set<string>, calls: seq<Call>, value: Waiting)

  /** `last` remembers what each pod's most recent cycle worked on; nothing in the system reads it. */
  datatype State = State(added: set<Pod>, queue: Queues, loop: Loop, binders: map<nat, Binder>,
                         waitingPods: map<string, nat>, waiters: map<nat, Waiter>, bound: seq<Cycle>,
                         last: map<Pod, Attempt>)

  const INIT := State({}, EMPTY_QUEUES, Idle, map[], map[], map[], [], map[])

  // ---- Steps ----

  datatype Label =
    | AddPod(pod: Pod, now: int)
    | PopPod
    | Schedule(listed: Option<seq<Node>>, draws: seq<nat>)
    | ReturnPod(now: int)
    | RegisterWaiting(id: nat)
    | StartBinding(t: nat)
    | EnterWait(t: nat)
    | TakeSignal(t: nat)
    | LeaveWait(t: nat)
    | BindSucceeds(t: nat)
    | BindFails(t: nat)
    | ReturnBound(t: nat, now: int)
    | PermitCall(id: nat, call: Call)
    | Event(incoming: ClusterEvent, order: seq<QueuedPodInfo>, clock: seq<int>)

  /** Kubernetes' part of the bargain: names are separator-free, and name and uid each identify a pod. */
  ghost predicate NewPod(added: set<Pod>, pod: Pod) {
    SeparatorFree(pod)
    && forall q :: q in added ==> q.uid != pod.uid && (q.name, q.namespace) != (pod.name, pod.namespace)
  }

  ghost predicate Enabled(cfg: Config, s: State, l: Label) {
    match l
    case AddPod(pod, _) => NewPod(s.added, pod)
    case PopPod => s.loop.Idle? && s.queue.activeQ != []
    case Schedule(listed, draws) => s.loop.Popped? && cfg.drawable(Attempt(s.loop.pod, listed, draws))
    case ReturnPod(_) => s.loop.GivingUp?
    case RegisterWaiting(id) => s.loop.Registering? && id !in s.waiters
    case StartBinding(t) => s.loop.Starting? && t !in s.binders
    case EnterWait(t) => t in s.binders && s.binders[t].stage.Entering?
    case TakeSignal(t) =>
      && t in s.binders && s.binders[t].stage.Blocked?
      && s.binders[t].stage.id in s.waiters && s.waiters[s.binders[t].stage.id].value.slot.Some?
    case LeaveWait(t) => t in s.binders && s.binders[t].stage.Signalled?
    case BindSucceeds(t) => t in s.binders && s.binders[t].stage.Binding?
    case BindFails(t) => t in s.binders && s.binders[t].stage.Binding?
    case ReturnBound(t, _) => t in s.binders && s.binders[t].stage.Failing?
    case PermitCall(id, call) => id in s.waiters && call != GetSignal
    case Event(_, order, clock) => Enumerates(order, s.queue.unschedulableQ) && |order| == |clock|
  }

  /** ErrorFunc: a fresh info, carrying the plugins of a fit error, is filed as unschedulable. */
  function FileFailed(q: Queues, pod: Pod, plugins: set<string>, now: int): Queues {
    File(q, FreshInfo(pod, 0, plugins), now)
  }

  function Called(w: Waiter, call: Call): Waiter {
    w.(calls := w.calls + [call], value := Do(w.value, call))
  }

  function Restage(s: State, t: nat, stage: Stage): State
    requires t in s.binders
  {
    s.(binders := s.binders[t := s.binders[t].(stage := stage)])
  }

  ghost function Apply(cfg: Config, s: State, l: Label): State
    requires Enabled(cfg, s, l)
  {
    match l
    case AddPod(pod, now) => s.(added := s.added + {pod}, queue := AddTo(s.queue, pod, now))
    case PopPod => s.(queue := Pop(s.queue), loop := Popped(s.queue.activeQ[0].pod))
    case Schedule(listed, draws) =>
      var a := Attempt(s.loop.pod, listed, draws);
      s.(last := s.last[a.pod := a],
         loop := match cfg.decide(a)
                 case GiveUp(plugins) => GivingUp(a.pod, plugins)
                 case Proceed(node, waits) =>
                   var c := Cycle(a, node, waits, None);
                   if waits == map[] then Starting(c) else Registering(c))
    case ReturnPod(now) => s.(queue := FileFailed(s.queue, s.loop.pod, s.loop.plugins, now), loop := Idle)
    case RegisterWaiting(id) =>
      var c := s.loop.cycle;
      s.(waiters := s.waiters[id := Waiter(c.attempt.pod, c.waits.Keys, [], Start(c.waits.Keys))],
         waitingPods := s.waitingPods[c.attempt.pod.uid := id],
         loop := Starting(c.(permit := Some(id))))
    case StartBinding(t) => s.(binders := s.binders[t := Binder(s.loop.cycle, Entering)], loop := Idle)
    case EnterWait(t) =>
      var uid := s.binders[t].cycle.attempt.pod.uid;
      Restage(s, t, if uid in s.waitingPods then Blocked(s.waitingPods[uid]) else Binding)
    case TakeSignal(t) =>
      var id := s.binders[t].stage.id;
      Restage(s, t, Signalled(id, s.waiters[id].value.slot.value))
        .(waiters := s.waiters[id := Called(s.waiters[id], GetSignal)])
    case LeaveWait(t) =>
      Restage(s, t, if s.binders[t].stage.status.IsSuccess() then Binding else Failing)
        .(waitingPods := s.waitingPods - {s.binders[t].cycle.attempt.pod.uid})
    case BindSucceeds(t) => s.(binders := s.binders - {t}, bound := s.bound + [s.binders[t].cycle])
    case BindFails(t) => Restage(s, t, Failing)
    case ReturnBound(t, now) =>
      s.(binders := s.binders - {t}, queue := FileFailed(s.queue, s.binders[t].cycle.attempt.pod, {}, now))
    case PermitCall(id, call) => s.(waiters := s.waiters[id := Called(s.waiters[id], call)])
    case Event(incoming, order, clock) =>
      s.(queue := MoveAll(s.queue, order, Fates(cfg.events, order, incoming, clock)))
  }

  // ---- Runs ----

  /** The steps can be taken one after the other, starting from the empty system. */
  ghost predicate Legal(cfg: Config, run: seq<Label>)
    decreases |run|, 0
  {
    run == [] ||
    (Legal(cfg, run[..|run| - 1]) && Enabled(cfg, After(cfg, run[..|run| - 1]), run[|run| - 1]))
  }

  ghost function After(cfg: Config, run: seq<Label>): State
    requires Legal(cfg, run)
    decreases |run|, 1
  {
    if run == [] then INIT
    else Apply(cfg, After(cfg, run[..|run| - 1]), run[|run| - 1])
  }

  lemma Extend(cfg: Config, run: seq<Label>, l: Label)
    requires Legal(cfg, run) && Enabled(cfg, After(cfg, run), l)
    ensures Legal(cfg, run + [l]) && After(cfg, run + [l]) == Apply(cfg, After(cfg, run), l)
  {
    assert (run + [l])[..|run|] == run;
  }
}

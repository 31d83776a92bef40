/** The scheduler object takes the system's steps: used in any order, one method at a time, it stays in a state that
    some run of the system reaches, so everything proved about runs holds of it. */
module SchedulerRuns {
  import opened Framework
  import opened Queue
  import opened EventWiring
  import opened WaitingPods
  import opened SchedulingCycle
  import opened System
  import opened Schedulers

  ghost function ConfigOf(sched: Scheduler): Config {
    Running(sched.profile, sched.queue.clusterEventMap)
  }

  ghost predicate ObjectShows(o: WaitingPod, w: Waiter)
    reads o
  {
    o.Valid() && o.pod == w.pod && o.initial == w.initial && o.calls == w.calls && o.Value() == w.value
  }

  /** `objects` are all waiting-pod objects ever made, by their number in the system. */
  ghost predicate ObjectsShow(objects: map<nat, WaitingPod>, waiters: map<nat, Waiter>)
    reads objects.Values
  {
    && objects.Keys == waiters.Keys
    && (forall id :: id in objects ==> ObjectShows(objects[id], waiters[id]))
    && (forall i, j :: i in objects && j in objects && i != j ==> objects[i] != objects[j])
  }

  ghost predicate EntriesShow(entries: map<string, WaitingPod>, objects: map<nat, WaitingPod>,
                              waitingPods: map<string, nat>)
  {
    && entries.Keys == waitingPods.Keys
    && forall uid :: uid in waitingPods ==> waitingPods[uid] in objects && entries[uid] == objects[waitingPods[uid]]
  }

  /** The object is in the state `s`. */
  ghost predicate Shows(sched: Scheduler, s: State, objects: map<nat, WaitingPod>)
    reads sched, sched.queue, sched.waitingPods.Values, objects.Values
  {
    && sched.Valid()
    && sched.queue.Contents() == s.queue
    && ObjectsShow(objects, s.waiters)
    && EntriesShow(sched.waitingPods, objects, s.waitingPods)
  }

  /** The object is in the state the run reaches. */
  ghost predicate Follows(sched: Scheduler, run: seq<Label>, objects: map<nat, WaitingPod>)
    reads sched, sched.queue, sched.waitingPods.Values, objects.Values
  {
    Legal(ConfigOf(sched), run) && Shows(sched, After(ConfigOf(sched), run), objects)
  }

  // ---- Methods that are one step ----

  method Start(profile: Profile, nodeUnschedulable: Registration, nodeNumber: Registration) returns (sched: Scheduler)
    ensures fresh(sched) && fresh(sched.queue) && Follows(sched, [], map[])
  {
    sched := new Scheduler(profile, nodeUnschedulable, nodeNumber);
  }

  method PodAdded(sched: Scheduler, pod: Pod, now: int, ghost run: seq<Label>, ghost objects: map<nat, WaitingPod>)
    requires Follows(sched, run, objects) && NewPod(After(ConfigOf(sched), run).added, pod)
    modifies sched.queue
    ensures Follows(sched, run + [AddPod(pod, now)], objects)
  {
    Extend(ConfigOf(sched), run, AddPod(pod, now));
    OnPodAdded(sched.queue, pod, "", now);
  }

  method MoveQueued(sched: Scheduler, incoming: ClusterEvent, clock: seq<int>, ghost s: State,
                    ghost objects: map<nat, WaitingPod>)
    returns (ghost order: seq<QueuedPodInfo>)
    requires Shows(sched, s, objects) && |clock| == |sched.queue.unschedulableQ|
    modifies sched.queue
    ensures Enumerates(order, s.queue.unschedulableQ) && |order| == |clock|
    ensures var fates := Fates(sched.queue.clusterEventMap, order, incoming, clock);
            Shows(sched, s.(queue := MoveAll(s.queue, order, fates)), objects)
  {
    order := sched.queue.MoveAllToActiveOrBackoffQueue(incoming, clock);
    assert ObjectsShow(objects, s.waiters);
  }

  method EventArrives(sched: Scheduler, incoming: ClusterEvent, clock: seq<int>, ghost run: seq<Label>,
                      ghost objects: map<nat, WaitingPod>)
    returns (ghost order: seq<QueuedPodInfo>)
    requires Follows(sched, run, objects) && |clock| == |sched.queue.unschedulableQ|
    modifies sched.queue
    ensures Follows(sched, run + [Event(incoming, order, clock)], objects)
  {
    order := MoveQueued(sched, incoming, clock, After(ConfigOf(sched), run), objects);
    Extend(ConfigOf(sched), run, Event(incoming, order, clock));
  }

  method CallObject(o: WaitingPod, call: Call, ghost objects: map<nat, WaitingPod>, ghost waiters: map<nat, Waiter>,
                    ghost id: nat)
    requires ObjectsShow(objects, waiters) && id in objects && objects[id] == o && call != GetSignal
    modifies o
    ensures ObjectsShow(objects, waiters[id := Called(waiters[id], call)])
  {
    match call
    case Allow(plugin) => o.Allow(plugin);
    case Reject(plugin, msg) => o.Reject(plugin, msg);
  }

  /** A permit plugin, or a time-out, calls the object; the object may have left the table already. */
  method PluginCalls(sched: Scheduler, o: WaitingPod, call: Call, ghost run: seq<Label>,
                     ghost objects: map<nat, WaitingPod>, ghost id: nat)
    requires Follows(sched, run, objects) && id in objects && objects[id] == o && call != GetSignal
    modifies o
    ensures Follows(sched, run + [PermitCall(id, call)], objects)
  {
    Extend(ConfigOf(sched), run, PermitCall(id, call));
    CallObject(o, call, objects, After(ConfigOf(sched), run).waiters, id);
  }

  // ---- The scheduling cycle ----

  /** Binding cycle `t` works for the pod and has not looked it up yet. */
  ghost predicate AboutToWait(s: State, t: nat, pod: Pod) {
    t in s.binders && s.binders[t].stage.Entering? && s.binders[t].cycle.attempt.pod == pod
  }

  /** What ScheduleOne does, step by step. */
  function ScheduleSteps(d: Decision, listed: Option<seq<Node>>, draws: seq<nat>, now: int, id: nat,
                         t: nat): seq<Label>
  {
    [PopPod] + [Schedule(listed, draws)] + FinishSteps(d, now, id, t)
  }

  /** The loop after Schedule. */
  ghost function Decided(a: Attempt, d: Decision): Loop {
    match d
    case GiveUp(plugins) => GivingUp(a.pod, plugins)
    case Proceed(node, waits) =>
      var c := Cycle(a, node, waits, None);
      if waits == map[] then Starting(c) else Registering(c)
  }

  /** What the scheduler object shows is the same. */
  ghost predicate Agree(s: State, s': State) {
    s'.queue == s.queue && s'.waitingPods == s.waitingPods && s'.waiters == s.waiters
  }

  lemma PoppedReaches(cfg: Config, run: seq<Label>, listed: Option<seq<Node>>, draws: seq<nat>)
    requires Legal(cfg, run) && After(cfg, run).loop.Idle? && After(cfg, run).queue.activeQ != []
    requires cfg.drawable(Attempt(After(cfg, run).queue.activeQ[0].pod, listed, draws))
    ensures var s, run' := After(cfg, run), run + [PopPod] + [Schedule(listed, draws)];
            && Legal(cfg, run')
            && var s', a := After(cfg, run'), Attempt(s.queue.activeQ[0].pod, listed, draws);
               && s'.loop == Decided(a, cfg.decide(a)) && s'.binders == s.binders
               && Agree(s.(queue := Pop(s.queue)), s')
  {
    Extend(cfg, run, PopPod);
    Extend(cfg, run + [PopPod], Schedule(listed, draws));
  }

  /** The steps that follow a decision. */
  function FinishSteps(d: Decision, now: int, id: nat, t: nat): seq<Label> {
    match d
    case GiveUp(_) => [ReturnPod(now)]
    case Proceed(_, waits) => if waits == map[] then [StartBinding(t)] else [RegisterWaiting(id), StartBinding(t)]
  }

  /** What they do to the queue, the entries and the objects. */
  ghost function Settled(s: State, pod: Pod, d: Decision, now: int, id: nat): State {
    match d
    case GiveUp(plugins) => s.(queue := FileFailed(s.queue, pod, plugins, now))
    case Proceed(_, waits) =>
      if waits == map[] then s
      else s.(waitingPods := s.waitingPods[pod.uid := id],
              waiters := s.waiters[id := Waiter(pod, waits.Keys, [], WaitingPods.Start(waits.Keys))])
  }

  /** A cycle that gives up ends in ErrorFunc; one that proceeds registers the pod if somebody asked to wait, and starts
      the binding cycle. */
  lemma FinishReaches(cfg: Config, run: seq<Label>, a: Attempt, d: Decision, now: int, id: nat, t: nat)
    requires Legal(cfg, run) && After(cfg, run).loop == Decided(a, d)
    requires id !in After(cfg, run).waiters && t !in After(cfg, run).binders
    ensures Legal(cfg, run + FinishSteps(d, now, id, t))
    ensures var s' := After(cfg, run + FinishSteps(d, now, id, t));
            && Agree(Settled(After(cfg, run), a.pod, d, now, id), s')
            && s'.loop.Idle?
            && (d.Proceed? ==> AboutToWait(s', t, a.pod))
  {
    if d.GiveUp? {
      Extend(cfg, run, ReturnPod(now));
    } else if d.waits == map[] {
      Extend(cfg, run, StartBinding(t));
    } else {
      Extend(cfg, run, RegisterWaiting(id));
      Extend(cfg, run + [RegisterWaiting(id)], StartBinding(t));
      assert run + [RegisterWaiting(id)] + [StartBinding(t)] == run + [RegisterWaiting(id), StartBinding(t)];
    }
  }

  lemma SettledAgree(s: State, s': State, pod: Pod, d: Decision, now: int, id: nat)
    requires Agree(s, s')
    ensures Agree(Settled(s, pod, d, now, id), Settled(s', pod, d, now, id))
  {
  }

  lemma ScheduleReaches(cfg: Config, run: seq<Label>, listed: Option<seq<Node>>, draws: seq<nat>, now: int, id: nat,
                        t: nat)
    requires Legal(cfg, run) && After(cfg, run).loop.Idle? && After(cfg, run).queue.activeQ != []
    requires cfg.drawable(Attempt(After(cfg, run).queue.activeQ[0].pod, listed, draws))
    requires id !in After(cfg, run).waiters && t !in After(cfg, run).binders
    ensures
      var s := After(cfg, run);
      var pod := s.queue.activeQ[0].pod;
      var d := cfg.decide(Attempt(pod, listed, draws));
      var run' := run + ScheduleSteps(d, listed, draws, now, id, t);
      && Legal(cfg, run')
      && Agree(Settled(s.(queue := Pop(s.queue)), pod, d, now, id), After(cfg, run'))
      && After(cfg, run').loop.Idle?
      && (d.Proceed? ==> AboutToWait(After(cfg, run'), t, pod))
  {
    var a := Attempt(After(cfg, run).queue.activeQ[0].pod, listed, draws);
    var d, decided := cfg.decide(a), run + [PopPod] + [Schedule(listed, draws)];
    PoppedReaches(cfg, run, listed, draws);
    SettledAgree(After(cfg, run).(queue := Pop(After(cfg, run).queue)), After(cfg, decided), a.pod, d, now, id);
    FinishReaches(cfg, decided, a, d, now, id, t);
    assert decided + FinishSteps(d, now, id, t) == run + ScheduleSteps(d, listed, draws, now, id, t);
  }

  lemma ObjectsPut(objects: map<nat, WaitingPod>, waiters: map<nat, Waiter>, id: nat, o: WaitingPod, w: Waiter)
    requires ObjectsShow(objects, waiters) && id !in objects && o !in objects.Values && ObjectShows(o, w)
    ensures ObjectsShow(objects[id := o], waiters[id := w])
  {
  }

  lemma EntriesPut(entries: map<string, WaitingPod>, objects: map<nat, WaitingPod>, table: map<string, nat>,
                   uid: string, id: nat, o: WaitingPod)
    requires EntriesShow(entries, objects, table) && id !in objects
    ensures EntriesShow(entries[uid := o], objects[id := o], table[uid := id])
  {
  }

  method TakeHead(sched: Scheduler, listed: Option<seq<Node>>, draws: seq<nat>, now: int, ghost s: State,
                 ghost objects: map<nat, WaitingPod>, ghost id: nat)
    returns (pod: Pod, d: Decision, ghost objects': map<nat, WaitingPod>)
    requires Shows(sched, s, objects) && s.queue.activeQ != [] && id !in objects
    requires Drawable(sched.profile, Attempt(s.queue.activeQ[0].pod, listed, draws))
    modifies sched, sched.queue
    ensures pod == s.queue.activeQ[0].pod && d == Decide(sched.profile, Attempt(pod, listed, draws))
    ensures Shows(sched, Settled(s.(queue := Pop(s.queue)), pod, d, now, id), objects')
  {
    ghost var entries := sched.waitingPods;
    pod, d := sched.ScheduleOne(listed, draws, now);
    assert ObjectsShow(objects, s.waiters);
    objects' := objects;
    if d.Proceed? && d.waits != map[] {
      ghost var o := sched.waitingPods[pod.uid];
      objects' := objects[id := o];
      ghost var w := Waiter(pod, d.waits.Keys, [], WaitingPods.Start(d.waits.Keys));
      assert Replay(d.waits.Keys, []) == w.value;
      ObjectsPut(objects, s.waiters, id, o, w);
      EntriesPut(entries, objects, s.waitingPods, pod.uid, id, o);
    }
  }

  method OneCycle(sched: Scheduler, listed: Option<seq<Node>>, draws: seq<nat>, now: int, ghost run: seq<Label>,
                  ghost objects: map<nat, WaitingPod>, ghost id: nat, ghost t: nat)
    returns (pod: Pod, d: Decision, ghost objects': map<nat, WaitingPod>)
    requires Follows(sched, run, objects) && sched.queue.activeQ != []
    requires After(ConfigOf(sched), run).loop.Idle?
    requires id !in objects && t !in After(ConfigOf(sched), run).binders
    requires Drawable(sched.profile, Attempt(sched.queue.activeQ[0].pod, listed, draws))
    modifies sched, sched.queue
    ensures pod == old(sched.queue.activeQ)[0].pod && d == Decide(sched.profile, Attempt(pod, listed, draws))
    ensures Follows(sched, run + ScheduleSteps(d, listed, draws, now, id, t), objects')
    ensures After(ConfigOf(sched), run + ScheduleSteps(d, listed, draws, now, id, t)).loop.Idle?
    ensures d.Proceed? ==>
      AboutToWait(After(ConfigOf(sched), run + ScheduleSteps(d, listed, draws, now, id, t)), t, pod)
  {
    ScheduleReaches(ConfigOf(sched), run, listed, draws, now, id, t);
    pod, d, objects' := TakeHead(sched, listed, draws, now, After(ConfigOf(sched), run), objects, id);
  }

  // ---- The binding cycle ----

  function WaitSteps(waits: bool, t: nat): seq<Label> {
    if waits then [EnterWait(t), TakeSignal(t), LeaveWait(t)] else [EnterWait(t)]
  }

  function BindSteps(permitted: bool, bindSucceeds: bool, t: nat, now: int): seq<Label> {
    if permitted && bindSucceeds then [BindSucceeds(t)]
    else if permitted then [BindFails(t), ReturnBound(t, now)]
    else [ReturnBound(t, now)]
  }

  /** The pod's object, if there is one, has a signal. */
  ghost predicate Signals(s: State, uid: string) {
    uid in s.waitingPods ==> s.waitingPods[uid] in s.waiters && s.waiters[s.waitingPods[uid]].value.slot.Some?
  }

  /** Whether the binding cycle of a pod gets past WaitOnPermit with success. */
  ghost predicate Permitted(s: State, uid: string)
    requires Signals(s, uid)
  {
    uid in s.waitingPods ==> s.waiters[s.waitingPods[uid]].value.slot.value.code == Success
  }

  /** The objects after the pod's own has been asked for its signal. */
  ghost function SignalTaken(s: State, uid: string): map<nat, Waiter>
    requires Signals(s, uid)
  {
    if uid !in s.waitingPods then s.waiters
    else s.waiters[s.waitingPods[uid] := Called(s.waiters[s.waitingPods[uid]], GetSignal)]
  }

  lemma WaitReaches(cfg: Config, run: seq<Label>, t: nat, uid: string)
    requires Legal(cfg, run) && Signals(After(cfg, run), uid)
    requires t in After(cfg, run).binders && After(cfg, run).binders[t].stage.Entering?
    requires uid == After(cfg, run).binders[t].cycle.attempt.pod.uid
    ensures
      var s := After(cfg, run);
      var run' := run + WaitSteps(uid in s.waitingPods, t);
      && Legal(cfg, run')
      && var s' := After(cfg, run');
         && t in s'.binders && s'.binders[t].cycle == s.binders[t].cycle
         && s'.binders[t].stage == (if Permitted(s, uid) then Binding else Failing)
         && s'.queue == s.queue && s'.bound == s.bound && s'.waitingPods == s.waitingPods - {uid}
         && s'.waiters == SignalTaken(s, uid)
  {
    var s := After(cfg, run);
    Extend(cfg, run, EnterWait(t));
    var run1 := run + [EnterWait(t)];
    if uid in s.waitingPods {
      Extend(cfg, run1, TakeSignal(t));
      Extend(cfg, run1 + [TakeSignal(t)], LeaveWait(t));
      assert run1 + [TakeSignal(t)] + [LeaveWait(t)] == run + WaitSteps(true, t);
    }
  }

  lemma BindReaches(cfg: Config, run: seq<Label>, t: nat, pod: Pod, permitted: bool, bindSucceeds: bool, now: int)
    requires Legal(cfg, run) && t in After(cfg, run).binders
    requires After(cfg, run).binders[t].stage == (if permitted then Binding else Failing)
    requires After(cfg, run).binders[t].cycle.attempt.pod == pod
    ensures
      var s, run' := After(cfg, run), run + BindSteps(permitted, bindSucceeds, t, now);
      && Legal(cfg, run')
      && var s' := After(cfg, run');
         && s'.queue == (if permitted && bindSucceeds then s.queue else FileFailed(s.queue, pod, {}, now))
         && s'.waitingPods == s.waitingPods && s'.waiters == s.waiters
         && s'.bound == if permitted && bindSucceeds then s.bound + [s.binders[t].cycle] else s.bound
  {
    if permitted && bindSucceeds {
      Extend(cfg, run, BindSucceeds(t));
    } else if permitted {
      Extend(cfg, run, BindFails(t));
      Extend(cfg, run + [BindFails(t)], ReturnBound(t, now));
      assert run + [BindFails(t)] + [ReturnBound(t, now)] == run + BindSteps(permitted, bindSucceeds, t, now);
    } else {
      Extend(cfg, run, ReturnBound(t, now));
    }
  }

  /** What BindingCycle does, step by step. */
  ghost function BindingSteps(s: State, uid: string, bindSucceeds: bool, t: nat, now: int): seq<Label>
    requires Signals(s, uid)
  {
    WaitSteps(uid in s.waitingPods, t) + BindSteps(Permitted(s, uid), bindSucceeds, t, now)
  }

  lemma BindingReaches(cfg: Config, run: seq<Label>, pod: Pod, bindSucceeds: bool, t: nat, now: int)
    requires Legal(cfg, run) && AboutToWait(After(cfg, run), t, pod) && Signals(After(cfg, run), pod.uid)
    ensures
      var s := After(cfg, run);
      var run' := run + BindingSteps(s, pod.uid, bindSucceeds, t, now);
      && Legal(cfg, run')
      && var s', bound := After(cfg, run'), bindSucceeds && Permitted(s, pod.uid);
         && s'.queue == (if bound then s.queue else FileFailed(s.queue, pod, {}, now))
         && s'.waitingPods == s.waitingPods - {pod.uid}
         && s'.waiters == SignalTaken(s, pod.uid)
         && s'.bound == if bound then s.bound + [s.binders[t].cycle] else s.bound
  {
    var s := After(cfg, run);
    WaitReaches(cfg, run, t, pod.uid);
    var waited := run + WaitSteps(pod.uid in s.waitingPods, t);
    BindReaches(cfg, waited, t, pod, Permitted(s, pod.uid), bindSucceeds, now);
    assert waited + BindSteps(Permitted(s, pod.uid), bindSucceeds, t, now)
        == run + BindingSteps(s, pod.uid, bindSucceeds, t, now);
  }

  lemma EntriesDrop(entries: map<string, WaitingPod>, objects: map<nat, WaitingPod>, table: map<string, nat>,
                    uid: string)
    requires EntriesShow(entries, objects, table)
    ensures EntriesShow(entries - {uid}, objects, table - {uid})
  {
  }

  method Bind(sched: Scheduler, pod: Pod, bindSucceeds: bool, now: int, ghost s: State,
              ghost objects: map<nat, WaitingPod>)
    returns (bound: bool)
    requires Shows(sched, s, objects) && Signals(s, pod.uid)
    modifies sched, sched.queue, sched.waitingPods.Values
    ensures sched.Valid() && ObjectsShow(objects, SignalTaken(s, pod.uid))
    ensures EntriesShow(sched.waitingPods, objects, s.waitingPods - {pod.uid})
    ensures bound <==> bindSucceeds && Permitted(s, pod.uid)
    ensures sched.queue.Contents() == if bound then s.queue else FileFailed(s.queue, pod, {}, now)
  {
    ghost var entries, uid := sched.waitingPods, pod.uid;
    bound := sched.BindingCycle(pod, bindSucceeds, now);
    forall id | id in objects ensures ObjectShows(objects[id], SignalTaken(s, uid)[id]) {
      assert old(ObjectShows(objects[id], s.waiters[id]));
      if uid !in entries || objects[id] != entries[uid] {
        assert unchanged(objects[id]);
      }
    }
    EntriesDrop(entries, objects, s.waitingPods, uid);
  }

  method OneBinding(sched: Scheduler, pod: Pod, bindSucceeds: bool, now: int, ghost run: seq<Label>,
                    ghost objects: map<nat, WaitingPod>, ghost t: nat)
    returns (bound: bool)
    requires Follows(sched, run, objects)
    requires AboutToWait(After(ConfigOf(sched), run), t, pod) && Signals(After(ConfigOf(sched), run), pod.uid)
    modifies sched, sched.queue, sched.waitingPods.Values
    ensures Follows(sched, run + BindingSteps(After(ConfigOf(sched), run), pod.uid, bindSucceeds, t, now), objects)
    ensures bound <==> bindSucceeds && Permitted(After(ConfigOf(sched), run), pod.uid)
  {
    BindingReaches(ConfigOf(sched), run, pod, bindSucceeds, t, now);
    bound := Bind(sched, pod, bindSucceeds, now, After(ConfigOf(sched), run), objects);
  }
}

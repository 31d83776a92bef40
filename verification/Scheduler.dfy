/** The scheduler object: its queue, its waiting pods and its two cycles (minisched/minisched.go and
    minisched/initialize.go). */
module Schedulers {
  import opened Framework
  import opened Queue
  import opened EventWiring
  import opened WaitingPods
  import opened SchedulingCycle
  import opened System

  class Scheduler {
    const queue: SchedulingQueue
    var waitingPods: map<string, WaitingPod>
    const profile: Profile

    // What the informers were told to call when a node changes.
    const nodeHandlers: Handlers

    /** The parts are valid, and no two uids share a waiting-pod object. */
    ghost predicate Valid()
      reads this, queue, waitingPods.Values
    {
      && queue.Valid()
      && (forall uid :: uid in waitingPods ==> waitingPods[uid].Valid())
      && (forall u, v :: u in waitingPods && v in waitingPods && u != v ==> waitingPods[u] != waitingPods[v])
    }

    /** The plugins' events are registered, and handlers are installed for their union. */
    constructor (profile: Profile, nodeUnschedulable: Registration, nodeNumber: Registration)
      ensures Valid() && fresh(queue) && this.profile == profile
      ensures waitingPods == map[] && queue.Contents() == EMPTY_QUEUES
      ensures forall name, evt ::
        Lists(queue.clusterEventMap, name, evt)
        <==> name == nodeUnschedulable.name && (evt in nodeUnschedulable.events || evt in nodeNumber.events)
      ensures forall change: Change :: nodeHandlers.For(change) == OnNode(queue.clusterEventMap, change)
      ensures Wired(queue.clusterEventMap, nodeHandlers)
    {
      this.profile := profile;
      waitingPods := map[];
      var events := EventsToRegister(nodeUnschedulable, nodeNumber);
      queue := new SchedulingQueue(events);
      var handlers := AddAllEventHandlers(events);
      nodeHandlers := handlers;
    }

    /** A failed pod goes back to the queue with the plugins of a fit error, if it was one. */
    method ErrorFunc(pod: Pod, plugins: set<string>, now: int)
      requires Valid()
      modifies queue
      ensures Valid() && queue.Contents() == FileFailed(old(queue.Contents()), pod, plugins, now)
      ensures queue.unschedulableQ
           == old(queue.unschedulableQ)[pod.name + "_" + pod.namespace := QueuedPodInfo(pod, now, 0, plugins)]
    {
      queue.AddUnschedulable(FreshInfo(pod, 0, plugins), now);
    }

    /** One scheduling cycle: the head of the queue is decided on, and either goes back to the queue or is handed, with
        a new waiting-pod object if some plugin asked to wait, to a binding cycle. */
    method ScheduleOne(listed: Option<seq<Node>>, draws: seq<nat>, now: int) returns (pod: Pod, d: Decision)
      requires Valid() && queue.activeQ != []
      requires Drawable(profile, Attempt(queue.activeQ[0].pod, listed, draws))
      modifies this, queue
      ensures Valid() && pod == old(queue.activeQ[0]).pod
      ensures d == Decide(profile, Attempt(pod, listed, draws))
      ensures d.GiveUp? ==>
        && queue.Contents() == FileFailed(Pop(old(queue.Contents())), pod, d.unschedulablePlugins, now)
        && waitingPods == old(waitingPods)
      ensures d.Proceed? ==>
        && queue.Contents() == Pop(old(queue.Contents()))
        && (d.waits == map[] ==> waitingPods == old(waitingPods))
        && (d.waits != map[] ==>
              && pod.uid in waitingPods
              && waitingPods == old(waitingPods)[pod.uid := waitingPods[pod.uid]]
              && fresh(waitingPods[pod.uid])
              && waitingPods[pod.uid].pod == pod
              && waitingPods[pod.uid].initial == d.waits.Keys
              && waitingPods[pod.uid].calls == [])
    {
      pod := queue.NextPod();
      d := RunCycle(profile, Attempt(pod, listed, draws));
      match d
      case GiveUp(plugins) => ErrorFunc(pod, plugins, now);
      case Proceed(_, waits) =>
        if |waits| != 0 {
          var waitingPod := new WaitingPod(pod, waits);
          waitingPods := waitingPods[pod.uid := waitingPod];
        }
    }

    /** The caller waits until the pod's object, if there is one, has a signal; the entry is gone afterwards. */
    method WaitOnPermit(pod: Pod) returns (status: Status)
      requires Valid()
      requires pod.uid in waitingPods ==> waitingPods[pod.uid].s.Some?
      modifies this, waitingPods.Values
      ensures Valid() && waitingPods == old(waitingPods) - {pod.uid}
      ensures pod.uid !in old(waitingPods) ==> status == PASSED
      ensures pod.uid in old(waitingPods) ==>
        var w := old(waitingPods)[pod.uid];
        && w.Valid()
        && w.calls == old(w.calls) + [GetSignal]
        && w.Value() == Do(old(w.Value()), GetSignal)
        && (GetSignal !in old(w.calls) && old(w.s.value.code == Success) ==> w.initial <= Allowed(old(w.calls)))
        && status == old(w.s).value
      ensures forall uid :: uid in old(waitingPods) && uid != pod.uid ==> unchanged(old(waitingPods)[uid])
    {
      if pod.uid !in waitingPods {
        return PASSED;
      }
      var waitingPod := waitingPods[pod.uid];
      if GetSignal !in waitingPod.calls && waitingPod.s.value.IsSuccess() {
        SlotHoldsVerdict(waitingPod.initial, waitingPod.calls);
        VerdictShape(waitingPod.initial, waitingPod.calls);
        SuccessMeansAllAllowed(waitingPod.initial, waitingPod.calls);
      }
      status := waitingPod.GetSignal();
      waitingPods := waitingPods - {pod.uid};
    }

    /** The binding goroutine: wait, then bind; a failure of either sends the pod back with no plugin blamed. */
    method BindingCycle(pod: Pod, bindSucceeds: bool, now: int) returns (bound: bool)
      requires Valid()
      requires pod.uid in waitingPods ==> waitingPods[pod.uid].s.Some?
      modifies this, queue, waitingPods.Values
      ensures Valid() && waitingPods == old(waitingPods) - {pod.uid}
      ensures bound <==>
        bindSucceeds && (pod.uid in old(waitingPods) ==> old(waitingPods[pod.uid].s.value.code == Success))
      ensures queue.Contents() == if bound then old(queue.Contents())
                                  else FileFailed(old(queue.Contents()), pod, {}, now)
      ensures pod.uid in old(waitingPods) ==>
        var w := old(waitingPods)[pod.uid];
        w.Valid() && w.calls == old(w.calls) + [GetSignal] && w.Value() == Do(old(w.Value()), GetSignal)
      ensures forall uid :: uid in old(waitingPods) && uid != pod.uid ==> unchanged(old(waitingPods)[uid])
    {
      var status := WaitOnPermit(pod);
      bound := status.IsSuccess() && bindSucceeds;
      if !bound {
        ErrorFunc(pod, {}, now);
      }
    }
  }
}

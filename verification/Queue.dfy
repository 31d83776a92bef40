/** The three stores of the scheduling queue (minisched/queue/queue.go). */
module Queue {
  import opened Framework
  import opened Backoff
  import Tally

  datatype QueuedPodInfo =
    QueuedPodInfo(pod: Pod, timestamp: int, attempts: int, unschedulablePlugins: set<string>)

  /** The value of a queue: two FIFO lists and a map from `KeyOf` to the pods that failed. */
  datatype Queues = Queues(activeQ: seq<QueuedPodInfo>,
                           podBackoffQ: seq<QueuedPodInfo>,
                           unschedulableQ: map<string, QueuedPodInfo>)

  const EMPTY_QUEUES := Queues([], [], map[])

  function KeyOf(pod: Pod): string {
    pod.name + "_" + pod.namespace
  }

  function FreshInfo(pod: Pod, now: int, plugins: set<string>): QueuedPodInfo {
    QueuedPodInfo(pod, now, 0, plugins)
  }

  // ---- Keys ----

  /** Kubernetes object names are DNS names, so the separator does not occur in them. */
  predicate SeparatorFree(pod: Pod) {
    '_' !in pod.name
  }

  lemma KeyInjective(p: Pod, q: Pod)
    requires SeparatorFree(p) && SeparatorFree(q)
    requires KeyOf(p) == KeyOf(q)
    ensures p.name == q.name && p.namespace == q.namespace
  {
    var k := KeyOf(p);
    assert k[|p.name|] == '_' && k[|q.name|] == '_';
    assert forall i :: 0 <= i < |p.name| ==> k[i] == p.name[i];
    assert forall i :: 0 <= i < |q.name| ==> k[i] == q.name[i];
    assert |p.name| == |q.name|;
    assert p.name == k[..|p.name|] == k[..|q.name|] == q.name;
    assert p.namespace == k[|p.name| + 1..] == k[|q.name| + 1..] == q.namespace;
  }

  /** With the separator inside a name two different pods share a key, and one would replace the other. */
  lemma KeyCollision()
    ensures var p, q := Pod("a_b", "c", "1"), Pod("a", "b_c", "2"); p != q && KeyOf(p) == KeyOf(q) == "a_b_c"
  {
    assert KeyOf(Pod("a_b", "c", "1")) == "a_b_c";
  }

  // ---- Event matching ----

  /** A registered event answers an incoming one. */
  predicate EventMatches(registered: ClusterEvent, incoming: ClusterEvent) {
    || registered.IsWildCard()
    || (registered.resource == incoming.resource && registered.actionType & incoming.actionType != 0)
  }

  /** Some plugin that rejected the pod registered an event that answers `incoming`. */
  ghost predicate Woken(events: EventMap, plugins: set<string>, incoming: ClusterEvent) {
    || incoming.IsWildCard()
    || exists evt, name :: evt in events && EventMatches(evt, incoming) && name in events[evt] && name in plugins
  }

  /** Whether an event lets the pod leave the unschedulable store. */
  ghost predicate Movable(events: EventMap, info: QueuedPodInfo, incoming: ClusterEvent) {
    info.unschedulablePlugins == {} || Woken(events, info.unschedulablePlugins, incoming)
  }

  /** What the pod's plugins asked for, spelled out: the pod names none, the event is the wildcard, or one of them is on
      record for the wildcard or for an event of the same resource that shares an action bit. */
  ghost predicate Answered(events: EventMap, plugins: set<string>, incoming: ClusterEvent) {
    || plugins == {}
    || (incoming.resource == "*" && incoming.actionType == 0x3F)
    || exists evt, name :: evt in events && name in events[evt] && name in plugins
         && (|| (evt.resource == "*" && evt.actionType == 0x3F)
             || (evt.resource == incoming.resource && evt.actionType & incoming.actionType != 0))
  }

  lemma WokenIffAnswered(events: EventMap, plugins: set<string>, incoming: ClusterEvent)
    requires plugins != {}
    ensures Woken(events, plugins, incoming) <==> Answered(events, plugins, incoming)
  {
    if evt, name :| evt in events && EventMatches(evt, incoming) && name in events[evt] && name in plugins {
      assert name in events[evt];
    }
    if Answered(events, plugins, incoming) && !incoming.IsWildCard() {
      var evt, name :| evt in events && name in events[evt] && name in plugins
        && (|| (evt.resource == "*" && evt.actionType == 0x3F)
            || (evt.resource == incoming.resource && evt.actionType & incoming.actionType != 0));
      assert EventMatches(evt, incoming);
    }
  }

  lemma MovableIffAnswered(events: EventMap, info: QueuedPodInfo, incoming: ClusterEvent)
    ensures Movable(events, info, incoming) <==> Answered(events, info.unschedulablePlugins, incoming)
  {
    if info.unschedulablePlugins != {} {
      WokenIffAnswered(events, info.unschedulablePlugins, incoming);
    }
  }

  predicate BackingOff(info: QueuedPodInfo, now: int) {
    info.timestamp + BackoffOf(info.attempts) > now
  }

  // ---- Moving pods on an event ----

  datatype Fate = Stays | BacksOff | Activates

  /** What an event does to one unschedulable pod while the clock shows `now`. */
  ghost function FateOf(events: EventMap, info: QueuedPodInfo, incoming: ClusterEvent, now: int): Fate {
    if !Movable(events, info, incoming) then Stays
    else if BackingOff(info, now) then BacksOff
    else Activates
  }

  /** The i-th pod is examined while the clock shows `clock[i]`. */
  ghost function Fates(events: EventMap, infos: seq<QueuedPodInfo>, incoming: ClusterEvent,
                       clock: seq<int>): (f: seq<Fate>)
    requires |infos| == |clock|
  {
    seq(|infos|, i requires 0 <= i < |infos| => FateOf(events, infos[i], incoming, clock[i]))
  }

  function MoveOne(q: Queues, info: QueuedPodInfo, fate: Fate): Queues {
    match fate
    case Stays => q
    case BacksOff => Queues(q.activeQ, q.podBackoffQ + [info], q.unschedulableQ - {KeyOf(info.pod)})
    case Activates => Queues(q.activeQ + [info], q.podBackoffQ, q.unschedulableQ - {KeyOf(info.pod)})
  }

  /** The pods of `infos` are examined in turn. */
  function MoveAll(q: Queues, infos: seq<QueuedPodInfo>, fates: seq<Fate>): Queues
    requires |infos| == |fates|
  {
    if infos == [] then q
    else
      var last := |infos| - 1;
      MoveOne(MoveAll(q, infos[..last], fates[..last]), infos[last], fates[last])
  }

  /** The pods that meet one fate, in the order they were examined. */
  function Select(infos: seq<QueuedPodInfo>, fates: seq<Fate>, fate: Fate): seq<QueuedPodInfo>
    requires |infos| == |fates|
  {
    if infos == [] then []
    else
      var last := |infos| - 1;
      Select(infos[..last], fates[..last], fate) + if fates[last] == fate then [infos[last]] else []
  }

  ghost function LeavingKeys(infos: seq<QueuedPodInfo>, fates: seq<Fate>): set<string>
    requires |infos| == |fates|
  {
    set i | 0 <= i < |infos| && fates[i] != Stays :: KeyOf(infos[i].pod)
  }

  /** Every entry is filed under its own key. */
  predicate Keyed(m: map<string, QueuedPodInfo>) {
    forall k :: k in m ==> KeyOf(m[k].pod) == k
  }

  /** `infos` lists the entries of `m`, each once, in any order: what ranging over the map yields. */
  ghost predicate Enumerates(infos: seq<QueuedPodInfo>, m: map<string, QueuedPodInfo>) {
    && (forall i :: 0 <= i < |infos| ==> KeyOf(infos[i].pod) in m && m[KeyOf(infos[i].pod)] == infos[i])
    && (forall i, j :: 0 <= i < j < |infos| ==> KeyOf(infos[i].pod) != KeyOf(infos[j].pod))
    && (forall k :: k in m ==> exists i :: 0 <= i < |infos| && KeyOf(infos[i].pod) == k)
  }

  predicate NonDecreasing(clock: seq<int>) {
    forall i, j :: 0 <= i <= j < |clock| ==> clock[i] <= clock[j]
  }

  lemma {:induction false} LeavingKeysStep(infos: seq<QueuedPodInfo>, fates: seq<Fate>)
    requires |infos| == |fates| && infos != []
    ensures var last := |infos| - 1;
            LeavingKeys(infos, fates)
            == LeavingKeys(infos[..last], fates[..last]) + if fates[last] != Stays then {KeyOf(infos[last].pod)} else {}
  {
    var last := |infos| - 1;
    assert forall i :: 0 <= i < last ==> infos[..last][i] == infos[i] && fates[..last][i] == fates[i];
  }

  /** What a sweep over any list of pods adds to each list and removes from the map. */
  lemma {:induction false} MoveAllShape(q: Queues, infos: seq<QueuedPodInfo>, fates: seq<Fate>)
    requires |infos| == |fates|
    ensures MoveAll(q, infos, fates)
         == Queues(q.activeQ + Select(infos, fates, Activates), q.podBackoffQ + Select(infos, fates, BacksOff),
                   q.unschedulableQ - LeavingKeys(infos, fates))
  {
    if infos == [] {
      assert q.unschedulableQ - LeavingKeys(infos, fates) == q.unschedulableQ;
    } else {
      var last := |infos| - 1;
      MoveAllShape(q, infos[..last], fates[..last]);
      LeavingKeysStep(infos, fates);
    }
  }

  lemma {:induction false} SelectHas(infos: seq<QueuedPodInfo>, fates: seq<Fate>, fate: Fate, x: QueuedPodInfo)
    requires |infos| == |fates|
    ensures x in Select(infos, fates, fate) <==> exists i :: 0 <= i < |infos| && infos[i] == x && fates[i] == fate
  {
    if infos != [] {
      var last := |infos| - 1;
      SelectHas(infos[..last], fates[..last], fate, x);
      assert forall i :: 0 <= i < last ==> infos[..last][i] == infos[i] && fates[..last][i] == fates[i];
    }
  }

  lemma LeavingIsMovable(events: EventMap, m: map<string, QueuedPodInfo>, infos: seq<QueuedPodInfo>,
                         incoming: ClusterEvent, clock: seq<int>, k: string)
    requires Enumerates(infos, m) && |infos| == |clock| && k in m
    ensures k in LeavingKeys(infos, Fates(events, infos, incoming, clock)) <==> Movable(events, m[k], incoming)
  {
    var fates := Fates(events, infos, incoming, clock);
    var i :| 0 <= i < |infos| && KeyOf(infos[i].pod) == k;
    assert fates[i] == FateOf(events, m[k], incoming, clock[i]);
    if k in LeavingKeys(infos, fates) {
      var j :| 0 <= j < |infos| && fates[j] != Stays && KeyOf(infos[j].pod) == k;
      assert j == i;
    }
  }

  /** The pods an event leaves behind, and those it sends to the back-off and the active list. */
  ghost predicate Partitioned(events: EventMap, q: Queues, infos: seq<QueuedPodInfo>, incoming: ClusterEvent,
                              clock: seq<int>, q': Queues)
    requires |infos| == |clock|
  {
    // a pod stays exactly when it names plugins and none of them registered a matching event
    && (forall k :: k in q'.unschedulableQ
                    <==> && k in q.unschedulableQ
                         && !Answered(events, q.unschedulableQ[k].unschedulablePlugins, incoming))
    && (forall k :: k in q'.unschedulableQ ==> q'.unschedulableQ[k] == q.unschedulableQ[k])
    // the old lists remain prefixes
    && q.activeQ <= q'.activeQ
    && q.podBackoffQ <= q'.podBackoffQ
    // and every other pod is appended to the list its backoff selects, and only there
    && (forall i :: 0 <= i < |infos| ==>
          var answered := Answered(events, infos[i].unschedulablePlugins, incoming);
          var ends := infos[i].timestamp + BackoffTable(infos[i].attempts);
          && (infos[i] in q'.podBackoffQ[|q.podBackoffQ|..] <==> answered && ends > clock[i])
          && (infos[i] in q'.activeQ[|q.activeQ|..] <==> answered && ends <= clock[i]))
  }

  lemma SelectedByFate(infos: seq<QueuedPodInfo>, fates: seq<Fate>, m: map<string, QueuedPodInfo>, i: nat)
    requires |infos| == |fates| && Enumerates(infos, m) && i < |infos|
    ensures forall fate :: infos[i] in Select(infos, fates, fate) <==> fates[i] == fate
  {
    forall fate ensures infos[i] in Select(infos, fates, fate) <==> fates[i] == fate {
      SelectHas(infos, fates, fate, infos[i]);
      if j :| 0 <= j < |infos| && infos[j] == infos[i] && fates[j] == fate {
        assert j == i;
      }
    }
  }

  /** Moving on an event is an exact partition, whatever the map order and whatever the clock shows. */
  lemma MovePartition(events: EventMap, q: Queues, infos: seq<QueuedPodInfo>, incoming: ClusterEvent, clock: seq<int>)
    requires Enumerates(infos, q.unschedulableQ) && |infos| == |clock|
    ensures Partitioned(events, q, infos, incoming, clock,
                        MoveAll(q, infos, Fates(events, infos, incoming, clock)))
  {
    var fates := Fates(events, infos, incoming, clock);
    var q' := MoveAll(q, infos, fates);
    MoveAllShape(q, infos, fates);
    forall k | k in q.unschedulableQ
      ensures k in LeavingKeys(infos, fates)
         <==> Answered(events, q.unschedulableQ[k].unschedulablePlugins, incoming)
    {
      LeavingIsMovable(events, q.unschedulableQ, infos, incoming, clock, k);
      MovableIffAnswered(events, q.unschedulableQ[k], incoming);
    }
    assert q'.activeQ[|q.activeQ|..] == Select(infos, fates, Activates);
    assert q'.podBackoffQ[|q.podBackoffQ|..] == Select(infos, fates, BacksOff);
    forall i | 0 <= i < |infos|
      ensures infos[i] in q'.podBackoffQ[|q.podBackoffQ|..] <==> fates[i] == BacksOff
      ensures infos[i] in q'.activeQ[|q.activeQ|..] <==> fates[i] == Activates
      ensures fates[i] == Stays <==> !Answered(events, infos[i].unschedulablePlugins, incoming)
      ensures fates[i] == BacksOff ==> infos[i].timestamp + BackoffTable(infos[i].attempts) > clock[i]
      ensures fates[i] == Activates ==> infos[i].timestamp + BackoffTable(infos[i].attempts) <= clock[i]
    {
      MovableIffAnswered(events, infos[i], incoming);
      BackoffIsTable(infos[i].attempts);
      SelectedByFate(infos, fates, q.unschedulableQ, i);
    }
  }

  // ---- Moving loses and duplicates nothing ----

  function PodOf(info: QueuedPodInfo): Pod {
    info.pod
  }

  /** How often a pod occurs in the three stores together. */
  ghost function Copies(q: Queues, p: Pod): nat {
    Tally.InSeq(q.activeQ, PodOf, p) + Tally.InSeq(q.podBackoffQ, PodOf, p) + Tally.InMap(q.unschedulableQ, PodOf, p)
  }

  /** The pods from position `n` on are still filed in the map. */
  ghost predicate Filed(infos: seq<QueuedPodInfo>, n: nat, m: map<string, QueuedPodInfo>)
    requires n <= |infos|
  {
    forall i :: n <= i < |infos| ==> KeyOf(infos[i].pod) in m && m[KeyOf(infos[i].pod)] == infos[i]
  }

  lemma MoveOneCopies(q: Queues, info: QueuedPodInfo, fate: Fate, p: Pod)
    requires KeyOf(info.pod) in q.unschedulableQ && q.unschedulableQ[KeyOf(info.pod)] == info
    ensures Copies(MoveOne(q, info, fate), p) == Copies(q, p)
  {
    Tally.MapDrop(q.unschedulableQ, PodOf, p, KeyOf(info.pod));
    Tally.SeqAppend(q.activeQ, [info], PodOf, p);
    Tally.SeqAppend(q.podBackoffQ, [info], PodOf, p);
  }

  lemma MoveOneFiled(q: Queues, infos: seq<QueuedPodInfo>, fate: Fate, n: nat)
    requires n < |infos| && Filed(infos, n, q.unschedulableQ)
    requires forall i :: n < i < |infos| ==> KeyOf(infos[i].pod) != KeyOf(infos[n].pod)
    ensures Filed(infos, n + 1, MoveOne(q, infos[n], fate).unschedulableQ)
  {
  }

  lemma MoveAllStep(q: Queues, infos: seq<QueuedPodInfo>, fates: seq<Fate>, n: nat)
    requires |infos| == |fates| && n < |infos|
    ensures MoveAll(q, infos[..n + 1], fates[..n + 1])
         == MoveOne(MoveAll(q, infos[..n], fates[..n]), infos[n], fates[n])
  {
    assert infos[..n + 1][..n] == infos[..n] && fates[..n + 1][..n] == fates[..n];
  }

  lemma NextMoveFiled(q: Queues, infos: seq<QueuedPodInfo>, fates: seq<Fate>, n: nat)
    requires |infos| == |fates| && n < |infos| && Enumerates(infos, q.unschedulableQ)
    requires Filed(infos, n, MoveAll(q, infos[..n], fates[..n]).unschedulableQ)
    ensures Filed(infos, n + 1, MoveAll(q, infos[..n + 1], fates[..n + 1]).unschedulableQ)
  {
    MoveAllStep(q, infos, fates, n);
    MoveOneFiled(MoveAll(q, infos[..n], fates[..n]), infos, fates[n], n);
  }

  lemma {:induction false} MoveAllFiled(q: Queues, infos: seq<QueuedPodInfo>, fates: seq<Fate>, n: nat)
    requires |infos| == |fates| && n <= |infos| && Enumerates(infos, q.unschedulableQ)
    ensures Filed(infos, n, MoveAll(q, infos[..n], fates[..n]).unschedulableQ)
  {
    if n > 0 {
      MoveAllFiled(q, infos, fates, n - 1);
      NextMoveFiled(q, infos, fates, n - 1);
    }
  }

  lemma NextMoveCopies(q: Queues, infos: seq<QueuedPodInfo>, fates: seq<Fate>, n: nat, p: Pod)
    requires |infos| == |fates| && n < |infos| && Enumerates(infos, q.unschedulableQ)
    ensures Copies(MoveAll(q, infos[..n + 1], fates[..n + 1]), p) == Copies(MoveAll(q, infos[..n], fates[..n]), p)
  {
    var before := MoveAll(q, infos[..n], fates[..n]);
    MoveAllFiled(q, infos, fates, n);
    MoveAllStep(q, infos, fates, n);
    MoveOneCopies(before, infos[n], fates[n], p);
  }

  lemma {:induction false} MoveAllCopies(q: Queues, infos: seq<QueuedPodInfo>, fates: seq<Fate>, n: nat, p: Pod)
    requires |infos| == |fates| && n <= |infos| && Enumerates(infos, q.unschedulableQ)
    ensures Copies(MoveAll(q, infos[..n], fates[..n]), p) == Copies(q, p)
  {
    if n > 0 {
      MoveAllCopies(q, infos, fates, n - 1, p);
      NextMoveCopies(q, infos, fates, n - 1, p);
    }
  }

  /** However often a pod occurs in the stores, an event leaves it occurring as often. */
  lemma MoveConserves(q: Queues, infos: seq<QueuedPodInfo>, fates: seq<Fate>, p: Pod)
    requires |infos| == |fates| && Enumerates(infos, q.unschedulableQ)
    ensures Copies(MoveAll(q, infos, fates), p) == Copies(q, p)
  {
    MoveAllCopies(q, infos, fates, |infos|, p);
    assert infos[..|infos|] == infos && fates[..|infos|] == fates;
  }

  /** With a clock that never runs backwards, the first and last readings already settle most pods. */
  lemma MoveByClock(events: EventMap, q: Queues, infos: seq<QueuedPodInfo>, incoming: ClusterEvent, clock: seq<int>,
                    i: nat)
    requires Enumerates(infos, q.unschedulableQ) && |infos| == |clock| && i < |infos| && NonDecreasing(clock)
    requires Answered(events, infos[i].unschedulablePlugins, incoming)
    ensures var q' := MoveAll(q, infos, Fates(events, infos, incoming, clock));
            var ends := infos[i].timestamp + BackoffTable(infos[i].attempts);
            && q.activeQ <= q'.activeQ && q.podBackoffQ <= q'.podBackoffQ
            && (ends <= clock[0] ==> infos[i] in q'.activeQ[|q.activeQ|..])
            && (ends > clock[|clock| - 1] ==> infos[i] in q'.podBackoffQ[|q.podBackoffQ|..])
  {
    MovePartition(events, q, infos, incoming, clock);
    assert clock[0] <= clock[i] <= clock[|clock| - 1];
  }

  // ---- The other operations, on values ----

  function AddTo(q: Queues, pod: Pod, now: int): Queues {
    q.(activeQ := q.activeQ + [FreshInfo(pod, now, {})])
  }

  function Pop(q: Queues): Queues
    requires q.activeQ != []
  {
    q.(activeQ := q.activeQ[1..])
  }

  function File(q: Queues, info: QueuedPodInfo, now: int): Queues {
    q.(unschedulableQ := q.unschedulableQ[KeyOf(info.pod) := info.(timestamp := now)])
  }

  // ---- The queue object ----

  class SchedulingQueue {
    var activeQ: seq<QueuedPodInfo>
    var podBackoffQ: seq<QueuedPodInfo>
    var unschedulableQ: map<string, QueuedPodInfo>
    const clusterEventMap: EventMap

    // Everything ever appended to activeQ, and everything NextPod ever handed out, in order.
    ghost var appended: seq<QueuedPodInfo>
    ghost var popped: seq<QueuedPodInfo>

    ghost function Contents(): Queues
      reads this
    {
      Queues(activeQ, podBackoffQ, unschedulableQ)
    }

    /** Entries are filed under their own key, and the active list is first in, first out. */
    ghost predicate Valid()
      reads this
    {
      Keyed(unschedulableQ) && appended == popped + activeQ
    }

    constructor (events: EventMap)
      ensures Valid() && Contents() == EMPTY_QUEUES && clusterEventMap == events
      ensures appended == [] && popped == []
    {
      activeQ, podBackoffQ, unschedulableQ, clusterEventMap := [], [], map[], events;
      appended, popped := [], [];
    }

    method Add(pod: Pod, now: int)
      requires Valid()
      modifies this
      ensures Valid() && Contents() == AddTo(old(Contents()), pod, now)
      ensures activeQ == old(activeQ) + [QueuedPodInfo(pod, now, 0, {})]
      ensures podBackoffQ == old(podBackoffQ) && unschedulableQ == old(unschedulableQ)
      ensures appended == old(appended) + [FreshInfo(pod, now, {})] && popped == old(popped)
    {
      var podInfo := FreshInfo(pod, now, {});
      activeQ := activeQ + [podInfo];
      appended := appended + [podInfo];
    }

    /** The caller waits until the active list is non-empty; this is what happens then. */
    method NextPod() returns (pod: Pod)
      requires Valid() && activeQ != []
      modifies this
      ensures Valid() && Contents() == Pop(old(Contents()))
      ensures activeQ == old(activeQ)[1..]
      ensures podBackoffQ == old(podBackoffQ) && unschedulableQ == old(unschedulableQ)
      ensures pod == old(activeQ[0]).pod
      ensures popped == old(popped) + [old(activeQ[0])] && appended == old(appended)
    {
      var p := activeQ[0];
      activeQ := activeQ[1..];
      popped := popped + [p];
      return p.pod;
    }

    method AddUnschedulable(pInfo: QueuedPodInfo, now: int)
      requires Valid()
      modifies this
      ensures Valid() && Contents() == File(old(Contents()), pInfo, now)
      ensures var filed := QueuedPodInfo(pInfo.pod, now, pInfo.attempts, pInfo.unschedulablePlugins);
              unschedulableQ == old(unschedulableQ)[pInfo.pod.name + "_" + pInfo.pod.namespace := filed]
      ensures activeQ == old(activeQ) && podBackoffQ == old(podBackoffQ)
      ensures appended == old(appended) && popped == old(popped)
    {
      unschedulableQ := unschedulableQ[KeyOf(pInfo.pod) := pInfo.(timestamp := now)];
    }

    method PodMatchesEvent(plugins: set<string>, incoming: ClusterEvent) returns (matches: bool)
      ensures matches <==> Woken(clusterEventMap, plugins, incoming)
      ensures plugins != {} ==> (matches <==> Answered(clusterEventMap, plugins, incoming))
    {
      if plugins != {} {
        WokenIffAnswered(clusterEventMap, plugins, incoming);
      }
      if incoming.IsWildCard() {
        return true;
      }
      var unseen := clusterEventMap.Keys;
      while unseen != {}
        invariant unseen <= clusterEventMap.Keys
        invariant forall evt, name ::
                    evt in clusterEventMap && evt !in unseen && EventMatches(evt, incoming) && name in plugins
                    ==> name !in clusterEventMap[evt]
      {
        var evt :| evt in unseen;
        unseen := unseen - {evt};
        if EventMatches(evt, incoming) {
          var shared := Intersect(clusterEventMap[evt], plugins);
          if shared {
            return true;
          }
        }
      }
      return false;
    }

    static method IsPodBackingoff(info: QueuedPodInfo, now: int) returns (backingOff: bool)
      ensures backingOff <==> BackingOff(info, now)
      ensures backingOff <==> info.timestamp + BackoffTable(info.attempts) > now
    {
      BackoffIsTable(info.attempts);
      var duration := CalculateBackoffDuration(POD_INITIAL_BACKOFF, POD_MAX_BACKOFF, info.attempts);
      return info.timestamp + duration as int > now;
    }

    method MovePodsToActiveOrBackoffQueue(infos: seq<QueuedPodInfo>, incoming: ClusterEvent, clock: seq<int>)
      requires Valid() && |clock| == |infos|
      modifies this
      ensures Valid()
      ensures Contents() == MoveAll(old(Contents()), infos, Fates(clusterEventMap, infos, incoming, clock))
      ensures old(activeQ) <= activeQ && popped == old(popped)
      ensures appended == old(appended) + activeQ[|old(activeQ)|..]
    {
      ghost var fates := Fates(clusterEventMap, infos, incoming, clock);
      for i := 0 to |infos|
        invariant Valid() && popped == old(popped)
        invariant Contents() == MoveAll(old(Contents()), infos[..i], fates[..i])
        invariant old(activeQ) <= activeQ && appended == old(appended) + activeQ[|old(activeQ)|..]
      {
        assert infos[..i + 1][..i] == infos[..i] && fates[..i + 1][..i] == fates[..i];
        var pInfo := infos[i];
        if pInfo.unschedulablePlugins != {} {
          var matches := PodMatchesEvent(pInfo.unschedulablePlugins, incoming);
          if !matches {
            continue;
          }
        }
        var backingOff := IsPodBackingoff(pInfo, clock[i]);
        if backingOff {
          podBackoffQ := podBackoffQ + [pInfo];
        } else {
          activeQ := activeQ + [pInfo];
          appended := appended + [pInfo];
        }
        unschedulableQ := unschedulableQ - {KeyOf(pInfo.pod)};
      }
      assert infos[..|infos|] == infos && fates[..|infos|] == fates;
    }

    /** `order` is the order in which the map happened to be ranged over. */
    method MoveAllToActiveOrBackoffQueue(incoming: ClusterEvent, clock: seq<int>)
      returns (ghost order: seq<QueuedPodInfo>)
      requires Valid() && |clock| == |unschedulableQ|
      modifies this
      ensures Valid() && Enumerates(order, old(unschedulableQ)) && |order| == |clock|
      ensures Contents() == MoveAll(old(Contents()), order, Fates(clusterEventMap, order, incoming, clock))
      ensures old(activeQ) <= activeQ && popped == old(popped)
      ensures appended == old(appended) + activeQ[|old(activeQ)|..]
    {
      var unschedulablePods: seq<QueuedPodInfo> := [];
      var unseen := unschedulableQ.Keys;
      while unseen != {}
        invariant unseen <= unschedulableQ.Keys
        invariant |unschedulablePods| + |unseen| == |unschedulableQ|
        invariant forall i :: 0 <= i < |unschedulablePods| ==>
          var k := KeyOf(unschedulablePods[i].pod);
          k in unschedulableQ && k !in unseen && unschedulableQ[k] == unschedulablePods[i]
        invariant forall i, j :: 0 <= i < j < |unschedulablePods| ==>
          KeyOf(unschedulablePods[i].pod) != KeyOf(unschedulablePods[j].pod)
        invariant forall k :: k in unschedulableQ && k !in unseen ==>
          exists i :: 0 <= i < |unschedulablePods| && KeyOf(unschedulablePods[i].pod) == k
      {
        var k :| k in unseen;
        ghost var before := unschedulablePods;
        unschedulablePods := unschedulablePods + [unschedulableQ[k]];
        unseen := unseen - {k};
        assert forall i :: 0 <= i < |before| ==> unschedulablePods[i] == before[i];
        assert KeyOf(unschedulablePods[|before|].pod) == k;
      }
      order := unschedulablePods;
      MovePodsToActiveOrBackoffQueue(unschedulablePods, incoming, clock);
    }
  }

  /** Whether two sets share an element; the smaller one is searched. */
  method Intersect(x: set<string>, y: set<string>) returns (shared: bool)
    ensures shared <==> exists v :: v in x && v in y
  {
    var small, large := x, y;
    if |small| > |large| {
      small, large := large, small;
    }
    var unseen := small;
    while unseen != {}
      invariant unseen <= small
      invariant forall v :: v in small && v !in unseen ==> v !in large
    {
      var v :| v in unseen;
      if v in large {
        return true;
      }
      unseen := unseen - {v};
    }
    return false;
  }
}

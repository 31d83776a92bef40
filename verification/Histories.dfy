/** What whole runs say about order and blame. */
module Histories {
  import opened Framework
  import opened Backoff
  import opened Queue
  import opened Filtering
  import opened SchedulingCycle
  import opened System
  import opened Conservation
  import Tally

  // ---- First in, first out ----

  /** What a step appends to the active list. */
  ghost function AppendedByStep(cfg: Config, s: State, l: Label): seq<QueuedPodInfo>
    requires Enabled(cfg, s, l)
  {
    match l
    case AddPod(pod, now) => [FreshInfo(pod, now, {})]
    case Event(incoming, order, clock) => Select(order, Fates(cfg.events, order, incoming, clock), Activates)
    case _ => []
  }

  /** Everything ever appended to the active list, in order. */
  ghost function Appended(cfg: Config, run: seq<Label>): seq<QueuedPodInfo>
    requires Legal(cfg, run)
  {
    if run == [] then []
    else
      var front := run[..|run| - 1];
      Appended(cfg, front) + AppendedByStep(cfg, After(cfg, front), run[|run| - 1])
  }

  /** Everything the scheduling loop ever took, in order. */
  ghost function Taken(cfg: Config, run: seq<Label>): seq<QueuedPodInfo>
    requires Legal(cfg, run)
  {
    if run == [] then []
    else
      var front := run[..|run| - 1];
      Taken(cfg, front) + if run[|run| - 1].PopPod? then [After(cfg, front).queue.activeQ[0]] else []
  }

  /** What a step does to the active list. */
  lemma StepActive(cfg: Config, s: State, l: Label)
    requires Enabled(cfg, s, l)
    ensures Apply(cfg, s, l).queue.activeQ
         == (if l.PopPod? then s.queue.activeQ[1..] else s.queue.activeQ) + AppendedByStep(cfg, s, l)
  {
    if l.Event? {
      MoveAllShape(s.queue, l.order, Fates(cfg.events, l.order, l.incoming, l.clock));
    }
  }

  lemma Regroup(taken: seq<QueuedPodInfo>, active: seq<QueuedPodInfo>, pop: bool, more: seq<QueuedPodInfo>)
    requires pop ==> active != []
    ensures taken + active + more
         == (taken + if pop then [active[0]] else []) + ((if pop then active[1..] else active) + more)
  {
  }

  /** Pods are taken in exactly the order in which they entered the active list, whether new or woken by an event. */
  lemma {:induction false} FirstInFirstOut(cfg: Config, run: seq<Label>)
    requires Legal(cfg, run)
    ensures Appended(cfg, run) == Taken(cfg, run) + After(cfg, run).queue.activeQ
  {
    if run != [] {
      var front, l := run[..|run| - 1], run[|run| - 1];
      FirstInFirstOut(cfg, front);
      StepActive(cfg, After(cfg, front), l);
      Regroup(Taken(cfg, front), After(cfg, front).queue.activeQ, l.PopPod?, AppendedByStep(cfg, After(cfg, front), l));
    }
  }

  // ---- Who is blamed ----

  /** The attempt of the pod's most recent cycle, read off the run. */
  ghost function MostRecent(cfg: Config, run: seq<Label>, p: Pod): Option<Attempt>
    requires Legal(cfg, run)
  {
    if run == [] then None
    else
      var front, l := run[..|run| - 1], run[|run| - 1];
      if l.Schedule? && After(cfg, front).loop.pod == p then Some(Attempt(p, l.listed, l.draws))
      else MostRecent(cfg, front, p)
  }

  lemma StepLast(cfg: Config, s: State, l: Label)
    requires Enabled(cfg, s, l)
    ensures Apply(cfg, s, l).last
         == if l.Schedule? then s.last[s.loop.pod := Attempt(s.loop.pod, l.listed, l.draws)] else s.last
  {
  }

  lemma {:induction false} LastIsMostRecent(cfg: Config, run: seq<Label>, p: Pod)
    requires Legal(cfg, run)
    ensures MostRecent(cfg, run, p) == if p in After(cfg, run).last then Some(After(cfg, run).last[p]) else None
  {
    if run != [] {
      LastIsMostRecent(cfg, run[..|run| - 1], p);
      StepLast(cfg, After(cfg, run[..|run| - 1]), run[|run| - 1]);
    }
  }

  /** The blame for every attempt: what a cycle that gives up reports, and nobody once a node is chosen. */
  ghost predicate Blames(cfg: Config, blame: Attempt -> set<string>) {
    forall a :: blame(a) == match cfg.decide(a) case GiveUp(plugins) => plugins case Proceed(_, _) => {}
  }

  ghost predicate LastBlames(s: State, blame: Attempt -> set<string>, p: Pod, plugins: set<string>) {
    p in s.last && plugins == blame(s.last[p])
  }

  ghost predicate Attributed(s: State, blame: Attempt -> set<string>) {
    && (forall k :: k in s.queue.unschedulableQ ==>
          LastBlames(s, blame, s.queue.unschedulableQ[k].pod, s.queue.unschedulableQ[k].unschedulablePlugins))
    && (forall t :: t in s.binders ==> LastBlames(s, blame, BinderPod(s.binders[t]), {}))
    && match s.loop
       case GivingUp(pod, plugins) => LastBlames(s, blame, pod, plugins)
       case Registering(c) => LastBlames(s, blame, CyclePod(c), {})
       case Starting(c) => LastBlames(s, blame, CyclePod(c), {})
       case _ => true
  }

  /** While the loop holds a pod, neither the unschedulable store nor a binding cycle does. */
  lemma LoopHoldsAlone(s: State, pod: Pod)
    requires Inv(s) && LoopHolds(s.loop, pod) > 0
    ensures forall k :: k in s.queue.unschedulableQ ==> s.queue.unschedulableQ[k].pod != pod
    ensures forall t :: t in s.binders ==> BinderPod(s.binders[t]) != pod
  {
    KeyIsFree(s, pod);
    forall t | t in s.binders ensures BinderPod(s.binders[t]) != pod {
      OneCyclePerPod(s, t, t);
    }
  }

  lemma NewLastAttributes(s: State, s': State, blame: Attempt -> set<string>, a: Attempt)
    requires Inv(s) && Attributed(s, blame) && LoopHolds(s.loop, a.pod) > 0
    requires s'.last == s.last[a.pod := a] && s'.queue == s.queue && s'.binders == s.binders
    requires match s'.loop
             case GivingUp(pod, plugins) => pod == a.pod && plugins == blame(a)
             case Registering(c) => c.attempt == a && blame(a) == {}
             case Starting(c) => c.attempt == a && blame(a) == {}
             case _ => false
    ensures Attributed(s', blame)
  {
    LoopHoldsAlone(s, a.pod);
  }

  lemma ScheduleAttributes(cfg: Config, s: State, l: Label, blame: Attempt -> set<string>)
    requires Inv(s) && Blames(cfg, blame) && Attributed(s, blame) && Enabled(cfg, s, l) && l.Schedule?
    ensures Attributed(Apply(cfg, s, l), blame)
  {
    NewLastAttributes(s, Apply(cfg, s, l), blame, Attempt(s.loop.pod, l.listed, l.draws));
  }

  /** Filing a pod that the loop or a binder held, with the blame for its last attempt. */
  lemma FileAttributes(s: State, s': State, blame: Attempt -> set<string>, pod: Pod, plugins: set<string>, now: int)
    requires Attributed(s, blame) && LastBlames(s, blame, pod, plugins)
    requires s'.last == s.last && s'.queue == FileFailed(s.queue, pod, plugins, now)
    requires (s'.loop == s.loop || s'.loop.Idle?) && s'.binders.Keys <= s.binders.Keys
    requires forall t :: t in s'.binders ==> s'.binders[t] == s.binders[t]
    ensures Attributed(s', blame)
  {
  }

  /** No pod is filed, and every pod in flight was in flight before. */
  ghost predicate HandsOver(s: State, s': State) {
    && s'.last == s.last
    && (forall k :: k in s'.queue.unschedulableQ ==>
          k in s.queue.unschedulableQ && s'.queue.unschedulableQ[k] == s.queue.unschedulableQ[k])
    && (forall t :: t in s'.binders ==>
          || (t in s.binders && BinderPod(s'.binders[t]) == BinderPod(s.binders[t]))
          || (s.loop.Starting? && BinderPod(s'.binders[t]) == CyclePod(s.loop.cycle)))
    && (|| s'.loop == s.loop || s'.loop.Idle? || s'.loop.Popped?
        || (s.loop.Registering? && s'.loop.Starting? && CyclePod(s'.loop.cycle) == CyclePod(s.loop.cycle)))
  }

  lemma HandsOverAttributes(s: State, s': State, blame: Attempt -> set<string>)
    requires Attributed(s, blame) && HandsOver(s, s')
    ensures Attributed(s', blame)
  {
  }

  lemma StepHandsOver(cfg: Config, s: State, l: Label)
    requires Enabled(cfg, s, l) && !l.Schedule? && !l.ReturnPod? && !l.ReturnBound?
    ensures HandsOver(s, Apply(cfg, s, l))
  {
    if l.Event? {
      MoveAllShape(s.queue, l.order, Fates(cfg.events, l.order, l.incoming, l.clock));
    }
  }

  lemma StepAttributes(cfg: Config, s: State, l: Label, blame: Attempt -> set<string>)
    requires Inv(s) && Blames(cfg, blame) && Attributed(s, blame) && Enabled(cfg, s, l)
    ensures Attributed(Apply(cfg, s, l), blame)
  {
    var s' := Apply(cfg, s, l);
    match l
    case Schedule(_, _) => ScheduleAttributes(cfg, s, l, blame);
    case ReturnPod(now) => FileAttributes(s, s', blame, s.loop.pod, s.loop.plugins, now);
    case ReturnBound(t, now) => FileAttributes(s, s', blame, BinderPod(s.binders[t]), {}, now);
    case _ =>
      StepHandsOver(cfg, s, l);
      HandsOverAttributes(s, s', blame);
  }

  lemma {:induction false} RunAttributes(cfg: Config, run: seq<Label>, blame: Attempt -> set<string>)
    requires Legal(cfg, run) && Blames(cfg, blame)
    ensures Attributed(After(cfg, run), blame)
  {
    if run != [] {
      var front := run[..|run| - 1];
      RunAttributes(cfg, front, blame);
      RunConserves(cfg, front);
      StepAttributes(cfg, After(cfg, front), run[|run| - 1], blame);
    }
  }

  /** In every state of every run an unschedulable pod carries the filters that were first to reject a node in its most
      recent cycle, if that cycle found no node that fits, and no plugin if it failed in any other way. */
  lemma UnschedulablePodsAreAttributed(pf: Profile, events: EventMap, run: seq<Label>, k: string)
    requires Legal(Running(pf, events), run) && k in After(Running(pf, events), run).queue.unschedulableQ
    ensures
      var info := After(Running(pf, events), run).queue.unschedulableQ[k];
      var recent := MostRecent(Running(pf, events), run, info.pod);
      && recent.Some?
      && if recent.value.listed.Some?
            && (forall i :: 0 <= i < |recent.value.listed.value| ==>
                  !Fits(pf.filters, info.pod, recent.value.listed.value[i])) then
           forall name :: name in info.unschedulablePlugins
                          <==> RejectsFirst(pf.filters, info.pod, recent.value.listed.value, name)
         else info.unschedulablePlugins == {}
  {
    var cfg := Running(pf, events);
    var s := After(cfg, run);
    var info := s.queue.unschedulableQ[k];
    RunAttributes(cfg, run, a => Blamed(pf, a));
    LastIsMostRecent(cfg, run, info.pod);
    RecentIsOwn(cfg, run, info.pod);
    var recent := MostRecent(cfg, run, info.pod);
    if recent.value.listed.Some? {
      FailureMeans(pf.filters, info.pod, recent.value.listed.value);
    }
  }

  lemma {:induction false} RecentIsOwn(cfg: Config, run: seq<Label>, p: Pod)
    requires Legal(cfg, run) && MostRecent(cfg, run, p).Some?
    ensures MostRecent(cfg, run, p).value.pod == p
  {
    if run != [] && !(run[|run| - 1].Schedule? && After(cfg, run[..|run| - 1]).loop.pod == p) {
      RecentIsOwn(cfg, run[..|run| - 1], p);
    }
  }

  // ---- Nothing leaves the back-off list ----

  lemma StepBackoff(cfg: Config, s: State, l: Label)
    requires Enabled(cfg, s, l)
    ensures s.queue.podBackoffQ <= Apply(cfg, s, l).queue.podBackoffQ
  {
    if l.Event? {
      MoveAllShape(s.queue, l.order, Fates(cfg.events, l.order, l.incoming, l.clock));
    }
  }

  lemma {:induction false} PrefixIsLegal(cfg: Config, run: seq<Label>, n: nat)
    requires Legal(cfg, run) && n <= |run|
    ensures Legal(cfg, run[..n])
    ensures After(cfg, run[..n]).queue.podBackoffQ <= After(cfg, run).queue.podBackoffQ
  {
    if n == |run| {
      assert run[..n] == run;
    } else {
      var front := run[..|run| - 1];
      assert front[..n] == run[..n];
      PrefixIsLegal(cfg, front, n);
      StepBackoff(cfg, After(cfg, front), run[|run| - 1]);
    }
  }

  /** The state after the first `n` steps. */
  ghost function StateAt(cfg: Config, run: seq<Label>, n: nat): State
    requires Legal(cfg, run) && n <= |run|
  {
    PrefixIsLegal(cfg, run, n);
    After(cfg, run[..n])
  }

  /** A pod that an event once sent to the back-off list stays there and is never bound, however the run goes on. */
  lemma BackedOffIsNeverBound(cfg: Config, run: seq<Label>, n: nat, p: Pod)
    requires Legal(cfg, run) && n <= |run|
    requires exists i :: 0 <= i < |StateAt(cfg, run, n).queue.podBackoffQ|
                         && StateAt(cfg, run, n).queue.podBackoffQ[i].pod == p
    ensures Tally.InSeq(After(cfg, run).queue.podBackoffQ, PodOf, p) == 1
    ensures forall j :: 0 <= j < |After(cfg, run).bound| ==> CyclePod(After(cfg, run).bound[j]) != p
  {
    PrefixIsLegal(cfg, run, n);
    RunConserves(cfg, run);
    var before, s := StateAt(cfg, run, n).queue.podBackoffQ, After(cfg, run);
    var i :| 0 <= i < |before| && before[i].pod == p;
    assert s.queue.podBackoffQ[i].pod == p;
    Tally.SeqHas(s.queue.podBackoffQ, PodOf, p);
    assert Occurrences(s, p) <= 1;
    Tally.SeqHas(s.bound, CyclePod, p);
  }

  // ---- Leaving the unschedulable store ----

  lemma FilingLeaves(q: Queues, pod: Pod, plugins: set<string>, now: int, k: string)
    requires k in q.unschedulableQ && KeyOf(pod) !in q.unschedulableQ
    ensures var after := FileFailed(q, pod, plugins, now).unschedulableQ;
            k in after && after[k] == q.unschedulableQ[k]
  {
  }

  /** No step touches an unschedulable pod, except an event that one of its plugins answers. */
  lemma LeavesOnlyOnEvent(cfg: Config, s: State, l: Label, k: string)
    requires Inv(s) && Enabled(cfg, s, l) && k in s.queue.unschedulableQ
    ensures var info, after := s.queue.unschedulableQ[k], Apply(cfg, s, l).queue.unschedulableQ;
            if l.Event? && Answered(cfg.events, info.unschedulablePlugins, l.incoming) then k !in after
            else k in after && after[k] == info
  {
    match l
    case ReturnPod(now) =>
      KeyIsFree(s, s.loop.pod);
      FilingLeaves(s.queue, s.loop.pod, s.loop.plugins, now, k);
    case ReturnBound(t, now) =>
      BinderInLoop(s, t);
      KeyIsFree(s, BinderPod(s.binders[t]));
      FilingLeaves(s.queue, BinderPod(s.binders[t]), {}, now, k);
    case Event(incoming, order, clock) => MovePartition(cfg.events, s.queue, order, incoming, clock);
    case _ =>
  }

  /** Failed pods are filed afresh, so no attempt is ever counted. */
  predicate NoAttempts(m: map<string, QueuedPodInfo>) {
    forall k :: k in m ==> m[k].attempts == 0
  }

  lemma StepNoAttempts(cfg: Config, s: State, l: Label)
    requires Enabled(cfg, s, l) && NoAttempts(s.queue.unschedulableQ)
    ensures NoAttempts(Apply(cfg, s, l).queue.unschedulableQ)
  {
    if l.Event? {
      MoveAllShape(s.queue, l.order, Fates(cfg.events, l.order, l.incoming, l.clock));
    }
  }

  lemma {:induction false} RunNoAttempts(cfg: Config, run: seq<Label>)
    requires Legal(cfg, run)
    ensures NoAttempts(After(cfg, run).queue.unschedulableQ)
  {
    if run != [] {
      RunNoAttempts(cfg, run[..|run| - 1]);
      StepNoAttempts(cfg, After(cfg, run[..|run| - 1]), run[|run| - 1]);
    }
  }

  ghost predicate InBackoffQ(q: Queues, p: Pod) {
    exists info :: info in q.podBackoffQ && info.pod == p
  }

  // ---- When a pod failed ----

  /** The pod whose failure a step reports. */
  ghost function FailedBy(s: State, l: Label): Option<Pod> {
    match l
    case ReturnPod(_) => if s.loop.GivingUp? then Some(s.loop.pod) else None
    case ReturnBound(t, _) => if t in s.binders then Some(s.binders[t].cycle.attempt.pod) else None
    case _ => None
  }

  /** When the pod last failed: the clock reading of the latest step that reported a failure of it. */
  ghost function FailedAt(cfg: Config, run: seq<Label>, p: Pod): Option<int>
    requires Legal(cfg, run)
  {
    if run == [] then None
    else
      var front, last := run[..|run| - 1], run[|run| - 1];
      if FailedBy(After(cfg, front), last) == Some(p) then Some(last.now) else FailedAt(cfg, front, p)
  }

  /** Filing leaves the other entries, and dates the new one. */
  lemma FiledWhen(s: State, pod: Pod, plugins: set<string>, now: int)
    requires Inv(s) && LoopHolds(s.loop, pod) + Tally.InMap(s.binders, BinderPod, pod) > 0
    ensures var after := FileFailed(s.queue, pod, plugins, now).unschedulableQ;
            forall k :: k in after ==>
              if after[k].pod == pod then after[k].timestamp == now
              else k in s.queue.unschedulableQ && after[k] == s.queue.unschedulableQ[k]
  {
    KeyIsFree(s, pod);
    assert forall k :: k in s.queue.unschedulableQ ==> KeyOf(s.queue.unschedulableQ[k].pod) == k;
  }

  /** An entry after a step was there before, or was filed by the step and carries its clock reading. */
  lemma EntryFrom(cfg: Config, s: State, l: Label, k: string)
    requires Inv(s) && Enabled(cfg, s, l) && k in Apply(cfg, s, l).queue.unschedulableQ
    ensures var info := Apply(cfg, s, l).queue.unschedulableQ[k];
            if FailedBy(s, l) == Some(info.pod) then (l.ReturnPod? || l.ReturnBound?) && info.timestamp == l.now
            else k in s.queue.unschedulableQ && info == s.queue.unschedulableQ[k]
  {
    match l
    case ReturnPod(now) => FiledWhen(s, s.loop.pod, s.loop.plugins, now);
    case ReturnBound(t, now) =>
      BinderInLoop(s, t);
      FiledWhen(s, BinderPod(s.binders[t]), {}, now);
    case Event(incoming, order, clock) => MoveAllShape(s.queue, order, Fates(cfg.events, order, incoming, clock));
    case _ =>
  }

  /** Every unschedulable pod carries the time of its latest failure. */
  lemma {:induction false} TimestampIsFailure(cfg: Config, run: seq<Label>, k: string)
    requires Legal(cfg, run) && k in After(cfg, run).queue.unschedulableQ
    ensures var info := After(cfg, run).queue.unschedulableQ[k];
            FailedAt(cfg, run, info.pod) == Some(info.timestamp)
  {
    if run != [] {
      var front, l := run[..|run| - 1], run[|run| - 1];
      RunConserves(cfg, front);
      EntryFrom(cfg, After(cfg, front), l, k);
      if FailedBy(After(cfg, front), l) != Some(After(cfg, run).queue.unschedulableQ[k].pod) {
        TimestampIsFailure(cfg, front, k);
      }
    }
  }

  // ---- Waking a pod too early ----

  /** The event finds the pod's plugins answered, and less than a second has passed since the pod failed. */
  ghost predicate WokenEarlyAfter(cfg: Config, before: seq<Label>, l: Label, p: Pod)
    requires Legal(cfg, before)
  {
    && l.Event? && |l.order| == |l.clock| && FailedAt(cfg, before, p).Some?
    && exists i :: 0 <= i < |l.order| && l.order[i].pod == p
         && Answered(cfg.events, l.order[i].unschedulablePlugins, l.incoming)
         && l.clock[i] < FailedAt(cfg, before, p).value + 1_000_000_000
  }

  /** Step `n` of the run is such an event. */
  ghost predicate WokenEarly(cfg: Config, run: seq<Label>, n: nat, p: Pod)
    requires Legal(cfg, run) && n < |run|
  {
    PrefixIsLegal(cfg, run, n);
    WokenEarlyAfter(cfg, run[..n], run[n], p)
  }

  /** A pod that an event examines carries the time of its failure, and its backoff is one second. */
  lemma ExaminedWhen(cfg: Config, run: seq<Label>, l: Label, i: nat)
    requires Legal(cfg, run) && l.Event? && Enabled(cfg, After(cfg, run), l) && i < |l.order|
    ensures FailedAt(cfg, run, l.order[i].pod) == Some(l.order[i].timestamp)
    ensures FateOf(cfg.events, l.order[i], l.incoming, l.clock[i]) == BacksOff
       <==> && Answered(cfg.events, l.order[i].unschedulablePlugins, l.incoming)
            && l.clock[i] < l.order[i].timestamp + 1_000_000_000
  {
    TimestampIsFailure(cfg, run, KeyOf(l.order[i].pod));
    RunNoAttempts(cfg, run);
    MovableIffAnswered(cfg.events, l.order[i], l.incoming);
    BackoffIsTable(l.order[i].attempts);
  }

  lemma EventBacksOff(cfg: Config, run: seq<Label>, l: Label, p: Pod)
    requires Legal(cfg, run) && l.Event? && Enabled(cfg, After(cfg, run), l)
    ensures WokenEarlyAfter(cfg, run, l, p)
       <==> exists x :: x in Select(l.order, Fates(cfg.events, l.order, l.incoming, l.clock), BacksOff) && x.pod == p
  {
    var fates := Fates(cfg.events, l.order, l.incoming, l.clock);
    forall i | 0 <= i < |l.order|
      ensures FailedAt(cfg, run, l.order[i].pod) == Some(l.order[i].timestamp)
      ensures fates[i] == BacksOff
         <==> && Answered(cfg.events, l.order[i].unschedulablePlugins, l.incoming)
              && l.clock[i] < l.order[i].timestamp + 1_000_000_000
    {
      ExaminedWhen(cfg, run, l, i);
    }
    if i :| 0 <= i < |l.order| && l.order[i].pod == p && fates[i] == BacksOff {
      SelectHas(l.order, fates, BacksOff, l.order[i]);
    }
    if x :| x in Select(l.order, fates, BacksOff) && x.pod == p {
      SelectHas(l.order, fates, BacksOff, x);
    }
  }

  lemma StepBacksOff(cfg: Config, run: seq<Label>, l: Label, p: Pod)
    requires Legal(cfg, run) && Enabled(cfg, After(cfg, run), l)
    ensures InBackoffQ(Apply(cfg, After(cfg, run), l).queue, p)
       <==> InBackoffQ(After(cfg, run).queue, p) || WokenEarlyAfter(cfg, run, l, p)
  {
    if l.Event? {
      MoveAllShape(After(cfg, run).queue, l.order, Fates(cfg.events, l.order, l.incoming, l.clock));
      EventBacksOff(cfg, run, l, p);
    }
  }

  lemma EarlierStays(cfg: Config, run: seq<Label>, n: nat, p: Pod)
    requires Legal(cfg, run) && n < |run| - 1
    ensures WokenEarly(cfg, run, n, p) <==> WokenEarly(cfg, run[..|run| - 1], n, p)
  {
    assert run[..|run| - 1][..n] == run[..n];
  }

  /** Exactly when a pod is in the back-off list: some event of the run woke it before a second had passed since its
      latest failure. Attempts are never counted, so the backoff is that second in every run. */
  lemma {:induction false} BackedOffIffWokenEarly(cfg: Config, run: seq<Label>, p: Pod)
    requires Legal(cfg, run)
    ensures InBackoffQ(After(cfg, run).queue, p) <==> exists n :: 0 <= n < |run| && WokenEarly(cfg, run, n, p)
  {
    if run != [] {
      var front, last := run[..|run| - 1], |run| - 1;
      BackedOffIffWokenEarly(cfg, front, p);
      StepBacksOff(cfg, front, run[last], p);
      assert WokenEarly(cfg, run, last, p) <==> WokenEarlyAfter(cfg, front, run[last], p);
      forall n | 0 <= n < last ensures WokenEarly(cfg, run, n, p) <==> WokenEarly(cfg, front, n, p) {
        EarlierStays(cfg, run, n, p);
      }
    }
  }

  /** The pod occurs in the back-off list once, and is never bound. */
  ghost predicate Lost(s: State, p: Pod) {
    && Tally.InSeq(s.queue.podBackoffQ, PodOf, p) == 1
    && forall j :: 0 <= j < |s.bound| ==> CyclePod(s.bound[j]) != p
  }

  lemma LostIffInBackoffQ(s: State, p: Pod)
    requires Inv(s)
    ensures Lost(s, p) <==> InBackoffQ(s.queue, p)
  {
    Tally.SeqHas(s.queue.podBackoffQ, PodOf, p);
    Tally.SeqHas(s.bound, CyclePod, p);
    assert Occurrences(s, p) <= 1;
    if info :| info in s.queue.podBackoffQ && info.pod == p {
      var i :| 0 <= i < |s.queue.podBackoffQ| && s.queue.podBackoffQ[i] == info;
      assert PodOf(s.queue.podBackoffQ[i]) == p;
    }
  }

  /** A pod that was woken early is lost, however the run goes on, and no other pod is. */
  lemma WokenEarlyIsLost(cfg: Config, run: seq<Label>, p: Pod)
    requires Legal(cfg, run)
    ensures Lost(After(cfg, run), p) <==> exists n :: 0 <= n < |run| && WokenEarly(cfg, run, n, p)
  {
    BackedOffIffWokenEarly(cfg, run, p);
    RunConserves(cfg, run);
    LostIffInBackoffQ(After(cfg, run), p);
  }

  /** A pod is added, and its nodes cannot be listed. */
  lemma ListingFails(cfg: Config, pod: Pod)
    requires SeparatorFree(pod) && cfg.drawable(Attempt(pod, None, [])) && cfg.decide(Attempt(pod, None, [])).GiveUp?
    ensures
      var run := [AddPod(pod, 0), PopPod, Schedule(None, []), ReturnPod(0)];
      var plugins := cfg.decide(Attempt(pod, None, [])).unschedulablePlugins;
      Legal(cfg, run) && After(cfg, run).queue == Queues([], [], map[KeyOf(pod) := FreshInfo(pod, 0, plugins)])
  {
    var run1 := [] + [AddPod(pod, 0)];
    var run2 := run1 + [PopPod];
    var run3 := run2 + [Schedule(None, [])];
    Extend(cfg, [], AddPod(pod, 0));
    Extend(cfg, run1, PopPod);
    Extend(cfg, run2, Schedule(None, []));
    Extend(cfg, run3, ReturnPod(0));
    assert run3 + [ReturnPod(0)] == [AddPod(pod, 0), PopPod, Schedule(None, []), ReturnPod(0)];
  }

  lemma OnlyEntry(info: QueuedPodInfo)
    ensures Enumerates([info], map[KeyOf(info.pod) := info])
  {
    assert [info][0] == info;
  }

  /** Whatever the plugins and events: a pod is added, its nodes cannot be listed, and an event comes at once. */
  lemma APodIsLost(pf: Profile, events: EventMap, pod: Pod, incoming: ClusterEvent)
    requires SeparatorFree(pod)
    ensures
      var run := [AddPod(pod, 0), PopPod, Schedule(None, []), ReturnPod(0),
                  Event(incoming, [FreshInfo(pod, 0, {})], [0])];
      Legal(Running(pf, events), run) && Lost(After(Running(pf, events), run), pod)
  {
    var cfg, info := Running(pf, events), FreshInfo(pod, 0, {});
    var failed, wake := [AddPod(pod, 0), PopPod, Schedule(None, []), ReturnPod(0)], Event(incoming, [info], [0]);
    ListingFails(cfg, pod);
    OnlyEntry(info);
    assert After(cfg, failed).queue.unschedulableQ == map[KeyOf(pod) := info];
    Extend(cfg, failed, wake);
    assert failed + [wake] == [AddPod(pod, 0), PopPod, Schedule(None, []), ReturnPod(0), wake];
    TimestampIsFailure(cfg, failed, KeyOf(pod));
    assert wake.order[0] == info && (failed + [wake])[..4] == failed;
    assert WokenEarlyAfter(cfg, failed, wake, pod);
    assert WokenEarly(cfg, failed + [wake], 4, pod);
    WokenEarlyIsLost(cfg, failed + [wake], pod);
  }
}

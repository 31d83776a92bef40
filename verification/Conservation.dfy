/** No step loses or duplicates a pod. */
module Conservation {
  import opened Framework
  import opened Queue
  import opened System
  import Tally

  // ---- Where pods are ----

  function LoopHolds(loop: Loop, p: Pod): nat {
    match loop
    case Idle => 0
    case Popped(pod) => if pod == p then 1 else 0
    case GivingUp(pod, _) => if pod == p then 1 else 0
    case Registering(c) => if c.attempt.pod == p then 1 else 0
    case Starting(c) => if c.attempt.pod == p then 1 else 0
  }

  function CyclePod(c: Cycle): Pod {
    c.attempt.pod
  }

  function BinderPod(b: Binder): Pod {
    b.cycle.attempt.pod
  }

  /** How often a pod occurs in the queue, in the scheduling loop, in the binding cycles and among the bound. */
  ghost function Occurrences(s: State, p: Pod): nat {
    Copies(s.queue, p) + LoopHolds(s.loop, p) + Tally.InMap(s.binders, BinderPod, p) + Tally.InSeq(s.bound, CyclePod, p)
  }

  ghost predicate Conserved(s: State) {
    forall p :: Occurrences(s, p) == if p in s.added then 1 else 0
  }

  /** The pods that were added can be told apart by key and by uid. */
  ghost predicate Distinguishable(added: set<Pod>) {
    && (forall p :: p in added ==> SeparatorFree(p))
    && (forall p, q :: p in added && q in added && p != q ==>
          p.uid != q.uid && (p.name, p.namespace) != (q.name, q.namespace))
  }

  ghost predicate Inv(s: State) {
    Conserved(s) && Distinguishable(s.added) && Keyed(s.queue.unschedulableQ)
  }

  // ---- Filing a failed pod never replaces another one ----

  lemma FiledIsAdded(s: State, k: string)
    requires Conserved(s) && k in s.queue.unschedulableQ
    ensures s.queue.unschedulableQ[k].pod in s.added
  {
    var p := s.queue.unschedulableQ[k].pod;
    Tally.MapHas(s.queue.unschedulableQ, PodOf, p);
    assert Occurrences(s, p) > 0;
  }

  /** A pod that is held outside the queue has no entry under its key. */
  lemma KeyIsFree(s: State, pod: Pod)
    requires Inv(s)
    requires LoopHolds(s.loop, pod) + Tally.InMap(s.binders, BinderPod, pod) > 0
    ensures pod in s.added && KeyOf(pod) !in s.queue.unschedulableQ
  {
    assert Occurrences(s, pod) > 0;
    var k := KeyOf(pod);
    if k in s.queue.unschedulableQ {
      var p := s.queue.unschedulableQ[k].pod;
      FiledIsAdded(s, k);
      KeyInjective(p, pod);
      assert p == pod;
      Tally.MapHas(s.queue.unschedulableQ, PodOf, pod);
      assert false;
    }
  }

  lemma FileFailedCopies(q: Queues, pod: Pod, plugins: set<string>, now: int, p: Pod)
    requires KeyOf(pod) !in q.unschedulableQ
    ensures Copies(FileFailed(q, pod, plugins, now), p) == Copies(q, p) + if pod == p then 1 else 0
  {
    Tally.MapPut(q.unschedulableQ, PodOf, p, KeyOf(pod), FreshInfo(pod, 0, plugins).(timestamp := now));
  }

  lemma AddToCopies(q: Queues, pod: Pod, now: int, p: Pod)
    ensures Copies(AddTo(q, pod, now), p) == Copies(q, p) + if pod == p then 1 else 0
  {
    Tally.SeqAppend(q.activeQ, [FreshInfo(pod, now, {})], PodOf, p);
  }

  lemma PopCopies(q: Queues, p: Pod)
    requires q.activeQ != []
    ensures Copies(Pop(q), p) == Copies(q, p) - if q.activeQ[0].pod == p then 1 else 0
  {
    Tally.SeqPopFront(q.activeQ, PodOf, p);
  }

  // ---- Every step conserves ----

  lemma BinderInLoop(s: State, t: nat)
    requires t in s.binders
    ensures Tally.InMap(s.binders, BinderPod, BinderPod(s.binders[t])) > 0
  {
    Tally.MapHas(s.binders, BinderPod, BinderPod(s.binders[t]));
  }

  /** The change a step makes to the number of times a pod occurs: none, but for the pod it adds. */
  lemma StepOccurrences(cfg: Config, s: State, l: Label, p: Pod)
    requires Inv(s) && Enabled(cfg, s, l)
    ensures Occurrences(Apply(cfg, s, l), p) == Occurrences(s, p) + if l.AddPod? && l.pod == p then 1 else 0
  {
    match l
    case AddPod(pod, now) => AddToCopies(s.queue, pod, now, p);
    case PopPod => PopCopies(s.queue, p);
    case Schedule(_, _) =>
    case ReturnPod(now) =>
      KeyIsFree(s, s.loop.pod);
      FileFailedCopies(s.queue, s.loop.pod, s.loop.plugins, now, p);
    case RegisterWaiting(_) =>
    case StartBinding(t) => Tally.MapPut(s.binders, BinderPod, p, t, Binder(s.loop.cycle, Entering));
    case EnterWait(t) => RestageOccurrences(s, t, Apply(cfg, s, l).binders[t].stage, p);
    case TakeSignal(t) => RestageOccurrences(s, t, Apply(cfg, s, l).binders[t].stage, p);
    case LeaveWait(t) => RestageOccurrences(s, t, Apply(cfg, s, l).binders[t].stage, p);
    case BindSucceeds(t) =>
      Tally.MapDrop(s.binders, BinderPod, p, t);
      Tally.SeqAppend(s.bound, [s.binders[t].cycle], CyclePod, p);
    case BindFails(t) => RestageOccurrences(s, t, Failing, p);
    case ReturnBound(t, now) =>
      var pod := BinderPod(s.binders[t]);
      BinderInLoop(s, t);
      KeyIsFree(s, pod);
      Tally.MapDrop(s.binders, BinderPod, p, t);
      FileFailedCopies(s.queue, pod, {}, now, p);
    case PermitCall(_, _) =>
    case Event(incoming, order, clock) => MoveConserves(s.queue, order, Fates(cfg.events, order, incoming, clock), p);
  }

  lemma RestageOccurrences(s: State, t: nat, stage: Stage, p: Pod)
    requires t in s.binders
    ensures Tally.InMap(Restage(s, t, stage).binders, BinderPod, p) == Tally.InMap(s.binders, BinderPod, p)
  {
    Tally.MapReplace(s.binders, BinderPod, p, t, s.binders[t].(stage := stage));
  }

  lemma StepKeepsKeys(cfg: Config, s: State, l: Label)
    requires Keyed(s.queue.unschedulableQ) && Enabled(cfg, s, l)
    ensures Keyed(Apply(cfg, s, l).queue.unschedulableQ)
  {
    if l.Event? {
      MoveAllShape(s.queue, l.order, Fates(cfg.events, l.order, l.incoming, l.clock));
    }
  }

  lemma StepConserves(cfg: Config, s: State, l: Label)
    requires Inv(s) && Enabled(cfg, s, l)
    ensures Inv(Apply(cfg, s, l))
  {
    var s' := Apply(cfg, s, l);
    StepKeepsKeys(cfg, s, l);
    forall p ensures Occurrences(s', p) == if p in s'.added then 1 else 0 {
      StepOccurrences(cfg, s, l, p);
      assert Occurrences(s, p) == if p in s.added then 1 else 0;
    }
  }

  /** In every state of every run, a pod that was added occurs exactly once, and any other pod not at all. */
  lemma {:induction false} RunConserves(cfg: Config, run: seq<Label>)
    requires Legal(cfg, run)
    ensures Inv(After(cfg, run))
  {
    if run == [] {
      forall p ensures Occurrences(INIT, p) == 0 {
      }
    } else {
      RunConserves(cfg, run[..|run| - 1]);
      StepConserves(cfg, After(cfg, run[..|run| - 1]), run[|run| - 1]);
    }
  }

  /** Two binding cycles never work for the same pod, nor does one while the loop holds the pod. */
  lemma OneCyclePerPod(s: State, t: nat, u: nat)
    requires Conserved(s) && t in s.binders
    ensures u in s.binders && u != t ==> BinderPod(s.binders[u]) != BinderPod(s.binders[t])
    ensures LoopHolds(s.loop, BinderPod(s.binders[t])) == 0
  {
    var p := BinderPod(s.binders[t]);
    Tally.MapHas(s.binders, BinderPod, p);
    assert Occurrences(s, p) <= 1;
    if u in s.binders && u != t && BinderPod(s.binders[u]) == p {
      Tally.MapTwice(s.binders, BinderPod, t, u);
    }
  }
}

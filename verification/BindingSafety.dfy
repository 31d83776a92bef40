/** A pod is only ever bound where its cycle soundly chose to, and after every plugin that asked to wait has allowed
    it. */
module BindingSafety {
  import opened Framework
  import opened WaitingPods
  import opened SchedulingCycle
  import opened System
  import opened Conservation
  import Tally

  // ---- What is known about a cycle at each stage ----

  /** The cycle is the outcome of its attempt, and the waiting-pod object it registered was made for it. */
  ghost predicate Backed(cfg: Config, s: State, c: Cycle) {
    && cfg.decide(c.attempt) == Proceed(c.node, c.waits)
    && (c.permit.None? ==> c.waits == map[])
    && (c.permit.Some? ==>
          && c.permit.value in s.waiters
          && s.waiters[c.permit.value].pod == c.attempt.pod
          && s.waiters[c.permit.value].initial == c.waits.Keys)
  }

  /** The pod is entered in `waitingPods`, under the cycle's own object. */
  ghost predicate Entered(s: State, c: Cycle) {
    c.permit.Some? && c.attempt.pod.uid in s.waitingPods && s.waitingPods[c.attempt.pod.uid] == c.permit.value
  }

  ghost predicate Unread(s: State, c: Cycle) {
    c.permit.Some? && c.permit.value in s.waiters && GetSignal !in s.waiters[c.permit.value].calls
  }

  ghost function VerdictOn(s: State, c: Cycle): Option<Status>
    requires c.permit.Some? && c.permit.value in s.waiters
  {
    Verdict(s.waiters[c.permit.value].initial, s.waiters[c.permit.value].calls)
  }

  /** Nobody asked to wait, or the waiting ended with success. */
  ghost predicate Cleared(s: State, c: Cycle) {
    c.permit.Some? ==> c.permit.value in s.waiters && VerdictOn(s, c) == Some(PASSED)
  }

  ghost predicate BinderInv(cfg: Config, s: State, b: Binder) {
    && Backed(cfg, s, b.cycle)
    && match b.stage
       case Entering => b.cycle.permit.Some? ==> Entered(s, b.cycle) && Unread(s, b.cycle)
       case Blocked(id) => b.cycle.permit == Some(id) && Entered(s, b.cycle) && Unread(s, b.cycle)
       case Signalled(id, status) =>
         b.cycle.permit == Some(id) && Entered(s, b.cycle) && VerdictOn(s, b.cycle) == Some(status)
       case Binding => Cleared(s, b.cycle)
       case Failing => true
  }

  ghost predicate LoopInv(cfg: Config, s: State) {
    match s.loop
    case Registering(c) =>
      c.permit.None? && c.waits != map[] && cfg.decide(c.attempt) == Proceed(c.node, c.waits)
    case Starting(c) => Backed(cfg, s, c) && (c.permit.Some? ==> Entered(s, c) && Unread(s, c))
    case _ => true
  }

  /** Between registration and the return of WaitOnPermit. */
  predicate BeforeReturn(stage: Stage) {
    stage.Entering? || stage.Blocked? || stage.Signalled?
  }

  /** Some cycle between registration and return accounts for the entry. */
  ghost predicate Accounted(s: State, uid: string) {
    || (s.loop.Starting? && s.loop.cycle.permit.Some? && s.loop.cycle.attempt.pod.uid == uid)
    || exists t :: t in s.binders && BeforeReturn(s.binders[t].stage) && s.binders[t].cycle.permit.Some?
                   && s.binders[t].cycle.attempt.pod.uid == uid
  }

  ghost predicate WaitersReplay(s: State) {
    forall id :: id in s.waiters ==> s.waiters[id].value == Replay(s.waiters[id].initial, s.waiters[id].calls)
  }

  ghost predicate Safe(cfg: Config, s: State) {
    && WaitersReplay(s)
    && LoopInv(cfg, s)
    && (forall t :: t in s.binders ==> BinderInv(cfg, s, s.binders[t]))
    && (forall i :: 0 <= i < |s.bound| ==> Backed(cfg, s, s.bound[i]) && Cleared(s, s.bound[i]))
    && (forall uid :: uid in s.waitingPods ==> Accounted(s, uid))
  }

  // ---- Knowledge survives other steps ----

  /** The object received calls and nothing else happened to it. */
  ghost predicate Extends(w: Waiter, w': Waiter) {
    w'.pod == w.pod && w'.initial == w.initial && w.calls <= w'.calls
  }

  ghost predicate WaitersGrow(s: State, s': State) {
    forall id :: id in s.waiters ==> id in s'.waiters && Extends(s.waiters[id], s'.waiters[id])
  }

  lemma StepGrowsWaiters(cfg: Config, s: State, l: Label)
    requires Enabled(cfg, s, l)
    ensures WaitersGrow(s, Apply(cfg, s, l))
  {
  }

  lemma ClearedStays(cfg: Config, s: State, s': State, c: Cycle)
    requires WaitersGrow(s, s') && Backed(cfg, s, c)
    ensures Backed(cfg, s', c)
    ensures Cleared(s, c) ==> Cleared(s', c)
    ensures c.permit.Some? && VerdictOn(s, c).Some? ==> VerdictOn(s', c) == VerdictOn(s, c)
  {
    if c.permit.Some? && VerdictOn(s, c).Some? {
      var w, w' := s.waiters[c.permit.value], s'.waiters[c.permit.value];
      assert w'.calls[..|w.calls|] == w.calls;
      VerdictStands(w.initial, w'.calls, |w.calls|);
    }
  }

  /** A binding cycle that a step does not touch keeps its invariant. */
  lemma BinderFrame(cfg: Config, s: State, s': State, b: Binder)
    requires BinderInv(cfg, s, b) && WaitersGrow(s, s')
    requires BeforeReturn(b.stage) && Entered(s, b.cycle) ==> Entered(s', b.cycle)
    requires (b.stage.Entering? || b.stage.Blocked?) && Unread(s, b.cycle) ==> Unread(s', b.cycle)
    ensures BinderInv(cfg, s', b)
  {
    ClearedStays(cfg, s, s', b.cycle);
  }

  /** The same for a cycle the loop is about to start. */
  lemma LoopFrame(cfg: Config, s: State, s': State)
    requires LoopInv(cfg, s) && WaitersGrow(s, s') && s'.loop == s.loop
    requires s.loop.Starting? && Entered(s, s.loop.cycle) ==> Entered(s', s.loop.cycle)
    requires s.loop.Starting? && Unread(s, s.loop.cycle) ==> Unread(s', s.loop.cycle)
    ensures LoopInv(cfg, s')
  {
    if s.loop.Starting? {
      ClearedStays(cfg, s, s', s.loop.cycle);
    }
  }

  lemma BoundFrame(cfg: Config, s: State, s': State)
    requires Safe(cfg, s) && WaitersGrow(s, s')
    ensures forall i :: 0 <= i < |s.bound| ==> Backed(cfg, s', s.bound[i]) && Cleared(s', s.bound[i])
  {
    forall i | 0 <= i < |s.bound| ensures Backed(cfg, s', s.bound[i]) && Cleared(s', s.bound[i]) {
      ClearedStays(cfg, s, s', s.bound[i]);
    }
  }

  // ---- Cycles in flight do not meet ----

  /** The cycle a binder or the loop is carrying, if it is past registration. */
  ghost predicate Carries(s: State, p: Pod) {
    LoopHolds(s.loop, p) > 0 || exists t :: t in s.binders && BinderPod(s.binders[t]) == p
  }

  lemma CarriedIsAdded(s: State, p: Pod)
    requires Conserved(s) && Carries(s, p)
    ensures p in s.added
  {
    Tally.MapHas(s.binders, BinderPod, p);
    assert Occurrences(s, p) > 0;
  }

  /** A binder shares neither uid nor waiting-pod object with another binder. */
  lemma BindersApart(cfg: Config, s: State, t: nat, u: nat)
    requires Inv(s) && Safe(cfg, s) && t in s.binders && u in s.binders && t != u
    ensures s.binders[t].cycle.attempt.pod.uid != s.binders[u].cycle.attempt.pod.uid
    ensures s.binders[t].cycle.permit.Some? ==> s.binders[u].cycle.permit != s.binders[t].cycle.permit
  {
    OneCyclePerPod(s, t, u);
    CarriedIsAdded(s, BinderPod(s.binders[t]));
    CarriedIsAdded(s, BinderPod(s.binders[u]));
    assert BinderInv(cfg, s, s.binders[t]) && BinderInv(cfg, s, s.binders[u]);
  }

  /** Nor with the cycle the loop is carrying. */
  lemma LoopApart(cfg: Config, s: State, t: nat)
    requires Inv(s) && Safe(cfg, s) && t in s.binders && (s.loop.Starting? || s.loop.Registering?)
    ensures s.binders[t].cycle.attempt.pod.uid != s.loop.cycle.attempt.pod.uid
    ensures s.binders[t].cycle.permit.Some? ==> s.loop.cycle.permit != s.binders[t].cycle.permit
  {
    OneCyclePerPod(s, t, t);
    CarriedIsAdded(s, BinderPod(s.binders[t]));
    CarriedIsAdded(s, s.loop.cycle.attempt.pod);
    assert BinderInv(cfg, s, s.binders[t]);
  }

  // ---- Every step keeps the system safe ----

  lemma ReplayStep(initial: set<string>, calls: seq<Call>, call: Call)
    ensures Replay(initial, calls + [call]) == Do(Replay(initial, calls), call)
  {
    assert (calls + [call])[..|calls|] == calls;
  }

  lemma StepReplays(cfg: Config, s: State, l: Label)
    requires WaitersReplay(s) && Enabled(cfg, s, l)
    ensures WaitersReplay(Apply(cfg, s, l))
  {
    match l
    case TakeSignal(t) =>
      var w := s.waiters[s.binders[t].stage.id];
      ReplayStep(w.initial, w.calls, GetSignal);
    case PermitCall(id, call) => ReplayStep(s.waiters[id].initial, s.waiters[id].calls, call);
    case _ =>
  }

  /** Nothing a binding cycle relies on has changed. */
  ghost predicate Quiet(s: State, s': State) {
    && s'.binders == s.binders && s'.waitingPods == s.waitingPods && s'.bound == s.bound
    && WaitersGrow(s, s')
    && (forall id :: id in s.waiters && GetSignal !in s.waiters[id].calls ==> GetSignal !in s'.waiters[id].calls)
    && (s.loop.Starting? ==> s'.loop == s.loop)
  }

  lemma QuietSafe(cfg: Config, s: State, s': State)
    requires Safe(cfg, s) && Quiet(s, s') && WaitersReplay(s') && LoopInv(cfg, s')
    ensures Safe(cfg, s')
  {
    BoundFrame(cfg, s, s');
    forall t | t in s'.binders ensures BinderInv(cfg, s', s'.binders[t]) {
      BinderFrame(cfg, s, s', s.binders[t]);
    }
    forall uid | uid in s'.waitingPods ensures Accounted(s', uid) {
      assert Accounted(s, uid);
    }
  }

  lemma ScheduleLoopInv(cfg: Config, s: State, l: Label)
    requires Enabled(cfg, s, l) && l.Schedule?
    ensures LoopInv(cfg, Apply(cfg, s, l))
  {
  }

  /** Steps of the loop and of the queue, up to and including the choice of a node. */
  predicate IsPlain(l: Label) {
    l.AddPod? || l.PopPod? || l.Schedule? || l.ReturnPod? || l.Event? || l.PermitCall?
  }

  lemma PlainIsQuiet(cfg: Config, s: State, l: Label)
    requires Enabled(cfg, s, l) && IsPlain(l)
    ensures Quiet(s, Apply(cfg, s, l))
    ensures var loop := Apply(cfg, s, l).loop; l.Schedule? || loop == s.loop || loop.Idle? || loop.Popped?
  {
    StepGrowsWaiters(cfg, s, l);
  }

  lemma PlainStepSafe(cfg: Config, s: State, l: Label)
    requires Safe(cfg, s) && Enabled(cfg, s, l) && IsPlain(l)
    ensures Safe(cfg, Apply(cfg, s, l))
  {
    var s' := Apply(cfg, s, l);
    StepReplays(cfg, s, l);
    PlainIsQuiet(cfg, s, l);
    assert LoopInv(cfg, s') by {
      if l.Schedule? {
        ScheduleLoopInv(cfg, s, l);
      } else if s'.loop == s.loop {
        LoopFrame(cfg, s, s');
      }
    }
    QuietSafe(cfg, s, s');
  }

  /** A fresh waiting-pod object has been made and entered for the cycle the loop carries. */
  ghost predicate Registers(s: State, s': State, id: nat)
    requires s.loop.Registering?
  {
    var c := s.loop.cycle;
    && id !in s.waiters
    && s' == s.(waiters := s.waiters[id := Waiter(c.attempt.pod, c.waits.Keys, [], Start(c.waits.Keys))],
                waitingPods := s.waitingPods[c.attempt.pod.uid := id],
                loop := Starting(c.(permit := Some(id))))
  }

  lemma RegistersKeepsBinders(cfg: Config, s: State, s': State, id: nat)
    requires Inv(s) && Safe(cfg, s) && s.loop.Registering? && Registers(s, s', id)
    ensures forall t :: t in s.binders ==> BinderInv(cfg, s', s.binders[t])
  {
    forall t | t in s.binders ensures BinderInv(cfg, s', s.binders[t]) {
      LoopApart(cfg, s, t);
      assert Entered(s, s.binders[t].cycle) ==> Entered(s', s.binders[t].cycle);
      BinderFrame(cfg, s, s', s.binders[t]);
    }
  }

  lemma RegistersAccounted(s: State, s': State, id: nat, uid: string)
    requires s.loop.Registering? && Registers(s, s', id) && uid in s'.waitingPods
    requires uid in s.waitingPods ==> Accounted(s, uid)
    ensures Accounted(s', uid)
  {
  }

  lemma RegistersSafe(cfg: Config, s: State, s': State, id: nat)
    requires Inv(s) && Safe(cfg, s) && s.loop.Registering? && Registers(s, s', id)
    ensures Safe(cfg, s')
  {
    BoundFrame(cfg, s, s');
    RegistersKeepsBinders(cfg, s, s', id);
    forall uid | uid in s'.waitingPods ensures Accounted(s', uid) {
      RegistersAccounted(s, s', id, uid);
    }
  }

  lemma RegisterSafe(cfg: Config, s: State, l: Label)
    requires Inv(s) && Safe(cfg, s) && Enabled(cfg, s, l) && l.RegisterWaiting?
    ensures Safe(cfg, Apply(cfg, s, l))
  {
    RegistersSafe(cfg, s, Apply(cfg, s, l), l.id);
  }

  lemma StartSafe(cfg: Config, s: State, l: Label)
    requires Inv(s) && Safe(cfg, s) && Enabled(cfg, s, l) && l.StartBinding?
    ensures Safe(cfg, Apply(cfg, s, l))
  {
    var s' := Apply(cfg, s, l);
    BoundFrame(cfg, s, s');
    forall t | t in s'.binders ensures BinderInv(cfg, s', s'.binders[t]) {
      if t != l.t {
        BinderFrame(cfg, s, s', s.binders[t]);
      } else {
        assert s'.binders[t] == Binder(s.loop.cycle, Entering);
      }
    }
    forall uid | uid in s'.waitingPods ensures Accounted(s', uid) {
      assert Accounted(s, uid);
      if s.loop.cycle.permit.Some? && s.loop.cycle.attempt.pod.uid == uid {
        assert s'.binders[l.t].cycle.attempt.pod.uid == uid;
      } else {
        var t :| t in s.binders && BeforeReturn(s.binders[t].stage) && s.binders[t].cycle.permit.Some?
                 && s.binders[t].cycle.attempt.pod.uid == uid;
        assert s'.binders[t] == s.binders[t];
      }
    }
  }

  /** Looking the pod up finds the cycle's own object, or nothing when the cycle registered none. */
  lemma EnterFindsOwn(cfg: Config, s: State, t: nat)
    requires Inv(s) && Safe(cfg, s) && t in s.binders && s.binders[t].stage.Entering?
    ensures s.binders[t].cycle.permit.None? ==> s.binders[t].cycle.attempt.pod.uid !in s.waitingPods
  {
    var uid := s.binders[t].cycle.attempt.pod.uid;
    if s.binders[t].cycle.permit.None? && uid in s.waitingPods {
      assert Accounted(s, uid);
      if s.loop.Starting? && s.loop.cycle.attempt.pod.uid == uid {
        LoopApart(cfg, s, t);
      } else {
        var u :| u in s.binders && s.binders[u].cycle.permit.Some? && s.binders[u].cycle.attempt.pod.uid == uid;
        BindersApart(cfg, s, t, u);
      }
      assert false;
    }
  }

  /** Only binder `t`, its entry and its waiting-pod object may have changed. */
  ghost predicate LocalTo(s: State, s': State, t: nat)
    requires t in s.binders
  {
    && s'.loop == s.loop
    && WaitersGrow(s, s')
    && (forall uid :: uid in s.waitingPods && uid != s.binders[t].cycle.attempt.pod.uid ==>
          uid in s'.waitingPods && s'.waitingPods[uid] == s.waitingPods[uid])
    && (forall id :: id in s.waiters && s.binders[t].cycle.permit != Some(id) ==> s'.waiters[id] == s.waiters[id])
  }

  lemma BinderStepIsLocal(cfg: Config, s: State, l: Label, t: nat)
    requires Safe(cfg, s) && Enabled(cfg, s, l) && t in s.binders
    requires l == EnterWait(t) || l == TakeSignal(t) || l == LeaveWait(t) || l == BindSucceeds(t) || l == BindFails(t)
             || (l.ReturnBound? && l.t == t)
    ensures LocalTo(s, Apply(cfg, s, l), t)
  {
    assert BinderInv(cfg, s, s.binders[t]);
    StepGrowsWaiters(cfg, s, l);
  }

  /** The other parties keep their invariants. */
  lemma OthersUntouched(cfg: Config, s: State, s': State, t: nat)
    requires Inv(s) && Safe(cfg, s) && t in s.binders && LocalTo(s, s', t)
    ensures LoopInv(cfg, s')
    ensures forall u :: u in s.binders && u != t ==> BinderInv(cfg, s', s.binders[u])
  {
    if s.loop.Starting? {
      LoopApart(cfg, s, t);
    }
    LoopFrame(cfg, s, s');
    forall u | u in s.binders && u != t ensures BinderInv(cfg, s', s.binders[u]) {
      BindersApart(cfg, s, t, u);
      BinderFrame(cfg, s, s', s.binders[u]);
    }
  }

  lemma EnterKeepsOwn(cfg: Config, s: State, l: Label)
    requires Inv(s) && Safe(cfg, s) && Enabled(cfg, s, l) && l.EnterWait?
    ensures BinderInv(cfg, Apply(cfg, s, l), Apply(cfg, s, l).binders[l.t])
    ensures s.binders[l.t].cycle.permit.Some? ==> BeforeReturn(Apply(cfg, s, l).binders[l.t].stage)
  {
    assert BinderInv(cfg, s, s.binders[l.t]);
    EnterFindsOwn(cfg, s, l.t);
  }

  lemma EnterSafe(cfg: Config, s: State, l: Label)
    requires Inv(s) && Safe(cfg, s) && Enabled(cfg, s, l) && l.EnterWait?
    ensures Safe(cfg, Apply(cfg, s, l))
  {
    StepReplays(cfg, s, l);
    BinderStepIsLocal(cfg, s, l, l.t);
    EnterKeepsOwn(cfg, s, l);
    RestageSafe(cfg, s, Apply(cfg, s, l), l.t);
  }

  /** The binder itself: the signal it takes is the verdict. */
  lemma TakeKeepsOwn(cfg: Config, s: State, l: Label)
    requires Safe(cfg, s) && Enabled(cfg, s, l) && l.TakeSignal?
    ensures BinderInv(cfg, Apply(cfg, s, l), Apply(cfg, s, l).binders[l.t])
  {
    var s' := Apply(cfg, s, l);
    var b := s.binders[l.t];
    assert BinderInv(cfg, s, b);
    var w := s.waiters[b.stage.id];
    SlotHoldsVerdict(w.initial, w.calls);
    assert VerdictOn(s, b.cycle) == w.value.slot;
    StepGrowsWaiters(cfg, s, l);
    ClearedStays(cfg, s, s', b.cycle);
  }

  lemma TakeSafe(cfg: Config, s: State, l: Label)
    requires Inv(s) && Safe(cfg, s) && Enabled(cfg, s, l) && l.TakeSignal?
    ensures Safe(cfg, Apply(cfg, s, l))
  {
    var s' := Apply(cfg, s, l);
    StepReplays(cfg, s, l);
    BinderStepIsLocal(cfg, s, l, l.t);
    TakeKeepsOwn(cfg, s, l);
    RestageSafe(cfg, s, s', l.t);
  }

  /** A binder moved on, with its own invariant intact; everybody else's follows. */
  lemma RestageSafe(cfg: Config, s: State, s': State, t: nat)
    requires Inv(s) && Safe(cfg, s) && t in s.binders && LocalTo(s, s', t) && WaitersReplay(s')
    requires s'.bound == s.bound && s'.binders.Keys == s.binders.Keys
    requires forall u :: u in s.binders && u != t ==> s'.binders[u] == s.binders[u]
    requires s'.binders[t].cycle == s.binders[t].cycle && BinderInv(cfg, s', s'.binders[t])
    requires forall uid :: uid in s'.waitingPods ==> uid in s.waitingPods
    requires BeforeReturn(s.binders[t].stage) && s.binders[t].cycle.permit.Some? ==>
               BeforeReturn(s'.binders[t].stage) || s.binders[t].cycle.attempt.pod.uid !in s'.waitingPods
    ensures Safe(cfg, s')
  {
    BoundFrame(cfg, s, s');
    OthersUntouched(cfg, s, s', t);
    forall uid | uid in s'.waitingPods ensures Accounted(s', uid) {
      StillAccounted(s, s', uid, t);
    }
  }

  lemma StillAccounted(s: State, s': State, uid: string, t: nat)
    requires Accounted(s, uid) && s'.loop == s.loop && t in s.binders && t in s'.binders
    requires forall u :: u in s.binders && u != t ==> u in s'.binders && s'.binders[u] == s.binders[u]
    requires s'.binders[t].cycle == s.binders[t].cycle
    requires BeforeReturn(s.binders[t].stage) && s.binders[t].cycle.permit.Some? ==>
               BeforeReturn(s'.binders[t].stage) || s.binders[t].cycle.attempt.pod.uid != uid
    ensures Accounted(s', uid)
  {
    if u :| u in s.binders && BeforeReturn(s.binders[u].stage) && s.binders[u].cycle.permit.Some?
            && s.binders[u].cycle.attempt.pod.uid == uid {
      assert u in s'.binders && s'.binders[u].cycle == s.binders[u].cycle;
    }
  }

  lemma LeaveKeepsOwn(cfg: Config, s: State, l: Label)
    requires Safe(cfg, s) && Enabled(cfg, s, l) && l.LeaveWait?
    ensures BinderInv(cfg, Apply(cfg, s, l), Apply(cfg, s, l).binders[l.t])
  {
    var b := s.binders[l.t];
    assert BinderInv(cfg, s, b);
    var w := s.waiters[b.cycle.permit.value];
    VerdictShape(w.initial, w.calls);
  }

  lemma LeaveSafe(cfg: Config, s: State, l: Label)
    requires Inv(s) && Safe(cfg, s) && Enabled(cfg, s, l) && l.LeaveWait?
    ensures Safe(cfg, Apply(cfg, s, l))
  {
    StepReplays(cfg, s, l);
    BinderStepIsLocal(cfg, s, l, l.t);
    LeaveKeepsOwn(cfg, s, l);
    RestageSafe(cfg, s, Apply(cfg, s, l), l.t);
  }

  /** Binder `t` is done with Bind: it has succeeded, is about to report a failure, or has reported it. */
  ghost predicate Ends(s: State, s': State, t: nat)
    requires t in s.binders && (s.binders[t].stage.Binding? || s.binders[t].stage.Failing?)
  {
    && s'.loop == s.loop && s'.waitingPods == s.waitingPods && s'.waiters == s.waiters
    && (s'.binders == s.binders - {t} || s'.binders == s.binders[t := s.binders[t].(stage := Failing)])
    && (s'.bound == s.bound || (s.binders[t].stage.Binding? && s'.bound == s.bound + [s.binders[t].cycle]))
  }

  lemma EndsAccounted(s: State, s': State, t: nat, uid: string)
    requires t in s.binders && (s.binders[t].stage.Binding? || s.binders[t].stage.Failing?)
    requires Ends(s, s', t) && Accounted(s, uid)
    ensures Accounted(s', uid)
  {
    if u :| u in s.binders && BeforeReturn(s.binders[u].stage) && s.binders[u].cycle.permit.Some?
            && s.binders[u].cycle.attempt.pod.uid == uid {
      assert u in s'.binders && s'.binders[u] == s.binders[u];
    }
  }

  lemma EndsBinders(cfg: Config, s: State, s': State, t: nat)
    requires Inv(s) && Safe(cfg, s) && t in s.binders && (s.binders[t].stage.Binding? || s.binders[t].stage.Failing?)
    requires Ends(s, s', t)
    ensures LoopInv(cfg, s') && forall u :: u in s'.binders ==> BinderInv(cfg, s', s'.binders[u])
  {
    assert BinderInv(cfg, s, s.binders[t]);
    ClearedStays(cfg, s, s', s.binders[t].cycle);
    OthersUntouched(cfg, s, s', t);
    forall u | u in s'.binders ensures BinderInv(cfg, s', s'.binders[u]) {
      if u != t {
        assert s'.binders[u] == s.binders[u];
      }
    }
  }

  lemma EndsBound(cfg: Config, s: State, s': State, t: nat, i: nat)
    requires Safe(cfg, s) && t in s.binders && (s.binders[t].stage.Binding? || s.binders[t].stage.Failing?)
    requires Ends(s, s', t) && i < |s'.bound|
    ensures Backed(cfg, s', s'.bound[i]) && Cleared(s', s'.bound[i])
  {
    if i < |s.bound| {
      ClearedStays(cfg, s, s', s.bound[i]);
    } else {
      assert BinderInv(cfg, s, s.binders[t]);
      ClearedStays(cfg, s, s', s.binders[t].cycle);
    }
  }

  lemma EndsSafe(cfg: Config, s: State, s': State, t: nat)
    requires Inv(s) && Safe(cfg, s) && t in s.binders && (s.binders[t].stage.Binding? || s.binders[t].stage.Failing?)
    requires Ends(s, s', t)
    ensures Safe(cfg, s')
  {
    EndsBinders(cfg, s, s', t);
    forall i | 0 <= i < |s'.bound| ensures Backed(cfg, s', s'.bound[i]) && Cleared(s', s'.bound[i]) {
      EndsBound(cfg, s, s', t, i);
    }
    forall uid | uid in s'.waitingPods ensures Accounted(s', uid) {
      EndsAccounted(s, s', t, uid);
    }
  }

  lemma EndSafe(cfg: Config, s: State, l: Label)
    requires Inv(s) && Safe(cfg, s) && Enabled(cfg, s, l) && (l.BindSucceeds? || l.BindFails? || l.ReturnBound?)
    ensures Safe(cfg, Apply(cfg, s, l))
  {
    EndsSafe(cfg, s, Apply(cfg, s, l), l.t);
  }

  lemma StepSafe(cfg: Config, s: State, l: Label)
    requires Inv(s) && Safe(cfg, s) && Enabled(cfg, s, l)
    ensures Safe(cfg, Apply(cfg, s, l))
  {
    match l
    case RegisterWaiting(_) => RegisterSafe(cfg, s, l);
    case StartBinding(_) => StartSafe(cfg, s, l);
    case EnterWait(_) => EnterSafe(cfg, s, l);
    case TakeSignal(_) => TakeSafe(cfg, s, l);
    case LeaveWait(_) => LeaveSafe(cfg, s, l);
    case BindSucceeds(_) => EndSafe(cfg, s, l);
    case BindFails(_) => EndSafe(cfg, s, l);
    case ReturnBound(_, _) => EndSafe(cfg, s, l);
    case _ => PlainStepSafe(cfg, s, l);
  }

  lemma {:induction false} RunSafe(cfg: Config, run: seq<Label>)
    requires Legal(cfg, run)
    ensures Inv(After(cfg, run)) && Safe(cfg, After(cfg, run))
  {
    RunConserves(cfg, run);
    if run != [] {
      RunSafe(cfg, run[..|run| - 1]);
      StepSafe(cfg, After(cfg, run[..|run| - 1]), run[|run| - 1]);
    }
  }

  // ---- The results over whole runs ----

  /** Every plugin that asked this cycle to wait called Allow on the cycle's own waiting-pod object. */
  ghost predicate AllAllowed(s: State, c: Cycle) {
    forall name :: name in c.waits ==>
      c.permit.Some? && c.permit.value in s.waiters && name in Allowed(s.waiters[c.permit.value].calls)
  }

  /** What makes a binding right. */
  ghost predicate RightlyBound(pf: Profile, s: State, c: Cycle) {
    Sound(pf, c.attempt, c.node, c.waits) && AllAllowed(s, c)
  }

  lemma ClearedIsRight(pf: Profile, events: EventMap, s: State, c: Cycle)
    requires Backed(Running(pf, events), s, c) && Cleared(s, c)
    ensures RightlyBound(pf, s, c)
  {
    ProceedIsSound(pf, c.attempt);
    if c.permit.Some? {
      var w := s.waiters[c.permit.value];
      SuccessMeansAllAllowed(w.initial, w.calls);
    }
  }

  /** In every state of every run, each attempt to bind and each binding made is right. */
  lemma BindingsAreRight(pf: Profile, events: EventMap, run: seq<Label>)
    requires Legal(Running(pf, events), run)
    ensures var s := After(Running(pf, events), run);
            && (forall t :: t in s.binders && s.binders[t].stage.Binding? ==> RightlyBound(pf, s, s.binders[t].cycle))
            && (forall i :: 0 <= i < |s.bound| ==> RightlyBound(pf, s, s.bound[i]))
  {
    var cfg := Running(pf, events);
    RunSafe(cfg, run);
    var s := After(cfg, run);
    forall t | t in s.binders && s.binders[t].stage.Binding? ensures RightlyBound(pf, s, s.binders[t].cycle) {
      assert BinderInv(cfg, s, s.binders[t]);
      ClearedIsRight(pf, events, s, s.binders[t].cycle);
    }
    forall i | 0 <= i < |s.bound| ensures RightlyBound(pf, s, s.bound[i]) {
      ClearedIsRight(pf, events, s, s.bound[i]);
    }
  }

  /** An entry of `waitingPods` exists exactly while a cycle of that uid is between registration and return, and it is
      then that cycle's own object. */
  lemma EntriesMatchCycles(cfg: Config, run: seq<Label>, uid: string)
    requires Legal(cfg, run)
    ensures var s := After(cfg, run);
            && (uid in s.waitingPods <==> Accounted(s, uid))
            && (s.loop.Starting? && s.loop.cycle.permit.Some? ==> Entered(s, s.loop.cycle))
            && (s.loop.Registering? || s.loop.Starting? ==>
                  forall t :: t in s.binders ==>
                    s.binders[t].cycle.attempt.pod.uid != s.loop.cycle.attempt.pod.uid)
            && (forall t :: t in s.binders && BeforeReturn(s.binders[t].stage) && s.binders[t].cycle.permit.Some?
                  ==> Entered(s, s.binders[t].cycle))
            && (forall t, u :: t in s.binders && u in s.binders && t != u
                  ==> s.binders[t].cycle.attempt.pod.uid != s.binders[u].cycle.attempt.pod.uid)
  {
    RunSafe(cfg, run);
    var s := After(cfg, run);
    forall t | t in s.binders && (s.loop.Registering? || s.loop.Starting?)
      ensures s.binders[t].cycle.attempt.pod.uid != s.loop.cycle.attempt.pod.uid
    {
      LoopApart(cfg, s, t);
    }
    forall t | t in s.binders && BeforeReturn(s.binders[t].stage) && s.binders[t].cycle.permit.Some?
      ensures Entered(s, s.binders[t].cycle)
    {
      assert BinderInv(cfg, s, s.binders[t]);
    }
    forall t, u | t in s.binders && u in s.binders && t != u
      ensures s.binders[t].cycle.attempt.pod.uid != s.binders[u].cycle.attempt.pod.uid
    {
      BindersApart(cfg, s, t, u);
    }
  }
}

/** The system on the clock: the scheduler with the plugins it is started with, where the only calls on waiting pods are
    those of NodeNumber's timers and of the time-outs, and every timer finds its pod registered. */
module TimedSystem {
  import opened Framework
  import opened WaitingPods
  import opened SchedulingCycle
  import opened System
  import opened Conservation
  import opened BindingSafety
  import opened DigitChoice
  import opened ConfiguredRuns
  import N = NodeNumber
  import T = TimedPermit

  /** The clock and the system, side by side. */
  datatype Joint = Joint(c: T.Clockwork, s: State)

  const START := Joint(T.Clockwork(0, map[], map[], {}, false), INIT)

  datatype Move =
    | Pass(to: int)                                                 // time passes
    | Step(k: Label)                                                // no timer and no waiting pod takes part
    | Choose(id: nat, listed: Option<seq<Node>>, draws: seq<nat>)   // the cycle asks to wait, and sets a timer
    | Enter(id: nat)                                                // the pod is registered
    | Ring(alarm: T.Alarm)                                          // a timer calls Allow or Reject
    | Signal(t: nat)                                                // a binding cycle receives the signal
    | Return(t: nat)                                                // and removes the entry

  // ---- Both halves of a move ----

  function CallOf(a: T.Alarm): Call {
    if a.kind.Allowing? then Allow(N.NAME) else Reject(N.NAME, T.TIMEOUT_MESSAGE)
  }

  function LabelOf(m: Move): Option<Label> {
    match m
    case Pass(_) => None
    case Step(k) => Some(k)
    case Choose(_, listed, draws) => Some(Schedule(listed, draws))
    case Enter(id) => Some(RegisterWaiting(id))
    case Ring(a) => Some(PermitCall(a.id, CallOf(a)))
    case Signal(t) => Some(TakeSignal(t))
    case Return(t) => Some(LeaveWait(t))
  }

  /** The attempt ends with a node, and with plugins to wait for. */
  ghost predicate AsksToWait(cfg: Config, a: Attempt) {
    cfg.decide(a).Proceed? && cfg.decide(a).waits != map[]
  }

  /** The move is a step of the system: a cycle that asks to wait is a `Choose`, and a step that concerns waiting pods
      has a move of its own. */
  ghost predicate Takes(cfg: Config, s: State, m: Move) {
    && (LabelOf(m).Some? ==> Enabled(cfg, s, LabelOf(m).value))
    && (m.Choose? ==> AsksToWait(cfg, Attempt(s.loop.pod, m.listed, m.draws)))
    && (m.Step? ==>
          && !m.k.RegisterWaiting? && !m.k.PermitCall? && !m.k.TakeSignal? && !m.k.LeaveWait?
          && (m.k.Schedule? ==> !AsksToWait(cfg, Attempt(s.loop.pod, m.k.listed, m.k.draws))))
  }

  ghost function TickOf(cfg: Config, s: State, m: Move): Option<T.Tick>
    requires Takes(cfg, s, m)
  {
    match m
    case Pass(to) => Some(T.Wait(to))
    case Step(_) => None
    case Choose(id, listed, draws) =>
      Some(T.Permit(id, s.loop.pod.uid, cfg.decide(Attempt(s.loop.pod, listed, draws)).node))
    case Enter(id) => Some(T.Register(id))
    case Ring(a) => Some(T.Fire(a))
    case Signal(t) => Some(T.Receive(s.binders[t].stage.id))
    case Return(t) => Some(T.Leave(s.binders[t].stage.id))
  }

  ghost predicate Can(cfg: Config, j: Joint, m: Move) {
    Takes(cfg, j.s, m) && (TickOf(cfg, j.s, m).Some? ==> T.Possible(j.c, TickOf(cfg, j.s, m).value))
  }

  ghost function Move1(cfg: Config, j: Joint, m: Move): Joint
    requires Can(cfg, j, m)
  {
    Joint(if TickOf(cfg, j.s, m).Some? then T.Next(j.c, TickOf(cfg, j.s, m).value) else j.c,
          if LabelOf(m).Some? then Apply(cfg, j.s, LabelOf(m).value) else j.s)
  }

  ghost predicate Timed(cfg: Config, run: seq<Move>)
    decreases |run|, 0
  {
    run == [] || (Timed(cfg, run[..|run| - 1]) && Can(cfg, Reached(cfg, run[..|run| - 1]), run[|run| - 1]))
  }

  ghost function Reached(cfg: Config, run: seq<Move>): Joint
    requires Timed(cfg, run)
    decreases |run|, 1
  {
    if run == [] then START else Move1(cfg, Reached(cfg, run[..|run| - 1]), run[|run| - 1])
  }

  // ---- What ties the two together ----

  /** The system's own part of a run. */
  function Labels(run: seq<Move>): seq<Label> {
    if run == [] then []
    else
      var taken := LabelOf(run[|run| - 1]);
      Labels(run[..|run| - 1]) + if taken.Some? then [taken.value] else []
  }

  /** With the clock taken away, a timed run is a run of the system: all that is proved of those holds. */
  lemma {:induction false} TimedRunIsLegal(cfg: Config, run: seq<Move>)
    requires Timed(cfg, run)
    ensures Legal(cfg, Labels(run)) && After(cfg, Labels(run)) == Reached(cfg, run).s
  {
    if run != [] {
      var front, taken := run[..|run| - 1], LabelOf(run[|run| - 1]);
      TimedRunIsLegal(cfg, front);
      if taken.Some? {
        assert Labels(run)[..|Labels(front)|] == Labels(front);
      } else {
        assert Labels(run) == Labels(front);
      }
    }
  }

  /** Same entries, same objects. */
  ghost predicate Related(j: Joint) {
    && j.s.waitingPods == j.c.waitingPods
    && (forall id :: id in j.s.waiters <==> id in j.c.visits && j.c.visits[id].waiting.Some?)
    && (forall id :: id in j.s.waiters ==>
          && j.s.waiters[id].initial == {N.NAME}
          && j.s.waiters[id].value == j.c.visits[id].waiting.value)
  }

  /** The visit behind a cycle's waiting pod is that pod's, to the cycle's node. */
  ghost predicate ForNode(c: T.Clockwork, cycle: Cycle) {
    cycle.permit.Some? ==>
      && cycle.permit.value in c.visits
      && c.visits[cycle.permit.value].node == cycle.node
      && c.visits[cycle.permit.value].uid == cycle.attempt.pod.uid
  }

  /** A visit that is not registered yet is that of the cycle the loop is about to register, which has one. */
  ghost predicate AwaitsEntry(j: Joint) {
    && (forall id :: id in j.c.visits && j.c.visits[id].waiting.None? ==>
          && j.s.loop.Registering?
          && j.s.loop.cycle.attempt.pod.uid == j.c.visits[id].uid
          && j.s.loop.cycle.node == j.c.visits[id].node)
    && (j.s.loop.Registering? ==> exists id :: id in j.c.visits && j.c.visits[id].waiting.None?)
  }

  ghost predicate NodesMatch(j: Joint) {
    && (j.s.loop.Starting? ==> ForNode(j.c, j.s.loop.cycle))
    && (forall t :: t in j.s.binders ==> ForNode(j.c, j.s.binders[t].cycle))
    && (forall i :: 0 <= i < |j.s.bound| ==> ForNode(j.c, j.s.bound[i]))
  }

  /** A signal that a binding cycle took was received in its visit. */
  ghost predicate SignalsReceived(j: Joint) {
    forall t :: t in j.s.binders && j.s.binders[t].stage.Signalled? ==>
      j.s.binders[t].stage.id in j.c.visits && j.c.visits[j.s.binders[t].stage.id].received.Some?
  }

  ghost predicate Linked(j: Joint) {
    AwaitsEntry(j) && NodesMatch(j) && SignalsReceived(j)
  }

  /** The plugins the scheduler is started with. */
  ghost function Started(filters: seq<FilterPlugin>, events: EventMap): Config {
    Running(Configured(filters), events)
  }

  ghost predicate JointInv(cfg: Config, j: Joint) {
    && !j.c.crashed && T.ClockInv(j.c)
    && Inv(j.s) && Safe(cfg, j.s)
    && Related(j) && Linked(j)
  }

  // ---- Every move keeps it ----

  /** Cycles wait for NodeNumber alone, and exactly for nodes that end in a digit. */
  ghost predicate AsksNodeNumber(cfg: Config) {
    forall a :: cfg.decide(a).Proceed? ==>
      if N.EndsInDigit(cfg.decide(a).node) then cfg.decide(a).waits.Keys == {N.NAME}
      else cfg.decide(a).waits == map[]
  }

  lemma StartedAsks(filters: seq<FilterPlugin>, events: EventMap)
    ensures AsksNodeNumber(Started(filters, events))
  {
    forall a | Started(filters, events).decide(a).Proceed?
      ensures var d := Started(filters, events).decide(a);
              if N.EndsInDigit(d.node) then d.waits.Keys == {N.NAME} else d.waits == map[]
    {
      DecidedByDigit(filters, a);
      DigitNodeIsChosen(filters, a);
    }
  }

  lemma KeepsClock(cfg: Config, j: Joint, m: Move)
    requires T.ClockInv(j.c) && !j.c.crashed && Related(j) && Can(cfg, j, m)
    ensures !Move1(cfg, j, m).c.crashed && T.ClockInv(Move1(cfg, j, m).c)
  {
    if m.Ring? {
      T.FireFindsOwn(j.c, m.alarm);
    }
    if TickOf(cfg, j.s, m).Some? {
      T.TickKeeps(j.c, TickOf(cfg, j.s, m).value);
    }
  }

  /** The entry a binding cycle is about to remove is that of the visit whose signal it took. */
  ghost predicate LeavesOwn(j: Joint, t: nat) {
    && t in j.s.binders && j.s.binders[t].stage.Signalled? && j.s.binders[t].stage.id in j.c.visits
    && var v := j.c.visits[j.s.binders[t].stage.id];
       v.uid == j.s.binders[t].cycle.attempt.pod.uid && !v.left
  }

  lemma LeaverIsOwn(cfg: Config, j: Joint, t: nat)
    requires T.ClockInv(j.c) && Related(j) && Enabled(cfg, j.s, LeaveWait(t)) && BinderInv(cfg, j.s, j.s.binders[t])
    ensures LeavesOwn(j, t)
  {
    var b := j.s.binders[t];
    assert Entered(j.s, b.cycle);
    assert T.EntryInv(j.c, b.cycle.attempt.pod.uid);
  }

  lemma EnterRelated(cfg: Config, j: Joint, m: Move)
    requires Related(j) && Linked(j) && Can(cfg, j, m) && m.Enter? && j.s.loop.cycle.waits.Keys == {N.NAME}
    ensures Related(Move1(cfg, j, m))
  {
  }

  lemma RingRelated(cfg: Config, j: Joint, m: Move)
    requires T.ClockInv(j.c) && Related(j) && Can(cfg, j, m) && m.Ring?
    ensures Related(Move1(cfg, j, m))
  {
    T.FireCallsOwn(j.c, m.alarm);
  }

  lemma SignalRelated(cfg: Config, j: Joint, m: Move)
    requires Related(j) && Can(cfg, j, m) && m.Signal?
    ensures Related(Move1(cfg, j, m))
  {
  }

  lemma ReturnRelated(cfg: Config, j: Joint, m: Move)
    requires Related(j) && Can(cfg, j, m) && m.Return? && LeavesOwn(j, m.t)
    ensures Related(Move1(cfg, j, m))
  {
  }

  lemma ChooseRelated(cfg: Config, j: Joint, m: Move)
    requires Related(j) && Can(cfg, j, m) && (m.Choose? || m.Pass?)
    ensures Related(Move1(cfg, j, m))
  {
  }

  lemma LeavesObjects(cfg: Config, s: State, k: Label)
    requires Enabled(cfg, s, k) && !k.RegisterWaiting? && !k.PermitCall? && !k.TakeSignal? && !k.LeaveWait?
    ensures Apply(cfg, s, k).waitingPods == s.waitingPods && Apply(cfg, s, k).waiters == s.waiters
  {
  }

  lemma StepRelated(cfg: Config, j: Joint, m: Move)
    requires Related(j) && Can(cfg, j, m) && m.Step?
    ensures Related(Move1(cfg, j, m))
  {
    LeavesObjects(cfg, j.s, m.k);
  }

  lemma RegistersNodeNumber(cfg: Config, s: State)
    requires AsksNodeNumber(cfg) && LoopInv(cfg, s) && s.loop.Registering?
    ensures s.loop.cycle.waits.Keys == {N.NAME}
  {
    assert cfg.decide(s.loop.cycle.attempt).Proceed?;
  }

  lemma KeepsRelated(cfg: Config, j: Joint, m: Move)
    requires T.ClockInv(j.c) && Related(j) && Linked(j) && Can(cfg, j, m)
    requires m.Enter? ==> j.s.loop.cycle.waits.Keys == {N.NAME}
    requires m.Return? ==> LeavesOwn(j, m.t)
    ensures Related(Move1(cfg, j, m))
  {
    match m
    case Enter(_) => EnterRelated(cfg, j, m);
    case Ring(_) => RingRelated(cfg, j, m);
    case Signal(_) => SignalRelated(cfg, j, m);
    case Return(_) => ReturnRelated(cfg, j, m);
    case Step(_) => StepRelated(cfg, j, m);
    case _ => ChooseRelated(cfg, j, m);
  }

  /** Visits are never forgotten, and keep their pod and node. */
  ghost predicate VisitsStay(c: T.Clockwork, c': T.Clockwork) {
    forall id :: id in c.visits ==>
      && id in c'.visits
      && c'.visits[id].node == c.visits[id].node
      && c'.visits[id].uid == c.visits[id].uid
      && (c.visits[id].received.Some? ==> c'.visits[id].received.Some?)
  }

  lemma TickVisits(c: T.Clockwork, l: T.Tick)
    requires T.ClockInv(c) && T.Possible(c, l) && (l.Fire? ==> c.visits[l.alarm.id].waiting.Some?)
    ensures VisitsStay(c, T.Next(c, l))
  {
    if l.Fire? {
      T.FireDecides(c, l.alarm);
    }
  }

  lemma KeepsVisits(cfg: Config, j: Joint, m: Move)
    requires T.ClockInv(j.c) && Related(j) && Can(cfg, j, m)
    ensures VisitsStay(j.c, Move1(cfg, j, m).c)
  {
    if TickOf(cfg, j.s, m).Some? {
      TickVisits(j.c, TickOf(cfg, j.s, m).value);
    }
  }

  /** Where the cycles after a move come from. */
  ghost predicate CyclesFrom(s: State, s': State, m: Move) {
    && (s'.loop.Starting? ==>
          || s'.loop == s.loop
          || s'.loop.cycle.permit.None?
          || (m.Enter? && s.loop.Registering? && s'.loop.cycle == s.loop.cycle.(permit := Some(m.id))))
    && (forall t :: t in s'.binders ==>
          || (t in s.binders && s'.binders[t].cycle == s.binders[t].cycle)
          || (s.loop.Starting? && s'.binders[t].cycle == s.loop.cycle))
    && (forall i :: 0 <= i < |s'.bound| ==>
          || (i < |s.bound| && s'.bound[i] == s.bound[i])
          || exists t :: t in s.binders && s'.bound[i] == s.binders[t].cycle)
  }

  lemma BoundFrom(cfg: Config, s: State, k: Label)
    requires Enabled(cfg, s, k)
    ensures Apply(cfg, s, k).bound
         == if k.BindSucceeds? then s.bound + [s.binders[k.t].cycle] else s.bound
  {
  }

  lemma BindersFrom(cfg: Config, s: State, k: Label, t: nat)
    requires Enabled(cfg, s, k) && t in Apply(cfg, s, k).binders
    ensures var b := Apply(cfg, s, k).binders[t];
            || (t in s.binders && b.cycle == s.binders[t].cycle)
            || (s.loop.Starting? && b.cycle == s.loop.cycle)
  {
  }

  lemma MoveCycles(cfg: Config, s: State, m: Move)
    requires Takes(cfg, s, m) && LabelOf(m).Some?
    ensures CyclesFrom(s, Apply(cfg, s, LabelOf(m).value), m)
  {
    var s' := Apply(cfg, s, LabelOf(m).value);
    BoundFrom(cfg, s, LabelOf(m).value);
    forall t | t in s'.binders
      ensures || (t in s.binders && s'.binders[t].cycle == s.binders[t].cycle)
              || (s.loop.Starting? && s'.binders[t].cycle == s.loop.cycle)
    {
      BindersFrom(cfg, s, LabelOf(m).value, t);
    }
  }

  lemma NodeStays(c: T.Clockwork, c': T.Clockwork, cycle: Cycle)
    requires VisitsStay(c, c') && ForNode(c, cycle)
    ensures ForNode(c', cycle)
  {
  }

  lemma NodesStay(j: Joint, j': Joint, m: Move)
    requires NodesMatch(j) && VisitsStay(j.c, j'.c) && CyclesFrom(j.s, j'.s, m)
    requires m.Enter? && j.s.loop.Registering? ==>
               && m.id in j'.c.visits
               && j'.c.visits[m.id].node == j.s.loop.cycle.node
               && j'.c.visits[m.id].uid == j.s.loop.cycle.attempt.pod.uid
    ensures NodesMatch(j')
  {
    forall c | ForNode(j.c, c) ensures ForNode(j'.c, c) {
      NodeStays(j.c, j'.c, c);
    }
  }

  lemma KeepsNodes(cfg: Config, j: Joint, m: Move)
    requires AwaitsEntry(j) && NodesMatch(j) && Can(cfg, j, m) && VisitsStay(j.c, Move1(cfg, j, m).c)
    ensures NodesMatch(Move1(cfg, j, m))
  {
    if LabelOf(m).Some? {
      MoveCycles(cfg, j.s, m);
    }
    NodesStay(j, Move1(cfg, j, m), m);
  }

  /** Only a choice makes the loop register, and only the entry makes it stop. */
  ghost predicate RegistersBy(cfg: Config, s: State, s': State, m: Move)
    requires Takes(cfg, s, m)
  {
    if m.Choose? then
      && s'.loop.Registering? && s'.loop.cycle.attempt.pod == s.loop.pod
      && s'.loop.cycle.node == cfg.decide(Attempt(s.loop.pod, m.listed, m.draws)).node
    else if m.Enter? then !s'.loop.Registering?
    else if s.loop.Registering? then s'.loop == s.loop
    else !s'.loop.Registering?
  }

  lemma MoveRegisters(cfg: Config, s: State, m: Move)
    requires Takes(cfg, s, m) && LabelOf(m).Some?
    ensures RegistersBy(cfg, s, Apply(cfg, s, LabelOf(m).value), m)
  {
  }

  /** Only a choice adds a visit, and only the entry registers one. */
  ghost predicate VisitsBy(cfg: Config, j: Joint, c': T.Clockwork, m: Move)
    requires Takes(cfg, j.s, m)
  {
    && c'.visits.Keys == j.c.visits.Keys + (if m.Choose? then {m.id} else {})
    && (m.Choose? ==>
          && m.id !in j.c.visits
          && c'.visits[m.id].waiting.None? && c'.visits[m.id].uid == j.s.loop.pod.uid
          && c'.visits[m.id].node == cfg.decide(Attempt(j.s.loop.pod, m.listed, m.draws)).node)
    && (forall id :: id in j.c.visits ==>
          c'.visits[id].waiting.None? == (j.c.visits[id].waiting.None? && m != Enter(id)))
  }

  lemma TickRegisters(c: T.Clockwork, l: T.Tick)
    requires T.ClockInv(c) && T.Possible(c, l) && (l.Fire? ==> c.visits[l.alarm.id].waiting.Some?)
    ensures var c' := T.Next(c, l);
            && c'.visits.Keys == c.visits.Keys + (if l.Permit? then {l.id} else {})
            && (l.Permit? ==>
                  && l.id !in c.visits
                  && c'.visits[l.id].waiting.None? && c'.visits[l.id].uid == l.uid && c'.visits[l.id].node == l.node)
            && (forall id :: id in c.visits ==>
                  c'.visits[id].waiting.None? == (c.visits[id].waiting.None? && l != T.Register(id)))
  {
    if l.Fire? {
      T.FireDecides(c, l.alarm);
    }
  }

  lemma MoveVisits(cfg: Config, j: Joint, m: Move)
    requires T.ClockInv(j.c) && Related(j) && Can(cfg, j, m)
    ensures VisitsBy(cfg, j, Move1(cfg, j, m).c, m)
  {
    if TickOf(cfg, j.s, m).Some? {
      TickRegisters(j.c, TickOf(cfg, j.s, m).value);
    }
  }

  lemma AwaitsStay(cfg: Config, j: Joint, j': Joint, m: Move)
    requires AwaitsEntry(j) && Takes(cfg, j.s, m) && RegistersBy(cfg, j.s, j'.s, m) && VisitsBy(cfg, j, j'.c, m)
    requires VisitsStay(j.c, j'.c)
    requires m.Enter? ==> forall id :: id in j.c.visits && j.c.visits[id].waiting.None? ==> id == m.id
    ensures AwaitsEntry(j')
  {
    if m.Choose? {
      assert m.id in j'.c.visits && j'.c.visits[m.id].waiting.None?;
    } else if j'.s.loop.Registering? {
      var id :| id in j.c.visits && j.c.visits[id].waiting.None?;
      assert id in j'.c.visits && j'.c.visits[id].waiting.None?;
    }
  }

  lemma KeepsAwaiting(cfg: Config, j: Joint, m: Move)
    requires T.ClockInv(j.c) && Related(j) && AwaitsEntry(j) && Can(cfg, j, m) && VisitsStay(j.c, Move1(cfg, j, m).c)
    ensures AwaitsEntry(Move1(cfg, j, m))
  {
    MoveVisits(cfg, j, m);
    if LabelOf(m).Some? {
      MoveRegisters(cfg, j.s, m);
    }
    if m.Enter? {
      EnterLeavesNone(cfg, j, m);
    }
    AwaitsStay(cfg, j, Move1(cfg, j, m), m);
  }

  /** Two visits cannot both wait for the entry: they would be unfinished visits of the same pod. */
  lemma EnterLeavesNone(cfg: Config, j: Joint, m: Move)
    requires T.ClockInv(j.c) && AwaitsEntry(j) && Can(cfg, j, m) && m.Enter?
    ensures forall id :: id in j.c.visits && j.c.visits[id].waiting.None? ==> id == m.id
  {
    forall id | id in j.c.visits && j.c.visits[id].waiting.None? ensures id == m.id {
      assert T.VisitInv(j.c, id) && T.VisitInv(j.c, m.id);
    }
  }

  lemma SignalledFrom(cfg: Config, s: State, k: Label, t: nat)
    requires Enabled(cfg, s, k) && t in Apply(cfg, s, k).binders && Apply(cfg, s, k).binders[t].stage.Signalled?
    ensures t in s.binders
    ensures if k == TakeSignal(t) then Apply(cfg, s, k).binders[t].stage.id == s.binders[t].stage.id
            else s.binders[t].stage == Apply(cfg, s, k).binders[t].stage
  {
  }

  lemma KeepsSignals(cfg: Config, j: Joint, m: Move)
    requires SignalsReceived(j) && Can(cfg, j, m) && VisitsStay(j.c, Move1(cfg, j, m).c)
    ensures SignalsReceived(Move1(cfg, j, m))
  {
    var j' := Move1(cfg, j, m);
    if LabelOf(m).Some? {
      forall t | t in j'.s.binders && j'.s.binders[t].stage.Signalled?
        ensures j'.s.binders[t].stage.id in j'.c.visits && j'.c.visits[j'.s.binders[t].stage.id].received.Some?
      {
        SignalledFrom(cfg, j.s, LabelOf(m).value, t);
      }
    }
  }

  lemma KeepsLinked(cfg: Config, j: Joint, m: Move)
    requires T.ClockInv(j.c) && Related(j) && Linked(j) && Can(cfg, j, m)
    ensures Linked(Move1(cfg, j, m))
  {
    KeepsVisits(cfg, j, m);
    KeepsAwaiting(cfg, j, m);
    KeepsNodes(cfg, j, m);
    KeepsSignals(cfg, j, m);
  }

  /** What the system's own invariant adds about the pod that is registered and the one that leaves. */
  lemma EntersForNodeNumber(cfg: Config, j: Joint, m: Move)
    requires AsksNodeNumber(cfg) && Safe(cfg, j.s) && Takes(cfg, j.s, m) && m.Enter?
    ensures j.s.loop.cycle.waits.Keys == {N.NAME}
  {
    RegistersNodeNumber(cfg, j.s);
  }

  lemma ReturnsOwn(cfg: Config, j: Joint, m: Move)
    requires T.ClockInv(j.c) && Related(j) && Safe(cfg, j.s) && Takes(cfg, j.s, m) && m.Return?
    ensures LeavesOwn(j, m.t)
  {
    LeaverIsOwn(cfg, j, m.t);
  }

  lemma MoveKeeps(cfg: Config, j: Joint, m: Move)
    requires AsksNodeNumber(cfg) && JointInv(cfg, j) && Can(cfg, j, m)
    ensures var j' := Move1(cfg, j, m);
            !j'.c.crashed && T.ClockInv(j'.c) && Related(j') && Linked(j')
  {
    if m.Enter? {
      EntersForNodeNumber(cfg, j, m);
    } else if m.Return? {
      ReturnsOwn(cfg, j, m);
    }
    KeepsClock(cfg, j, m);
    KeepsRelated(cfg, j, m);
    KeepsLinked(cfg, j, m);
  }

  lemma {:induction false} TimedRunKeeps(cfg: Config, run: seq<Move>)
    requires AsksNodeNumber(cfg) && Timed(cfg, run)
    ensures JointInv(cfg, Reached(cfg, run))
  {
    TimedRunIsLegal(cfg, run);
    RunSafe(cfg, Labels(run));
    if run != [] {
      TimedRunKeeps(cfg, run[..|run| - 1]);
      MoveKeeps(cfg, Reached(cfg, run[..|run| - 1]), run[|run| - 1]);
    }
  }

  // ---- The results ----

  /** The clock's own part of a run. */
  ghost function Ticks(cfg: Config, run: seq<Move>): seq<T.Tick>
    requires Timed(cfg, run)
  {
    if run == [] then []
    else
      var front := run[..|run| - 1];
      var tick := TickOf(cfg, Reached(cfg, front).s, run[|run| - 1]);
      Ticks(cfg, front) + if tick.Some? then [tick.value] else []
  }

  lemma {:induction false} TicksAreFeasible(cfg: Config, run: seq<Move>)
    requires Timed(cfg, run)
    ensures T.Feasible(Ticks(cfg, run)) && T.At(Ticks(cfg, run)) == Reached(cfg, run).c
  {
    if run != [] {
      var front := run[..|run| - 1];
      TicksAreFeasible(cfg, front);
      var tick := TickOf(cfg, Reached(cfg, front).s, run[|run| - 1]);
      if tick.Some? {
        T.ExtendTicks(Ticks(cfg, front), tick.value);
      } else {
        assert Ticks(cfg, run) == Ticks(cfg, front);
      }
    }
  }

  /** Visit `id` sent the cycle's pod to the cycle's node, which ends in a digit k, and the wait was decided exactly k
      seconds later, by now. */
  ghost predicate DelayedByDigit(now: int, cycle: Cycle, sent: Option<T.Sending>, filled: Option<int>) {
    && sent.Some? && sent.value.uid == cycle.attempt.pod.uid && sent.value.node == cycle.node
    && exists k :: 0 <= k < 10 && N.EndsIn(cycle.node, k)
         && filled == Some(sent.value.at + k * 1_000_000_000) && filled.value <= now
  }

  lemma ClearedIsDecided(cfg: Config, j: Joint, c: Cycle)
    requires T.ClockInv(j.c) && Related(j) && WaitersReplay(j.s)
    requires c.permit.Some? && Backed(cfg, j.s, c) && Cleared(j.s, c) && ForNode(j.c, c)
    ensures c.permit.value in j.c.visits && j.c.visits[c.permit.value].decidedAt.Some?
    ensures j.c.visits[c.permit.value].decidedAt.value <= j.c.now
    ensures j.c.visits[c.permit.value].uid == c.attempt.pod.uid && j.c.visits[c.permit.value].node == c.node
  {
    var w := j.s.waiters[c.permit.value];
    SuccessMeansAllAllowed(w.initial, w.calls);
    PendingIsUnallowed(w.initial, w.calls);
    assert N.NAME !in w.value.pending;
    assert T.VisitInv(j.c, c.permit.value);
  }

  /** What NodeNumber promises: a pod is bound to a node ending in digit d only when d seconds have passed since it was
      sent there, and its wait was decided exactly then. */
  lemma BoundAfterDelay(filters: seq<FilterPlugin>, events: EventMap, run: seq<Move>, i: nat)
    requires Timed(Started(filters, events), run) && i < |Reached(Started(filters, events), run).s.bound|
    requires N.EndsInDigit(Reached(Started(filters, events), run).s.bound[i].node)
    ensures
      var cfg := Started(filters, events);
      var j, ticks := Reached(cfg, run), Ticks(cfg, run);
      var c := j.s.bound[i];
      && T.Feasible(ticks) && T.At(ticks).now == j.c.now && c.permit.Some?
      && DelayedByDigit(j.c.now, c, T.SentBy(ticks, c.permit.value), T.FilledAt(ticks, c.permit.value))
  {
    var cfg := Started(filters, events);
    TicksAreFeasible(cfg, run);
    BoundIsDecided(filters, events, run, i);
    var c := Reached(cfg, run).s.bound[i];
    T.AllowedOnTime(Ticks(cfg, run), c.permit.value);
    T.RunRecords(Ticks(cfg, run), c.permit.value);
    DecidedIsDelayed(Reached(cfg, run).c.now, c, T.SentBy(Ticks(cfg, run), c.permit.value).value,
                     T.FilledAt(Ticks(cfg, run), c.permit.value));
  }

  lemma DecidedIsDelayed(now: int, cycle: Cycle, sent: T.Sending, filled: Option<int>)
    requires T.OnTime(now, sent, filled) && filled.Some? && filled.value <= now
    requires sent.uid == cycle.attempt.pod.uid && sent.node == cycle.node
    ensures DelayedByDigit(now, cycle, Some(sent), filled)
  {
  }

  lemma BoundIsDecided(filters: seq<FilterPlugin>, events: EventMap, run: seq<Move>, i: nat)
    requires Timed(Started(filters, events), run) && i < |Reached(Started(filters, events), run).s.bound|
    requires N.EndsInDigit(Reached(Started(filters, events), run).s.bound[i].node)
    ensures
      var j := Reached(Started(filters, events), run);
      var c := j.s.bound[i];
      && !j.c.crashed && c.permit.Some? && c.permit.value in j.c.visits
      && var v := j.c.visits[c.permit.value];
         v.uid == c.attempt.pod.uid && v.node == c.node && v.decidedAt.Some? && v.decidedAt.value <= j.c.now
  {
    var cfg := Started(filters, events);
    StartedAsks(filters, events);
    TimedRunKeeps(cfg, run);
    var j := Reached(cfg, run);
    var c := j.s.bound[i];
    assert Backed(cfg, j.s, c) && Cleared(j.s, c) && ForNode(j.c, c);
    ClearedIsDecided(cfg, j, c);
  }

  /** When a pod has been popped, its earlier visits have ended. */
  lemma NothingUnfinished(cfg: Config, j: Joint)
    requires JointInv(cfg, j) && j.s.loop.Popped?
    ensures forall id :: id in j.c.visits && j.c.visits[id].uid == j.s.loop.pod.uid ==> j.c.visits[id].left
  {
    var pod := j.s.loop.pod;
    forall id | id in j.c.visits && j.c.visits[id].uid == pod.uid ensures j.c.visits[id].left {
      assert T.VisitInv(j.c, id);
      assert j.c.visits[id].waiting.Some?;
      if pod.uid in j.s.waitingPods {
        EntryIsElsewhere(cfg, j.s, pod.uid);
      }
    }
  }

  /** No entry exists for the pod the loop has just popped. */
  lemma EntryIsElsewhere(cfg: Config, s: State, uid: string)
    requires Inv(s) && s.loop.Popped? && s.loop.pod.uid == uid
    ensures !Accounted(s, uid)
  {
    if t :| t in s.binders && s.binders[t].cycle.attempt.pod.uid == uid {
      BinderInLoop(s, t);
      OneCyclePerPod(s, t, t);
      KeyIsFree(s, s.loop.pod);
      KeyIsFree(s, BinderPod(s.binders[t]));
      assert false;
    }
  }

  lemma SignalIsFirst(cfg: Config, j: Joint, t: nat)
    requires T.ClockInv(j.c) && !j.c.crashed && Related(j) && Enabled(cfg, j.s, TakeSignal(t))
    ensures T.Possible(j.c, T.Receive(j.s.binders[t].stage.id))
  {
    var id := j.s.binders[t].stage.id;
    assert T.VisitInv(j.c, id) && j.s.waiters[id].value == j.c.visits[id].waiting.value;
  }

  lemma ChooseAllowed(cfg: Config, j: Joint, m: Move)
    requires AsksNodeNumber(cfg) && !j.c.crashed && m.Choose? && Takes(cfg, j.s, m)
    requires forall id :: id in j.c.visits && j.c.visits[id].uid == j.s.loop.pod.uid ==> j.c.visits[id].left
    ensures Can(cfg, j, m) <==> m.id !in j.c.visits
  {
    assert cfg.decide(Attempt(j.s.loop.pod, m.listed, m.draws)).Proceed?;
  }

  lemma ReturnAllowed(cfg: Config, j: Joint, m: Move)
    requires !j.c.crashed && m.Return? && Takes(cfg, j.s, m) && LeavesOwn(j, m.t) && SignalsReceived(j)
    ensures Can(cfg, j, m)
  {
  }

  lemma RingAllowed(cfg: Config, j: Joint, m: Move)
    requires !j.c.crashed && m.Ring? && Takes(cfg, j.s, m) && Related(j)
    ensures Can(cfg, j, m) <==> m.alarm in j.c.alarms && m.alarm.due <= j.c.now
  {
  }

  /** The clock adds no obstacle of its own: what the system can do it can do on the clock, except that a timer has to
      be due, and that registering concerns the visit that is waiting for it, which is there. */
  lemma ClockAllows(cfg: Config, j: Joint, m: Move)
    requires AsksNodeNumber(cfg) && JointInv(cfg, j) && Takes(cfg, j.s, m)
    ensures Can(cfg, j, m)
       <==> match m
            case Pass(to) => T.Possible(j.c, T.Wait(to))
            case Choose(id, _, _) => id !in j.c.visits
            case Enter(id) => id in j.c.visits && j.c.visits[id].waiting.None?
            case Ring(a) => a in j.c.alarms && a.due <= j.c.now
            case _ => true
    ensures j.s.loop.Registering? ==>
              exists id :: id in j.c.visits && j.c.visits[id].waiting.None? && id !in j.s.waiters
  {
    match m
    case Choose(_, _, _) =>
      NothingUnfinished(cfg, j);
      ChooseAllowed(cfg, j, m);
    case Ring(_) => RingAllowed(cfg, j, m);
    case Signal(t) => SignalIsFirst(cfg, j, t);
    case Return(t) =>
      assert BinderInv(cfg, j.s, j.s.binders[t]);
      LeaverIsOwn(cfg, j, t);
      ReturnAllowed(cfg, j, m);
    case _ =>
  }
}

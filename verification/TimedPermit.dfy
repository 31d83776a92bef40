/** Permit waits against the clock: the timer that allows a pod and the timer that gives up on it
    (minisched/plugins/score/nodenumber/nodenumber.go and minisched/waitingpod/waitingpod.go).
    Timers are exact: time does not pass a timer that is due. */
module TimedPermit {
  import opened Framework
  import opened WaitingPods
  import opened NodeNumber

  datatype Kind = Allowing | TimingOut

  datatype Alarm = Alarm(id: nat, kind: Kind, due: int)

  /** A pod sent to `node` at time `at`; its waiting-pod object once registered, when its mailbox was first filled, what
      was read from it, and whether WaitOnPermit has returned. */
  datatype Visit = Visit(uid: string, at: int, node: string, waiting: Option<Waiting>, decidedAt: Option<int>,
                         received: Option<Status>, left: bool)

  /** `waitingPods` leads from a uid to the visit whose object is registered under it. */
  datatype Clockwork = Clockwork(now: int, visits: map<nat, Visit>, waitingPods: map<string, nat>, alarms: set<Alarm>,
                                 crashed: bool)

  datatype Tick =
    | Permit(id: nat, uid: string, node: string)
    | Register(id: nat)
    | Wait(t: int)
    | Fire(alarm: Alarm)
    | Receive(id: nat)
    | Leave(id: nat)

  const TIMEOUT_MESSAGE := "rejected due to timeout after waiting 10s at plugin NodeNumber"

  /** A pod may come back, with the same uid, once its cycle has ended; one cycle at a time works for it. */
  predicate Possible(c: Clockwork, l: Tick) {
    && !c.crashed
    && match l
       case Permit(id, uid, node) =>
         && id !in c.visits && LastDigit(node).Some?
         && forall i :: i in c.visits && c.visits[i].uid == uid ==> c.visits[i].left
       case Register(id) => id in c.visits && c.visits[id].waiting.None?
       case Wait(t) => c.now <= t && forall a :: a in c.alarms ==> t <= a.due
       case Fire(a) =>
         a in c.alarms && a.due <= c.now && a.id in c.visits && (a.kind.TimingOut? ==> c.visits[a.id].waiting.Some?)
       case Receive(id) =>
         && id in c.visits && c.visits[id].received.None?
         && c.visits[id].waiting.Some? && c.visits[id].waiting.value.slot.Some?
       case Leave(id) => id in c.visits && c.visits[id].received.Some? && !c.visits[id].left
  }

  /** GetWaitingPod: the object registered under the uid, if there is one. */
  function GetWaitingPod(c: Clockwork, uid: string): Option<nat> {
    if uid in c.waitingPods && c.waitingPods[uid] in c.visits && c.visits[c.waitingPods[uid]].waiting.Some? then
      Some(c.waitingPods[uid])
    else None
  }

  /** The call is made on the waiting-pod object of a visit. Allow and Reject alike stop the object's time-out timer,
      which belongs to the plugin that was still pending. */
  function CallOn(c: Clockwork, id: nat, call: Call): Clockwork
    requires id in c.visits && c.visits[id].waiting.Some?
  {
    var v := c.visits[id];
    var w := Do(v.waiting.value, call);
    var decidedAt := if v.decidedAt.None? && w.slot.Some? then Some(c.now) else v.decidedAt;
    c.(visits := c.visits[id := v.(waiting := Some(w), decidedAt := decidedAt)],
       alarms := set a | a in c.alarms && !(a.id == id && a.kind.TimingOut?))
  }

  function Next(c: Clockwork, l: Tick): Clockwork
    requires Possible(c, l)
  {
    match l
    case Permit(id, uid, node) =>
      c.(visits := c.visits[id := Visit(uid, c.now, node, None, None, None, false)],
         alarms := c.alarms + {Alarm(id, Allowing, c.now + AllowDelay(node))})
    case Register(id) =>
      c.(visits := c.visits[id := c.visits[id].(waiting := Some(Start({NAME})))],
         waitingPods := c.waitingPods[c.visits[id].uid := id],
         alarms := c.alarms + {Alarm(id, TimingOut, c.now + PERMIT_TIMEOUT)})
    case Wait(t) => c.(now := t)
    case Fire(a) =>
      var rung := c.(alarms := c.alarms - {a});
      (match a.kind
       case TimingOut => CallOn(rung, a.id, Reject(NAME, TIMEOUT_MESSAGE))
       case Allowing =>
         // the timer looks the pod up by its uid, and calls Allow on whatever it gets
         match GetWaitingPod(rung, c.visits[a.id].uid)
         case None => rung.(crashed := true)
         case Some(id) => CallOn(rung, id, Allow(NAME)))
    case Receive(id) =>
      var v := c.visits[id];
      c.(visits := c.visits[id := v.(waiting := Some(Do(v.waiting.value, GetSignal)),
                                     received := v.waiting.value.slot)])
    case Leave(id) =>
      c.(visits := c.visits[id := c.visits[id].(left := true)],
         waitingPods := c.waitingPods - {c.visits[id].uid})
  }

  ghost predicate Feasible(run: seq<Tick>)
    decreases |run|, 0
  {
    run == [] || (Feasible(run[..|run| - 1]) && Possible(At(run[..|run| - 1]), run[|run| - 1]))
  }

  ghost function At(run: seq<Tick>): Clockwork
    requires Feasible(run)
    decreases |run|, 1
  {
    if run == [] then Clockwork(0, map[], map[], {}, false) else Next(At(run[..|run| - 1]), run[|run| - 1])
  }

  lemma ExtendTicks(run: seq<Tick>, l: Tick)
    requires Feasible(run) && Possible(At(run), l)
    ensures Feasible(run + [l]) && At(run + [l]) == Next(At(run), l)
  {
    assert (run + [l])[..|run|] == run;
  }

  // ---- The invariant ----

  function AllowDue(v: Visit): int
    requires LastDigit(v.node).Some?
  {
    v.at + AllowDelay(v.node)
  }

  /** Before the plugin's timer fires: it is set, nothing has been decided, and time has not passed it. */
  ghost predicate Undecided(c: Clockwork, id: nat, v: Visit)
    requires LastDigit(v.node).Some?
  {
    && Alarm(id, Allowing, AllowDue(v)) in c.alarms
    && c.now <= AllowDue(v)
    && (v.waiting == None || v.waiting == Some(Start({NAME})))
    && v.decidedAt == None && v.received == None
  }

  /** Afterwards: success was sent when the timer fired, no timer is left, and at most the success has been read. */
  ghost predicate Decided(c: Clockwork, id: nat, v: Visit)
    requires LastDigit(v.node).Some?
  {
    && (forall a :: a in c.alarms ==> a.id != id)
    && v.decidedAt == Some(AllowDue(v)) && AllowDue(v) <= c.now
    && (|| (v.waiting == Some(Pending({}, Some(PASSED))) && v.received == None)
        || (v.waiting == Some(Pending({}, None)) && v.received == Some(PASSED)))
  }

  ghost predicate VisitInv(c: Clockwork, id: nat)
    requires id in c.visits
  {
    var v := c.visits[id];
    && LastDigit(v.node).Some? && v.at <= c.now
    && (Undecided(c, id, v) || Decided(c, id, v))
    && (v.left ==> v.received.Some?)
    && (v.waiting.Some? && !v.left ==> v.uid in c.waitingPods && c.waitingPods[v.uid] == id)
  }

  ghost predicate AlarmInv(c: Clockwork, a: Alarm) {
    && a.id in c.visits && LastDigit(c.visits[a.id].node).Some?
    && c.now <= a.due
    && match a.kind
       case Allowing => a.due == AllowDue(c.visits[a.id])
       case TimingOut => a.due >= c.visits[a.id].at + PERMIT_TIMEOUT
  }

  /** A pod has at most one visit that has not ended. */
  ghost predicate OneAtATime(c: Clockwork) {
    forall i, j :: i in c.visits && j in c.visits && !c.visits[i].left && !c.visits[j].left && i != j ==>
      c.visits[i].uid != c.visits[j].uid
  }

  /** Every entry leads to the object of a visit of its uid that has not ended. */
  ghost predicate EntryInv(c: Clockwork, uid: string)
    requires uid in c.waitingPods
  {
    var id := c.waitingPods[uid];
    id in c.visits && c.visits[id].uid == uid && c.visits[id].waiting.Some? && !c.visits[id].left
  }

  ghost predicate ClockInv(c: Clockwork) {
    && (forall id :: id in c.visits ==> VisitInv(c, id))
    && (forall a :: a in c.alarms ==> AlarmInv(c, a))
    && (forall uid :: uid in c.waitingPods ==> EntryInv(c, uid))
    && OneAtATime(c)
  }

  /** No nine-second delay outlasts the ten-second time-out. */
  lemma DelayBeforeTimeout(node: string)
    requires LastDigit(node).Some?
    ensures 0 <= AllowDelay(node) < PERMIT_TIMEOUT
  {
  }

  /** A time-out timer that is still set is never due: the plugin's own timer is due before it. */
  lemma TimeoutNotDue(c: Clockwork, a: Alarm)
    requires ClockInv(c) && a in c.alarms && a.kind.TimingOut?
    ensures c.now < a.due
  {
    var v := c.visits[a.id];
    assert AlarmInv(c, a) && VisitInv(c, a.id);
    DelayBeforeTimeout(v.node);
  }

  /** Whatever timer fires, it is a plugin's own; its lookup by uid yields the object of the very visit that set it, and
      it yields nothing, which crashes, exactly when that visit has not been registered yet. */
  lemma FireFindsOwn(c: Clockwork, a: Alarm)
    requires ClockInv(c) && Possible(c, Fire(a))
    ensures a.kind.Allowing?
    ensures c.visits[a.id].waiting.Some? ==> GetWaitingPod(c, c.visits[a.id].uid) == Some(a.id)
    ensures Next(c, Fire(a)).crashed <==> c.visits[a.id].waiting.None?
  {
    assert AlarmInv(c, a) && VisitInv(c, a.id);
    if a.kind.TimingOut? {
      TimeoutNotDue(c, a);
      assert false;
    }
    var uid := c.visits[a.id].uid;
    assert uid in c.waitingPods ==> EntryInv(c, uid);
  }

  /** So firing is a call of Allow on the visit's own object. */
  lemma FireCallsOwn(c: Clockwork, a: Alarm)
    requires ClockInv(c) && Possible(c, Fire(a)) && c.visits[a.id].waiting.Some?
    ensures Next(c, Fire(a)) == CallOn(c.(alarms := c.alarms - {a}), a.id, Allow(NAME))
    ensures Undecided(c, a.id, c.visits[a.id]) && c.now == AllowDue(c.visits[a.id])
    ensures c.visits[a.id].waiting == Some(Start({NAME})) && a == Alarm(a.id, Allowing, c.now)
  {
    FireFindsOwn(c, a);
    assert AlarmInv(c, a) && VisitInv(c, a.id);
  }

  /** What the call leaves: a decided visit, and no timer of it. */
  lemma FireDecides(c: Clockwork, a: Alarm)
    requires ClockInv(c) && Possible(c, Fire(a)) && c.visits[a.id].waiting.Some?
    ensures var c' := Next(c, Fire(a));
            && c' == c.(visits := c'.visits, alarms := c'.alarms)
            && c'.visits == c.visits[a.id := c.visits[a.id].(waiting := Some(Pending({}, Some(PASSED))),
                                                             decidedAt := Some(c.now))]
            && forall b :: b in c'.alarms <==> b in c.alarms && b.id != a.id
  {
    FireCallsOwn(c, a);
    assert Do(Start({NAME}), Allow(NAME)) == Pending({}, Some(PASSED));
    forall b | b in c.alarms && b.id == a.id && b.kind.Allowing? ensures b == a {
      assert AlarmInv(c, b);
    }
  }

  lemma FireKeepsVisit(c: Clockwork, a: Alarm, id: nat)
    requires ClockInv(c) && Possible(c, Fire(a)) && c.visits[a.id].waiting.Some? && id in c.visits
    ensures id in Next(c, Fire(a)).visits && VisitInv(Next(c, Fire(a)), id)
  {
    FireDecides(c, a);
    FireCallsOwn(c, a);
    assert VisitInv(c, id);
  }

  lemma FireKeeps(c: Clockwork, a: Alarm)
    requires ClockInv(c) && Possible(c, Fire(a)) && c.visits[a.id].waiting.Some?
    ensures ClockInv(Next(c, Fire(a)))
  {
    var c' := Next(c, Fire(a));
    FireDecides(c, a);
    forall b | b in c'.alarms ensures AlarmInv(c', b) {
      assert AlarmInv(c, b);
    }
    forall id | id in c'.visits ensures VisitInv(c', id) {
      FireKeepsVisit(c, a, id);
    }
    forall uid | uid in c'.waitingPods ensures EntryInv(c', uid) {
      assert EntryInv(c, uid);
    }
  }

  lemma KeepsAlarm(c: Clockwork, l: Tick, a: Alarm)
    requires ClockInv(c) && Possible(c, l) && !l.Fire? && a in Next(c, l).alarms
    ensures AlarmInv(Next(c, l), a)
  {
    if a in c.alarms {
      assert AlarmInv(c, a);
    }
    if l.Register? {
      assert VisitInv(c, l.id);
    }
    if l.Permit? {
      DelayBeforeTimeout(l.node);
    }
  }

  lemma PermitKeepsVisit(c: Clockwork, l: Tick, id: nat)
    requires ClockInv(c) && Possible(c, l) && l.Permit? && id in Next(c, l).visits
    ensures VisitInv(Next(c, l), id)
  {
    if id == l.id {
      DelayBeforeTimeout(l.node);
    } else {
      assert VisitInv(c, id);
    }
  }

  lemma RegisterKeepsOwn(c: Clockwork, id: nat)
    requires ClockInv(c) && Possible(c, Register(id))
    ensures VisitInv(Next(c, Register(id)), id)
  {
    assert VisitInv(c, id);
  }

  lemma ReceiveKeepsOwn(c: Clockwork, id: nat)
    requires ClockInv(c) && Possible(c, Receive(id))
    ensures VisitInv(Next(c, Receive(id)), id)
  {
    assert VisitInv(c, id);
  }

  lemma LeaveKeepsOwn(c: Clockwork, id: nat)
    requires ClockInv(c) && Possible(c, Leave(id))
    ensures VisitInv(Next(c, Leave(id)), id)
  {
    assert VisitInv(c, id);
  }

  lemma OtherStepKeepsVisit(c: Clockwork, l: Tick, id: nat)
    requires ClockInv(c) && Possible(c, l) && id in c.visits
    requires l.Wait? || ((l.Register? || l.Receive? || l.Leave?) && id != l.id)
    ensures id in Next(c, l).visits && VisitInv(Next(c, l), id)
  {
    assert VisitInv(c, id);
    if !l.Wait? {
      assert VisitInv(c, l.id);
    }
  }

  lemma KeepsVisit(c: Clockwork, l: Tick, id: nat)
    requires ClockInv(c) && Possible(c, l) && !l.Fire? && id in Next(c, l).visits
    ensures VisitInv(Next(c, l), id)
  {
    match l
    case Permit(_, _, _) => PermitKeepsVisit(c, l, id);
    case Wait(_) => OtherStepKeepsVisit(c, l, id);
    case Register(own) => if id == own { RegisterKeepsOwn(c, id); } else { OtherStepKeepsVisit(c, l, id); }
    case Receive(own) => if id == own { ReceiveKeepsOwn(c, id); } else { OtherStepKeepsVisit(c, l, id); }
    case Leave(own) => if id == own { LeaveKeepsOwn(c, id); } else { OtherStepKeepsVisit(c, l, id); }
  }

  lemma KeepsEntry(c: Clockwork, l: Tick, uid: string)
    requires ClockInv(c) && Possible(c, l) && !l.Fire? && uid in Next(c, l).waitingPods
    ensures EntryInv(Next(c, l), uid)
  {
    if uid in c.waitingPods {
      assert EntryInv(c, uid);
    }
    if l.Register? || l.Leave? {
      assert VisitInv(c, l.id);
    }
  }

  lemma TickKeeps(c: Clockwork, l: Tick)
    requires ClockInv(c) && Possible(c, l) && !Next(c, l).crashed
    ensures ClockInv(Next(c, l))
  {
    var c' := Next(c, l);
    if l.Fire? {
      FireFindsOwn(c, l.alarm);
      FireKeeps(c, l.alarm);
    } else {
      forall a | a in c'.alarms ensures AlarmInv(c', a) {
        KeepsAlarm(c, l, a);
      }
      forall id | id in c'.visits ensures VisitInv(c', id) {
        KeepsVisit(c, l, id);
      }
      forall uid | uid in c'.waitingPods ensures EntryInv(c', uid) {
        KeepsEntry(c, l, uid);
      }
    }
  }

  lemma {:induction false} RunKeeps(run: seq<Tick>)
    requires Feasible(run) && !At(run).crashed
    ensures ClockInv(At(run))
  {
    if run != [] {
      RunKeeps(run[..|run| - 1]);
      TickKeeps(At(run[..|run| - 1]), run[|run| - 1]);
    }
  }

  // ---- When a pod was sent and when its wait was decided ----

  /** A pod was sent to a node while the clock showed `at`. */
  datatype Sending = Sending(at: int, uid: string, node: string)

  ghost function SentBy(run: seq<Tick>, id: nat): Option<Sending>
    requires Feasible(run)
  {
    if run == [] then None
    else
      var front, last := run[..|run| - 1], run[|run| - 1];
      if last.Permit? && last.id == id then Some(Sending(At(front).now, last.uid, last.node)) else SentBy(front, id)
  }

  ghost predicate Full(c: Clockwork, id: nat) {
    id in c.visits && c.visits[id].waiting.Some? && c.visits[id].waiting.value.slot.Some?
  }

  /** What the clock showed when the visit's mailbox was first full. */
  ghost function FilledAt(run: seq<Tick>, id: nat): Option<int>
    requires Feasible(run)
  {
    if run == [] then None
    else
      var c, before := At(run), FilledAt(run[..|run| - 1], id);
      if before.Some? then before
      else if Full(c, id) then Some(c.now)
      else None
  }

  /** The visits record both. */
  ghost predicate Recorded(c: Clockwork, id: nat, sent: Option<Sending>, filled: Option<int>) {
    if id in c.visits then
      && sent == Some(Sending(c.visits[id].at, c.visits[id].uid, c.visits[id].node))
      && filled == c.visits[id].decidedAt
    else sent == None && filled == None
  }

  /** A mailbox becomes full when a timer fires, and the visit then records the time. */
  lemma TickFills(c: Clockwork, l: Tick, id: nat)
    requires ClockInv(c) && Possible(c, l) && !Next(c, l).crashed && id in c.visits
    ensures var c' := Next(c, l);
            && id in c'.visits
            && c'.visits[id].decidedAt == (if c.visits[id].decidedAt.Some? then c.visits[id].decidedAt
                                           else if Full(c', id) then Some(c'.now)
                                           else None)
            && c'.visits[id].at == c.visits[id].at
            && c'.visits[id].uid == c.visits[id].uid
            && c'.visits[id].node == c.visits[id].node
  {
    assert VisitInv(c, id);
    if l.Fire? {
      FireFindsOwn(c, l.alarm);
      FireDecides(c, l.alarm);
    }
  }

  lemma {:induction false} RunRecords(run: seq<Tick>, id: nat)
    requires Feasible(run) && !At(run).crashed
    ensures Recorded(At(run), id, SentBy(run, id), FilledAt(run, id))
  {
    if run != [] {
      var front, l := run[..|run| - 1], run[|run| - 1];
      RunKeeps(front);
      RunRecords(front, id);
      if id in At(front).visits {
        TickFills(At(front), l, id);
      } else if l.Fire? {
        FireFindsOwn(At(front), l.alarm);
        FireDecides(At(front), l.alarm);
      }
    }
  }

  /** The node ends in a digit k, and the wait is decided k seconds after the pod was sent there: then, and by no means
      later. */
  ghost predicate OnTime(now: int, sent: Sending, filled: Option<int>) {
    exists k :: 0 <= k < 10 && EndsIn(sent.node, k)
      && (now > sent.at + k * 1_000_000_000 ==> filled.Some?)
      && (filled.Some? ==> filled == Some(sent.at + k * 1_000_000_000))
  }

  lemma VisitIsOnTime(c: Clockwork, id: nat)
    requires id in c.visits && VisitInv(c, id)
    ensures var v := c.visits[id];
            && OnTime(c.now, Sending(v.at, v.uid, v.node), v.decidedAt)
            && (v.received.Some? ==> v.received == Some(Status(Success, "", "")))
  {
    LastDigitIsCharacter(c.visits[id].node);
    assert EndsIn(c.visits[id].node, LastDigit(c.visits[id].node).value);
  }

  lemma TimeoutsNotDue(c: Clockwork)
    requires ClockInv(c)
    ensures forall a :: a in c.alarms && a.kind.TimingOut? ==>
              c.now < a.due && a.id in c.visits && c.visits[a.id].at + 10_000_000_000 <= a.due
  {
    forall a | a in c.alarms && a.kind.TimingOut?
      ensures c.now < a.due && a.id in c.visits && c.visits[a.id].at + 10_000_000_000 <= a.due
    {
      TimeoutNotDue(c, a);
      assert AlarmInv(c, a);
    }
  }

  /** Some registration of the visit set this time-out, ten seconds ahead. */
  ghost predicate SetByRegistration(run: seq<Tick>, a: Alarm)
    requires Feasible(run)
  {
    && run != []
    && var front, last := run[..|run| - 1], run[|run| - 1];
       || (last == Register(a.id) && a.due == At(front).now + 10_000_000_000)
       || SetByRegistration(front, a)
  }

  lemma TickAlarms(c: Clockwork, l: Tick, a: Alarm)
    requires Possible(c, l) && a in Next(c, l).alarms && a.kind.TimingOut?
    ensures a in c.alarms || (l == Register(a.id) && a.due == c.now + 10_000_000_000)
  {
  }

  lemma {:induction false} TimeoutIsTenSeconds(run: seq<Tick>, a: Alarm)
    requires Feasible(run) && a in At(run).alarms && a.kind.TimingOut?
    ensures SetByRegistration(run, a)
  {
    TickAlarms(At(run[..|run| - 1]), run[|run| - 1], a);
    if a in At(run[..|run| - 1]).alarms {
      TimeoutIsTenSeconds(run[..|run| - 1], a);
    }
  }

  /** In every run, with any number of pods waiting, a pod sent to a node ending in digit d is decided exactly d seconds
      after the permit, no later and no earlier, always with success, and no time-out ever becomes due. */
  lemma AllowedOnTime(run: seq<Tick>, id: nat)
    requires Feasible(run) && !At(run).crashed && id in At(run).visits
    ensures SentBy(run, id).Some? && OnTime(At(run).now, SentBy(run, id).value, FilledAt(run, id))
    ensures At(run).visits[id].received.Some? ==> At(run).visits[id].received == Some(Status(Success, "", ""))
    ensures forall a :: a in At(run).alarms && a.kind.TimingOut? ==>
              At(run).now < a.due && SentBy(run, a.id).Some? && SentBy(run, a.id).value.at + 10_000_000_000 <= a.due
  {
    RunKeeps(run);
    RunRecords(run, id);
    VisitIsOnTime(At(run), id);
    TimeoutsNotDue(At(run));
    forall a | a in At(run).alarms && a.kind.TimingOut?
      ensures SentBy(run, a.id).Some? && SentBy(run, a.id).value.at == At(run).visits[a.id].at
    {
      RunRecords(run, a.id);
    }
  }

  lemma TickCrashes(c: Clockwork, l: Tick)
    requires ClockInv(c) && Possible(c, l)
    ensures Next(c, l).crashed <==> l.Fire? && c.visits[l.alarm.id].waiting.None?
  {
    if l.Fire? {
      FireFindsOwn(c, l.alarm);
    }
  }

  /** A run crashes exactly when its last step is a plugin's timer that fires before the visit that set it has been
      registered. */
  lemma CrashesIff(run: seq<Tick>)
    requires Feasible(run) && run != []
    ensures var c, l := At(run[..|run| - 1]), run[|run| - 1];
            At(run).crashed <==> l.Fire? && c.visits[l.alarm.id].waiting.None?
  {
    RunKeeps(run[..|run| - 1]);
    TickCrashes(At(run[..|run| - 1]), run[|run| - 1]);
  }

  /** For every node ending in a digit: when registration is as late as the delay, the timer may fire before it. */
  lemma LateRegistrationCrashes(uid: string, node: string)
    requires EndsInDigit(node)
    ensures exists k :: 0 <= k < 10 && EndsIn(node, k) &&
              var delay := k * 1_000_000_000;
              var run := [Permit(0, uid, node), Tick.Wait(delay), Fire(Alarm(0, Allowing, delay))];
              Feasible(run) && At(run).crashed
  {
    LastDigitIsCharacter(node);
    assert EndsIn(node, LastDigit(node).value);
    var delay := LastDigit(node).value * 1_000_000_000;
    var permit, wait, fire := Permit(0, uid, node), Tick.Wait(delay), Fire(Alarm(0, Allowing, delay));
    ExtendTicks([], permit);
    ExtendTicks([] + [permit], wait);
    ExtendTicks([] + [permit] + [wait], fire);
    assert [] + [permit] + [wait] + [fire] == [permit, wait, fire];
  }
}

/** A pod that permit plugins asked to wait (minisched/waitingpod/waitingpod.go). */
module WaitingPods {
  import opened Framework

  // ---- The protocol on values ----

  /** What can happen to a waiting pod; the lock makes each call one step. */
  datatype Call = Allow(plugin: string) | Reject(plugin: string, msg: string) | GetSignal

  /** The plugins still to answer, and the one-slot mailbox. */
  datatype Waiting = Pending(pending: set<string>, slot: Option<Status>)

  function Rejection(plugin: string, msg: string): Status {
    Status(Unschedulable, plugin, msg)
  }

  /** A non-blocking send: a full mailbox keeps what it holds. */
  function Send(slot: Option<Status>, status: Status): Option<Status> {
    if slot.None? then Some(status) else slot
  }

  function Start(initial: set<string>): Waiting {
    Pending(initial, None)
  }

  function Do(w: Waiting, call: Call): Waiting {
    match call
    case Allow(plugin) =>
      var pending := w.pending - {plugin};
      Pending(pending, if pending == {} then Send(w.slot, PASSED) else w.slot)
    case Reject(plugin, msg) => w.(slot := Send(w.slot, Rejection(plugin, msg)))
    case GetSignal => w.(slot := None)
  }

  function Replay(initial: set<string>, calls: seq<Call>): Waiting {
    if calls == [] then Start(initial) else Do(Replay(initial, calls[..|calls| - 1]), calls[|calls| - 1])
  }

  // ---- The verdict as a function of the calls ----

  /** The plugins that called Allow. */
  function Allowed(calls: seq<Call>): set<string> {
    set i | 0 <= i < |calls| && calls[i].Allow? :: calls[i].plugin
  }

  /** A Reject, or an Allow that leaves no initial plugin un-allowed. */
  predicate Decisive(initial: set<string>, calls: seq<Call>, i: nat)
    requires i < |calls|
  {
    || calls[i].Reject?
    || (calls[i].Allow? && initial <= Allowed(calls[..i + 1]))
  }

  function OutcomeOf(call: Call): Status {
    match call
    case Reject(plugin, msg) => Status(Unschedulable, plugin, msg)
    case _ => Status(Success, "", "")
  }

  /** The outcome of the first decisive call. */
  function Verdict(initial: set<string>, calls: seq<Call>): Option<Status> {
    if calls == [] then None
    else
      var last := |calls| - 1;
      var earlier := Verdict(initial, calls[..last]);
      if earlier.Some? then earlier
      else if Decisive(initial, calls, last) then Some(OutcomeOf(calls[last]))
      else None
  }

  lemma AllowedStep(calls: seq<Call>)
    requires calls != []
    ensures var last := |calls| - 1;
            Allowed(calls) == Allowed(calls[..last]) + if calls[last].Allow? then {calls[last].plugin} else {}
  {
    var last := |calls| - 1;
    assert forall i :: 0 <= i < last ==> calls[..last][i] == calls[i];
  }

  lemma AllowedGrows(calls: seq<Call>, n: nat)
    requires n <= |calls|
    ensures Allowed(calls[..n]) <= Allowed(calls)
  {
    assert forall i :: 0 <= i < n ==> calls[..n][i] == calls[i];
  }

  /** `Verdict` is what its name says: the first decisive call settles it, and without one there is none. */
  lemma {:induction false} VerdictIsFirstDecisive(initial: set<string>, calls: seq<Call>)
    ensures Verdict(initial, calls).None? <==> forall i :: 0 <= i < |calls| ==> !Decisive(initial, calls, i)
    ensures forall i :: 0 <= i < |calls| && Decisive(initial, calls, i)
              && (forall j :: 0 <= j < i ==> !Decisive(initial, calls, j))
              ==> Verdict(initial, calls) == Some(OutcomeOf(calls[i]))
  {
    if calls != [] {
      var last := |calls| - 1;
      var front := calls[..last];
      VerdictIsFirstDecisive(initial, front);
      forall i | 0 <= i < last ensures Decisive(initial, front, i) == Decisive(initial, calls, i) {
        assert front[..i + 1] == calls[..i + 1];
      }
    }
  }

  /** Later calls cannot change a verdict. */
  lemma {:induction false} VerdictStands(initial: set<string>, calls: seq<Call>, n: nat)
    requires n <= |calls| && Verdict(initial, calls[..n]).Some?
    ensures Verdict(initial, calls) == Verdict(initial, calls[..n])
  {
    if n == |calls| {
      assert calls[..n] == calls;
    } else {
      var last := |calls| - 1;
      assert calls[..last][..n] == calls[..n];
      VerdictStands(initial, calls[..last], n);
    }
  }

  /** Who is pending depends on the Allow calls alone. */
  lemma {:induction false} PendingIsUnallowed(initial: set<string>, calls: seq<Call>)
    ensures Replay(initial, calls).pending == initial - Allowed(calls)
  {
    if calls != [] {
      PendingIsUnallowed(initial, calls[..|calls| - 1]);
      AllowedStep(calls);
    }
  }

  /** Until it is read, the mailbox holds the verdict. */
  lemma {:induction false} SlotHoldsVerdict(initial: set<string>, calls: seq<Call>)
    requires GetSignal !in calls
    ensures Replay(initial, calls).slot == Verdict(initial, calls)
  {
    if calls != [] {
      var last := |calls| - 1;
      assert calls[last] in calls;
      SlotHoldsVerdict(initial, calls[..last]);
      PendingIsUnallowed(initial, calls);
      assert calls[..last + 1] == calls;
      var left := initial - Allowed(calls);
      assert left == {} <==> initial <= Allowed(calls) by {
        forall p | p in initial && left == {} ensures p in Allowed(calls) {
          assert p !in left;
        }
      }
    }
  }

  /** The first GetSignal returns the verdict of the calls before it, which is the verdict of the whole run. */
  lemma FirstSignal(initial: set<string>, calls: seq<Call>, n: nat)
    requires n < |calls| && calls[n] == GetSignal && GetSignal !in calls[..n]
    requires Replay(initial, calls[..n]).slot.Some?
    ensures Replay(initial, calls[..n]).slot == Verdict(initial, calls[..n]) == Verdict(initial, calls)
  {
    SlotHoldsVerdict(initial, calls[..n]);
    VerdictStands(initial, calls, n);
  }

  lemma {:induction false} VerdictShape(initial: set<string>, calls: seq<Call>)
    requires Verdict(initial, calls).Some?
    ensures Verdict(initial, calls).value.IsSuccess() ==> Verdict(initial, calls).value == PASSED
  {
    if Verdict(initial, calls[..|calls| - 1]).Some? {
      VerdictShape(initial, calls[..|calls| - 1]);
    }
  }

  /** A success verdict means that every plugin that asked to wait has called Allow. */
  lemma {:induction false} SuccessMeansAllAllowed(initial: set<string>, calls: seq<Call>)
    requires Verdict(initial, calls) == Some(PASSED)
    ensures initial <= Allowed(calls)
  {
    var last := |calls| - 1;
    AllowedGrows(calls, last);
    if Verdict(initial, calls[..last]).Some? {
      SuccessMeansAllAllowed(initial, calls[..last]);
    } else {
      assert calls[..last + 1] == calls;
    }
  }

  // ---- The waiting-pod object ----

  datatype Timer = Timer(after: int, running: bool)

  class WaitingPod {
    const pod: Pod
    var pendingPlugins: map<string, Timer>
    var s: Option<Status>

    // The plugins asked at the start, and every call so far, in the order the lock granted them.
    ghost const initial: set<string>
    ghost var calls: seq<Call>

    ghost function Value(): Waiting
      reads this
    {
      Pending(pendingPlugins.Keys, s)
    }

    ghost predicate Valid()
      reads this
    {
      Value() == Replay(initial, calls)
    }

    /** Each plugin gets a timer that rejects the pod when the plugin's time is over. */
    constructor (pod: Pod, pluginsMaxWaitTime: map<string, int>)
      ensures Valid() && this.pod == pod && initial == pluginsMaxWaitTime.Keys && calls == []
      ensures pendingPlugins == map p | p in pluginsMaxWaitTime :: Timer(pluginsMaxWaitTime[p], true)
    {
      this.pod := pod;
      s := None;
      initial := pluginsMaxWaitTime.Keys;
      calls := [];
      pendingPlugins := map[];
      new;
      var unseen := pluginsMaxWaitTime.Keys;
      while unseen != {}
        invariant unseen <= pluginsMaxWaitTime.Keys && calls == [] && s == None
        invariant pendingPlugins.Keys == pluginsMaxWaitTime.Keys - unseen
        invariant forall p :: p in pendingPlugins ==> pendingPlugins[p] == Timer(pluginsMaxWaitTime[p], true)
      {
        var p :| p in unseen;
        pendingPlugins := pendingPlugins[p := Timer(pluginsMaxWaitTime[p], true)];
        unseen := unseen - {p};
      }
    }

    method Allow(pluginName: string)
      requires Valid()
      modifies this
      ensures Valid() && calls == old(calls) + [Call.Allow(pluginName)]
      ensures Value() == Do(old(Value()), Call.Allow(pluginName))
      ensures pendingPlugins == old(pendingPlugins) - {pluginName}
    {
      calls := calls + [Call.Allow(pluginName)];
      assert calls[..|calls| - 1] == old(calls);
      if pluginName in pendingPlugins {
        pendingPlugins := pendingPlugins - {pluginName};
      }
      assert pendingPlugins.Keys == old(pendingPlugins.Keys) - {pluginName};
      if |pendingPlugins| != 0 {
        return;
      }
      if s.None? {
        s := Some(PASSED);
      }
    }

    /** All timers are stopped, but every plugin stays pending. */
    method Reject(pluginName: string, msg: string)
      requires Valid()
      modifies this
      ensures Valid() && calls == old(calls) + [Call.Reject(pluginName, msg)]
      ensures Value() == Do(old(Value()), Call.Reject(pluginName, msg))
      ensures pendingPlugins == map p | p in old(pendingPlugins) :: Timer(old(pendingPlugins)[p].after, false)
    {
      calls := calls + [Call.Reject(pluginName, msg)];
      assert calls[..|calls| - 1] == old(calls);
      var unseen := pendingPlugins.Keys;
      while unseen != {}
        invariant unseen <= old(pendingPlugins).Keys
        invariant s == old(s) && calls == old(calls) + [Call.Reject(pluginName, msg)]
        invariant pendingPlugins.Keys == old(pendingPlugins).Keys
        invariant forall p :: p in pendingPlugins ==>
          pendingPlugins[p] == if p in unseen then old(pendingPlugins)[p] else old(pendingPlugins)[p].(running := false)
      {
        var p :| p in unseen;
        pendingPlugins := pendingPlugins[p := pendingPlugins[p].(running := false)];
        unseen := unseen - {p};
      }
      if s.None? {
        s := Some(Rejection(pluginName, msg));
      }
    }

    /** The caller waits until there is a signal; this is what happens then. */
    method GetSignal() returns (status: Status)
      requires Valid() && s.Some?
      modifies this
      ensures Valid() && calls == old(calls) + [Call.GetSignal]
      ensures Value() == Do(old(Value()), Call.GetSignal) && pendingPlugins == old(pendingPlugins)
      ensures Some(status) == old(s)
      ensures Call.GetSignal !in old(calls) ==> Some(status) == Verdict(initial, old(calls))
    {
      if Call.GetSignal !in calls {
        SlotHoldsVerdict(initial, calls);
      }
      status := s.value;
      s := None;
      calls := calls + [Call.GetSignal];
      assert calls[..|calls| - 1] == old(calls);
    }

    /** The plugins that have not called Allow, each once. */
    method GetPendingPlugins() returns (plugins: seq<string>)
      requires Valid()
      ensures forall p :: p in plugins <==> p in initial && p !in Allowed(calls)
      ensures forall i, j :: 0 <= i < j < |plugins| ==> plugins[i] != plugins[j]
    {
      plugins := [];
      PendingIsUnallowed(initial, calls);
      var unseen := pendingPlugins.Keys;
      while unseen != {}
        invariant unseen <= pendingPlugins.Keys
        invariant forall p :: p in plugins <==> p in pendingPlugins && p !in unseen
        invariant forall i, j :: 0 <= i < j < |plugins| ==> plugins[i] != plugins[j]
      {
        var p :| p in unseen;
        plugins := plugins + [p];
        unseen := unseen - {p};
      }
    }
  }
}

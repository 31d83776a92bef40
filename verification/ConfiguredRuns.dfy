/** Whole runs of the scheduler with the plugins it is started with. */
module ConfiguredRuns {
  import opened Framework
  import opened Filtering
  import opened WaitingPods
  import opened SchedulingCycle
  import opened System
  import opened BindingSafety
  import opened DigitChoice
  import opened NodeNumber

  /** The pod's name ends in a digit, the node was listed and fits and ends in that digit if any such node does, and
      NodeNumber has allowed the pod if the node ends in a digit. */
  ghost predicate DigitBinding(filters: seq<FilterPlugin>, s: State, c: Cycle) {
    && c.attempt.listed.Some?
    && EndsInDigit(c.attempt.pod.name)
    && (exists i :: 0 <= i < |c.attempt.listed.value| && c.attempt.listed.value[i].name == c.node
                    && Fits(filters, c.attempt.pod, c.attempt.listed.value[i]))
    && (forall k: nat, i :: EndsIn(c.attempt.pod.name, k) && 0 <= i < |c.attempt.listed.value|
                            && EndsIn(c.attempt.listed.value[i].name, k)
                            && Fits(filters, c.attempt.pod, c.attempt.listed.value[i])
                            ==> EndsIn(c.node, k))
    && (EndsInDigit(c.node) ==>
          c.permit.Some? && c.permit.value in s.waiters && "NodeNumber" in Allowed(s.waiters[c.permit.value].calls))
  }

  lemma DecidedByDigit(filters: seq<FilterPlugin>, a: Attempt)
    requires Decide(Configured(filters), a).Proceed?
    ensures a.listed.Some? && Feasible(filters, a.pod, a.listed.value) != [] && EndsInDigit(a.pod.name)
  {
    ProceedsIffDigit(filters, a);
  }

  /** The feasible list and the listed nodes that fit have the same members. */
  lemma FeasibleAreFitting(filters: seq<FilterPlugin>, pod: Pod, nodes: seq<Node>, node: Node)
    ensures node in Feasible(filters, pod, nodes) <==> node in nodes && Fits(filters, pod, node)
  {
    FeasibleIsSubsequence(filters, pod, nodes);
    var at, feasible := FeasibleAt(filters, pod, nodes), Feasible(filters, pod, nodes);
    if node in feasible {
      var m :| 0 <= m < |feasible| && feasible[m] == node;
      assert at[m] in at;
    }
    if node in nodes && Fits(filters, pod, node) {
      var i :| 0 <= i < |nodes| && nodes[i] == node;
      assert i in at;
    }
  }

  /** What the digits make of a decision to proceed. */
  lemma ProceedsByDigit(filters: seq<FilterPlugin>, a: Attempt)
    requires Decide(Configured(filters), a).Proceed?
    ensures
      var d := Decide(Configured(filters), a);
      && a.listed.Some?
      && (exists i :: 0 <= i < |a.listed.value| && a.listed.value[i].name == d.node
                      && Fits(filters, a.pod, a.listed.value[i]))
      && (forall k: nat, i :: EndsIn(a.pod.name, k) && 0 <= i < |a.listed.value|
                              && EndsIn(a.listed.value[i].name, k) && Fits(filters, a.pod, a.listed.value[i])
                              ==> EndsIn(d.node, k))
      && (EndsInDigit(d.node) ==> "NodeNumber" in d.waits)
  {
    DecidedByDigit(filters, a);
    DigitNodeIsChosen(filters, a);
    var nodes, d := a.listed.value, Decide(Configured(filters), a);
    var feasible := Feasible(filters, a.pod, nodes);
    var m :| 0 <= m < |feasible| && feasible[m].name == d.node;
    FeasibleAreFitting(filters, a.pod, nodes, feasible[m]);
    var at :| 0 <= at < |nodes| && nodes[at] == feasible[m];
    forall k: nat, i | EndsIn(a.pod.name, k) && 0 <= i < |nodes| && EndsIn(nodes[i].name, k)
                       && Fits(filters, a.pod, nodes[i])
      ensures EndsIn(d.node, k)
    {
      FeasibleAreFitting(filters, a.pod, nodes, nodes[i]);
      var n :| 0 <= n < |feasible| && feasible[n] == nodes[i];
    }
  }

  /** In every state of every run each bound pod ends in a digit and was bound by it. */
  lemma ConfiguredBindings(filters: seq<FilterPlugin>, events: EventMap, run: seq<Label>, i: nat)
    requires Legal(Running(Configured(filters), events), run)
    requires i < |After(Running(Configured(filters), events), run).bound|
    ensures var s := After(Running(Configured(filters), events), run);
            DigitBinding(filters, s, s.bound[i])
  {
    var cfg := Running(Configured(filters), events);
    RunSafe(cfg, run);
    var s := After(cfg, run);
    var c := s.bound[i];
    assert Backed(cfg, s, c) && Cleared(s, c);
    ClearedIsRight(Configured(filters), events, s, c);
    DecidedByDigit(filters, c.attempt);
    ProceedsByDigit(filters, c.attempt);
  }
}

/** The scheduling cycle with the plugins the scheduler is started with: any filters, and NodeNumber everywhere else. */
module DigitChoice {
  import opened Framework
  import opened Filtering
  import opened Scoring
  import opened Normalizing
  import opened HostSelection
  import opened Permitting
  import opened SchedulingCycle
  import opened NodeNumber

  function Configured(filters: seq<FilterPlugin>): Profile {
    Profile(filters, [PRE_SCORE], [SCORE], [PERMIT])
  }

  /** The score NodeNumber gives a node for a pod ending in digit `d`. */
  function DigitScore(d: nat, node: Node): int {
    if EndsIn(node.name, d) then 10 else 0
  }

  lemma PreScoreWritesDigit(pod: Pod, feasible: seq<Node>)
    ensures PreScored([PRE_SCORE], NO_STATE, pod, feasible)
         == match LastDigit(pod.name)
            case None => (NO_STATE, PASSED)
            case Some(d) => (NO_STATE[STATE_KEY := d], PASSED)
  {
    assert [PRE_SCORE][..0] == [];
    assert PreScored([], NO_STATE, pod, feasible) == (NO_STATE, PASSED);
  }

  lemma {:induction false} DigitColumn(c: Cycle, d: nat, nodes: seq<Node>, i: nat)
    requires i <= |nodes| && STATE_KEY in c.state && c.state[STATE_KEY] == d
    ensures Column(c, SCORE, nodes, i).Ok?
    ensures forall k :: 0 <= k < i ==>
              Column(c, SCORE, nodes, i).value[k] == NodeScore(nodes[k].name, DigitScore(d, nodes[k]))
  {
    if i > 0 {
      LastDigitIsCharacter(nodes[i - 1].name);
      DigitColumn(c, d, nodes, i - 1);
    }
  }

  lemma {:induction false} NoDigitColumn(c: Cycle, nodes: seq<Node>, i: nat)
    requires 0 < i <= |nodes| && STATE_KEY !in c.state
    ensures Column(c, SCORE, nodes, i).Err?
  {
    if i > 1 {
      NoDigitColumn(c, nodes, i - 1);
    }
  }

  /** The totals the choice is made from are the digit scores, and they exist exactly for pods that end in a digit. */
  lemma TotalsAreDigitScores(filters: seq<FilterPlugin>, a: Attempt)
    requires a.listed.Some? && Feasible(filters, a.pod, a.listed.value) != []
    ensures
      var feasible, totals := Feasible(filters, a.pod, a.listed.value), TotalsOf(Configured(filters), a);
      && (totals.Some? <==> EndsInDigit(a.pod.name))
      && (totals.Some? ==> |totals.value| == |feasible|)
      && forall d: nat, i :: EndsIn(a.pod.name, d) && 0 <= i < |feasible| ==>
           totals.value[i] == NodeScore(feasible[i].name, DigitScore(d, feasible[i]))
  {
    var feasible := Feasible(filters, a.pod, a.listed.value);
    PreScoreWritesDigit(a.pod, feasible);
    LastDigitIsCharacter(a.pod.name);
    var c := Cycle(StateAfterPreScore(Configured(filters), a.pod, feasible), a.pod);
    TotalsBySum(c, [SCORE], feasible);
    match LastDigit(a.pod.name) {
      case None =>
        NoDigitColumn(c, feasible, |feasible|);
      case Some(d) =>
        DigitColumn(c, d, feasible, |feasible|);
        forall i | 0 <= i < |feasible| ensures PluginSum(c, [SCORE], feasible, i, 1) == DigitScore(d, feasible[i]) {
          assert PluginSum(c, [SCORE], feasible, i, 0) == 0;
        }
    }
  }

  lemma AskNodeNumber(state: CycleState, pod: Pod, node: string)
    ensures Ask([PERMIT], state, pod, node)
         == if LastDigit(node).None? then Granted else MustWait(map[NAME := PERMIT_TIMEOUT])
  {
    assert [PERMIT][..0] == [];
    assert Ask([], state, pod, node) == Granted;
  }

  /** With a feasible node, the cycle proceeds exactly when the pod's name ends in a digit; otherwise scoring fails
      and nobody is blamed. */
  lemma ProceedsIffDigit(filters: seq<FilterPlugin>, a: Attempt)
    requires a.listed.Some? && Feasible(filters, a.pod, a.listed.value) != []
    ensures Decide(Configured(filters), a).Proceed? <==> EndsInDigit(a.pod.name)
    ensures !EndsInDigit(a.pod.name) ==> Decide(Configured(filters), a) == GiveUp({})
  {
    TotalsAreDigitScores(filters, a);
    if EndsInDigit(a.pod.name) {
      var node := Chosen(Configured(filters), a);
      AskNodeNumber(StateAfterPreScore(Configured(filters), a.pod, Feasible(filters, a.pod, a.listed.value)), a.pod,
                    node);
    }
  }

  /** For every sequence of draws a feasible node is chosen, and one ending in the pod's digit if there is any.
      Its own digit decides whether, and on whom, the binding has to wait. */
  lemma DigitNodeIsChosen(filters: seq<FilterPlugin>, a: Attempt)
    requires a.listed.Some? && Feasible(filters, a.pod, a.listed.value) != [] && EndsInDigit(a.pod.name)
    ensures
      var feasible := Feasible(filters, a.pod, a.listed.value);
      var d := Decide(Configured(filters), a);
      && d.Proceed?
      && (exists i :: 0 <= i < |feasible| && feasible[i].name == d.node)
      && (forall k: nat, i :: EndsIn(a.pod.name, k) && 0 <= i < |feasible| && EndsIn(feasible[i].name, k) ==>
            EndsIn(d.node, k))
      && d.waits == if EndsInDigit(d.node) then map["NodeNumber" := 10_000_000_000] else map[]
  {
    var pf := Configured(filters);
    var feasible := Feasible(filters, a.pod, a.listed.value);
    TotalsAreDigitScores(filters, a);
    var totals := TotalsOf(pf, a).value;
    var p := Pick(totals, a.draws);
    PickIsBest(totals, a.draws);
    assert EndsIn(a.pod.name, LastDigit(a.pod.name).value) by {
      LastDigitIsCharacter(a.pod.name);
    }
    assert totals[p].name == feasible[p].name == Chosen(pf, a);
    AskNodeNumber(StateAfterPreScore(pf, a.pod, feasible), a.pod, feasible[p].name);
    LastDigitIsCharacter(feasible[p].name);
    forall k: nat, i | EndsIn(a.pod.name, k) && 0 <= i < |feasible| && EndsIn(feasible[i].name, k)
      ensures EndsIn(feasible[p].name, k)
    {
      assert totals[i].score <= totals[p].score;
    }
  }
}

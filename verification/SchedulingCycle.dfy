/** One pass of scheduleOne from the node list to the permit plugins (minisched/minisched.go). */
module SchedulingCycle {
  import opened Framework
  import opened Filtering
  import opened Scoring
  import opened HostSelection
  import opened Permitting

  datatype Profile = Profile(filters: seq<FilterPlugin>, preScores: seq<PreScorePlugin>,
                             scores: seq<ScorePlugin>, permits: seq<PermitPlugin>)

  /** What one cycle works on: the pod, the listed nodes (none when listing failed) and the random draws. */
  datatype Attempt = Attempt(pod: Pod, listed: Option<seq<Node>>, draws: seq<nat>)

  /** Either the pod goes back to the queue naming these plugins, or a binding cycle starts. */
  datatype Decision = GiveUp(unschedulablePlugins: set<string>) | Proceed(node: string, waits: map<string, int>)

  const NO_STATE: CycleState := map[]

  function StateAfterPreScore(pf: Profile, pod: Pod, feasible: seq<Node>): CycleState {
    PreScored(pf.preScores, NO_STATE, pod, feasible).0
  }

  /** The totals the choice is made from, if the cycle gets that far. */
  ghost function TotalsOf(pf: Profile, a: Attempt): Option<seq<NodeScore>> {
    if a.listed.None? then None
    else
      var feasible := Feasible(pf.filters, a.pod, a.listed.value);
      if feasible == [] || !PreScored(pf.preScores, NO_STATE, a.pod, feasible).1.IsSuccess() then None
      else
        match Scored(Cycle(StateAfterPreScore(pf, a.pod, feasible), a.pod), pf.scores, feasible)
        case Err(_) => None
        case Ok(totals) => Some(totals)
  }

  /** The draws are ones the random source can produce for these totals. */
  ghost predicate Drawable(pf: Profile, a: Attempt) {
    match TotalsOf(pf, a)
    case None => true
    case Some(totals) => totals != [] ==> a.draws in DrawSpace(totals)
  }

  /** The plugins recorded when the cycle fails: those of a fit error, and none for any other failure. */
  ghost function Blamed(pf: Profile, a: Attempt): set<string> {
    if a.listed.Some? && Feasible(pf.filters, a.pod, a.listed.value) == [] then
      Rejecters(pf.filters, a.pod, a.listed.value)
    else {}
  }

  ghost function Chosen(pf: Profile, a: Attempt): string
    requires TotalsOf(pf, a).Some? && TotalsOf(pf, a).value != []
  {
    var totals := TotalsOf(pf, a).value;
    totals[Pick(totals, a.draws)].name
  }

  ghost function PermissionFor(pf: Profile, a: Attempt, node: string): Permission
    requires a.listed.Some?
  {
    Ask(pf.permits, StateAfterPreScore(pf, a.pod, Feasible(pf.filters, a.pod, a.listed.value)), a.pod, node)
  }

  ghost function Decide(pf: Profile, a: Attempt): Decision {
    match TotalsOf(pf, a)
    case None => GiveUp(Blamed(pf, a))
    case Some(totals) =>
      if totals == [] then GiveUp({})
      else
        match PermissionFor(pf, a, Chosen(pf, a))
        case Refused(_) => GiveUp({})
        case MustWait(waits) => Proceed(Chosen(pf, a), waits)
        case Granted => Proceed(Chosen(pf, a), map[])
  }

  method RunCycle(pf: Profile, a: Attempt) returns (d: Decision)
    requires Drawable(pf, a)
    ensures d == Decide(pf, a)
  {
    if a.listed.None? {
      return GiveUp({});
    }
    var feasible, err := RunFilterPlugins(pf.filters, a.pod, a.listed.value);
    if err.Some? {
      return GiveUp(err.value.unschedulablePlugins);
    }
    var state, status := RunPreScorePlugins(pf.preScores, NO_STATE, a.pod, feasible);
    if !status.IsSuccess() {
      return GiveUp({});
    }
    var score := RunScorePlugins(Cycle(state, a.pod), pf.scores, feasible);
    if score.Err? {
      return GiveUp({});
    }
    var host := SelectHost(score.value, a.draws);
    if host.Err? {
      return GiveUp({});
    }
    var permission := RunPermitPlugins(pf.permits, state, a.pod, host.value);
    match permission
    case Refused(_) => return GiveUp({});
    case MustWait(waits) => return Proceed(host.value, waits);
    case Granted => return Proceed(host.value, map[]);
  }

  // ---- What a decision is worth ----

  /** Listing worked, every filter accepts one of the nodes, and pre-scoring and scoring succeed. */
  ghost predicate ReachesSelection(pf: Profile, a: Attempt) {
    && a.listed.Some?
    && (exists i :: 0 <= i < |a.listed.value| && Fits(pf.filters, a.pod, a.listed.value[i]))
    && PreScoreOf(pf, a).1.code == Success
    && ScoresOf(pf, a).Ok?
  }

  /** What pre-scoring the feasible nodes, from an empty cycle state, leaves. */
  ghost function PreScoreOf(pf: Profile, a: Attempt): (CycleState, Status)
    requires a.listed.Some?
  {
    PreScored(pf.preScores, map[], a.pod, Feasible(pf.filters, a.pod, a.listed.value))
  }

  /** The feasible nodes' scores, given that state. */
  ghost function ScoresOf(pf: Profile, a: Attempt): Result<seq<NodeScore>, Status>
    requires a.listed.Some?
  {
    Scored(Cycle(PreScoreOf(pf, a).0, a.pod), pf.scores, Feasible(pf.filters, a.pod, a.listed.value))
  }

  /** The node's name at the position that the attempt's own draws pick among those scores. */
  ghost predicate Selected(pf: Profile, a: Attempt, node: string)
    requires ReachesSelection(pf, a)
  {
    ScoresOf(pf, a).value != [] && node == ScoresOf(pf, a).value[Pick(ScoresOf(pf, a).value, a.draws)].name
  }

  /** Entry `i` of the feasible list is a best-scored node that every filter accepts. */
  ghost predicate BestFeasible(pf: Profile, a: Attempt, i: nat)
    requires a.listed.Some? && ScoresOf(pf, a).Ok?
  {
    var feasible, totals := Feasible(pf.filters, a.pod, a.listed.value), ScoresOf(pf, a).value;
    && i < |feasible| == |totals|
    && feasible[i] in a.listed.value
    && Fits(pf.filters, a.pod, feasible[i])
    && forall j :: 0 <= j < |totals| ==> totals[j].score <= totals[i].score
  }

  /** The node was rightly chosen, by the draws, nobody denied it, and exactly the plugins that asked are waited for. */
  ghost predicate Sound(pf: Profile, a: Attempt, node: string, waits: map<string, int>) {
    && ReachesSelection(pf, a) && Selected(pf, a, node)
    && (exists i: nat :: BestFeasible(pf, a, i) && Feasible(pf.filters, a.pod, a.listed.value)[i].name == node)
    && (forall j :: 0 <= j < |pf.permits| ==> !Denies(pf.permits[j], PreScoreOf(pf, a).0, a.pod, node))
    && (forall name :: name in waits <==> SomeoneAsks(pf.permits, PreScoreOf(pf, a).0, a.pod, node, name))
  }

  lemma FeasibleFits(pf: Profile, a: Attempt, i: nat)
    requires a.listed.Some? && i < |Feasible(pf.filters, a.pod, a.listed.value)|
    ensures var node := Feasible(pf.filters, a.pod, a.listed.value)[i];
            node in a.listed.value && Fits(pf.filters, a.pod, node)
  {
    FeasibleIsSubsequence(pf.filters, a.pod, a.listed.value);
    var at := FeasibleAt(pf.filters, a.pod, a.listed.value);
    assert at[i] in at;
  }

  lemma FeasibleIff(pf: Profile, pod: Pod, nodes: seq<Node>)
    ensures Feasible(pf.filters, pod, nodes) != []
       <==> exists i :: 0 <= i < |nodes| && Fits(pf.filters, pod, nodes[i])
  {
    var at := FeasibleAt(pf.filters, pod, nodes);
    FeasibleIsSubsequence(pf.filters, pod, nodes);
    if Feasible(pf.filters, pod, nodes) != [] {
      assert at[0] in at;
    }
    if i :| 0 <= i < |nodes| && Fits(pf.filters, pod, nodes[i]) {
      assert i in at;
    }
  }

  /** There is something to select from exactly when every earlier phase succeeded: those scores, one for each feasible
      node. */
  lemma TotalsIff(pf: Profile, a: Attempt)
    ensures ReachesSelection(pf, a) <==> TotalsOf(pf, a).Some?
    ensures TotalsOf(pf, a).Some? ==>
              && TotalsOf(pf, a).value == ScoresOf(pf, a).value
              && |TotalsOf(pf, a).value| == |Feasible(pf.filters, a.pod, a.listed.value)| > 0
  {
    if a.listed.Some? {
      FeasibleIff(pf, a.pod, a.listed.value);
    }
  }

  /** A cycle that proceeds has chosen soundly, whatever the plugins and the draws. */
  lemma ProceedIsSound(pf: Profile, a: Attempt)
    requires Decide(pf, a).Proceed?
    ensures Sound(pf, a, Decide(pf, a).node, Decide(pf, a).waits)
  {
    TotalsIff(pf, a);
    var feasible, totals := Feasible(pf.filters, a.pod, a.listed.value), TotalsOf(pf, a).value;
    var i := Pick(totals, a.draws);
    PickIsBest(totals, a.draws);
    FeasibleFits(pf, a, i);
    assert feasible[i].name == totals[i].name == Decide(pf, a).node;
    assert BestFeasible(pf, a, i);
    AskMeans(pf.permits, PreScoreOf(pf, a).0, a.pod, feasible[i].name);
  }

  /** A cycle proceeds exactly when the nodes were listed, every filter accepts one of them, pre-scoring and scoring
      succeed, and no permit plugin denies the selected node. */
  lemma ProceedsIff(pf: Profile, a: Attempt)
    ensures
      Decide(pf, a).Proceed?
      <==> && ReachesSelection(pf, a)
           && exists node :: Selected(pf, a, node)
                && forall j :: 0 <= j < |pf.permits| ==> !Denies(pf.permits[j], PreScoreOf(pf, a).0, a.pod, node)
  {
    TotalsIff(pf, a);
    if TotalsOf(pf, a).Some? {
      assert Selected(pf, a, Chosen(pf, a));
      AskMeans(pf.permits, PreScoreOf(pf, a).0, a.pod, Chosen(pf, a));
    }
  }
}

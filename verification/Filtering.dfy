/** Which nodes can take a pod, and which plugins say no (RunFilterPlugins in minisched/minisched.go). */
module Filtering {
  import opened Framework

  /** The pod does not fit anywhere; the plugins that rejected nodes. */
  datatype FitError = FitError(pod: Pod, unschedulablePlugins: set<string>)

  predicate Accepts(pl: FilterPlugin, pod: Pod, node: Node) {
    pl.filter(pod, node).IsSuccess()
  }

  predicate AcceptedByAll(plugins: seq<FilterPlugin>, pod: Pod, node: Node) {
    forall j :: 0 <= j < |plugins| ==> Accepts(plugins[j], pod, node)
  }

  /** Plugin `j` is the first to turn the node down. */
  predicate FirstToReject(plugins: seq<FilterPlugin>, pod: Pod, node: Node, j: nat)
    requires j < |plugins|
  {
    !Accepts(plugins[j], pod, node) && forall k :: 0 <= k < j ==> Accepts(plugins[k], pod, node)
  }

  /** The nodes every plugin accepts, in their order. */
  function Feasible(plugins: seq<FilterPlugin>, pod: Pod, nodes: seq<Node>): seq<Node> {
    if nodes == [] then []
    else
      var last := |nodes| - 1;
      Feasible(plugins, pod, nodes[..last]) + if AcceptedByAll(plugins, pod, nodes[last]) then [nodes[last]] else []
  }

  /** The names of the plugins that were first to reject some node. */
  ghost function Rejecters(plugins: seq<FilterPlugin>, pod: Pod, nodes: seq<Node>): set<string> {
    set i, j | 0 <= i < |nodes| && 0 <= j < |plugins| && FirstToReject(plugins, pod, nodes[i], j) :: plugins[j].name
  }

  /** The set of plugins an attempt leaves behind: empty when some node is feasible. */
  ghost function FilterFailure(plugins: seq<FilterPlugin>, pod: Pod, nodes: seq<Node>): Option<FitError> {
    if Feasible(plugins, pod, nodes) == [] then Some(FitError(pod, Rejecters(plugins, pod, nodes))) else None
  }

  // ---- The same, spelled out by status codes ----

  /** Every plugin's answer for the node is success. */
  ghost predicate Fits(plugins: seq<FilterPlugin>, pod: Pod, node: Node) {
    forall j :: 0 <= j < |plugins| ==> plugins[j].filter(pod, node).code == Success
  }

  /** The first answer for some node that is not success comes from a plugin of this name. */
  ghost predicate RejectsFirst(plugins: seq<FilterPlugin>, pod: Pod, nodes: seq<Node>, name: string) {
    exists i, j :: 0 <= i < |nodes| && 0 <= j < |plugins| && plugins[j].name == name
      && plugins[j].filter(pod, nodes[i]).code != Success
      && forall k :: 0 <= k < j ==> plugins[k].filter(pod, nodes[i]).code == Success
  }

  lemma AcceptedIffFits(plugins: seq<FilterPlugin>, pod: Pod, node: Node)
    ensures AcceptedByAll(plugins, pod, node) <==> Fits(plugins, pod, node)
  {
    assert forall j :: 0 <= j < |plugins| ==>
                         (Accepts(plugins[j], pod, node) <==> plugins[j].filter(pod, node).code == Success);
  }

  lemma RejectersReject(plugins: seq<FilterPlugin>, pod: Pod, nodes: seq<Node>, name: string)
    ensures name in Rejecters(plugins, pod, nodes) <==> RejectsFirst(plugins, pod, nodes, name)
  {
    forall i, j | 0 <= i < |nodes| && 0 <= j < |plugins|
      ensures FirstToReject(plugins, pod, nodes[i], j)
         <==> && plugins[j].filter(pod, nodes[i]).code != Success
              && forall k :: 0 <= k < j ==> plugins[k].filter(pod, nodes[i]).code == Success
    {
      assert forall k :: 0 <= k < j ==>
                           (Accepts(plugins[k], pod, nodes[i]) <==> plugins[k].filter(pod, nodes[i]).code == Success);
    }
  }

  /** A fit error is reported exactly when no node fits, and names exactly the plugins that were first to reject. */
  lemma FailureMeans(plugins: seq<FilterPlugin>, pod: Pod, nodes: seq<Node>)
    ensures var err := FilterFailure(plugins, pod, nodes);
            && (err.Some? <==> forall i :: 0 <= i < |nodes| ==> !Fits(plugins, pod, nodes[i]))
            && (err.Some? ==> err.value.pod == pod)
            && (err.Some? ==> forall name :: name in err.value.unschedulablePlugins
                                             <==> RejectsFirst(plugins, pod, nodes, name))
  {
    FeasibleIsSubsequence(plugins, pod, nodes);
    var at := FeasibleAt(plugins, pod, nodes);
    if at != [] {
      assert at[0] in at;
    }
    forall name ensures name in Rejecters(plugins, pod, nodes) <==> RejectsFirst(plugins, pod, nodes, name) {
      RejectersReject(plugins, pod, nodes, name);
    }
  }

  method RunFilterPlugins(plugins: seq<FilterPlugin>, pod: Pod, nodes: seq<Node>)
    returns (feasible: seq<Node>, err: Option<FitError>)
    ensures feasible == Feasible(plugins, pod, nodes)
    ensures err == FilterFailure(plugins, pod, nodes)
    ensures err.Some? <==> forall i :: 0 <= i < |nodes| ==> !Fits(plugins, pod, nodes[i])
    ensures err.Some? ==> forall name :: name in err.value.unschedulablePlugins
                                         <==> RejectsFirst(plugins, pod, nodes, name)
  {
    feasible := [];
    var unschedulablePlugins: set<string> := {};
    for i := 0 to |nodes|
      invariant feasible == Feasible(plugins, pod, nodes[..i])
      invariant unschedulablePlugins == Rejecters(plugins, pod, nodes[..i])
    {
      ghost var before := unschedulablePlugins;
      var status := PASSED;
      for j := 0 to |plugins|
        invariant forall k :: 0 <= k < j ==> Accepts(plugins[k], pod, nodes[i])
        invariant status.IsSuccess() && unschedulablePlugins == before
      {
        status := plugins[j].filter(pod, nodes[i]);
        if !status.IsSuccess() {
          unschedulablePlugins := unschedulablePlugins + {plugins[j].name};
          assert FirstToReject(plugins, pod, nodes[i], j);
          break;
        }
      }
      if status.IsSuccess() {
        feasible := feasible + [nodes[i]];
      }
      assert nodes[..i + 1][..i] == nodes[..i];
      RejectersStep(plugins, pod, nodes[..i], nodes[i]);
      assert nodes[..i + 1] == nodes[..i] + [nodes[i]];
    }
    assert nodes[..|nodes|] == nodes;
    if |feasible| == 0 {
      err := Some(FitError(pod, unschedulablePlugins));
    } else {
      err := None;
    }
    FailureMeans(plugins, pod, nodes);
  }

  lemma RejectersStep(plugins: seq<FilterPlugin>, pod: Pod, nodes: seq<Node>, node: Node)
    ensures forall j :: 0 <= j < |plugins| && FirstToReject(plugins, pod, node, j) ==>
              Rejecters(plugins, pod, nodes + [node]) == Rejecters(plugins, pod, nodes) + {plugins[j].name}
    ensures AcceptedByAll(plugins, pod, node) ==>
              Rejecters(plugins, pod, nodes + [node]) == Rejecters(plugins, pod, nodes)
  {
    var extended := nodes + [node];
    forall x | x in Rejecters(plugins, pod, nodes) ensures x in Rejecters(plugins, pod, extended) {
      var i, j :| 0 <= i < |nodes| && 0 <= j < |plugins|
                  && FirstToReject(plugins, pod, nodes[i], j) && plugins[j].name == x;
      assert extended[i] == nodes[i];
    }
    forall x | x in Rejecters(plugins, pod, extended)
      ensures || x in Rejecters(plugins, pod, nodes)
              || exists j :: 0 <= j < |plugins| && FirstToReject(plugins, pod, node, j) && plugins[j].name == x
    {
      var i, j :| 0 <= i < |extended| && 0 <= j < |plugins|
                  && FirstToReject(plugins, pod, extended[i], j) && plugins[j].name == x;
      if i < |nodes| {
        assert extended[i] == nodes[i];
      }
    }
    forall j | 0 <= j < |plugins| && FirstToReject(plugins, pod, node, j)
      ensures plugins[j].name in Rejecters(plugins, pod, extended)
    {
      assert extended[|nodes|] == node;
    }
  }

  // ---- What the feasible list is ----

  /** The positions of the feasible nodes, increasing. */
  function FeasibleAt(plugins: seq<FilterPlugin>, pod: Pod, nodes: seq<Node>): seq<nat> {
    if nodes == [] then []
    else
      var last := |nodes| - 1;
      FeasibleAt(plugins, pod, nodes[..last]) + if AcceptedByAll(plugins, pod, nodes[last]) then [last] else []
  }

  /** `at` lists the accepted positions in order, and `feasible` the nodes there. */
  ghost predicate Selects(plugins: seq<FilterPlugin>, pod: Pod, nodes: seq<Node>, at: seq<nat>, feasible: seq<Node>) {
    && |at| == |feasible|
    && (forall m :: 0 <= m < |at| ==> at[m] < |nodes| && feasible[m] == nodes[at[m]])
    && (forall m, n :: 0 <= m < n < |at| ==> at[m] < at[n])
    && (forall i :: 0 <= i < |nodes| ==> (i in at <==> Fits(plugins, pod, nodes[i])))
  }

  lemma SelectsAccepted(plugins: seq<FilterPlugin>, pod: Pod, nodes: seq<Node>, at: seq<nat>, feasible: seq<Node>,
                        node: Node)
    requires Selects(plugins, pod, nodes, at, feasible) && Fits(plugins, pod, node)
    ensures Selects(plugins, pod, nodes + [node], at + [|nodes|], feasible + [node])
  {
    var longer := at + [|nodes|];
    forall i | 0 <= i < |nodes| ensures i in longer <==> i in at {
    }
    assert longer[|at|] == |nodes|;
  }

  lemma SelectsRejected(plugins: seq<FilterPlugin>, pod: Pod, nodes: seq<Node>, at: seq<nat>, feasible: seq<Node>,
                        node: Node)
    requires Selects(plugins, pod, nodes, at, feasible) && !Fits(plugins, pod, node)
    ensures Selects(plugins, pod, nodes + [node], at, feasible)
  {
    assert forall m :: 0 <= m < |at| ==> at[m] < |nodes|;
    assert |nodes| !in at;
  }

  /** The feasible list is the subsequence of exactly the accepted positions, in the snapshot's order. */
  lemma FeasibleIsSubsequence(plugins: seq<FilterPlugin>, pod: Pod, nodes: seq<Node>)
    ensures
      var at, feasible := FeasibleAt(plugins, pod, nodes), Feasible(plugins, pod, nodes);
      && |at| == |feasible|
      && (forall m :: 0 <= m < |at| ==> at[m] < |nodes| && feasible[m] == nodes[at[m]])
      && (forall m, n :: 0 <= m < n < |at| ==> at[m] < at[n])
      && (forall i :: 0 <= i < |nodes| ==> (i in at <==> Fits(plugins, pod, nodes[i])))
  {
    FeasibleSelects(plugins, pod, nodes);
  }

  lemma {:induction false} FeasibleSelects(plugins: seq<FilterPlugin>, pod: Pod, nodes: seq<Node>)
    ensures Selects(plugins, pod, nodes, FeasibleAt(plugins, pod, nodes), Feasible(plugins, pod, nodes))
  {
    if nodes != [] {
      var front, node := nodes[..|nodes| - 1], nodes[|nodes| - 1];
      var at, feasible := FeasibleAt(plugins, pod, front), Feasible(plugins, pod, front);
      FeasibleSelects(plugins, pod, front);
      AcceptedIffFits(plugins, pod, node);
      assert nodes == front + [node] && at + [] == at && feasible + [] == feasible;
      if AcceptedByAll(plugins, pod, node) {
        SelectsAccepted(plugins, pod, front, at, feasible, node);
      } else {
        SelectsRejected(plugins, pod, front, at, feasible, node);
      }
    }
  }

  lemma FirstRejecterExists(plugins: seq<FilterPlugin>, pod: Pod, node: Node) returns (j: nat)
    requires !Fits(plugins, pod, node)
    ensures j < |plugins| && plugins[j].filter(pod, node).code != Success
    ensures forall k :: 0 <= k < j ==> plugins[k].filter(pod, node).code == Success
  {
    j := 0;
    while plugins[j].filter(pod, node).code == Success
      invariant j < |plugins|
      invariant forall k :: 0 <= k < j ==> plugins[k].filter(pod, node).code == Success
      decreases |plugins| - j
    {
      assert j + 1 < |plugins|;
      j := j + 1;
    }
  }

  /** When nothing fits, the error names a plugin exactly when there was a node to reject. */
  lemma FitErrorNamesPlugins(plugins: seq<FilterPlugin>, pod: Pod, nodes: seq<Node>)
    requires Feasible(plugins, pod, nodes) == []
    ensures Rejecters(plugins, pod, nodes) != {} <==> nodes != []
  {
    FeasibleIsSubsequence(plugins, pod, nodes);
    if nodes != [] {
      assert 0 !in FeasibleAt(plugins, pod, nodes);
      var j := FirstRejecterExists(plugins, pod, nodes[0]);
      assert RejectsFirst(plugins, pod, nodes, plugins[j].name);
      RejectersReject(plugins, pod, nodes, plugins[j].name);
    }
  }
}

/** Scoring the feasible nodes (RunPreScorePlugins and RunScorePlugins in minisched/minisched.go). */
module Scoring {
  import opened Framework

  // ---- Pre-scoring ----

  /** The pre-score plugins run in order; each may write to the cycle state, and the first failure ends the phase. */
  function PreScored(plugins: seq<PreScorePlugin>, state: CycleState, pod: Pod, nodes: seq<Node>)
    : (CycleState, Status)
  {
    if plugins == [] then (state, PASSED)
    else
      var last := |plugins| - 1;
      var (before, status) := PreScored(plugins[..last], state, pod, nodes);
      if !status.IsSuccess() then (before, status) else
      var (after, answer) := plugins[last].preScore(before, pod, nodes);
      if answer.IsSuccess() then (after, PASSED) else (after, answer)
  }

  lemma {:induction false} PreScoreStops(plugins: seq<PreScorePlugin>, state: CycleState, pod: Pod, nodes: seq<Node>,
                                         n: nat)
    requires n <= |plugins| && !PreScored(plugins[..n], state, pod, nodes).1.IsSuccess()
    ensures PreScored(plugins, state, pod, nodes) == PreScored(plugins[..n], state, pod, nodes)
  {
    if n == |plugins| {
      assert plugins[..n] == plugins;
    } else {
      var last := |plugins| - 1;
      assert plugins[..last][..n] == plugins[..n];
      PreScoreStops(plugins[..last], state, pod, nodes, n);
    }
  }

  method RunPreScorePlugins(plugins: seq<PreScorePlugin>, state: CycleState, pod: Pod, nodes: seq<Node>)
    returns (written: CycleState, status: Status)
    ensures (written, status) == PreScored(plugins, state, pod, nodes)
  {
    written := state;
    for i := 0 to |plugins|
      invariant (written, PASSED) == PreScored(plugins[..i], state, pod, nodes)
    {
      assert plugins[..i + 1][..i] == plugins[..i];
      var (after, answer) := plugins[i].preScore(written, pod, nodes);
      written := after;
      if !answer.IsSuccess() {
        PreScoreStops(plugins, state, pod, nodes, i + 1);
        return written, answer;
      }
    }
    assert plugins[..|plugins|] == plugins;
    return written, PASSED;
  }

  /** The cycle state before each plugin and after the last: `states[i]` is what plugin `i` is given. */
  ghost predicate Threads(plugins: seq<PreScorePlugin>, pod: Pod, nodes: seq<Node>, states: seq<CycleState>) {
    && |states| == |plugins| + 1
    && forall i :: 0 <= i < |plugins| ==>
         && plugins[i].preScore(states[i], pod, nodes).0 == states[i + 1]
         && plugins[i].preScore(states[i], pod, nodes).1.code == Success
  }

  lemma {:induction false} ThreadsYield(plugins: seq<PreScorePlugin>, pod: Pod, nodes: seq<Node>,
                                        states: seq<CycleState>)
    requires Threads(plugins, pod, nodes, states)
    ensures PreScored(plugins, states[0], pod, nodes) == (states[|plugins|], PASSED)
  {
    if plugins != [] {
      ThreadsYield(plugins[..|plugins| - 1], pod, nodes, states[..|plugins|]);
    }
  }

  lemma {:induction false} SuccessThreads(plugins: seq<PreScorePlugin>, state: CycleState, pod: Pod, nodes: seq<Node>)
    returns (states: seq<CycleState>)
    requires PreScored(plugins, state, pod, nodes).1.code == Success
    ensures Threads(plugins, pod, nodes, states) && states[0] == state
  {
    if plugins == [] {
      states := [state];
    } else {
      var last := |plugins| - 1;
      states := SuccessThreads(plugins[..last], state, pod, nodes);
      ThreadsYield(plugins[..last], pod, nodes, states);
      states := states + [plugins[last].preScore(states[last], pod, nodes).0];
    }
  }

  /** Pre-scoring succeeds exactly when the state can be passed through all plugins in order, and yields what comes
      out. */
  lemma PreScoredThreads(plugins: seq<PreScorePlugin>, state: CycleState, pod: Pod, nodes: seq<Node>)
    ensures PreScored(plugins, state, pod, nodes).1.code == Success
       <==> exists states :: Threads(plugins, pod, nodes, states) && states[0] == state
    ensures forall states :: Threads(plugins, pod, nodes, states) && states[0] == state ==>
              PreScored(plugins, state, pod, nodes) == (states[|plugins|], PASSED)
  {
    forall states | Threads(plugins, pod, nodes, states) && states[0] == state
      ensures PreScored(plugins, state, pod, nodes) == (states[|plugins|], PASSED)
    {
      ThreadsYield(plugins, pod, nodes, states);
    }
    if PreScored(plugins, state, pod, nodes).1.code == Success {
      var states := SuccessThreads(plugins, state, pod, nodes);
    }
  }

  /** The first plugin that fails ends the phase: its status is reported, with the state it left. */
  lemma FirstFailureEnds(plugins: seq<PreScorePlugin>, pod: Pod, nodes: seq<Node>, states: seq<CycleState>, n: nat)
    requires n < |plugins| && Threads(plugins[..n], pod, nodes, states)
    requires plugins[n].preScore(states[n], pod, nodes).1.code != Success
    ensures PreScored(plugins, states[0], pod, nodes) == plugins[n].preScore(states[n], pod, nodes)
  {
    ThreadsYield(plugins[..n], pod, nodes, states);
    assert plugins[..n + 1][..n] == plugins[..n];
    PreScoreStops(plugins, states[0], pod, nodes, n + 1);
  }

  // ---- One plugin's column of scores ----

  /** What a plugin may look at: the cycle state after pre-scoring, and the pod. */
  datatype Cycle = Cycle(state: CycleState, pod: Pod)

  const UNSCORED := NodeScore("", 0)

  function Blank(n: nat): (column: seq<NodeScore>)
    ensures |column| == n
    ensures forall i :: 0 <= i < n ==> column[i] == NodeScore("", 0)
  {
    seq(n, _ => UNSCORED)
  }

  function Normalized(c: Cycle, pl: ScorePlugin, column: seq<NodeScore>): (normal: seq<NodeScore>)
    ensures |normal| == |column|
  {
    match pl.extensions
    case None => column
    case Some(normalizer) =>
      seq(|column|, i requires 0 <= i < |column| => normalizer.entry(c.state, c.pod, column, i))
  }

  /** Entry `i` is scored, and then the whole, still partly empty, column is normalised. */
  function ScoreEntry(c: Cycle, pl: ScorePlugin, column: seq<NodeScore>, i: nat,
                      node: Node): (r: Result<seq<NodeScore>, Status>)
    requires i < |column|
    ensures r.Ok? ==> |r.value| == |column|
  {
    var (score, status) := pl.score(c.state, c.pod, node.name);
    if !status.IsSuccess() then Err(status)
    else
      var scored := column[i := NodeScore(node.name, score)];
      if pl.extensions.Some? && !pl.extensions.value.status(c.state, c.pod, scored).IsSuccess() then
        Err(pl.extensions.value.status(c.state, c.pod, scored))
      else Ok(Normalized(c, pl, scored))
  }

  // ---- The table of all columns ----

  type Table = map<string, seq<NodeScore>>

  function Names(plugins: seq<ScorePlugin>): set<string> {
    set j | 0 <= j < |plugins| :: plugins[j].name
  }

  predicate Shaped(plugins: seq<ScorePlugin>, nodes: seq<Node>, t: Table) {
    && (forall j :: 0 <= j < |plugins| ==> plugins[j].name in t)
    && (forall name :: name in t ==> |t[name]| == |nodes|)
  }

  /** `BlankTable` has one blank column for each plugin name. */
  function BlankTable(plugins: seq<ScorePlugin>, nodes: seq<Node>): (t: Table)
    ensures Shaped(plugins, nodes, t)
    ensures t.Keys == Names(plugins)
  {
    map name | name in Names(plugins) :: Blank(|nodes|)
  }

  /** The first `j` plugins score node `i`. */
  function ScoreRow(c: Cycle, plugins: seq<ScorePlugin>, nodes: seq<Node>, t: Table, i: nat,
                    j: nat): (r: Result<Table, Status>)
    requires Shaped(plugins, nodes, t) && i < |nodes| && j <= |plugins|
    ensures r.Ok? ==> Shaped(plugins, nodes, r.value) && r.value.Keys == t.Keys
  {
    if j == 0 then Ok(t)
    else
      match ScoreRow(c, plugins, nodes, t, i, j - 1)
      case Err(status) => Err(status)
      case Ok(before) =>
        var name := plugins[j - 1].name;
        match ScoreEntry(c, plugins[j - 1], before[name], i, nodes[i])
        case Err(status) => Err(status)
        case Ok(column) => Ok(before[name := column])
  }

  /** The first `i` nodes are scored. */
  function ScoreRows(c: Cycle, plugins: seq<ScorePlugin>, nodes: seq<Node>, i: nat): (r: Result<Table, Status>)
    requires i <= |nodes|
    ensures r.Ok? ==> Shaped(plugins, nodes, r.value)
                      && r.value.Keys == Names(plugins)
  {
    if i == 0 then Ok(BlankTable(plugins, nodes))
    else
      match ScoreRows(c, plugins, nodes, i - 1)
      case Err(status) => Err(status)
      case Ok(t) => ScoreRow(c, plugins, nodes, t, i - 1, |plugins|)
  }

  /** The sum over some columns of the scores at one node. */
  ghost function SumOver(t: Table, names: set<string>, i: nat): int
    requires names <= t.Keys && forall name :: name in t ==> i < |t[name]|
  {
    if names == {} then 0
    else
      var name :| name in names;
      t[name][i].score + SumOver(t, names - {name}, i)
  }

  ghost function Totals(t: Table, nodes: seq<Node>, n: nat): seq<NodeScore>
    requires n <= |nodes| && forall name :: name in t ==> |t[name]| == |nodes|
  {
    seq(n, i requires 0 <= i < n => NodeScore(nodes[i].name, SumOver(t, t.Keys, i)))
  }

  ghost function Scored(c: Cycle, plugins: seq<ScorePlugin>, nodes: seq<Node>): Result<seq<NodeScore>, Status> {
    match ScoreRows(c, plugins, nodes, |nodes|)
    case Err(status) => Err(status)
    case Ok(t) => Ok(Totals(t, nodes, |nodes|))
  }

  method RunScorePlugins(c: Cycle, plugins: seq<ScorePlugin>, nodes: seq<Node>)
    returns (r: Result<seq<NodeScore>, Status>)
    ensures r == Scored(c, plugins, nodes)
  {
    var scoresMap := BlankTable(plugins, nodes);
    for i := 0 to |nodes|
      invariant ScoreRows(c, plugins, nodes, i) == Ok(scoresMap)
    {
      var row := ScoreNode(c, plugins, nodes, scoresMap, i);
      if row.Err? {
        RowsFail(c, plugins, nodes, i + 1, |nodes|);
        return Err(row.error);
      }
      scoresMap := row.value;
    }
    var result := AddUp(scoresMap, nodes);
    return Ok(result);
  }

  /** The inner loop: every plugin scores node `i`. */
  method ScoreNode(c: Cycle, plugins: seq<ScorePlugin>, nodes: seq<Node>, t: Table, i: nat)
    returns (r: Result<Table, Status>)
    requires Shaped(plugins, nodes, t) && i < |nodes|
    ensures r == ScoreRow(c, plugins, nodes, t, i, |plugins|)
  {
    var scoresMap := t;
    for j := 0 to |plugins|
      invariant ScoreRow(c, plugins, nodes, t, i, j) == Ok(scoresMap)
    {
      var pl := plugins[j];
      var column := ScoreAndNormalize(c, pl, scoresMap[pl.name], i, nodes[i]);
      if column.Err? {
        RowFails(c, plugins, nodes, t, i, j + 1);
        return Err(column.error);
      }
      scoresMap := scoresMap[pl.name := column.value];
    }
    return Ok(scoresMap);
  }

  /** The body of the inner loop. */
  method ScoreAndNormalize(c: Cycle, pl: ScorePlugin, column: seq<NodeScore>, i: nat, node: Node)
    returns (r: Result<seq<NodeScore>, Status>)
    requires i < |column|
    ensures r == ScoreEntry(c, pl, column, i, node)
  {
    var (score, status) := pl.score(c.state, c.pod, node.name);
    if !status.IsSuccess() {
      return Err(status);
    }
    var scored := column[i := NodeScore(node.name, score)];
    if pl.extensions.Some? {
      status := pl.extensions.value.status(c.state, c.pod, scored);
      if !status.IsSuccess() {
        return Err(status);
      }
      scored := Normalized(c, pl, scored);
    }
    return Ok(scored);
  }

  /** The final loop: node by node, the columns are added up in whatever order the map is ranged over. */
  method AddUp(t: Table, nodes: seq<Node>) returns (result: seq<NodeScore>)
    requires forall name :: name in t ==> |t[name]| == |nodes|
    ensures result == Totals(t, nodes, |nodes|)
  {
    result := [];
    for i := 0 to |nodes|
      invariant result == Totals(t, nodes, i)
    {
      var total := 0;
      var unseen := t.Keys;
      while unseen != {}
        invariant unseen <= t.Keys
        invariant total + SumOver(t, unseen, i) == SumOver(t, t.Keys, i)
      {
        var name :| name in unseen;
        SumTakeOut(t, unseen, i, name);
        total := total + t[name][i].score;
        unseen := unseen - {name};
      }
      result := result + [NodeScore(nodes[i].name, total)];
    }
  }

  lemma {:induction false} RowFails(c: Cycle, plugins: seq<ScorePlugin>, nodes: seq<Node>, t: Table, i: nat, j: nat)
    requires Shaped(plugins, nodes, t) && i < |nodes| && j <= |plugins|
    requires ScoreRow(c, plugins, nodes, t, i, j).Err?
    ensures ScoreRow(c, plugins, nodes, t, i, |plugins|) == ScoreRow(c, plugins, nodes, t, i, j)
    decreases |plugins| - j
  {
    if j < |plugins| {
      RowFails(c, plugins, nodes, t, i, j + 1);
    }
  }

  lemma {:induction false} RowsFail(c: Cycle, plugins: seq<ScorePlugin>, nodes: seq<Node>, i: nat, n: nat)
    requires i <= n <= |nodes| && ScoreRows(c, plugins, nodes, i).Err?
    ensures ScoreRows(c, plugins, nodes, n) == ScoreRows(c, plugins, nodes, i)
    decreases n - i
  {
    if i < n {
      RowsFail(c, plugins, nodes, i + 1, n);
    }
  }

  /** A plugin's turn at a node fails with this status: its Score call does, or its NormalizeScore call on the column
      with the new score entered. */
  predicate TurnFails(c: Cycle, pl: ScorePlugin, column: seq<NodeScore>, i: nat, node: Node, status: Status)
    requires i < |column|
  {
    var (score, answer) := pl.score(c.state, c.pod, node.name);
    && status.code != Success
    && if answer.code != Success then status == answer
       else && pl.extensions.Some?
            && status == pl.extensions.value.status(c.state, c.pod, column[i := NodeScore(node.name, score)])
  }

  lemma EntryFails(c: Cycle, pl: ScorePlugin, column: seq<NodeScore>, i: nat, node: Node, status: Status)
    requires i < |column|
    ensures ScoreEntry(c, pl, column, i, node) == Err(status) <==> TurnFails(c, pl, column, i, node, status)
  {
  }

  lemma FailureIsFinal(c: Cycle, plugins: seq<ScorePlugin>, nodes: seq<Node>, i: nat, j: nat, status: Status)
    requires i < |nodes| && j <= |plugins| && ScoreRows(c, plugins, nodes, i).Ok?
    requires ScoreRow(c, plugins, nodes, ScoreRows(c, plugins, nodes, i).value, i, j) == Err(status)
    ensures Scored(c, plugins, nodes) == Err(status)
  {
    RowFails(c, plugins, nodes, ScoreRows(c, plugins, nodes, i).value, i, j);
    RowsFail(c, plugins, nodes, i + 1, |nodes|);
  }

  /** The first turn that fails, in node-then-plugin order, decides. */
  lemma FirstFailureDecides(c: Cycle, plugins: seq<ScorePlugin>, nodes: seq<Node>, i: nat, j: nat, t: Table,
                            status: Status)
    requires i < |nodes| && j < |plugins| && ScoreRows(c, plugins, nodes, i).Ok?
    requires ScoreRow(c, plugins, nodes, ScoreRows(c, plugins, nodes, i).value, i, j) == Ok(t)
    requires TurnFails(c, plugins[j], t[plugins[j].name], i, nodes[i], status)
    ensures Scored(c, plugins, nodes) == Err(status)
  {
    EntryFails(c, plugins[j], t[plugins[j].name], i, nodes[i], status);
    FailureIsFinal(c, plugins, nodes, i, j + 1, status);
  }

  /** The order in which the columns are added up does not matter. */
  lemma {:induction false} SumTakeOut(t: Table, names: set<string>, i: nat, name: string)
    requires names <= t.Keys && (forall name :: name in t ==> i < |t[name]|) && name in names
    ensures SumOver(t, names, i) == t[name][i].score + SumOver(t, names - {name}, i)
    decreases names
  {
    var first :| first in names && SumOver(t, names, i) == t[first][i].score + SumOver(t, names - {first}, i);
    if first != name {
      SumTakeOut(t, names - {first}, i, name);
      SumTakeOut(t, names - {name}, i, first);
      assert names - {first} - {name} == names - {name} - {first};
    }
  }
}

/** What re-normalising the partly filled columns after every node amounts to. */
module Normalizing {
  import opened Framework
  import opened Scoring

  // ---- Columns do not disturb each other ----

  predicate DistinctNames(plugins: seq<ScorePlugin>) {
    forall j, k :: 0 <= j < k < |plugins| ==> plugins[j].name != plugins[k].name
  }

  /** The column one plugin would fill if it were alone, after `i` nodes. */
  function Column(c: Cycle, pl: ScorePlugin, nodes: seq<Node>, i: nat): (r: Result<seq<NodeScore>, Status>)
    requires i <= |nodes|
    ensures r.Ok? ==> |r.value| == |nodes|
  {
    if i == 0 then Ok(Blank(|nodes|))
    else
      match Column(c, pl, nodes, i - 1)
      case Err(status) => Err(status)
      case Ok(column) => ScoreEntry(c, pl, column, i - 1, nodes[i - 1])
  }

  /** Row `i` succeeds exactly when every plugin's entry does, and each plugin only touches its own column. */
  lemma {:induction false} RowByColumns(c: Cycle, plugins: seq<ScorePlugin>, nodes: seq<Node>, t: Table, i: nat, j: nat)
    requires DistinctNames(plugins) && Shaped(plugins, nodes, t) && i < |nodes| && j <= |plugins|
    ensures var r := ScoreRow(c, plugins, nodes, t, i, j);
            && (r.Ok? <==> forall k :: 0 <= k < j ==> ScoreEntry(c, plugins[k], t[plugins[k].name], i, nodes[i]).Ok?)
            && (r.Ok? ==> forall k :: 0 <= k < j ==>
                  ScoreEntry(c, plugins[k], t[plugins[k].name], i, nodes[i]) == Ok(r.value[plugins[k].name]))
            && (r.Ok? ==> forall k :: j <= k < |plugins| ==> r.value[plugins[k].name] == t[plugins[k].name])
  {
    if j > 0 {
      RowByColumns(c, plugins, nodes, t, i, j - 1);
    }
  }

  ghost predicate Agrees(c: Cycle, plugins: seq<ScorePlugin>, nodes: seq<Node>, i: nat, r: Result<Table, Status>)
    requires i <= |nodes| && (r.Ok? ==> Shaped(plugins, nodes, r.value))
  {
    && (r.Ok? <==> forall j :: 0 <= j < |plugins| ==> Column(c, plugins[j], nodes, i).Ok?)
    && (r.Ok? ==> forall j :: 0 <= j < |plugins| ==> Column(c, plugins[j], nodes, i) == Ok(r.value[plugins[j].name]))
  }

  lemma RowAgrees(c: Cycle, plugins: seq<ScorePlugin>, nodes: seq<Node>, i: nat, t: Table)
    requires DistinctNames(plugins) && i < |nodes| && Shaped(plugins, nodes, t) && Agrees(c, plugins, nodes, i, Ok(t))
    ensures Agrees(c, plugins, nodes, i + 1, ScoreRow(c, plugins, nodes, t, i, |plugins|))
  {
    RowByColumns(c, plugins, nodes, t, i, |plugins|);
    forall j | 0 <= j < |plugins|
      ensures Column(c, plugins[j], nodes, i + 1) == ScoreEntry(c, plugins[j], t[plugins[j].name], i, nodes[i])
    {
      assert Column(c, plugins[j], nodes, i) == Ok(t[plugins[j].name]);
    }
  }

  lemma FailureAgrees(c: Cycle, plugins: seq<ScorePlugin>, nodes: seq<Node>, i: nat, status: Status)
    requires i < |nodes| && Agrees(c, plugins, nodes, i, Err(status))
    ensures Agrees(c, plugins, nodes, i + 1, Err(status))
  {
    var j :| 0 <= j < |plugins| && Column(c, plugins[j], nodes, i).Err?;
    assert Column(c, plugins[j], nodes, i + 1).Err?;
  }

  lemma BlankAgrees(c: Cycle, plugins: seq<ScorePlugin>, nodes: seq<Node>)
    ensures Agrees(c, plugins, nodes, 0, Ok(BlankTable(plugins, nodes)))
  {
    forall j | 0 <= j < |plugins|
      ensures Column(c, plugins[j], nodes, 0) == Ok(BlankTable(plugins, nodes)[plugins[j].name])
    {
    }
  }

  /** With distinct names, every column is what the plugin would have produced alone. */
  lemma {:induction false} TableByColumns(c: Cycle, plugins: seq<ScorePlugin>, nodes: seq<Node>, i: nat)
    requires DistinctNames(plugins) && i <= |nodes|
    ensures Agrees(c, plugins, nodes, i, ScoreRows(c, plugins, nodes, i))
  {
    if i == 0 {
      BlankAgrees(c, plugins, nodes);
    } else {
      TableByColumns(c, plugins, nodes, i - 1);
      match ScoreRows(c, plugins, nodes, i - 1)
      case Ok(t) => RowAgrees(c, plugins, nodes, i - 1, t);
      case Err(status) => FailureAgrees(c, plugins, nodes, i - 1, status);
    }
  }

  /** The sum over the first `n` plugins of their scores for node `i`. */
  function PluginSum(c: Cycle, plugins: seq<ScorePlugin>, nodes: seq<Node>, i: nat, n: nat): int
    requires i < |nodes| && n <= |plugins|
    requires forall j :: 0 <= j < |plugins| ==> Column(c, plugins[j], nodes, |nodes|).Ok?
  {
    if n == 0 then 0
    else PluginSum(c, plugins, nodes, i, n - 1) + Column(c, plugins[n - 1], nodes, |nodes|).value[i].score
  }

  lemma {:induction false} SumByPlugins(c: Cycle, plugins: seq<ScorePlugin>, nodes: seq<Node>, t: Table, i: nat, n: nat)
    requires DistinctNames(plugins) && i < |nodes| && n <= |plugins| && Shaped(plugins, nodes, t)
    requires forall j :: 0 <= j < |plugins| ==> Column(c, plugins[j], nodes, |nodes|) == Ok(t[plugins[j].name])
    ensures Names(plugins[..n]) <= t.Keys
    ensures SumOver(t, Names(plugins[..n]), i) == PluginSum(c, plugins, nodes, i, n)
  {
    if n > 0 {
      SumByPlugins(c, plugins, nodes, t, i, n - 1);
      var name := plugins[n - 1].name;
      NamesStep(plugins, n);
      SumTakeOut(t, Names(plugins[..n]), i, name);
      assert Names(plugins[..n]) - {name} == Names(plugins[..n - 1]);
    }
  }

  lemma NamesStep(plugins: seq<ScorePlugin>, n: nat)
    requires DistinctNames(plugins) && 0 < n <= |plugins|
    ensures Names(plugins[..n]) == Names(plugins[..n - 1]) + {plugins[n - 1].name}
    ensures plugins[n - 1].name !in Names(plugins[..n - 1])
  {
    var longer, shorter := plugins[..n], plugins[..n - 1];
    forall x | x in Names(longer) ensures x in Names(shorter) + {plugins[n - 1].name} {
      var j :| 0 <= j < n && longer[j].name == x;
      assert j < n - 1 ==> shorter[j].name == x;
    }
    forall x | x in Names(shorter) ensures x in Names(longer) {
      var j :| 0 <= j < n - 1 && shorter[j].name == x;
      assert longer[j].name == x;
    }
    assert longer[n - 1] == plugins[n - 1];
  }

  /** Each node's total is the sum of the plugins' own columns, names in node order, for any order of the map. */
  lemma TotalsBySum(c: Cycle, plugins: seq<ScorePlugin>, nodes: seq<Node>)
    requires DistinctNames(plugins)
    ensures var r := Scored(c, plugins, nodes);
            && (r.Ok? <==> forall j :: 0 <= j < |plugins| ==> Column(c, plugins[j], nodes, |nodes|).Ok?)
            && (r.Ok? ==>
                  && |r.value| == |nodes|
                  && forall i :: 0 <= i < |nodes| ==>
                       r.value[i] == NodeScore(nodes[i].name, PluginSum(c, plugins, nodes, i, |plugins|)))
  {
    TableByColumns(c, plugins, nodes, |nodes|);
    var table := ScoreRows(c, plugins, nodes, |nodes|);
    if table.Ok? {
      assert plugins[..|plugins|] == plugins;
      forall i | 0 <= i < |nodes|
        ensures SumOver(table.value, table.value.Keys, i) == PluginSum(c, plugins, nodes, i, |plugins|)
      {
        SumByPlugins(c, plugins, nodes, table.value, i, |plugins|);
      }
    }
  }

  // ---- Pointwise normalisers ----

  /** `f` applied `n` times. */
  function Iterate(f: int -> int, n: nat, x: int): int {
    if n == 0 then x else f(Iterate(f, n - 1, x))
  }

  /** The normaliser maps every score by `f`, whatever the other scores are, and never fails. */
  ghost predicate Pointwise(c: Cycle, pl: ScorePlugin, f: int -> int) {
    && pl.extensions.Some?
    && (forall column: seq<NodeScore> :: pl.extensions.value.status(c.state, c.pod, column).code == Success)
    && (forall column: seq<NodeScore>, i: nat :: i < |column| ==>
          pl.extensions.value.entry(c.state, c.pod, column, i) == NodeScore(column[i].name, f(column[i].score)))
  }

  ghost predicate ScoresAll(c: Cycle, pl: ScorePlugin, nodes: seq<Node>) {
    forall i :: 0 <= i < |nodes| ==> pl.score(c.state, c.pod, nodes[i].name).1.code == Success
  }

  function RawScore(c: Cycle, pl: ScorePlugin, node: Node): int {
    pl.score(c.state, c.pod, node.name).0
  }

  lemma PointwiseEntry(c: Cycle, pl: ScorePlugin, f: int -> int, column: seq<NodeScore>, i: nat, node: Node)
    requires Pointwise(c, pl, f) && pl.score(c.state, c.pod, node.name).1.code == Success && i < |column|
    ensures var r := ScoreEntry(c, pl, column, i, node);
            && r.Ok?
            && r.value[i] == NodeScore(node.name, f(RawScore(c, pl, node)))
            && forall k :: 0 <= k < |column| && k != i ==> r.value[k] == NodeScore(column[k].name, f(column[k].score))
  {
  }

  /** Node `k` of the first `i` has been normalised `i - k` times. */
  ghost predicate Iterated(c: Cycle, pl: ScorePlugin, nodes: seq<Node>, f: int -> int, i: nat, column: seq<NodeScore>)
    requires i <= |nodes|
  {
    && |column| == |nodes|
    && forall k :: 0 <= k < i ==>
         column[k] == NodeScore(nodes[k].name, Iterate(f, i - k, RawScore(c, pl, nodes[k])))
  }

  lemma IteratedStep(c: Cycle, pl: ScorePlugin, nodes: seq<Node>, f: int -> int, i: nat,
                     before: seq<NodeScore>, after: seq<NodeScore>)
    requires i < |nodes| && Iterated(c, pl, nodes, f, i, before) && |after| == |nodes|
    requires after[i] == NodeScore(nodes[i].name, f(RawScore(c, pl, nodes[i])))
    requires forall k :: 0 <= k < i ==> after[k] == NodeScore(before[k].name, f(before[k].score))
    ensures Iterated(c, pl, nodes, f, i + 1, after)
  {
    forall k | 0 <= k < i + 1
      ensures after[k] == NodeScore(nodes[k].name, Iterate(f, i + 1 - k, RawScore(c, pl, nodes[k])))
    {
      var raw := RawScore(c, pl, nodes[k]);
      assert Iterate(f, i + 1 - k, raw) == f(Iterate(f, i - k, raw));
      assert Iterate(f, 0, raw) == raw;
    }
  }

  lemma ColumnIteratesOn(c: Cycle, pl: ScorePlugin, nodes: seq<Node>, f: int -> int, i: nat)
    requires Pointwise(c, pl, f) && i < |nodes| && pl.score(c.state, c.pod, nodes[i].name).1.code == Success
    requires Column(c, pl, nodes, i).Ok? && Iterated(c, pl, nodes, f, i, Column(c, pl, nodes, i).value)
    ensures Column(c, pl, nodes, i + 1).Ok? && Iterated(c, pl, nodes, f, i + 1, Column(c, pl, nodes, i + 1).value)
  {
    var before := Column(c, pl, nodes, i).value;
    PointwiseEntry(c, pl, f, before, i, nodes[i]);
    IteratedStep(c, pl, nodes, f, i, before, ScoreEntry(c, pl, before, i, nodes[i]).value);
  }

  /** The node scored k-th of n is normalised n - k times. */
  lemma {:induction false} ColumnIterates(c: Cycle, pl: ScorePlugin, nodes: seq<Node>, f: int -> int, i: nat)
    requires Pointwise(c, pl, f) && ScoresAll(c, pl, nodes) && i <= |nodes|
    ensures Column(c, pl, nodes, i).Ok? && Iterated(c, pl, nodes, f, i, Column(c, pl, nodes, i).value)
  {
    if i > 0 {
      ColumnIterates(c, pl, nodes, f, i - 1);
      ColumnIteratesOn(c, pl, nodes, f, i - 1);
    }
  }

  ghost predicate Idempotent(f: int -> int) {
    forall x :: f(f(x)) == f(x)
  }

  lemma {:induction false} IterateIdempotent(f: int -> int, n: nat, x: int)
    requires Idempotent(f) && n > 0
    ensures Iterate(f, n, x) == f(x)
  {
    if n == 1 {
      assert Iterate(f, 0, x) == x;
    } else {
      IterateIdempotent(f, n - 1, x);
    }
  }

  /** All nodes are scored first, and the full column is normalised once. */
  function NormalizedOnce(c: Cycle, pl: ScorePlugin, nodes: seq<Node>): seq<NodeScore> {
    Normalized(c, pl, seq(|nodes|, i requires 0 <= i < |nodes| => NodeScore(nodes[i].name, RawScore(c, pl, nodes[i]))))
  }

  lemma OnceIsPointwise(c: Cycle, pl: ScorePlugin, nodes: seq<Node>, f: int -> int, i: nat)
    requires Pointwise(c, pl, f) && i < |nodes|
    ensures NormalizedOnce(c, pl, nodes)[i] == NodeScore(nodes[i].name, f(RawScore(c, pl, nodes[i])))
  {
  }

  lemma OftenIsOnceAt(c: Cycle, pl: ScorePlugin, nodes: seq<Node>, f: int -> int, i: nat, column: seq<NodeScore>)
    requires Pointwise(c, pl, f) && Idempotent(f) && Iterated(c, pl, nodes, f, |nodes|, column) && i < |nodes|
    ensures column[i] == NormalizedOnce(c, pl, nodes)[i]
  {
    IterateIdempotent(f, |nodes| - i, RawScore(c, pl, nodes[i]));
    OnceIsPointwise(c, pl, nodes, f, i);
  }

  lemma IteratedIsOnce(c: Cycle, pl: ScorePlugin, nodes: seq<Node>, f: int -> int, column: seq<NodeScore>)
    requires Pointwise(c, pl, f) && Idempotent(f) && Iterated(c, pl, nodes, f, |nodes|, column)
    ensures column == NormalizedOnce(c, pl, nodes)
  {
    forall i | 0 <= i < |nodes| ensures column[i] == NormalizedOnce(c, pl, nodes)[i] {
      OftenIsOnceAt(c, pl, nodes, f, i, column);
    }
  }

  lemma OftenIsOnce(c: Cycle, pl: ScorePlugin, nodes: seq<Node>, f: int -> int)
    requires Pointwise(c, pl, f) && ScoresAll(c, pl, nodes) && Idempotent(f)
    ensures Column(c, pl, nodes, |nodes|) == Ok(NormalizedOnce(c, pl, nodes))
  {
    ColumnIterates(c, pl, nodes, f, |nodes|);
    IteratedIsOnce(c, pl, nodes, f, Column(c, pl, nodes, |nodes|).value);
  }

  /** A plugin that gives every node the score `x` and normalises by `f`. */
  function ConstantPlugin(x: int, f: int -> int): ScorePlugin {
    ScorePlugin("Constant", (_, _, _) => (x, PASSED),
                Some(Normalizer((_, _, column: seq<NodeScore>, i: nat) =>
                                  if i < |column| then NodeScore(column[i].name, f(column[i].score)) else UNSCORED,
                                (_, _, _) => PASSED)))
  }

  /** Normalising after every node gives what normalising once gives, for every plugin and every list of nodes,
      exactly when the normaliser is idempotent. */
  lemma OftenIsOnceIffIdempotent(c: Cycle, f: int -> int)
    ensures Idempotent(f)
       <==> forall pl, nodes :: Pointwise(c, pl, f) && ScoresAll(c, pl, nodes) ==>
              Column(c, pl, nodes, |nodes|) == Ok(NormalizedOnce(c, pl, nodes))
  {
    if Idempotent(f) {
      forall pl, nodes | Pointwise(c, pl, f) && ScoresAll(c, pl, nodes)
        ensures Column(c, pl, nodes, |nodes|) == Ok(NormalizedOnce(c, pl, nodes))
      {
        OftenIsOnce(c, pl, nodes, f);
      }
    } else {
      var x :| f(f(x)) != f(x);
      TwiceDiffers(c, f, x);
    }
  }

  lemma TwiceDiffers(c: Cycle, f: int -> int, x: int)
    requires f(f(x)) != f(x)
    ensures exists pl, nodes :: Pointwise(c, pl, f) && ScoresAll(c, pl, nodes)
              && Column(c, pl, nodes, |nodes|) != Ok(NormalizedOnce(c, pl, nodes))
  {
    var pl := ConstantPlugin(x, f);
    var nodes := [Node("a", false, map[]), Node("b", false, map[])];
    assert Pointwise(c, pl, f) && ScoresAll(c, pl, nodes);
    ColumnIterates(c, pl, nodes, f, 2);
    OnceIsPointwise(c, pl, nodes, f, 0);
    assert Iterate(f, 2, x) == f(Iterate(f, 1, x)) && Iterate(f, 1, x) == f(Iterate(f, 0, x));
    assert Column(c, pl, nodes, |nodes|).value[0].score != NormalizedOnce(c, pl, nodes)[0].score;
  }

  // ---- Any normaliser ----

  /** Normalising never fails; not normalising at all counts as such. */
  ghost predicate NeverFails(c: Cycle, pl: ScorePlugin) {
    pl.extensions.Some? ==>
      forall column: seq<NodeScore> :: pl.extensions.value.status(c.state, c.pod, column).code == Success
  }

  function RawEntry(c: Cycle, pl: ScorePlugin, node: Node): NodeScore {
    NodeScore(node.name, RawScore(c, pl, node))
  }

  /** The raw scores of the first `i` nodes, the rest of the column still blank. */
  function RawColumn(c: Cycle, pl: ScorePlugin, nodes: seq<Node>, i: nat): (column: seq<NodeScore>)
    ensures |column| == |nodes|
  {
    seq(|nodes|, k requires 0 <= k < |nodes| => if k < i then RawEntry(c, pl, nodes[k]) else UNSCORED)
  }

  /** What one normalisation makes of the first `i` raw scores. */
  function OnceUpTo(c: Cycle, pl: ScorePlugin, nodes: seq<Node>, i: nat): (column: seq<NodeScore>)
    ensures |column| == |nodes|
  {
    if i == 0 then Blank(|nodes|) else Normalized(c, pl, RawColumn(c, pl, nodes, i))
  }

  /** At every node, whether the earlier scores were normalised before makes no difference to normalising now. */
  ghost predicate Absorbs(c: Cycle, pl: ScorePlugin, nodes: seq<Node>) {
    forall i :: 0 <= i < |nodes| ==>
      Normalized(c, pl, OnceUpTo(c, pl, nodes, i)[i := RawEntry(c, pl, nodes[i])]) == OnceUpTo(c, pl, nodes, i + 1)
  }

  lemma WholeColumnIsOnce(c: Cycle, pl: ScorePlugin, nodes: seq<Node>)
    ensures OnceUpTo(c, pl, nodes, |nodes|) == NormalizedOnce(c, pl, nodes)
  {
    assert RawColumn(c, pl, nodes, |nodes|)
        == seq(|nodes|, i requires 0 <= i < |nodes| => NodeScore(nodes[i].name, RawScore(c, pl, nodes[i])));
  }

  /** The new score is entered, and the column normalised. */
  lemma ColumnNext(c: Cycle, pl: ScorePlugin, nodes: seq<Node>, i: nat)
    requires NeverFails(c, pl) && ScoresAll(c, pl, nodes) && i < |nodes| && Column(c, pl, nodes, i).Ok?
    ensures Column(c, pl, nodes, i + 1)
         == Ok(Normalized(c, pl, Column(c, pl, nodes, i).value[i := RawEntry(c, pl, nodes[i])]))
  {
    assert pl.score(c.state, c.pod, nodes[i].name).1.code == Success;
  }

  lemma {:induction false} AbsorbedColumn(c: Cycle, pl: ScorePlugin, nodes: seq<Node>, i: nat)
    requires NeverFails(c, pl) && ScoresAll(c, pl, nodes) && Absorbs(c, pl, nodes) && i <= |nodes|
    ensures Column(c, pl, nodes, i) == Ok(OnceUpTo(c, pl, nodes, i))
  {
    if i > 0 {
      AbsorbedColumn(c, pl, nodes, i - 1);
      ColumnNext(c, pl, nodes, i - 1);
    }
  }

  ghost predicate AlwaysOnce(c: Cycle, pl: ScorePlugin, nodes: seq<Node>) {
    forall i :: 0 <= i <= |nodes| ==> Column(c, pl, nodes, i) == Ok(OnceUpTo(c, pl, nodes, i))
  }

  lemma AlwaysOnceAbsorbs(c: Cycle, pl: ScorePlugin, nodes: seq<Node>)
    requires NeverFails(c, pl) && ScoresAll(c, pl, nodes) && AlwaysOnce(c, pl, nodes)
    ensures Absorbs(c, pl, nodes)
  {
    forall i | 0 <= i < |nodes|
      ensures Normalized(c, pl, OnceUpTo(c, pl, nodes, i)[i := RawEntry(c, pl, nodes[i])])
           == OnceUpTo(c, pl, nodes, i + 1)
    {
      ColumnNext(c, pl, nodes, i);
      assert Column(c, pl, nodes, i) == Ok(OnceUpTo(c, pl, nodes, i));
    }
  }

  /** Normalising after every node leaves, at every point, what one normalisation of the scores so far would have
      left, exactly when every step absorbs the normalisations before it. */
  lemma AlwaysOnceIffAbsorbs(c: Cycle, pl: ScorePlugin, nodes: seq<Node>)
    requires NeverFails(c, pl) && ScoresAll(c, pl, nodes)
    ensures AlwaysOnce(c, pl, nodes) <==> Absorbs(c, pl, nodes)
    ensures Absorbs(c, pl, nodes) ==> Column(c, pl, nodes, |nodes|) == Ok(NormalizedOnce(c, pl, nodes))
  {
    WholeColumnIsOnce(c, pl, nodes);
    if Absorbs(c, pl, nodes) {
      forall i | 0 <= i <= |nodes| ensures Column(c, pl, nodes, i) == Ok(OnceUpTo(c, pl, nodes, i)) {
        AbsorbedColumn(c, pl, nodes, i);
      }
    }
    if AlwaysOnce(c, pl, nodes) {
      AlwaysOnceAbsorbs(c, pl, nodes);
    }
  }

  /** Without a normaliser, or with a pointwise idempotent one. */
  ghost predicate Harmless(c: Cycle, pl: ScorePlugin) {
    pl.extensions.None? || exists f :: Pointwise(c, pl, f) && Idempotent(f)
  }

  lemma HarmlessAbsorbs(c: Cycle, pl: ScorePlugin, nodes: seq<Node>)
    requires Harmless(c, pl)
    ensures NeverFails(c, pl) && Absorbs(c, pl, nodes)
  {
    forall i | 0 <= i < |nodes|
      ensures Normalized(c, pl, OnceUpTo(c, pl, nodes, i)[i := RawEntry(c, pl, nodes[i])])
           == OnceUpTo(c, pl, nodes, i + 1)
    {
      HarmlessStep(c, pl, nodes, i);
    }
  }

  lemma HarmlessStep(c: Cycle, pl: ScorePlugin, nodes: seq<Node>, i: nat)
    requires Harmless(c, pl) && i < |nodes|
    ensures Normalized(c, pl, OnceUpTo(c, pl, nodes, i)[i := RawEntry(c, pl, nodes[i])])
         == OnceUpTo(c, pl, nodes, i + 1)
  {
    var entered := OnceUpTo(c, pl, nodes, i)[i := RawEntry(c, pl, nodes[i])];
    var raw := RawColumn(c, pl, nodes, i + 1);
    assert i == 0 || pl.extensions.None? ==> entered == raw;
    if i > 0 && pl.extensions.Some? {
      var f :| Pointwise(c, pl, f) && Idempotent(f);
      forall k | 0 <= k < |nodes| ensures Normalized(c, pl, entered)[k] == Normalized(c, pl, raw)[k] {
        assert k != i ==> entered[k].name == raw[k].name && entered[k].score == f(raw[k].score);
      }
    }
  }

  /** The sum over the first `n` plugins of what normalising their full columns once yields for node `i`. */
  function OnceSum(c: Cycle, plugins: seq<ScorePlugin>, nodes: seq<Node>, i: nat, n: nat): int
    requires i < |nodes| && n <= |plugins|
  {
    if n == 0 then 0
    else OnceSum(c, plugins, nodes, i, n - 1) + NormalizedOnce(c, plugins[n - 1], nodes)[i].score
  }

  lemma {:induction false} PluginSumIsOnceSum(c: Cycle, plugins: seq<ScorePlugin>, nodes: seq<Node>, i: nat, n: nat)
    requires i < |nodes| && n <= |plugins|
    requires forall j :: 0 <= j < |plugins| ==>
               Column(c, plugins[j], nodes, |nodes|) == Ok(NormalizedOnce(c, plugins[j], nodes))
    ensures PluginSum(c, plugins, nodes, i, n) == OnceSum(c, plugins, nodes, i, n)
  {
    if n > 0 {
      PluginSumIsOnceSum(c, plugins, nodes, i, n - 1);
    }
  }

  /** With distinct names, and normalisers that always absorb, scoring as the code does it is scoring all nodes, then
      normalising each plugin's scores once, then adding up. */
  lemma TotalsAreOnceSums(c: Cycle, plugins: seq<ScorePlugin>, nodes: seq<Node>)
    requires DistinctNames(plugins)
    requires forall j :: 0 <= j < |plugins| ==>
               && ScoresAll(c, plugins[j], nodes)
               && (Harmless(c, plugins[j]) || (NeverFails(c, plugins[j]) && Absorbs(c, plugins[j], nodes)))
    ensures Scored(c, plugins, nodes)
         == Ok(seq(|nodes|, i requires 0 <= i < |nodes| =>
                 NodeScore(nodes[i].name, OnceSum(c, plugins, nodes, i, |plugins|))))
  {
    forall j | 0 <= j < |plugins|
      ensures Column(c, plugins[j], nodes, |nodes|) == Ok(NormalizedOnce(c, plugins[j], nodes))
    {
      if Harmless(c, plugins[j]) {
        HarmlessAbsorbs(c, plugins[j], nodes);
      }
      AlwaysOnceIffAbsorbs(c, plugins[j], nodes);
    }
    TotalsBySum(c, plugins, nodes);
    forall i | 0 <= i < |nodes|
      ensures PluginSum(c, plugins, nodes, i, |plugins|) == OnceSum(c, plugins, nodes, i, |plugins|)
    {
      PluginSumIsOnceSum(c, plugins, nodes, i, |plugins|);
    }
    var totals := seq(|nodes|, i requires 0 <= i < |nodes| =>
                        NodeScore(nodes[i].name, OnceSum(c, plugins, nodes, i, |plugins|)));
    assert Scored(c, plugins, nodes).value == totals;
  }

  // ---- A normaliser that looks at the whole list ----

  function Highest(column: seq<NodeScore>): int {
    if column == [] then 0
    else
      var rest := Highest(column[..|column| - 1]);
      if column[|column| - 1].score > rest then column[|column| - 1].score else rest
  }

  /** Scores are scaled so that the highest becomes 100. */
  const SCALING := Normalizer(
    (_, _, column: seq<NodeScore>, i: nat) =>
      if i < |column| && Highest(column) > 0 then NodeScore(column[i].name, 100 * column[i].score / Highest(column))
      else if i < |column| then column[i]
      else UNSCORED,
    (_, _, _) => PASSED)

  /** Scaling while the column is still filling up does not absorb what came before, and can turn the ranking round: the
      better node ends up behind. */
  lemma ScalingReversesRanking(c: Cycle)
    ensures var pl := ScorePlugin("Scaled", (_, _, name) => (if name == "a" then 10 else 20, PASSED), Some(SCALING));
            var nodes := [Node("a", false, map[]), Node("b", false, map[])];
            && Column(c, pl, nodes, 2) == Ok([NodeScore("a", 100), NodeScore("b", 20)])
            && NormalizedOnce(c, pl, nodes) == [NodeScore("a", 50), NodeScore("b", 100)]
            && !Absorbs(c, pl, nodes)
  {
    var pl := ScorePlugin("Scaled", (_, _, name) => (if name == "a" then 10 else 20, PASSED), Some(SCALING));
    var nodes := [Node("a", false, map[]), Node("b", false, map[])];
    HighestOfTwo(10, "a", 0, "");
    HighestOfTwo(100, "a", 20, "b");
    HighestOfTwo(10, "a", 20, "b");
    var first := [NodeScore("a", 10), UNSCORED];
    assert Column(c, pl, nodes, 0) == Ok(Blank(2));
    assert Blank(2)[0 := NodeScore("a", 10)] == first;
    assert Normalized(c, pl, first) == [NodeScore("a", 100), UNSCORED];
    assert Column(c, pl, nodes, 1) == Ok([NodeScore("a", 100), UNSCORED]);
    var second := [NodeScore("a", 100), NodeScore("b", 20)];
    assert [NodeScore("a", 100), UNSCORED][1 := NodeScore("b", 20)] == second;
    assert Normalized(c, pl, second) == second;
    var raw := [NodeScore("a", 10), NodeScore("b", 20)];
    assert seq(2, i requires 0 <= i < 2 => NodeScore(nodes[i].name, RawScore(c, pl, nodes[i]))) == raw;
    assert Normalized(c, pl, raw) == [NodeScore("a", 50), NodeScore("b", 100)];
    AlwaysOnceIffAbsorbs(c, pl, nodes);
  }

  lemma HighestOfTwo(x: int, a: string, y: int, b: string)
    requires x >= 0 && y >= 0
    ensures Highest([NodeScore(a, x), NodeScore(b, y)]) == if x >= y then x else y
  {
    assert [NodeScore(a, x), NodeScore(b, y)][..1] == [NodeScore(a, x)];
    assert [NodeScore(a, x)][..0] == [];
    assert Highest([]) == 0;
    assert Highest([NodeScore(a, x)]) == x;
  }
}

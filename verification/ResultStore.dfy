/** The store of scheduling results (scheduler/plugin/resultstore/store.go). */
module ResultStore {
  import opened Framework
  import opened Decimals

  // ---- Keys ----

  function NewKey(namespace: string, podName: string): string {
    namespace + "/" + podName
  }

  lemma KeysDiffer(ns1: string, pod1: string, ns2: string, pod2: string)
    requires '/' !in ns1 && '/' !in ns2
    requires NewKey(ns1, pod1) == NewKey(ns2, pod2)
    ensures ns1 == ns2 && pod1 == pod2
  {
    var k := NewKey(ns1, pod1);
    assert k[|ns1|] == '/' && k[|ns2|] == '/';
    assert forall i :: 0 <= i < |ns1| ==> k[i] == ns1[i];
    assert forall i :: 0 <= i < |ns2| ==> k[i] == ns2[i];
    assert |ns1| == |ns2|;
    assert ns1 == k[..|ns1|] == k[..|ns2|] == ns2;
    assert pod1 == k[|ns1| + 1..] == k[|ns2| + 1..] == pod2;
  }

  // ---- The nested maps ----

  /** By node name, then by plugin name. */
  type Sheet = map<string, map<string, string>>

  datatype Results = Results(score: Sheet, finalscore: Sheet, filter: Sheet)

  const NO_RESULTS := Results(map[], map[], map[])

  function Write(sheet: Sheet, node: string, plugin: string, text: string): Sheet {
    sheet[node := (if node in sheet then sheet[node] else map[])[plugin := text]]
  }

  function Read(sheet: Sheet, node: string, plugin: string): Option<string> {
    if node in sheet && plugin in sheet[node] then Some(sheet[node][plugin]) else None
  }

  function ResultsOf(store: map<string, Results>, k: string): Results {
    if k in store then store[k] else NO_RESULTS
  }

  // ---- Operations and what they leave ----

  datatype Op =
    | AddFilter(k: string, node: string, plugin: string, reason: string)
    | AddScore(k: string, node: string, plugin: string, score: int)
    | AddNormalized(k: string, node: string, plugin: string, score: int)
    | Delete(k: string)

  type Weights = map<string, int>

  function WeightOf(weights: Weights, plugin: string): int {
    if plugin in weights then weights[plugin] else 0
  }

  function Weighted(weights: Weights, plugin: string, score: int): string {
    Decimal(Wrap64(score * WeightOf(weights, plugin)))
  }

  function Step(weights: Weights, store: map<string, Results>, op: Op): map<string, Results> {
    match op
    case AddFilter(k, node, plugin, reason) =>
      var r := ResultsOf(store, k);
      store[k := r.(filter := Write(r.filter, node, plugin, reason))]
    case AddScore(k, node, plugin, score) =>
      var r := ResultsOf(store, k);
      store[k := r.(score := Write(r.score, node, plugin, Decimal(score)),
                    finalscore := Write(r.finalscore, node, plugin, Weighted(weights, plugin, score)))]
    case AddNormalized(k, node, plugin, score) =>
      var r := ResultsOf(store, k);
      store[k := r.(finalscore := Write(r.finalscore, node, plugin, Weighted(weights, plugin, score)))]
    case Delete(k) => store - {k}
  }

  function Replay(weights: Weights, ops: seq<Op>): map<string, Results> {
    if ops == [] then map[] else Step(weights, Replay(weights, ops[..|ops| - 1]), ops[|ops| - 1])
  }

  // ---- The flat view: the last write since the pod's last delete ----

  datatype Kind = Filter | Score | FinalScore

  /** Where a result is kept. */
  datatype Place = Place(kind: Kind, namespace: string, podName: string, node: string, plugin: string)

  /** What an operation writes at a place, if it writes there. */
  function WrittenAt(weights: Weights, op: Op, at: Place): Option<string> {
    var weight := if at.plugin in weights then weights[at.plugin] else 0;
    if op.Delete? || op.k != NewKey(at.namespace, at.podName) || op.node != at.node || op.plugin != at.plugin then None
    else
      match (op, at.kind)
      case (AddFilter(_, _, _, reason), Filter) => Some(reason)
      case (AddScore(_, _, _, score), Score) => Some(Decimal(score))
      case (AddScore(_, _, _, score), FinalScore) => Some(Decimal(Wrap64(score * weight)))
      case (AddNormalized(_, _, _, score), FinalScore) => Some(Decimal(Wrap64(score * weight)))
      case _ => None
  }

  function LastWrite(weights: Weights, ops: seq<Op>, at: Place): Option<string> {
    if ops == [] then None
    else
      var op := ops[|ops| - 1];
      if op == Delete(NewKey(at.namespace, at.podName)) then None
      else if WrittenAt(weights, op, at).Some? then WrittenAt(weights, op, at)
      else LastWrite(weights, ops[..|ops| - 1], at)
  }

  function SheetOf(r: Results, kind: Kind): Sheet {
    match kind
    case Filter => r.filter
    case Score => r.score
    case FinalScore => r.finalscore
  }

  function Lookup(store: map<string, Results>, at: Place): Option<string> {
    Read(SheetOf(ResultsOf(store, NewKey(at.namespace, at.podName)), at.kind), at.node, at.plugin)
  }

  lemma WriteThenRead(sheet: Sheet, node: string, plugin: string, text: string, node': string, plugin': string)
    ensures Read(Write(sheet, node, plugin, text), node', plugin')
         == if node' == node && plugin' == plugin then Some(text) else Read(sheet, node', plugin')
  {
  }

  /** One operation changes a place exactly when it writes there or deletes the pod. */
  lemma StepThenLookup(weights: Weights, store: map<string, Results>, op: Op, at: Place)
    ensures Lookup(Step(weights, store, op), at)
         == if op == Delete(NewKey(at.namespace, at.podName)) then None
            else if WrittenAt(weights, op, at).Some? then WrittenAt(weights, op, at)
            else Lookup(store, at)
  {
    var r := ResultsOf(store, op.k);
    match op
    case AddFilter(_, node, plugin, reason) =>
      WriteThenRead(r.filter, node, plugin, reason, at.node, at.plugin);
    case AddScore(_, node, plugin, score) =>
      WriteThenRead(r.score, node, plugin, Decimal(score), at.node, at.plugin);
      WriteThenRead(r.finalscore, node, plugin, Weighted(weights, plugin, score), at.node, at.plugin);
    case AddNormalized(_, node, plugin, score) =>
      WriteThenRead(r.finalscore, node, plugin, Weighted(weights, plugin, score), at.node, at.plugin);
    case Delete(_) =>
  }

  /** The nested maps refine a flat one: every lookup yields the last value written there since the last delete. */
  lemma {:induction false} LookupIsLastWrite(weights: Weights, ops: seq<Op>, at: Place)
    ensures Lookup(Replay(weights, ops), at) == LastWrite(weights, ops, at)
  {
    if ops != [] {
      var front := ops[..|ops| - 1];
      LookupIsLastWrite(weights, front, at);
      StepThenLookup(weights, Replay(weights, front), ops[|ops| - 1], at);
    }
  }

  /** The last score, raw or normalised, reported for a place since the last delete. */
  function LatestScore(ops: seq<Op>, k: string, node: string, plugin: string): Option<int> {
    if ops == [] then None
    else
      var op := ops[|ops| - 1];
      if op == Delete(k) then None
      else if (op.AddScore? || op.AddNormalized?) && op.k == k && op.node == node && op.plugin == plugin then
        Some(op.score)
      else LatestScore(ops[..|ops| - 1], k, node, plugin)
  }

  /** A final score is the plugin's weight times the last score reported, raw or normalised, as 64-bit text. */
  lemma {:induction false} FinalScoreIsWeighted(weights: Weights, ops: seq<Op>, ns: string, pod: string, node: string,
                                                plugin: string)
    ensures var final := Lookup(Replay(weights, ops), Place(FinalScore, ns, pod, node, plugin));
            var weight := if plugin in weights then weights[plugin] else 0;
            match LatestScore(ops, NewKey(ns, pod), node, plugin)
            case None => final == None
            case Some(score) => final == Some(Decimal(Wrap64(score * weight)))
  {
    if ops != [] {
      var front := ops[..|ops| - 1];
      FinalScoreIsWeighted(weights, front, ns, pod, node, plugin);
      StepThenLookup(weights, Replay(weights, front), ops[|ops| - 1], Place(FinalScore, ns, pod, node, plugin));
    }
  }

  /** With scores and weights of 32 bits nothing wraps: the text is that of the product. */
  lemma FinalScoreIsProduct(weights: Weights, ops: seq<Op>, ns: string, pod: string, node: string, plugin: string)
    requires plugin in weights && -0x8000_0000 <= weights[plugin] < 0x8000_0000
    requires LatestScore(ops, NewKey(ns, pod), node, plugin).Some?
    requires -0x8000_0000 <= LatestScore(ops, NewKey(ns, pod), node, plugin).value <= 0x8000_0000
    ensures var score := LatestScore(ops, NewKey(ns, pod), node, plugin).value;
            Lookup(Replay(weights, ops), Place(FinalScore, ns, pod, node, plugin))
            == Some(Decimal(score * weights[plugin]))
  {
    FinalScoreIsWeighted(weights, ops, ns, pod, node, plugin);
    ProductFits(LatestScore(ops, NewKey(ns, pod), node, plugin).value, weights[plugin]);
  }

  /** Every score has a final score beside it. */
  lemma {:induction false} ScoreHasFinalScore(weights: Weights, ops: seq<Op>, ns: string, pod: string, node: string,
                                              plugin: string)
    ensures Lookup(Replay(weights, ops), Place(Score, ns, pod, node, plugin)).Some?
        ==> Lookup(Replay(weights, ops), Place(FinalScore, ns, pod, node, plugin)).Some?
  {
    if ops != [] {
      var front := ops[..|ops| - 1];
      ScoreHasFinalScore(weights, front, ns, pod, node, plugin);
      StepThenLookup(weights, Replay(weights, front), ops[|ops| - 1], Place(Score, ns, pod, node, plugin));
      StepThenLookup(weights, Replay(weights, front), ops[|ops| - 1], Place(FinalScore, ns, pod, node, plugin));
    }
  }

  /** Pods do not see each other's results: what is done for one pod leaves every other pod's places alone. */
  lemma PodsAreSeparate(weights: Weights, ops: seq<Op>, op: Op, ns: string, pod: string, at: Place)
    requires '/' !in ns && '/' !in at.namespace && op.k == NewKey(ns, pod)
    requires (ns, pod) != (at.namespace, at.podName)
    ensures Lookup(Replay(weights, ops + [op]), at) == Lookup(Replay(weights, ops), at)
  {
    if op.k == NewKey(at.namespace, at.podName) {
      KeysDiffer(ns, pod, at.namespace, at.podName);
      assert false;
    }
    LookupIsLastWrite(weights, ops + [op], at);
    LookupIsLastWrite(weights, ops, at);
    assert (ops + [op])[..|ops|] == ops;
  }

  // ---- Reading out and deleting are two steps ----

  lemma ReplayStep(weights: Weights, ops: seq<Op>, op: Op)
    ensures Replay(weights, ops + [op]) == Step(weights, Replay(weights, ops), op)
  {
    assert (ops + [op])[..|ops|] == ops;
  }

  /** What a place holds after further operations: what they wrote there last, or else what it held before. */
  lemma {:induction false} LookupAfter(weights: Weights, before: seq<Op>, between: seq<Op>, at: Place)
    requires Delete(NewKey(at.namespace, at.podName)) !in between
    ensures Lookup(Replay(weights, before + between), at)
         == if LastWrite(weights, between, at).Some? then LastWrite(weights, between, at)
            else Lookup(Replay(weights, before), at)
  {
    if between == [] {
      assert before + between == before;
    } else {
      var last := |between| - 1;
      LookupAfter(weights, before, between[..last], at);
      assert before + between == before + between[..last] + [between[last]];
      ReplayStep(weights, before + between[..last], between[last]);
      StepThenLookup(weights, Replay(weights, before + between[..last]), between[last], at);
    }
  }

  lemma {:induction false} NothingWritten(weights: Weights, ops: seq<Op>, at: Place)
    requires forall i :: 0 <= i < |ops| ==> ops[i].k != NewKey(at.namespace, at.podName)
    ensures LastWrite(weights, ops, at) == None
  {
    if ops != [] {
      NothingWritten(weights, ops[..|ops| - 1], at);
    }
  }

  /** Results read out for a pod are still complete when they are deleted, if nothing was recorded for it in between. */
  lemma QuietReadOutIsComplete(weights: Weights, before: seq<Op>, between: seq<Op>, at: Place)
    requires forall i :: 0 <= i < |between| ==> between[i].k != NewKey(at.namespace, at.podName)
    ensures Lookup(Replay(weights, before + between), at) == Lookup(Replay(weights, before), at)
  {
    NothingWritten(weights, between, at);
    LookupAfter(weights, before, between, at);
  }

  /** However many results are recorded after the read-out and before the deletion: what they wrote last is what the
      store holds when it is deleted, it is gone afterwards, and it was read out only if it was there before. */
  lemma LateResultIsLost(weights: Weights, before: seq<Op>, between: seq<Op>, at: Place)
    requires Delete(NewKey(at.namespace, at.podName)) !in between && LastWrite(weights, between, at).Some?
    ensures var held := Replay(weights, before + between);
            && Lookup(held, at) == LastWrite(weights, between, at)
            && Lookup(Replay(weights, before + between + [Delete(NewKey(at.namespace, at.podName))]), at) == None
            && (Lookup(Replay(weights, before), at) == Lookup(held, at)
                <==> LastWrite(weights, before, at) == LastWrite(weights, between, at))
  {
    LookupAfter(weights, before, between, at);
    ReplayStep(weights, before + between, Delete(NewKey(at.namespace, at.podName)));
    LookupIsLastWrite(weights, before, at);
  }

  /** For one kind of result: reading it out after `before` showed everything that is deleted after `between`. */
  ghost predicate ReadOutComplete(weights: Weights, before: seq<Op>, between: seq<Op>, kind: Kind, ns: string,
                                  pod: string)
  {
    forall node, plugin :: var at := Place(kind, ns, pod, node, plugin);
      Lookup(Replay(weights, before), at) == Lookup(Replay(weights, before + between), at)
  }

  /** Exactly when it did: what was recorded since, in the end, repeats what had been recorded. */
  lemma ReadOutCompleteIff(weights: Weights, before: seq<Op>, between: seq<Op>, kind: Kind, ns: string, pod: string)
    requires Delete(NewKey(ns, pod)) !in between
    ensures ReadOutComplete(weights, before, between, kind, ns, pod)
       <==> forall node, plugin :: var at := Place(kind, ns, pod, node, plugin);
              LastWrite(weights, between, at).Some? ==>
                LastWrite(weights, between, at) == LastWrite(weights, before, at)
  {
    forall node, plugin
      ensures var at := Place(kind, ns, pod, node, plugin);
              && Lookup(Replay(weights, before), at) == LastWrite(weights, before, at)
              && Lookup(Replay(weights, before + between), at)
              == if LastWrite(weights, between, at).Some? then LastWrite(weights, between, at)
                 else LastWrite(weights, before, at)
    {
      var at := Place(kind, ns, pod, node, plugin);
      LookupIsLastWrite(weights, before, at);
      LookupAfter(weights, before, between, at);
    }
  }

  /** A pod's results do not go away unless they are deleted. */
  lemma {:induction false} ResultsStay(weights: Weights, before: seq<Op>, between: seq<Op>, k: string)
    requires k in Replay(weights, before) && Delete(k) !in between
    ensures k in Replay(weights, before + between)
  {
    if between == [] {
      assert before + between == before;
    } else {
      var last := |between| - 1;
      ResultsStay(weights, before, between[..last], k);
      assert before + between == before + between[..last] + [between[last]];
      ReplayStep(weights, before + between[..last], between[last]);
    }
  }

  /** What writing a pod's results to it comes to. */
  datatype Annotating = NoResults | NilPointer | Annotated(filter: Sheet, score: Sheet, finalscore: Sheet)

  /** Each kind of result is read out by itself, and others may use the store in between. If the pod's results are gone
      by then, a nil pointer is dereferenced. */
  function ReadOut(weights: Weights, ops: seq<Op>, gap1: seq<Op>, gap2: seq<Op>, k: string): Annotating {
    var first, second, third :=
      Replay(weights, ops), Replay(weights, ops + gap1), Replay(weights, ops + gap1 + gap2);
    if k !in first then NoResults
    else if k !in second || k !in third then NilPointer
    else Annotated(first[k].filter, second[k].score, third[k].finalscore)
  }

  /** Without another deletion of the pod's results nothing is missing, and each kind of result is what was written last
      when that kind was read: filter results first, then scores, then final scores. */
  lemma ReadOutIsSafe(weights: Weights, ops: seq<Op>, gap1: seq<Op>, gap2: seq<Op>, ns: string, pod: string)
    requires NewKey(ns, pod) in Replay(weights, ops)
    requires Delete(NewKey(ns, pod)) !in gap1 && Delete(NewKey(ns, pod)) !in gap2
    ensures var r := ReadOut(weights, ops, gap1, gap2, NewKey(ns, pod));
            && r.Annotated?
            && forall node, plugin ::
                 && Read(r.filter, node, plugin) == LastWrite(weights, ops, Place(Filter, ns, pod, node, plugin))
                 && Read(r.score, node, plugin) == LastWrite(weights, ops + gap1, Place(Score, ns, pod, node, plugin))
                 && Read(r.finalscore, node, plugin)
                 == LastWrite(weights, ops + gap1 + gap2, Place(FinalScore, ns, pod, node, plugin))
  {
    ResultsStay(weights, ops, gap1, NewKey(ns, pod));
    ResultsStay(weights, ops + gap1, gap2, NewKey(ns, pod));
    forall node, plugin, kind, done
      ensures Lookup(Replay(weights, done), Place(kind, ns, pod, node, plugin))
           == LastWrite(weights, done, Place(kind, ns, pod, node, plugin))
    {
      LookupIsLastWrite(weights, done, Place(kind, ns, pod, node, plugin));
    }
  }

  /** The key of a concrete pod. */
  lemma PodKey()
    ensures NewKey("default", "pod1") == "default/pod1"
  {
    assert "default" + "/" + "pod1" == "default/pod1";
  }

  // ---- The store object ----

  /** The first half of adding a score: only the raw score is there yet. */
  function WithScore(store: map<string, Results>, k: string, node: string, plugin: string,
                     score: int): map<string, Results> {
    var r := ResultsOf(store, k);
    store[k := r.(score := Write(r.score, node, plugin, Decimal(score)))]
  }

  lemma ScoreThenFinal(weights: Weights, store: map<string, Results>, k: string, node: string, plugin: string,
                       score: int)
    ensures Step(weights, WithScore(store, k, node, plugin, score), AddNormalized(k, node, plugin, score))
         == Step(weights, store, AddScore(k, node, plugin, score))
  {
  }

  class Store {
    var results: map<string, Results>
    const scorePluginWeight: Weights

    // Every operation so far, in the order the lock granted them.
    ghost var ops: seq<Op>

    ghost predicate Valid()
      reads this
    {
      results == Replay(scorePluginWeight, ops)
    }

    constructor (weights: Weights)
      ensures Valid() && results == map[] && ops == [] && scorePluginWeight == weights
    {
      results, scorePluginWeight, ops := map[], weights, [];
    }

    method AddFilterResult(namespace: string, podName: string, nodeName: string, pluginName: string, reason: string)
      requires Valid()
      modifies this
      ensures Valid() && ops == old(ops) + [AddFilter(NewKey(namespace, podName), nodeName, pluginName, reason)]
      ensures results == Step(scorePluginWeight, old(results),
                              AddFilter(NewKey(namespace, podName), nodeName, pluginName, reason))
    {
      var k := NewKey(namespace, podName);
      if k !in results {
        results := results[k := NO_RESULTS];
      }
      var filter := results[k].filter;
      if nodeName !in filter {
        filter := filter[nodeName := map[]];
      }
      filter := filter[nodeName := filter[nodeName][pluginName := reason]];
      assert filter == Write(results[k].filter, nodeName, pluginName, reason);
      results := results[k := results[k].(filter := filter)];
      assert results == old(results)[k := ResultsOf(old(results), k).(filter := filter)];
      ops := ops + [AddFilter(k, nodeName, pluginName, reason)];
      ReplayStep(scorePluginWeight, old(ops), AddFilter(k, nodeName, pluginName, reason));
    }

    method AddScoreResult(namespace: string, podName: string, nodeName: string, pluginName: string, score: int)
      requires Valid()
      modifies this
      ensures Valid() && ops == old(ops) + [AddScore(NewKey(namespace, podName), nodeName, pluginName, score)]
      ensures results == Step(scorePluginWeight, old(results),
                              AddScore(NewKey(namespace, podName), nodeName, pluginName, score))
    {
      var k := NewKey(namespace, podName);
      if k !in results {
        results := results[k := NO_RESULTS];
      }
      var scores := results[k].score;
      if nodeName !in scores {
        scores := scores[nodeName := map[]];
      }
      scores := scores[nodeName := scores[nodeName][pluginName := Decimal(score)]];
      assert scores == Write(results[k].score, nodeName, pluginName, Decimal(score));
      results := results[k := results[k].(score := scores)];
      assert results == WithScore(old(results), k, nodeName, pluginName, score);
      AddNormalizedScoreResultWithoutLock(k, nodeName, pluginName, score);
      ScoreThenFinal(scorePluginWeight, old(results), k, nodeName, pluginName, score);
      ops := ops + [AddScore(k, nodeName, pluginName, score)];
      ReplayStep(scorePluginWeight, old(ops), AddScore(k, nodeName, pluginName, score));
    }

    method AddNormalizedScoreResult(namespace: string, podName: string, nodeName: string, pluginName: string,
                                    score: int)
      requires Valid()
      modifies this
      ensures Valid() && ops == old(ops) + [AddNormalized(NewKey(namespace, podName), nodeName, pluginName, score)]
      ensures results == Step(scorePluginWeight, old(results),
                              AddNormalized(NewKey(namespace, podName), nodeName, pluginName, score))
    {
      var k := NewKey(namespace, podName);
      AddNormalizedScoreResultWithoutLock(k, nodeName, pluginName, score);
      ops := ops + [AddNormalized(k, nodeName, pluginName, score)];
      ReplayStep(scorePluginWeight, old(ops), AddNormalized(k, nodeName, pluginName, score));
    }

    method AddNormalizedScoreResultWithoutLock(k: string, nodeName: string, pluginName: string, score: int)
      modifies `results
      ensures results == Step(scorePluginWeight, old(results), AddNormalized(k, nodeName, pluginName, score))
    {
      if k !in results {
        results := results[k := NO_RESULTS];
      }
      var finals := results[k].finalscore;
      if nodeName !in finals {
        finals := finals[nodeName := map[]];
      }
      finals := finals[nodeName := finals[nodeName][pluginName := Weighted(scorePluginWeight, pluginName, score)]];
      assert finals
          == Write(results[k].finalscore, nodeName, pluginName, Weighted(scorePluginWeight, pluginName, score));
      results := results[k := results[k].(finalscore := finals)];
      assert results == old(results)[k := ResultsOf(old(results), k).(finalscore := finals)];
    }

    method DeleteData(k: string)
      requires Valid()
      modifies this
      ensures Valid() && ops == old(ops) + [Delete(k)] && results == old(results) - {k}
    {
      results := results - {k};
      ops := ops + [Delete(k)];
      ReplayStep(scorePluginWeight, old(ops), Delete(k));
    }

    /** What others record in the store. */
    method Interfere(others: seq<Op>)
      requires Valid()
      modifies this
      ensures Valid() && ops == old(ops) + others
    {
      for i := 0 to |others|
        invariant Valid() && ops == old(ops) + others[..i]
      {
        results := Step(scorePluginWeight, results, others[i]);
        ReplayStep(scorePluginWeight, ops, others[i]);
        ops := ops + [others[i]];
        assert others[..i + 1] == others[..i] + [others[i]];
      }
      assert others[..|others|] == others;
    }

    /** When a pod is updated its results are written to it, and forgotten once that has succeeded. The gaps and
        `meanwhile` are what others do to the store between the reads and while the pod is being written. */
    method AddSchedulingResultToPod(namespace: string, podName: string, gap1: seq<Op>, gap2: seq<Op>,
                                    meanwhile: seq<Op>, updateSucceeds: bool)
      returns (annotating: Annotating)
      requires Valid()
      modifies this
      ensures Valid()
      ensures annotating == ReadOut(scorePluginWeight, old(ops), gap1, gap2, NewKey(namespace, podName))
      ensures annotating.NoResults? ==> ops == old(ops)
      ensures annotating.Annotated? ==>
        ops == old(ops) + gap1 + gap2 + meanwhile
               + if updateSucceeds then [Delete(NewKey(namespace, podName))] else []
      ensures annotating.Annotated? && updateSucceeds ==> NewKey(namespace, podName) !in results
    {
      var k := NewKey(namespace, podName);
      if k !in results {
        return NoResults;
      }
      var filter := results[k].filter;
      Interfere(gap1);
      if k !in results {
        return NilPointer;
      }
      var score := results[k].score;
      Interfere(gap2);
      if k !in results {
        return NilPointer;
      }
      annotating := Annotated(filter, score, results[k].finalscore);
      Interfere(meanwhile);
      if updateSucceeds {
        DeleteData(k);
      }
    }
  }
}

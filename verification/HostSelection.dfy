/** Choosing one of the best-scored nodes at random (selectHost in minisched/minisched.go). */
module HostSelection {
  import opened Framework

  // ---- What the best entries are ----

  function Best(scores: seq<NodeScore>): int
    requires scores != []
  {
    var last := |scores| - 1;
    if last == 0 then scores[0].score
    else
      var best := Best(scores[..last]);
      if scores[last].score > best then scores[last].score else best
  }

  predicate IsBest(scores: seq<NodeScore>, p: nat)
    requires p < |scores|
  {
    forall i :: 0 <= i < |scores| ==> scores[i].score <= scores[p].score
  }

  /** How many entries share the best score. */
  function BestCount(scores: seq<NodeScore>): (n: nat)
    requires scores != []
    ensures n > 0
  {
    var last := |scores| - 1;
    if last == 0 then 1
    else
      var best := Best(scores[..last]);
      if scores[last].score > best then 1
      else if scores[last].score == best then BestCount(scores[..last]) + 1
      else BestCount(scores[..last])
  }

  ghost function BestPositions(scores: seq<NodeScore>): set<nat> {
    set p: nat | p < |scores| && IsBest(scores, p)
  }

  lemma BestPositionsByScore(scores: seq<NodeScore>)
    requires scores != []
    ensures BestPositions(scores) == set p: nat | p < |scores| && scores[p].score == Best(scores)
  {
    forall p: nat | p < |scores| ensures IsBest(scores, p) <==> scores[p].score == Best(scores) {
      BestByScore(scores, p);
    }
  }

  lemma {:induction false} BestIsMaximum(scores: seq<NodeScore>)
    requires scores != []
    ensures forall i :: 0 <= i < |scores| ==> scores[i].score <= Best(scores)
    ensures exists i :: 0 <= i < |scores| && scores[i].score == Best(scores)
  {
    var last := |scores| - 1;
    if last == 0 {
      assert scores[0].score == Best(scores);
    } else {
      BestIsMaximum(scores[..last]);
      var j :| 0 <= j < last && scores[..last][j].score == Best(scores[..last]);
      assert scores[j].score == Best(scores[..last]);
      assert forall i :: 0 <= i < last ==> scores[..last][i] == scores[i];
      assert scores[j].score == Best(scores) || scores[last].score == Best(scores);
    }
  }

  lemma BestByScore(scores: seq<NodeScore>, p: nat)
    requires p < |scores|
    ensures IsBest(scores, p) <==> scores[p].score == Best(scores)
  {
    BestIsMaximum(scores);
  }

  lemma {:induction false} BestCountCounts(scores: seq<NodeScore>)
    requires scores != []
    ensures |BestPositions(scores)| == BestCount(scores)
  {
    var last := |scores| - 1;
    BestPositionsByScore(scores);
    if last == 0 {
      assert BestPositions(scores) == {0};
    } else {
      var front := scores[..last];
      BestCountCounts(front);
      BestPositionsByScore(front);
      BestIsMaximum(front);
      var before := BestPositions(front);
      assert forall p: nat :: p < last ==> front[p] == scores[p];
      assert last !in before;
      if scores[last].score > Best(front) {
        assert BestPositions(scores) == {last};
      } else if scores[last].score == Best(front) {
        assert BestPositions(scores) == before + {last};
      } else {
        assert BestPositions(scores) == before;
      }
    }
  }

  // ---- The draws ----

  /** Every sequence of draws the loop can make: one draw below the running count at each tie, none elsewhere. */
  ghost function DrawSpace(scores: seq<NodeScore>): set<seq<nat>>
    requires scores != []
  {
    var last := |scores| - 1;
    if last == 0 then {[]}
    else if scores[last].score == Best(scores[..last]) then
      Extensions(DrawSpace(scores[..last]), 0, BestCount(scores[..last]) + 1)
    else DrawSpace(scores[..last])
  }

  /** Each sequence of `draws`, followed by each number from `lo` up to but not including `hi`. */
  ghost function Extensions(draws: set<seq<nat>>, lo: nat, hi: nat): set<seq<nat>> {
    set d, r | d in draws && lo <= r < hi :: d + [r]
  }

  /** The position the reservoir ends up holding. */
  function Pick(scores: seq<NodeScore>, draws: seq<nat>): (p: nat)
    requires scores != []
    ensures p < |scores|
  {
    var last := |scores| - 1;
    if last == 0 then 0
    else if scores[last].score > Best(scores[..last]) then last
    else if scores[last].score < Best(scores[..last]) then Pick(scores[..last], draws)
    else if draws == [] || draws[|draws| - 1] == 0 then last
    else Pick(scores[..last], draws[..|draws| - 1])
  }

  /** Drawing in order; a name is returned, and an empty list is an error. */
  method SelectHost(scores: seq<NodeScore>, draws: seq<nat>) returns (r: Result<string, string>)
    requires scores != [] ==> draws in DrawSpace(scores)
    ensures scores == [] ==> r.Err?
    ensures scores != [] ==> r == Ok(scores[Pick(scores, draws)].name)
  {
    if |scores| == 0 {
      return Err("empty priorityList");
    }
    var maxScore := scores[0].score;
    var selected := scores[0].name;
    var cntOfMaxScore := 1;
    var drawn := 0;
    for i := 1 to |scores|
      invariant maxScore == Best(scores[..i]) && cntOfMaxScore == BestCount(scores[..i])
      invariant drawn == DrawsMade(scores, i) && drawn <= |draws|
      invariant selected == scores[Pick(scores[..i], draws[..drawn])].name
    {
      ExamineOne(scores, draws, i);
      var ns := scores[i];
      if ns.score > maxScore {
        maxScore := ns.score;
        selected := ns.name;
        cntOfMaxScore := 1;
      } else if ns.score == maxScore {
        cntOfMaxScore := cntOfMaxScore + 1;
        if draws[drawn] == 0 {
          selected := ns.name;
        }
        drawn := drawn + 1;
      }
    }
    assert scores[..|scores|] == scores && draws[..drawn] == draws by {
      PrefixDraws(scores, draws, |scores|);
    }
    return Ok(selected);
  }

  /** What one more entry does to the running best, its count and the entry held. */
  lemma ExamineOne(scores: seq<NodeScore>, draws: seq<nat>, i: nat)
    requires 0 < i < |scores| && draws in DrawSpace(scores)
    ensures DrawsMade(scores, i) <= DrawsMade(scores, i + 1) <= |draws|
    ensures var best, count, drawn := Best(scores[..i]), BestCount(scores[..i]), DrawsMade(scores, i);
            var held := Pick(scores[..i], draws[..drawn]);
            && Best(scores[..i + 1]) == (if scores[i].score > best then scores[i].score else best)
            && BestCount(scores[..i + 1])
               == (if scores[i].score > best then 1 else if scores[i].score == best then count + 1 else count)
            && DrawsMade(scores, i + 1) == (if scores[i].score == best then drawn + 1 else drawn)
            && Pick(scores[..i + 1], draws[..DrawsMade(scores, i + 1)])
               == (if scores[i].score > best || (scores[i].score == best && draws[drawn] == 0) then i else held)
  {
    PrefixDraws(scores, draws, i + 1);
    assert scores[..i + 1][..i] == scores[..i];
    var drawn := DrawsMade(scores, i);
    if scores[i].score == Best(scores[..i]) {
      assert draws[..drawn + 1][..drawn] == draws[..drawn];
    }
  }

  /** How many draws are made while the first `n` entries are examined. */
  function DrawsMade(scores: seq<NodeScore>, n: nat): nat
    requires n <= |scores|
  {
    if n <= 1 then 0 else DrawsMade(scores, n - 1) + if scores[n - 1].score == Best(scores[..n - 1]) then 1 else 0
  }

  lemma {:induction false} DrawSpaceLength(scores: seq<NodeScore>, n: nat, draws: seq<nat>)
    requires 0 < n <= |scores| && draws in DrawSpace(scores[..n])
    ensures |draws| == DrawsMade(scores, n)
  {
    if n > 1 {
      assert scores[..n][..n - 1] == scores[..n - 1];
      if scores[n - 1].score == Best(scores[..n - 1]) {
        DrawSpaceLength(scores, n - 1, draws[..|draws| - 1]);
      } else {
        DrawSpaceLength(scores, n - 1, draws);
      }
    }
  }

  /** A legal sequence of draws is legal for every prefix of the list. */
  lemma {:induction false} PrefixDraws(scores: seq<NodeScore>, draws: seq<nat>, n: nat)
    requires scores != [] && draws in DrawSpace(scores) && 0 < n <= |scores|
    ensures |draws| == DrawsMade(scores, |scores|) && DrawsMade(scores, n) <= |draws|
    ensures draws[..DrawsMade(scores, n)] in DrawSpace(scores[..n])
    decreases |scores| - n
  {
    assert scores[..|scores|] == scores;
    DrawSpaceLength(scores, |scores|, draws);
    if n == |scores| {
      assert draws[..|draws|] == draws;
    } else {
      PrefixDraws(scores, draws, n + 1);
      assert scores[..n + 1][..n] == scores[..n];
      var d := draws[..DrawsMade(scores, n + 1)];
      if scores[n].score == Best(scores[..n]) {
        assert d[..|d| - 1] == draws[..DrawsMade(scores, n)];
      }
    }
  }

  // ---- Every draw picks a best entry ----

  lemma {:induction false} PickIsBest(scores: seq<NodeScore>, draws: seq<nat>)
    requires scores != []
    ensures IsBest(scores, Pick(scores, draws))
  {
    var last := |scores| - 1;
    BestIsMaximum(scores);
    if last > 0 {
      var front := scores[..last];
      BestIsMaximum(front);
      PickIsBest(front, draws);
      BestByScore(front, Pick(front, draws));
      if draws != [] {
        PickIsBest(front, draws[..|draws| - 1]);
        BestByScore(front, Pick(front, draws[..|draws| - 1]));
      }
    }
    BestByScore(scores, Pick(scores, draws));
  }

  // ---- The choice is uniform ----

  /** The draws that make the loop return position `p`. */
  ghost function Favouring(scores: seq<NodeScore>, p: nat): set<seq<nat>>
    requires scores != []
  {
    set d | d in DrawSpace(scores) && Pick(scores, d) == p
  }

  ghost function Suffixed(draws: set<seq<nat>>, r: nat): set<seq<nat>> {
    set d | d in draws :: d + [r]
  }

  lemma {:induction false} SuffixedSize(draws: set<seq<nat>>, r: nat)
    ensures |Suffixed(draws, r)| == |draws|
  {
    if draws != {} {
      var d :| d in draws;
      SuffixedSize(draws - {d}, r);
      assert Suffixed(draws, r) == Suffixed(draws - {d}, r) + {d + [r]};
      assert d + [r] !in Suffixed(draws - {d}, r) by {
        forall e | e in draws - {d} ensures e + [r] != d + [r] {
          assert (e + [r])[..|e|] == e && (d + [r])[..|d|] == d;
        }
      }
    }
  }

  lemma Distribute(n: int, k: int)
    ensures n * k == n * (k - 1) + n
  {
  }

  lemma ExtensionsSplit(draws: set<seq<nat>>, lo: nat, hi: nat)
    requires lo <= hi
    ensures Extensions(draws, lo, hi + 1) == Extensions(draws, lo, hi) + Suffixed(draws, hi)
    ensures |Extensions(draws, lo, hi + 1)| == |Extensions(draws, lo, hi)| + |draws|
  {
    var shorter, longest := Extensions(draws, lo, hi), Suffixed(draws, hi);
    forall x | x in shorter ensures x !in longest {
      assert x[|x| - 1] < hi;
    }
    forall x | x in Extensions(draws, lo, hi + 1) ensures x in shorter + longest {
      var d, r :| d in draws && lo <= r < hi + 1 && x == d + [r];
      assert r < hi || x == d + [hi];
    }
    SuffixedSize(draws, hi);
  }

  lemma {:induction false} ExtensionsSize(draws: set<seq<nat>>, lo: nat, k: nat)
    ensures |Extensions(draws, lo, lo + k)| == |draws| * k
  {
    if k == 0 {
      assert Extensions(draws, lo, lo + k) == {};
    } else {
      ExtensionsSize(draws, lo, k - 1);
      ExtensionsSplit(draws, lo, lo + (k - 1));
      Distribute(|draws|, k);
    }
  }

  /** At a tie, every earlier sequence of draws followed by a zero selects the new entry. */
  lemma TieTaken(scores: seq<NodeScore>)
    requires |scores| > 1 && scores[|scores| - 1].score == Best(scores[..|scores| - 1])
    ensures Favouring(scores, |scores| - 1) == Extensions(DrawSpace(scores[..|scores| - 1]), 0, 1)
  {
    var last := |scores| - 1;
    var front := scores[..last];
    forall x | x in Favouring(scores, last) ensures x in Extensions(DrawSpace(front), 0, 1) {
      var d, r :| d in DrawSpace(front) && 0 <= r < BestCount(front) + 1 && x == d + [r];
      assert x[..|x| - 1] == d && x[|x| - 1] == r;
      assert r == 0;
    }
    forall x | x in Extensions(DrawSpace(front), 0, 1) ensures x in Favouring(scores, last) {
      var d, r :| d in DrawSpace(front) && 0 <= r < 1 && x == d + [r];
      assert x[|x| - 1] == 0;
      assert x in DrawSpace(scores);
    }
  }

  /** Followed by any other draw it selects what it selected before. */
  lemma TieKept(scores: seq<NodeScore>, p: nat)
    requires |scores| > 1 && scores[|scores| - 1].score == Best(scores[..|scores| - 1]) && p < |scores| - 1
    ensures var front := scores[..|scores| - 1];
            Favouring(scores, p) == Extensions(Favouring(front, p), 1, BestCount(front) + 1)
  {
    var last := |scores| - 1;
    var front := scores[..last];
    forall x | x in Favouring(scores, p) ensures x in Extensions(Favouring(front, p), 1, BestCount(front) + 1) {
      var d, r :| d in DrawSpace(front) && 0 <= r < BestCount(front) + 1 && x == d + [r];
      assert x[..|x| - 1] == d && x[|x| - 1] == r;
      assert r > 0 && d in Favouring(front, p);
    }
    forall x | x in Extensions(Favouring(front, p), 1, BestCount(front) + 1) ensures x in Favouring(scores, p) {
      var d, r :| d in Favouring(front, p) && 1 <= r < BestCount(front) + 1 && x == d + [r];
      assert x[..|x| - 1] == d && x[|x| - 1] == r;
      assert x in DrawSpace(scores);
    }
  }

  /** With k best entries, each best position is returned for exactly one k-th of all possible draws, others never. */
  lemma {:induction false} PickIsUniform(scores: seq<NodeScore>, p: nat)
    requires p < |scores|
    ensures |DrawSpace(scores)| > 0
    ensures IsBest(scores, p) ==> |Favouring(scores, p)| * BestCount(scores) == |DrawSpace(scores)|
    ensures !IsBest(scores, p) ==> Favouring(scores, p) == {}
  {
    var last := |scores| - 1;
    if !IsBest(scores, p) {
      forall d | d in DrawSpace(scores) ensures Pick(scores, d) != p {
        PickIsBest(scores, d);
      }
    }
    BestByScore(scores, p);
    if last == 0 {
      assert Favouring(scores, p) == {[]};
    } else {
      var front := scores[..last];
      var k := BestCount(front);
      BestIsMaximum(front);
      if scores[last].score == Best(front) {
        PickIsUniform(front, if p < last then p else 0);
        ExtensionsSize(DrawSpace(front), 0, k + 1);
        if p == last {
          TieTaken(scores);
          ExtensionsSize(DrawSpace(front), 0, 1);
        } else if IsBest(scores, p) {
          TieKept(scores, p);
          BestByScore(front, p);
          ExtensionsSize(Favouring(front, p), 1, k);
        }
      } else {
        PickIsUniform(front, if p < last then p else 0);
        if p == last {
          if scores[last].score > Best(front) {
            assert Favouring(scores, p) == DrawSpace(front);
          }
        } else {
          BestByScore(front, p);
          if scores[last].score < Best(front) {
            assert Favouring(scores, p) == Favouring(front, p);
          }
        }
      }
    }
  }
}

/** The plugin that prefers nodes whose name ends in the pod's digit (minisched/plugins/score/nodenumber). */
module NodeNumber {
  import opened Framework

  const NAME := "NodeNumber"
  const STATE_KEY := "PreScoreNodeNumber"
  const MATCH_SCORE := 10
  const SECOND := 1_000_000_000
  const PERMIT_TIMEOUT := 10 * SECOND

  /** The last character of a name, if it is a decimal digit. Names of Kubernetes objects are never empty. */
  function LastDigit(name: string): (d: Option<nat>)
    ensures d.Some? ==> d.value <= 9
  {
    if name == "" then None
    else
      var c := name[|name| - 1];
      if '0' <= c <= '9' then Some((c as int) - ('0' as int)) else None
  }

  // ---- The same, spelled out by characters ----

  /** The name's last character is the digit `k`. */
  predicate EndsIn(name: string, k: nat) {
    k < 10 && name != "" && name[|name| - 1] == "0123456789"[k]
  }

  predicate EndsInDigit(name: string) {
    exists k :: 0 <= k < 10 && EndsIn(name, k)
  }

  lemma LastDigitIsCharacter(name: string)
    ensures forall k: nat :: EndsIn(name, k) <==> LastDigit(name) == Some(k)
    ensures EndsInDigit(name) <==> LastDigit(name).Some?
  {
    assert "0123456789"[0] == '0' && "0123456789"[9] == '9';
    forall k: nat ensures EndsIn(name, k) <==> LastDigit(name) == Some(k) {
      if k < 10 {
        assert "0123456789"[k] as int == '0' as int + k;
      }
    }
    if LastDigit(name).Some? {
      assert EndsIn(name, LastDigit(name).value);
    }
  }

  /** Whatever comes before the digit. */
  lemma LastDigitOf(stem: string, k: nat)
    requires k < 10
    ensures LastDigit(stem + ["0123456789"[k]]) == Some(k)
  {
    LastDigitIsCharacter(stem + ["0123456789"[k]]);
    assert EndsIn(stem + ["0123456789"[k]], k);
  }

  /** After pre-scoring a pod, a node scores 10 if both names end in the same digit and 0 otherwise, and scoring fails
      exactly for a pod that ends in no digit. */
  lemma ScoreMeans(state: CycleState, pod: Pod, node: string)
    requires "PreScoreNodeNumber" !in state
    ensures var (after, status) := PreScore(state, pod);
            && status.code == Success
            && (Score(after, node).1.code == Success <==> EndsInDigit(pod.name))
            && (!EndsInDigit(pod.name) ==> Score(after, node) == (0, Status(Error, "", "not found")))
            && (EndsInDigit(pod.name) ==>
                  Score(after, node).0 == if exists k: nat :: EndsIn(pod.name, k) && EndsIn(node, k) then 10 else 0)
  {
    LastDigitIsCharacter(pod.name);
    LastDigitIsCharacter(node);
  }

  /** A node that ends in the digit k is waited for: the plugin allows after k seconds and gives up after ten. Any other
      node is permitted at once. */
  lemma PermitMeans(node: string)
    ensures forall k :: 0 <= k < 10 && EndsIn(node, k) ==>
              && Permit(node) == (Status(Wait, "", ""), 10_000_000_000)
              && LastDigit(node).Some? && AllowDelay(node) == k * 1_000_000_000
    ensures !EndsInDigit(node) ==> Permit(node) == (Status(Success, "", ""), 0)
  {
    LastDigitIsCharacter(node);
  }

  function PreScore(state: CycleState, pod: Pod): (CycleState, Status) {
    match LastDigit(pod.name)
    case None => (state, PASSED)
    case Some(d) => (state[STATE_KEY := d], PASSED)
  }

  function Score(state: CycleState, node: string): (int, Status) {
    if STATE_KEY !in state then (0, Status(Error, "", "not found"))
    else
      match LastDigit(node)
      case None => (0, PASSED)
      case Some(d) => if state[STATE_KEY] == d then (MATCH_SCORE, PASSED) else (0, PASSED)
  }

  function Permit(node: string): (Status, int) {
    if LastDigit(node).None? then (PASSED, 0) else (Status(Wait, "", ""), PERMIT_TIMEOUT)
  }

  /** After how long the plugin calls Allow, for a node it asks to wait for. */
  function AllowDelay(node: string): int
    requires LastDigit(node).Some?
  {
    LastDigit(node).value * SECOND
  }

  const PRE_SCORE := PreScorePlugin(NAME, (state, pod, _) => PreScore(state, pod))
  const SCORE := ScorePlugin(NAME, (state, _, node) => Score(state, node), None)
  const PERMIT := PermitPlugin(NAME, (_, _, node) => Permit(node))
}

/** The scheduling framework's vocabulary, as far as the mini scheduler uses it. */
module Framework {

  datatype Option<+T> = None | Some(value: T)

  datatype Result<+T, +E> = Ok(value: T) | Err(error: E)

  /** Status codes a plugin can return. */
  datatype Code = Success | Error | Unschedulable | UnschedulableAndUnresolvable | Wait | Skip

  /** A plugin's answer; a nil status is the success status `PASSED`. */
  datatype Status = Status(code: Code, failedPlugin: string, message: string) {
    predicate IsSuccess() {
      code == Success
    }

    predicate IsUnschedulable() {
      code == Unschedulable || code == UnschedulableAndUnresolvable
    }
  }

  const PASSED := Status(Success, "", "")

  datatype Pod = Pod(name: string, namespace: string, uid: string)

  datatype Node = Node(name: string, unschedulable: bool, labels: map<string, string>)

  datatype NodeScore = NodeScore(name: string, score: int)

  /** What plugins share during one scheduling cycle. */
  type CycleState = map<string, int>

  // Plugins are arbitrary functions. A normaliser changes the entries of the list it is handed
  // but cannot change the list's length, so it is given by the value it leaves at each index.
  datatype FilterPlugin = FilterPlugin(name: string, filter: (Pod, Node) -> Status)

  datatype PreScorePlugin =
    PreScorePlugin(name: string, preScore: (CycleState, Pod, seq<Node>) -> (CycleState, Status))

  datatype Normalizer =
    Normalizer(entry: (CycleState, Pod, seq<NodeScore>, nat) -> NodeScore,
               status: (CycleState, Pod, seq<NodeScore>) -> Status)

  datatype ScorePlugin =
    ScorePlugin(name: string, score: (CycleState, Pod, string) -> (int, Status), extensions: Option<Normalizer>)

  datatype PermitPlugin = PermitPlugin(name: string, permit: (CycleState, Pod, string) -> (Status, int))

  // ---- Cluster events ----

  /** A bit mask of actions, one bit for each kind of change; the framework uses six bits. */
  type ActionType = bv8

  const ADD: ActionType := 0x01
  const DELETE: ActionType := 0x02
  const UPDATE: ActionType := 0x3C
  const ALL: ActionType := 0x3F

  const NODE_RESOURCE := "Node"
  const WILDCARD_RESOURCE := "*"

  datatype ClusterEvent = ClusterEvent(resource: string, actionType: ActionType, description: string) {
    predicate IsWildCard() {
      resource == WILDCARD_RESOURCE && actionType == ALL
    }
  }

  /** Which plugins registered for which event. */
  type EventMap = map<ClusterEvent, set<string>>
}

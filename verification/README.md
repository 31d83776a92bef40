# mini-kube-scheduler: a model and its proofs

This project models the scheduling part of mini-kube-scheduler in Dafny and proves what it does for all inputs, all
plugins and all runs.

* The **queue** (`Queue`, `Backoff`) has a FIFO list of pods to schedule, a back-off list and a map of pods that failed.
  Cluster events move failed pods back; `EventWiring` says which changes become events.
* A **scheduling cycle** (`Filtering`, `Scoring`, `Normalizing`, `HostSelection`, `Permitting`, `SchedulingCycle`) takes
  a pod, filters and scores the nodes, picks one of the best at random and asks the permit plugins. `NodeNumber`,
  `DigitChoice` and `ConfiguredRuns` are about the plugins the scheduler is started with.
* A **waiting pod** (`WaitingPods`, `TimedPermit`) collects the answers of permit plugins and delivers one verdict.
* The **system** (`System`, `Conservation`, `BindingSafety`, `Histories`) interleaves the scheduling loop, any number of
  binding cycles, permit calls and cluster events. A run is any sequence of enabled steps from the empty system.
  `Schedulers` holds the scheduler object, and `SchedulerRuns` proves that its methods take these steps. `TimedSystem`
  puts the system on the clock.
* The **simulator's** result store and configuration conversion (`ResultStore`, `Decimals`, `SimulatorConfig`,
  `PluginArguments`).
* `Framework` holds the scheduling framework's vocabulary and `Tally` counts occurrences in sequences and maps.

Objects the program updates in place are classes whose methods are proved against functions on values; the results are
then proved about those functions. Plugins are arbitrary functions. Map iteration order, clock readings, random draws,
node listings and the outcome of Bind are arbitrary.

## Where the code differs from its comments

* `NodeNumber` says that a pod without a digit suffix is fine, but scoring such a pod always fails (`ProceedsIffDigit`).
* `podBackoffQ` is filled and never emptied, because flushing it is not implemented: exactly the pods woken within a
  second of their failure end there, and are never scheduled again (`WokenEarlyIsLost`, `APodIsLost`).
* A plugin that registers for every event is not woken by any node change unless some plugin registers a node event
  (`WildcardAloneNeverWakes`, `WokenIff`).
* Normalising the partly filled score list after every node can reverse the ranking (`ScalingReversesRanking`). Among
  pointwise normalisers it is harmless exactly for the idempotent ones (`OftenIsOnceIffIdempotent`); for those that look
  at the whole list `AlwaysOnceIffAbsorbs` says exactly when no step makes a difference.
* `ConvertForSimulator` says it ignores non-default plugins, but keeps those the user enabled exactly when the wildcard
  is disabled (`IgnoresForeignIff`, `ForeignIsKept`).
* Results recorded while a pod's annotations are being written are deleted unseen, unless they repeat what was there
  (`LateResultIsLost`, `ReadOutCompleteIff`).
* `NewPluginConfig` crashes on a name that is not configured by default, unless bad text for a configured name comes
  before the first such entry with arguments; then it returns an error (`ExpansionByName`).
* NodeNumber's timer, which is started before the waiting pod is registered, crashes exactly when it fires before the
  registration (`CrashesIff`): whenever registration is as late as the delay, at once for a node ending in 0
  (`LateRegistrationCrashes`).

## Assumptions

* `NextPod`, the accesses to `waitingPods` and `DeleteData` take no lock in the program; each is one atomic step here.
* Each pod is added once; names contain no underscore; a uid, and a name with its namespace, each
  identify one pod. Node and pod names are not empty.
* Timers are exact. `TimedSystem` speaks of runs in which no timer fires before its pod is registered.
* The bits of event actions and the wildcard event are those of the Kubernetes 1.22 scheduling framework.

## Model

| member | source | states |
|---|---|---|
| Conservation.RunConserves | minisched/minisched.go:32-113 | In every state of every interleaved run each added pod occurs exactly once across activeQ, podBackoffQ, unschedulableQ, the scheduling loop, the binding cycles and the bound pods; no pod that was not added occurs anywhere; map keys stay those of their pods |
| Conservation.StepOccurrences | minisched/minisched.go:32-113 | No step, on any success or failure path, loses or duplicates a pod; only adding a pod changes a count |
| Conservation.KeyIsFree | minisched/queue/queue.go:95-107 | Filing a failed pod can never replace another pod: while the loop or a binding cycle holds a pod, no entry exists under its key |
| Conservation.OneCyclePerPod | minisched/minisched.go:96-112 | At most one binding cycle works for a pod, and none does while the scheduling loop holds it |
| BindingSafety.BindingsAreRight | minisched/minisched.go:49-112 | Whenever Bind is attempted or has succeeded, in any run: the node was listed in that cycle's snapshot, passes every filter, has a maximal total among the feasible nodes, no permit plugin refused, and every plugin that asked to wait has called Allow on that cycle's own waiting pod |
| BindingSafety.EntriesMatchCycles | minisched/minisched.go:228-245 | A waitingPods entry for a uid exists exactly while a cycle of that uid is between registration and the return of WaitOnPermit, it is that cycle's own object, and cycles in flight never share a uid |
| BindingSafety.EnterFindsOwn | minisched/minisched.go:240-245 | A binding cycle that registered no waiting pod finds no entry, so it never waits on somebody else's |
| BindingSafety.RunSafe | minisched/minisched.go:201-264 | The invariant behind both results: at every stage of every cycle the waiting pod, its calls and the signal taken are consistent with the decision of the cycle |
| Histories.UnschedulablePodsAreAttributed | minisched/minisched.go:283-298 | In every reachable state, if every node listed in its most recent cycle got an answer other than success, a pod in unschedulableQ names exactly the plugins that gave the first such answer for some node; after any other failure it names nobody |
| Histories.TimestampIsFailure | minisched/queue/queue.go:95-101 | In every reachable state a pod in unschedulableQ carries the clock reading of the step that last reported a failure of it |
| Histories.FirstInFirstOut | minisched/queue/queue.go:35-92 | Over every run, everything ever appended to activeQ, by Add or by an event, is what NextPod returned so far followed by the current activeQ |
| Histories.LeavesOnlyOnEvent | minisched/queue/queue.go:54-82 | An entry of unschedulableQ is left as it is by every step except an event one of its plugins answers (or any event, if it names none), and such an event removes it |
| Histories.BackedOffIsNeverBound | minisched/queue/queue.go:75-76 | Nothing takes pods from podBackoffQ: a pod that once got there is still there in every later state and is never bound |
| Histories.WokenEarlyIsLost | minisched/queue/queue.go:65-82 | In every run a pod is lost, that is in podBackoffQ for good and never bound, if and only if some event of the run that its plugins answer came less than 1,000,000,000 nanoseconds after the step that last reported its failure; attempts are never counted, so the backoff is always that second |
| Histories.BackedOffIffWokenEarly | minisched/queue/queue.go:65-82 | In every run a pod is in podBackoffQ if and only if some event of the run woke it less than a second after its latest failure |
| Histories.APodIsLost | minisched/queue/queue.go:54-82 | A concrete run, for any plugins, events and pod, that loses the pod: its nodes cannot be listed, and an event comes at once |
| Queue.KeyInjective | minisched/queue/queue.go:152-154 | Pods whose names contain no underscore have the same key only if name and namespace agree |
| Queue.KeyCollision | minisched/queue/queue.go:152-154 | A concrete pair of different pods with the same key once an underscore is allowed |
| Queue.MovePartition | minisched/queue/queue.go:54-82 | For any map order and any clock: a pod stays exactly when it names plugins, the event is not the wildcard, and none of its plugins is on record for the wildcard or for an event of the same resource that shares an action bit; every other pod is appended to podBackoffQ exactly when its timestamp plus 1, 1, 2, 4, 8 or 10 seconds, by its attempts, is strictly after the clock reading, otherwise to activeQ; the old lists remain prefixes |
| Queue.MovableIffAnswered | minisched/queue/queue.go:167-190 | Whether an event lets a pod leave, spelled out by resource names and action bits |
| Queue.MoveConserves | minisched/queue/queue.go:65-82 | An event leaves every pod as often in the three stores as before |
| Queue.MoveByClock | minisched/queue/queue.go:206-216 | With a clock that never runs backwards, a backoff over at the first reading means activeQ and one not over at the last reading means podBackoffQ |
| Queue.SchedulingQueue.constructor | minisched/queue/queue.go:26-33 | A new queue is empty and keeps the event map it is given |
| Queue.SchedulingQueue.Add | minisched/queue/queue.go:35-43 | A new info with the current time, no attempt and no plugin is appended to activeQ; the other stores are unchanged |
| Queue.SchedulingQueue.NextPod | minisched/queue/queue.go:84-92 | The head of a non-empty activeQ is removed and returned |
| Queue.SchedulingQueue.AddUnschedulable | minisched/queue/queue.go:95-107 | The info is filed under its pod's name, an underscore and its namespace, with the current time as its timestamp, replacing what was there; the lists are unchanged |
| Queue.SchedulingQueue.PodMatchesEvent | minisched/queue/queue.go:167-190 | True exactly for a wildcard event or when a plugin of the pod is on record for a wildcard or for an event of the same resource that shares an action bit, for any order of the map |
| Queue.SchedulingQueue.IsPodBackingoff | minisched/queue/queue.go:206-216 | Whether timestamp plus backoff is strictly after the clock reading |
| Queue.SchedulingQueue.MovePodsToActiveOrBackoffQueue | minisched/queue/queue.go:65-82 | The loop has the effect described by MovePartition, and the append history grows by what was appended to activeQ |
| Queue.SchedulingQueue.MoveAllToActiveOrBackoffQueue | minisched/queue/queue.go:54-62 | Ranging over the map in any order collects each entry once and moves the pods accordingly |
| Queue.Intersect | minisched/queue/queue.go:192-202 | True exactly when the sets share an element, whichever is smaller |
| Backoff.CalculateBackoffDuration | minisched/queue/queue.go:218-235 | For any 0 < initial <= max and any attempts the loop returns min(initial * 2^(max(attempts,1)-1), max); every intermediate value is a 64-bit duration, so nothing overflows |
| Backoff.CappedMonotone | minisched/queue/queue.go:225-235 | More attempts never shorten the backoff, which stays between initial and max |
| Backoff.CappedStep | minisched/queue/queue.go:227-233 | One more attempt doubles the backoff until the cap is met, and then keeps the cap |
| Backoff.CappedFirst | minisched/queue/queue.go:226-227 | Up to one attempt the backoff is the initial one; with CappedStep this fixes every value |
| Backoff.BackoffIsTable | minisched/queue/queue.go:218-235 | The scheduler's own backoffs in nanoseconds: one second up to the first attempt, then two, four, eight and from the fifth on ten seconds |
| Filtering.RunFilterPlugins | minisched/minisched.go:115-151 | The nested loops return the accepted nodes, and a fit error exactly when every node got an answer other than success; it names exactly the plugins that gave the first such answer for some node |
| Filtering.FeasibleIsSubsequence | minisched/minisched.go:124-141 | The feasible list is the order-preserving subsequence of exactly the positions for which every filter answers with the code for success |
| Filtering.FailureMeans | minisched/minisched.go:129-148 | A fit error is reported exactly when no node fits; its pod is the cycle's and its plugins are exactly the first to reject |
| Filtering.FitErrorNamesPlugins | minisched/minisched.go:129-148 | When no node fits, the error names a plugin exactly when there was a node |
| Filtering.FirstRejecterExists | minisched/minisched.go:130-137 | A node that is not accepted has a first rejecting plugin |
| Scoring.RunPreScorePlugins | minisched/minisched.go:153-162 | The loop stops at the first failure and returns its status with the state written so far |
| Scoring.PreScoredThreads | minisched/minisched.go:153-162 | Pre-scoring succeeds exactly when the state can be passed through all plugins in order with success, and yields what comes out |
| Scoring.FirstFailureEnds | minisched/minisched.go:153-162 | The first pre-score plugin that fails ends the phase with its status and the state it left |
| Scoring.RunScorePlugins | minisched/minisched.go:164-199 | The loops yield the totals of the score table, or the status of the first failing call in node-then-plugin order |
| Scoring.FirstFailureDecides | minisched/minisched.go:168-184 | When the first failing turn is that of a plugin at a node, scoring fails with the status of its Score call or, if that succeeded, of its NormalizeScore call on the column with the new score entered |
| Scoring.ScoreNode | minisched/minisched.go:168-184 | The inner loop over the plugins for one node |
| Scoring.AddUp | minisched/minisched.go:189-196 | Each node's total is the sum over the table's columns for any order of ranging over the map, names in node order |
| Normalizing.TotalsBySum | minisched/minisched.go:164-199 | With distinct plugin names, scoring succeeds exactly when every plugin alone would, and each total is the sum over the plugins of the scores they produce alone |
| Normalizing.TableByColumns | minisched/minisched.go:167-185 | With distinct names every column of the table is what its plugin would have produced alone |
| Normalizing.ColumnIterates | minisched/minisched.go:173-182 | With a pointwise normaliser the node scored k-th of n ends up normalised n-k times |
| Normalizing.OftenIsOnceIffIdempotent | minisched/minisched.go:178-182 | For pointwise normalisers: normalising after every node equals normalising once, for all plugins and node lists, if and only if the normaliser is idempotent |
| Normalizing.AlwaysOnceIffAbsorbs | minisched/minisched.go:173-182 | For any normaliser that does not fail: the column is at every point what one normalisation of the scores so far would give if and only if, at each node, having normalised the earlier scores makes no difference to normalising now; then the final column is the once-normalised one |
| Normalizing.TotalsAreOnceSums | minisched/minisched.go:164-199 | With distinct names, and plugins without normaliser, with a pointwise idempotent one or with one that absorbs, each total is the sum over the plugins of their scores normalised once |
| Normalizing.HarmlessAbsorbs | minisched/minisched.go:178-182 | Having no normaliser, or a pointwise idempotent one, meets that condition for every list of nodes |
| Normalizing.ScalingReversesRanking | minisched/minisched.go:178-182 | A normaliser that scales the best score to 100 turns the ranking of two concrete nodes round when it is applied after each node, and fails the condition |
| HostSelection.SelectHost | minisched/minisched.go:304-325 | An empty list is an error; otherwise the loop returns the name at the position the draws pick |
| HostSelection.PickIsBest | minisched/minisched.go:308-323 | Every sequence of draws picks an entry with the maximal score |
| HostSelection.PickIsUniform | minisched/minisched.go:304-325 | Counting all sequences of draws the loop can make: with k maximal entries each of them is picked by exactly one k-th of the sequences and no other entry by any, across resets of the counter |
| HostSelection.BestCountCounts | minisched/minisched.go:310-317 | The running counter ends as the number of maximal entries |
| HostSelection.BestIsMaximum | minisched/minisched.go:308-314 | The running maximum ends as the maximum of the list |
| Permitting.RunPermitPlugins | minisched/minisched.go:201-237 | The loop returns the first refusal, else the wait times of the plugins that asked, else permission |
| Permitting.AskMeans | minisched/minisched.go:204-233 | An answer whose code is neither success nor wait decides, and the first one is reported under its plugin's name, with its own code and message if it is one of the two rejections and as an error otherwise; without one, exactly the plugins that answered wait are waited for; permission is immediate exactly when all answer success |
| Permitting.WaitTimes | minisched/minisched.go:217-220 | A plugin is waited for as long as it asked; of several with one name the last one counts |
| SchedulingCycle.RunCycle | minisched/minisched.go:39-94 | Listing, filtering, pre-scoring, scoring, selection and permit in sequence, with the plugins recorded on every failure path |
| SchedulingCycle.ProceedIsSound | minisched/minisched.go:49-94 | A cycle that proceeds chose, by its own draws, a listed node that passes every filter and has a maximal total among the feasible nodes, scored in the state that pre-scoring those nodes left; no permit plugin denies it, and the wait list is exactly the plugins that asked |
| SchedulingCycle.ProceedsIff | minisched/minisched.go:39-94 | A cycle proceeds exactly when listing worked, some listed node is accepted by every filter, pre-scoring and scoring succeed and no permit plugin refuses the choice |
| NodeNumber.LastDigitIsCharacter | minisched/plugins/score/nodenumber/nodenumber.go:51-52 | The number the plugin reads from a name is k exactly when the name's last character is the decimal digit k |
| NodeNumber.LastDigitOf | minisched/plugins/score/nodenumber/nodenumber.go:79-80 | Whatever comes before the digit does not count |
| NodeNumber.ScoreMeans | minisched/plugins/score/nodenumber/nodenumber.go:50-91 | After pre-scoring, scoring succeeds exactly for pods that end in a digit, and gives 10 to a node that ends in the same digit and 0 to any other |
| NodeNumber.PermitMeans | minisched/plugins/score/nodenumber/nodenumber.go:102-118 | A node that ends in the digit k is waited for, up to 10,000,000,000 nanoseconds, and allowed after k times 1,000,000,000; any other node is permitted at once |
| DigitChoice.DigitNodeIsChosen | minisched/plugins/score/nodenumber/nodenumber.go:50-119 | With the configured plugins, for a pod whose last character is the digit k and with a feasible node, every sequence of draws selects a feasible node, one whose last character is k if there is any, and the cycle waits ten seconds at most on NodeNumber exactly when the node ends in a digit |
| ConfiguredRuns.ConfiguredBindings | minisched/minisched.go:49-112 | In every state of every run with the configured plugins, each bound pod's last character is a digit, its node was listed and fits and ends in that digit if any listed node that fits does, and NodeNumber has allowed the pod if the node ends in a digit |
| ConfiguredRuns.ProceedsByDigit | minisched/minisched.go:49-94 | The same for every cycle that proceeds |
| DigitChoice.ProceedsIffDigit | minisched/plugins/score/nodenumber/nodenumber.go:53-77 | With a feasible node the cycle proceeds if and only if the pod's name ends in a digit; otherwise it gives up blaming nobody |
| DigitChoice.TotalsAreDigitScores | minisched/plugins/score/nodenumber/nodenumber.go:73-95 | The totals exist exactly for pods whose last character is a digit, and are 10 for feasible nodes that end in it and 0 for others |
| Schedulers.Scheduler.constructor | minisched/initialize.go:35-78 | A new scheduler has an empty queue over the events both plugins register, no waiting pods, and for additions, updates and deletions of nodes a handler exactly when a registered node event has the bit 0x01, one of 0x3C, or 0x02 |
| Schedulers.Scheduler.ScheduleOne | minisched/minisched.go:32-95 | The head of the queue is decided on; on failure it is filed with the blamed plugins and nothing else changes; on success a new waiting pod with the right plugins is entered exactly when some plugin asked to wait |
| Schedulers.Scheduler.ErrorFunc | minisched/minisched.go:283-298 | The pod is filed under its key with the current time, no attempt, and the plugins of the fit error, if it was one |
| Schedulers.Scheduler.WaitOnPermit | minisched/minisched.go:240-264 | Success at once without an entry; otherwise the signal is returned, the entry deleted, other waiting pods untouched, and a first success signal means every initial plugin has allowed |
| Schedulers.Scheduler.BindingCycle | minisched/minisched.go:96-112 | The pod is bound exactly when the wait and the Bind call succeed; otherwise it is filed blaming nobody; its own object has given its signal and other waiting pods are untouched |
| SchedulerRuns.Start | minisched/initialize.go:35-78 | A new scheduler object is in the state of the empty run |
| SchedulerRuns.PodAdded | minisched/eventhandler.go:80-85 | Adding a pod takes the object from the state of a run to that of the run with the matching step |
| SchedulerRuns.EventArrives | minisched/queue/queue.go:54-62 | The same for a cluster event, in the map order the object happened to use |
| SchedulerRuns.PluginCalls | minisched/waitingpod/waitingpod.go:80-115 | The same for a call of Allow or Reject on any waiting-pod object ever made |
| SchedulerRuns.OneCycle | minisched/minisched.go:32-95 | ScheduleOne takes the object from the state of a run to that of the run extended by popping, deciding, and then returning the pod, or registering it if somebody asked to wait and starting the binding cycle, which is then about to wait for the pod |
| SchedulerRuns.OneBinding | minisched/minisched.go:96-112 | BindingCycle takes the object from the state of a run to that of the run extended by the steps of waiting and of binding, or of returning the pod |
| WaitingPods.FirstSignal | minisched/waitingpod/waitingpod.go:61-115 | For every interleaving of calls the first GetSignal returns the verdict of the calls before it, and later calls do not change that verdict |
| WaitingPods.VerdictIsFirstDecisive | minisched/waitingpod/waitingpod.go:80-115 | The verdict is the outcome of the first decisive call: an unschedulable status with the plugin and message of a Reject, or success for an Allow that leaves no initial plugin un-allowed; there is none without a decisive call |
| WaitingPods.VerdictStands | minisched/waitingpod/waitingpod.go:93-114 | No later call changes a verdict |
| WaitingPods.PendingIsUnallowed | minisched/waitingpod/waitingpod.go:83-91 | Pending plugins are always the initial ones minus those that called Allow |
| WaitingPods.SlotHoldsVerdict | minisched/waitingpod/waitingpod.go:29-49 | Until it is read the one-slot mailbox holds exactly the verdict |
| WaitingPods.SuccessMeansAllAllowed | minisched/waitingpod/waitingpod.go:88-98 | A success verdict means every initial plugin called Allow |
| WaitingPods.WaitingPod.constructor | minisched/waitingpod/waitingpod.go:28-52 | Every plugin is pending with a running timer of its own wait time, and the mailbox is empty |
| WaitingPods.WaitingPod.Allow | minisched/waitingpod/waitingpod.go:80-99 | The plugin and its timer are removed, and success is sent without blocking once nobody is pending |
| WaitingPods.WaitingPod.Reject | minisched/waitingpod/waitingpod.go:102-115 | All pending timers are stopped, nobody is removed, and the rejection is sent without blocking |
| WaitingPods.WaitingPod.GetSignal | minisched/waitingpod/waitingpod.go:61-63 | The mailbox is emptied, and the first signal is the verdict of all calls so far |
| WaitingPods.WaitingPod.GetPendingPlugins | minisched/waitingpod/waitingpod.go:66-75 | Each initial plugin that has not called Allow, once |
| TimedPermit.AllowedOnTime | minisched/plugins/score/nodenumber/nodenumber.go:102-119 | With exact timers and any number of pods waiting and coming back, in a run without a crash a pod sent to a node whose last character is the digit k has its mailbox filled exactly k times 1,000,000,000 nanoseconds after it was sent there, and receives success; no time-out timer, set at least ten seconds after that, ever becomes due |
| TimedPermit.FireFindsOwn | minisched/plugins/score/nodenumber/nodenumber.go:109-112 | The lookup by uid that a firing timer makes yields the object of the very visit that set the timer, and yields nothing, which crashes, exactly when that visit is not registered yet |
| TimedPermit.CrashesIff | minisched/plugins/score/nodenumber/nodenumber.go:109-112 | A run crashes exactly when its last step is a plugin's timer firing before its visit is registered |
| TimedPermit.LateRegistrationCrashes | minisched/plugins/score/nodenumber/nodenumber.go:109-112 | A concrete run for every node ending in a digit: registration is as late as the delay, and the timer fires before it |
| TimedPermit.TimeoutIsTenSeconds | minisched/waitingpod/waitingpod.go:42-49 | A time-out timer was set by a registration of its visit, for ten seconds later |
| TimedPermit.TimeoutNotDue | minisched/waitingpod/waitingpod.go:42-49 | A ten-second time-out that is still set is never due |
| TimedPermit.RunKeeps | minisched/waitingpod/waitingpod.go:80-99 | The timer invariant over all runs without a crash: before its timer a visit is undecided and on time, after it success was sent at that instant and no timer is left; entries are those of unfinished visits |
| TimedSystem.BoundAfterDelay | minisched/plugins/score/nodenumber/nodenumber.go:102-119 | In every run of the whole system on the clock, with the configured plugins, a pod bound to a node whose last character is the digit k was sent there at least k seconds ago, and its wait was decided exactly k seconds after that |
| TimedSystem.TicksAreFeasible | minisched/plugins/score/nodenumber/nodenumber.go:102-119 | Without the system a timed run is a run of the clock |
| TimedSystem.TimedRunIsLegal | minisched/minisched.go:32-113 | Without its clock a timed run is a run of the system |
| TimedSystem.ClockAllows | minisched/minisched.go:228-245 | The clock restricts the system by nothing but the timers being due: whatever else the system can do, it can do on the clock; in particular an earlier visit of a popped pod has always ended |
| TimedSystem.TimedRunKeeps | minisched/minisched.go:228-264 | In every timed run the system's waitingPods and waiting-pod objects are those the clock knows, and every cycle's object belongs to a visit to that cycle's node |
| EventWiring.RegisterClusterEvents | minisched/initialize.go:159-167 | The loop adds the name to the set of each event |
| EventWiring.RegisteredMeans | minisched/initialize.go:159-167 | After any sequence of registrations a name is on record for an event exactly when some registration of that name contains it |
| EventWiring.EventsToRegister | minisched/initialize.go:140-157 | Both plugins' events are on record under the first plugin's name and under no other |
| EventWiring.UnionedGVKs | minisched/initialize.go:169-179 | For every mask and any map order, the union for a resource meets the mask exactly when some registered event of the resource does |
| EventWiring.BuildEvtResHandler | minisched/eventhandler.go:37-58 | Handlers for additions, updates and deletions exist exactly when the bits meet 0x01, 0x3C and 0x02, and hand the queue an event of the resource with those very bits |
| EventWiring.InstallHandlers | minisched/eventhandler.go:60-76 | Ranging over the union, only the node resource gets handlers |
| EventWiring.AddAllEventHandlers | minisched/eventhandler.go:14-77 | A handler for additions, updates or deletions of nodes is installed exactly when some registered node event meets 0x01, 0x3C or 0x02, and hands the queue the node event with those bits |
| EventWiring.OnPodAdded | minisched/eventhandler.go:80-90 | A pod is queued exactly when no node is assigned to it |
| EventWiring.WokenIff | minisched/eventhandler.go:37-76 | An addition, update or deletion of a node moves a pod exactly when some registered node event meets 0x01, 0x3C or 0x02, and the pod names no plugin or one that registered such an event or the wildcard |
| EventWiring.RegisteredChangeWakes | minisched/queue/queue.go:167-190 | Completeness: if a plugin registered a node change, the handler is installed and that change leaves no pod naming the plugin in unschedulableQ |
| EventWiring.WokenOnlyByRegistration | minisched/queue/queue.go:65-82 | Soundness: a pod that names plugins leaves on a change only if one of them registered it or a wildcard |
| EventWiring.WildcardAloneNeverWakes | minisched/eventhandler.go:60-76 | A plugin that registered only the wildcard event installs no handler, so its pods are never woken by a node change |
| ResultStore.LookupIsLastWrite | scheduler/plugin/resultstore/store.go:171-238 | Under any sequence of adds and deletes every filter, score and final-score lookup is the last value written there since the pod's last delete |
| ResultStore.FinalScoreIsWeighted | scheduler/plugin/resultstore/store.go:215-234 | A final score is the decimal text of the weight, zero if unknown, times the last raw or normalised score, as a signed 64-bit number |
| ResultStore.FinalScoreIsProduct | scheduler/plugin/resultstore/store.go:231-234 | With 32-bit scores and weights it is the text of the product |
| ResultStore.ScoreHasFinalScore | scheduler/plugin/resultstore/store.go:188-205 | Every score entry has a final-score entry |
| ResultStore.PodsAreSeparate | scheduler/plugin/resultstore/store.go:76-79 | What is recorded for one pod never changes what is read for another |
| ResultStore.QuietReadOutIsComplete | scheduler/plugin/resultstore/store.go:105-134 | Results read out for a pod are still all there is at the deletion if nothing was recorded for the pod in between |
| ResultStore.LookupAfter | scheduler/plugin/resultstore/store.go:171-238 | After any further operations but a delete, a place holds what they wrote there last, or else what it held before |
| ResultStore.LateResultIsLost | scheduler/plugin/resultstore/store.go:105-134 | However many results are recorded between the read-out and the deletion: what they wrote last is held at the deletion, is gone afterwards, and was shown only if the same value was there before |
| ResultStore.ReadOutCompleteIff | scheduler/plugin/resultstore/store.go:105-134 | For each kind of result: the read-out shows all that the deletion removes if and only if everything recorded in between, in the end, repeats what was recorded before |
| ResultStore.ReadOutIsSafe | scheduler/plugin/resultstore/store.go:98-169 | Reading the three kinds of results one after the other finds them all, unless others delete the pod's results: the filter results, then the scores, then the final scores, each as last written when it is read |
| ResultStore.KeysDiffer | scheduler/plugin/resultstore/store.go:76-79 | Keys are injective when namespaces contain no slash |
| ResultStore.PodKey | scheduler/plugin/resultstore/store.go:76-79 | The key of a concrete pod |
| ResultStore.Store.constructor | scheduler/plugin/resultstore/store.go:52-58 | A new store is empty and keeps the weights |
| ResultStore.Store.AddFilterResult | scheduler/plugin/resultstore/store.go:171-185 | One filter entry is written, creating the maps on the way; the rest is unchanged |
| ResultStore.Store.AddScoreResult | scheduler/plugin/resultstore/store.go:188-205 | The raw score and its weighted final score are written; the rest is unchanged |
| ResultStore.Store.AddNormalizedScoreResult | scheduler/plugin/resultstore/store.go:208-229 | The weighted final score is written; the rest is unchanged |
| ResultStore.Store.DeleteData | scheduler/plugin/resultstore/store.go:236-238 | The pod's results are forgotten and no other's |
| ResultStore.Store.AddSchedulingResultToPod | scheduler/plugin/resultstore/store.go:90-135 | The three kinds of results are read out one after the other, then the pod is written, while others use the store at any point, and the results are deleted exactly when the write succeeds; results that are gone between two reads are a nil pointer |
| Decimals.DecimalInjective | scheduler/plugin/resultstore/store.go:201 | Different scores have different texts |
| Decimals.DecimalReads | scheduler/plugin/resultstore/store.go:201 | The text of a number is its decimal digits without leading zeros, after a minus sign exactly for negative numbers |
| Decimals.Wrap64IsCongruent | scheduler/plugin/resultstore/store.go:231-234 | The 64-bit product is the only signed 64-bit number that differs from the product by a multiple of 2^64 |
| Decimals.ProductFits | scheduler/plugin/resultstore/store.go:231-234 | A 32-bit weight times a score of at most 32 bits does not wrap |
| SimulatorConfig.ConvertForSimulator | scheduler/plugin/plugins.go:146-202 | Both extension points are converted, the others copied |
| SimulatorConfig.ConversionMeans | scheduler/plugin/plugins.go:146-202 | The filter set is converted by the filter defaults and the score set by the score defaults: the enabled list is kept if a plugin named '*' is disabled and otherwise becomes the order-preserving image of the defaults that are not disabled, named with the suffix ForSimulator; only '*' is disabled afterwards |
| SimulatorConfig.ConvertPluginSet | scheduler/plugin/plugins.go:148-173 | With the wildcard disabled the enabled list is kept; otherwise it becomes the renamed defaults that are not disabled; the wildcard is disabled afterwards |
| SimulatorConfig.RenamedIsImage | scheduler/plugin/plugins.go:159-165 | The enabled list is the order-preserving renamed image, weights included, of exactly the defaults that are not disabled |
| SimulatorConfig.IgnoresForeignIff | scheduler/plugin/plugins.go:143-173 | A plugin whose name is no default's simulator name is enabled by the conversion exactly when the wildcard is disabled and the user enabled it; so such plugins are ignored if and only if the wildcard is not disabled or none was enabled |
| SimulatorConfig.ForeignIsKept | scheduler/plugin/plugins.go:143-173 | A concrete configuration whose own plugin is not ignored |
| SimulatorConfig.ConvertIdempotent | scheduler/plugin/plugins.go:146-202 | Converting twice is converting once |
| SimulatorConfig.PluginNameInjective | scheduler/plugin/plugins.go:242-244 | Different plugins have different simulator names |
| SimulatorConfig.NewRegistry | scheduler/plugin/plugins.go:44-67 | The loop over score and filter defaults, skipping names already created |
| SimulatorConfig.ScorePluginWeights | scheduler/plugin/plugins.go:25-35 | The store is given a weight for exactly the score plugins: zero when none is set, the last one when a name repeats |
| SimulatorConfig.RegistryHolds | scheduler/plugin/plugins.go:45-66 | Each default name has a factory made from its first occurrence |
| SimulatorConfig.RegistryKeys | scheduler/plugin/plugins.go:45-66 | The registry has no other keys |
| SimulatorConfig.EnabledIsRegistered | scheduler/plugin/plugins.go:44-66 | Every plugin a conversion enables has exactly one factory, which wraps its original and, for a score plugin, carries the score list's weight even if it was enabled as a filter |
| PluginArguments.NewPluginConfig | scheduler/plugin/plugins.go:77-141 | The whole function, including the error return for bad text and the crash on an unknown name |
| PluginArguments.FoldedMeans | scheduler/plugin/plugins.go:93-108 | What the user's entries make of a configured name's arguments: entry by entry, an object replaces the object, text alone is decoded on top of it, an entry with neither leaves it, text that does not decode is an error even beside an object, and the raw bytes stay the default's |
| PluginArguments.DefaultsAre | scheduler/plugin/plugins.go:83-87 | Of several defaults of one name the last one counts |
| PluginArguments.ExpansionByName | scheduler/plugin/plugins.go:77-141 | Exactly one of three outcomes: an error exactly when a configured name meets bad text before the first entry that has arguments for an unknown name; otherwise a crash exactly when some entry names an unknown plugin; otherwise success, and the output is exactly each configured name, and each configured filter or score plugin's name with the suffix ForSimulator, with the default's raw bytes and the object the user's entries make of the default's |
| PluginArguments.UnknownNameMayStillBeRefused | scheduler/plugin/plugins.go:89-108 | Concrete inputs with an unknown name before bad text: without arguments the result is an error, with arguments a crash |
| PluginArguments.OutputNames | scheduler/plugin/plugins.go:110-138 | Each configured name occurs once and each simulator name of a configured plugin once more, however often the default lists repeat it |
| PluginArguments.ApplyByName | scheduler/plugin/plugins.go:89-108 | For any entries, known or not: entries for different names do not influence each other; applying them fails with bad text, crashes, or succeeds exactly by what comes first, and the table afterwards is given name by name |
| PluginArguments.UnknownStaysNil | scheduler/plugin/plugins.go:89-108 | An entry for an unknown name leaves a nil pointer behind, or has failed already |
| PluginArguments.ListTable | scheduler/plugin/plugins.go:110-117 | Ranging over the map in any order lists each name once, or crashes on a nil pointer |
| PluginArguments.CopyConfigured | scheduler/plugin/plugins.go:124-138 | Deleting copied names makes each configured plugin be copied once, at its first occurrence |

## Left out

- The API server, etcd, the volume controller, environment configuration, scenarios and start-up: input and output only.
- The Kubernetes client, informers and JSON: listing nodes and Bind appear as arbitrary outcomes, decoding as an
  arbitrary function, and the annotations as the results they would show.
- The queue's Update, Delete, AssignedPodAdded and AssignedPodUpdated and the two flush functions panic as
  unimplemented; deleting a pod and creating another under its name is out of scope for that reason.
- The escaping of quotes in the plugin name within a permit plugin's error message: plugin names contain none.
- That every pod is eventually scheduled: the program does not ensure it (see `WokenEarlyIsLost`).
- Scores are unbounded integers while they are added up and compared; the 64-bit product with a weight does wrap around.
- Action masks have eight bits, which hold the six the framework defines.
- Aliasing of queue entries: they are values here, since the program hands each info to one store at a time. An info's
  InitialAttemptTimestamp, which nothing reads, is omitted.
- The event map that is filled in place is passed in and returned as a value, and so is the cycle state.
- Filters see no cycle state, which is empty when they are called.
- Probabilities appear as counts: the scores alone fix how many draws are made and from which ranges, so with uniform
  independent draws every sequence of draws is equally likely.
- The Go memory model: races on unlocked state are not modelled beyond the atomic steps above.
- SchedulerRuns.OneCycle, SchedulerRuns.OneBinding: run one method of the object at a time; methods that run at the same
  time are interleaved, step by step, in `System` alone.
- The retry loop around the pod update is library code.
- The pass-through methods of the simulator plugin and the conversion of the whole configuration are thin wrappers; the
  in-tree plugin registry and the default tables are Kubernetes' and arbitrary here.

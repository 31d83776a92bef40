/** Which cluster changes reach the queue (minisched/initialize.go and minisched/eventhandler.go). */
module EventWiring {
  import opened Framework
  import opened Queue

  // ---- Registering ----

  /** A plugin's name and the events registered under it. */
  datatype Registration = Registration(name: string, events: seq<ClusterEvent>)

  function Register(m: EventMap, name: string, evt: ClusterEvent): EventMap {
    m[evt := (if evt in m then m[evt] else {}) + {name}]
  }

  function RegisterEach(m: EventMap, name: string, evts: seq<ClusterEvent>): EventMap {
    if evts == [] then m
    else Register(RegisterEach(m, name, evts[..|evts| - 1]), name, evts[|evts| - 1])
  }

  function Registered(regs: seq<Registration>): EventMap {
    if regs == [] then map[]
    else
      var last := regs[|regs| - 1];
      RegisterEach(Registered(regs[..|regs| - 1]), last.name, last.events)
  }

  method RegisterClusterEvents(name: string, m: EventMap, evts: seq<ClusterEvent>) returns (eventToPlugins: EventMap)
    ensures eventToPlugins == RegisterEach(m, name, evts)
  {
    eventToPlugins := m;
    for i := 0 to |evts|
      invariant eventToPlugins == RegisterEach(m, name, evts[..i])
    {
      assert evts[..i + 1][..i] == evts[..i];
      assert {} + {name} == {name};
      if evts[i] !in eventToPlugins {
        eventToPlugins := eventToPlugins[evts[i] := {name}];
      } else {
        eventToPlugins := eventToPlugins[evts[i] := eventToPlugins[evts[i]] + {name}];
      }
    }
    assert evts[..|evts|] == evts;
  }

  /** The plugin is on record for the event. */
  predicate Lists(m: EventMap, name: string, evt: ClusterEvent) {
    evt in m && name in m[evt]
  }

  lemma {:induction false} RegisterEachLists(m: EventMap, owner: string, evts: seq<ClusterEvent>, name: string,
                                             evt: ClusterEvent)
    ensures Lists(RegisterEach(m, owner, evts), name, evt) <==> Lists(m, name, evt) || (name == owner && evt in evts)
  {
    if evts != [] {
      RegisterEachLists(m, owner, evts[..|evts| - 1], name, evt);
      assert evt in evts <==> evt in evts[..|evts| - 1] || evt == evts[|evts| - 1];
    }
  }

  /** The map holds what was registered: repeats and order leave no trace, and nothing is overwritten. */
  lemma {:induction false} RegisteredMeans(regs: seq<Registration>, name: string, evt: ClusterEvent)
    ensures Lists(Registered(regs), name, evt)
       <==> exists i :: 0 <= i < |regs| && regs[i].name == name && evt in regs[i].events
  {
    if regs != [] {
      var last := |regs| - 1;
      RegisteredMeans(regs[..last], name, evt);
      RegisterEachLists(Registered(regs[..last]), regs[last].name, regs[last].events, name, evt);
    }
  }

  /** Both plugins' events are registered, and both under the first plugin's name. */
  method EventsToRegister(nodeUnschedulable: Registration, nodeNumber: Registration) returns (m: EventMap)
    ensures forall name, evt ::
      Lists(m, name, evt)
      <==> name == nodeUnschedulable.name && (evt in nodeUnschedulable.events || evt in nodeNumber.events)
  {
    m := map[];
    m := RegisterClusterEvents(nodeUnschedulable.name, m, nodeUnschedulable.events);
    m := RegisterClusterEvents(nodeUnschedulable.name, m, nodeNumber.events);
    forall name, evt
      ensures Lists(m, name, evt)
         <==> name == nodeUnschedulable.name && (evt in nodeUnschedulable.events || evt in nodeNumber.events)
    {
      RegisterEachLists(map[], nodeUnschedulable.name, nodeUnschedulable.events, name, evt);
      RegisterEachLists(RegisterEach(map[], nodeUnschedulable.name, nodeUnschedulable.events),
                        nodeUnschedulable.name, nodeNumber.events, name, evt);
    }
  }

  // ---- The union of the action bits ----

  /** Some event of `m` concerns the resource and shares a bit with `mask`. */
  ghost predicate Meets(m: EventMap, resource: string, mask: ActionType) {
    exists evt :: evt in m && evt.resource == resource && evt.actionType & mask != 0
  }

  lemma OrMeets(a: ActionType, b: ActionType, mask: ActionType)
    ensures (a | b) & mask != 0 <==> a & mask != 0 || b & mask != 0
  {
  }

  /** `g` is the union, resource by resource, of the events in `seen`. */
  ghost predicate Unions(m: EventMap, seen: set<ClusterEvent>, g: map<string, ActionType>, mask: ActionType) {
    forall resource :: (resource in g && g[resource] & mask != 0) <==> SeenMeets(seen, resource, mask)
  }

  /** Some event seen concerns the resource and shares a bit with the mask. */
  ghost predicate SeenMeets(seen: set<ClusterEvent>, resource: string, mask: ActionType) {
    exists evt :: evt in seen && evt.resource == resource && evt.actionType & mask != 0
  }

  lemma SeenMeetsStep(seen: set<ClusterEvent>, evt: ClusterEvent, resource: string, mask: ActionType)
    ensures SeenMeets(seen + {evt}, resource, mask)
       <==> SeenMeets(seen, resource, mask) || (evt.resource == resource && evt.actionType & mask != 0)
  {
  }

  lemma UnionsStep(m: EventMap, seen: set<ClusterEvent>, g: map<string, ActionType>, mask: ActionType,
                   evt: ClusterEvent)
    requires Unions(m, seen, g, mask)
    ensures Unions(m, seen + {evt},
                   g[evt.resource := if evt.resource in g then g[evt.resource] | evt.actionType
                                     else evt.actionType],
                   mask)
  {
    if evt.resource in g {
      OrMeets(g[evt.resource], evt.actionType, mask);
    }
    forall resource
      ensures SeenMeets(seen + {evt}, resource, mask)
         <==> SeenMeets(seen, resource, mask) || (evt.resource == resource && evt.actionType & mask != 0)
    {
      SeenMeetsStep(seen, evt, resource, mask);
    }
  }

  /** Ranging over the map in any order yields, for every mask, whether any registered event meets it. */
  method UnionedGVKs(m: EventMap) returns (gvkMap: map<string, ActionType>)
    ensures forall mask: ActionType, resource ::
      (resource in gvkMap && gvkMap[resource] & mask != 0) <==> Meets(m, resource, mask)
  {
    gvkMap := map[];
    var unseen := m.Keys;
    while unseen != {}
      invariant unseen <= m.Keys
      invariant forall mask: ActionType :: Unions(m, m.Keys - unseen, gvkMap, mask)
    {
      var evt :| evt in unseen;
      ghost var before := gvkMap;
      if evt.resource in gvkMap {
        gvkMap := gvkMap[evt.resource := gvkMap[evt.resource] | evt.actionType];
      } else {
        gvkMap := gvkMap[evt.resource := evt.actionType];
      }
      forall mask: ActionType ensures Unions(m, m.Keys - unseen + {evt}, gvkMap, mask) {
        UnionsStep(m, m.Keys - unseen, before, mask, evt);
      }
      assert m.Keys - unseen + {evt} == m.Keys - (unseen - {evt});
      unseen := unseen - {evt};
    }
    forall mask: ActionType, resource
      ensures (resource in gvkMap && gvkMap[resource] & mask != 0) <==> Meets(m, resource, mask)
    {
      assert Unions(m, m.Keys - unseen, gvkMap, mask);
      assert SeenMeets(m.Keys, resource, mask) <==> Meets(m, resource, mask);
    }
  }

  // ---- The handlers ----

  datatype Change = Added | Updated | Deleted

  /** The event each kind of change to a resource is turned into, where a handler is installed. */
  datatype Handlers = Handlers(onAdd: Option<ClusterEvent>, onUpdate: Option<ClusterEvent>,
                               onDelete: Option<ClusterEvent>) {
    function For(change: Change): Option<ClusterEvent> {
      match change
      case Added => onAdd
      case Updated => onUpdate
      case Deleted => onDelete
    }
  }

  function MaskOf(change: Change): ActionType {
    match change
    case Added => ADD
    case Updated => UPDATE
    case Deleted => DELETE
  }

  function LabelOf(change: Change): string {
    match change
    case Added => "Add"
    case Updated => "Update"
    case Deleted => "Delete"
  }

  function HandledAs(resource: string, change: Change): ClusterEvent {
    ClusterEvent(resource, MaskOf(change), resource + LabelOf(change))
  }

  method BuildEvtResHandler(at: ActionType, resource: string) returns (h: Handlers)
    ensures forall change: Change ::
      h.For(change) == if at & MaskOf(change) != 0 then Some(HandledAs(resource, change)) else None
    ensures h.onAdd == if at & 0x01 != 0 then Some(ClusterEvent(resource, 0x01, resource + "Add")) else None
    ensures h.onUpdate == if at & 0x3C != 0 then Some(ClusterEvent(resource, 0x3C, resource + "Update")) else None
    ensures h.onDelete == if at & 0x02 != 0 then Some(ClusterEvent(resource, 0x02, resource + "Delete")) else None
  {
    h := Handlers(None, None, None);
    if at & ADD != 0 {
      h := h.(onAdd := Some(ClusterEvent(resource, ADD, resource + "Add")));
    }
    if at & UPDATE != 0 {
      h := h.(onUpdate := Some(ClusterEvent(resource, UPDATE, resource + "Update")));
    }
    if at & DELETE != 0 {
      h := h.(onDelete := Some(ClusterEvent(resource, DELETE, resource + "Delete")));
    }
  }

  /** What the informers do with a change to a node: the event handed to the queue, if a handler exists. */
  ghost function OnNode(m: EventMap, change: Change): Option<ClusterEvent> {
    if Meets(m, NODE_RESOURCE, MaskOf(change)) then Some(HandledAs(NODE_RESOURCE, change)) else None
  }

  /** Of all the resources in the union, only nodes get handlers. */
  method InstallHandlers(gvkMap: map<string, ActionType>) returns (nodes: Handlers)
    ensures forall change: Change ::
      nodes.For(change) == if NODE_RESOURCE in gvkMap && gvkMap[NODE_RESOURCE] & MaskOf(change) != 0 then
                             Some(HandledAs(NODE_RESOURCE, change))
                           else None
  {
    nodes := Handlers(None, None, None);
    var unseen := gvkMap.Keys;
    while unseen != {}
      invariant unseen <= gvkMap.Keys
      invariant forall change: Change ::
        nodes.For(change) == if NODE_RESOURCE in gvkMap && NODE_RESOURCE !in unseen
                                && gvkMap[NODE_RESOURCE] & MaskOf(change) != 0 then
                               Some(HandledAs(NODE_RESOURCE, change))
                             else None
    {
      var resource :| resource in unseen;
      unseen := unseen - {resource};
      if resource == NODE_RESOURCE {
        nodes := BuildEvtResHandler(gvkMap[resource], NODE_RESOURCE);
      }
    }
  }

  /** Some registered event of nodes shares a bit with `bits`. */
  ghost predicate NodeEventMeets(m: EventMap, bits: ActionType) {
    exists evt :: evt in m && evt.resource == "Node" && evt.actionType & bits != 0
  }

  /** The handlers that are installed, and the event each hands to the queue. */
  ghost predicate Wired(m: EventMap, nodes: Handlers) {
    && nodes.onAdd == (if NodeEventMeets(m, 0x01) then Some(ClusterEvent("Node", 0x01, "NodeAdd")) else None)
    && nodes.onUpdate == (if NodeEventMeets(m, 0x3C) then Some(ClusterEvent("Node", 0x3C, "NodeUpdate")) else None)
    && nodes.onDelete == (if NodeEventMeets(m, 0x02) then Some(ClusterEvent("Node", 0x02, "NodeDelete")) else None)
  }

  /** Each kind of change has its own bits and its own event. */
  lemma OnNodeIsWired(m: EventMap, nodes: Handlers)
    requires forall change: Change :: nodes.For(change) == OnNode(m, change)
    ensures Wired(m, nodes)
  {
    assert nodes.onAdd == nodes.For(Added);
    assert nodes.onUpdate == nodes.For(Updated);
    assert nodes.onDelete == nodes.For(Deleted);
    assert "Node" + "Add" == "NodeAdd" && "Node" + "Update" == "NodeUpdate" && "Node" + "Delete" == "NodeDelete";
    assert NodeEventMeets(m, 0x01) <==> Meets(m, NODE_RESOURCE, MaskOf(Added));
    assert NodeEventMeets(m, 0x3C) <==> Meets(m, NODE_RESOURCE, MaskOf(Updated));
    assert NodeEventMeets(m, 0x02) <==> Meets(m, NODE_RESOURCE, MaskOf(Deleted));
  }

  method AddAllEventHandlers(m: EventMap) returns (nodes: Handlers)
    ensures forall change: Change :: nodes.For(change) == OnNode(m, change)
    ensures Wired(m, nodes)
  {
    var gvkMap := UnionedGVKs(m);
    nodes := InstallHandlers(gvkMap);
    forall change: Change ensures nodes.For(change) == OnNode(m, change) {
      var mask := MaskOf(change);
      assert (NODE_RESOURCE in gvkMap && gvkMap[NODE_RESOURCE] & mask != 0) <==> Meets(m, NODE_RESOURCE, mask);
    }
    OnNodeIsWired(m, nodes);
  }

  /** A pod is queued when it is added and no node has been assigned to it yet. */
  method OnPodAdded(q: SchedulingQueue, pod: Pod, nodeName: string, now: int)
    requires q.Valid()
    modifies q
    ensures q.Valid()
    ensures q.Contents() == if nodeName == "" then AddTo(old(q.Contents()), pod, now) else old(q.Contents())
  {
    if |nodeName| == 0 {
      q.Add(pod, now);
    }
  }

  // ---- Wake-up ----

  /** A change to a node moves the pod out of the unschedulable store. */
  ghost predicate WokenBy(m: EventMap, info: QueuedPodInfo, change: Change) {
    OnNode(m, change).Some? && Movable(m, info, OnNode(m, change).value)
  }

  /** Some plugin registered a node event that shares one of these bits, and the pod names no plugin or one that is on
      record for such an event or for the wildcard. */
  ghost predicate WakesFor(m: EventMap, plugins: set<string>, bits: ActionType) {
    && NodeEventMeets(m, bits)
    && (plugins == {} || SomePluginAnswers(m, plugins, bits))
  }

  ghost predicate SomePluginAnswers(m: EventMap, plugins: set<string>, bits: ActionType) {
    exists evt, name :: Lists(m, name, evt) && name in plugins
      && (|| (evt.resource == "*" && evt.actionType == 0x3F)
          || (evt.resource == "Node" && evt.actionType & bits != 0))
  }

  lemma WokenForBits(m: EventMap, info: QueuedPodInfo, change: Change)
    ensures WokenBy(m, info, change) <==> WakesFor(m, info.unschedulablePlugins, MaskOf(change))
  {
    var incoming, bits := HandledAs(NODE_RESOURCE, change), MaskOf(change);
    assert !incoming.IsWildCard();
    assert NodeEventMeets(m, bits) <==> Meets(m, NODE_RESOURCE, bits);
    if SomePluginAnswers(m, info.unschedulablePlugins, bits) {
      var evt, name :| Lists(m, name, evt) && name in info.unschedulablePlugins
        && (|| (evt.resource == "*" && evt.actionType == 0x3F)
            || (evt.resource == "Node" && evt.actionType & bits != 0));
      assert EventMatches(evt, incoming);
    }
    if evt, name :| evt in m && EventMatches(evt, incoming) && name in m[evt] && name in info.unschedulablePlugins {
      assert Lists(m, name, evt);
    }
  }

  /** Exactly when a change to a node wakes a pod, for an addition, an update and a deletion. */
  lemma WokenIff(m: EventMap, info: QueuedPodInfo)
    ensures WokenBy(m, info, Added) <==> WakesFor(m, info.unschedulablePlugins, 0x01)
    ensures WokenBy(m, info, Updated) <==> WakesFor(m, info.unschedulablePlugins, 0x3C)
    ensures WokenBy(m, info, Deleted) <==> WakesFor(m, info.unschedulablePlugins, 0x02)
  {
    WokenForBits(m, info, Added);
    WokenForBits(m, info, Updated);
    WokenForBits(m, info, Deleted);
  }

  /** The bits stand for the change. */
  predicate BitsOf(change: Change, bits: ActionType) {
    bits == match change case Added => 0x01 case Updated => 0x3C case Deleted => 0x02
  }

  /** Completeness: once a plugin has registered a change of nodes, that change empties the store of its pods. */
  lemma RegisteredChangeWakes(m: EventMap, name: string, evt: ClusterEvent, change: Change, bits: ActionType,
                              q: Queues, infos: seq<QueuedPodInfo>, clock: seq<int>)
    requires Lists(m, name, evt) && evt.resource == "Node" && BitsOf(change, bits) && evt.actionType & bits != 0
    requires Enumerates(infos, q.unschedulableQ) && |infos| == |clock|
    ensures OnNode(m, change).Some?
    ensures var q' := MoveAll(q, infos, Fates(m, infos, OnNode(m, change).value, clock));
            forall k :: k in q'.unschedulableQ ==> name !in q'.unschedulableQ[k].unschedulablePlugins
  {
    ChangeIsHandled(m, evt, change, bits);
    var incoming := OnNode(m, change).value;
    MovePartition(m, q, infos, incoming, clock);
    forall k | k in q.unschedulableQ && name in q.unschedulableQ[k].unschedulablePlugins
      ensures Answered(m, q.unschedulableQ[k].unschedulablePlugins, incoming)
    {
      PluginIsAnswered(m, name, evt, incoming, q.unschedulableQ[k].unschedulablePlugins);
    }
  }

  lemma ChangeIsHandled(m: EventMap, evt: ClusterEvent, change: Change, bits: ActionType)
    requires evt in m && evt.resource == "Node" && BitsOf(change, bits) && evt.actionType & bits != 0
    ensures OnNode(m, change).Some?
    ensures OnNode(m, change).value.resource == "Node" && OnNode(m, change).value.actionType == bits
  {
    assert bits == MaskOf(change);
  }

  lemma PluginIsAnswered(m: EventMap, name: string, evt: ClusterEvent, incoming: ClusterEvent, plugins: set<string>)
    requires Lists(m, name, evt) && name in plugins
    requires evt.resource == incoming.resource && evt.actionType & incoming.actionType != 0
    ensures Answered(m, plugins, incoming)
  {
  }

  /** Soundness: a pod that names plugins leaves the store on a change only if one of them registered it or
      everything. */
  lemma WokenOnlyByRegistration(m: EventMap, change: Change, bits: ActionType, q: Queues, infos: seq<QueuedPodInfo>,
                                clock: seq<int>, k: string)
    requires OnNode(m, change).Some? && Enumerates(infos, q.unschedulableQ) && |infos| == |clock|
    requires k in q.unschedulableQ && q.unschedulableQ[k].unschedulablePlugins != {} && BitsOf(change, bits)
    requires k !in MoveAll(q, infos, Fates(m, infos, OnNode(m, change).value, clock)).unschedulableQ
    ensures SomePluginAnswers(m, q.unschedulableQ[k].unschedulablePlugins, bits)
  {
    MovePartition(m, q, infos, OnNode(m, change).value, clock);
    MovableIffAnswered(m, q.unschedulableQ[k], OnNode(m, change).value);
    WokenForBits(m, q.unschedulableQ[k], change);
  }

  /** A plugin that registered everything, alone, installs no handler at all: its pods are never woken. */
  lemma WildcardAloneNeverWakes(name: string, info: QueuedPodInfo, change: Change)
    ensures !WokenBy(Registered([Registration(name, [ClusterEvent("*", 0x3F, "")])]), info, change)
  {
    var regs := [Registration(name, [ClusterEvent("*", 0x3F, "")])];
    assert regs[..0] == [] && Registered([]) == map[];
    assert regs[0].events[..0] == [] && RegisterEach(map[], name, []) == map[];
    assert Registered(regs) == Register(map[], name, regs[0].events[0]);
    assert NODE_RESOURCE != "*";
  }
}

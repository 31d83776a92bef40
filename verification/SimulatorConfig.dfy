/** Turning a scheduler configuration into the simulator's (scheduler/plugin/plugins.go).
    The default lists and configurations belong to Kubernetes and are arbitrary here. */
module SimulatorConfig {
  import opened Framework

  datatype Plugin = Plugin(name: string, weight: Option<int>)

  datatype PluginSet = PluginSet(enabled: seq<Plugin>, disabled: seq<Plugin>)

  /** `other` stands for the extension points the conversion copies unchanged. */
  datatype Plugins = Plugins(filter: PluginSet, score: PluginSet, other: seq<PluginSet>)

  const SUFFIX := "ForSimulator"
  const ALL_PLUGINS := Plugin("*", None)

  function PluginName(name: string): string {
    name + SUFFIX
  }

  lemma PluginNameInjective(m: string, n: string)
    requires PluginName(m) == PluginName(n)
    ensures m == n
  {
    assert |m| == |n|;
    assert m == PluginName(m)[..|m|] && n == PluginName(n)[..|n|];
  }

  // ---- Which plugins are enabled ----

  predicate Disables(disabled: seq<Plugin>, name: string) {
    exists i :: 0 <= i < |disabled| && disabled[i].name == name
  }

  /** The defaults that are not disabled, in order, renamed for the simulator. */
  function Renamed(defaults: seq<Plugin>, disabled: seq<Plugin>): seq<Plugin> {
    if defaults == [] then []
    else
      var last := defaults[|defaults| - 1];
      Renamed(defaults[..|defaults| - 1], disabled)
      + if Disables(disabled, last.name) then [] else [Plugin(PluginName(last.name), last.weight)]
  }

  function ConvertSet(ps: PluginSet, defaults: seq<Plugin>): PluginSet {
    PluginSet(if Disables(ps.disabled, "*") then ps.enabled else Renamed(defaults, ps.disabled), [ALL_PLUGINS])
  }

  function Converted(pls: Plugins, filters: seq<Plugin>, scores: seq<Plugin>): Plugins {
    Plugins(ConvertSet(pls.filter, filters), ConvertSet(pls.score, scores), pls.other)
  }

  /** The loop over one extension point: note the disabled names, then keep the other defaults. */
  method ConvertPluginSet(ps: PluginSet, defaults: seq<Plugin>) returns (newps: PluginSet)
    ensures newps == ConvertSet(ps, defaults)
  {
    var disabled: set<string> := {};
    for i := 0 to |ps.disabled|
      invariant forall name :: name in disabled <==> exists j :: 0 <= j < i && ps.disabled[j].name == name
    {
      disabled := disabled + {ps.disabled[i].name};
    }
    assert forall name :: name in disabled <==> Disables(ps.disabled, name);
    newps := ps;
    if "*" !in disabled {
      var kept: seq<Plugin> := [];
      for i := 0 to |defaults|
        invariant kept == Renamed(defaults[..i], ps.disabled)
      {
        assert defaults[..i + 1][..i] == defaults[..i];
        if defaults[i].name !in disabled {
          kept := kept + [Plugin(PluginName(defaults[i].name), defaults[i].weight)];
        }
      }
      assert defaults[..|defaults|] == defaults;
      newps := newps.(enabled := kept);
    }
    newps := newps.(disabled := [ALL_PLUGINS]);
  }

  method ConvertForSimulator(pls: Plugins, filters: seq<Plugin>, scores: seq<Plugin>) returns (newpls: Plugins)
    ensures newpls == Converted(pls, filters, scores)
  {
    var score := ConvertPluginSet(pls.score, scores);
    var filter := ConvertPluginSet(pls.filter, filters);
    newpls := pls.(score := score, filter := filter);
  }

  /** Converting twice is converting once. */
  lemma ConvertIdempotent(pls: Plugins, filters: seq<Plugin>, scores: seq<Plugin>)
    ensures Converted(Converted(pls, filters, scores), filters, scores) == Converted(pls, filters, scores)
  {
    assert ALL_PLUGINS.name == "*" && [ALL_PLUGINS][0] == ALL_PLUGINS;
    assert Disables([ALL_PLUGINS], "*");
  }

  /** The positions of the defaults that are kept. */
  function KeptAt(defaults: seq<Plugin>, disabled: seq<Plugin>): seq<nat> {
    if defaults == [] then []
    else
      var last := |defaults| - 1;
      KeptAt(defaults[..last], disabled) + if Disables(disabled, defaults[last].name) then [] else [last]
  }

  /** `at` lists the positions that are not disabled in order, and `renamed` the renamed plugins there. */
  ghost predicate Keeps(defaults: seq<Plugin>, disabled: seq<Plugin>, at: seq<nat>, renamed: seq<Plugin>) {
    && |at| == |renamed|
    && (forall m :: 0 <= m < |at| ==>
          at[m] < |defaults| && renamed[m] == Plugin(defaults[at[m]].name + "ForSimulator", defaults[at[m]].weight))
    && (forall m, n :: 0 <= m < n < |at| ==> at[m] < at[n])
    && (forall i :: 0 <= i < |defaults| ==>
          (i in at <==> forall j :: 0 <= j < |disabled| ==> disabled[j].name != defaults[i].name))
  }

  lemma KeepsWith(defaults: seq<Plugin>, disabled: seq<Plugin>, at: seq<nat>, renamed: seq<Plugin>, pl: Plugin)
    requires Keeps(defaults, disabled, at, renamed) && !Disables(disabled, pl.name)
    ensures Keeps(defaults + [pl], disabled, at + [|defaults|], renamed + [Plugin(PluginName(pl.name), pl.weight)])
  {
    var longer := at + [|defaults|];
    forall i | 0 <= i < |defaults| ensures i in longer <==> i in at {
    }
    assert longer[|at|] == |defaults|;
  }

  lemma KeepsWithout(defaults: seq<Plugin>, disabled: seq<Plugin>, at: seq<nat>, renamed: seq<Plugin>, pl: Plugin)
    requires Keeps(defaults, disabled, at, renamed) && Disables(disabled, pl.name)
    ensures Keeps(defaults + [pl], disabled, at, renamed)
  {
    assert forall m :: 0 <= m < |at| ==> at[m] < |defaults|;
    assert |defaults| !in at;
  }

  /** Unless everything is disabled, the enabled list is the order-preserving, renamed image of exactly the defaults
      that are not disabled, weights included, and user-enabled plugins are ignored. */
  lemma RenamedIsImage(defaults: seq<Plugin>, disabled: seq<Plugin>)
    ensures
      var at, renamed := KeptAt(defaults, disabled), Renamed(defaults, disabled);
      && |at| == |renamed|
      && (forall m :: 0 <= m < |at| ==>
            at[m] < |defaults| && renamed[m] == Plugin(defaults[at[m]].name + "ForSimulator", defaults[at[m]].weight))
      && (forall m, n :: 0 <= m < n < |at| ==> at[m] < at[n])
      && (forall i :: 0 <= i < |defaults| ==>
            (i in at <==> forall j :: 0 <= j < |disabled| ==> disabled[j].name != defaults[i].name))
  {
    RenamedKeeps(defaults, disabled);
  }

  lemma {:induction false} RenamedKeeps(defaults: seq<Plugin>, disabled: seq<Plugin>)
    ensures Keeps(defaults, disabled, KeptAt(defaults, disabled), Renamed(defaults, disabled))
  {
    if defaults != [] {
      var front, pl := defaults[..|defaults| - 1], defaults[|defaults| - 1];
      var at, renamed := KeptAt(front, disabled), Renamed(front, disabled);
      RenamedKeeps(front, disabled);
      assert defaults == front + [pl] && at + [] == at && renamed + [] == renamed;
      if Disables(disabled, pl.name) {
        KeepsWithout(front, disabled, at, renamed, pl);
      } else {
        KeepsWith(front, disabled, at, renamed, pl);
      }
    }
  }

  /** One extension point before and after: a user who disabled everything keeps the enabled list, any other user gets
      the image of the defaults; nothing but the enabled list counts afterwards. */
  ghost predicate ConvertedBy(before: PluginSet, after: PluginSet, defaults: seq<Plugin>) {
    && after.disabled == [Plugin("*", None)]
    && if exists i :: 0 <= i < |before.disabled| && before.disabled[i].name == "*" then after.enabled == before.enabled
       else exists at :: Keeps(defaults, before.disabled, at, after.enabled)
  }

  lemma SetIsConverted(ps: PluginSet, defaults: seq<Plugin>)
    ensures ConvertedBy(ps, ConvertSet(ps, defaults), defaults)
  {
    RenamedKeeps(defaults, ps.disabled);
    assert Keeps(defaults, ps.disabled, KeptAt(defaults, ps.disabled), Renamed(defaults, ps.disabled));
  }

  /** The filter set is converted by the filter defaults, the score set by the score defaults, the rest is copied. */
  lemma ConversionMeans(pls: Plugins, filters: seq<Plugin>, scores: seq<Plugin>)
    ensures var after := Converted(pls, filters, scores);
            && ConvertedBy(pls.filter, after.filter, filters)
            && ConvertedBy(pls.score, after.score, scores)
            && after.other == pls.other
  {
    SetIsConverted(pls.filter, filters);
    SetIsConverted(pls.score, scores);
  }

  /** The name is no default's simulator name. */
  predicate Foreign(defaults: seq<Plugin>, name: string) {
    forall i :: 0 <= i < |defaults| ==> defaults[i].name + "ForSimulator" != name
  }

  predicate IgnoresForeign(ps: PluginSet, defaults: seq<Plugin>) {
    forall p :: p in ConvertSet(ps, defaults).enabled ==> !Foreign(defaults, p.name)
  }

  /** Plugins that are not defaults are ignored unless the user disabled the wildcard and enabled one of them; then each
      of them is kept. */
  lemma IgnoresForeignIff(ps: PluginSet, defaults: seq<Plugin>)
    ensures forall p: Plugin :: Foreign(defaults, p.name) ==>
              (p in ConvertSet(ps, defaults).enabled
               <==> (exists i :: 0 <= i < |ps.disabled| && ps.disabled[i].name == "*") && p in ps.enabled)
    ensures IgnoresForeign(ps, defaults)
       <==> !(&& (exists i :: 0 <= i < |ps.disabled| && ps.disabled[i].name == "*")
              && exists p :: p in ps.enabled && Foreign(defaults, p.name))
  {
    RenamedIsImage(defaults, ps.disabled);
    var at, renamed := KeptAt(defaults, ps.disabled), Renamed(defaults, ps.disabled);
    forall p | p in renamed ensures !Foreign(defaults, p.name) {
      var m :| 0 <= m < |renamed| && renamed[m] == p;
      assert defaults[at[m]].name + "ForSimulator" == p.name;
    }
  }

  /** A plugin of the user's own is kept when the wildcard is disabled, and the default plugin is not converted. */
  lemma ForeignIsKept()
    ensures
      var mine, default := Plugin("Mine", Some(3)), Plugin("NodeName", None);
      var ps := PluginSet([mine], [ALL_PLUGINS]);
      && Foreign([default], mine.name)
      && ConvertSet(ps, [default]).enabled == [mine]
      && !IgnoresForeign(ps, [default])
  {
    var mine, default := Plugin("Mine", Some(3)), Plugin("NodeName", None);
    assert |default.name + "ForSimulator"| > |mine.name|;
    assert [ALL_PLUGINS][0].name == "*";
    assert Disables([ALL_PLUGINS], "*");
    assert mine in [mine];
  }

  // ---- The registry ----

  /** What a simulator plugin is made from: the plugin it wraps, and the weight it reports. */
  datatype Factory = Factory(original: string, weight: int)

  function WeightOf(p: Plugin): int {
    if p.weight.Some? then p.weight.value else 0
  }

  /** No weight means zero. */
  predicate HasWeight(p: Plugin, weight: int) {
    match p.weight
    case None => weight == 0
    case Some(w) => weight == w
  }

  /** The first plugin of the list with this name. */
  predicate FirstNamed(pls: seq<Plugin>, i: nat)
    requires i < |pls|
  {
    forall j :: 0 <= j < i ==> pls[j].name != pls[i].name
  }

  predicate Named(pls: seq<Plugin>, name: string) {
    exists i :: 0 <= i < |pls| && pls[i].name == name
  }

  type Registry = map<string, Factory>

  /** The registry after the first `n` defaults: a name that is already there is skipped. */
  function RegistryOf(defaults: seq<Plugin>, n: nat): Registry
    requires n <= |defaults|
  {
    if n == 0 then map[]
    else
      var before, pl := RegistryOf(defaults, n - 1), defaults[n - 1];
      if PluginName(pl.name) in before then before else before[PluginName(pl.name) := Factory(pl.name, WeightOf(pl))]
  }

  /** Score plugins come first, filter plugins after them. */
  method NewRegistry(scores: seq<Plugin>, filters: seq<Plugin>) returns (registry: Registry)
    ensures registry == RegistryOf(scores + filters, |scores + filters|)
  {
    var defaults := scores + filters;
    registry := map[];
    for i := 0 to |defaults|
      invariant registry == RegistryOf(defaults, i)
    {
      var key := PluginName(defaults[i].name);
      if key in registry {
        continue;
      }
      registry := registry[key := Factory(defaults[i].name, WeightOf(defaults[i]))];
    }
  }

  /** There is a factory for exactly the names that occur. */
  lemma {:induction false} RegistryHas(defaults: seq<Plugin>, n: nat, name: string)
    requires n <= |defaults|
    ensures PluginName(name) in RegistryOf(defaults, n) <==> Named(defaults[..n], name)
  {
    if n > 0 {
      RegistryHas(defaults, n - 1, name);
      NamedStep(defaults, n, name);
      if PluginName(defaults[n - 1].name) == PluginName(name) {
        PluginNameInjective(defaults[n - 1].name, name);
      }
    }
  }

  /** It is made from the first plugin that bears the name. */
  lemma {:induction false} RegistryHolds(defaults: seq<Plugin>, n: nat, i: nat)
    requires i < n <= |defaults| && FirstNamed(defaults, i)
    ensures var key := defaults[i].name + "ForSimulator";
            && key in RegistryOf(defaults, n)
            && RegistryOf(defaults, n)[key].original == defaults[i].name
            && HasWeight(defaults[i], RegistryOf(defaults, n)[key].weight)
  {
    if i == n - 1 {
      RegistryHas(defaults, i, defaults[i].name);
      assert !Named(defaults[..i], defaults[i].name);
    } else {
      RegistryHolds(defaults, n - 1, i);
    }
  }

  /** And no other key. */
  lemma {:induction false} RegistryKeys(defaults: seq<Plugin>, n: nat, key: string)
    requires n <= |defaults| && key in RegistryOf(defaults, n)
    ensures exists i :: 0 <= i < n && defaults[i].name + "ForSimulator" == key
  {
    if key in RegistryOf(defaults, n - 1) {
      RegistryKeys(defaults, n - 1, key);
    }
  }

  lemma NamedStep(pls: seq<Plugin>, n: nat, name: string)
    requires 0 < n <= |pls|
    ensures Named(pls[..n], name) <==> Named(pls[..n - 1], name) || pls[n - 1].name == name
  {
    var shorter, longer := pls[..n - 1], pls[..n];
    if i :| 0 <= i < |longer| && longer[i].name == name {
      assert i < n - 1 ==> shorter[i].name == name;
    }
    if i :| 0 <= i < |shorter| && shorter[i].name == name {
      assert longer[i].name == name;
    }
    assert longer[n - 1] == pls[n - 1];
  }

  /** The last of the first `n` plugins with this name. */
  predicate LastNamed(pls: seq<Plugin>, i: nat, n: nat)
    requires i < n <= |pls|
  {
    forall j :: i < j < n ==> pls[j].name != pls[i].name
  }

  function WeightsOf(scores: seq<Plugin>, n: nat): map<string, int>
    requires n <= |scores|
  {
    if n == 0 then map[] else WeightsOf(scores, n - 1)[scores[n - 1].name := WeightOf(scores[n - 1])]
  }

  lemma {:induction false} WeightsHave(scores: seq<Plugin>, n: nat, name: string)
    requires n <= |scores|
    ensures name in WeightsOf(scores, n) <==> Named(scores[..n], name)
  {
    if n > 0 {
      WeightsHave(scores, n - 1, name);
      NamedStep(scores, n, name);
    }
  }

  lemma {:induction false} WeightsHold(scores: seq<Plugin>, n: nat, i: nat)
    requires i < n <= |scores| && LastNamed(scores, i, n)
    ensures scores[i].name in WeightsOf(scores, n) && HasWeight(scores[i], WeightsOf(scores, n)[scores[i].name])
  {
    if i < n - 1 {
      WeightsHold(scores, n - 1, i);
    }
  }

  /** The weights the result store is given: the last one in the score list for each name. */
  method ScorePluginWeights(scores: seq<Plugin>) returns (weights: map<string, int>)
    ensures forall name :: name in weights <==> Named(scores, name)
    ensures forall i :: 0 <= i < |scores| && LastNamed(scores, i, |scores|) ==>
              scores[i].name in weights && HasWeight(scores[i], weights[scores[i].name])
  {
    weights := map[];
    for i := 0 to |scores|
      invariant weights == WeightsOf(scores, i)
    {
      weights := weights[scores[i].name := 0];
      if scores[i].weight.Some? {
        weights := weights[scores[i].name := scores[i].weight.value];
      }
    }
    forall name ensures name in weights <==> Named(scores, name) {
      WeightsHave(scores, |scores|, name);
      assert scores[..|scores|] == scores;
    }
    forall i | 0 <= i < |scores| && LastNamed(scores, i, |scores|)
      ensures scores[i].name in weights && HasWeight(scores[i], weights[scores[i].name])
    {
      WeightsHold(scores, |scores|, i);
    }
  }

  lemma FirstIndex(pls: seq<Plugin>, name: string) returns (i: nat)
    requires Named(pls, name)
    ensures i < |pls| && pls[i].name == name && FirstNamed(pls, i)
  {
    i := 0;
    while pls[i].name != name
      invariant i < |pls| && forall j :: 0 <= j < i ==> pls[j].name != name
      decreases |pls| - i
    {
      assert i + 1 < |pls|;
      i := i + 1;
    }
  }

  /** Every plugin a conversion enables has exactly one factory, which wraps the original; for a score plugin it carries
      the weight of the score list, also when the plugin was enabled as a filter. */
  lemma EnabledIsRegistered(scores: seq<Plugin>, filters: seq<Plugin>, disabled: seq<Plugin>, asScore: bool, m: nat)
    requires m < |Renamed(if asScore then scores else filters, disabled)|
    ensures
      var registry := RegistryOf(scores + filters, |scores + filters|);
      var name := Renamed(if asScore then scores else filters, disabled)[m].name;
      && name in registry
      && registry[name].original + "ForSimulator" == name
      && (forall i :: 0 <= i < |scores| && scores[i].name == registry[name].original && FirstNamed(scores, i) ==>
            HasWeight(scores[i], registry[name].weight))
  {
    var defaults, list := scores + filters, if asScore then scores else filters;
    RenamedIsImage(list, disabled);
    var at := KeptAt(list, disabled);
    var original := list[at[m]].name;
    assert defaults[if asScore then at[m] else |scores| + at[m]].name == original;
    var first := FirstIndex(defaults, original);
    RegistryHolds(defaults, |defaults|, first);
    forall i | 0 <= i < |scores| && scores[i].name == original && FirstNamed(scores, i)
      ensures defaults[first] == scores[i]
    {
      assert defaults[i] == scores[i];
      assert first <= i;
      assert defaults[first] == scores[first];
      assert first == i;
    }
  }

}

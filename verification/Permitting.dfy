/** Asking the permit plugins (RunPermitPlugins in minisched/minisched.go). */
module Permitting {
  import opened Framework

  datatype Permission = Granted | MustWait(waits: map<string, int>) | Refused(status: Status)

  function Answer(pl: PermitPlugin, state: CycleState, pod: Pod, node: string): Status {
    pl.permit(state, pod, node).0
  }

  predicate Refuses(pl: PermitPlugin, state: CycleState, pod: Pod, node: string) {
    !Answer(pl, state, pod, node).IsSuccess() && Answer(pl, state, pod, node).code != Wait
  }

  predicate AsksToWait(pl: PermitPlugin, state: CycleState, pod: Pod, node: string) {
    Answer(pl, state, pod, node).code == Wait
  }

  /** A rejection keeps its code and message; any other refusal is reported as an error. */
  function Report(pl: PermitPlugin, status: Status): Status {
    if status.IsUnschedulable() then Status(status.code, pl.name, status.message)
    else Status(Error, pl.name, "running Permit plugin \"" + pl.name + "\": " + status.message)
  }

  /** The permission after the plugins have been asked in order. */
  function Ask(plugins: seq<PermitPlugin>, state: CycleState, pod: Pod, node: string): Permission {
    if plugins == [] then Granted
    else
      var pl := plugins[|plugins| - 1];
      var before := Ask(plugins[..|plugins| - 1], state, pod, node);
      if before.Refused? then before
      else if Refuses(pl, state, pod, node) then Refused(Report(pl, Answer(pl, state, pod, node)))
      else if AsksToWait(pl, state, pod, node) then
        MustWait((if before.MustWait? then before.waits else map[])[pl.name := pl.permit(state, pod, node).1])
      else before
  }

  lemma {:induction false} RefusalStands(plugins: seq<PermitPlugin>, state: CycleState, pod: Pod, node: string, n: nat)
    requires n <= |plugins| && Ask(plugins[..n], state, pod, node).Refused?
    ensures Ask(plugins, state, pod, node) == Ask(plugins[..n], state, pod, node)
  {
    if n == |plugins| {
      assert plugins[..n] == plugins;
    } else {
      assert plugins[..|plugins| - 1][..n] == plugins[..n];
      RefusalStands(plugins[..|plugins| - 1], state, pod, node, n);
    }
  }

  method RunPermitPlugins(plugins: seq<PermitPlugin>, state: CycleState, pod: Pod, node: string) returns (p: Permission)
    ensures p == Ask(plugins, state, pod, node)
  {
    var pluginsWaitTime: map<string, int> := map[];
    var mustWait := false;
    for i := 0 to |plugins|
      invariant Ask(plugins[..i], state, pod, node) == if mustWait then MustWait(pluginsWaitTime) else Granted
      invariant !mustWait ==> pluginsWaitTime == map[]
    {
      assert plugins[..i + 1][..i] == plugins[..i];
      var (status, timeout) := plugins[i].permit(state, pod, node);
      if !status.IsSuccess() {
        if status.IsUnschedulable() {
          RefusalStands(plugins, state, pod, node, i + 1);
          return Refused(Status(status.code, plugins[i].name, status.message));
        }
        if status.code == Wait {
          pluginsWaitTime := pluginsWaitTime[plugins[i].name := timeout];
          mustWait := true;
          continue;
        }
        RefusalStands(plugins, state, pod, node, i + 1);
        var message := "running Permit plugin \"" + plugins[i].name + "\": " + status.message;
        return Refused(Status(Error, plugins[i].name, message));
      }
    }
    assert plugins[..|plugins|] == plugins;
    return if mustWait then MustWait(pluginsWaitTime) else Granted;
  }

  // ---- What the answers amount to, spelled out by status codes ----

  function CodeOf(pl: PermitPlugin, state: CycleState, pod: Pod, node: string): Code {
    pl.permit(state, pod, node).0.code
  }

  /** Some plugin of this name answers that it wants to wait. */
  predicate SomeoneAsks(plugins: seq<PermitPlugin>, state: CycleState, pod: Pod, node: string, name: string) {
    exists i :: 0 <= i < |plugins| && plugins[i].name == name && CodeOf(plugins[i], state, pod, node) == Wait
  }

  /** Plugin `i` is the last of its name to ask. */
  predicate LastToAsk(plugins: seq<PermitPlugin>, state: CycleState, pod: Pod, node: string, i: nat)
    requires i < |plugins|
  {
    && CodeOf(plugins[i], state, pod, node) == Wait
    && forall j :: i < j < |plugins| && CodeOf(plugins[j], state, pod, node) == Wait ==>
         plugins[j].name != plugins[i].name
  }

  /** Neither success nor a wish to wait. */
  predicate Denies(pl: PermitPlugin, state: CycleState, pod: Pod, node: string) {
    CodeOf(pl, state, pod, node) != Success && CodeOf(pl, state, pod, node) != Wait
  }

  /** How a refusal is reported: under the plugin's name, and as an error unless it is one of the two rejections. */
  predicate Reports(report: Status, pl: PermitPlugin, answer: Status) {
    && report.failedPlugin == pl.name
    && if answer.code == Unschedulable || answer.code == UnschedulableAndUnresolvable then
         report.code == answer.code && report.message == answer.message
       else report.code == Error && report.message == "running Permit plugin \"" + pl.name + "\": " + answer.message
  }

  lemma RefusesIffDenies(pl: PermitPlugin, state: CycleState, pod: Pod, node: string)
    ensures Refuses(pl, state, pod, node) <==> Denies(pl, state, pod, node)
    ensures AsksToWait(pl, state, pod, node) <==> CodeOf(pl, state, pod, node) == Wait
    ensures Denies(pl, state, pod, node) ==>
              Reports(Report(pl, Answer(pl, state, pod, node)), pl, pl.permit(state, pod, node).0)
  {
  }

  /** One refusal decides, the first one is reported, and otherwise exactly the plugins that asked are waited for, each
      as long as it asked. */
  lemma {:induction false} AskMeans(plugins: seq<PermitPlugin>, state: CycleState, pod: Pod, node: string)
    ensures
      var p := Ask(plugins, state, pod, node);
      && (p.Refused? <==> exists i :: 0 <= i < |plugins| && Denies(plugins[i], state, pod, node))
      && (forall i :: 0 <= i < |plugins| && Denies(plugins[i], state, pod, node)
            && (forall j :: 0 <= j < i ==> !Denies(plugins[j], state, pod, node))
            ==> p.Refused? && Reports(p.status, plugins[i], plugins[i].permit(state, pod, node).0))
      && (p.Granted? <==> forall i :: 0 <= i < |plugins| ==> CodeOf(plugins[i], state, pod, node) == Success)
      && (p.MustWait? ==> forall name :: name in p.waits <==> SomeoneAsks(plugins, state, pod, node, name))
  {
    if plugins != [] {
      var last := |plugins| - 1;
      var front := plugins[..last];
      AskMeans(front, state, pod, node);
      RefusesIffDenies(plugins[last], state, pod, node);
      var p := Ask(plugins, state, pod, node);
      assert forall i :: 0 <= i < last ==> front[i] == plugins[i];
      if p.MustWait? {
        forall name ensures name in p.waits <==> SomeoneAsks(plugins, state, pod, node, name) {
          AskersStep(plugins, state, pod, node, name);
        }
      }
    }
  }

  lemma AskersStep(plugins: seq<PermitPlugin>, state: CycleState, pod: Pod, node: string, name: string)
    requires plugins != []
    ensures var last := |plugins| - 1;
            SomeoneAsks(plugins, state, pod, node, name)
            <==> SomeoneAsks(plugins[..last], state, pod, node, name)
                 || (plugins[last].name == name && CodeOf(plugins[last], state, pod, node) == Wait)
  {
    var front := plugins[..|plugins| - 1];
    if i :| 0 <= i < |plugins| && plugins[i].name == name && CodeOf(plugins[i], state, pod, node) == Wait {
      assert i < |front| ==> front[i] == plugins[i];
    }
    if i :| 0 <= i < |front| && front[i].name == name && CodeOf(front[i], state, pod, node) == Wait {
      assert front[i] == plugins[i];
    }
  }

  /** A plugin is waited for as long as it asked; of several with one name the last one counts. */
  lemma {:induction false} WaitTimes(plugins: seq<PermitPlugin>, state: CycleState, pod: Pod, node: string, i: nat)
    requires i < |plugins| && Ask(plugins, state, pod, node).MustWait? && LastToAsk(plugins, state, pod, node, i)
    ensures plugins[i].name in Ask(plugins, state, pod, node).waits
    ensures Ask(plugins, state, pod, node).waits[plugins[i].name] == plugins[i].permit(state, pod, node).1
  {
    var last := |plugins| - 1;
    var front := plugins[..last];
    RefusesIffDenies(plugins[last], state, pod, node);
    if i < last {
      AskMeans(front, state, pod, node);
      assert front[i] == plugins[i] && CodeOf(front[i], state, pod, node) == Wait;
      WaitTimes(front, state, pod, node, i);
    }
  }
}

/** Expanding the plugin configuration for the simulator (NewPluginConfig in scheduler/plugin/plugins.go). */
module PluginArguments {
  import opened Framework
  import opened SimulatorConfig
  import Tally

  /** A decoded argument object. */
  datatype Object = Object(kind: string, fields: map<string, string>)

  datatype Args = Args(raw: seq<bv8>, obj: Option<Object>)

  datatype PluginConfig = PluginConfig(name: string, args: Args)

  /** Decoding text on top of an object; none when the text is not acceptable. */
  type Decoder = (seq<bv8>, Option<Object>) -> Option<Option<Object>>

  /** The two ways to fail: an error return for bad text, and a crash on a nil pointer. */
  datatype Failure = BadText | NilPointer

  // ---- One name ----

  /** User arguments override: text is decoded on top of what is there, and an object replaces it. */
  function Override(decode: Decoder, args: Args, user: Args): Result<Args, Failure> {
    if user.raw != [] && decode(user.raw, args.obj).None? then Err(BadText)
    else
      var decoded := if user.raw != [] then args.(obj := decode(user.raw, args.obj).value) else args;
      Ok(if user.obj.Some? then decoded.(obj := user.obj) else decoded)
  }

  /** What the user's entries for one name, in order, make of its default arguments. */
  function Folded(decode: Decoder, initial: Args, name: string, user: seq<PluginConfig>): Result<Args, Failure> {
    if user == [] then Ok(initial)
    else
      var last := user[|user| - 1];
      match Folded(decode, initial, name, user[..|user| - 1])
      case Err(failure) => Err(failure)
      case Ok(args) => if last.name == name then Override(decode, args, last.args) else Ok(args)
  }

  /** The arguments' object before each of the user's entries and after the last: an entry for another name, or without
      arguments, leaves it; text has to be acceptable on top of it, and an object given replaces whatever comes out. */
  ghost predicate Traces(decode: Decoder, initial: Option<Object>, name: string, user: seq<PluginConfig>,
                         objs: seq<Option<Object>>)
  {
    && |objs| == |user| + 1 && objs[0] == initial
    && forall i :: 0 <= i < |user| ==>
         TracesStep(decode, name, user[i], objs[i], objs[i + 1])
  }

  ghost predicate TracesStep(decode: Decoder, name: string, entry: PluginConfig, before: Option<Object>,
                             after: Option<Object>)
  {
    if entry.name != name then after == before
    else
      && (entry.args.raw != [] ==> decode(entry.args.raw, before).Some?)
      && (entry.args.obj.Some? ==> after == entry.args.obj)
      && (entry.args.obj.None? && entry.args.raw != [] ==> decode(entry.args.raw, before) == Some(after))
      && (entry.args.obj.None? && entry.args.raw == [] ==> after == before)
  }

  lemma {:induction false} TracesFold(decode: Decoder, initial: Args, name: string, user: seq<PluginConfig>,
                                      objs: seq<Option<Object>>)
    requires Traces(decode, initial.obj, name, user, objs)
    ensures Folded(decode, initial, name, user) == Ok(Args(initial.raw, objs[|user|]))
  {
    if user != [] {
      var last := |user| - 1;
      TracesFold(decode, initial, name, user[..last], objs[..|user|]);
      assert TracesStep(decode, name, user[last], objs[last], objs[|user|]);
    }
  }

  lemma {:induction false} FoldTraces(decode: Decoder, initial: Args, name: string, user: seq<PluginConfig>)
    returns (objs: seq<Option<Object>>)
    requires Folded(decode, initial, name, user).Ok?
    ensures Traces(decode, initial.obj, name, user, objs)
  {
    if user == [] {
      objs := [initial.obj];
    } else {
      var last := |user| - 1;
      var before := FoldTraces(decode, initial, name, user[..last]);
      TracesFold(decode, initial, name, user[..last], before);
      objs := before + [Folded(decode, initial, name, user).value.obj];
      assert TracesStep(decode, name, user[last], objs[last], objs[|user|]);
    }
  }

  /** A name's arguments, spelled out: they exist exactly when the user's entries can be traced; the object is where the
      trace ends, and the raw bytes are always the default's. */
  lemma FoldedMeans(decode: Decoder, initial: Args, name: string, user: seq<PluginConfig>)
    ensures Folded(decode, initial, name, user).Ok? <==> exists objs :: Traces(decode, initial.obj, name, user, objs)
    ensures forall objs :: Traces(decode, initial.obj, name, user, objs) ==>
              Folded(decode, initial, name, user) == Ok(Args(initial.raw, objs[|user|]))
  {
    forall objs | Traces(decode, initial.obj, name, user, objs)
      ensures Folded(decode, initial, name, user) == Ok(Args(initial.raw, objs[|user|]))
    {
      TracesFold(decode, initial, name, user, objs);
    }
    if Folded(decode, initial, name, user).Ok? {
      var objs := FoldTraces(decode, initial, name, user);
    }
  }

  // ---- All names together, as the code does it ----

  /** Arguments by plugin name; none is a nil pointer. */
  type Table = map<string, Option<Args>>

  function DefaultTable(defaults: seq<PluginConfig>): Table {
    if defaults == [] then map[]
    else
      var last := defaults[|defaults| - 1];
      DefaultTable(defaults[..|defaults| - 1])[last.name := Some(last.args)]
  }

  predicate Mentioned(user: seq<PluginConfig>, name: string) {
    exists i :: 0 <= i < |user| && user[i].name == name
  }

  /** Of several defaults of one name the last one counts. */
  lemma {:induction false} DefaultsAre(defaults: seq<PluginConfig>, name: string)
    ensures name in DefaultTable(defaults) <==> Mentioned(defaults, name)
    ensures forall i ::
      0 <= i < |defaults| && defaults[i].name == name && (forall j :: i < j < |defaults| ==> defaults[j].name != name)
      ==> name in DefaultTable(defaults) && DefaultTable(defaults)[name] == Some(defaults[i].args)
  {
    if defaults != [] {
      var last := |defaults| - 1;
      var front := defaults[..last];
      DefaultsAre(front, name);
      assert forall i :: 0 <= i < last ==> front[i] == defaults[i];
      if i :| 0 <= i < |front| && front[i].name == name {
        assert defaults[i].name == name;
      }
      if defaults[last].name == name {
        assert Mentioned(defaults, name);
      }
    }
  }

  /** One user entry: an unknown name yields a nil pointer, which crashes as soon as there is something to store. */
  function ApplyEntry(decode: Decoder, t: Table, entry: PluginConfig): Result<Table, Failure> {
    if entry.name in t && t[entry.name].Some? then
      match Override(decode, t[entry.name].value, entry.args)
      case Err(failure) => Err(failure)
      case Ok(args) => Ok(t[entry.name := Some(args)])
    else if entry.args.raw != [] || entry.args.obj.Some? then Err(NilPointer)
    else Ok(t[entry.name := None])
  }

  function ApplyAll(decode: Decoder, t: Table, user: seq<PluginConfig>): Result<Table, Failure> {
    if user == [] then Ok(t)
    else
      match ApplyAll(decode, t, user[..|user| - 1])
      case Err(failure) => Err(failure)
      case Ok(before) => ApplyEntry(decode, before, user[|user| - 1])
  }

  predicate Known(t: Table, user: seq<PluginConfig>) {
    forall i :: 0 <= i < |user| ==> user[i].name in t
  }

  predicate Complete(t: Table) {
    forall name :: name in t ==> t[name].Some?
  }

  /** The entry has arguments for a plugin that is not configured: applying it crashes. */
  predicate Stray(t: Table, entry: PluginConfig) {
    entry.name !in t && (entry.args.raw != [] || entry.args.obj.Some?)
  }

  /** How many entries precede the first stray one. */
  function BeforeStray(t: Table, user: seq<PluginConfig>): (n: nat)
    ensures n <= |user|
    ensures forall i :: 0 <= i < n ==> !Stray(t, user[i])
    ensures n < |user| ==> Stray(t, user[n])
  {
    if user == [] then 0
    else
      var last := |user| - 1;
      var n := BeforeStray(t, user[..last]);
      if n < last || Stray(t, user[last]) then n else last + 1
  }

  /** No configured name meets bad text among these entries. */
  ghost predicate AllFold(decode: Decoder, t: Table, user: seq<PluginConfig>)
    requires Complete(t)
  {
    forall name :: name in t ==> Folded(decode, t[name].value, name, user).Ok?
  }

  /** The table after these entries: configured names hold their folded arguments, others named hold a nil pointer. */
  ghost predicate Applied(decode: Decoder, t: Table, user: seq<PluginConfig>, after: Table)
    requires Complete(t)
  {
    && (forall name :: name in after <==> name in t || Mentioned(user, name))
    && (forall name :: name in after && name !in t ==> after[name] == None)
    && (forall name :: name in t ==>
          after[name].Some? && Folded(decode, t[name].value, name, user) == Ok(after[name].value))
  }

  lemma ApplyEntryByName(decode: Decoder, t: Table, front: seq<PluginConfig>, last: PluginConfig, before: Table)
    requires Complete(t) && AllFold(decode, t, front) && Applied(decode, t, front, before)
    ensures var user, r := front + [last], ApplyEntry(decode, before, last);
            && (r.Ok? <==> !Stray(t, last) && AllFold(decode, t, user))
            && (r == Err(NilPointer) <==> Stray(t, last))
            && (r.Ok? ==> Applied(decode, t, user, r.value))
  {
    var user := front + [last];
    assert user[..|front|] == front && user[|front|] == last;
    if last.name in t {
      assert Folded(decode, t[last.name].value, last.name, user)
          == Override(decode, before[last.name].value, last.args);
    }
    forall name | name in t && name != last.name
      ensures Folded(decode, t[name].value, name, user) == Ok(before[name].value)
    {
    }
    var r := ApplyEntry(decode, before, last);
    if r.Ok? {
      forall name ensures Mentioned(user, name) <==> name == last.name || Mentioned(front, name) {
        if i :| 0 <= i < |front| && front[i].name == name {
          assert user[i].name == name;
        }
      }
    }
  }

  /** The names do not influence each other, and the first thing to go wrong decides: bad text for a configured name
      before any stray entry, or else the first stray entry, which crashes. */
  lemma {:induction false} ApplyByName(decode: Decoder, t: Table, user: seq<PluginConfig>)
    requires Complete(t)
    ensures
      var r, n := ApplyAll(decode, t, user), BeforeStray(t, user);
      && (r == Err(BadText) <==> !AllFold(decode, t, user[..n]))
      && (r == Err(NilPointer) <==> n < |user| && AllFold(decode, t, user[..n]))
      && (r.Ok? <==> n == |user| && AllFold(decode, t, user))
      && (r.Ok? ==> Applied(decode, t, user, r.value))
  {
    if user != [] {
      var last := |user| - 1;
      var front := user[..last];
      ApplyByName(decode, t, front);
      var n, before := BeforeStray(t, front), ApplyAll(decode, t, front);
      assert front[..n] == user[..n];
      assert user[..|user|] == user && front[..last] == front && front + [user[last]] == user;
      if before.Ok? {
        ApplyEntryByName(decode, t, front, user[last], before.value);
      } else if n == last {
        var name :| name in t && Folded(decode, t[name].value, name, front).Err?;
        assert Folded(decode, t[name].value, name, user).Err?;
      }
    }
  }

  // ---- The output ----

  /** `base` lists the table, each name once, in any order. */
  ghost predicate Lists(base: seq<PluginConfig>, t: Table) {
    && (forall i :: 0 <= i < |base| ==> base[i].name in t && t[base[i].name] == Some(base[i].args))
    && (forall i, j :: 0 <= i < j < |base| ==> base[i].name != base[j].name)
    && (forall name :: name in t ==> exists i :: 0 <= i < |base| && base[i].name == name)
  }

  /** One renamed copy for each configured plugin among the first `n`, where the name first occurs. */
  function Copies(t: Table, pls: seq<Plugin>, n: nat): seq<PluginConfig>
    requires Complete(t) && n <= |pls|
  {
    if n == 0 then []
    else
      Copies(t, pls, n - 1)
      + if pls[n - 1].name in t && FirstNamed(pls, n - 1) then
          [PluginConfig(PluginName(pls[n - 1].name), t[pls[n - 1].name].value)]
        else []
  }

  /** The expansion of a table: its entries, followed by the copies. */
  ghost predicate Expands(out: seq<PluginConfig>, t: Table, pls: seq<Plugin>) {
    && Complete(t)
    && exists base :: Lists(base, t) && out == base + Copies(t, pls, |pls|)
  }

  method NewPluginConfig(decode: Decoder, defaults: seq<PluginConfig>, scores: seq<Plugin>, filters: seq<Plugin>,
                         user: seq<PluginConfig>)
    returns (r: Result<seq<PluginConfig>, Failure>)
    ensures match ApplyAll(decode, DefaultTable(defaults), user)
            case Err(failure) => r == Err(failure)
            case Ok(t) => if Complete(t) then r.Ok? && Expands(r.value, t, scores + filters) else r == Err(NilPointer)
  {
    var pluginConfig: Table := map[];
    for i := 0 to |defaults|
      invariant pluginConfig == DefaultTable(defaults[..i])
    {
      assert defaults[..i + 1][..i] == defaults[..i];
      pluginConfig := pluginConfig[defaults[i].name := Some(defaults[i].args)];
    }
    assert defaults[..|defaults|] == defaults;
    ghost var initial := pluginConfig;
    for i := 0 to |user|
      invariant ApplyAll(decode, initial, user[..i]) == Ok(pluginConfig)
    {
      assert user[..i + 1][..i] == user[..i];
      var step := ApplyEntry(decode, pluginConfig, user[i]);
      if step.Err? {
        FailureStands(decode, initial, user, i + 1);
        return Err(step.error);
      }
      pluginConfig := step.value;
    }
    assert user[..|user|] == user;
    var base := ListTable(pluginConfig);
    if base.Err? {
      return Err(NilPointer);
    }
    var copies := CopyConfigured(pluginConfig, scores + filters);
    return Ok(base.value + copies);
  }

  lemma {:induction false} FailureStands(decode: Decoder, t: Table, user: seq<PluginConfig>, n: nat)
    requires n <= |user| && ApplyAll(decode, t, user[..n]).Err?
    ensures ApplyAll(decode, t, user) == ApplyAll(decode, t, user[..n])
  {
    if n == |user| {
      assert user[..n] == user;
    } else {
      assert user[..|user| - 1][..n] == user[..n];
      FailureStands(decode, t, user[..|user| - 1], n);
    }
  }

  /** Ranging over the table, dereferencing every pointer. */
  method ListTable(t: Table) returns (r: Result<seq<PluginConfig>, Failure>)
    ensures if Complete(t) then r.Ok? && Lists(r.value, t) else r == Err(NilPointer)
  {
    var base: seq<PluginConfig> := [];
    var unseen := t.Keys;
    while unseen != {}
      invariant unseen <= t.Keys
      invariant forall i :: 0 <= i < |base| ==>
        base[i].name in t && base[i].name !in unseen && t[base[i].name] == Some(base[i].args)
      invariant forall i, j :: 0 <= i < j < |base| ==> base[i].name != base[j].name
      invariant forall name :: name in t && name !in unseen ==> exists i :: 0 <= i < |base| && base[i].name == name
    {
      var name :| name in unseen;
      if t[name].None? {
        return Err(NilPointer);
      }
      ghost var before := base;
      base := base + [PluginConfig(name, t[name].value)];
      unseen := unseen - {name};
      assert forall i :: 0 <= i < |before| ==> base[i] == before[i];
      assert base[|before|].name == name;
    }
    forall name | name in t ensures t[name].Some? {
      var i :| 0 <= i < |base| && base[i].name == name;
    }
    return Ok(base);
  }

  /** A copied entry is deleted from the table so that a repeated name is not copied again. */
  method CopyConfigured(t: Table, pls: seq<Plugin>) returns (copies: seq<PluginConfig>)
    requires Complete(t)
    ensures copies == Copies(t, pls, |pls|)
  {
    copies := [];
    var left := t;
    for n := 0 to |pls|
      invariant copies == Copies(t, pls, n)
      invariant forall name :: name in left <==> name in t && forall j :: 0 <= j < n ==> pls[j].name != name
      invariant forall name :: name in left ==> left[name] == t[name]
    {
      if pls[n].name in left {
        copies := copies + [PluginConfig(PluginName(pls[n].name), left[pls[n].name].value)];
        left := left - {pls[n].name};
      }
    }
  }

  // ---- What the output contains ----

  function NameOf(c: PluginConfig): string {
    c.name
  }

  /** The name is the simulator's name of a configured plugin among the first `n`. */
  predicate CopiedName(t: Table, pls: seq<Plugin>, n: nat, name: string)
    requires n <= |pls|
  {
    exists i :: 0 <= i < n && pls[i].name in t && PluginName(pls[i].name) == name
  }

  /** The copy made of plugin `j`. */
  function CopyOf(t: Table, pl: Plugin): PluginConfig
    requires Complete(t) && pl.name in t
  {
    PluginConfig(PluginName(pl.name), t[pl.name].value)
  }

  lemma CopiedNameStep(t: Table, pls: seq<Plugin>, n: nat, name: string)
    requires n < |pls|
    ensures CopiedName(t, pls, n + 1, name)
       <==> CopiedName(t, pls, n, name) || (pls[n].name in t && PluginName(pls[n].name) == name)
    ensures pls[n].name in t && FirstNamed(pls, n) ==> !CopiedName(t, pls, n, PluginName(pls[n].name))
    ensures pls[n].name in t && !FirstNamed(pls, n) ==> CopiedName(t, pls, n, PluginName(pls[n].name))
  {
    if CopiedName(t, pls, n, PluginName(pls[n].name)) {
      var i :| 0 <= i < n && pls[i].name in t && PluginName(pls[i].name) == PluginName(pls[n].name);
      PluginNameInjective(pls[i].name, pls[n].name);
    }
  }

  lemma {:induction false} CopiesOnce(t: Table, pls: seq<Plugin>, n: nat, name: string)
    requires Complete(t) && n <= |pls|
    ensures Tally.InSeq(Copies(t, pls, n), NameOf, name) == if CopiedName(t, pls, n, name) then 1 else 0
  {
    if n > 0 {
      CopiesOnce(t, pls, n - 1, name);
      CopiedNameStep(t, pls, n - 1, name);
      var before := Copies(t, pls, n - 1);
      assert before + [] == before;
      if pls[n - 1].name in t {
        assert (before + [CopyOf(t, pls[n - 1])])[..|before|] == before;
      }
    }
  }

  lemma {:induction false} CopiesAre(t: Table, pls: seq<Plugin>, n: nat, c: PluginConfig)
    requires Complete(t) && n <= |pls|
    ensures c in Copies(t, pls, n) <==> exists j :: 0 <= j < n && pls[j].name in t && c == CopyOf(t, pls[j])
  {
    if n > 0 {
      CopiesAre(t, pls, n - 1, c);
      var pl := pls[n - 1];
      if pl.name in t && !FirstNamed(pls, n - 1) {
        var i :| 0 <= i < n - 1 && pls[i].name == pl.name;
        assert CopyOf(t, pls[i]) == CopyOf(t, pl);
      }
    }
  }

  lemma {:induction false} BaseOnce(base: seq<PluginConfig>, name: string)
    requires forall i, j :: 0 <= i < j < |base| ==> base[i].name != base[j].name
    ensures Tally.InSeq(base, NameOf, name) == if exists i :: 0 <= i < |base| && base[i].name == name then 1 else 0
  {
    if base != [] {
      BaseOnce(base[..|base| - 1], name);
      Tally.SeqHas(base, NameOf, name);
    }
  }

  /** Each configured name occurs once, plus once more if it is also the simulator's name of a configured plugin; every
      other name occurs as often as it is such a simulator's name: once, however often the default lists repeat it. */
  lemma OutputNames(out: seq<PluginConfig>, t: Table, pls: seq<Plugin>, name: string)
    requires Expands(out, t, pls)
    ensures Tally.InSeq(out, NameOf, name)
         == (if name in t then 1 else 0) + (if CopiedName(t, pls, |pls|, name) then 1 else 0)
  {
    var base :| Lists(base, t) && out == base + Copies(t, pls, |pls|);
    Tally.SeqAppend(base, Copies(t, pls, |pls|), NameOf, name);
    BaseOnce(base, name);
    CopiesOnce(t, pls, |pls|, name);
  }

  /** No configured name meets bad text among these entries. */
  ghost predicate NoBadText(decode: Decoder, t: Table, user: seq<PluginConfig>)
    requires Complete(t)
  {
    forall name :: name in t ==> exists objs :: Traces(decode, t[name].value.obj, name, user, objs)
  }

  lemma AllFoldMeans(decode: Decoder, t: Table, user: seq<PluginConfig>)
    requires Complete(t)
    ensures AllFold(decode, t, user) <==> NoBadText(decode, t, user)
  {
    forall name | name in t
      ensures Folded(decode, t[name].value, name, user).Ok?
         <==> exists objs :: Traces(decode, t[name].value.obj, name, user, objs)
    {
      FoldedMeans(decode, t[name].value, name, user);
    }
  }

  /** An entry of a configured name, or of the simulator's name of a configured plugin: the raw bytes are the default's,
      and the object is what the user's entries make of the default's. */
  ghost predicate Outcome(decode: Decoder, t0: Table, user: seq<PluginConfig>, pls: seq<Plugin>, c: PluginConfig)
    requires Complete(t0)
  {
    exists name, objs :: name in t0
      && (c.name == name || (c.name == name + "ForSimulator" && exists i :: 0 <= i < |pls| && pls[i].name == name))
      && Traces(decode, t0[name].value.obj, name, user, objs)
      && c.args == Args(t0[name].value.raw, objs[|user|])
  }

  lemma ProducedIsOutcome(decode: Decoder, t0: Table, user: seq<PluginConfig>, pls: seq<Plugin>, c: PluginConfig)
    requires Complete(t0)
    ensures Produced(decode, t0, user, pls, c) <==> Outcome(decode, t0, user, pls, c)
  {
    if Produced(decode, t0, user, pls, c) {
      var name :| name in t0 && (c.name == name || (c.name == PluginName(name) && Named(pls, name)))
                  && Folded(decode, t0[name].value, name, user) == Ok(c.args);
      var objs := FoldTraces(decode, t0[name].value, name, user);
      TracesFold(decode, t0[name].value, name, user, objs);
    }
    if Outcome(decode, t0, user, pls, c) {
      var name, objs :| name in t0
        && (c.name == name || (c.name == name + "ForSimulator" && exists i :: 0 <= i < |pls| && pls[i].name == name))
        && Traces(decode, t0[name].value.obj, name, user, objs)
        && c.args == Args(t0[name].value.raw, objs[|user|]);
      TracesFold(decode, t0[name].value, name, user, objs);
    }
  }

  /** An entry of a configured name, or of the simulator's name of a configured plugin, with the name's folded
      arguments. */
  predicate Produced(decode: Decoder, t0: Table, user: seq<PluginConfig>, pls: seq<Plugin>, c: PluginConfig)
    requires Complete(t0)
  {
    exists name :: name in t0
      && (c.name == name || (c.name == PluginName(name) && Named(pls, name)))
      && Folded(decode, t0[name].value, name, user) == Ok(c.args)
  }

  /** An entry of the output is an entry of the table or the copy of one. */
  lemma ExpandsMembers(t: Table, pls: seq<Plugin>, out: seq<PluginConfig>, c: PluginConfig)
    requires Expands(out, t, pls)
    ensures c in out
       <==> || (c.name in t && t[c.name] == Some(c.args))
            || exists j :: 0 <= j < |pls| && pls[j].name in t && c == CopyOf(t, pls[j])
  {
    var base :| Lists(base, t) && out == base + Copies(t, pls, |pls|);
    CopiesAre(t, pls, |pls|, c);
    if c.name in t && t[c.name] == Some(c.args) {
      var i :| 0 <= i < |base| && base[i].name == c.name;
      assert base[i] == c;
    }
  }

  lemma OutputMembers(decode: Decoder, t0: Table, user: seq<PluginConfig>, pls: seq<Plugin>, out: seq<PluginConfig>,
                      c: PluginConfig)
    requires Complete(t0) && Known(t0, user) && ApplyAll(decode, t0, user).Ok?
    requires Expands(out, ApplyAll(decode, t0, user).value, pls)
    ensures c in out <==> Produced(decode, t0, user, pls, c)
  {
    ApplyByName(decode, t0, user);
    var t := ApplyAll(decode, t0, user).value;
    ExpandsMembers(t, pls, out, c);
    if j :| 0 <= j < |pls| && pls[j].name in t && c == CopyOf(t, pls[j]) {
      assert Named(pls, pls[j].name);
      assert Folded(decode, t0[pls[j].name].value, pls[j].name, user) == Ok(c.args);
    }
    if name :| name in t0 && c.name == PluginName(name) && Named(pls, name)
               && Folded(decode, t0[name].value, name, user) == Ok(c.args) {
      var j :| 0 <= j < |pls| && pls[j].name == name;
      assert c == CopyOf(t, pls[j]);
    }
  }

  /** The conversion dereferences a nil pointer, while applying an entry or while listing the table. */
  predicate Crashes(r: Result<Table, Failure>) {
    r == Err(NilPointer) || (r.Ok? && !Complete(r.value))
  }

  /** The whole conversion, one case for each outcome. It returns an error exactly when a configured name meets bad text
      before any stray entry. Otherwise it crashes exactly when an entry names a plugin that is not configured, with
      arguments or without. Otherwise it succeeds, and each configured name occurs with its folded arguments, and so
      does the copy of each configured filter or score plugin. */
  lemma ExpansionByName(decode: Decoder, defaults: seq<PluginConfig>, user: seq<PluginConfig>, pls: seq<Plugin>)
    ensures
      var t0 := DefaultTable(defaults);
      var r, n := ApplyAll(decode, t0, user), BeforeStray(t0, user);
      && Complete(t0)
      && (r == Err(BadText) <==> !NoBadText(decode, t0, user[..n]))
      && (Crashes(r) <==> NoBadText(decode, t0, user[..n]) && !Known(t0, user))
      && (r.Ok? && Complete(r.value) <==> NoBadText(decode, t0, user) && Known(t0, user))
      && (r.Ok? && Complete(r.value) ==> forall out :: Expands(out, r.value, pls) ==>
            (forall c :: c in out <==> Outcome(decode, t0, user, pls, c)))
  {
    var t0 := DefaultTable(defaults);
    DefaultsComplete(defaults);
    ApplyByName(decode, t0, user);
    var r, n := ApplyAll(decode, t0, user), BeforeStray(t0, user);
    assert n == |user| ==> user[..n] == user;
    AllFoldMeans(decode, t0, user[..n]);
    AllFoldMeans(decode, t0, user);
    if r.Ok? {
      assert Complete(r.value) <==> Known(t0, user) by {
        forall i | 0 <= i < |user| && user[i].name !in t0 ensures r.value[user[i].name] == None {
          assert Mentioned(user, user[i].name);
        }
      }
    }
    if r.Ok? && Complete(r.value) {
      forall out, c | Expands(out, r.value, pls) ensures c in out <==> Outcome(decode, t0, user, pls, c) {
        OutputMembers(decode, t0, user, pls, out, c);
        ProducedIsOutcome(decode, t0, user, pls, c);
      }
    }
  }

  /** Before bad text, an unknown name without arguments goes unnoticed, and the input is refused; with arguments it
      crashes. */
  lemma UnknownNameMayStillBeRefused(decode: Decoder, initial: Args, text: seq<bv8>, args: Args)
    requires text != [] && decode(text, initial.obj).None? && args.raw != []
    ensures
      var t0 := DefaultTable([PluginConfig("a", initial)]);
      var bad, bare, stray := PluginConfig("a", Args(text, None)), PluginConfig("zzz", Args([], None)),
                              PluginConfig("zzz", args);
      ApplyAll(decode, t0, [bare, bad]) == Err(BadText) && ApplyAll(decode, t0, [stray, bad]) == Err(NilPointer)
  {
    var only := PluginConfig("a", initial);
    assert [only][..0] == [] && DefaultTable([]) == map[];
    var t0 := DefaultTable([only]);
    assert t0 == map["a" := Some(initial)];
    var bad := PluginConfig("a", Args(text, None));
    forall first: PluginConfig ensures ApplyAll(decode, t0, [first]) == ApplyEntry(decode, t0, first) {
      assert [first][..0] == [];
    }
    forall first: PluginConfig ensures [first, bad][..1] == [first] {
    }
  }

  /** A name that is not configured never gets arguments: its table entry stays a nil pointer, or the code fails. */
  lemma UnknownStaysNil(decode: Decoder, defaults: seq<PluginConfig>, user: seq<PluginConfig>, i: nat)
    requires i < |user| && user[i].name !in DefaultTable(defaults)
    ensures var r := ApplyAll(decode, DefaultTable(defaults), user);
            r.Ok? ==> user[i].name in r.value && r.value[user[i].name] == None
  {
    DefaultsComplete(defaults);
    ApplyByName(decode, DefaultTable(defaults), user);
    assert Mentioned(user, user[i].name);
  }

  lemma {:induction false} DefaultsComplete(defaults: seq<PluginConfig>)
    ensures Complete(DefaultTable(defaults))
  {
    if defaults != [] {
      DefaultsComplete(defaults[..|defaults| - 1]);
    }
  }
}

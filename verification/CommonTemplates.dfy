/** The templates that get deployed, and the DataSources they name. */
module CommonTemplates {
  import opened Kube
  import opened Sequences
  import opened Ssp
  import opened Architecture
  import opened Bundle
  import opened CronPlan
  import opened DataSourcePlan
  import opened ManagerExclusivity

  /** Only the first parameter with the name gets the suffix. */
  function WithSuffix(parameters: seq<Parameter>, arch: Arch): seq<Parameter> {
    if parameters == [] then []
    else if parameters[0].name == NAME_PARAMETER
    then [parameters[0].(value := Suffixed(parameters[0].value, arch))] + parameters[1..]
    else [parameters[0]] + WithSuffix(parameters[1..], arch)
  }

  function Adapted(t: Template, arch: Arch, multi: bool): Template {
    if multi then t.(spec := t.spec.(parameters := WithSuffix(t.spec.parameters, arch))) else t
  }

  /** The bundle's templates grouped by architecture, in bundle order. */
  function OfArch(templates: seq<Template>, arch: Arch): seq<Template> {
    FlatMap(templates, IfArch(arch))
  }

  function IfArch(arch: Arch): Template -> seq<Template> {
    (t: Template) => if TemplateArch(t) == Some(arch) then [t] else []
  }

  function Adapter(arch: Arch, multi: bool): Template -> seq<Template> {
    (t: Template) => [Adapted(t, arch, multi)]
  }

  function ForArchs(templates: seq<Template>, multi: bool): Arch -> seq<Template> {
    (arch: Arch) => FlatMap(OfArch(templates, arch), Adapter(arch, multi))
  }

  function Deployed(templates: seq<Template>, archs: seq<Arch>, multi: bool): seq<Template> {
    FlatMap(archs, ForArchs(templates, multi))
  }

  type ByArch = map<Arch, seq<Template>>

  ghost predicate Groups(m: ByArch, templates: seq<Template>) {
    forall arch :: (if arch in m then m[arch] else []) == OfArch(templates, arch)
  }

  /** The grouping the operand is created with; it fails on an unknown architecture. */
  method New(templates: seq<Template>) returns (r: Result<ByArch, string>)
    ensures r.Ok? ==> Groups(r.value, templates)
    ensures r.Ok? <==> forall t <- templates :: TemplateArch(t).Some?
  {
    var m: ByArch := map[];
    for i := 0 to |templates|
      invariant Groups(m, templates[..i])
      invariant forall t <- templates[..i] :: TemplateArch(t).Some?
    {
      assert templates[..i + 1][..i] == templates[..i];
      var arch := TemplateArch(templates[i]);
      if arch.None? { return Err(templates[i].key.name); }
      ghost var before := m;
      m := m[arch.value := (if arch.value in m then m[arch.value] else []) + [templates[i]]];
      forall a ensures (if a in m then m[a] else []) == OfArch(templates[..i + 1], a) {
        var old_ := if a in before then before[a] else [];
        assert old_ == OfArch(templates[..i], a);
        assert old_ + [] == old_;
      }
    }
    assert templates[..|templates|] == templates;
    return Ok(m);
  }

  method AdaptAll(group: seq<Template>, arch: Arch, multi: bool) returns (adapted: seq<Template>)
    ensures adapted == FlatMap(group, Adapter(arch, multi))
  {
    adapted := [];
    for j := 0 to |group|
      invariant adapted == FlatMap(group[..j], Adapter(arch, multi))
    {
      assert group[..j + 1][..j] == group[..j];
      adapted := adapted + [Adapted(group[j], arch, multi)];
    }
    assert group[..|group|] == group;
  }

  method GetTemplatesForArchs(byArch: ByArch, archs: seq<Arch>, multi: bool, ghost templates: seq<Template>)
    returns (r: seq<Template>)
    requires Groups(byArch, templates)
    ensures r == Deployed(templates, archs, multi)
  {
    r := [];
    for i := 0 to |archs|
      invariant r == FlatMap(archs[..i], ForArchs(templates, multi))
    {
      assert archs[..i + 1][..i] == archs[..i];
      var group := if archs[i] in byArch then byArch[archs[i]] else [];
      assert group == OfArch(templates, archs[i]);
      var adapted := AdaptAll(group, archs[i], multi);
      r := r + adapted;
    }
    assert archs[..|archs|] == archs;
  }

  /** A deployed template is a bundle template of a cluster architecture, adapted to it. */
  lemma DeployedComesFromBundle(templates: seq<Template>, archs: seq<Arch>, multi: bool, d: Template)
    requires d in Deployed(templates, archs, multi)
    ensures exists t, a :: t in templates && a in archs && TemplateArch(t) == Some(a) && d == Adapted(t, a, multi)
  {
    InFlatMap(archs, ForArchs(templates, multi), d);
    var a :| a in archs && d in ForArchs(templates, multi)(a);
    InFlatMap(OfArch(templates, a), Adapter(a, multi), d);
    var t :| t in OfArch(templates, a) && d in Adapter(a, multi)(t);
    GroupedComesFromBundle(templates, a, t);
  }

  lemma GroupedComesFromBundle(templates: seq<Template>, a: Arch, t: Template)
    requires t in OfArch(templates, a)
    ensures t in templates && TemplateArch(t) == Some(a)
  {
    InFlatMap(templates, IfArch(a), t);
    var t' :| t' in templates && t in IfArch(a)(t');
  }

  /** Every bundle template whose architecture the cluster has, in bundle order, adapted to it. */
  function Supported(templates: seq<Template>, archs: seq<Arch>, multi: bool): seq<Template> {
    FlatMap(templates, IfSupported(archs, multi))
  }

  function IfSupported(archs: seq<Arch>, multi: bool): Template -> seq<Template> {
    (t: Template) =>
      if TemplateArch(t).Some? && TemplateArch(t).value in archs then [Adapted(t, TemplateArch(t).value, multi)] else []
  }

  lemma {:induction false} FlatMapSplits<X(!new), Y>(xs: seq<X>, f: X -> seq<Y>, g: X -> seq<Y>, h: X -> seq<Y>)
    requires forall x :: multiset(h(x)) == multiset(f(x)) + multiset(g(x))
    ensures multiset(FlatMap(xs, h)) == multiset(FlatMap(xs, f)) + multiset(FlatMap(xs, g))
  {
    if xs != [] { FlatMapSplits(xs[..|xs| - 1], f, g, h); }
  }

  lemma {:induction false} AdaptedGroup(templates: seq<Template>, a: Arch, multi: bool)
    ensures ForArchs(templates, multi)(a) == Supported(templates, [a], multi)
  {
    if templates != [] {
      var n := |templates| - 1;
      AdaptedGroup(templates[..n], a, multi);
      AdaptNext(OfArch(templates[..n], a), templates[n], a, multi);
    }
  }

  lemma AdaptNext(group: seq<Template>, t: Template, a: Arch, multi: bool)
    ensures FlatMap(group + IfArch(a)(t), Adapter(a, multi)) ==
            FlatMap(group, Adapter(a, multi)) + IfSupported([a], multi)(t)
  {
    if TemplateArch(t) == Some(a) {
      assert (group + [t])[..|group|] == group;
    } else {
      assert group + [] == group;
    }
  }

  lemma OneMoreArch(templates: seq<Template>, archs: seq<Arch>, a: Arch, multi: bool)
    requires a !in archs
    ensures multiset(Supported(templates, archs + [a], multi)) ==
            multiset(Supported(templates, archs, multi)) + multiset(Supported(templates, [a], multi))
  {
    FlatMapSplits(templates, IfSupported(archs, multi), IfSupported([a], multi), IfSupported(archs + [a], multi));
  }

  /** Each of them is deployed as often as the bundle has it, and nothing else is. */
  lemma {:induction false} DeployedIsSupported(templates: seq<Template>, archs: seq<Arch>, multi: bool)
    requires NoDuplicates(archs)
    ensures multiset(Deployed(templates, archs, multi)) == multiset(Supported(templates, archs, multi))
  {
    if archs == [] {
      NothingIsSupported(templates, multi);
    } else {
      var n := |archs| - 1;
      DeployedIsSupported(templates, archs[..n], multi);
      AdaptedGroup(templates, archs[n], multi);
      OneMoreArch(templates, archs[..n], archs[n], multi);
      assert archs == archs[..n] + [archs[n]];
    }
  }

  lemma {:induction false} NothingIsSupported(templates: seq<Template>, multi: bool)
    ensures Supported(templates, [], multi) == []
  {
    if templates != [] { NothingIsSupported(templates[..|templates| - 1], multi); }
  }

  /** The first parameter with the name, if there is one, and only with many architectures. */
  ghost predicate GetsSuffix(parameters: seq<Parameter>, i: nat)
    requires i < |parameters|
  {
    parameters[i].name == NAME_PARAMETER && forall j :: 0 <= j < i ==> parameters[j].name != NAME_PARAMETER
  }

  lemma {:induction false} SuffixedAt(parameters: seq<Parameter>, arch: Arch)
    ensures |WithSuffix(parameters, arch)| == |parameters|
    ensures forall i :: 0 <= i < |parameters| ==>
              WithSuffix(parameters, arch)[i] ==
                if GetsSuffix(parameters, i)
                then Parameter(parameters[i].name, parameters[i].value + "-" + Name(arch))
                else parameters[i]
  {
    if parameters != [] && parameters[0].name != NAME_PARAMETER {
      var rest := parameters[1..];
      SuffixedAt(rest, arch);
      forall i | 0 < i < |parameters| ensures GetsSuffix(parameters, i) <==> GetsSuffix(rest, i - 1) {
        assert forall j :: 0 <= j < |rest| ==> rest[j] == parameters[j + 1];
        assert forall j :: 0 < j < |parameters| ==> parameters[j] == rest[j - 1];
      }
    }
  }

  /** A deployed template is the shipped one but for the value of that parameter. */
  lemma AdaptedOnlyThere(t: Template, a: Arch, multi: bool)
    ensures var d := Adapted(t, a, multi);
            && d == t.(spec := t.spec.(parameters := d.spec.parameters))
            && |d.spec.parameters| == |t.spec.parameters|
            && forall i :: 0 <= i < |t.spec.parameters| ==>
                 var p := t.spec.parameters[i];
                 d.spec.parameters[i] ==
                   if multi && GetsSuffix(t.spec.parameters, i) then Parameter(p.name, p.value + "-" + Name(a)) else p
  {
    SuffixedAt(t.spec.parameters, a);
  }

  lemma {:induction false} SuffixShows(parameters: seq<Parameter>, arch: Arch, name: string)
    ensures var before, after := FindParameter(parameters, name), FindParameter(WithSuffix(parameters, arch), name);
            after == if name == NAME_PARAMETER && before.Some? then Some(Suffixed(before.value, arch)) else before
  {
    if parameters != [] && parameters[0].name != NAME_PARAMETER {
      SuffixShows(parameters[1..], arch, name);
      assert WithSuffix(parameters, arch)[1..] == WithSuffix(parameters[1..], arch);
    }
  }

  /** The name a deployed template uses, in terms of the bundle's. */
  lemma AdaptedName(t: Template, a: Arch, multi: bool)
    ensures var before, after := DataSourceName(t), DataSourceName(Adapted(t, a, multi));
            var current := FindParameter(t.spec.parameters, NAME_PARAMETER).Some?;
            && after == (if multi && current then Some(Suffixed(before.value, a)) else before)
            && FindParameter(Adapted(t, a, multi).spec.parameters, NAME_PARAMETER).Some? == current
  {
    SuffixShows(t.spec.parameters, a, NAME_PARAMETER);
    SuffixShows(t.spec.parameters, a, OLD_NAME_PARAMETER);
    assert NAME_PARAMETER[0] == 'D' && OLD_NAME_PARAMETER[0] == 'S';
  }

  /** A planned entry for one architecture of a bundle name. */
  ghost predicate PlannedForArch(inp: Input, name: string, a: Arch)
    requires inp.archs != []
  {
    exists n, x :: x in Planned(inp).infos && IsArchFor(inp, n, a, x) && x.source.key.name == name
  }

  lemma PlanHasName(inp: Input, x: Info)
    requires inp.archs != [] && x in Planned(inp).infos
    ensures HasName(Planned(inp).infos, x.source.key.name)
  {
    var i :| 0 <= i < |Planned(inp).infos| && Planned(inp).infos[i] == x;
  }

  /** Names the plan has for a bundle name and one of its architectures. */
  lemma NamesArePlanned(inp: Input, name: string, a: Arch)
    requires WellFormedInput(inp) && a in inp.archs && a in ArchsOf(inp.sources, name)
    requires !IsMultiArch(inp.spec) ==> |inp.archs| == 1
    ensures HasName(Planned(inp).infos, name)
    ensures IsMultiArch(inp.spec) ==> HasName(Planned(inp).infos, Suffixed(name, a))
    ensures IsMultiArch(inp.spec) ==> PlannedForArch(inp, Suffixed(name, a), a)
  {
    if IsMultiArch(inp.spec) {
      var default := DefaultArch(inp.archs, inp.sources[name]).value;
      var y := ArchInfo(inp.server, Crons(inp), name, a, a == default);
      ArchEntry(inp, name, a, a == default);
      assert IsArchFor(inp, name, a, y);
      PlannedMulti(inp, name, y);
      PlannedMulti(inp, name, ReferenceInfo(name, default));
      PlanHasName(inp, y);
      PlanHasName(inp, ReferenceInfo(name, default));
    } else {
      var x := SingleInfo(inp.server, Crons(inp), name);
      InSingle(inp, inp.archs[0], x);
      PlanHasName(inp, x);
    }
  }

  lemma BundleTemplateIsCollected(templates: seq<Template>, t: Template, a: Arch)
    requires Collect(templates).Ok? && t in templates && TemplateArch(t) == Some(a)
    requires t.spec.vm.VmDefinition? && t.spec.vm.usesSourceRef && DataSourceName(t).Some?
    ensures a in ArchsOf(Collect(templates).value, DataSourceName(t).value)
  {
    CollectedEntry(templates, t);
    CollectIsExact(templates);
    assert Contributes(templates, DataSourceName(t).value, a);
  }

  /**
   Both operands agree on names: whatever DataSource a deployed template refers to is planned
   for the same SSP spec, whichever parameter carries the name, with one or many architectures.
   With many, the current parameter names the entry of the template's own architecture.
   */
  lemma DeployedTemplatesNamePlannedSources(inp: Input, templates: seq<Template>, d: Template)
    requires WellFormedInput(inp) && Collect(templates) == Ok(inp.sources)
    requires !IsMultiArch(inp.spec) ==> |inp.archs| == 1
    requires d in Deployed(templates, inp.archs, IsMultiArch(inp.spec))
    requires d.spec.vm.VmDefinition? && d.spec.vm.usesSourceRef && DataSourceName(d).Some?
    ensures HasName(Planned(inp).infos, DataSourceName(d).value)
    ensures IsMultiArch(inp.spec) && FindParameter(d.spec.parameters, NAME_PARAMETER).Some? ==>
              TemplateArch(d).Some? && PlannedForArch(inp, DataSourceName(d).value, TemplateArch(d).value)
  {
    var multi := IsMultiArch(inp.spec);
    DeployedComesFromBundle(templates, inp.archs, multi, d);
    var t, a :| t in templates && a in inp.archs && TemplateArch(t) == Some(a) && d == Adapted(t, a, multi);
    AdaptedName(t, a, multi);
    BundleTemplateIsCollected(templates, t, a);
    NamesArePlanned(inp, DataSourceName(t).value, a);
  }

  lemma {:induction false} CollectedEntry(templates: seq<Template>, t: Template)
    requires Collect(templates).Ok? && t in templates
    ensures Entry(t).Ok?
  {
    var n := |templates| - 1;
    if t != templates[n] { CollectedEntry(templates[..n], t); }
  }
}

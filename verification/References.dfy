/** References among planned DataSources, and the names that deployed templates use. */
module References {
  import opened Kube
  import opened ApiServer
  import opened UpdateFuncs
  import opened Ssp
  import opened Architecture
  import opened Bundle
  import opened CronPlan
  import opened DataSourcePlan
  import opened ManagerExclusivity

  /** The existing default DataSource that the operator leaves as it is happens to be a reference itself. */
  predicate StrayReference(s: Server, name: string, a: Arch) {
    var key := SourceKey(Suffixed(name, a));
    && key in s.objects
    && var found := s.objects[key];
       CRON_LABEL !in found.labels && Ready(found).None? && found.spec.DataSourceSpec? && found.spec.source.Reference?
  }

  predicate IsReference(o: Object) {
    o.spec.DataSourceSpec? && o.spec.source.Reference?
  }

  lemma DefaultIsReferenceIff(s: Server, source: Object, auto: bool, original: string)
    requires source.spec == DataSourceSpec(Pvc(GOLDEN_IMAGES, source.key.name))
    ensures IsReference(HandleDefault(s, source, auto, original).0) <==>
              && source.key in s.objects
              && CRON_LABEL !in s.objects[source.key].labels
              && Ready(s.objects[source.key]).None?
              && IsReference(s.objects[source.key])
  {
  }

  lemma ArchEntryIsReference(s: Server, crons: CronMap, name: string, a: Arch, default: bool)
    ensures IsReference(ArchInfo(s, crons, name, a, default).source) <==> default && StrayReference(s, name, a)
  {
    var plain := NewDataSource(Suffixed(name, a)).(labels := map[ARCH_LABEL := Name(a)]);
    DefaultIsReferenceIff(s, plain, AutoUpdate(s, crons, plain), name);
  }

  lemma DistinctMeansOne(infos: seq<Info>, x: Info, y: Info)
    requires DistinctNames(infos) && x in infos && y in infos && x.source.key.name == y.source.key.name
    ensures x == y
  {
    var i :| 0 <= i < |infos| && infos[i] == x;
    var j :| 0 <= j < |infos| && infos[j] == y;
    assert InfoName()(infos[i]) == InfoName()(infos[j]);
  }

  /**
   Every bundle name that the cluster supports is planned as a reference to the entry of the
   first supported architecture, which is the only entry with that name. One hop is enough
   unless a stray reference is left in its place.
   */
  lemma BundleReferencesResolve(inp: Input, name: string)
    requires WellFormedInput(inp) && IsMultiArch(inp.spec) && NonColliding(inp.sources, inp.archs)
    requires name in inp.sources && DefaultArch(inp.archs, inp.sources[name]).Some?
    ensures var a := DefaultArch(inp.archs, inp.sources[name]).value;
            var target := ArchInfo(inp.server, Crons(inp), name, a, true);
            var infos := Planned(inp).infos;
            && ReferenceInfo(name, a) in infos
            && target in infos
            && target.source.key == SourceKey(Suffixed(name, a))
            && (forall x <- infos :: x.source.key.name == Suffixed(name, a) ==> x == target)
            && (IsReference(target.source) <==> StrayReference(inp.server, name, a))
  {
    var a := DefaultArch(inp.archs, inp.sources[name]).value;
    var target := ArchInfo(inp.server, Crons(inp), name, a, true);
    PlannedInfosAreOk(inp);
    ArchEntry(inp, name, a, true);
    ArchEntryIsReference(inp.server, Crons(inp), name, a, true);
    ArchIsPlanned(inp, name, a);
    ReferenceIsPlanned(inp, name);
    OnlyOneOfTheName(Planned(inp).infos, target);
  }

  lemma OnlyOneOfTheName(infos: seq<Info>, target: Info)
    requires DistinctNames(infos) && target in infos
    ensures forall x <- infos :: x.source.key.name == target.source.key.name ==> x == target
  {
    forall x <- infos | x.source.key.name == target.source.key.name ensures x == target {
      DistinctMeansOne(infos, x, target);
    }
  }

  // ----- custom references

  /** Whether a cron template asks for a reference, and to which architecture. */
  function OriginArch(t: Cron, archs: seq<Arch>): Option<Arch> {
    var list := GetOrEmpty(t.annotations, ARCHS_ANNOTATION);
    if list == "" then None else DefaultArch(archs, ParseArchs(list))
  }

  type Origin = Cron -> Option<Arch>

  function OriginIn(archs: seq<Arch>): Origin {
    (t: Cron) => OriginArch(t, archs)
  }

  function ReferenceOf(t: Cron, origin: Origin): Info
    requires origin(t).Some?
  {
    ReferenceInfo(t.spec.managed, origin(t).value)
  }

  /** The list of custom references for any way of choosing the architecture. */
  function WithAdded(infos: seq<Info>, templates: seq<Cron>, origin: Origin): seq<Info> {
    if templates == [] then infos
    else
      var n := |templates| - 1;
      var before := WithAdded(infos, templates[..n], origin);
      if HasName(before, templates[n].spec.managed) || origin(templates[n]).None? then before
      else before + [ReferenceOf(templates[n], origin)]
  }

  lemma {:induction false} ReferencesAreAdded(infos: seq<Info>, templates: seq<Cron>, archs: seq<Arch>)
    ensures WithReferences(infos, templates, archs) == WithAdded(infos, templates, OriginIn(archs))
  {
    if templates != [] { ReferencesAreAdded(infos, templates[..|templates| - 1], archs); }
  }

  /** The first template that asks for a name nobody has planned yet. */
  predicate FirstFor(infos: seq<Info>, templates: seq<Cron>, origin: Origin, i: nat) {
    && i < |templates|
    && origin(templates[i]).Some?
    && !HasName(infos, templates[i].spec.managed)
    && !AskedFor(templates[..i], origin, templates[i].spec.managed)
  }

  predicate AskedFor(templates: seq<Cron>, origin: Origin, name: string) {
    exists t <- templates :: t.spec.managed == name && origin(t).Some?
  }

  predicate AddedFor(infos: seq<Info>, templates: seq<Cron>, origin: Origin, i: nat, x: Info) {
    FirstFor(infos, templates, origin, i) && x == ReferenceOf(templates[i], origin)
  }

  ghost predicate Added(infos: seq<Info>, templates: seq<Cron>, origin: Origin, x: Info) {
    exists i: nat :: AddedFor(infos, templates, origin, i, x)
  }

  lemma HasNameGrows(infos: seq<Info>, extra: Info, name: string)
    ensures HasName(infos + [extra], name) <==> HasName(infos, name) || extra.source.key.name == name
  {
    var all := infos + [extra];
    if i :| 0 <= i < |infos| && infos[i].source.key.name == name { assert all[i].source.key.name == name; }
    if extra.source.key.name == name { assert all[|infos|].source.key.name == name; }
  }

  /** Which names are there after the custom references. */
  lemma {:induction false} NamesAfterReferences(infos: seq<Info>, templates: seq<Cron>, origin: Origin, name: string)
    ensures HasName(WithAdded(infos, templates, origin), name) <==>
              HasName(infos, name) || AskedFor(templates, origin, name)
  {
    if templates != [] {
      var n := |templates| - 1;
      var before := WithAdded(infos, templates[..n], origin);
      NamesAfterReferences(infos, templates[..n], origin, name);
      if origin(templates[n]).Some? { HasNameGrows(before, ReferenceOf(templates[n], origin), name); }
      assert forall t :: t in templates <==> t in templates[..n] || t == templates[n];
    }
  }

  lemma AddedForEarlier(infos: seq<Info>, templates: seq<Cron>, origin: Origin, i: nat, x: Info)
    requires i < |templates| - 1
    ensures AddedFor(infos, templates, origin, i, x) <==> AddedFor(infos, templates[..|templates| - 1], origin, i, x)
  {
    var n := |templates| - 1;
    assert templates[..n][i] == templates[i] && templates[..n][..i] == templates[..i];
  }

  lemma AddedGrows(infos: seq<Info>, templates: seq<Cron>, origin: Origin, x: Info)
    requires templates != []
    ensures var n := |templates| - 1;
            Added(infos, templates, origin, x) <==>
              Added(infos, templates[..n], origin, x) || AddedFor(infos, templates, origin, n, x)
  {
    var n := |templates| - 1;
    if i: nat :| AddedFor(infos, templates[..n], origin, i, x) { AddedForEarlier(infos, templates, origin, i, x); }
    if i: nat :| AddedFor(infos, templates, origin, i, x) {
      if i < n { AddedForEarlier(infos, templates, origin, i, x); }
    }
  }

  /** Which references are added: one for each first template. */
  lemma {:induction false} AddedReferencesIff(infos: seq<Info>, templates: seq<Cron>, origin: Origin, x: Info)
    ensures x in WithAdded(infos, templates, origin) <==> x in infos || Added(infos, templates, origin, x)
  {
    if templates != [] {
      var n := |templates| - 1;
      AddedReferencesIff(infos, templates[..n], origin, x);
      NamesAfterReferences(infos, templates[..n], origin, templates[n].spec.managed);
      AddedGrows(infos, templates, origin, x);
    }
  }

  // ----- what provides a name

  /** A name that the plan creates itself, or has CDI create. */
  ghost predicate Provided(plan: Plan, name: string) {
    HasName(plan.infos, name) || Managed(GOLDEN_IMAGES, name) in plan.crons
  }

  ghost predicate BundleName(inp: Input, name: string) {
    exists n <- inp.order :: NameFor(inp, n, name)
  }

  /** Some template has a cron for the name, in the golden images namespace. */
  ghost predicate Imported(inp: Input, name: string) {
    exists t <- inp.spec.cronTemplates :: HasCronFor(t, inp.archs, inp.sources, name)
  }

  ghost predicate HasCronFor(t: Cron, archs: seq<Arch>, sources: Collection, name: string) {
    exists c <- CronsOf(t, true, archs, sources) :: ManagedBy(c) == Managed(GOLDEN_IMAGES, name)
  }

  /** The three things in bundle and spec that can provide a name. */
  ghost predicate Supplied(inp: Input, name: string) {
    || BundleName(inp, name)
    || Imported(inp, name)
    || AskedFor(inp.spec.cronTemplates, OriginIn(inp.archs), name)
  }

  function MultiInfos(inp: Input): seq<Info> {
    InfosMulti(inp.order, inp.server, Crons(inp), inp.sources, inp.archs)
  }

  lemma BundleNamesArePlanned(inp: Input, name: string)
    ensures HasName(MultiInfos(inp), name) <==> BundleName(inp, name)
  {
    if i :| 0 <= i < |MultiInfos(inp)| && MultiInfos(inp)[i].source.key.name == name {
      EntryHasBundleName(inp, MultiInfos(inp)[i]);
    }
    if n :| n in inp.order && NameFor(inp, n, name) {
      var x := EntryNamed(inp, n, name);
      InMulti(inp, x);
      NamedBy(MultiInfos(inp), x);
    }
  }

  lemma NamedBy(infos: seq<Info>, x: Info)
    requires x in infos
    ensures HasName(infos, x.source.key.name)
  {
    var i :| 0 <= i < |infos| && infos[i] == x;
  }

  lemma EntryHasBundleName(inp: Input, x: Info)
    requires x in MultiInfos(inp)
    ensures BundleName(inp, x.source.key.name)
  {
    InMulti(inp, x);
    var n :| n in inp.order && (IsReferenceFor(inp, n, x) || exists a :: IsArchFor(inp, n, a, x));
    EntryFor(inp, n, x);
  }

  lemma EntryNamed(inp: Input, n: string, name: string) returns (x: Info)
    requires NameFor(inp, n, name)
    ensures (IsReferenceFor(inp, n, x) || exists a :: IsArchFor(inp, n, a, x)) && x.source.key.name == name
  {
    var default := DefaultArch(inp.archs, ArchsOf(inp.sources, n)).value;
    if name == n {
      x := ReferenceInfo(n, default);
    } else {
      var a :| a in ArchsOf(inp.sources, n) && a in inp.archs && name == Suffixed(n, a);
      x := ArchInfo(inp.server, Crons(inp), n, a, a == default);
      ArchEntry(inp, n, a, a == default);
      assert IsArchFor(inp, n, a, x);
    }
  }

  lemma PlannedNamesIff(inp: Input, name: string)
    requires inp.archs != [] && IsMultiArch(inp.spec)
    ensures HasName(Planned(inp).infos, name) <==>
              BundleName(inp, name)
              || AskedFor(inp.spec.cronTemplates, OriginIn(inp.archs), name)
  {
    BundleNamesArePlanned(inp, name);
    PlannedWithReferences(inp);
    NamesAfterReferences(MultiInfos(inp), inp.spec.cronTemplates, OriginIn(inp.archs), name);
  }

  lemma CronsIff(inp: Input, name: string)
    requires IsMultiArch(inp.spec)
    ensures Managed(GOLDEN_IMAGES, name) in Crons(inp) <==> Imported(inp, name)
  {
    CronMapIsExact(inp.spec.cronTemplates, true, inp.archs, inp.sources);
    var k := Managed(GOLDEN_IMAGES, name);
    if k in Crons(inp) {
      var t :| t in inp.spec.cronTemplates && Crons(inp)[k] in CronsOf(t, true, inp.archs, inp.sources);
      assert HasCronFor(t, inp.archs, inp.sources, name);
    }
  }

  lemma CronOrPlanned(inp: Input, name: string)
    requires inp.archs != [] && Managed(GOLDEN_IMAGES, name) in Crons(inp)
    requires AllOk(Crons(inp), Planned(inp).infos)
    ensures Provided(Planned(inp), name)
  {
    var plan := Planned(inp);
    RemainingIsExact(Crons(inp), plan.infos);
    if Managed(GOLDEN_IMAGES, name) !in plan.crons {
      var info :| info in plan.infos && !info.auto && ManagedKey(info.source) == Managed(GOLDEN_IMAGES, name);
      var i :| 0 <= i < |plan.infos| && plan.infos[i] == info;
      assert plan.infos[i].source.key.name == name;
    }
  }

  /** A name is provided exactly if bundle or spec supply it; crons that the plan drops lose nothing. */
  lemma ProvidedIff(inp: Input, name: string)
    requires WellFormedInput(inp) && IsMultiArch(inp.spec) && NonColliding(inp.sources, inp.archs)
    ensures Provided(Planned(inp), name) <==> Supplied(inp, name)
  {
    PlannedNamesIff(inp, name);
    CronsIff(inp, name);
    RemainingIsExact(Crons(inp), Planned(inp).infos);
    if Imported(inp, name) {
      PlannedInfosAreOk(inp);
      CronOrPlanned(inp, name);
    }
  }

  // ----- every planned reference

  /** The reference leads to something that is provided, and to a longer name. */
  ghost predicate LeadsOn(plan: Plan, x: Info)
    requires IsReference(x.source)
  {
    var source := x.source.spec.source;
    source.namespace == GOLDEN_IMAGES && Provided(plan, source.name) && |source.name| > |x.source.key.name|
  }

  /** The same about the references that bundle, spec and cluster hold. */
  ghost predicate StrayLeadsOn(inp: Input, name: string, a: Arch)
    requires StrayReference(inp.server, name, a)
  {
    var source := inp.server.objects[SourceKey(Suffixed(name, a))].spec.source;
    && source.namespace == GOLDEN_IMAGES
    && Supplied(inp, source.name)
    && |source.name| > |Suffixed(name, a)|
  }

  ghost predicate IsDefault(inp: Input, name: string, a: Arch) {
    name in inp.order && DefaultArch(inp.archs, ArchsOf(inp.sources, name)) == Some(a)
  }

  /** A stray reference is planned as it is found. */
  lemma StrayIsPlanned(inp: Input, name: string, a: Arch) returns (x: Info)
    requires inp.archs != [] && IsMultiArch(inp.spec) && IsDefault(inp, name, a) && StrayReference(inp.server, name, a)
    ensures x in Planned(inp).infos && x.source.key == SourceKey(Suffixed(name, a))
    ensures x.source.spec == inp.server.objects[SourceKey(Suffixed(name, a))].spec
  {
    x := ArchInfo(inp.server, Crons(inp), name, a, true);
    assert IsArchFor(inp, name, a, x);
    PlannedMulti(inp, name, x);
    ArchEntry(inp, name, a, true);
    StrayIsTaken(inp.server, Crons(inp), name, a);
  }

  lemma StrayIsTaken(s: Server, crons: CronMap, name: string, a: Arch)
    requires StrayReference(s, name, a)
    ensures ArchInfo(s, crons, name, a, true).source.spec == s.objects[SourceKey(Suffixed(name, a))].spec
  {
  }

  /** The three origins of a planned reference. */
  ghost predicate FromBundle(inp: Input, name: string, x: Info) {
    name in inp.order && IsReferenceFor(inp, name, x)
  }

  ghost predicate FromStray(inp: Input, name: string, a: Arch, x: Info) {
    && IsDefault(inp, name, a)
    && StrayReference(inp.server, name, a)
    && x.source.key == SourceKey(Suffixed(name, a))
    && x.source.spec == inp.server.objects[SourceKey(Suffixed(name, a))].spec
  }

  ghost predicate FromTemplate(inp: Input, i: nat, x: Info) {
    AddedFor(MultiInfos(inp), inp.spec.cronTemplates, OriginIn(inp.archs), i, x)
  }

  lemma ArchReferenceIsStray(inp: Input, name: string, a: Arch, x: Info)
    requires name in inp.order && IsArchFor(inp, name, a, x) && IsReference(x.source)
    ensures FromStray(inp, name, a, x)
  {
    var default := DefaultArch(inp.archs, ArchsOf(inp.sources, name)).value;
    ArchEntryIsReference(inp.server, Crons(inp), name, a, a == default);
    ArchEntry(inp, name, a, a == default);
  }

  lemma MultiReferenceOrigin(inp: Input, x: Info)
    requires x in MultiInfos(inp) && IsReference(x.source)
    ensures (exists name :: FromBundle(inp, name, x)) || (exists name, a :: FromStray(inp, name, a, x))
  {
    InMulti(inp, x);
    var name :| name in inp.order && (IsReferenceFor(inp, name, x) || exists a :: IsArchFor(inp, name, a, x));
    if IsReferenceFor(inp, name, x) {
      assert FromBundle(inp, name, x);
    } else {
      var a :| IsArchFor(inp, name, a, x);
      ArchReferenceIsStray(inp, name, a, x);
    }
  }

  lemma PlannedIsMultiOrAdded(inp: Input, x: Info)
    requires inp.archs != [] && IsMultiArch(inp.spec)
    ensures x in Planned(inp).infos <==>
              x in MultiInfos(inp) || Added(MultiInfos(inp), inp.spec.cronTemplates, OriginIn(inp.archs), x)
  {
    PlannedWithReferences(inp);
    AddedReferencesIff(MultiInfos(inp), inp.spec.cronTemplates, OriginIn(inp.archs), x);
  }

  lemma PlannedWithReferences(inp: Input)
    requires inp.archs != [] && IsMultiArch(inp.spec)
    ensures Planned(inp).infos == WithAdded(MultiInfos(inp), inp.spec.cronTemplates, OriginIn(inp.archs))
  {
    ReferencesAreAdded(MultiInfos(inp), inp.spec.cronTemplates, inp.archs);
  }

  lemma BundleReferenceLeadsOn(inp: Input, name: string, x: Info)
    requires FromBundle(inp, name, x)
    ensures IsReference(x.source) && SuppliedOn(inp, x)
  {
    var a := DefaultArch(inp.archs, ArchsOf(inp.sources, name)).value;
    assert NameFor(inp, name, Suffixed(name, a));
  }

  /** The same as leading on, judged by bundle and spec. */
  ghost predicate SuppliedOn(inp: Input, x: Info)
    requires IsReference(x.source)
  {
    var source := x.source.spec.source;
    source.namespace == GOLDEN_IMAGES && Supplied(inp, source.name) && |source.name| > |x.source.key.name|
  }

  /** All custom templates and stray references lead on, judged by bundle, spec and cluster. */
  ghost predicate SourcesLeadOn(inp: Input) {
    && (forall i: nat :: FirstFor(MultiInfos(inp), inp.spec.cronTemplates, OriginIn(inp.archs), i) ==>
          Supplied(inp, TargetOf(inp.spec.cronTemplates[i], OriginIn(inp.archs))))
    && (forall name, a :: IsDefault(inp, name, a) && StrayReference(inp.server, name, a) ==> StrayLeadsOn(inp, name, a))
  }

  function TargetOf(t: Cron, origin: Origin): string
    requires origin(t).Some?
  {
    Suffixed(t.spec.managed, origin(t).value)
  }

  lemma TemplateIsPlanned(inp: Input, i: nat)
    requires inp.archs != [] && IsMultiArch(inp.spec)
    requires FirstFor(MultiInfos(inp), inp.spec.cronTemplates, OriginIn(inp.archs), i)
    ensures ReferenceOf(inp.spec.cronTemplates[i], OriginIn(inp.archs)) in Planned(inp).infos
  {
    PlannedIsMultiOrAdded(inp, ReferenceOf(inp.spec.cronTemplates[i], OriginIn(inp.archs)));
    assert FromTemplate(inp, i, ReferenceOf(inp.spec.cronTemplates[i], OriginIn(inp.archs)));
  }

  /** One reference that comes from the bundle or the cluster. */
  lemma MultiReferenceLeadsOn(inp: Input, x: Info)
    requires x in MultiInfos(inp) && IsReference(x.source) && SourcesLeadOn(inp)
    ensures SuppliedOn(inp, x)
  {
    MultiReferenceOrigin(inp, x);
    if name :| FromBundle(inp, name, x) {
      BundleReferenceLeadsOn(inp, name, x);
    } else {
      var name, a :| FromStray(inp, name, a, x);
      assert StrayLeadsOn(inp, name, a);
    }
  }

  lemma ReferenceLeadsOn(inp: Input, x: Info)
    requires WellFormedInput(inp) && IsMultiArch(inp.spec) && NonColliding(inp.sources, inp.archs)
    requires x in Planned(inp).infos && IsReference(x.source) && SourcesLeadOn(inp)
    ensures LeadsOn(Planned(inp), x)
  {
    PlannedIsMultiOrAdded(inp, x);
    if x in MultiInfos(inp) {
      MultiReferenceLeadsOn(inp, x);
    } else {
      var i: nat :| AddedFor(MultiInfos(inp), inp.spec.cronTemplates, OriginIn(inp.archs), i, x);
      TemplateLeadsOn(inp, i, x);
    }
    ProvidedIff(inp, x.source.spec.source.name);
  }

  lemma TemplateLeadsOn(inp: Input, i: nat, x: Info)
    requires FromTemplate(inp, i, x) && SourcesLeadOn(inp)
    ensures x.source.spec ==
            DataSourceSpec(Reference(GOLDEN_IMAGES, TargetOf(inp.spec.cronTemplates[i], OriginIn(inp.archs))))
    ensures SuppliedOn(inp, x)
  {
  }

  ghost predicate AllLeadOn(plan: Plan) {
    forall x <- plan.infos :: IsReference(x.source) ==> LeadsOn(plan, x)
  }

  lemma TemplateMustBeSupplied(inp: Input, i: nat)
    requires WellFormedInput(inp) && IsMultiArch(inp.spec) && NonColliding(inp.sources, inp.archs)
    requires FirstFor(MultiInfos(inp), inp.spec.cronTemplates, OriginIn(inp.archs), i) && AllLeadOn(Planned(inp))
    ensures Supplied(inp, TargetOf(inp.spec.cronTemplates[i], OriginIn(inp.archs)))
  {
    TemplateIsPlanned(inp, i);
    var x := ReferenceOf(inp.spec.cronTemplates[i], OriginIn(inp.archs));
    assert IsReference(x.source);
    ProvidedIff(inp, TargetOf(inp.spec.cronTemplates[i], OriginIn(inp.archs)));
  }

  lemma StrayMustLeadOn(inp: Input, name: string, a: Arch)
    requires WellFormedInput(inp) && IsMultiArch(inp.spec) && NonColliding(inp.sources, inp.archs)
    requires IsDefault(inp, name, a) && StrayReference(inp.server, name, a) && AllLeadOn(Planned(inp))
    ensures StrayLeadsOn(inp, name, a)
  {
    var x := StrayIsPlanned(inp, name, a);
    assert IsReference(x.source);
    ProvidedIff(inp, x.source.spec.source.name);
  }

  lemma SourcesMustLeadOn(inp: Input)
    requires WellFormedInput(inp) && IsMultiArch(inp.spec) && NonColliding(inp.sources, inp.archs)
    requires AllLeadOn(Planned(inp))
    ensures SourcesLeadOn(inp)
  {
    forall i: nat | FirstFor(MultiInfos(inp), inp.spec.cronTemplates, OriginIn(inp.archs), i)
      ensures Supplied(inp, TargetOf(inp.spec.cronTemplates[i], OriginIn(inp.archs)))
    {
      TemplateMustBeSupplied(inp, i);
    }
    forall name, a | IsDefault(inp, name, a) && StrayReference(inp.server, name, a) ensures StrayLeadsOn(inp, name, a) {
      StrayMustLeadOn(inp, name, a);
    }
  }

  /**
   Every planned reference leads to something provided with a longer name exactly if that holds
   of the custom templates' targets, judged by what bundle and spec supply, and of the stray
   references left in the place of default entries. That is enough for none to dangle or to lead
   back, but more than it takes.
   */
  lemma ReferencesLeadOnIff(inp: Input)
    requires WellFormedInput(inp) && IsMultiArch(inp.spec) && NonColliding(inp.sources, inp.archs)
    ensures AllLeadOn(Planned(inp)) <==> SourcesLeadOn(inp)
  {
    if SourcesLeadOn(inp) {
      forall x <- Planned(inp).infos | IsReference(x.source) ensures LeadsOn(Planned(inp), x) {
        ReferenceLeadsOn(inp, x);
      }
    }
    if AllLeadOn(Planned(inp)) { SourcesMustLeadOn(inp); }
  }

  /** A way along planned references. */
  ghost predicate Follows(plan: Plan, path: seq<Info>) {
    && (forall x <- path :: x in plan.infos)
    && forall i :: 0 <= i < |path| - 1 ==>
         IsReference(path[i].source) && path[i].source.spec.source.name == path[i + 1].source.key.name
  }

  /** References that lead on never lead back. */
  lemma {:induction false} NoWayBack(plan: Plan, path: seq<Info>)
    requires AllLeadOn(plan) && Follows(plan, path) && |path| >= 2
    ensures |path[|path| - 1].source.key.name| > |path[0].source.key.name|
  {
    var n := |path| - 1;
    assert path[n - 1] in path;
    if n > 1 { NoWayBack(plan, path[..n]); }
  }

  /** A template for the golden images namespace supplies the target of its own reference. */
  lemma LocalTemplateIsSupplied(inp: Input, i: nat)
    requires IsMultiArch(inp.spec) && i < |inp.spec.cronTemplates|
             && OriginArch(inp.spec.cronTemplates[i], inp.archs).Some?
    requires Normalized(inp.spec.cronTemplates[i]).key.namespace == GOLDEN_IMAGES
    ensures Supplied(inp, TargetOf(inp.spec.cronTemplates[i], OriginIn(inp.archs)))
  {
    var t := inp.spec.cronTemplates[i];
    var a := OriginArch(t, inp.archs).value;
    var copy := ForArch(Normalized(t), a);
    ArchCopiesAreExact(Normalized(t), ParseArchs(t.annotations[ARCHS_ANNOTATION]), inp.archs, copy);
    assert copy in CronsOf(t, true, inp.archs, inp.sources)
           && ManagedBy(copy) == Managed(GOLDEN_IMAGES, TargetOf(t, OriginIn(inp.archs)));
    assert HasCronFor(t, inp.archs, inp.sources, TargetOf(t, OriginIn(inp.archs)));
  }

  // ----- where it fails

  /** A stray default entry that points back at the bundle name: the plan keeps both, and each leads to the other. */
  lemma StrayReferenceCycles(inp: Input, name: string, a: Arch) returns (x: Info)
    requires inp.archs != [] && IsMultiArch(inp.spec) && IsDefault(inp, name, a) && StrayReference(inp.server, name, a)
    requires inp.server.objects[SourceKey(Suffixed(name, a))].spec.source == Reference(GOLDEN_IMAGES, name)
    ensures ReferenceInfo(name, a) in Planned(inp).infos && x in Planned(inp).infos
    ensures x.source.key == SourceKey(Suffixed(name, a))
    ensures x.source.spec == DataSourceSpec(Reference(GOLDEN_IMAGES, name))
    ensures ReferenceInfo(name, a).source.spec.source == Reference(GOLDEN_IMAGES, Suffixed(name, a))
  {
    x := StrayIsPlanned(inp, name, a);
    assert IsReferenceFor(inp, name, ReferenceInfo(name, a));
    PlannedMulti(inp, name, ReferenceInfo(name, a));
  }

  lemma CronsKeepNamespace(t: Cron, archs: seq<Arch>, sources: Collection, c: Cron)
    requires c in CronsOf(t, true, archs, sources)
    ensures c.key.namespace == Normalized(t).key.namespace
  {
    var list := GetOrEmpty(t.annotations, ARCHS_ANNOTATION);
    if list != "" { ArchCopiesAreExact(Normalized(t), ParseArchs(list), archs, c); }
  }

  /** A custom template for another namespace whose target neither bundle nor other templates supply. */
  lemma ForeignTemplateDangles(inp: Input, i: nat)
    requires WellFormedInput(inp) && IsMultiArch(inp.spec) && NonColliding(inp.sources, inp.archs)
    requires FirstFor(MultiInfos(inp), inp.spec.cronTemplates, OriginIn(inp.archs), i)
    requires Normalized(inp.spec.cronTemplates[i]).key.namespace != GOLDEN_IMAGES
    requires var target := TargetOf(inp.spec.cronTemplates[i], OriginIn(inp.archs));
             && !BundleName(inp, target)
             && forall t <- inp.spec.cronTemplates :: t != inp.spec.cronTemplates[i] ==>
                  t.spec.managed != target && !HasCronFor(t, inp.archs, inp.sources, target)
    ensures ReferenceOf(inp.spec.cronTemplates[i], OriginIn(inp.archs)) in Planned(inp).infos
    ensures !LeadsOn(Planned(inp), ReferenceOf(inp.spec.cronTemplates[i], OriginIn(inp.archs)))
  {
    TemplateIsPlanned(inp, i);
    ForeignTargetIsNotSupplied(inp, inp.spec.cronTemplates[i]);
    ProvidedIff(inp, TargetOf(inp.spec.cronTemplates[i], OriginIn(inp.archs)));
  }

  lemma ForeignTargetIsNotSupplied(inp: Input, t: Cron)
    requires IsMultiArch(inp.spec) && Normalized(t).key.namespace != GOLDEN_IMAGES && OriginIn(inp.archs)(t).Some?
    requires var target := TargetOf(t, OriginIn(inp.archs));
             && !BundleName(inp, target)
             && forall u <- inp.spec.cronTemplates :: u != t ==>
                  u.spec.managed != target && !HasCronFor(u, inp.archs, inp.sources, target)
    ensures !Supplied(inp, TargetOf(t, OriginIn(inp.archs)))
  {
    var target := TargetOf(t, OriginIn(inp.archs));
    assert |target| != |t.spec.managed|;
    forall c <- CronsOf(t, true, inp.archs, inp.sources) ensures ManagedBy(c) != Managed(GOLDEN_IMAGES, target) {
      CronsKeepNamespace(t, inp.archs, inp.sources, c);
    }
  }
}

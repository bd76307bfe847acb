/**
 Who manages each DataSource: the operator, which writes its spec, or CDI, through a
 DataImportCron. The plan is a function of bundle, SSP spec and cluster state; the order
 in which the bundle's map is walked is a parameter.
 */
module DataSourcePlan {
  import opened Kube
  import opened Sequences
  import opened ApiServer
  import opened UpdateFuncs
  import opened Ssp
  import opened Architecture
  import opened Bundle
  import opened CronPlan

  datatype Info = Info(source: Object, auto: bool, cronName: string)

  datatype Plan = Plan(infos: seq<Info>, crons: CronMap)

  function SourceKey(name: string): Key {
    Key(DATA_SOURCE, GOLDEN_IMAGES, name)
  }

  function NewSource(name: string, source: Source): Object {
    Object(SourceKey(name), 0, 0, 0, map[], map[], [], {}, false, DataSourceSpec(source), map[])
  }

  function NewDataSource(name: string): Object {
    NewSource(name, Pvc(GOLDEN_IMAGES, name))
  }

  function NewReference(name: string, target: string): Object {
    NewSource(name, Reference(GOLDEN_IMAGES, target))
  }

  predicate PvcExists(s: Server, namespace: string, name: string) {
    Key(PVC, namespace, name) in s.objects
  }

  /** The PVC pointer of a spec. */
  function PvcOf(spec: Spec): Option<Source> {
    if spec.DataSourceSpec? && spec.source.Pvc? then Some(spec.source) else None
  }

  predicate BackingPvcExists(s: Server, source: Object) {
    var pvc := PvcOf(source.spec);
    pvc.Some? && PvcExists(s, pvc.value.namespace, pvc.value.name)
  }

  function Ready(o: Object): Option<string> {
    Lookup(o.conditions, "Ready")
  }

  function ManagedKey(source: Object): Managed {
    Managed(source.key.namespace, source.key.name)
  }

  /**
   The ready condition is consulted only if both PVC pointers are the same pointer. One of
   them belongs to an object that was just read, so that needs both to be nil.
   */
  predicate AutoUpdate(s: Server, crons: CronMap, source: Object) {
    && ManagedKey(source) in crons
    && match Lookup(s.objects, source.key)
       case None => !BackingPvcExists(s, source)
       case Some(found) =>
         || CRON_LABEL in found.labels
         || if Ready(found).Some? && PvcOf(found.spec).None? && PvcOf(source.spec).None?
            then Ready(found).value != "True"
            else !BackingPvcExists(s, source)
  }

  /** The default architecture keeps using a golden image from before multiple architectures. */
  function HandleDefault(s: Server, source: Object, auto: bool, original: string): (Object, bool) {
    var compatible := source.(spec := DataSourceSpec(Pvc(GOLDEN_IMAGES, original)));
    match Lookup(s.objects, source.key)
    case None => if PvcExists(s, GOLDEN_IMAGES, original) then (compatible, false) else (source, auto)
    case Some(found) =>
      if CRON_LABEL in found.labels then (source, auto)
      else if Ready(found).None? then (source.(spec := found.spec), false)
      else if Ready(found).value == "True" && PvcOf(found.spec) == Some(Pvc(GOLDEN_IMAGES, original)) then
        (compatible, false)
      else (source, auto)
  }

  function CronName(crons: CronMap, source: Object): string {
    if ManagedKey(source) in crons then crons[ManagedKey(source)].key.name else ""
  }

  function SingleInfo(s: Server, crons: CronMap, name: string): Info {
    var source := NewDataSource(name);
    Info(source, AutoUpdate(s, crons, source), CronName(crons, source))
  }

  function ArchInfo(s: Server, crons: CronMap, name: string, arch: Arch, default: bool): Info {
    var plain := NewDataSource(Suffixed(name, arch)).(labels := map[ARCH_LABEL := Name(arch)]);
    var auto := AutoUpdate(s, crons, plain);
    var (source, decided) := if default then HandleDefault(s, plain, auto, name) else (plain, auto);
    Info(source, decided, CronName(crons, source))
  }

  function ReferenceInfo(name: string, arch: Arch): Info {
    Info(NewReference(name, Suffixed(name, arch)), false, "")
  }

  function SingleStep(s: Server, crons: CronMap, sources: Collection, arch: Arch): string -> seq<Info> {
    (name: string) => if arch in ArchsOf(sources, name) then [SingleInfo(s, crons, name)] else []
  }

  function InfosSingle(order: seq<string>, s: Server, crons: CronMap, sources: Collection, arch: Arch): seq<Info> {
    FlatMap(order, SingleStep(s, crons, sources, arch))
  }

  function ArchStep(s: Server, crons: CronMap, name: string, archs: seq<Arch>, default: Arch): Arch -> seq<Info> {
    (a: Arch) => if a in archs then [ArchInfo(s, crons, name, a, a == default)] else []
  }

  function NameInfos(s: Server, crons: CronMap, sources: Collection, name: string, archs: seq<Arch>): seq<Info> {
    var offered := ArchsOf(sources, name);
    var default := DefaultArch(archs, offered);
    if default.None? then []
    else [ReferenceInfo(name, default.value)] + FlatMap(offered, ArchStep(s, crons, name, archs, default.value))
  }

  function NameStep(s: Server, crons: CronMap, sources: Collection, archs: seq<Arch>): string -> seq<Info> {
    (name: string) => NameInfos(s, crons, sources, name, archs)
  }

  function InfosMulti(order: seq<string>, s: Server, crons: CronMap, sources: Collection, archs: seq<Arch>): seq<Info> {
    FlatMap(order, NameStep(s, crons, sources, archs))
  }

  predicate HasName(infos: seq<Info>, name: string) {
    exists i :: 0 <= i < |infos| && infos[i].source.key.name == name
  }

  /** The reference a custom cron template asks for, if nothing planned has that name yet. */
  function CustomReference(infos: seq<Info>, t: Cron, archs: seq<Arch>): Option<Info> {
    var list := GetOrEmpty(t.annotations, ARCHS_ANNOTATION);
    if HasName(infos, t.spec.managed) || list == "" then None
    else
      var default := DefaultArch(archs, ParseArchs(list));
      if default.None? then None else Some(ReferenceInfo(t.spec.managed, default.value))
  }

  function WithReferences(infos: seq<Info>, templates: seq<Cron>, archs: seq<Arch>): seq<Info> {
    if templates == [] then infos
    else
      var n := |templates| - 1;
      var before := WithReferences(infos, templates[..n], archs);
      var extra := CustomReference(before, templates[n], archs);
      if extra.None? then before else before + [extra.value]
  }

  /** Drops the crons of DataSources that the operator manages itself. */
  function Remaining(crons: CronMap, infos: seq<Info>): CronMap {
    if infos == [] then crons
    else
      var n := |infos| - 1;
      Remaining(crons, infos[..n]) - if infos[n].auto then {} else {ManagedKey(infos[n].source)}
  }

  function InfosFor(spec: SspSpec, archs: seq<Arch>, sources: Collection, order: seq<string>, s: Server): seq<Info>
    requires archs != []
  {
    var crons := CronMapOf(spec.cronTemplates, IsMultiArch(spec), archs, sources);
    if IsMultiArch(spec)
    then WithReferences(InfosMulti(order, s, crons, sources, archs), spec.cronTemplates, archs)
    else InfosSingle(order, s, crons, sources, archs[0])
  }

  function PlanFor(spec: SspSpec, archs: seq<Arch>, sources: Collection, order: seq<string>, s: Server): Plan
    requires archs != []
  {
    var infos := InfosFor(spec, archs, sources, order, s);
    Plan(infos, Remaining(CronMapOf(spec.cronTemplates, IsMultiArch(spec), archs, sources), infos))
  }

  // ----- the same plan, computed by filling lists and deleting from the map

  method CollectSingle(order: seq<string>, s: Server, crons: CronMap, sources: Collection, arch: Arch)
    returns (infos: seq<Info>)
    ensures infos == InfosSingle(order, s, crons, sources, arch)
  {
    infos := [];
    for i := 0 to |order|
      invariant infos == InfosSingle(order[..i], s, crons, sources, arch)
    {
      assert order[..i + 1][..i] == order[..i];
      assert infos + [] == infos;
      if arch !in ArchsOf(sources, order[i]) { continue; }
      var source := NewDataSource(order[i]);
      var auto := AutoUpdate(s, crons, source);
      infos := infos + [Info(source, auto, CronName(crons, source))];
    }
    assert order[..|order|] == order;
  }

  method CollectArchs(offered: seq<Arch>, s: Server, crons: CronMap, name: string, archs: seq<Arch>, default: Arch)
    returns (infos: seq<Info>)
    ensures infos == FlatMap(offered, ArchStep(s, crons, name, archs, default))
  {
    infos := [];
    for i := 0 to |offered|
      invariant infos == FlatMap(offered[..i], ArchStep(s, crons, name, archs, default))
    {
      assert offered[..i + 1][..i] == offered[..i];
      assert infos + [] == infos;
      if offered[i] !in archs { continue; }
      var source := NewDataSource(Suffixed(name, offered[i])).(labels := map[ARCH_LABEL := Name(offered[i])]);
      var auto := AutoUpdate(s, crons, source);
      if offered[i] == default {
        var decided := HandleDefault(s, source, auto, name);
        source, auto := decided.0, decided.1;
      }
      infos := infos + [Info(source, auto, CronName(crons, source))];
    }
    assert offered[..|offered|] == offered;
  }

  method CollectMulti(order: seq<string>, s: Server, crons: CronMap, sources: Collection, archs: seq<Arch>)
    returns (infos: seq<Info>)
    ensures infos == InfosMulti(order, s, crons, sources, archs)
  {
    infos := [];
    for i := 0 to |order|
      invariant infos == InfosMulti(order[..i], s, crons, sources, archs)
    {
      assert order[..i + 1][..i] == order[..i];
      var offered := ArchsOf(sources, order[i]);
      var default := DefaultArch(archs, offered);
      if default.None? {
        assert infos + [] == infos;
        continue;
      }
      var perArch := CollectArchs(offered, s, crons, order[i], archs, default.value);
      assert infos + ([ReferenceInfo(order[i], default.value)] + perArch)
          == infos + [ReferenceInfo(order[i], default.value)] + perArch;
      infos := infos + [ReferenceInfo(order[i], default.value)];
      infos := infos + perArch;
    }
    assert order[..|order|] == order;
  }

  method AddReferences(planned: seq<Info>, templates: seq<Cron>, archs: seq<Arch>) returns (infos: seq<Info>)
    ensures infos == WithReferences(planned, templates, archs)
  {
    infos := planned;
    for i := 0 to |templates|
      invariant infos == WithReferences(planned, templates[..i], archs)
    {
      assert templates[..i + 1][..i] == templates[..i];
      var list := GetOrEmpty(templates[i].annotations, ARCHS_ANNOTATION);
      if HasName(infos, templates[i].spec.managed) || list == "" { continue; }
      var default := DefaultArch(archs, ParseArchs(list));
      if default.None? { continue; }
      infos := infos + [ReferenceInfo(templates[i].spec.managed, default.value)];
    }
    assert templates[..|templates|] == templates;
  }

  method DropManaged(all: CronMap, infos: seq<Info>) returns (crons: CronMap)
    ensures crons == Remaining(all, infos)
  {
    crons := all;
    for i := 0 to |infos|
      invariant crons == Remaining(all, infos[..i])
    {
      assert infos[..i + 1][..i] == infos[..i];
      if !infos[i].auto {
        crons := crons - {ManagedKey(infos[i].source)};
      }
    }
    assert infos[..|infos|] == infos;
  }

  method MakePlan(spec: SspSpec, archs: seq<Arch>, sources: Collection, order: seq<string>, s: Server)
    returns (plan: Plan)
    requires archs != []
    ensures plan == PlanFor(spec, archs, sources, order, s)
  {
    var crons := CollectCrons(spec.cronTemplates, IsMultiArch(spec), archs, sources);
    var infos;
    if IsMultiArch(spec) {
      infos := CollectMulti(order, s, crons, sources, archs);
      infos := AddReferences(infos, spec.cronTemplates, archs);
    } else {
      infos := CollectSingle(order, s, crons, sources, archs[0]);
    }
    crons := DropManaged(crons, infos);
    plan := Plan(infos, crons);
  }
}

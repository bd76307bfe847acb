/** What planned DataSources look like, told from bundle, spec and cluster. */
module SourceContents {
  import opened Kube
  import opened ApiServer
  import opened Architecture
  import opened Bundle
  import opened CronPlan
  import opened DataSourcePlan
  import opened HandOverDecision
  import opened ManagerExclusivity
  import opened CronContents

  /** A new object of the golden images namespace. */
  predicate IsNewSource(o: Object, name: string, labels: StringMap, target: Source) {
    && o.key == Key(DATA_SOURCE, "kubevirt-os-images", name)
    && o.labels == labels
    && o.spec == DataSourceSpec(target)
    && o.annotations == map[]
    && o.ownerRefs == []
    && o.finalizers == {}
  }

  /** The name of the cron that serves the DataSource: the last template that claims it decides. */
  ghost predicate NamesCron(inp: Input, k: Managed, name: string) {
    if exists t <- inp.spec.cronTemplates :: Claims(inp, t, k)
    then exists c :: LastClaim(inp, inp.spec.cronTemplates, k, c) && ManagedBy(c) == k && c.key.name == name
    else name == ""
  }

  lemma CronNameIs(inp: Input, source: Object)
    ensures NamesCron(inp, ManagedKey(source), CronName(Crons(inp), source))
  {
    MapHoldsLastClaims(inp, inp.spec.cronTemplates, ManagedKey(source));
  }

  /** Without multiple architectures: the plain name, pointing at the image of that name. */
  lemma SingleEntryContents(inp: Input, name: string)
    ensures var x := SingleInfo(inp.server, Crons(inp), name);
            && IsNewSource(x.source, name, map[], Pvc("kubevirt-os-images", name))
            && NamesCron(inp, Managed("kubevirt-os-images", name), x.cronName)
  {
    CronNameIs(inp, NewDataSource(name));
  }

  lemma ArchInfoIs(s: Server, crons: CronMap, name: string, a: Arch, default: bool)
    requires Typed(s)
    ensures var own := name + "-" + Name(a);
            IsNewSource(ArchInfo(s, crons, name, a, default).source, own,
                        map["template.kubevirt.io/architecture" := Name(a)],
                        if default then DefaultTarget(s, name, own) else Pvc("kubevirt-os-images", own))
  {
    if default { DefaultTargetIs(s, crons, name, a); }
  }

  /**
   With multiple architectures: suffixed name, labelled with the architecture, pointing at the image
   of that name; for the default architecture at what was there before, as far as that is to be kept.
   */
  lemma ArchEntryContents(inp: Input, name: string, a: Arch, x: Info)
    requires IsArchFor(inp, name, a, x) && Typed(inp.server)
    ensures var own := name + "-" + Name(a);
            && IsNewSource(x.source, own, map["template.kubevirt.io/architecture" := Name(a)],
                           if FirstOffered(inp.archs, inp.sources, name, a)
                           then DefaultTarget(inp.server, name, own)
                           else Pvc("kubevirt-os-images", own))
            && NamesCron(inp, Managed("kubevirt-os-images", own), x.cronName)
  {
    var default := DefaultArch(inp.archs, ArchsOf(inp.sources, name)).value;
    assert FirstOffered(inp.archs, inp.sources, name, a) <==> a == default by {
      FirstOfferedIff(inp.archs, inp.sources, name, a);
    }
    ArchInfoIs(inp.server, Crons(inp), name, a, a == default);
    CronNameIs(inp, x.source);
  }
}

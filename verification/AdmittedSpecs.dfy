/** From an admitted SSP object and a bundle that loads to a plan that both operands agree on. */
module AdmittedSpecs {
  import opened Sequences
  import opened ApiServer
  import opened Ssp
  import opened Architecture
  import opened Bundle
  import opened DataSourcePlan
  import opened ManagerExclusivity
  import opened CommonTemplates

  ghost predicate Walks(order: seq<string>, sources: Collection) {
    NoDuplicates(order) && forall name :: name in order <==> name in sources
  }

  function InputFor(spec: SspSpec, build: string, templates: seq<Template>, order: seq<string>, s: Server): Input
    requires SspArchs(spec, build).Ok? && Collect(templates).Ok?
  {
    Input(spec, SspArchs(spec, build).value, Collect(templates).value, order, s)
  }

  /** Admission and bundle collection provide all that the planner relies on. */
  lemma AdmittedInputIsWellFormed(spec: SspSpec, build: string, templates: seq<Template>, order: seq<string>, s: Server)
    requires ClusterAccepted(spec) && ToArch(build).Some?
    requires Collect(templates).Ok? && Walks(order, Collect(templates).value)
    ensures SspArchs(spec, build).Ok?
    ensures WellFormedInput(InputFor(spec, build, templates, order, s))
    ensures !IsMultiArch(spec) ==> |SspArchs(spec, build).value| == 1
  {
    AdmissionIsSound(spec, build);
    CollectIsExact(templates);
  }

  /**
   For every admitted spec, every bundle, every cluster state and every map order: each planned
   DataSource has one manager, and each deployed template finds its DataSource in the plan.
   */
  lemma AdmittedSpecsWork(spec: SspSpec, build: string, templates: seq<Template>, order: seq<string>, s: Server)
    requires ClusterAccepted(spec) && ToArch(build).Some?
    requires Collect(templates).Ok? && Walks(order, Collect(templates).value)
    requires IsMultiArch(spec) ==>
               SspArchs(spec, build).Ok? && NonColliding(Collect(templates).value, SspArchs(spec, build).value)
    ensures SspArchs(spec, build).Ok? && SspArchs(spec, build).value != []
    ensures var inp := InputFor(spec, build, templates, order, s);
            && Exclusive(Planned(inp))
            && forall d <- Deployed(templates, inp.archs, IsMultiArch(spec)) ::
                 d.spec.vm.VmDefinition? && d.spec.vm.usesSourceRef && DataSourceName(d).Some? ==>
                   HasName(Planned(inp).infos, DataSourceName(d).value)
  {
    AdmittedInputIsWellFormed(spec, build, templates, order, s);
    var inp := InputFor(spec, build, templates, order, s);
    PlanIsExclusive(inp);
    forall d <- Deployed(templates, inp.archs, IsMultiArch(spec))
      | d.spec.vm.VmDefinition? && d.spec.vm.usesSourceRef && DataSourceName(d).Some?
      ensures HasName(Planned(inp).infos, DataSourceName(d).value)
    {
      DeployedTemplatesNamePlannedSources(inp, templates, d);
    }
  }
}

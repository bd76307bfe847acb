/** The SSP custom resource: the fields of its spec that decide what gets deployed. */
module Ssp {
  import opened Kube

  datatype ClusterArchs = ClusterArchs(workload: seq<string>, controlPlane: seq<string>)

  /** `rest` stands for the fields that are only copied into operand specs. */
  datatype SspSpec = SspSpec(
    multiArch: Option<bool>,
    cluster: Option<ClusterArchs>,
    templatesNamespace: string,
    cronTemplates: seq<Cron>,
    rest: string)

  const ZERO_SPEC := SspSpec(None, None, "", [], "")

  predicate IsMultiArch(spec: SspSpec) {
    spec.multiArch == Some(true)
  }
}

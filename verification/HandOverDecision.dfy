/** How the planner decides whether CDI or the operator manages a DataSource, in terms of what it reads. */
module HandOverDecision {
  import opened Kube
  import opened ApiServer
  import opened UpdateFuncs
  import opened Architecture
  import opened Bundle
  import opened CronPlan
  import opened DataSourcePlan

  predicate HasImage(s: Server, name: string) {
    PvcExists(s, GOLDEN_IMAGES, name)
  }

  predicate Labelled(s: Server, name: string) {
    SourceKey(name) in s.objects && CRON_LABEL in s.objects[SourceKey(name)].labels
  }

  /** Go's types: what is stored as a DataSource has a DataSource spec. */
  ghost predicate Typed(s: Server) {
    forall key <- s.objects :: key.kind == DATA_SOURCE ==> s.objects[key].spec.DataSourceSpec?
  }

  /** An entry that is not for the default architecture follows its own image. */
  lemma PlainDecision(s: Server, crons: CronMap, source: Object)
    requires source.key == SourceKey(source.key.name)
             && source.spec == DataSourceSpec(Pvc(GOLDEN_IMAGES, source.key.name))
    ensures AutoUpdate(s, crons, source) <==>
              && Managed(GOLDEN_IMAGES, source.key.name) in crons
              && (Labelled(s, source.key.name) || !HasImage(s, source.key.name))
  {
  }

  /** What the default architecture has to find so that the decision is left to its own image. */
  predicate DefaultIsFree(s: Server, original: string, name: string) {
    if SourceKey(name) !in s.objects then !HasImage(s, original)
    else
      var found := s.objects[SourceKey(name)];
      Ready(found).Some? && !(Ready(found).value == "True" && PvcOf(found.spec) == Some(Pvc(GOLDEN_IMAGES, original)))
  }

  /** What is read leaves a DataSource that has a cron to CDI. */
  predicate LeavesToCdi(s: Server, name: string, default: bool, original: string) {
    Labelled(s, name) || (!HasImage(s, name) && (default ==> DefaultIsFree(s, original, name)))
  }

  lemma DefaultAutoIs(s: Server, source: Object, auto: bool, original: string)
    requires source.key == SourceKey(source.key.name)
    ensures HandleDefault(s, source, auto, original).1 <==>
              auto && (Labelled(s, source.key.name) || DefaultIsFree(s, original, source.key.name))
  {
  }

  lemma ArchDecision(s: Server, crons: CronMap, original: string, a: Arch, default: bool)
    ensures ArchInfo(s, crons, original, a, default).auto <==>
              && Managed(GOLDEN_IMAGES, Suffixed(original, a)) in crons
              && LeavesToCdi(s, Suffixed(original, a), default, original)
  {
    var plain := NewDataSource(Suffixed(original, a)).(labels := map[ARCH_LABEL := Name(a)]);
    PlainDecision(s, crons, plain);
    DefaultAutoIs(s, plain, AutoUpdate(s, crons, plain), original);
  }

  lemma SingleDecision(s: Server, crons: CronMap, name: string)
    ensures SingleInfo(s, crons, name).auto <==>
              Managed(GOLDEN_IMAGES, name) in crons && LeavesToCdi(s, name, false, name)
  {
    PlainDecision(s, crons, NewDataSource(name));
  }

  /** Where the entry of the default architecture points if CDI does not manage it. */
  function DefaultTarget(s: Server, original: string, name: string): Source {
    var own, legacy := Pvc(GOLDEN_IMAGES, name), Pvc(GOLDEN_IMAGES, original);
    if SourceKey(name) !in s.objects then if HasImage(s, original) then legacy else own
    else
      var found := s.objects[SourceKey(name)];
      if Labelled(s, name) || !found.spec.DataSourceSpec? then own
      else if Ready(found).None? then found.spec.source
      else if Ready(found).value == "True" && found.spec.source == legacy then legacy
      else own
  }

  lemma DefaultTargetIs(s: Server, crons: CronMap, original: string, a: Arch)
    requires Typed(s)
    ensures var info := ArchInfo(s, crons, original, a, true);
            && info.source.key == SourceKey(Suffixed(original, a))
            && info.source.spec == DataSourceSpec(DefaultTarget(s, original, Suffixed(original, a)))
  {
  }
}

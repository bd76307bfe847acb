/** From planning to the stored DataSource: images that exist are used, images that do not are imported. */
module GoldenImages {
  import opened Kube
  import opened ApiServer
  import opened UpdateFuncs
  import opened Engine
  import opened Ssp
  import opened Architecture
  import opened Bundle
  import opened CronPlan
  import opened DataSourcePlan
  import opened HandOverDecision
  import opened ManagerExclusivity
  import opened DataSourceOperand
  import opened GarbageCollection
  import opened StickyHandOver

  predicate Leaving(s: Server, name: string) {
    SourceKey(name) in s.objects && s.objects[SourceKey(name)].terminating
  }

  /** One quiet pass of the operand for a plan with distinct names. */
  ghost predicate QuietPass(inp: Input, work: Work, owner: Owner, app: StringMap) {
    && WellFormedInput(inp)
    && (IsMultiArch(inp.spec) ==> NonColliding(inp.sources, inp.archs))
    && Consistent(inp.server)
    && WorkOf(inp, work, owner, app)
  }

  function ServerAfterPass(inp: Input, c: Cache, work: Work, owner: Owner, app: StringMap): Server {
    After(State(inp.server, c), work, owner, app).server
  }

  /** The operator's own: it points where it should, and CDI has no part in it. */
  ghost predicate PointsTo(inp: Input, s': Server, name: string, source: Source)
    requires inp.archs != []
  {
    && SourceKey(name) in s'.objects
    && s'.objects[SourceKey(name)].spec == DataSourceSpec(source)
    && !Labelled(s', name)
    && Managed(GOLDEN_IMAGES, name) !in Planned(inp).crons
  }

  /** CDI's: labelled with the cron that is planned for it, and its spec is as CDI left it. */
  ghost predicate ImportedBy(inp: Input, s': Server, name: string)
    requires inp.archs != []
  {
    && Managed(GOLDEN_IMAGES, name) in Planned(inp).crons
    && SourceKey(name) in s'.objects
    && Lookup(s'.objects[SourceKey(name)].labels, CRON_LABEL) ==
       Some(Planned(inp).crons[Managed(GOLDEN_IMAGES, name)].key.name)
    && s'.objects[SourceKey(name)].spec ==
         if SourceKey(name) in inp.server.objects then inp.server.objects[SourceKey(name)].spec
           else DataSourceSpec(NoSource)
  }

  /** What a plan entry becomes. */
  lemma EntryAfterPass(inp: Input, c: Cache, work: Work, owner: Owner, app: StringMap, name: string, x: Info)
    requires QuietPass(inp, work, owner, app) && x in Planned(inp).infos && x.source.key == SourceKey(name)
    requires !Leaving(inp.server, name) && x.source.spec.DataSourceSpec?
    ensures var s' := ServerAfterPass(inp, c, work, owner, app);
            if x.auto then ImportedBy(inp, s', name) else PointsTo(inp, s', name, x.source.spec.source)
  {
    PlanIsExclusive(inp);
    var i :| 0 <= i < |Planned(inp).infos| && Planned(inp).infos[i] == x;
    assert OneManager(Planned(inp), i);
    PlannedSourceIsHandled(State(inp.server, c), work, owner, app, x);
  }

  // ----- one architecture, or one that is not the default

  /** A bundle name that is planned for its own image alone. */
  ghost predicate Plain(inp: Input, name: string)
    requires inp.archs != []
  {
    if IsMultiArch(inp.spec)
    then exists n, a :: n in inp.order && a in ArchsOf(inp.sources, n) && a in inp.archs && name == Suffixed(n, a)
                        && DefaultArch(inp.archs, ArchsOf(inp.sources, n)) != Some(a)
    else name in inp.order && inp.archs[0] in ArchsOf(inp.sources, name)
  }

  lemma PlainEntry(inp: Input, name: string) returns (x: Info)
    requires WellFormedInput(inp) && Plain(inp, name)
    ensures x in Planned(inp).infos && x.source.key == SourceKey(name)
    ensures x.source.spec == DataSourceSpec(Pvc(GOLDEN_IMAGES, name))
    ensures x.auto <==>
              Managed(GOLDEN_IMAGES, name) in Crons(inp) && (Labelled(inp.server, name) || !HasImage(inp.server, name))
  {
    if IsMultiArch(inp.spec) {
      var n, a :| n in inp.order && a in ArchsOf(inp.sources, n) && a in inp.archs && name == Suffixed(n, a)
        && DefaultArch(inp.archs, ArchsOf(inp.sources, n)) != Some(a);
      x := ArchInfo(inp.server, Crons(inp), n, a, false);
      assert IsArchFor(inp, n, a, x);
      PlannedMulti(inp, n, x);
      ArchDecision(inp.server, Crons(inp), n, a, false);
    } else {
      x := SingleInfo(inp.server, Crons(inp), name);
      InSingle(inp, inp.archs[0], x);
      SingleDecision(inp.server, Crons(inp), name);
    }
  }

  /** An image that was there first is used and never overwritten. */
  lemma ExistingImageIsUsed(inp: Input, c: Cache, work: Work, owner: Owner, app: StringMap, name: string)
    requires QuietPass(inp, work, owner, app) && Plain(inp, name) && !Leaving(inp.server, name)
    requires HasImage(inp.server, name) && !Labelled(inp.server, name)
    ensures PointsTo(inp, ServerAfterPass(inp, c, work, owner, app), name, Pvc(GOLDEN_IMAGES, name))
  {
    var x := PlainEntry(inp, name);
    EntryAfterPass(inp, c, work, owner, app, name, x);
  }

  /** An image that is not there is imported exactly if a cron is configured for it. */
  lemma MissingImageIsImportedIff(inp: Input, c: Cache, work: Work, owner: Owner, app: StringMap, name: string)
    requires QuietPass(inp, work, owner, app) && Plain(inp, name) && !Leaving(inp.server, name)
    requires !HasImage(inp.server, name)
    ensures var s' := ServerAfterPass(inp, c, work, owner, app);
            if Managed(GOLDEN_IMAGES, name) in Crons(inp) then ImportedBy(inp, s', name)
            else PointsTo(inp, s', name, Pvc(GOLDEN_IMAGES, name))
  {
    var x := PlainEntry(inp, name);
    EntryAfterPass(inp, c, work, owner, app, name, x);
  }

  // ----- the default architecture

  /** Neither the DataSource nor any image for it. */
  predicate IsNew(inp: Input, original: string, name: string) {
    SourceKey(name) !in inp.server.objects && !HasImage(inp.server, name) && !HasImage(inp.server, original)
  }

  lemma DefaultEntry(inp: Input, original: string, a: Arch) returns (x: Info)
    requires WellFormedInput(inp) && IsMultiArch(inp.spec) && Typed(inp.server)
    requires original in inp.order && DefaultArch(inp.archs, ArchsOf(inp.sources, original)) == Some(a)
    ensures x in Planned(inp).infos && x == ArchInfo(inp.server, Crons(inp), original, a, true)
  {
    x := ArchInfo(inp.server, Crons(inp), original, a, true);
    assert IsArchFor(inp, original, a, x);
    PlannedMulti(inp, original, x);
  }

  /**
   The default entry is imported only if there is neither its own image nor, for a new one, the
   image from before architectures had names of their own; otherwise it points to what there is.
   */
  lemma DefaultImageIsKept(inp: Input, c: Cache, work: Work, owner: Owner, app: StringMap, original: string, a: Arch)
    requires QuietPass(inp, work, owner, app) && IsMultiArch(inp.spec) && Typed(inp.server)
    requires original in inp.order && DefaultArch(inp.archs, ArchsOf(inp.sources, original)) == Some(a)
    requires !Leaving(inp.server, Suffixed(original, a))
    ensures var name := Suffixed(original, a);
            var s' := ServerAfterPass(inp, c, work, owner, app);
            var target := DefaultTarget(inp.server, original, name);
            && (ImportedBy(inp, s', name) || PointsTo(inp, s', name, target))
            && (HasImage(inp.server, name) && !Labelled(inp.server, name) ==> PointsTo(inp, s', name, target))
            && (target != Pvc(GOLDEN_IMAGES, name) ==> PointsTo(inp, s', name, target))
            && (IsNew(inp, original, name) && Managed(GOLDEN_IMAGES, name) in Crons(inp) ==> ImportedBy(inp, s', name))
  {
    var x := DefaultEntry(inp, original, a);
    ArchDecision(inp.server, Crons(inp), original, a, true);
    DefaultTargetIs(inp.server, Crons(inp), original, a);
    EntryAfterPass(inp, c, work, owner, app, Suffixed(original, a), x);
  }
}

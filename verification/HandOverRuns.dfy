/**
 Hand-over decisions feed back through a label: a pass writes it, the next pass reads it.
 In a quiet cluster the plan is a fixed point; in a busy one a hand-over sticks.
 */
module HandOverRuns {
  import opened Kube
  import opened Sequences
  import opened ApiServer
  import opened Ssp
  import opened Architecture
  import opened Bundle
  import opened CronPlan
  import opened DataSourcePlan
  import opened ManagerExclusivity
  import opened DataSourceOperand

  /** Same PVCs, as far as any decision can see. */
  ghost predicate SamePvcs(s: Server, s': Server) {
    forall namespace, name :: PvcExists(s, namespace, name) <==> PvcExists(s', namespace, name)
  }

  /** Once a plan has been carried out for a DataSource, the same decision is made again. */
  lemma SingleDecisionIsStable(s: Server, s': Server, crons: CronMap, name: string)
    requires SamePvcs(s, s')
    requires HandledBy(SingleInfo(s, crons, name), Lookup(s.objects, SourceKey(name)),
                       Lookup(s'.objects, SourceKey(name)))
    ensures SingleInfo(s', crons, name) == SingleInfo(s, crons, name)
  {
  }

  lemma ArchDecisionIsStable(s: Server, s': Server, crons: CronMap, name: string, a: Arch, default: bool)
    requires SamePvcs(s, s')
    requires var key := SourceKey(Suffixed(name, a));
             HandledBy(ArchInfo(s, crons, name, a, default), Lookup(s.objects, key), Lookup(s'.objects, key))
    ensures ArchInfo(s', crons, name, a, default) == ArchInfo(s, crons, name, a, default)
  {
    assert |Suffixed(name, a)| != |name|;
  }

  lemma {:induction false} FlatMapCongruence<X, Y>(xs: seq<X>, f: X -> seq<Y>, g: X -> seq<Y>)
    requires forall x <- xs :: f(x) == g(x)
    ensures FlatMap(xs, f) == FlatMap(xs, g)
  {
    if xs != [] { FlatMapCongruence(xs[..|xs| - 1], f, g); }
  }

  /** Every planned DataSource has been handled. */
  ghost predicate CarriedOut(inp: Input, s': Server)
    requires inp.archs != []
  {
    && SamePvcs(inp.server, s')
    && forall x <- Planned(inp).infos ::
         HandledBy(x, Lookup(inp.server.objects, x.source.key), Lookup(s'.objects, x.source.key))
  }

  lemma NameInfosAreStable(inp: Input, s': Server, name: string)
    requires inp.archs != [] && IsMultiArch(inp.spec) && name in inp.order && CarriedOut(inp, s')
    ensures NameInfos(s', Crons(inp), inp.sources, name, inp.archs) ==
            NameInfos(inp.server, Crons(inp), inp.sources, name, inp.archs)
  {
    var offered := ArchsOf(inp.sources, name);
    var default := DefaultArch(inp.archs, offered);
    if default.Some? {
      var f := ArchStep(inp.server, Crons(inp), name, inp.archs, default.value);
      var g := ArchStep(s', Crons(inp), name, inp.archs, default.value);
      forall a <- offered ensures f(a) == g(a) {
        if a in inp.archs {
          var x := ArchInfo(inp.server, Crons(inp), name, a, a == default.value);
          assert IsArchFor(inp, name, a, x);
          PlannedMulti(inp, name, x);
          ArchEntry(inp, name, a, a == default.value);
          ArchDecisionIsStable(inp.server, s', Crons(inp), name, a, a == default.value);
        }
      }
      FlatMapCongruence(offered, f, g);
    }
  }

  lemma MultiPlanIsStable(inp: Input, s': Server)
    requires inp.archs != [] && IsMultiArch(inp.spec) && CarriedOut(inp, s')
    ensures Planned(inp.(server := s')) == Planned(inp)
  {
    var f := NameStep(inp.server, Crons(inp), inp.sources, inp.archs);
    var g := NameStep(s', Crons(inp), inp.sources, inp.archs);
    forall name <- inp.order ensures f(name) == g(name) { NameInfosAreStable(inp, s', name); }
    FlatMapCongruence(inp.order, f, g);
  }

  lemma SinglePlanIsStable(inp: Input, s': Server)
    requires inp.archs != [] && !IsMultiArch(inp.spec) && CarriedOut(inp, s')
    ensures Planned(inp.(server := s')) == Planned(inp)
  {
    var arch := inp.archs[0];
    var f := SingleStep(inp.server, Crons(inp), inp.sources, arch);
    var g := SingleStep(s', Crons(inp), inp.sources, arch);
    forall name <- inp.order ensures f(name) == g(name) {
      if arch in ArchsOf(inp.sources, name) {
        var x := SingleInfo(inp.server, Crons(inp), name);
        InSingle(inp, arch, x);
        assert x in Planned(inp).infos;
        SingleDecisionIsStable(inp.server, s', Crons(inp), name);
      }
    }
    FlatMapCongruence(inp.order, f, g);
  }

  /** A plan that has been carried out is planned again. */
  lemma PlanIsFixedPoint(inp: Input, s': Server)
    requires inp.archs != [] && CarriedOut(inp, s')
    ensures Planned(inp.(server := s')) == Planned(inp)
  {
    if IsMultiArch(inp.spec) { MultiPlanIsStable(inp, s'); } else { SinglePlanIsStable(inp, s'); }
  }
}

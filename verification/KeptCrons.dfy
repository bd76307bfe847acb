/** Which crons a plan keeps, told from bundle, spec and cluster. */
module KeptCrons {
  import opened Kube
  import opened Ssp
  import opened Architecture
  import opened Bundle
  import opened CronPlan
  import opened DataSourcePlan
  import opened HandOverDecision
  import opened ManagerExclusivity
  import opened References

  /** The plan leaves every entry for this DataSource to its cron. */
  ghost predicate PlanKeeps(inp: Input, k: Managed)
    requires inp.archs != []
  {
    forall x <- Planned(inp).infos :: x.auto || ManagedKey(x.source) != k
  }

  /** Outside the golden images namespace nothing is planned; inside, nothing else may have the name. */
  ghost predicate Kept(inp: Input, k: Managed)
    requires inp.archs != []
  {
    k.namespace == GOLDEN_IMAGES ==> if IsMultiArch(inp.spec) then FreeOfMany(inp, k.name) else FreeOfOne(inp, k.name)
  }

  /** No bundle name and no custom template makes it a reference, and what is read of it leaves it to CDI. */
  ghost predicate FreeOfMany(inp: Input, name: string) {
    && !(name in inp.order && DefaultArch(inp.archs, ArchsOf(inp.sources, name)).Some?)
    && (AskedFor(inp.spec.cronTemplates, OriginIn(inp.archs), name) ==> BundleName(inp, name))
    && forall n, a :: Entry(inp, n, a) && name == Suffixed(n, a) ==> EntryLeaves(inp, n, a)
  }

  predicate Entry(inp: Input, n: string, a: Arch) {
    n in inp.order && a in ArchsOf(inp.sources, n) && a in inp.archs
  }

  predicate EntryLeaves(inp: Input, n: string, a: Arch) {
    LeavesToCdi(inp.server, Suffixed(n, a), DefaultArch(inp.archs, ArchsOf(inp.sources, n)) == Some(a), n)
  }

  ghost predicate FreeOfOne(inp: Input, name: string)
    requires inp.archs != []
  {
    name in inp.order && inp.archs[0] in ArchsOf(inp.sources, name) ==> LeavesToCdi(inp.server, name, false, name)
  }

  // ----- one architecture

  lemma SingleInfosArePlanned(inp: Input)
    requires inp.archs != [] && !IsMultiArch(inp.spec)
    ensures Planned(inp).infos == InfosSingle(inp.order, inp.server, Crons(inp), inp.sources, inp.archs[0])
  {
  }

  lemma SingleEntryKeeps(inp: Input, k: Managed, x: Info)
    requires inp.archs != [] && k in Crons(inp) && k.namespace == GOLDEN_IMAGES && FreeOfOne(inp, k.name)
    requires x in InfosSingle(inp.order, inp.server, Crons(inp), inp.sources, inp.archs[0])
    ensures x.auto || ManagedKey(x.source) != k
  {
    InSingle(inp, inp.archs[0], x);
    var name :| name in inp.order && inp.archs[0] in ArchsOf(inp.sources, name) &&
                x == SingleInfo(inp.server, Crons(inp), name);
    SingleDecision(inp.server, Crons(inp), name);
  }

  lemma KeptOfOneIff(inp: Input, k: Managed)
    requires inp.archs != [] && !IsMultiArch(inp.spec) && k in Crons(inp) && k.namespace == GOLDEN_IMAGES
    ensures PlanKeeps(inp, k) <==> FreeOfOne(inp, k.name)
  {
    SingleInfosArePlanned(inp);
    if FreeOfOne(inp, k.name) {
      forall x <- Planned(inp).infos ensures x.auto || ManagedKey(x.source) != k { SingleEntryKeeps(inp, k, x); }
    } else {
      var y := SingleInfo(inp.server, Crons(inp), k.name);
      InSingle(inp, inp.archs[0], y);
      SingleDecision(inp.server, Crons(inp), k.name);
      assert y in Planned(inp).infos && ManagedKey(y.source) == k;
    }
  }

  // ----- many architectures

  lemma BundleEntryKeeps(inp: Input, k: Managed, x: Info)
    requires k in Crons(inp) && k.namespace == GOLDEN_IMAGES && FreeOfMany(inp, k.name)
    requires x in MultiInfos(inp) && ManagedKey(x.source) == k
    ensures x.auto
  {
    InMulti(inp, x);
    var n :| n in inp.order && (IsReferenceFor(inp, n, x) || exists a :: IsArchFor(inp, n, a, x));
    if !IsReferenceFor(inp, n, x) {
      var a :| IsArchFor(inp, n, a, x);
      ArchEntryDecides(inp, n, a, x);
      assert Entry(inp, n, a) && EntryLeaves(inp, n, a);
    }
  }

  lemma ArchEntryDecides(inp: Input, n: string, a: Arch, x: Info)
    requires IsArchFor(inp, n, a, x)
    ensures x.source.key == SourceKey(Suffixed(n, a))
    ensures x.auto <==> Managed(GOLDEN_IMAGES, Suffixed(n, a)) in Crons(inp) && EntryLeaves(inp, n, a)
  {
    var default := a == DefaultArch(inp.archs, ArchsOf(inp.sources, n)).value;
    ArchEntry(inp, n, a, default);
    ArchDecision(inp.server, Crons(inp), n, a, default);
  }

  lemma AddedIsAsked(inp: Input, x: Info)
    requires Added(MultiInfos(inp), inp.spec.cronTemplates, OriginIn(inp.archs), x)
    ensures AskedFor(inp.spec.cronTemplates, OriginIn(inp.archs), x.source.key.name)
    ensures !BundleName(inp, x.source.key.name) && !x.auto
  {
    var i: nat :| AddedFor(MultiInfos(inp), inp.spec.cronTemplates, OriginIn(inp.archs), i, x);
    BundleNamesArePlanned(inp, x.source.key.name);
    assert inp.spec.cronTemplates[i] in inp.spec.cronTemplates;
  }

  lemma FreeIsKept(inp: Input, k: Managed)
    requires inp.archs != [] && IsMultiArch(inp.spec) && k in Crons(inp) && k.namespace == GOLDEN_IMAGES
    requires FreeOfMany(inp, k.name)
    ensures PlanKeeps(inp, k)
  {
    forall x <- Planned(inp).infos | ManagedKey(x.source) == k ensures x.auto {
      PlannedIsMultiOrAdded(inp, x);
      if x in MultiInfos(inp) { BundleEntryKeeps(inp, k, x); } else { AddedIsAsked(inp, x); }
    }
  }

  lemma BundleReferenceIsNotFree(inp: Input, name: string)
    requires inp.archs != [] && IsMultiArch(inp.spec) && PlanKeeps(inp, Managed(GOLDEN_IMAGES, name))
    ensures !(name in inp.order && DefaultArch(inp.archs, ArchsOf(inp.sources, name)).Some?)
  {
    if name in inp.order && DefaultArch(inp.archs, ArchsOf(inp.sources, name)).Some? {
      var x := ReferenceInfo(name, DefaultArch(inp.archs, ArchsOf(inp.sources, name)).value);
      PlannedMulti(inp, name, x);
    }
  }

  lemma TemplateReferenceIsNotFree(inp: Input, name: string)
    requires inp.archs != [] && IsMultiArch(inp.spec) && PlanKeeps(inp, Managed(GOLDEN_IMAGES, name))
    requires AskedFor(inp.spec.cronTemplates, OriginIn(inp.archs), name)
    ensures BundleName(inp, name)
  {
    PlannedWithReferences(inp);
    NamesAfterReferences(MultiInfos(inp), inp.spec.cronTemplates, OriginIn(inp.archs), name);
    var i :| 0 <= i < |Planned(inp).infos| && Planned(inp).infos[i].source.key.name == name;
    var x := Planned(inp).infos[i];
    PlannedIsMultiOrAdded(inp, x);
    if x in MultiInfos(inp) {
      EntryHasBundleName(inp, x);
    } else {
      AddedIsAsked(inp, x);
      AddedIsGolden(inp, x);
    }
  }

  lemma AddedIsGolden(inp: Input, x: Info)
    requires Added(MultiInfos(inp), inp.spec.cronTemplates, OriginIn(inp.archs), x)
    ensures ManagedKey(x.source) == Managed(GOLDEN_IMAGES, x.source.key.name)
  {
  }

  lemma EntryMustLeave(inp: Input, n: string, a: Arch)
    requires inp.archs != [] && IsMultiArch(inp.spec) && Entry(inp, n, a)
    requires PlanKeeps(inp, Managed(GOLDEN_IMAGES, Suffixed(n, a)))
    ensures EntryLeaves(inp, n, a)
  {
    var x := ArchInfo(inp.server, Crons(inp), n, a, a == DefaultArch(inp.archs, ArchsOf(inp.sources, n)).value);
    assert IsArchFor(inp, n, a, x);
    PlannedMulti(inp, n, x);
    ArchEntryDecides(inp, n, a, x);
  }

  lemma KeptOfManyIff(inp: Input, k: Managed)
    requires inp.archs != [] && IsMultiArch(inp.spec) && k in Crons(inp) && k.namespace == GOLDEN_IMAGES
    ensures PlanKeeps(inp, k) <==> FreeOfMany(inp, k.name)
  {
    if FreeOfMany(inp, k.name) { FreeIsKept(inp, k); }
    if PlanKeeps(inp, k) {
      BundleReferenceIsNotFree(inp, k.name);
      if AskedFor(inp.spec.cronTemplates, OriginIn(inp.archs), k.name) { TemplateReferenceIsNotFree(inp, k.name); }
      forall n, a | Entry(inp, n, a) && k.name == Suffixed(n, a) ensures EntryLeaves(inp, n, a) {
        EntryMustLeave(inp, n, a);
      }
    }
  }

  // ----- both

  lemma PlannedIsGolden(inp: Input, x: Info)
    requires inp.archs != [] && x in Planned(inp).infos
    ensures x.source.key.namespace == GOLDEN_IMAGES
  {
    if IsMultiArch(inp.spec) {
      PlannedIsMultiOrAdded(inp, x);
      if x in MultiInfos(inp) {
        InMulti(inp, x);
        var n :| n in inp.order && (IsReferenceFor(inp, n, x) || exists a :: IsArchFor(inp, n, a, x));
        if !IsReferenceFor(inp, n, x) {
          var a :| IsArchFor(inp, n, a, x);
          ArchEntryDecides(inp, n, a, x);
        }
      } else {
        AddedIsGolden(inp, x);
      }
    } else {
      SingleInfosArePlanned(inp);
      InSingle(inp, inp.archs[0], x);
    }
  }

  /** The plan keeps a cron exactly if bundle, spec and cluster leave its DataSource to it. */
  lemma KeptIff(inp: Input, k: Managed)
    requires inp.archs != [] && k in Crons(inp)
    ensures PlanKeeps(inp, k) <==> Kept(inp, k)
  {
    if k.namespace != GOLDEN_IMAGES {
      forall x <- Planned(inp).infos ensures ManagedKey(x.source) != k { PlannedIsGolden(inp, x); }
    } else if IsMultiArch(inp.spec) {
      KeptOfManyIff(inp, k);
    } else {
      KeptOfOneIff(inp, k);
    }
  }
}

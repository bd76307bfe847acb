/** Crons of a plan need names of their own, and what that takes. */
module CronNames {
  import opened Kube
  import opened Sequences
  import opened ApiServer
  import opened UpdateFuncs
  import opened Ssp
  import opened Architecture
  import opened Bundle
  import opened CronPlan
  import opened DataSourcePlan
  import opened HandOverDecision
  import opened ManagerExclusivity
  import opened References
  import opened DataSourceOperand
  import opened GarbageCollection
  import opened StickyHandOver
  import opened KeptCrons

  // ----- which crons are planned

  function CronsStep(multi: bool, archs: seq<Arch>, sources: Collection): Cron -> seq<Cron> {
    (t: Cron) => CronsOf(t, multi, archs, sources)
  }

  /** All crons the templates stand for, in order. */
  function AllCrons(templates: seq<Cron>, multi: bool, archs: seq<Arch>, sources: Collection): seq<Cron> {
    FlatMap(templates, CronsStep(multi, archs, sources))
  }

  lemma {:induction false} AddAllConcat(m: CronMap, xs: seq<Cron>, ys: seq<Cron>)
    ensures AddAll(AddAll(m, xs), ys) == AddAll(m, xs + ys)
  {
    if ys == [] {
      assert xs + ys == xs;
    } else {
      var n := |ys| - 1;
      AddAllConcat(m, xs, ys[..n]);
      assert (xs + ys)[..|xs + ys| - 1] == xs + ys[..n];
    }
  }

  lemma {:induction false} MapHoldsAll(templates: seq<Cron>, multi: bool, archs: seq<Arch>, sources: Collection)
    ensures CronMapOf(templates, multi, archs, sources) == AddAll(map[], AllCrons(templates, multi, archs, sources))
  {
    if templates != [] {
      var n := |templates| - 1;
      MapHoldsAll(templates[..n], multi, archs, sources);
      AddAllConcat(map[], AllCrons(templates[..n], multi, archs, sources),
                   CronsOf(templates[n], multi, archs, sources));
    }
  }

  /** No later cron takes its place in the map. */
  predicate Survives(crons: seq<Cron>, i: nat) {
    i < |crons| && forall j :: i < j < |crons| ==> ManagedBy(crons[j]) != ManagedBy(crons[i])
  }

  lemma {:induction false} SurvivorsAreInMap(crons: seq<Cron>, i: nat)
    requires Survives(crons, i)
    ensures var m := AddAll(map[], crons); ManagedBy(crons[i]) in m && m[ManagedBy(crons[i])] == crons[i]
  {
    var n := |crons| - 1;
    if i < n {
      assert crons[..n][i] == crons[i] && Survives(crons[..n], i);
      SurvivorsAreInMap(crons[..n], i);
    }
  }

  lemma {:induction false} MapHoldsSurvivors(crons: seq<Cron>, k: Managed)
    requires k in AddAll(map[], crons)
    ensures exists i: nat :: Survives(crons, i) && ManagedBy(crons[i]) == k && crons[i] == AddAll(map[], crons)[k]
  {
    if crons != [] {
      var n := |crons| - 1;
      if ManagedBy(crons[n]) == k {
        assert Survives(crons, n);
      } else {
        MapHoldsSurvivors(crons[..n], k);
        var i: nat :| Survives(crons[..n], i) && ManagedBy(crons[..n][i]) == k
          && crons[..n][i] == AddAll(map[], crons[..n])[k];
        assert Survives(crons, i);
      }
    }
  }

  function CronsIn(inp: Input): seq<Cron> {
    AllCrons(inp.spec.cronTemplates, IsMultiArch(inp.spec), inp.archs, inp.sources)
  }

  /** A cron that is in the plan, told from bundle, spec and cluster. */
  ghost predicate Stays(inp: Input, i: nat)
    requires inp.archs != []
  {
    Survives(CronsIn(inp), i) && Kept(inp, ManagedBy(CronsIn(inp)[i]))
  }

  lemma PlannedCronsAreSurvivors(inp: Input, k: Managed)
    requires inp.archs != []
    ensures k in Planned(inp).crons <==> exists i: nat :: Stays(inp, i) && ManagedBy(CronsIn(inp)[i]) == k
    ensures k in Planned(inp).crons ==>
              exists i: nat ::
                Stays(inp, i) && ManagedBy(CronsIn(inp)[i]) == k && CronsIn(inp)[i] == Planned(inp).crons[k]
  {
    MapHoldsAll(inp.spec.cronTemplates, IsMultiArch(inp.spec), inp.archs, inp.sources);
    RemainingIsExact(Crons(inp), Planned(inp).infos);
    if k in Crons(inp) { KeptIff(inp, k); }
    if k in Planned(inp).crons { MapHoldsSurvivors(CronsIn(inp), k); }
    if i: nat :| Stays(inp, i) && ManagedBy(CronsIn(inp)[i]) == k { SurvivorsAreInMap(CronsIn(inp), i); }
  }

  lemma StayingIsPlanned(inp: Input, i: nat)
    requires inp.archs != [] && Stays(inp, i)
    ensures var c := CronsIn(inp)[i]; ManagedBy(c) in Planned(inp).crons && Planned(inp).crons[ManagedBy(c)] == c
  {
    MapHoldsAll(inp.spec.cronTemplates, IsMultiArch(inp.spec), inp.archs, inp.sources);
    RemainingIsExact(Crons(inp), Planned(inp).infos);
    SurvivorsAreInMap(CronsIn(inp), i);
    KeptIff(inp, ManagedBy(CronsIn(inp)[i]));
  }

  // ----- names of their own

  /** Different DataSources have different cron objects. */
  ghost predicate OwnNames(m: CronMap) {
    forall k <- m, l <- m :: m[k].key == m[l].key ==> k == l
  }

  /** Of the crons that stay, no two have one name and two DataSources. */
  ghost predicate SurvivorsApart(inp: Input)
    requires inp.archs != []
  {
    forall i: nat, j: nat :: Stays(inp, i) && Stays(inp, j) && CronsIn(inp)[i].key == CronsIn(inp)[j].key ==>
      ManagedBy(CronsIn(inp)[i]) == ManagedBy(CronsIn(inp)[j])
  }

  /** Planned crons are objects of their own exactly if the surviving ones are apart, in both modes. */
  lemma OwnNamesIff(inp: Input)
    requires inp.archs != []
    ensures OwnNames(Planned(inp).crons) <==> SurvivorsApart(inp)
  {
    var m := Planned(inp).crons;
    if SurvivorsApart(inp) {
      forall k <- m, l <- m | m[k].key == m[l].key ensures k == l {
        PlannedCronsAreSurvivors(inp, k);
        PlannedCronsAreSurvivors(inp, l);
      }
    }
    if OwnNames(m) {
      forall i: nat, j: nat | Stays(inp, i) && Stays(inp, j) && CronsIn(inp)[i].key == CronsIn(inp)[j].key
        ensures ManagedBy(CronsIn(inp)[i]) == ManagedBy(CronsIn(inp)[j])
      {
        StayingIsPlanned(inp, i);
        StayingIsPlanned(inp, j);
      }
    }
  }

  // ----- a sufficient condition on template names

  /** No two templates in one namespace share a name; with many architectures, not even up to a suffix. */
  ghost predicate NamesApart(t: Cron, u: Cron, multi: bool) {
    Normalized(t).key.namespace == Normalized(u).key.namespace ==>
      && t.key.name != u.key.name
      && (multi ==> forall a :: Suffixed(t.key.name, a) != u.key.name && Suffixed(u.key.name, a) != t.key.name)
  }

  ghost predicate AllApart(templates: seq<Cron>, multi: bool) {
    forall i, j :: 0 <= i < j < |templates| ==> NamesApart(templates[i], templates[j], multi)
  }

  ghost predicate NamedAfter(c: Cron, t: Cron, multi: bool) {
    && c.key == Normalized(t).key.(name := c.key.name)
    && (c.key.name == t.key.name || (multi && exists a :: c.key.name == Suffixed(t.key.name, a)))
  }

  lemma CronIsNamedAfter(t: Cron, multi: bool, archs: seq<Arch>, sources: Collection, c: Cron)
    requires c in CronsOf(t, multi, archs, sources)
    ensures NamedAfter(c, t, multi)
  {
    var list := GetOrEmpty(t.annotations, ARCHS_ANNOTATION);
    if multi && list != "" {
      var a := CopyIsForArch(Normalized(t), ParseArchs(list), archs, c);
      assert c.key.name == Suffixed(t.key.name, a);
    }
  }

  lemma ApartTemplatesApartCrons(t: Cron, u: Cron, multi: bool, c: Cron, d: Cron)
    requires NamesApart(t, u, multi) && NamedAfter(c, t, multi) && NamedAfter(d, u, multi)
    ensures c.key != d.key
  {
    if c.key == d.key && c.key.name != t.key.name && d.key.name != u.key.name {
      var a :| c.key.name == Suffixed(t.key.name, a);
      var b :| d.key.name == Suffixed(u.key.name, b);
      SuffixedIsInjective(t.key.name, a, u.key.name, b);
    }
  }

  /** The crons of one template differ in name. */
  lemma OneTemplateApartCrons(t: Cron, multi: bool, archs: seq<Arch>, sources: Collection, c: Cron, d: Cron)
    requires c in CronsOf(t, multi, archs, sources) && d in CronsOf(t, multi, archs, sources) && c.key == d.key
    ensures c == d
  {
    var list := GetOrEmpty(t.annotations, ARCHS_ANNOTATION);
    if multi && list != "" {
      var n := Normalized(t);
      var a := CopyIsForArch(n, ParseArchs(list), archs, c);
      var b := CopyIsForArch(n, ParseArchs(list), archs, d);
      SuffixedIsInjective(n.key.name, a, n.key.name, b);
    }
  }

  lemma CopyIsForArch(n: Cron, wanted: seq<Arch>, archs: seq<Arch>, c: Cron) returns (a: Arch)
    requires c in ArchCopies(n, wanted, archs)
    ensures c == ForArch(n, a)
  {
    ArchCopiesAreExact(n, wanted, archs, c);
    a :| a in wanted && a in archs && c == ForArch(n, a);
  }

  /** Whatever makes crons named after their template, at most one per name. */
  ghost predicate NamesWell(templates: seq<Cron>, multi: bool, f: Cron -> seq<Cron>) {
    forall t <- templates :: AllNamedAfter(t, multi, f(t))
  }

  ghost predicate AllNamedAfter(t: Cron, multi: bool, crons: seq<Cron>) {
    && (forall c <- crons :: NamedAfter(c, t, multi))
    && (forall c <- crons, d <- crons :: c.key == d.key ==> c == d)
  }

  lemma ApartByIndex(templates: seq<Cron>, multi: bool, f: Cron -> seq<Cron>, i: nat, j: nat, c: Cron, d: Cron)
    requires AllApart(templates, multi) && NamesWell(templates, multi, f) && c.key == d.key
    requires i < |templates| && j < |templates| && c in f(templates[i]) && d in f(templates[j])
    ensures c == d
  {
    assert templates[i] in templates && templates[j] in templates;
    if i != j { TwoTemplatesApartCrons(templates, multi, i, j, c, d); }
  }

  /** It is enough that templates have names of their own. */
  lemma ApartTemplatesSuffice(templates: seq<Cron>, multi: bool, f: Cron -> seq<Cron>, c: Cron, d: Cron)
    requires AllApart(templates, multi) && NamesWell(templates, multi, f) && c.key == d.key
    requires c in FlatMap(templates, f) && d in FlatMap(templates, f)
    ensures c == d
  {
    InFlatMap(templates, f, c);
    InFlatMap(templates, f, d);
    var t :| t in templates && c in f(t);
    var u :| u in templates && d in f(u);
    var i :| 0 <= i < |templates| && templates[i] == t;
    var j :| 0 <= j < |templates| && templates[j] == u;
    ApartByIndex(templates, multi, f, i, j, c, d);
  }

  lemma CronsAreNamedWell(templates: seq<Cron>, multi: bool, archs: seq<Arch>, sources: Collection)
    ensures NamesWell(templates, multi, CronsStep(multi, archs, sources))
  {
    forall t <- templates ensures AllNamedAfter(t, multi, CronsOf(t, multi, archs, sources)) {
      TemplateNamesWell(t, multi, archs, sources, CronsOf(t, multi, archs, sources));
    }
  }

  lemma TemplateNamesWell(t: Cron, multi: bool, archs: seq<Arch>, sources: Collection, crons: seq<Cron>)
    requires crons == CronsOf(t, multi, archs, sources)
    ensures AllNamedAfter(t, multi, crons)
  {
    forall c <- crons ensures NamedAfter(c, t, multi) { CronIsNamedAfter(t, multi, archs, sources, c); }
    forall c <- crons, d <- crons | c.key == d.key ensures c == d {
      OneTemplateApartCrons(t, multi, archs, sources, c, d);
    }
  }

  lemma TwoTemplatesApartCrons(templates: seq<Cron>, multi: bool, i: nat, j: nat, c: Cron, d: Cron)
    requires AllApart(templates, multi) && i < |templates| && j < |templates| && i != j
    requires NamedAfter(c, templates[i], multi) && NamedAfter(d, templates[j], multi)
    ensures c.key != d.key
  {
    if i < j { ApartTemplatesApartCrons(templates[i], templates[j], multi, c, d); }
    else { ApartTemplatesApartCrons(templates[j], templates[i], multi, d, c); }
  }

  lemma ApartNamesAreApart(inp: Input)
    requires inp.archs != [] && AllApart(inp.spec.cronTemplates, IsMultiArch(inp.spec))
    ensures SurvivorsApart(inp)
  {
    forall i: nat, j: nat | Stays(inp, i) && Stays(inp, j) && CronsIn(inp)[i].key == CronsIn(inp)[j].key
      ensures ManagedBy(CronsIn(inp)[i]) == ManagedBy(CronsIn(inp)[j])
    {
      ApartCrons(inp.spec.cronTemplates, IsMultiArch(inp.spec), inp.archs, inp.sources, CronsIn(inp)[i],
                 CronsIn(inp)[j]);
    }
  }

  lemma ApartCrons(templates: seq<Cron>, multi: bool, archs: seq<Arch>, sources: Collection, c: Cron, d: Cron)
    requires AllApart(templates, multi) && c.key == d.key
    requires c in AllCrons(templates, multi, archs, sources) && d in AllCrons(templates, multi, archs, sources)
    ensures c == d
  {
    CronsAreNamedWell(templates, multi, archs, sources);
    ApartTemplatesSuffice(templates, multi, CronsStep(multi, archs, sources), c, d);
  }

  // ----- what a pass starts from

  /** A plan and the owned leftovers, each listed once in some order. */
  ghost predicate Lists(plan: Plan, s: Server, work: Work, owner: Owner) {
    && work.infos == plan.infos
    && NoDuplicates(work.crons)
    && NoDuplicates(work.dropSources)
    && NoDuplicates(work.dropCrons)
    && (forall c :: c in work.crons <==> exists k <- plan.crons :: plan.crons[k] == c)
    && (forall key :: key in work.dropSources <==> key in OwnedSources(s, owner) && !HasName(work.infos, key.name))
    && (forall key :: key in work.dropCrons <==> key in OwnedCrons(s, owner) && !Wanted(work.crons, key))
  }

  ghost predicate Enumerates(inp: Input, work: Work, owner: Owner)
    requires inp.archs != []
  {
    Lists(Planned(inp), inp.server, work, owner)
  }

  lemma DistinctIff(m: CronMap, crons: seq<Cron>)
    requires KeyedByManaged(m) && NoDuplicates(crons) && forall c :: c in crons <==> exists k <- m :: m[k] == c
    ensures DistinctBy(crons, CronKey()) <==> OwnNames(m)
  {
    if OwnNames(m) {
      forall i, j | 0 <= i < j < |crons| ensures CronKey()(crons[i]) != CronKey()(crons[j]) {
        assert crons[i] in crons && crons[j] in crons;
        var k :| k in m && m[k] == crons[i];
        var l :| l in m && m[l] == crons[j];
        assert k != l;
      }
    }
    if DistinctBy(crons, CronKey()) {
      forall k <- m, l <- m | m[k].key == m[l].key ensures k == l { SameIndex(m, crons, k, l); }
    }
  }

  lemma SameIndex(m: CronMap, crons: seq<Cron>, k: Managed, l: Managed)
    requires KeyedByManaged(m) && k in m && l in m && m[k] in crons && m[l] in crons
    requires DistinctBy(crons, CronKey()) && m[k].key == m[l].key
    ensures k == l
  {
    var i :| 0 <= i < |crons| && crons[i] == m[k];
    var j :| 0 <= j < |crons| && crons[j] == m[l];
    assert CronKey()(crons[i]) == CronKey()(crons[j]);
  }

  lemma PlannedAreWorkable(inp: Input, app: StringMap, infos: seq<Info>)
    requires inp.archs != [] && Typed(inp.server) && CRON_LABEL !in app
    requires forall x <- infos :: x in Planned(inp).infos
    ensures forall x <- infos :: SourceInfo(x, app) && x.source.key == SourceKey(x.source.key.name)
  {
    forall x <- infos ensures SourceInfo(x, app) && x.source.key == SourceKey(x.source.key.name) {
      PlannedAreSources(inp, x);
      assert IsSource(x);
    }
  }

  /** A plan can be carried out as the statements about passes ask for exactly if its crons are apart. */
  lemma PlannedWorkIsWellFormedIff(inp: Input, work: Work, owner: Owner, app: StringMap)
    requires WellFormedInput(inp) && (IsMultiArch(inp.spec) ==> NonColliding(inp.sources, inp.archs))
             && Typed(inp.server)
    requires CRON_LABEL !in app && Enumerates(inp, work, owner)
    ensures WorkOf(inp, work, owner, app) <==> SurvivorsApart(inp)
  {
    InfosAreWorkable(inp, app);
    PlanIsExclusive(inp);
    OwnNamesIff(inp);
    DistinctIff(Planned(inp).crons, work.crons);
    WorkDependsOnCrons(inp.server, work, owner, app);
  }

  lemma InfosAreWorkable(inp: Input, app: StringMap)
    requires WellFormedInput(inp) && (IsMultiArch(inp.spec) ==> NonColliding(inp.sources, inp.archs))
             && Typed(inp.server)
    requires CRON_LABEL !in app
    ensures var infos := Planned(inp).infos;
            && DistinctNames(infos)
            && forall x <- infos :: SourceInfo(x, app) && x.source.key == SourceKey(x.source.key.name)
  {
    PlannedInfosAreOk(inp);
    PlannedAreWorkable(inp, app, Planned(inp).infos);
  }

  lemma WorkDependsOnCrons(s: Server, work: Work, owner: Owner, app: StringMap)
    requires forall info <- work.infos :: SourceInfo(info, app) && info.source.key == SourceKey(info.source.key.name)
    requires DistinctNames(work.infos) && NoDuplicates(work.dropSources) && NoDuplicates(work.dropCrons)
    requires forall key :: key in work.dropSources <==> key in OwnedSources(s, owner) && !HasName(work.infos, key.name)
    requires forall key :: key in work.dropCrons <==> key in OwnedCrons(s, owner) && !Wanted(work.crons, key)
    ensures WellFormedWork(s, work, owner, app) <==> DistinctBy(work.crons, CronKey())
  {
  }

  // ----- where it fails

  /** Two crons that stay, with one name and two DataSources. */
  lemma SharedNameCollides(inp: Input, i: nat, j: nat)
    requires inp.archs != [] && Stays(inp, i) && Stays(inp, j)
    requires CronsIn(inp)[i].key == CronsIn(inp)[j].key && ManagedBy(CronsIn(inp)[i]) != ManagedBy(CronsIn(inp)[j])
    ensures !OwnNames(Planned(inp).crons)
  {
    OwnNamesIff(inp);
  }

  function NoBundle(t: Cron, u: Cron, archs: seq<Arch>, multi: bool, s: Server): Input {
    Input(ZERO_SPEC.(multiArch := Some(multi), cronTemplates := [t, u]), archs, map[], [], s)
  }

  lemma NothingPlanned(t: Cron, u: Cron, archs: seq<Arch>, s: Server)
    requires archs != []
    ensures Planned(NoBundle(t, u, archs, false, s)).infos == []
  {
  }

  lemma TwoTemplatesCrons(t: Cron, u: Cron, multi: bool, archs: seq<Arch>)
    ensures AllCrons([t, u], multi, archs, map[]) == CronsOf(t, multi, archs, map[]) + CronsOf(u, multi, archs, map[])
  {
    var f := CronsStep(multi, archs, map[]);
    assert [t, u][..1] == [t] && [t][..0] == [];
    assert FlatMap([t], f) == FlatMap([t][..0], f) + f(t) == f(t);
  }

  /** One architecture: two templates with one name for two DataSources. */
  lemma SameNameCollides(t: Cron, u: Cron, archs: seq<Arch>, s: Server)
    requires archs != [] && Normalized(t).key == Normalized(u).key && t.spec.managed != u.spec.managed
    ensures !OwnNames(Planned(NoBundle(t, u, archs, false, s)).crons)
  {
    NothingPlanned(t, u, archs, s);
    TwoCronsCollide(NoBundle(t, u, archs, false, s), t, u, Normalized(t), Normalized(u));
  }

  /** Many architectures: a template that lists one, and another whose name already has that suffix. */
  lemma SuffixedNameCollides(t: Cron, u: Cron, archs: seq<Arch>, a: Arch, s: Server)
    requires a in archs && ParseArchs(GetOrEmpty(t.annotations, ARCHS_ANNOTATION)) == [a]
    requires GetOrEmpty(t.annotations, ARCHS_ANNOTATION) != "" && GetOrEmpty(u.annotations, ARCHS_ANNOTATION) == ""
    requires Normalized(t).key.namespace == Normalized(u).key.namespace && u.key.name == Suffixed(t.key.name, a)
    requires u.spec.managed != t.spec.managed && u.spec.managed != Suffixed(t.spec.managed, a)
    ensures !OwnNames(Planned(NoBundle(t, u, archs, true, s)).crons)
  {
    var c, d := ForArch(Normalized(t), a), Normalized(u);
    CronsOfListed(t, archs, a);
    CronsOfPlain(u, archs);
    assert |Suffixed(t.spec.managed, a)| != |t.spec.managed|;
    KeptUnlessReferenced(t, u, archs, s, ManagedBy(c));
    KeptUnlessReferenced(t, u, archs, s, ManagedBy(d));
    TwoCronsCollide(NoBundle(t, u, archs, true, s), t, u, c, d);
  }

  lemma CronsOfListed(t: Cron, archs: seq<Arch>, a: Arch)
    requires a in archs && ParseArchs(GetOrEmpty(t.annotations, ARCHS_ANNOTATION)) == [a]
    requires GetOrEmpty(t.annotations, ARCHS_ANNOTATION) != ""
    ensures CronsOf(t, true, archs, map[]) == [ForArch(Normalized(t), a)]
  {
    OneCopy(Normalized(t), archs, a);
  }

  lemma CronsOfPlain(u: Cron, archs: seq<Arch>)
    requires GetOrEmpty(u.annotations, ARCHS_ANNOTATION) == ""
    ensures CronsOf(u, true, archs, map[]) == [Normalized(u)]
  {
  }

  lemma TwoCronsCollide(inp: Input, t: Cron, u: Cron, c: Cron, d: Cron)
    requires inp.archs != [] && inp.sources == map[] && inp.spec.cronTemplates == [t, u]
    requires CronsOf(t, IsMultiArch(inp.spec), inp.archs, map[]) == [c]
             && CronsOf(u, IsMultiArch(inp.spec), inp.archs, map[]) == [d]
    requires c.key == d.key && ManagedBy(c) != ManagedBy(d)
    requires Kept(inp, ManagedBy(c)) && Kept(inp, ManagedBy(d))
    ensures !OwnNames(Planned(inp).crons)
  {
    TwoTemplatesCrons(t, u, IsMultiArch(inp.spec), inp.archs);
    BothStay(inp, c, d);
  }

  lemma BothStay(inp: Input, c: Cron, d: Cron)
    requires inp.archs != [] && CronsIn(inp) == [c, d] && c.key == d.key && ManagedBy(c) != ManagedBy(d)
    requires Kept(inp, ManagedBy(c)) && Kept(inp, ManagedBy(d))
    ensures !OwnNames(Planned(inp).crons)
  {
    assert Stays(inp, 0) && Stays(inp, 1);
    SharedNameCollides(inp, 0, 1);
  }

  lemma OneCopy(n: Cron, archs: seq<Arch>, a: Arch)
    requires a in archs
    ensures ArchCopies(n, [a], archs) == [ForArch(n, a)]
  {
    assert [a][..0] == [];
    assert FlatMap([a], ArchCopy(n, archs)) == FlatMap([a][..0], ArchCopy(n, archs)) + ArchCopy(n, archs)(a);
  }

  lemma KeptUnlessReferenced(t: Cron, u: Cron, archs: seq<Arch>, s: Server, k: Managed)
    requires archs != [] && GetOrEmpty(u.annotations, ARCHS_ANNOTATION) == "" && k.name != t.spec.managed
    ensures Kept(NoBundle(t, u, archs, true, s), k)
  {
    forall x <- Planned(NoBundle(t, u, archs, true, s)).infos ensures x.source.key.name == t.spec.managed {
      OnlyOneReference(t, u, archs, s, x);
    }
  }

  lemma OnlyOneReference(t: Cron, u: Cron, archs: seq<Arch>, s: Server, x: Info)
    requires archs != [] && x in Planned(NoBundle(t, u, archs, true, s)).infos
    requires GetOrEmpty(u.annotations, ARCHS_ANNOTATION) == ""
    ensures x.source.key.name == t.spec.managed
  {
    var inp := NoBundle(t, u, archs, true, s);
    PlannedIsMultiOrAdded(inp, x);
    assert MultiInfos(inp) == [];
    assert OriginIn(archs)(u).None?;
    OnlyFirstAsks(t, u, OriginIn(archs), x);
  }

  lemma OnlyFirstAsks(t: Cron, u: Cron, origin: Origin, x: Info)
    requires origin(u).None? && Added([], [t, u], origin, x)
    ensures x.source.key.name == t.spec.managed
  {
    var i: nat :| AddedFor([], [t, u], origin, i, x);
  }
}

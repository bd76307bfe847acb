/** Every planned DataSource has exactly one manager. */
module ManagerExclusivity {
  import opened Kube
  import opened Sequences
  import opened ApiServer
  import opened Ssp
  import opened Architecture
  import opened Bundle
  import opened CronPlan
  import opened DataSourcePlan

  /** The inputs a plan is computed from; `order` is the order in which the bundle's map is walked. */
  datatype Input = Input(spec: SspSpec, archs: seq<Arch>, sources: Collection, order: seq<string>, server: Server)

  /** What bundle collection and admission provide. */
  ghost predicate WellFormedInput(inp: Input) {
    && inp.archs != []
    && NoDuplicates(inp.archs)
    && NoDuplicates(inp.order)
    && (forall name :: name in inp.order <==> name in inp.sources)
    && (forall name <- inp.sources :: NoDuplicates(inp.sources[name]))
  }

  function Crons(inp: Input): CronMap {
    CronMapOf(inp.spec.cronTemplates, IsMultiArch(inp.spec), inp.archs, inp.sources)
  }

  function Planned(inp: Input): Plan
    requires inp.archs != []
  {
    PlanFor(inp.spec, inp.archs, inp.sources, inp.order, inp.server)
  }

  /** No planned bundle name is another planned name with an architecture suffix. */
  ghost predicate NonColliding(sources: Collection, archs: seq<Arch>) {
    forall n <- sources, m <- sources, a <- archs ::
      a in sources[n] && DefaultArch(archs, sources[m]).Some? ==> Suffixed(n, a) != m
  }

  /** A DataSource uses auto-update exactly if the plan has a cron for it, and then it records that cron's name. */
  ghost predicate OneManager(plan: Plan, i: nat)
    requires i < |plan.infos|
  {
    var key := ManagedKey(plan.infos[i].source);
    && (plan.infos[i].auto <==> key in plan.crons)
    && (plan.infos[i].auto ==> plan.crons[key].key.name == plan.infos[i].cronName)
  }

  /** A cron manages the DataSource it is filed under, so no DataSource has two crons. */
  ghost predicate Exclusive(plan: Plan) {
    && (forall i :: 0 <= i < |plan.infos| ==> OneManager(plan, i))
    && KeyedByManaged(plan.crons)
  }

  ghost predicate InfoOk(crons: CronMap, info: Info) {
    && info.source.key == SourceKey(info.source.key.name)
    && (info.auto ==> ManagedKey(info.source) in crons && info.cronName == crons[ManagedKey(info.source)].key.name)
  }

  ghost predicate AllOk(crons: CronMap, infos: seq<Info>) {
    forall info <- infos :: InfoOk(crons, info)
  }

  function InfoName(): Info -> string {
    (info: Info) => info.source.key.name
  }

  ghost predicate DistinctNames(infos: seq<Info>) {
    DistinctBy(infos, InfoName())
  }

  lemma {:induction false} RemainingIsExact(crons: CronMap, infos: seq<Info>)
    ensures forall k :: k in Remaining(crons, infos) <==>
              k in crons && forall info <- infos :: info.auto || ManagedKey(info.source) != k
    ensures forall k <- Remaining(crons, infos) :: k in crons && Remaining(crons, infos)[k] == crons[k]
  {
    if infos != [] {
      var n := |infos| - 1;
      RemainingIsExact(crons, infos[..n]);
      assert forall info :: info in infos <==> info in infos[..n] || info == infos[n];
    }
  }

  lemma DistinctIsExclusive(crons: CronMap, infos: seq<Info>)
    requires KeyedByManaged(crons) && AllOk(crons, infos) && DistinctNames(infos)
    ensures Exclusive(Plan(infos, Remaining(crons, infos)))
  {
    RemainingIsExact(crons, infos);
    var plan := Plan(infos, Remaining(crons, infos));
    forall i | 0 <= i < |infos| ensures OneManager(plan, i) {
      assert InfoOk(crons, infos[i]);
      var key := ManagedKey(infos[i].source);
      if infos[i].auto {
        forall info <- infos | !info.auto ensures ManagedKey(info.source) != key {
          var j :| 0 <= j < |infos| && infos[j] == info;
          assert InfoOk(crons, info);
        }
      }
    }
  }

  // ----- what the planned lists contain

  lemma InSingle(inp: Input, arch: Arch, x: Info)
    ensures x in InfosSingle(inp.order, inp.server, Crons(inp), inp.sources, arch) <==>
              exists name <- inp.order ::
                arch in ArchsOf(inp.sources, name) && x == SingleInfo(inp.server, Crons(inp), name)
  {
    var f := SingleStep(inp.server, Crons(inp), inp.sources, arch);
    InFlatMap(inp.order, f, x);
    assert forall name :: x in f(name) <==>
           arch in ArchsOf(inp.sources, name) && x == SingleInfo(inp.server, Crons(inp), name);
  }

  /** The two shapes of an entry planned for a bundle name. */
  ghost predicate IsReferenceFor(inp: Input, name: string, x: Info) {
    var default := DefaultArch(inp.archs, ArchsOf(inp.sources, name));
    default.Some? && x == ReferenceInfo(name, default.value)
  }

  ghost predicate IsArchFor(inp: Input, name: string, a: Arch, x: Info) {
    var default := DefaultArch(inp.archs, ArchsOf(inp.sources, name));
    && default.Some?
    && a in ArchsOf(inp.sources, name)
    && a in inp.archs
    && x == ArchInfo(inp.server, Crons(inp), name, a, a == default.value)
  }

  lemma InNameInfos(inp: Input, name: string, x: Info)
    ensures x in NameInfos(inp.server, Crons(inp), inp.sources, name, inp.archs) <==>
              IsReferenceFor(inp, name, x) || exists a :: IsArchFor(inp, name, a, x)
  {
    var offered := ArchsOf(inp.sources, name);
    var default := DefaultArch(inp.archs, offered);
    if default.Some? {
      var f := ArchStep(inp.server, Crons(inp), name, inp.archs, default.value);
      InFlatMap(offered, f, x);
      assert forall a :: a in offered ==> (x in f(a) <==> IsArchFor(inp, name, a, x));
    }
  }

  lemma InMulti(inp: Input, x: Info)
    ensures x in InfosMulti(inp.order, inp.server, Crons(inp), inp.sources, inp.archs) <==>
              exists name <- inp.order :: IsReferenceFor(inp, name, x) || exists a :: IsArchFor(inp, name, a, x)
  {
    InFlatMap(inp.order, NameStep(inp.server, Crons(inp), inp.sources, inp.archs), x);
    forall name ensures x in NameStep(inp.server, Crons(inp), inp.sources, inp.archs)(name) <==>
                          IsReferenceFor(inp, name, x) || exists a :: IsArchFor(inp, name, a, x)
    {
      InNameInfos(inp, name, x);
    }
  }

  lemma DefaultKeepsKey(s: Server, source: Object, auto: bool, original: string)
    ensures var (handled, decided) := HandleDefault(s, source, auto, original);
            handled.key == source.key && (decided ==> auto)
  {
  }

  lemma ArchInfoOk(s: Server, crons: CronMap, name: string, a: Arch, default: bool)
    ensures var info := ArchInfo(s, crons, name, a, default);
            info.source.key == SourceKey(Suffixed(name, a)) && InfoOk(crons, info)
  {
    var plain := NewDataSource(Suffixed(name, a)).(labels := map[ARCH_LABEL := Name(a)]);
    var auto := AutoUpdate(s, crons, plain);
    assert auto ==> ManagedKey(plain) in crons;
    DefaultKeepsKey(s, plain, auto, name);
  }

  lemma ArchEntry(inp: Input, name: string, a: Arch, default: bool)
    ensures var info := ArchInfo(inp.server, Crons(inp), name, a, default);
            info.source.key == SourceKey(Suffixed(name, a)) && InfoOk(Crons(inp), info)
  {
    ArchInfoOk(inp.server, Crons(inp), name, a, default);
  }

  /** Entries for one bundle name: the name itself, or the name with one supported architecture. */
  ghost predicate NameFor(inp: Input, name: string, x: string) {
    && DefaultArch(inp.archs, ArchsOf(inp.sources, name)).Some?
    && (x == name || exists a :: a in ArchsOf(inp.sources, name) && a in inp.archs && x == Suffixed(name, a))
  }

  lemma EntryFor(inp: Input, name: string, x: Info)
    requires IsReferenceFor(inp, name, x) || exists a :: IsArchFor(inp, name, a, x)
    ensures NameFor(inp, name, x.source.key.name) && InfoOk(Crons(inp), x)
  {
    if !IsReferenceFor(inp, name, x) {
      var a :| IsArchFor(inp, name, a, x);
      ArchEntryFor(inp, name, a, x);
    }
  }

  lemma NamedWithArch(inp: Input, name: string, a: Arch)
    requires DefaultArch(inp.archs, ArchsOf(inp.sources, name)).Some? && a in ArchsOf(inp.sources, name)
             && a in inp.archs
    ensures NameFor(inp, name, Suffixed(name, a))
  {
  }

  lemma ArchEntryFor(inp: Input, name: string, a: Arch, x: Info)
    requires IsArchFor(inp, name, a, x)
    ensures NameFor(inp, name, x.source.key.name) && InfoOk(Crons(inp), x)
  {
    NamedWithArch(inp, name, a);
    ArchInfoOk(inp.server, Crons(inp), name, a, a == DefaultArch(inp.archs, ArchsOf(inp.sources, name)).value);
  }

  lemma NamesStayApart(inp: Input, n: string, m: string, x: string)
    requires n in inp.sources && m in inp.sources && NonColliding(inp.sources, inp.archs)
    requires NameFor(inp, n, x) && NameFor(inp, m, x)
    ensures n == m
  {
    if x != n && x != m {
      var a :| a in ArchsOf(inp.sources, n) && a in inp.archs && x == Suffixed(n, a);
      var b :| b in ArchsOf(inp.sources, m) && b in inp.archs && x == Suffixed(m, b);
      SuffixedIsInjective(n, a, m, b);
    }
  }

  lemma ArchStepNames(s: Server, crons: CronMap, name: string, archs: seq<Arch>, default: Arch, a: Arch)
    ensures var made := ArchStep(s, crons, name, archs, default)(a);
            |made| <= 1 && forall y <- made :: InfoName()(y) == Suffixed(name, a)
  {
    ArchInfoOk(s, crons, name, a, a == default);
  }

  /** Whatever makes one entry per architecture, named with its suffix. */
  ghost predicate Suffixes(name: string, offered: seq<Arch>, f: Arch -> seq<Info>) {
    forall a <- offered :: |f(a)| <= 1 && forall y <- f(a) :: InfoName()(y) == Suffixed(name, a)
  }

  lemma SuffixedAreDistinct(name: string, offered: seq<Arch>, f: Arch -> seq<Info>)
    requires NoDuplicates(offered) && Suffixes(name, offered, f)
    ensures DistinctNames(FlatMap(offered, f))
  {
    forall i, j, y, z | 0 <= i < j < |offered| && y in f(offered[i]) && z in f(offered[j])
      ensures InfoName()(y) != InfoName()(z)
    {
      if Suffixed(name, offered[i]) == Suffixed(name, offered[j]) {
        SuffixedIsInjective(name, offered[i], name, offered[j]);
      }
    }
    DistinctFlatMap(offered, f, InfoName());
  }

  lemma PlainNameIsApart(name: string, offered: seq<Arch>, f: Arch -> seq<Info>, z: Info)
    requires Suffixes(name, offered, f) && z in FlatMap(offered, f)
    ensures InfoName()(z) != name
  {
    InFlatMap(offered, f, z);
    var a :| a in offered && z in f(a);
    assert |Suffixed(name, a)| != |name|;
  }

  lemma HeadedAreDistinct(name: string, head: Info, offered: seq<Arch>, f: Arch -> seq<Info>)
    requires NoDuplicates(offered) && Suffixes(name, offered, f) && InfoName()(head) == name
    ensures DistinctNames([head] + FlatMap(offered, f))
  {
    SuffixedAreDistinct(name, offered, f);
    forall z <- FlatMap(offered, f) ensures InfoName()(z) != name { PlainNameIsApart(name, offered, f, z); }
    DistinctConcat([head], FlatMap(offered, f), InfoName());
  }

  lemma ArchEntriesAreDistinct(s: Server, crons: CronMap, name: string, archs: seq<Arch>, default: Arch,
                               offered: seq<Arch>)
    requires NoDuplicates(offered)
    ensures DistinctNames([ReferenceInfo(name, default)] + FlatMap(offered, ArchStep(s, crons, name, archs, default)))
  {
    var f := ArchStep(s, crons, name, archs, default);
    assert Suffixes(name, offered, f) by {
      forall a <- offered ensures |f(a)| <= 1 && forall y <- f(a) :: InfoName()(y) == Suffixed(name, a) {
        ArchStepNames(s, crons, name, archs, default, a);
      }
    }
    HeadedAreDistinct(name, ReferenceInfo(name, default), offered, f);
  }

  lemma MultiIsDistinct(inp: Input)
    requires WellFormedInput(inp) && NonColliding(inp.sources, inp.archs)
    ensures DistinctNames(InfosMulti(inp.order, inp.server, Crons(inp), inp.sources, inp.archs))
  {
    var f := NameStep(inp.server, Crons(inp), inp.sources, inp.archs);
    forall name <- inp.order ensures DistinctBy(f(name), InfoName()) {
      var default := DefaultArch(inp.archs, ArchsOf(inp.sources, name));
      if default.Some? {
        ArchEntriesAreDistinct(inp.server, Crons(inp), name, inp.archs, default.value, ArchsOf(inp.sources, name));
      }
    }
    forall i, j, y, z | 0 <= i < j < |inp.order| && y in f(inp.order[i]) && z in f(inp.order[j])
      ensures InfoName()(y) != InfoName()(z)
    {
      InNameInfos(inp, inp.order[i], y);
      InNameInfos(inp, inp.order[j], z);
      EntryFor(inp, inp.order[i], y);
      EntryFor(inp, inp.order[j], z);
      if InfoName()(y) == InfoName()(z) { NamesStayApart(inp, inp.order[i], inp.order[j], InfoName()(y)); }
    }
    DistinctFlatMap(inp.order, f, InfoName());
  }

  /** A custom reference is a new name that the operator manages itself. */
  lemma CustomReferenceIsNew(crons: CronMap, before: seq<Info>, t: Cron, archs: seq<Arch>)
    requires CustomReference(before, t, archs).Some?
    ensures var extra := CustomReference(before, t, archs).value;
            InfoOk(crons, extra) && forall y <- before :: InfoName()(y) != InfoName()(extra)
  {
  }

  lemma OneMoreInfo(crons: CronMap, before: seq<Info>, extra: Info)
    requires AllOk(crons, before) && DistinctNames(before)
    requires InfoOk(crons, extra) && forall y <- before :: InfoName()(y) != InfoName()(extra)
    ensures AllOk(crons, before + [extra]) && DistinctNames(before + [extra])
  {
    assert forall x :: x in before + [extra] ==> x in before || x == extra;
    DistinctConcat(before, [extra], InfoName());
  }

  lemma {:induction false} ReferencesKeepOrder(crons: CronMap, infos: seq<Info>, templates: seq<Cron>, archs: seq<Arch>)
    requires AllOk(crons, infos) && DistinctNames(infos)
    ensures AllOk(crons, WithReferences(infos, templates, archs))
    ensures DistinctNames(WithReferences(infos, templates, archs))
    ensures infos <= WithReferences(infos, templates, archs)
  {
    if templates != [] {
      var n := |templates| - 1;
      var before := WithReferences(infos, templates[..n], archs);
      ReferencesKeepOrder(crons, infos, templates[..n], archs);
      var extra := CustomReference(before, templates[n], archs);
      if extra.Some? {
        CustomReferenceIsNew(crons, before, templates[n], archs);
        OneMoreInfo(crons, before, extra.value);
      }
    }
  }

  lemma SingleIsDistinct(order: seq<string>, s: Server, crons: CronMap, sources: Collection, arch: Arch)
    requires NoDuplicates(order)
    ensures DistinctNames(InfosSingle(order, s, crons, sources, arch))
  {
    PlainAreDistinct(order, SingleStep(s, crons, sources, arch));
  }

  /** Whatever makes at most one entry per name, with that name. */
  lemma PlainAreDistinct(names: seq<string>, f: string -> seq<Info>)
    requires NoDuplicates(names)
    requires forall name <- names :: |f(name)| <= 1 && forall y <- f(name) :: InfoName()(y) == name
    ensures DistinctNames(FlatMap(names, f))
  {
    DistinctFlatMap(names, f, InfoName());
  }

  lemma SingleIsOk(inp: Input, arch: Arch)
    ensures AllOk(Crons(inp), InfosSingle(inp.order, inp.server, Crons(inp), inp.sources, arch))
  {
    forall info <- InfosSingle(inp.order, inp.server, Crons(inp), inp.sources, arch) ensures InfoOk(Crons(inp), info) {
      InSingle(inp, arch, info);
    }
  }

  lemma MultiIsOk(inp: Input)
    ensures AllOk(Crons(inp), InfosMulti(inp.order, inp.server, Crons(inp), inp.sources, inp.archs))
  {
    forall info <- InfosMulti(inp.order, inp.server, Crons(inp), inp.sources, inp.archs)
      ensures InfoOk(Crons(inp), info)
    {
      InMulti(inp, info);
      var name :| name in inp.order && (IsReferenceFor(inp, name, info) || exists a :: IsArchFor(inp, name, a, info));
      EntryFor(inp, name, info);
    }
  }

  /** Planned names are distinct, and auto-update is only planned where a cron exists. */
  lemma PlannedInfosAreOk(inp: Input)
    requires WellFormedInput(inp)
    requires IsMultiArch(inp.spec) ==> NonColliding(inp.sources, inp.archs)
    ensures AllOk(Crons(inp), Planned(inp).infos) && DistinctNames(Planned(inp).infos)
  {
    if IsMultiArch(inp.spec) {
      MultiIsOk(inp);
      MultiIsDistinct(inp);
      var infos := InfosMulti(inp.order, inp.server, Crons(inp), inp.sources, inp.archs);
      ReferencesKeepOrder(Crons(inp), infos, inp.spec.cronTemplates, inp.archs);
    } else {
      SingleIsOk(inp, inp.archs[0]);
      SingleIsDistinct(inp.order, inp.server, Crons(inp), inp.sources, inp.archs[0]);
    }
  }

  /** For every bundle, SSP spec and cluster state: one manager per DataSource. */
  lemma PlanIsExclusive(inp: Input)
    requires WellFormedInput(inp)
    requires IsMultiArch(inp.spec) ==> NonColliding(inp.sources, inp.archs)
    ensures Exclusive(Planned(inp))
  {
    PlannedInfosAreOk(inp);
    CronMapIsExact(inp.spec.cronTemplates, IsMultiArch(inp.spec), inp.archs, inp.sources);
    DistinctIsExclusive(Crons(inp), Planned(inp).infos);
  }

  // ----- the condition on names is exact

  lemma {:induction false} NoCommaIsOneField(s: string)
    requires ',' !in s
    ensures FirstField(s) == s
  {
    if s != "" {
      assert s[0] in s && forall c <- s[1..] :: c in s;
      NoCommaIsOneField(s[1..]);
    }
  }

  lemma ParsesItsOwnName(a: Arch)
    ensures a in ParseArchs(Name(a))
  {
    var s := Name(a);
    assert ',' !in s;
    NoCommaIsOneField(s);
    assert SplitCommas(s) == [s];
    assert s[0] in {'a', 's'} && s[4] in {'4', 'x'};
    assert Trim(s) == s;
    ToArchInvertsName(a, s);
    InFlatMap([s], KnownArch(), a);
  }

  /** One cron template that lists one architecture for one DataSource. */
  function OneTemplate(name: string, a: Arch): Cron {
    Object(Key(DATA_IMPORT_CRON, "", "cron"), 0, 0, 0, map[], map[ARCHS_ANNOTATION := Name(a)], [], {}, false,
           CronSpec(name, NoRegistry, ""), map[])
  }

  lemma OneTemplateMakesCron(name: string, a: Arch, archs: seq<Arch>, sources: Collection)
    requires a in archs
    ensures Managed(GOLDEN_IMAGES, Suffixed(name, a)) in CronMapOf([OneTemplate(name, a)], true, archs, sources)
  {
    var t := OneTemplate(name, a);
    CronMapIsExact([t], true, archs, sources);
    ParsesItsOwnName(a);
    var copy := ForArch(Normalized(t), a);
    ArchCopiesAreExact(Normalized(t), ParseArchs(Name(a)), archs, copy);
    assert copy in CronsOf(t, true, archs, sources);
    assert t in [t];
  }

  /** In an empty cluster a DataSource with a cron is handed over. */
  lemma EmptyClusterHandsOver(crons: CronMap, name: string, a: Arch, default: bool)
    requires Managed(GOLDEN_IMAGES, Suffixed(name, a)) in crons
    ensures ArchInfo(EMPTY, crons, name, a, default).auto
  {
  }

  lemma TwoManagersBreak(crons: CronMap, infos: seq<Info>, y: Info, z: Info)
    requires y in infos && z in infos && y.auto && !z.auto && ManagedKey(y.source) == ManagedKey(z.source)
    ensures !Exclusive(Plan(infos, Remaining(crons, infos)))
  {
    RemainingIsExact(crons, infos);
    var i :| 0 <= i < |infos| && infos[i] == y;
    assert !OneManager(Plan(infos, Remaining(crons, infos)), i);
  }

  lemma PlannedMulti(inp: Input, name: string, x: Info)
    requires inp.archs != [] && IsMultiArch(inp.spec) && name in inp.order
    requires IsReferenceFor(inp, name, x) || exists a :: IsArchFor(inp, name, a, x)
    ensures x in Planned(inp).infos
  {
    InMulti(inp, x);
    MultiInfosArePlanned(inp);
  }

  lemma MultiInfosArePlanned(inp: Input)
    requires inp.archs != [] && IsMultiArch(inp.spec)
    ensures InfosMulti(inp.order, inp.server, Crons(inp), inp.sources, inp.archs) <= Planned(inp).infos
  {
    ReferencesExtend(InfosMulti(inp.order, inp.server, Crons(inp), inp.sources, inp.archs), inp.spec.cronTemplates,
                     inp.archs);
  }

  lemma ArchIsPlanned(inp: Input, name: string, a: Arch)
    requires inp.archs != [] && IsMultiArch(inp.spec) && name in inp.order && name in inp.sources
    requires a in inp.archs && a in inp.sources[name] && DefaultArch(inp.archs, inp.sources[name]).Some?
    ensures var default := DefaultArch(inp.archs, inp.sources[name]).value;
            ArchInfo(inp.server, Crons(inp), name, a, a == default) in Planned(inp).infos
  {
    var x := ArchInfo(inp.server, Crons(inp), name, a, a == DefaultArch(inp.archs, inp.sources[name]).value);
    assert IsArchFor(inp, name, a, x);
    PlannedMulti(inp, name, x);
  }

  lemma ReferenceIsPlanned(inp: Input, name: string)
    requires inp.archs != [] && IsMultiArch(inp.spec) && name in inp.order && name in inp.sources
    requires DefaultArch(inp.archs, inp.sources[name]).Some?
    ensures ReferenceInfo(name, DefaultArch(inp.archs, inp.sources[name]).value) in Planned(inp).infos
  {
    PlannedMulti(inp, name, ReferenceInfo(name, DefaultArch(inp.archs, inp.sources[name]).value));
  }

  lemma CollisionBreaks(inp: Input, n: string, m: string, a: Arch)
    requires WellFormedInput(inp) && inp.server == EMPTY
    requires inp.spec == ZERO_SPEC.(multiArch := Some(true), cronTemplates := [OneTemplate(n, a)])
    requires n in inp.sources && m in inp.sources && a in inp.archs && a in inp.sources[n]
    requires DefaultArch(inp.archs, inp.sources[m]).Some? && Suffixed(n, a) == m
    ensures !Exclusive(Planned(inp))
  {
    var default := DefaultArch(inp.archs, inp.sources[n]).value;
    var y := ArchInfo(inp.server, Crons(inp), n, a, a == default);
    var z := ReferenceInfo(m, DefaultArch(inp.archs, inp.sources[m]).value);
    ArchIsPlanned(inp, n, a);
    ReferenceIsPlanned(inp, m);
    OneTemplateMakesCron(n, a, inp.archs, inp.sources);
    EmptyClusterHandsOver(Crons(inp), n, a, a == default);
    ArchEntry(inp, n, a, a == default);
    TwoManagersBreak(Crons(inp), Planned(inp).infos, y, z);
  }

  lemma {:induction false} ReferencesExtend(infos: seq<Info>, templates: seq<Cron>, archs: seq<Arch>)
    ensures infos <= WithReferences(infos, templates, archs)
  {
    if templates != [] { ReferencesExtend(infos, templates[..|templates| - 1], archs); }
  }

  /** For a bundle and a list of architectures: every plan is exclusive if and only if the names do not collide. */
  lemma ExclusiveIffNonColliding(sources: Collection, archs: seq<Arch>, order: seq<string>)
    requires WellFormedInput(Input(ZERO_SPEC, archs, sources, order, EMPTY))
    ensures NonColliding(sources, archs) <==>
            forall spec, s: Server :: IsMultiArch(spec) ==> Exclusive(PlanFor(spec, archs, sources, order, s))
  {
    if NonColliding(sources, archs) {
      forall spec, s: Server | IsMultiArch(spec) ensures Exclusive(PlanFor(spec, archs, sources, order, s)) {
        PlanIsExclusive(Input(spec, archs, sources, order, s));
      }
    } else {
      var n, m, a :| n in sources && m in sources && a in archs
        && a in sources[n] && DefaultArch(archs, sources[m]).Some? && Suffixed(n, a) == m;
      var spec := ZERO_SPEC.(multiArch := Some(true), cronTemplates := [OneTemplate(n, a)]);
      CollisionBreaks(Input(spec, archs, sources, order, EMPTY), n, m, a);
      assert !Exclusive(PlanFor(spec, archs, sources, order, EMPTY));
    }
  }
}

/**
 Passes of the data-sources operand interleaved with everybody else: CDI rewriting specs,
 PVCs coming and going, failed calls and stale reads between planning and acting.
 */
module StickyHandOver {
  import opened Kube
  import opened ApiServer
  import opened UpdateFuncs
  import opened Engine
  import opened Ssp
  import opened Architecture
  import opened Bundle
  import opened CronPlan
  import opened DataSourcePlan
  import opened HandOverDecision
  import opened ManagerExclusivity
  import opened References
  import opened DataSourceOperand
  import opened HandOverRuns
  import opened GarbageCollection

  lemma AppLabelsLeaveCronLabel(sspLabels: StringMap, name: string, component: string)
    ensures CRON_LABEL !in AppLabels(sspLabels, name, component)
  {
    assert CRON_LABEL[0] == 'c' && forall k <- APP_LABELS :: k[0] == 'a';
  }

  ghost predicate IsSource(x: Info) {
    SourceInfo(x, map[]) && x.source.key == SourceKey(x.source.key.name)
  }

  lemma DefaultKeepsSource(s: Server, source: Object, auto: bool, original: string)
    requires Typed(s) && source.key.kind == DATA_SOURCE && source.spec.DataSourceSpec?
    ensures var handled := HandleDefault(s, source, auto, original).0;
            handled.spec.DataSourceSpec? && handled == source.(spec := handled.spec)
  {
    if source.key in s.objects { assert s.objects[source.key].spec.DataSourceSpec?; }
  }

  lemma ArchEntryIsSource(s: Server, crons: CronMap, name: string, a: Arch, default: bool)
    requires Typed(s)
    ensures IsSource(ArchInfo(s, crons, name, a, default))
  {
    var plain := NewDataSource(Suffixed(name, a)).(labels := map[ARCH_LABEL := Name(a)]);
    DefaultKeepsSource(s, plain, AutoUpdate(s, crons, plain), name);
    assert CRON_LABEL[0] != ARCH_LABEL[0];
    assert CRON_LABEL !in plain.labels;
  }

  lemma MultiEntryIsSource(inp: Input, x: Info)
    requires Typed(inp.server) && x in InfosMulti(inp.order, inp.server, Crons(inp), inp.sources, inp.archs)
    ensures IsSource(x)
  {
    InMulti(inp, x);
    var name :| name in inp.order && (IsReferenceFor(inp, name, x) || exists a :: IsArchFor(inp, name, a, x));
    if !IsReferenceFor(inp, name, x) {
      var a :| IsArchFor(inp, name, a, x);
      ArchForIsSource(inp, name, a, x);
    }
  }

  lemma ArchForIsSource(inp: Input, name: string, a: Arch, x: Info)
    requires Typed(inp.server) && IsArchFor(inp, name, a, x)
    ensures IsSource(x)
  {
    ArchEntryIsSource(inp.server, Crons(inp), name, a, a == DefaultArch(inp.archs, ArchsOf(inp.sources, name)).value);
  }

  /** Every planned entry is a DataSource in the golden images namespace that the hand-over can work on. */
  lemma PlannedAreSources(inp: Input, x: Info)
    requires inp.archs != [] && Typed(inp.server) && x in Planned(inp).infos
    ensures IsSource(x)
  {
    var infos := InfosMulti(inp.order, inp.server, Crons(inp), inp.sources, inp.archs);
    if !IsMultiArch(inp.spec) {
      InSingle(inp, inp.archs[0], x);
    } else if x !in infos {
      PlannedIsMultiOrAdded(inp, x);
    } else {
      MultiEntryIsSource(inp, x);
    }
  }

  /** Work that a pass derives from its inputs. */
  ghost predicate WorkOf(inp: Input, work: Work, owner: Owner, app: StringMap)
    requires inp.archs != []
  {
    && work.infos == Planned(inp).infos
    && (forall c :: c in work.crons <==> exists k <- Planned(inp).crons :: Planned(inp).crons[k] == c)
    && WellFormedWork(inp.server, work, owner, app)
  }

  lemma PassLeavesPvc(st: State, work: Work, owner: Owner, app: StringMap, namespace: string, name: string)
    requires Consistent(st.server) && WellFormedWork(st.server, work, owner, app)
    ensures PvcExists(st.server, namespace, name) <==> PvcExists(After(st, work, owner, app).server, namespace, name)
  {
    assert |PVC.name| != |DATA_SOURCE.name| && |PVC.name| != |DATA_IMPORT_CRON.name|;
    OthersSurvive(st, work, owner, app, Key(PVC, namespace, name));
  }

  lemma PassLeavesPvcs(st: State, work: Work, owner: Owner, app: StringMap)
    requires Consistent(st.server) && WellFormedWork(st.server, work, owner, app)
    ensures SamePvcs(st.server, After(st, work, owner, app).server)
  {
    forall namespace, name
      ensures PvcExists(st.server, namespace, name) <==> PvcExists(After(st, work, owner, app).server, namespace, name)
    {
      PassLeavesPvc(st, work, owner, app, namespace, name);
    }
  }

  lemma PassHandlesSources(st: State, work: Work, owner: Owner, app: StringMap)
    requires Consistent(st.server) && WellFormedWork(st.server, work, owner, app)
    ensures var s' := After(st, work, owner, app).server;
            forall x <- work.infos ::
              HandledBy(x, Lookup(st.server.objects, x.source.key), Lookup(s'.objects, x.source.key))
  {
    var s' := After(st, work, owner, app).server;
    forall x <- work.infos
      ensures HandledBy(x, Lookup(st.server.objects, x.source.key), Lookup(s'.objects, x.source.key))
    {
      PlannedSourceIsHandled(st, work, owner, app, x);
    }
  }

  /** A quiet pass carries its plan out, and the next pass plans the same. */
  lemma QuietPassReplansTheSame(inp: Input, c: Cache, work: Work, owner: Owner, app: StringMap)
    requires inp.archs != [] && Consistent(inp.server) && WorkOf(inp, work, owner, app)
    ensures Planned(inp.(server := After(State(inp.server, c), work, owner, app).server)) == Planned(inp)
  {
    var st := State(inp.server, c);
    var s' := After(st, work, owner, app).server;
    PassLeavesPvcs(st, work, owner, app);
    PassHandlesSources(st, work, owner, app);
    PlanIsFixedPoint(inp, s');
  }

  // ----- the busy cluster

  datatype World = World(server: Server, cache: Cache, pending: seq<Todo>)

  datatype Event =
    | PlanPass(inp: Input, work: Work, owner: Owner, app: StringMap) // plan against what the informer shows
    | Act(seen: Option<Object>, fault: Fault) // run the next item of the plan
    | Client(w: Write) // CDI, users, the storage layer

  /** DataSources are read from an informer that may lag or miss them; PVCs are read from the server. */
  ghost predicate Shows(s: Server, view: Server) {
    && (forall namespace, name :: PvcExists(view, namespace, name) <==> PvcExists(s, namespace, name))
    && (forall key <- view.objects :: key.kind == DATA_SOURCE ==>
         view.objects[key] in s.published && view.objects[key].key == key)
  }

  ghost predicate Legal(w: World, e: Event) {
    match e
    case PlanPass(inp, work, owner, app) =>
      && Shows(w.server, inp.server)
      && WellFormedInput(inp)
      && (IsMultiArch(inp.spec) ==> NonColliding(inp.sources, inp.archs))
      && WorkOf(inp, work, owner, app)
    case Act(seen, _) =>
      && w.pending != []
      && (seen.Some? ==> seen.value in w.server.published && seen.value.key == TodoKey(w.pending[0]))
    case Client(_) => true
  }

  function Next(w: World, e: Event): World {
    match e
    case PlanPass(_, work, owner, app) => w.(pending := Todos(work, owner, app))
    case Client(write) => w.(server := Apply(w.server, write).server)
    case Act(seen, fault) =>
      if w.pending == [] then w
      else
        match w.pending[0]
        case Run(b) =>
          var step := Reconcile(w.server, w.cache, b, seen, fault);
          World(step.server, step.cache, w.pending[1..])
        case Drop(key) => World(Send(w.server, DeleteOp(key), fault).server, w.cache, w.pending[1..])
  }

  /** The DataSource is handed over, and nothing the operator is about to do takes it back. */
  ghost predicate HandedOver(w: World, name: string) {
    var key := SourceKey(name);
    && Consistent(w.server)
    && key in w.server.objects
    && CRON_LABEL in w.server.objects[key].labels
    && forall t <- w.pending :: TodoKey(t) == key ==> KeepsHandOver(t)
  }

  predicate KeepsHandOver(t: Todo) {
    t.Run? && t.b.always && !t.b.immutableSpec && t.b.update.HandOver? && t.b.update.auto
  }

  /** An entry of the plan that is not a reference. */
  ghost predicate Manageable(inp: Input, name: string)
    requires inp.archs != []
  {
    if IsMultiArch(inp.spec)
    then exists n, a :: n in inp.order && a in ArchsOf(inp.sources, n) && a in inp.archs && name == Suffixed(n, a)
    else name in inp.order && inp.archs[0] in ArchsOf(inp.sources, name)
  }

  /** Everybody else leaves the object and its label in place, and the spec keeps a cron for it. */
  ghost predicate Respects(w: World, e: Event, name: string) {
    var key := SourceKey(name);
    match e
    case PlanPass(inp, _, _, _) =>
      inp.archs != [] && Manageable(inp, name) && Managed(GOLDEN_IMAGES, name) in Crons(inp)
    case Client(write) =>
      var s' := Apply(w.server, write).server;
      key in s'.objects && CRON_LABEL in s'.objects[key].labels
    case Act(_, _) => true
  }

  /** What the planning read carries the label, or leaves the DataSource to CDI for want of an image. */
  ghost predicate ReadLeavesToCdi(inp: Input, name: string) {
    if IsMultiArch(inp.spec)
    then forall n, a :: n in inp.order && a in ArchsOf(inp.sources, n) && a in inp.archs && name == Suffixed(n, a) ==>
           LeavesToCdi(inp.server, name, DefaultArch(inp.archs, ArchsOf(inp.sources, n)) == Some(a), n)
    else LeavesToCdi(inp.server, name, false, name)
  }

  lemma ManageableArch(inp: Input, n: string, a: Arch) returns (y: Info)
    requires WellFormedInput(inp) && IsMultiArch(inp.spec)
    requires n in inp.order && a in ArchsOf(inp.sources, n) && a in inp.archs
    ensures y in Planned(inp).infos && y.source.key.name == Suffixed(n, a)
    ensures y.auto <==> Managed(GOLDEN_IMAGES, Suffixed(n, a)) in Crons(inp) && ReadLeavesToCdi(inp, Suffixed(n, a))
  {
    var default := DefaultArch(inp.archs, ArchsOf(inp.sources, n)) == Some(a);
    y := ArchInfo(inp.server, Crons(inp), n, a, default);
    ArchEntry(inp, n, a, default);
    ArchIsPlanned(inp, n, a);
    ArchDecision(inp.server, Crons(inp), n, a, default);
    OneReading(inp, n, a, Suffixed(n, a));
  }

  /** The entry that is planned for a manageable name, and its decision. */
  lemma ManageableEntry(inp: Input, name: string) returns (y: Info)
    requires WellFormedInput(inp) && Manageable(inp, name)
    ensures y in Planned(inp).infos && y.source.key.name == name
    ensures y.auto <==> Managed(GOLDEN_IMAGES, name) in Crons(inp) && ReadLeavesToCdi(inp, name)
  {
    if IsMultiArch(inp.spec) {
      var n, a :| n in inp.order && a in ArchsOf(inp.sources, n) && a in inp.archs && name == Suffixed(n, a);
      y := ManageableArch(inp, n, a);
    } else {
      y := SingleInfo(inp.server, Crons(inp), name);
      InSingle(inp, inp.archs[0], y);
      SingleDecision(inp.server, Crons(inp), name);
    }
  }

  lemma OneReading(inp: Input, n: string, a: Arch, name: string)
    requires IsMultiArch(inp.spec) && name == Suffixed(n, a)
    requires n in inp.order && a in ArchsOf(inp.sources, n) && a in inp.archs
    ensures ReadLeavesToCdi(inp, name) <==>
              LeavesToCdi(inp.server, name, DefaultArch(inp.archs, ArchsOf(inp.sources, n)) == Some(a), n)
  {
    forall m, b | name == Suffixed(m, b) ensures m == n && b == a { SuffixedIsInjective(n, a, m, b); }
  }

  /** A manageable DataSource with a cron is planned for CDI exactly if the planning read leaves it to CDI. */
  lemma PlannedAutoIff(inp: Input, name: string, x: Info)
    requires WellFormedInput(inp) && (IsMultiArch(inp.spec) ==> NonColliding(inp.sources, inp.archs))
    requires Manageable(inp, name) && Managed(GOLDEN_IMAGES, name) in Crons(inp)
    requires x in Planned(inp).infos && x.source.key.name == name
    ensures x.auto <==> ReadLeavesToCdi(inp, name)
  {
    var y := ManageableEntry(inp, name);
    PlannedInfosAreOk(inp);
    DistinctMeansOne(Planned(inp).infos, x, y);
  }

  /** Items for a planned DataSource come from its plan entry. */
  lemma SourceItemOrigin(s: Server, work: Work, owner: Owner, app: StringMap, t: Todo, name: string)
    requires WellFormedWork(s, work, owner, app) && t in Todos(work, owner, app)
    requires TodoKey(t) == SourceKey(name) && HasName(work.infos, name)
    ensures exists info <- work.infos :: t == Run(SourceBuilder(info, owner, app))
  {
    InTodos(work, owner, app, t);
    assert DATA_SOURCE != DATA_IMPORT_CRON by { assert |DATA_SOURCE.name| != |DATA_IMPORT_CRON.name|; }
  }

  /** The item that a plan has for a manageable DataSource. */
  lemma PlannedItem(s: Server, work: Work, owner: Owner, app: StringMap, x: Info)
    requires WellFormedWork(s, work, owner, app) && x in work.infos
    ensures Run(SourceBuilder(x, owner, app)) in Todos(work, owner, app)
    ensures KeepsHandOver(Run(SourceBuilder(x, owner, app))) <==> x.auto
  {
    InTodos(work, owner, app, Run(SourceBuilder(x, owner, app)));
  }

  /** Planning keeps a hand-over exactly if what it read leaves the DataSource to CDI. */
  lemma PlanKeepsHandOverIff(w: World, e: Event, name: string)
    requires e.PlanPass? && HandedOver(w, name) && Legal(w, e) && Respects(w, e, name)
    ensures HandedOver(Next(w, e), name) <==> ReadLeavesToCdi(e.inp, name)
  {
    var y := ManageableEntry(e.inp, name);
    NamedBy(Planned(e.inp).infos, y);
    PlannedItem(e.inp.server, e.work, e.owner, e.app, y);
    assert TodoKey(Run(SourceBuilder(y, e.owner, e.app))) == SourceKey(name);
    if ReadLeavesToCdi(e.inp, name) {
      forall t <- Todos(e.work, e.owner, e.app) | TodoKey(t) == SourceKey(name) ensures KeepsHandOver(t) {
        SourceItemOrigin(e.inp.server, e.work, e.owner, e.app, t, name);
        var info :| info in e.work.infos && t == Run(SourceBuilder(info, e.owner, e.app));
        PlannedAutoIff(e.inp, name, info);
      }
    }
  }

  /** A builder call that keeps a hand-over, on its own object: the label stays, the spec is not touched. */
  lemma ActOnHandedOver(s: Server, c: Cache, b: Builder, seen: Option<Object>, fault: Fault)
    requires Consistent(s) && KeepsHandOver(Run(b)) && b.expected.key in s.objects
    requires b.expected.key.kind == DATA_SOURCE
    requires CRON_LABEL in s.objects[b.expected.key].labels
    requires seen.Some? ==> seen.value in s.published && seen.value.key == b.expected.key
    ensures var s' := Reconcile(s, c, b, seen, fault).server;
            && b.expected.key in s'.objects
            && CRON_LABEL in s'.objects[b.expected.key].labels
            && s'.objects[b.expected.key].spec == s.objects[b.expected.key].spec
  {
    var key := b.expected.key;
    ReconcileSendsOneWrite(s, c, b, seen, fault);
    assert Newest(s, key) && WellFormed(s, s.objects[key]);
    if seen.Some? { assert Agree(seen.value, s.objects[key]); }
  }

  /** Acting on another object leaves this one alone. */
  lemma ActElsewhere(w: World, seen: Option<Object>, fault: Fault, key: Key)
    requires Consistent(w.server) && Legal(w, Act(seen, fault)) && TodoKey(w.pending[0]) != key
    ensures Lookup(Next(w, Act(seen, fault)).server.objects, key) == Lookup(w.server.objects, key)
  {
    var s' := Next(w, Act(seen, fault)).server;
    match w.pending[0]
    case Run(b) =>
      OtherKeysUntouched(w.server, w.cache, b, seen, fault);
      SameBesides(s'.objects, w.server.objects, b.expected.key, key);
    case Drop(k) =>
      WriteTouchesOneKey(w.server, DeleteOp(k));
      SameBesides(Apply(w.server, DeleteOp(k)).server.objects, w.server.objects, k, key);
  }

  lemma ActKeepsConsistent(w: World, seen: Option<Object>, fault: Fault)
    requires Consistent(w.server) && w.pending != []
    ensures Consistent(Next(w, Act(seen, fault)).server)
  {
    match w.pending[0]
    case Run(b) => ReconcileKeepsConsistent(w.server, w.cache, b, seen, fault);
    case Drop(k) => SendKeepsConsistent(w.server, DeleteOp(k), fault);
  }

  lemma SendKeepsConsistent(s: Server, write: Write, fault: Fault)
    requires Consistent(s)
    ensures Consistent(Send(s, write, fault).server)
  {
    WritesKeepConsistent(s, write);
  }

  ghost predicate GoodReading(e: Event, name: string) {
    e.PlanPass? ==> ReadLeavesToCdi(e.inp, name)
  }

  /** The only step of the operator that can end a hand-over is planning; none changes the spec. */
  lemma OperatorKeepsHandOverIff(w: World, e: Event, name: string)
    requires HandedOver(w, name) && Legal(w, e) && Respects(w, e, name) && !e.Client?
    ensures HandedOver(Next(w, e), name) <==> GoodReading(e, name)
    ensures SourceKey(name) in Next(w, e).server.objects
    ensures Next(w, e).server.objects[SourceKey(name)].spec == w.server.objects[SourceKey(name)].spec
  {
    var key := SourceKey(name);
    if e.PlanPass? {
      PlanKeepsHandOverIff(w, e, name);
    } else {
      ActKeepsConsistent(w, e.seen, e.fault);
      if TodoKey(w.pending[0]) == key { ActOnHandedOver(w.server, w.cache, w.pending[0].b, e.seen, e.fault); }
      else { ActElsewhere(w, e.seen, e.fault, key); }
    }
  }

  function RunAll(w: World, events: seq<Event>): World
    decreases |events|
  {
    if events == [] then w else RunAll(Next(w, events[0]), events[1..])
  }

  ghost predicate Allowed(w: World, events: seq<Event>, name: string)
    decreases |events|
  {
    events != [] ==>
      && Legal(w, events[0])
      && Respects(w, events[0], name)
      && Allowed(Next(w, events[0]), events[1..], name)
  }

  /** Client writes of a run leave the spec of the DataSource alone. */
  ghost predicate SpecLeftAlone(w: World, events: seq<Event>, name: string)
    decreases |events|
  {
    events != [] ==>
      var w' := Next(w, events[0]);
      var key := SourceKey(name);
      && (events[0].Client? && key in w.server.objects && key in w'.server.objects ==>
            w'.server.objects[key].spec == w.server.objects[key].spec)
      && SpecLeftAlone(w', events[1..], name)
  }

  ghost predicate AlwaysHandedOver(w: World, events: seq<Event>, name: string)
    decreases |events|
  {
    HandedOver(w, name) && (events != [] ==> AlwaysHandedOver(Next(w, events[0]), events[1..], name))
  }

  lemma StepKeepsHandOverIff(w: World, e: Event, name: string)
    requires HandedOver(w, name) && Legal(w, e) && Respects(w, e, name)
    ensures HandedOver(Next(w, e), name) <==> GoodReading(e, name)
  {
    if e.Client? { WritesKeepConsistent(w.server, e.w); } else { OperatorKeepsHandOverIff(w, e, name); }
  }

  /**
   Over every run with stale reads, lost replies, CDI rewriting specs and PVCs coming and going:
   a DataSource that was handed over stays so throughout exactly if each planning read it with
   the label, or found no image for it.
   */
  lemma {:induction false} HandOverSticksIff(w: World, events: seq<Event>, name: string)
    requires HandedOver(w, name) && Allowed(w, events, name)
    ensures AlwaysHandedOver(w, events, name) <==> forall e <- events :: GoodReading(e, name)
    decreases |events|
  {
    if events != [] {
      assert forall e :: e in events <==> e == events[0] || e in events[1..];
      StepKeepsHandOverIff(w, events[0], name);
      if GoodReading(events[0], name) {
        HandOverSticksIff(Next(w, events[0]), events[1..], name);
      }
    }
  }

  /** And all the while its spec only changes by the hand of somebody else. */
  lemma {:induction false} HandOverLeavesSpec(w: World, events: seq<Event>, name: string)
    requires HandedOver(w, name) && Allowed(w, events, name) && SpecLeftAlone(w, events, name)
    requires forall e <- events :: GoodReading(e, name)
    ensures HandedOver(RunAll(w, events), name)
    ensures RunAll(w, events).server.objects[SourceKey(name)].spec == w.server.objects[SourceKey(name)].spec
    decreases |events|
  {
    if events != [] {
      StepKeepsHandOverIff(w, events[0], name);
      if !events[0].Client? { OperatorKeepsHandOverIff(w, events[0], name); }
      HandOverLeavesSpec(Next(w, events[0]), events[1..], name);
    }
  }

  // ----- a stale reading takes it back

  /** The items of a plan, run one after the other with fresh reads and without failures. */
  function FreshActs(w: World): seq<Event>
    decreases |w.pending|
  {
    if w.pending == [] then []
    else
      var e := Act(Lookup(w.server.objects, TodoKey(w.pending[0])), NoFault);
      [e] + FreshActs(Next(w, e))
  }

  lemma {:induction false} ExecuteFirst(st: State, next: State, t: Todo, rest: seq<Todo>)
    requires next == Execute(st, t)
    ensures ExecuteAll(st, [t] + rest) == ExecuteAll(next, rest)
    decreases |rest|
  {
    if rest == [] {
      assert [t] + rest == [t] && [t][..0] == [];
      assert ExecuteAll(st, [t][..0]) == st;
    } else {
      var n := |rest| - 1;
      ExecuteFirst(st, next, t, rest[..n]);
      assert ([t] + rest)[..n + 1] == [t] + rest[..n];
      assert ExecuteAll(st, [t] + rest) == Execute(ExecuteAll(st, [t] + rest[..n]), rest[n]);
      assert ExecuteAll(next, rest) == Execute(ExecuteAll(next, rest[..n]), rest[n]);
    }
  }

  lemma FreshActExecutes(w: World)
    requires w.pending != []
    ensures var w' := Next(w, Act(Lookup(w.server.objects, TodoKey(w.pending[0])), NoFault));
            State(w'.server, w'.cache) == Execute(State(w.server, w.cache), w.pending[0])
              && w'.pending == w.pending[1..]
  {
  }

  lemma {:induction false} FreshActsExecute(w: World)
    ensures RunAll(w, FreshActs(w)).server == ExecuteAll(State(w.server, w.cache), w.pending).server
    decreases |w.pending|
  {
    if w.pending != [] {
      var e := Act(Lookup(w.server.objects, TodoKey(w.pending[0])), NoFault);
      var w' := Next(w, e);
      FreshActExecutes(w);
      FreshActsExecute(w');
      assert FreshActs(w)[1..] == FreshActs(w');
      assert w.pending == [w.pending[0]] + w.pending[1..];
      var st := State(w.server, w.cache);
      ExecuteFirst(st, Execute(st, w.pending[0]), w.pending[0], w.pending[1..]);
    }
  }

  lemma {:induction false} FreshActsAreLegal(w: World)
    requires Consistent(w.server)
    ensures LegalRun(w, FreshActs(w))
    decreases |w.pending|
  {
    if w.pending != [] {
      var key := TodoKey(w.pending[0]);
      var e := Act(Lookup(w.server.objects, key), NoFault);
      if key in w.server.objects { assert Newest(w.server, key); }
      ActKeepsConsistent(w, e.seen, NoFault);
      FreshActsAreLegal(Next(w, e));
      assert FreshActs(w)[1..] == FreshActs(Next(w, e));
    }
  }

  ghost predicate LegalRun(w: World, events: seq<Event>)
    decreases |events|
  {
    events != [] ==> Legal(w, events[0]) && LegalRun(Next(w, events[0]), events[1..])
  }

  /** What carrying out a plan makes of one of its entries, whatever state the plan was made from. */
  lemma EntryIsCarriedOut(st: State, view: Server, work: Work, owner: Owner, app: StringMap, x: Info)
    requires Consistent(st.server) && WellFormedWork(view, work, owner, app) && x in work.infos
    ensures HandledBy(x, Lookup(st.server.objects, x.source.key),
                      Lookup(ExecuteAll(st, Todos(work, owner, app)).server.objects, x.source.key))
  {
    var todos, t := Todos(work, owner, app), Run(SourceBuilder(x, owner, app));
    PlannedItem(view, work, owner, app, x);
    TodosAreDistinct(view, work, owner, app);
    var i :| 0 <= i < |todos| && todos[i] == t;
    forall j | 0 <= j < |todos| && j != i ensures CacheKeyFor(TodoKey(todos[j])) != CacheKeyFor(TodoKey(todos[i])) {
      assert ItemKey()(todos[j]) != ItemKey()(todos[i]);
    }
    OneItemDecides(st, todos, i);
    var mid :| ExecutedIn(st, todos, i, mid);
    HandOverHandles(mid.server, mid.cache, x, owner, app);
  }

  /**
   The failing run: plan from a version that was read before the label was set, while the image
   exists, and carry the plan out. The label goes and CDI's spec is overwritten.
   */
  lemma StaleReadingTakesBack(w: World, e: Event, name: string) returns (x: Info)
    requires e.PlanPass? && HandedOver(w, name) && Legal(w, e) && Respects(w, e, name)
    requires !ReadLeavesToCdi(e.inp, name) && !w.server.objects[SourceKey(name)].terminating
    ensures var planned := Next(w, e);
            var after := RunAll(planned, FreshActs(planned)).server;
            && LegalRun(planned, FreshActs(planned))
            && x in Planned(e.inp).infos
            && x.source.key.name == name
            && SourceKey(name) in after.objects
            && CRON_LABEL !in after.objects[SourceKey(name)].labels
            && after.objects[SourceKey(name)].spec == x.source.spec
  {
    x := ManageableEntry(e.inp, name);
    var planned := Next(w, e);
    FreshActsAreLegal(planned);
    FreshActsExecute(planned);
    EntryIsCarriedOut(State(w.server, w.cache), e.inp.server, e.work, e.owner, e.app, x);
  }

  /** Carrying out an entry that uses auto-update is what hands a DataSource over. */
  lemma ActingHandsOver(w: World, info: Info, owner: Owner, app: StringMap, seen: Option<Object>)
    requires Consistent(w.server) && SourceInfo(info, app) && info.auto
             && info.source.key == SourceKey(info.source.key.name)
    requires w.pending != [] && w.pending[0] == Run(SourceBuilder(info, owner, app))
    requires seen == Lookup(w.server.objects, info.source.key) && (seen.Some? ==> !seen.value.terminating)
    requires forall t <- w.pending[1..] :: TodoKey(t) != info.source.key
    ensures HandedOver(Next(w, Act(seen, NoFault)), info.source.key.name)
  {
    HandOverHandles(w.server, w.cache, info, owner, app);
    ReconcileKeepsConsistent(w.server, w.cache, SourceBuilder(info, owner, app), seen, NoFault);
  }
}

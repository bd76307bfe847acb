/** What a whole pass of the data-sources operand leaves in a quiet cluster. */
module GarbageCollection {
  import opened Kube
  import opened Sequences
  import opened ApiServer
  import opened UpdateFuncs
  import opened Engine
  import opened Convergence
  import opened DataSourcePlan
  import opened ManagerExclusivity
  import opened DataSourceOperand

  /** A plan together with the orders in which lists and maps happen to be walked. */
  datatype Work = Work(infos: seq<Info>, crons: seq<Cron>, dropSources: seq<Key>, dropCrons: seq<Key>)

  function OwnedSources(s: Server, owner: Owner): set<Key> {
    set key | key in s.objects && key.kind == DATA_SOURCE && key.namespace == GOLDEN_IMAGES
      && OwnedBy(s.objects[key], owner)
  }

  function OwnedCrons(s: Server, owner: Owner): set<Key> {
    set key | key in s.objects && key.kind == DATA_IMPORT_CRON && OwnedBy(s.objects[key], owner)
  }

  function CronKey(): Cron -> Key {
    (c: Cron) => c.key
  }

  ghost predicate Wanted(crons: seq<Cron>, key: Key) {
    exists c <- crons :: c.key == key
  }

  /** The items, in the order in which the operand runs them. */
  function SourceItem(owner: Owner, app: StringMap): Info -> seq<Todo> {
    (info: Info) => [Run(SourceBuilder(info, owner, app))]
  }

  function CronItem(owner: Owner, app: StringMap): Cron -> seq<Todo> {
    (c: Cron) => [Run(CronBuilder(c, owner, app))]
  }

  function DropItem(): Key -> seq<Todo> {
    (key: Key) => [Drop(key)]
  }

  function Todos(work: Work, owner: Owner, app: StringMap): seq<Todo> {
    FlatMap(work.infos, SourceItem(owner, app)) + FlatMap(work.dropSources, DropItem())
    + FlatMap(work.crons, CronItem(owner, app)) + FlatMap(work.dropCrons, DropItem())
  }

  /** Lists are taken from the state before the pass; cron objects of the plan have different keys. */
  ghost predicate WellFormedWork(s: Server, work: Work, owner: Owner, app: StringMap) {
    && (forall info <- work.infos :: SourceInfo(info, app) && info.source.key == SourceKey(info.source.key.name))
    && DistinctNames(work.infos)
    && DistinctBy(work.crons, CronKey())
    && NoDuplicates(work.dropSources)
    && NoDuplicates(work.dropCrons)
    && (forall key :: key in work.dropSources <==> key in OwnedSources(s, owner) && !HasName(work.infos, key.name))
    && (forall key :: key in work.dropCrons <==> key in OwnedCrons(s, owner) && !Wanted(work.crons, key))
  }

  /** Not on its way out. */
  predicate Live(s: Server, key: Key) {
    key in s.objects && !s.objects[key].terminating
  }

  function ItemKey(): Todo -> CacheKey {
    (t: Todo) => CacheKeyFor(TodoKey(t))
  }

  /** The four groups of items. */
  lemma InTodos(work: Work, owner: Owner, app: StringMap, t: Todo)
    ensures t in Todos(work, owner, app) <==>
              || (exists info <- work.infos :: t == Run(SourceBuilder(info, owner, app)))
              || (exists key <- work.dropSources :: t == Drop(key))
              || (exists c <- work.crons :: t == Run(CronBuilder(c, owner, app)))
              || (exists key <- work.dropCrons :: t == Drop(key))
  {
    InFlatMap(work.infos, SourceItem(owner, app), t);
    InFlatMap(work.dropSources, DropItem(), t);
    InFlatMap(work.crons, CronItem(owner, app), t);
    InFlatMap(work.dropCrons, DropItem(), t);
    assert forall info :: t in SourceItem(owner, app)(info) <==> t == Run(SourceBuilder(info, owner, app));
    assert forall c :: t in CronItem(owner, app)(c) <==> t == Run(CronBuilder(c, owner, app));
    assert forall key :: t in DropItem()(key) <==> t == Drop(key);
  }

  lemma DistinctNamesNoDuplicates(infos: seq<Info>)
    requires DistinctNames(infos)
    ensures NoDuplicates(infos)
  {
    forall i, j | 0 <= i < j < |infos| ensures infos[i] != infos[j] {
      assert InfoName()(infos[i]) != InfoName()(infos[j]);
    }
  }

  /** Where an item belongs, told from its key. */
  ghost predicate IsSourceItem(work: Work, t: Todo) {
    TodoKey(t) == SourceKey(TodoKey(t).name) && HasName(work.infos, TodoKey(t).name)
  }

  ghost predicate IsSourceDrop(work: Work, t: Todo) {
    TodoKey(t) == SourceKey(TodoKey(t).name) && !HasName(work.infos, TodoKey(t).name)
  }

  ghost predicate IsCronItem(work: Work, t: Todo) {
    TodoKey(t).kind == DATA_IMPORT_CRON && Wanted(work.crons, TodoKey(t))
  }

  ghost predicate IsCronDrop(work: Work, t: Todo) {
    TodoKey(t).kind == DATA_IMPORT_CRON && !Wanted(work.crons, TodoKey(t))
  }

  lemma SourceItems(s: Server, work: Work, owner: Owner, app: StringMap)
    requires WellFormedWork(s, work, owner, app)
    ensures var todos: seq<Todo> := FlatMap(work.infos, SourceItem(owner, app));
            DistinctBy(todos, ItemKey()) && forall t <- todos :: IsSourceItem(work, t)
  {
    var f := SourceItem(owner, app);
    var todos: seq<Todo> := FlatMap(work.infos, f);
    forall i, j, y, z | 0 <= i < j < |work.infos| && y in f(work.infos[i]) && z in f(work.infos[j])
      ensures ItemKey()(y) != ItemKey()(z)
    {
      assert InfoName()(work.infos[i]) != InfoName()(work.infos[j]);
    }
    DistinctNamesNoDuplicates(work.infos);
    DistinctFlatMap(work.infos, f, ItemKey());
    forall t <- todos ensures IsSourceItem(work, t) {
      InFlatMap(work.infos, f, t);
      var info :| info in work.infos && t in f(info);
      var i :| 0 <= i < |work.infos| && work.infos[i] == info;
      assert work.infos[i].source.key.name == TodoKey(t).name;
    }
  }

  lemma CronItems(s: Server, work: Work, owner: Owner, app: StringMap)
    requires WellFormedWork(s, work, owner, app)
    ensures var todos: seq<Todo> := FlatMap(work.crons, CronItem(owner, app));
            DistinctBy(todos, ItemKey()) && forall t <- todos :: IsCronItem(work, t)
  {
    var f := CronItem(owner, app);
    var todos: seq<Todo> := FlatMap(work.crons, f);
    forall i, j | 0 <= i < j < |work.crons| ensures work.crons[i].key != work.crons[j].key {
      assert CronKey()(work.crons[i]) != CronKey()(work.crons[j]);
    }
    DistinctFlatMap(work.crons, f, ItemKey());
    forall t <- todos ensures IsCronItem(work, t) {
      InFlatMap(work.crons, f, t);
      var c :| c in work.crons && t in f(c);
      assert c.key == TodoKey(t);
    }
  }

  lemma DropItems(keys: seq<Key>, kind: Kind)
    requires NoDuplicates(keys) && forall key <- keys :: key.kind == kind
    ensures var todos: seq<Todo> := FlatMap(keys, DropItem());
            DistinctBy(todos, ItemKey()) && forall t <- todos :: t.Drop? && t.key in keys
  {
    var todos: seq<Todo> := FlatMap(keys, DropItem());
    DistinctFlatMap(keys, DropItem(), ItemKey());
    forall t <- todos ensures t.Drop? && t.key in keys { InFlatMap(keys, DropItem(), t); }
  }

  lemma GroupsAreApart(work: Work, y: Todo, z: Todo)
    requires (IsSourceItem(work, y) && (IsSourceDrop(work, z) || IsCronItem(work, z) || IsCronDrop(work, z)))
          || (IsSourceDrop(work, y) && (IsCronItem(work, z) || IsCronDrop(work, z)))
          || (IsCronItem(work, y) && IsCronDrop(work, z))
    ensures ItemKey()(y) != ItemKey()(z)
  {
    assert DATA_SOURCE.name != DATA_IMPORT_CRON.name by { assert |DATA_SOURCE.name| != |DATA_IMPORT_CRON.name|; }
  }

  /** No two items concern the same object. */
  lemma TodosAreDistinct(s: Server, work: Work, owner: Owner, app: StringMap)
    requires WellFormedWork(s, work, owner, app)
    ensures DistinctBy(Todos(work, owner, app), ItemKey())
  {
    var a: seq<Todo> := FlatMap(work.infos, SourceItem(owner, app));
    var b: seq<Todo> := FlatMap(work.dropSources, DropItem());
    var c: seq<Todo> := FlatMap(work.crons, CronItem(owner, app));
    var d: seq<Todo> := FlatMap(work.dropCrons, DropItem());
    SourceItems(s, work, owner, app);
    CronItems(s, work, owner, app);
    DropItems(work.dropSources, DATA_SOURCE);
    DropItems(work.dropCrons, DATA_IMPORT_CRON);
    assert forall t <- b :: IsSourceDrop(work, t);
    assert forall t <- d :: IsCronDrop(work, t);
    forall y <- a, z <- b ensures ItemKey()(y) != ItemKey()(z) { GroupsAreApart(work, y, z); }
    DistinctConcat(a, b, ItemKey());
    forall y <- a + b, z <- c ensures ItemKey()(y) != ItemKey()(z) { GroupsAreApart(work, y, z); }
    DistinctConcat(a + b, c, ItemKey());
    forall y <- a + b + c, z <- d ensures ItemKey()(y) != ItemKey()(z) { GroupsAreApart(work, y, z); }
    DistinctConcat(a + b + c, d, ItemKey());
  }

  /** The state in which an item was run, for its own object as good as the initial one. */
  lemma ItemDecides(st: State, work: Work, owner: Owner, app: StringMap, t: Todo) returns (mid: State)
    requires Consistent(st.server) && WellFormedWork(st.server, work, owner, app) && t in Todos(work, owner, app)
    ensures Consistent(mid.server)
    ensures ViewAt(mid, TodoKey(t)) == ViewAt(st, TodoKey(t))
    ensures ViewAt(ExecuteAll(st, Todos(work, owner, app)), TodoKey(t)) == ViewAt(Execute(mid, t), TodoKey(t))
  {
    var todos := Todos(work, owner, app);
    TodosAreDistinct(st.server, work, owner, app);
    var i :| 0 <= i < |todos| && todos[i] == t;
    forall j | 0 <= j < |todos| && j != i ensures CacheKeyFor(TodoKey(todos[j])) != CacheKeyFor(TodoKey(todos[i])) {
      assert ItemKey()(todos[j]) != ItemKey()(todos[i]);
    }
    OneItemDecides(st, todos, i);
    mid :| ExecutedIn(st, todos, i, mid);
  }

  /** Neither planned nor owned, or of a kind the operand does not list. */
  ghost predicate Foreign(s: Server, work: Work, owner: Owner, key: Key) {
    || (key.kind.name != DATA_SOURCE.name && key.kind.name != DATA_IMPORT_CRON.name)
    || (&& key.kind == DATA_SOURCE
        && key !in OwnedSources(s, owner)
        && !(key.namespace == GOLDEN_IMAGES && HasName(work.infos, key.name)))
    || (&& key.kind == DATA_IMPORT_CRON
        && key !in OwnedCrons(s, owner)
        && !Wanted(work.crons, key))
  }

  /** Objects that are neither planned nor owned are left as they are. */
  lemma OthersSurvive(st: State, work: Work, owner: Owner, app: StringMap, key: Key)
    requires Consistent(st.server) && WellFormedWork(st.server, work, owner, app)
    requires Foreign(st.server, work, owner, key)
    ensures Lookup(ExecuteAll(st, Todos(work, owner, app)).server.objects, key) == Lookup(st.server.objects, key)
  {
    forall t <- Todos(work, owner, app) ensures CacheKeyFor(TodoKey(t)) != CacheKeyFor(key) {
      ItemGroup(st.server, work, owner, app, t);
      assert DATA_SOURCE.name != DATA_IMPORT_CRON.name by { assert |DATA_SOURCE.name| != |DATA_IMPORT_CRON.name|; }
    }
    UntouchedKey(st, Todos(work, owner, app), key);
  }

  lemma ItemGroup(s: Server, work: Work, owner: Owner, app: StringMap, t: Todo)
    requires WellFormedWork(s, work, owner, app) && t in Todos(work, owner, app)
    ensures IsSourceItem(work, t) || (IsSourceDrop(work, t) && TodoKey(t) in OwnedSources(s, owner))
         || IsCronItem(work, t) || (IsCronDrop(work, t) && TodoKey(t) in OwnedCrons(s, owner))
  {
    SourceItems(s, work, owner, app);
    CronItems(s, work, owner, app);
    DropItems(work.dropSources, DATA_SOURCE);
    DropItems(work.dropCrons, DATA_IMPORT_CRON);
  }

  function After(st: State, work: Work, owner: Owner, app: StringMap): State {
    ExecuteAll(st, Todos(work, owner, app))
  }

  lemma PlannedSourceIsHandled(st: State, work: Work, owner: Owner, app: StringMap, info: Info)
    requires Consistent(st.server) && WellFormedWork(st.server, work, owner, app) && info in work.infos
    ensures var before := Lookup(st.server.objects, info.source.key);
            var after := Lookup(After(st, work, owner, app).server.objects, info.source.key);
            && HandledBy(info, before, after)
            && (!(before.Some? && before.value.terminating) ==> OwnedBy(after.value, owner))
  {
    var t := Run(SourceBuilder(info, owner, app));
    InTodos(work, owner, app, t);
    var mid := ItemDecides(st, work, owner, app, t);
    HandOverHandles(mid.server, mid.cache, info, owner, app);
  }

  lemma DroppedIsNotLive(st: State, work: Work, owner: Owner, app: StringMap, key: Key)
    requires Consistent(st.server) && WellFormedWork(st.server, work, owner, app)
    requires key in work.dropSources || key in work.dropCrons
    ensures !Live(After(st, work, owner, app).server, key)
  {
    InTodos(work, owner, app, Drop(key));
    var mid := ItemDecides(st, work, owner, app, Drop(key));
    var after := After(st, work, owner, app).server;
    assert Lookup(after.objects, key) == Lookup(Delete(mid.server, key).server.objects, key);
    DeletedIsNotLive(mid.server, key);
  }

  lemma DeletedIsNotLive(s: Server, key: Key)
    requires Consistent(s)
    ensures !Live(Delete(s, key).server, key)
  {
    if key in s.objects { assert Newest(s, key); }
  }

  /** After a quiet pass the owned live DataSources are exactly the planned ones that were not on their way out. */
  lemma OwnedSourcesAreExactlyPlanned(st: State, work: Work, owner: Owner, app: StringMap, key: Key)
    requires Consistent(st.server) && WellFormedWork(st.server, work, owner, app)
    ensures var after := After(st, work, owner, app).server;
            key in OwnedSources(after, owner) && Live(after, key) <==>
              && key == SourceKey(key.name)
              && HasName(work.infos, key.name)
              && (key in st.server.objects ==> Live(st.server, key))
  {
    var after := After(st, work, owner, app).server;
    if key == SourceKey(key.name) {
      if HasName(work.infos, key.name) {
        var i :| 0 <= i < |work.infos| && work.infos[i].source.key.name == key.name;
        assert work.infos[i] in work.infos;
        PlannedSourceIsHandled(st, work, owner, app, work.infos[i]);
      } else if key in OwnedSources(st.server, owner) {
        DroppedIsNotLive(st, work, owner, app, key);
      } else {
        OthersSurvive(st, work, owner, app, key);
      }
    }
  }

  /** After a quiet pass every owned live cron is a planned one. */
  lemma OwnedCronsArePlanned(st: State, work: Work, owner: Owner, app: StringMap, key: Key)
    requires Consistent(st.server) && WellFormedWork(st.server, work, owner, app)
    requires var after := After(st, work, owner, app).server; key in OwnedCrons(after, owner) && Live(after, key)
    ensures Wanted(work.crons, key)
  {
    if !Wanted(work.crons, key) {
      if key in OwnedCrons(st.server, owner) { DroppedIsNotLive(st, work, owner, app, key); }
      else { OthersSurvive(st, work, owner, app, key); }
    }
  }

  // ----- the second pass

  lemma CronBuilderIsWellFormed(c: Cron, owner: Owner, app: StringMap)
    ensures WellFormedBuilder(CronBuilder(c, owner, app))
    ensures CronBuilder(c, owner, app).expected.key == c.key
  {
  }

  /** The cache does not vouch for the stored cron, and its spec is another one. */
  predicate Replaces(st: State, c: Cron) {
    && c.key in st.server.objects
    && !Contains(st.cache, st.server.objects[c.key])
    && st.server.objects[c.key].spec != c.spec
  }

  /** On its way out, or to be replaced although it would outlive its deletion. */
  predicate Obstructed(st: State, c: Cron) {
    && c.key in st.server.objects
    && var o := st.server.objects[c.key];
       o.terminating || (Replaces(st, c) && o.finalizers != {})
  }

  /** The same builder without the rule that a new spec needs a new object. */
  function Loose(c: Cron, owner: Owner, app: StringMap): Builder {
    CronBuilder(c, owner, app).(immutableSpec := false)
  }

  lemma LooseIsSame(st: State, c: Cron, owner: Owner, app: StringMap)
    requires c.key in st.server.objects && !Replaces(st, c)
    ensures Quiet(st.server, st.cache, CronBuilder(c, owner, app)) == Quiet(st.server, st.cache, Loose(c, owner, app))
  {
    var o := st.server.objects[c.key];
    assert SpecAfter(Copy({}), o.spec, c.spec) == c.spec;
  }

  ghost predicate CronDone(st: State, after: State, b: Builder) {
    || (Upheld(after.server, after.cache, b) &&
        (Settled(after.server, after.cache, b) <==> Trusted(st.server, st.cache, b)))
    || (Gone(after.server, after.cache, b) && b.expected.key in st.server.objects && Trusted(st.server, st.cache, b))
  }

  /** What one item makes of a cron that is not obstructed. */
  lemma CronTurn(st: State, c: Cron, owner: Owner, app: StringMap)
    requires Consistent(st.server) && !Obstructed(st, c) && RealEntry(st.cache, CronBuilder(c, owner, app))
    ensures CronDone(st, Execute(st, Run(CronBuilder(c, owner, app))), CronBuilder(c, owner, app))
  {
    var b := CronBuilder(c, owner, app);
    CronBuilderIsWellFormed(c, owner, app);
    if c.key in st.server.objects && !Replaces(st, c) {
      LooseIsSame(st, c, owner, app);
      UpheldOrGone(st.server, st.cache, Loose(c, owner, app));
    } else {
      UpheldOrGone(st.server, st.cache, b);
    }
  }

  /** An obstructed one is still on its way out afterwards, or is from then on. */
  lemma ObstructedTurn(st: State, c: Cron, owner: Owner, app: StringMap)
    requires Consistent(st.server) && Obstructed(st, c)
    ensures var after := Execute(st, Run(CronBuilder(c, owner, app)));
            c.key in after.server.objects && after.server.objects[c.key].terminating
  {
    var b := CronBuilder(c, owner, app);
    var o := st.server.objects[c.key];
    assert Newest(st.server, c.key) && WellFormed(st.server, o);
    if o.terminating {
      TerminatingIsLeftAlone(st.server, st.cache, b, o, NoFault);
    } else {
      assert SpecAfter(Copy({}), o.spec, c.spec) == c.spec;
      assert WriteFor(b, st.cache, Some(o)) == Some(DeleteOp(c.key));
    }
  }

  /** All this only depends on the key's own object and entry. */
  lemma ViewDecides(st: State, st': State, c: Cron, owner: Owner, app: StringMap)
    requires Consistent(st.server) && ViewAt(st, c.key) == ViewAt(st', c.key)
    ensures var b := CronBuilder(c, owner, app);
            && (Trusted(st.server, st.cache, b) <==> Trusted(st'.server, st'.cache, b))
            && (Settled(st.server, st.cache, b) <==> Settled(st'.server, st'.cache, b))
            && (Upheld(st.server, st.cache, b) <==> Upheld(st'.server, st'.cache, b))
            && (Gone(st.server, st.cache, b) <==> Gone(st'.server, st'.cache, b))
            && (RealEntry(st.cache, b) <==> RealEntry(st'.cache, b))
            && (Obstructed(st, c) <==> Obstructed(st', c))
            && Lookup(st.server.objects, c.key) == Lookup(st'.server.objects, c.key)
  {
    if c.key in st.server.objects {
      var o := st.server.objects[c.key];
      assert Newest(st.server, c.key) && st'.server.objects[c.key] == o;
      assert Contains(st.cache, o) == Contains(st'.cache, o) by {
        assert Lookup(st.cache, CacheKeyOf(o)) == Lookup(st'.cache, CacheKeyOf(o));
      }
    }
    assert Lookup(st.cache, CacheKeyOf(c)) == Lookup(st'.cache, CacheKeyOf(c));
  }

  /** The item of a cron runs in a state that differs from the start of the pass elsewhere only. */
  lemma CronItemRuns(st: State, work: Work, owner: Owner, app: StringMap, c: Cron) returns (mid: State)
    requires Consistent(st.server) && WellFormedWork(st.server, work, owner, app) && c in work.crons
    ensures Consistent(mid.server) && Consistent(Execute(mid, Run(CronBuilder(c, owner, app))).server)
    ensures ViewAt(st, c.key) == ViewAt(mid, c.key)
    ensures ViewAt(Execute(mid, Run(CronBuilder(c, owner, app))), c.key) == ViewAt(After(st, work, owner, app), c.key)
  {
    var t := Run(CronBuilder(c, owner, app));
    InTodos(work, owner, app, t);
    mid := ItemDecides(st, work, owner, app, t);
    ExecuteKeepsConsistent(mid, t);
  }

  lemma CronAfterPass(st: State, work: Work, owner: Owner, app: StringMap, c: Cron)
    requires Consistent(st.server) && WellFormedWork(st.server, work, owner, app) && c in work.crons
    requires !Obstructed(st, c) && RealEntry(st.cache, CronBuilder(c, owner, app))
    ensures var after := After(st, work, owner, app);
            && CronDone(st, after, CronBuilder(c, owner, app))
            && RealEntry(after.cache, CronBuilder(c, owner, app))
            && !Obstructed(after, c)
  {
    var b := CronBuilder(c, owner, app);
    var mid := CronItemRuns(st, work, owner, app, c);
    ViewDecides(st, mid, c, owner, app);
    CronTurn(mid, c, owner, app);
    QuietKeepsReal(mid.server, mid.cache, b);
    ViewDecides(Execute(mid, Run(b)), After(st, work, owner, app), c, owner, app);
    DoneIsFree(mid, Execute(mid, Run(b)), c, owner, app);
  }

  lemma DoneIsFree(st: State, after: State, c: Cron, owner: Owner, app: StringMap)
    requires CronDone(st, after, CronBuilder(c, owner, app))
    ensures !Obstructed(after, c)
  {
  }

  lemma ObstructedAfterPass(st: State, work: Work, owner: Owner, app: StringMap, c: Cron)
    requires Consistent(st.server) && WellFormedWork(st.server, work, owner, app) && c in work.crons
    requires Obstructed(st, c)
    ensures !Live(After(st, work, owner, app).server, c.key) && Obstructed(After(st, work, owner, app), c)
  {
    var mid := CronItemRuns(st, work, owner, app, c);
    ViewDecides(st, mid, c, owner, app);
    ObstructedTurn(mid, c, owner, app);
    ViewDecides(Execute(mid, Run(CronBuilder(c, owner, app))), After(st, work, owner, app), c, owner, app);
  }

  lemma UpheldCronStays(st: State, work: Work, owner: Owner, app: StringMap, c: Cron)
    requires Consistent(st.server) && WellFormedWork(st.server, work, owner, app) && c in work.crons
    requires RealEntry(st.cache, CronBuilder(c, owner, app)) && Upheld(st.server, st.cache, CronBuilder(c, owner, app))
    ensures var after := After(st, work, owner, app);
            var b := CronBuilder(c, owner, app);
            && Upheld(after.server, after.cache, b)
            && (Settled(after.server, after.cache, b) <==> Settled(st.server, st.cache, b))
  {
    var b := CronBuilder(c, owner, app);
    var mid := CronItemRuns(st, work, owner, app, c);
    ViewDecides(st, mid, c, owner, app);
    LooseIsSame(mid, c, owner, app);
    UpheldStays(mid.server, mid.cache, Loose(c, owner, app));
    ViewDecides(Execute(mid, Run(b)), After(st, work, owner, app), c, owner, app);
  }

  /**
   Two quiet passes uphold a cron that is not obstructed, and its spec is then the planned one
   exactly if the cache could be trusted about it.
   */
  lemma CronUpheldInTwoPasses(st: State, mid: State, first: Work, second: Work, owner: Owner, app: StringMap, c: Cron)
    requires Consistent(st.server) && WellFormedWork(st.server, first, owner, app)
    requires mid == After(st, first, owner, app) && Consistent(mid.server)
    requires WellFormedWork(mid.server, second, owner, app) && c in first.crons && c in second.crons
    requires !Obstructed(st, c) && RealEntry(st.cache, CronBuilder(c, owner, app))
    ensures var after := After(mid, second, owner, app);
            var b := CronBuilder(c, owner, app);
            && Upheld(after.server, after.cache, b)
            && (Settled(after.server, after.cache, b) <==> Trusted(st.server, st.cache, b))
  {
    CronAfterPass(st, first, owner, app, c);
    if Upheld(mid.server, mid.cache, CronBuilder(c, owner, app)) {
      UpheldCronStays(mid, second, owner, app, c);
    } else {
      CronAfterPass(mid, second, owner, app, c);
    }
  }

  /** It also says which operand it belongs to. */
  lemma UpheldCronIsLabelled(st: State, c: Cron, owner: Owner, app: StringMap, k: string)
    requires Upheld(st.server, st.cache, CronBuilder(c, owner, app)) && k in app
    ensures Lookup(st.server.objects[c.key].labels, k) == Some(app[k])
  {
    var o, expected := st.server.objects[c.key], CronBuilder(c, owner, app).expected;
    assert expected.labels == c.labels + app;
    assert k in expected.labels && (o.labels + expected.labels)[k] == expected.labels[k];
  }

  lemma UpheldCronIsOwned(st: State, c: Cron, owner: Owner, app: StringMap)
    requires Upheld(st.server, st.cache, CronBuilder(c, owner, app))
    ensures c.key in OwnedCrons(st.server, owner) && Live(st.server, c.key)
  {
    var b := CronBuilder(c, owner, app);
    var o := st.server.objects[c.key];
    assert NAME_ANNOTATION in b.expected.annotations && TYPE_ANNOTATION in b.expected.annotations;
    assert NAME_ANNOTATION != TYPE_ANNOTATION by { assert |NAME_ANNOTATION| != |TYPE_ANNOTATION|; }
    assert (o.annotations + b.expected.annotations)[NAME_ANNOTATION] == b.expected.annotations[NAME_ANNOTATION];
    assert (o.annotations + b.expected.annotations)[TYPE_ANNOTATION] == b.expected.annotations[TYPE_ANNOTATION];
  }

  /** Planned, and not in its own way. */
  ghost predicate Attainable(st: State, crons: seq<Cron>, key: Key) {
    exists c <- crons :: c.key == key && !Obstructed(st, c)
  }

  /**
   Two quiet passes with the same crons end with the owned live crons being exactly the planned ones
   that were not obstructed at the start, whatever the cache believed about them.
   */
  lemma OwnedCronsAreExactAfterTwoPasses(st: State, first: Work, second: Work, owner: Owner, app: StringMap, key: Key)
    requires Consistent(st.server) && WellFormedWork(st.server, first, owner, app)
    requires WellFormedWork(After(st, first, owner, app).server, second, owner, app)
    requires forall c :: c in first.crons <==> c in second.crons
    requires forall c <- first.crons :: RealEntry(st.cache, CronBuilder(c, owner, app))
    ensures var after := After(After(st, first, owner, app), second, owner, app).server;
            key in OwnedCrons(after, owner) && Live(after, key) <==> Attainable(st, first.crons, key)
  {
    var mid := After(st, first, owner, app);
    var after := After(mid, second, owner, app);
    ExecuteAllKeepsConsistent(st, Todos(first, owner, app));
    if Attainable(st, first.crons, key) {
      var c :| c in first.crons && c.key == key && !Obstructed(st, c);
      CronUpheldInTwoPasses(st, mid, first, second, owner, app, c);
      UpheldCronIsOwned(after, c, owner, app);
    } else if key in OwnedCrons(after.server, owner) && Live(after.server, key) {
      OwnedCronsArePlanned(mid, second, owner, app, key);
      var c :| c in second.crons && c.key == key;
      ObstructedAfterPass(st, first, owner, app, c);
      ObstructedAfterPass(mid, second, owner, app, c);
    }
  }
}

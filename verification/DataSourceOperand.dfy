/**
 The data-sources operand as a list of things to do: hand DataSources over or take them
 back, create crons, and drop what is owned but no longer planned.
 */
module DataSourceOperand {
  import opened Kube
  import opened ApiServer
  import opened UpdateFuncs
  import opened Engine
  import opened Convergence
  import opened DataSourcePlan

  const NAME_ANNOTATION := "operator-sdk/primary-resource"
  const TYPE_ANNOTATION := "operator-sdk/primary-resource-type"
  const SSP_TYPE := "SSP.ssp.kubevirt.io"

  datatype Owner = Owner(namespace: string, name: string)

  function OwnerName(owner: Owner): string {
    owner.namespace + "/" + owner.name
  }

  function OwnerAnnotations(owner: Owner): StringMap {
    map[NAME_ANNOTATION := OwnerName(owner), TYPE_ANNOTATION := SSP_TYPE]
  }

  predicate OwnedBy(o: Object, owner: Owner) {
    && Lookup(o.annotations, TYPE_ANNOTATION) == Some(SSP_TYPE)
    && Lookup(o.annotations, NAME_ANNOTATION) == Some(OwnerName(owner))
  }

  /** No two SSP objects own the same object: the annotation tells namespaces and names apart. */
  lemma OwnersAreToldApart(o: Object, owner: Owner, other: Owner)
    requires OwnedBy(o, owner) && OwnedBy(o, other) && '/' !in owner.namespace && '/' !in other.namespace
    ensures owner == other
  {
    var name := OwnerName(owner);
    assert name[|owner.namespace|] == '/' && name[|other.namespace|] == '/';
    assert forall i :: 0 <= i < |owner.namespace| ==> name[i] == owner.namespace[i];
    assert forall i :: 0 <= i < |other.namespace| ==> name[i] == other.namespace[i];
    assert owner.namespace == name[..|owner.namespace|] && owner.name == name[|owner.namespace| + 1..];
    assert other.namespace == name[..|other.namespace|] && other.name == name[|other.namespace| + 1..];
  }

  /** Cluster resources carry their owner in annotations. */
  function WithOwner(o: Object, owner: Owner): Object {
    o.(ownerRefs := [], annotations := o.annotations + OwnerAnnotations(owner))
  }

  function SourceBuilder(info: Info, owner: Owner, app: StringMap): Builder {
    Builder(WithOwner(info.source, owner), HandOver(info.auto, info.cronName, app), false, true)
  }

  function CronBuilder(cron: Cron, owner: Owner, app: StringMap): Builder {
    Builder(WithOwner(cron.(labels := cron.labels + app), owner), Copy({}), true, false)
  }

  datatype Todo = Run(b: Builder) | Drop(key: Key)

  function TodoKey(t: Todo): Key {
    match t
    case Run(b) => b.expected.key
    case Drop(key) => key
  }

  datatype State = State(server: Server, cache: Cache)

  function Execute(st: State, t: Todo): State {
    match t
    case Run(b) => var step := Quiet(st.server, st.cache, b); State(step.server, step.cache)
    case Drop(key) => State(Delete(st.server, key).server, st.cache)
  }

  function ExecuteAll(st: State, todos: seq<Todo>): State {
    if todos == [] then st
    else
      var n := |todos| - 1;
      Execute(ExecuteAll(st, todos[..n]), todos[n])
  }

  /** All that a later item can see of a key. */
  function ViewAt(st: State, key: Key): (Option<Object>, Option<CacheEntry>) {
    (Lookup(st.server.objects, key), Lookup(st.cache, CacheKeyFor(key)))
  }

  lemma SameBesides<K, V>(m: map<K, V>, m': map<K, V>, k: K, key: K)
    requires m - {k} == m' - {k} && k != key
    ensures Lookup(m, key) == Lookup(m', key)
  {
    assert key in m <==> key in m - {k};
    assert key in m' <==> key in m' - {k};
    assert key in m ==> m[key] == (m - {k})[key];
    assert key in m' ==> m'[key] == (m' - {k})[key];
  }

  lemma ExecuteKeepsConsistent(st: State, t: Todo)
    requires Consistent(st.server)
    ensures Consistent(Execute(st, t).server)
  {
    match t
    case Run(b) => ReconcileKeepsConsistent(st.server, st.cache, b, Lookup(st.server.objects, b.expected.key), NoFault);
    case Drop(key) => DeleteKeepsConsistent(st.server, key);
  }

  lemma CacheTouchesOneKey(s: Server, c: Cache, b: Builder)
    requires Consistent(s)
    ensures Quiet(s, c, b).cache - {CacheKeyOf(b.expected)} == c - {CacheKeyOf(b.expected)}
  {
    var seen := Lookup(s.objects, b.expected.key);
    if seen.Some? { assert Newest(s, b.expected.key); }
    CacheEffect(s, c, b, seen, NoFault);
  }

  lemma ExecuteLeavesOthers(st: State, t: Todo, key: Key)
    requires Consistent(st.server) && CacheKeyFor(TodoKey(t)) != CacheKeyFor(key)
    ensures ViewAt(Execute(st, t), key) == ViewAt(st, key)
  {
    var after := Execute(st, t);
    match t
    case Run(b) =>
      var seen := Lookup(st.server.objects, b.expected.key);
      if seen.Some? { assert Newest(st.server, b.expected.key); }
      OtherKeysUntouched(st.server, st.cache, b, seen, NoFault);
      CacheTouchesOneKey(st.server, st.cache, b);
      SameBesides(after.server.objects, st.server.objects, b.expected.key, key);
      SameBesides(after.cache, st.cache, CacheKeyOf(b.expected), CacheKeyFor(key));
    case Drop(k) =>
      WriteTouchesOneKey(st.server, DeleteOp(k));
      SameBesides(after.server.objects, st.server.objects, k, key);
  }

  lemma {:induction false} ExecuteAllKeepsConsistent(st: State, todos: seq<Todo>)
    requires Consistent(st.server)
    ensures Consistent(ExecuteAll(st, todos).server)
  {
    if todos != [] {
      var n := |todos| - 1;
      ExecuteAllKeepsConsistent(st, todos[..n]);
      ExecuteKeepsConsistent(ExecuteAll(st, todos[..n]), todos[n]);
    }
  }

  /** A key that nothing is to be done for keeps its object. */
  lemma {:induction false} UntouchedKey(st: State, todos: seq<Todo>, key: Key)
    requires Consistent(st.server)
    requires forall t <- todos :: CacheKeyFor(TodoKey(t)) != CacheKeyFor(key)
    ensures ViewAt(ExecuteAll(st, todos), key) == ViewAt(st, key)
  {
    if todos != [] {
      var n := |todos| - 1;
      UntouchedKey(st, todos[..n], key);
      ExecuteAllKeepsConsistent(st, todos[..n]);
      ExecuteLeavesOthers(ExecuteAll(st, todos[..n]), todos[n], key);
    }
  }

  /** Some state in which a list item is executed, with its own object still as it was at the start. */
  ghost predicate ExecutedIn(st: State, todos: seq<Todo>, i: nat, mid: State)
    requires i < |todos|
  {
    var key := TodoKey(todos[i]);
    && Consistent(mid.server)
    && ViewAt(mid, key) == ViewAt(st, key)
    && ViewAt(ExecuteAll(st, todos), key) == ViewAt(Execute(mid, todos[i]), key)
  }

  lemma LaterItemsDoNotMatter(st: State, todos: seq<Todo>, i: nat, mid: State)
    requires Consistent(st.server) && i < |todos| - 1
    requires ExecutedIn(st, todos[..|todos| - 1], i, mid)
    requires CacheKeyFor(TodoKey(todos[|todos| - 1])) != CacheKeyFor(TodoKey(todos[i]))
    ensures ExecutedIn(st, todos, i, mid)
  {
    var n := |todos| - 1;
    ExecuteAllKeepsConsistent(st, todos[..n]);
    ExecuteLeavesOthers(ExecuteAll(st, todos[..n]), todos[n], TodoKey(todos[i]));
  }

  /** If only one item concerns a key, that item decides what happens to its object. */
  lemma {:induction false} OneItemDecides(st: State, todos: seq<Todo>, i: nat)
    requires Consistent(st.server) && i < |todos|
    requires forall j :: 0 <= j < |todos| && j != i ==> CacheKeyFor(TodoKey(todos[j])) != CacheKeyFor(TodoKey(todos[i]))
    ensures exists mid :: ExecutedIn(st, todos, i, mid)
  {
    var n := |todos| - 1;
    var key := TodoKey(todos[i]);
    var before := ExecuteAll(st, todos[..n]);
    ExecuteAllKeepsConsistent(st, todos[..n]);
    if i == n {
      UntouchedKey(st, todos[..n], key);
      assert ExecutedIn(st, todos, i, before);
    } else {
      OneItemDecides(st, todos[..n], i);
      var mid :| ExecutedIn(st, todos[..n], i, mid);
      LaterItemsDoNotMatter(st, todos, i, mid);
    }
  }

  /** What a pass makes of a DataSource: labelled and otherwise left alone, or taken back. */
  ghost predicate HandledBy(info: Info, before: Option<Object>, after: Option<Object>) {
    && after.Some?
    && (if before.Some? && before.value.terminating then after == before
        else
          && !after.value.terminating
          && (CRON_LABEL in after.value.labels <==> info.auto)
          && (info.auto ==> after.value.labels[CRON_LABEL] == info.cronName)
          && after.value.spec == (if !info.auto then info.source.spec
                                  else if before.Some? then before.value.spec
                                  else DataSourceSpec(NoSource))
          && after.value.conditions == (if before.Some? then before.value.conditions else map[]))
  }

  predicate SourceInfo(info: Info, app: StringMap) {
    && info.source.key.kind == DATA_SOURCE
    && info.source.spec.DataSourceSpec?
    && !info.source.terminating
    && CRON_LABEL !in info.source.labels
    && CRON_LABEL !in app
  }

  lemma HandOverCreates(s: Server, c: Cache, info: Info, owner: Owner, app: StringMap)
    requires Consistent(s) && SourceInfo(info, app) && info.source.key !in s.objects
    ensures var after := Lookup(Quiet(s, c, SourceBuilder(info, owner, app)).server.objects, info.source.key);
            HandledBy(info, None, after) && OwnedBy(after.value, owner)
  {
    var b := SourceBuilder(info, owner, app);
    FreshCreate(s, Reworked(b.update, b.expected, Blank(b.expected)));
  }

  /** A pass whose update function always runs leaves what that function makes of the object. */
  lemma AlwaysPass(s: Server, c: Cache, b: Builder)
    requires Consistent(s) && b.always && !b.immutableSpec
    requires b.expected.key in s.objects && !s.objects[b.expected.key].terminating
    ensures var after := Lookup(Quiet(s, c, b).server.objects, b.expected.key);
            && after.Some?
            && var f := after.value;
               var made := Stored(Reworked(b.update, b.expected, s.objects[b.expected.key]));
               f == made.(version := f.version, generation := f.generation)
  {
    var o := s.objects[b.expected.key];
    assert Newest(s, o.key) && WellFormed(s, o);
    var found := Reworked(b.update, b.expected, o);
    if found != o { FreshUpdate(s, o, found); }
  }

  lemma HandledShape(info: Info, owner: Owner, app: StringMap, o: Object, f: Object)
    requires SourceInfo(info, app) && o.key == info.source.key && !o.terminating
    requires var b := SourceBuilder(info, owner, app);
             f == Stored(Reworked(b.update, b.expected, o)).(version := f.version, generation := f.generation)
    ensures HandledBy(info, Some(o), Some(f)) && OwnedBy(f, owner)
  {
    var b := SourceBuilder(info, owner, app);
    NoDefaultsNoChange(Reworked(b.update, b.expected, o));
  }

  lemma HandOverUpdates(s: Server, c: Cache, info: Info, owner: Owner, app: StringMap)
    requires Consistent(s) && SourceInfo(info, app) && info.source.key in s.objects
    ensures var before := s.objects[info.source.key];
            var after := Lookup(Quiet(s, c, SourceBuilder(info, owner, app)).server.objects, info.source.key);
            && HandledBy(info, Some(before), after)
            && (!before.terminating ==> OwnedBy(after.value, owner))
  {
    var b := SourceBuilder(info, owner, app);
    var o := s.objects[info.source.key];
    assert Newest(s, o.key);
    if o.terminating {
      TerminatingIsLeftAlone(s, c, b, o, NoFault);
    } else {
      AlwaysPass(s, c, b);
      HandledShape(info, owner, app, o, Quiet(s, c, b).server.objects[o.key]);
    }
  }

  lemma HandOverHandles(s: Server, c: Cache, info: Info, owner: Owner, app: StringMap)
    requires Consistent(s) && SourceInfo(info, app)
    ensures var before := Lookup(s.objects, info.source.key);
            var after := Lookup(Quiet(s, c, SourceBuilder(info, owner, app)).server.objects, info.source.key);
            && HandledBy(info, before, after)
            && (!(before.Some? && before.value.terminating) ==> OwnedBy(after.value, owner))
  {
    if info.source.key in s.objects { HandOverUpdates(s, c, info, owner, app); }
    else { HandOverCreates(s, c, info, owner, app); }
  }

  lemma ReworkedIsLabelled(info: Info, owner: Owner, app: StringMap, o: Object, k: string)
    requires CRON_LABEL !in app && !info.auto && k in app
    ensures var b := SourceBuilder(info, owner, app);
            Lookup(Reworked(b.update, b.expected, o).labels, k) == Some(app[k])
  {
  }

  /** A DataSource that the operator takes back carries the labels of the application. */
  lemma TakenBackIsLabelled(s: Server, c: Cache, info: Info, owner: Owner, app: StringMap, k: string)
    requires Consistent(s) && SourceInfo(info, app) && !info.auto && k in app
    requires info.source.key in s.objects ==> !s.objects[info.source.key].terminating
    ensures var after := Lookup(Quiet(s, c, SourceBuilder(info, owner, app)).server.objects, info.source.key);
            after.Some? && Lookup(after.value.labels, k) == Some(app[k])
  {
    var b := SourceBuilder(info, owner, app);
    if info.source.key in s.objects {
      var o := s.objects[info.source.key];
      assert Newest(s, o.key);
      ReworkedIsLabelled(info, owner, app, o, k);
      AlwaysPass(s, c, b);
    } else {
      ReworkedIsLabelled(info, owner, app, Blank(b.expected), k);
      CreatedSource(s, c, info, owner, app);
    }
  }

  lemma CreatedSource(s: Server, c: Cache, info: Info, owner: Owner, app: StringMap)
    requires info.source.key !in s.objects && !info.source.terminating
    ensures var b := SourceBuilder(info, owner, app);
            var after := Lookup(Quiet(s, c, b).server.objects, info.source.key);
            after.Some? && after.value.labels == Reworked(b.update, b.expected, Blank(b.expected)).labels
  {
    var b := SourceBuilder(info, owner, app);
    FreshCreate(s, Reworked(b.update, b.expected, Blank(b.expected)));
  }
}

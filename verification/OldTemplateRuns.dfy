/** What passes over old templates do to the cluster. */
module OldTemplateRuns {
  import opened Kube
  import opened Sequences
  import opened ApiServer
  import opened UpdateFuncs
  import opened Engine
  import opened Convergence
  import opened Architecture
  import opened Bundle
  import opened DataSourceOperand
  import opened Semver
  import opened OldTemplates

  // ----- one template

  function DeprecateBuilder(t: Object, owner: Owner, app: StringMap): Builder {
    Builder(WithOwner(t.(labels := t.labels + app), owner), Deprecate, false, false)
  }

  function MarkedLabels(labels: StringMap, app: StringMap): StringMap {
    WithoutSelectors(labels + app)[DEPRECATED := "true"]
  }

  function MarkedAnnotations(annotations: StringMap, owner: Owner): StringMap {
    (annotations + OwnerAnnotations(owner))[DEPRECATED := "true"]
  }

  /** The template as deprecation leaves it: labelled, owned, without the labels that offer it to users. */
  function Marked(o: Object, owner: Owner, app: StringMap): Object {
    o.(ownerRefs := [], labels := MarkedLabels(o.labels, app), annotations := MarkedAnnotations(o.annotations, owner))
  }

  predicate IsDeprecated(o: Object) {
    && (forall k <- o.labels :: !IsSelectorLabel(k))
    && Lookup(o.labels, DEPRECATED) == Some("true")
    && Lookup(o.annotations, DEPRECATED) == Some("true")
  }

  /** The labels of the app are none of the template's own. */
  predicate PlainApp(app: StringMap) {
    forall k <- app :: !IsSelectorLabel(k) && k != DEPRECATED && k != ARCH_LABEL && k != VERSION_LABEL
  }

  lemma StartsWithA(k: string)
    requires |k| > 0 && k[0] == 'a'
    ensures !IsSelectorLabel(k) && k != DEPRECATED && k != ARCH_LABEL && k != VERSION_LABEL
  {
    assert OS_PREFIX[0] == 'o' && FLAVOR_PREFIX[0] == 'f' && WORKLOAD_PREFIX[0] == 'w';
    assert DEPRECATED[0] == 't' && ARCH_LABEL[0] == 't' && VERSION_LABEL[0] == 't';
  }

  function TemplateLabels(sspLabels: StringMap): StringMap {
    AppLabels(sspLabels, "common-templates", "templating")
  }

  lemma TemplateLabelsArePlain(sspLabels: StringMap)
    ensures PlainApp(TemplateLabels(sspLabels))
  {
    assert forall k <- APP_LABELS :: k[0] == 'a';
    forall k <- TemplateLabels(sspLabels)
      ensures !IsSelectorLabel(k) && k != DEPRECATED && k != ARCH_LABEL && k != VERSION_LABEL
    {
      StartsWithA(k);
    }
  }

  /** Labels of the template domain itself are no selectors. */
  lemma OwnLabelsStay()
    ensures !IsSelectorLabel(DEPRECATED) && !IsSelectorLabel(ARCH_LABEL) && !IsSelectorLabel(VERSION_LABEL)
    ensures DEPRECATED != ARCH_LABEL && DEPRECATED != VERSION_LABEL
    ensures DEPRECATED != NAME_ANNOTATION && DEPRECATED != TYPE_ANNOTATION
  {
    assert OS_PREFIX[0] == 'o' && FLAVOR_PREFIX[0] == 'f' && WORKLOAD_PREFIX[0] == 'w';
    assert DEPRECATED[0] == 't' && ARCH_LABEL[0] == 't' && VERSION_LABEL[0] == 't';
    assert |DEPRECATED| != |ARCH_LABEL| && |DEPRECATED| != |VERSION_LABEL|;
    assert NAME_ANNOTATION[0] == 'o' && TYPE_ANNOTATION[0] == 'o';
  }

  lemma LabelsStayMarked(labels: StringMap, app: StringMap)
    requires PlainApp(app)
    ensures var l := MarkedLabels(labels, app); l + app == l && MarkedLabels(l, app) == l
  {
    var l := MarkedLabels(labels, app);
    OwnLabelsStay();
    assert forall k <- app :: k in l && l[k] == app[k];
    Absorbs(l, app);
    assert WithoutSelectors(l) == l;
    assert l[DEPRECATED := "true"] == l;
  }

  lemma AnnotationsStayMarked(annotations: StringMap, owner: Owner)
    ensures var m := MarkedAnnotations(annotations, owner);
            m + OwnerAnnotations(owner) == m && MarkedAnnotations(m, owner) == m
  {
    var m := MarkedAnnotations(annotations, owner);
    OwnLabelsStay();
    Absorbs(m, OwnerAnnotations(owner));
    assert m[DEPRECATED := "true"] == m;
  }

  lemma MarkingIsIdempotent(o: Object, owner: Owner, app: StringMap)
    requires PlainApp(app)
    ensures Marked(Marked(o, owner, app), owner, app) == Marked(o, owner, app)
  {
    LabelsStayMarked(o.labels, app);
    AnnotationsStayMarked(o.annotations, owner);
  }

  lemma TwiceIsOnce(m: StringMap, n: StringMap)
    ensures m + (m + n) == m + n
  {
  }

  /** What only merging leaves: owned and with the app's labels, but offered as before. */
  function Merged(o: Object, owner: Owner, app: StringMap): Object {
    o.(ownerRefs := [], labels := o.labels + app, annotations := o.annotations + OwnerAnnotations(owner))
  }

  /** A template that the cache recognises is only merged. */
  function Reprocessed(c: Cache, o: Object, owner: Owner, app: StringMap): Object {
    if Contains(c, o) then Merged(o, owner, app) else Marked(o, owner, app)
  }

  /** What the reconcile engine makes of a template that is to be deprecated. */
  lemma MutationReprocesses(c: Cache, o: Object, owner: Owner, app: StringMap)
    requires !o.terminating
    ensures Mutate(DeprecateBuilder(o, owner, app), c, o) == Reprocessed(c, o, owner, app)
  {
    TwiceIsOnce(o.labels, app);
    TwiceIsOnce(o.annotations, OwnerAnnotations(owner));
  }

  lemma MergedIsDeprecatedIff(o: Object, owner: Owner, app: StringMap)
    requires PlainApp(app)
    ensures IsDeprecated(Merged(o, owner, app)) <==> IsDeprecated(o)
  {
    OwnLabelsStay();
    forall k <- o.labels ensures k in o.labels + app {}
  }

  lemma MarkedIsDeprecated(o: Object, owner: Owner, app: StringMap)
    ensures IsDeprecated(Marked(o, owner, app))
  {
    OwnLabelsStay();
  }

  /** The template ends up deprecated exactly if the cache does not vouch for one that is not. */
  lemma ReprocessedIsDeprecatedIff(c: Cache, o: Object, owner: Owner, app: StringMap)
    requires PlainApp(app)
    ensures IsDeprecated(Reprocessed(c, o, owner, app)) <==> !Contains(c, o) || IsDeprecated(o)
  {
    MergedIsDeprecatedIff(o, owner, app);
    MarkedIsDeprecated(o, owner, app);
  }

  lemma MergingIsIdempotent(o: Object, owner: Owner, app: StringMap)
    ensures Merged(Merged(o, owner, app), owner, app) == Merged(o, owner, app)
  {
    Absorbs(o.labels + app, app);
    Absorbs(o.annotations + OwnerAnnotations(owner), OwnerAnnotations(owner));
  }

  lemma MarkedIsMerged(o: Object, owner: Owner, app: StringMap)
    requires PlainApp(app) && Marked(o, owner, app) == o
    ensures Merged(o, owner, app) == o
  {
    LabelsStayMarked(o.labels, app);
    AnnotationsStayMarked(o.annotations, owner);
  }

  /** What one pass over the template leaves in the cluster and in the cache. */
  lemma DeprecationStep(s: Server, c: Cache, o: Object, owner: Owner, app: StringMap)
    requires Consistent(s) && o.key in s.objects && s.objects[o.key] == o && o.key.kind == TEMPLATE && !o.terminating
    ensures var step := Quiet(s, c, DeprecateBuilder(o, owner, app));
            && o.key in step.server.objects
            && var f := step.server.objects[o.key];
               && f == Reprocessed(c, o, owner, app).(version := f.version, generation := f.generation)
               && Contains(step.cache, f)
  {
    var b := DeprecateBuilder(o, owner, app);
    MutationReprocesses(c, o, owner, app);
    NoDefaultsNoChange(Reprocessed(c, o, owner, app));
    assert Newest(s, o.key);
    SucceedsUnlessImmutable(s, c, b, o);
    QuietStores(s, c, b);
    QuietRecords(s, c, b);
  }

  /** Nothing is left to do for the template. */
  ghost predicate Resting(c: Cache, o: Object, owner: Owner, app: StringMap) {
    Merged(o, owner, app) == o && (Contains(c, o) || Marked(o, owner, app) == o)
  }

  lemma RestingRests(s: Server, c: Cache, o: Object, owner: Owner, app: StringMap)
    requires o.key in s.objects && s.objects[o.key] == o && !o.terminating && Resting(c, o, owner, app)
    ensures Quiet(s, c, DeprecateBuilder(o, owner, app)).server == s
  {
    MutationReprocesses(c, o, owner, app);
  }

  lemma StampedIsSame(o: Object, f: Object, owner: Owner, app: StringMap)
    requires f == o.(version := f.version, generation := f.generation)
    ensures Merged(o, owner, app) == o ==> Merged(f, owner, app) == f
    ensures Marked(o, owner, app) == o ==> Marked(f, owner, app) == f
    ensures IsDeprecated(f) <==> IsDeprecated(o)
  {
  }

  /** What a pass leaves is at rest. */
  lemma ReprocessedRests(c: Cache, c': Cache, o: Object, f: Object, owner: Owner, app: StringMap)
    requires PlainApp(app) && Contains(c', f)
    requires f == Reprocessed(c, o, owner, app).(version := f.version, generation := f.generation)
    ensures Resting(c', f, owner, app)
  {
    var p := Reprocessed(c, o, owner, app);
    StampedIsSame(p, f, owner, app);
    if Contains(c, o) {
      MergingIsIdempotent(o, owner, app);
    } else {
      MarkingIsIdempotent(o, owner, app);
      MarkedIsMerged(p, owner, app);
    }
  }

  // ----- a pass

  predicate OldSelected(o: Object) {
    Lookup(o.labels, TYPE_LABEL) == Some(BASE) && Lookup(o.labels, VERSION_LABEL) != Some(SHIPPED)
  }

  /** What one pass works with. */
  datatype Work = Work(
    namespace: string,
    old_: seq<Template>,
    owned: seq<Template>,
    deployed: seq<Template>,
    archs: seq<Arch>,
    latest: Version,
    actions: seq<Action>)

  ghost predicate Lists(ts: seq<Template>, s: Server, namespace: string, selected: Object -> bool) {
    forall t: Template :: t in ts <==>
      t.key in s.objects && s.objects[t.key] == t && t.key.kind == TEMPLATE && t.key.namespace == namespace
        && selected(t)
  }

  /** Every stored template decodes as one. */
  ghost predicate Typed(s: Server) {
    forall key <- s.objects :: s.objects[key].key == key && (key.kind == TEMPLATE ==> s.objects[key].spec.TemplateSpec?)
  }

  ghost predicate WellFormedWork(s: Server, w: Work, owner: Owner, parse: Parser) {
    && Lists(w.old_, s, w.namespace, OldSelected)
    && Lists(w.owned, s, w.namespace, (o: Object) => OwnedBy(o, owner))
    && Covers(w.actions, NonDeployed(w.old_, w.owned, w.deployed), w.archs, parse, w.latest)
  }

  /** Old or owned, and not deployed. */
  predicate Concerned(s: Server, w: Work, owner: Owner, key: Key) {
    && key in s.objects
    && key.kind == TEMPLATE
    && key.namespace == w.namespace
    && (OldSelected(s.objects[key]) || OwnedBy(s.objects[key], owner))
    && key.name !in NamesIn(w.deployed)
  }

  lemma ListedTemplate(s: Server, ts: seq<Template>, namespace: string, selected: Object -> bool, name: string)
    requires Lists(ts, s, namespace, selected) && Typed(s)
    ensures var key := Key(TEMPLATE, namespace, name);
            name in Indexed(ts) <==> key in s.objects && selected(s.objects[key])
    ensures name in Indexed(ts) ==> Indexed(ts)[name] == s.objects[Key(TEMPLATE, namespace, name)]
  {
    IndexedByName(ts);
    var key := Key(TEMPLATE, namespace, name);
    if name in Indexed(ts) { assert Indexed(ts)[name] in ts; }
    if key in s.objects && selected(s.objects[key]) {
      var t: Template := s.objects[key];
      assert t in ts;
    }
  }

  lemma MapIsExact(s: Server, w: Work, owner: Owner, parse: Parser, name: string)
    requires WellFormedWork(s, w, owner, parse) && Typed(s)
    ensures var m := NonDeployed(w.old_, w.owned, w.deployed);
            var key := Key(TEMPLATE, w.namespace, name);
            && (name in m <==> Concerned(s, w, owner, key))
            && (name in m ==> m[name] == s.objects[key])
  {
    ListedTemplate(s, w.old_, w.namespace, OldSelected, name);
    ListedTemplate(s, w.owned, w.namespace, (o: Object) => OwnedBy(o, owner), name);
  }

  /** Every action belongs to a stored template that calls for it. */
  lemma ActionsAreExact(s: Server, w: Work, owner: Owner, parse: Parser, a: Action)
    requires WellFormedWork(s, w, owner, parse) && Typed(s)
    ensures a in w.actions <==>
              && Concerned(s, w, owner, a.t.key)
              && s.objects[a.t.key] == a.t
              && ActionFor(a.t, w.archs, parse, w.latest) == Some(a)
  {
    MapIsExact(s, w, owner, parse, a.t.key.name);
    if a in w.actions {
      var m := NonDeployed(w.old_, w.owned, w.deployed);
      assert m[a.t.key.name] == s.objects[Key(TEMPLATE, w.namespace, a.t.key.name)];
    }
  }

  function TodoFor(a: Action, owner: Owner, app: StringMap): Todo {
    match a
    case DeleteTemplate(t) => Drop(t.key)
    case DeprecateTemplate(t) => Run(DeprecateBuilder(t, owner, app))
  }

  function Todos(actions: seq<Action>, owner: Owner, app: StringMap): seq<Todo> {
    seq(|actions|, i requires 0 <= i < |actions| => TodoFor(actions[i], owner, app))
  }

  function After(st: State, w: Work, owner: Owner, app: StringMap): State {
    ExecuteAll(st, Todos(w.actions, owner, app))
  }

  lemma TodosAreApart(s: Server, w: Work, owner: Owner, app: StringMap, parse: Parser, i: nat, j: nat)
    requires WellFormedWork(s, w, owner, parse) && Typed(s) && i < |w.actions| && j < |w.actions| && i != j
    ensures var todos := Todos(w.actions, owner, app);
            CacheKeyFor(TodoKey(todos[i])) != CacheKeyFor(TodoKey(todos[j]))
  {
    assert NameOf()(w.actions[i]) != NameOf()(w.actions[j]);
  }

  /** The state in which an action is carried out shows its template as it was at the start. */
  lemma ActionDecides(st: State, w: Work, owner: Owner, app: StringMap, parse: Parser, i: nat) returns (mid: State)
    requires Consistent(st.server) && Typed(st.server) && WellFormedWork(st.server, w, owner, parse) && i < |w.actions|
    ensures ExecutedIn(st, Todos(w.actions, owner, app), i, mid)
  {
    var todos := Todos(w.actions, owner, app);
    forall j | 0 <= j < |todos| && j != i ensures CacheKeyFor(TodoKey(todos[j])) != CacheKeyFor(TodoKey(todos[i])) {
      TodosAreApart(st.server, w, owner, app, parse, i, j);
    }
    OneItemDecides(st, todos, i);
    mid :| ExecutedIn(st, todos, i, mid);
  }

  /** Gone, or waiting for its finalizers. */
  ghost predicate Dropped(before: Object, after: Option<Object>) {
    if before.finalizers == {} then after.None?
    else after.Some? && after.value == Condemned(before).(version := after.value.version)
  }

  /** Marked, or only merged if the cache recognised it. */
  ghost predicate ProcessedTo(c: Cache, before: Object, after: Option<Object>, owner: Owner, app: StringMap) {
    && after.Some?
    && after.value ==
       Reprocessed(c, before, owner, app).(version := after.value.version, generation := after.value.generation)
  }

  lemma ActionResult(st: State, w: Work, owner: Owner, app: StringMap, parse: Parser, a: Action)
    requires Consistent(st.server) && Typed(st.server) && WellFormedWork(st.server, w, owner, parse)
    requires a in w.actions && !a.t.terminating
    ensures var after := After(st, w, owner, app);
            var f := Lookup(after.server.objects, a.t.key);
            if a.DeleteTemplate? then Dropped(a.t, f)
            else ProcessedTo(st.cache, a.t, f, owner, app) && Contains(after.cache, f.value)
  {
    var i :| 0 <= i < |w.actions| && w.actions[i] == a;
    ActionsAreExact(st.server, w, owner, parse, a);
    var todos := Todos(w.actions, owner, app);
    var mid := ActionDecides(st, w, owner, app, parse, i);
    assert todos[i] == TodoFor(a, owner, app) && TodoKey(todos[i]) == a.t.key;
    assert ViewAt(mid, a.t.key) == ViewAt(st, a.t.key);
    assert Lookup(mid.server.objects, a.t.key) == Some(a.t);
    if a.DeprecateTemplate? {
      SameHit(st, mid, a.t);
      DeprecationStep(mid.server, mid.cache, a.t, owner, app);
      var done := Execute(mid, todos[i]);
      var after := After(st, w, owner, app);
      assert ViewAt(after, a.t.key) == ViewAt(done, a.t.key);
      assert done.server.objects[a.t.key].key == a.t.key;
      SameHit(done, after, done.server.objects[a.t.key]);
    }
  }

  lemma SameHit(st: State, mid: State, o: Object)
    requires ViewAt(mid, o.key) == ViewAt(st, o.key)
    ensures Contains(mid.cache, o) <==> Contains(st.cache, o)
  {
    assert Lookup(mid.cache, CacheKeyFor(o.key)) == Lookup(st.cache, CacheKeyFor(o.key));
  }

  /** Nothing is done for a template without an action. */
  lemma NoActionNoChange(st: State, w: Work, owner: Owner, app: StringMap, parse: Parser, key: Key)
    requires Consistent(st.server) && Typed(st.server) && WellFormedWork(st.server, w, owner, parse)
    requires key.kind.name == TEMPLATE.name ==> key.kind == TEMPLATE
    requires forall a <- w.actions :: a.t.key != key
    ensures Lookup(After(st, w, owner, app).server.objects, key) == Lookup(st.server.objects, key)
  {
    var todos := Todos(w.actions, owner, app);
    forall t <- todos ensures CacheKeyFor(TodoKey(t)) != CacheKeyFor(key) {
      var i :| 0 <= i < |todos| && todos[i] == t;
      assert w.actions[i] in w.actions;
      ActionsAreExact(st.server, w, owner, parse, w.actions[i]);
    }
    UntouchedKey(st, todos, key);
    assert ViewAt(After(st, w, owner, app), key) == ViewAt(st, key);
  }

  /** What a pass does to one object, by the fate of the template. */
  ghost predicate Outcome(st: State, after: State, w: Work, owner: Owner, app: StringMap, parse: Parser, key: Key) {
    var before, f := Lookup(st.server.objects, key), Lookup(after.server.objects, key);
    if !Concerned(st.server, w, owner, key) then f == before
    else match FateOf(before.value, w.archs, parse, w.latest)
         case Leaving => f == before
         case UpToDate => f == before
         case Unsupported => Dropped(before.value, f)
         case Outdated => ProcessedTo(st.cache, before.value, f, owner, app)
  }

  /**
   Every old or owned template that is not deployed and not leaving has exactly one outcome,
   and everything else, deployed templates first of all, stays as it is. No assumption is made
   about the cache.
   */
  lemma PassPartitionsTemplates(st: State, w: Work, owner: Owner, app: StringMap, parse: Parser, key: Key)
    requires Consistent(st.server) && Typed(st.server) && WellFormedWork(st.server, w, owner, parse)
    requires key.kind.name == TEMPLATE.name ==> key.kind == TEMPLATE
    ensures Outcome(st, After(st, w, owner, app), w, owner, app, parse, key)
  {
    if Concerned(st.server, w, owner, key) && ActionFor(st.server.objects[key], w.archs, parse, w.latest).Some? {
      var a := ActionFor(st.server.objects[key], w.archs, parse, w.latest).value;
      ActionsAreExact(st.server, w, owner, parse, a);
      ActionResult(st, w, owner, app, parse, a);
    } else {
      NoActionForKey(st.server, w, owner, parse, key);
      NoActionNoChange(st, w, owner, app, parse, key);
    }
  }

  lemma NoActionForKey(s: Server, w: Work, owner: Owner, parse: Parser, key: Key)
    requires Typed(s) && WellFormedWork(s, w, owner, parse)
    requires Concerned(s, w, owner, key) ==> ActionFor(s.objects[key], w.archs, parse, w.latest).None?
    ensures forall a <- w.actions :: a.t.key != key
  {
    forall a <- w.actions ensures a.t.key != key { ActionsAreExact(s, w, owner, parse, a); }
  }

  /** An outdated template is deprecated after the pass exactly if the cache did not vouch for it as it was. */
  lemma PassDeprecatesIff(st: State, w: Work, owner: Owner, app: StringMap, parse: Parser, key: Key)
    requires Consistent(st.server) && Typed(st.server) && WellFormedWork(st.server, w, owner, parse) && PlainApp(app)
    requires Concerned(st.server, w, owner, key) && FateOf(st.server.objects[key], w.archs, parse, w.latest).Outdated?
    ensures key in After(st, w, owner, app).server.objects
    ensures IsDeprecated(After(st, w, owner, app).server.objects[key]) <==>
              !Contains(st.cache, st.server.objects[key]) || IsDeprecated(st.server.objects[key])
  {
    PassPartitionsTemplates(st, w, owner, app, parse, key);
    var o, f := st.server.objects[key], After(st, w, owner, app).server.objects[key];
    ReprocessedIsDeprecatedIff(st.cache, o, owner, app);
    StampedIsSame(Reprocessed(st.cache, o, owner, app), f, owner, app);
  }

  // ----- the next pass

  lemma ProcessingKeepsFate(
    c: Cache, o: Object, f: Object, owner: Owner, app: StringMap, archs: seq<Arch>, parse: Parser, latest: Version)
    requires PlainApp(app) && f == Reprocessed(c, o, owner, app).(version := f.version, generation := f.generation)
    ensures FateOf(f, archs, parse, latest) == FateOf(o, archs, parse, latest)
  {
    OwnLabelsStay();
    assert GetOrEmpty(f.labels, ARCH_LABEL) == GetOrEmpty(o.labels, ARCH_LABEL);
    assert GetOrEmpty(f.labels, VERSION_LABEL) == GetOrEmpty(o.labels, VERSION_LABEL);
  }

  lemma PassKeepsTyped(st: State, w: Work, owner: Owner, app: StringMap, parse: Parser)
    requires Consistent(st.server) && Typed(st.server) && WellFormedWork(st.server, w, owner, parse)
    ensures Typed(After(st, w, owner, app).server)
  {
    var s' := After(st, w, owner, app).server;
    ExecuteAllKeepsConsistent(st, Todos(w.actions, owner, app));
    forall key <- s'.objects
      ensures s'.objects[key].key == key && (key.kind == TEMPLATE ==> s'.objects[key].spec.TemplateSpec?)
    {
      assert Newest(s', key);
      if key.kind == TEMPLATE {
        PassPartitionsTemplates(st, w, owner, app, parse, key);
        assert Lookup(st.server.objects, key).Some?
               && Lookup(s'.objects, key).value.spec == st.server.objects[key].spec;
      }
    }
  }

  /** All that is left to do after a pass is what is already done. */
  lemma NextActionsRest(
    st: State, w: Work, w': Work, owner: Owner, app: StringMap, parse: Parser, a: Action)
    requires Consistent(st.server) && Typed(st.server) && WellFormedWork(st.server, w, owner, parse) && PlainApp(app)
    requires w' == w.(old_ := w'.old_, owned := w'.owned, actions := w'.actions)
    requires WellFormedWork(After(st, w, owner, app).server, w', owner, parse)
    requires a in w'.actions
    ensures a.DeprecateTemplate? && !a.t.terminating && Resting(After(st, w, owner, app).cache, a.t, owner, app)
    ensures Lookup(After(st, w, owner, app).server.objects, a.t.key) == Some(a.t)
  {
    var after := After(st, w, owner, app);
    PassKeepsTyped(st, w, owner, app, parse);
    ActionsAreExact(after.server, w', owner, parse, a);
    PassPartitionsTemplates(st, w, owner, app, parse, a.t.key);
    var o := Lookup(st.server.objects, a.t.key);
    assert o.Some?;
    assert Concerned(st.server, w, owner, a.t.key);
    assert FateOf(o.value, w.archs, parse, w.latest).Outdated?;
    ProcessingKeepsFate(st.cache, o.value, a.t, owner, app, w.archs, parse, w.latest);
    var first := DeprecateTemplate(o.value);
    ActionsAreExact(st.server, w, owner, parse, first);
    ActionResult(st, w, owner, app, parse, first);
    ReprocessedRests(st.cache, after.cache, o.value, a.t, owner, app);
  }

  /** An item that writes nothing where nothing was written before it. */
  ghost predicate Idle(st: State, todos: seq<Todo>, i: nat)
    requires i < |todos|
  {
    var before := ExecuteAll(st, todos[..i]);
    before.server == st.server ==> Execute(before, todos[i]).server == st.server
  }

  lemma {:induction false} IdleItemsWriteNothing(st: State, todos: seq<Todo>)
    requires forall i: nat :: i < |todos| ==> Idle(st, todos, i)
    ensures ExecuteAll(st, todos).server == st.server
  {
    if todos != [] {
      var n := |todos| - 1;
      forall i: nat | i < n ensures Idle(st, todos[..n], i) {
        assert todos[..n][..i] == todos[..i] && Idle(st, todos, i);
      }
      IdleItemsWriteNothing(st, todos[..n]);
      assert Idle(st, todos, n);
    }
  }

  /** Items for other templates do not disturb one that is at rest. */
  lemma RestingActionsWriteNothing(st: State, actions: seq<Action>, owner: Owner, app: StringMap)
    requires Consistent(st.server) && DistinctBy(actions, NameOf())
    requires forall a <- actions :: a.DeprecateTemplate? && !a.t.terminating && Resting(st.cache, a.t, owner, app)
    requires forall a <- actions :: Lookup(st.server.objects, a.t.key) == Some(a.t)
    ensures ExecuteAll(st, Todos(actions, owner, app)).server == st.server
  {
    var todos := Todos(actions, owner, app);
    forall i: nat | i < |todos| ensures Idle(st, todos, i) {
      RestingActionIsIdle(st, actions, owner, app, i);
    }
    IdleItemsWriteNothing(st, todos);
  }

  lemma RestingActionIsIdle(st: State, actions: seq<Action>, owner: Owner, app: StringMap, i: nat)
    requires Consistent(st.server) && DistinctBy(actions, NameOf()) && i < |actions| && actions[i].DeprecateTemplate?
    requires var t := actions[i].t;
             Resting(st.cache, t, owner, app) && Lookup(st.server.objects, t.key) == Some(t) && !t.terminating
    ensures Idle(st, Todos(actions, owner, app), i)
  {
    var todos := Todos(actions, owner, app);
    var upTo := actions[..i + 1];
    assert upTo[..i] == actions[..i] && Todos(actions[..i], owner, app) == todos[..i];
    OthersLeaveHit(st, upTo, owner, app);
    var before := ExecuteAll(st, todos[..i]);
    if before.server == st.server { RestingActionRests(st, before, actions[i].t, owner, app); }
  }

  lemma RestingActionRests(st: State, before: State, t: Object, owner: Owner, app: StringMap)
    requires Resting(st.cache, t, owner, app) && Lookup(st.server.objects, t.key) == Some(t) && !t.terminating
    requires before.server == st.server && (Contains(before.cache, t) <==> Contains(st.cache, t))
    ensures Execute(before, Run(DeprecateBuilder(t, owner, app))).server == st.server
  {
    RestingRests(before.server, before.cache, t, owner, app);
  }

  lemma OthersLeaveHit(st: State, actions: seq<Action>, owner: Owner, app: StringMap)
    requires Consistent(st.server) && DistinctBy(actions, NameOf()) && actions != []
    ensures var n := |actions| - 1;
            var before := ExecuteAll(st, Todos(actions[..n], owner, app));
            Contains(before.cache, actions[n].t) <==> Contains(st.cache, actions[n].t)
  {
    var n := |actions| - 1;
    var todos := Todos(actions[..n], owner, app);
    forall t <- todos ensures CacheKeyFor(TodoKey(t)) != CacheKeyFor(actions[n].t.key) {
      var i :| 0 <= i < n && todos[i] == t;
      assert NameOf()(actions[i]) != NameOf()(actions[n]);
    }
    UntouchedKey(st, todos, actions[n].t.key);
    SameHit(st, ExecuteAll(st, todos), actions[n].t);
  }

  /** A second quiet pass writes nothing at all, whatever the cache held. */
  lemma SecondPassWritesNothing(st: State, w: Work, w': Work, owner: Owner, sspLabels: StringMap, parse: Parser)
    requires Consistent(st.server) && Typed(st.server) && WellFormedWork(st.server, w, owner, parse)
    requires w' == w.(old_ := w'.old_, owned := w'.owned, actions := w'.actions)
    requires WellFormedWork(After(st, w, owner, TemplateLabels(sspLabels)).server, w', owner, parse)
    ensures var app := TemplateLabels(sspLabels);
            After(After(st, w, owner, app), w', owner, app).server == After(st, w, owner, app).server
  {
    var app := TemplateLabels(sspLabels);
    TemplateLabelsArePlain(sspLabels);
    var after := After(st, w, owner, app);
    ExecuteAllKeepsConsistent(st, Todos(w.actions, owner, app));
    PassKeepsTyped(st, w, owner, app, parse);
    forall a <- w'.actions
      ensures a.DeprecateTemplate? && !a.t.terminating && Resting(after.cache, a.t, owner, app)
      ensures Lookup(after.server.objects, a.t.key) == Some(a.t)
    {
      NextActionsRest(st, w, w', owner, app, parse, a);
    }
    RestingActionsWriteNothing(after, w'.actions, owner, app);
  }
}

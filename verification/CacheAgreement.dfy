/**
 What a cache hit is worth: the pass that skips the update function and the pass that
 always runs it leave the same server state, exactly when two checkable conditions hold.
 */
module CacheAgreement {
  import opened Kube
  import opened ApiServer
  import opened UpdateFuncs
  import opened Engine
  import opened Ssp
  import opened CacheSoundness

  /** The same builder without any cached knowledge. */
  const COLD: Cache := map[]

  /** Spec content that depends on the SSP labels has not changed since the update function last ran. */
  predicate SameLabels(r: Resource, before: StringMap, now: StringMap) {
    r.podLabels ==> LabelsOf(r, before) == LabelsOf(r, now)
  }

  /** An immutable spec is stored exactly as it was written. */
  predicate StoredVerbatim(r: Resource) {
    r.immutableSpec ==> Defaulted(r.desired.key.kind, r.desired.spec) == r.desired.spec
  }

  lemma LabelsDecideFixed(r: Resource, before: StringMap, now: StringMap, v: Object)
    requires WellFormedResource(v.key, r)
    requires Fixed(r.update, ExpectedOf(r, before), v)
    ensures SameLabels(r, before, now) <==> Fixed(r.update, ExpectedOf(r, now), v)
  {
    if r.update.SyncTemplate? {
      NewLabelsAreNotStale(r, before, now, v.labels);
      StaleOnlyAgainstOwnKeys(r, before, now, v.labels);
    } else if SameLabels(r, before, now) {
      SameSpecSameFixed(r, before, now, v);
    } else if Fixed(r.update, ExpectedOf(r, now), v) {
      PodLabelsDecideSpec(r, before, now, v);
    }
  }

  lemma StaleOnlyAgainstOwnKeys(r: Resource, before: StringMap, now: StringMap, labels: StringMap)
    requires var e0 := ExpectedOf(r, before).labels; DropStale(labels + e0, e0) == labels + e0
    ensures var e := ExpectedOf(r, now).labels; DropStale(labels + e, e) == labels + e
  {
    var e0, e := ExpectedOf(r, before).labels, ExpectedOf(r, now).labels;
    forall k | k in labels + e && IsPredefinedKey(k) ensures k in e {
      if k in APP_LABELS { AppLabelsAreNotPredefined(k); }
      assert k in labels ==> k in DropStale(labels + e0, e0);
    }
  }

  lemma SameSpecSameFixed(r: Resource, before: StringMap, now: StringMap, v: Object)
    requires !TouchesMetadata(r.update)
    requires ExpectedOf(r, before).spec == ExpectedOf(r, now).spec
    requires Fixed(r.update, ExpectedOf(r, before), v)
    ensures Fixed(r.update, ExpectedOf(r, now), v)
  {
    assert Stored(Reworked(r.update, ExpectedOf(r, before), v)).spec == v.spec;
  }

  /** The application labels can be read back from a spec that repeats them. */
  lemma PodLabelsShow(r: Resource, labels: StringMap, found: Spec, k: string)
    requires r.podLabels && WellFormedResource(r.desired.key, r) && k in APP_LABELS
    ensures var x := Defaulted(r.desired.key.kind, SpecAfter(r.update, found, ExpectedOf(r, labels).spec));
            && x.Fields?
            && Lookup(x.fields, k) == Lookup(LabelsOf(r, labels), k)
  {
  }

  lemma FixedSpec(u: UpdateFunc, expected: Object, v: Object)
    requires Fixed(u, expected, v)
    ensures Defaulted(v.key.kind, SpecAfter(u, v.spec, expected.spec)) == v.spec
  {
    assert Stored(Reworked(u, expected, v)).spec == Merge(expected, v).spec;
  }

  lemma SameLookups(a: StringMap, b: StringMap, keys: set<string>)
    requires a.Keys <= keys && b.Keys <= keys
    requires forall k <- keys :: Lookup(a, k) == Lookup(b, k)
    ensures a == b
  {
    assert forall k :: k in a || k in b ==> k in keys && Lookup(a, k) == Lookup(b, k);
  }

  lemma PodLabelsDecideSpec(r: Resource, before: StringMap, now: StringMap, v: Object)
    requires WellFormedResource(v.key, r) && r.podLabels
    requires Fixed(r.update, ExpectedOf(r, before), v)
    requires Fixed(r.update, ExpectedOf(r, now), v)
    ensures LabelsOf(r, before) == LabelsOf(r, now)
  {
    FixedSpec(r.update, ExpectedOf(r, before), v);
    FixedSpec(r.update, ExpectedOf(r, now), v);
    forall k <- APP_LABELS ensures Lookup(LabelsOf(r, before), k) == Lookup(LabelsOf(r, now), k) {
      PodLabelsShow(r, before, v.spec, k);
      PodLabelsShow(r, now, v.spec, k);
    }
    SameLookups(LabelsOf(r, before), LabelsOf(r, now), APP_LABELS);
  }

  /** The server cannot tell a raw spec from its defaulted form. */
  lemma UpdateSeesStoredForm(s: Server, o: Object)
    requires Consistent(s)
    ensures Update(s, o).server == Update(s, Stored(o)).server
  {
    if o.key in s.objects {
      assert Newest(s, o.key);
      StoredIsStable(o);
    }
  }

  /** Sending a raw spec whose stored form is what is there already changes nothing. */
  lemma RedundantUpdate(s: Server, v: Object, raw: Object)
    requires Consistent(s) && v in s.published
    requires Stored(raw) == v
    ensures Update(s, raw).server == s
  {
    if v.key in s.objects {
      assert Newest(s, v.key) && Agree(s.objects[v.key], v);
    }
  }

  /** The write of a pass that skips the update function. */
  lemma HotWrite(b: Builder, c: Cache, v: Object)
    requires !b.always && Contains(c, v) && !v.terminating
    ensures var merged := Merge(b.expected, v);
            WriteFor(b, c, Some(v)) == if merged == v then None else Some(UpdateOp(merged))
  {
  }

  /** The write of a pass that runs the update function. */
  lemma ColdWrite(b: Builder, v: Object)
    requires !v.terminating
    ensures var slow := Reworked(b.update, b.expected, v);
            WriteFor(b, COLD, Some(v)) == if slow == v then None
                                          else if b.immutableSpec && v.spec != slow.spec then Some(DeleteOp(v.key))
                                          else Some(UpdateOp(slow))
  {
  }

  lemma SameServer(s: Server, b: Builder, c: Cache, v: Object, fault: Fault)
    requires Consistent(s) && v in s.published && !v.terminating
    requires !b.always && Contains(c, v) && Fixed(b.update, b.expected, v)
    requires b.immutableSpec ==> Reworked(b.update, b.expected, v).spec == v.spec
    ensures ServerAfter(s, WriteFor(b, c, Some(v)), fault) == ServerAfter(s, WriteFor(b, COLD, Some(v)), fault)
  {
    var merged, slow := Merge(b.expected, v), Reworked(b.update, b.expected, v);
    assert WellFormed(s, v);
    HotWrite(b, c, v);
    ColdWrite(b, v);
    UpdateSeesStoredForm(s, slow);
    if merged == v { RedundantUpdate(s, v, slow); }
  }

  /**
   In every sound state, for every published version a read may return and whatever goes
   wrong with the calls, a cache hit changes nothing about the resulting server state.
   */
  lemma SkippingAgrees(catalog: Catalog, sys: System, v: Object, fault: Fault)
    requires WellFormedCatalog(catalog) && Sound(catalog, sys)
    requires v in sys.server.published && Contains(sys.cache, v)
    requires v.key in catalog(sys.spec) && CacheKeyOf(v) in sys.under
    requires var r := catalog(sys.spec)[v.key]; SameLabels(r, sys.under[CacheKeyOf(v)], sys.labels) && StoredVerbatim(r)
    ensures var b := BuilderOf(catalog(sys.spec)[v.key], sys.labels);
            Reconcile(sys.server, sys.cache, b, Some(v), fault).server ==
              Reconcile(sys.server, COLD, b, Some(v), fault).server
  {
    var s, r := sys.server, catalog(sys.spec)[v.key];
    var b := BuilderOf(r, sys.labels);
    ReconcileSendsOneWrite(s, sys.cache, b, Some(v), fault);
    ReconcileSendsOneWrite(s, COLD, b, Some(v), fault);
    if !v.terminating {
      HitIsInOrder(catalog, sys, v);
      SameServer(s, b, sys.cache, v, fault);
    }
  }

  /** What a hit says about the object under the labels of today. */
  lemma HitIsInOrder(catalog: Catalog, sys: System, v: Object)
    requires WellFormedCatalog(catalog) && Sound(catalog, sys)
    requires v in sys.server.published && Contains(sys.cache, v) && !v.terminating
    requires v.key in catalog(sys.spec) && CacheKeyOf(v) in sys.under
    requires var r := catalog(sys.spec)[v.key]; SameLabels(r, sys.under[CacheKeyOf(v)], sys.labels) && StoredVerbatim(r)
    ensures var b := BuilderOf(catalog(sys.spec)[v.key], sys.labels);
            && Fixed(b.update, b.expected, v)
            && (b.immutableSpec ==> Reworked(b.update, b.expected, v).spec == v.spec)
  {
    var r := catalog(sys.spec)[v.key];
    var b := BuilderOf(r, sys.labels);
    assert WellFormedResource(v.key, r);
    HitIsFixed(catalog, sys, v);
    LabelsDecideFixed(r, sys.under[CacheKeyOf(v)], sys.labels, v);
    assert b.immutableSpec ==> Stored(Reworked(b.update, b.expected, v)).spec == v.spec;
  }

  /** The outcome of a fresh, fault-free pass at its own key. */
  function ObjectAfter(s: Server, w: Option<Write>, key: Key): Option<Object> {
    Lookup(ServerAfter(s, w, NoFault).objects, key)
  }

  lemma HotLeavesSpec(s: Server, b: Builder, c: Cache, v: Object)
    requires Consistent(s) && v.key in s.objects && s.objects[v.key] == v && !v.terminating
    requires !b.always && Contains(c, v)
    ensures var o := ObjectAfter(s, WriteFor(b, c, Some(v)), v.key);
            o.Some? && o.value.spec == v.spec && !o.value.terminating
  {
    assert Newest(s, v.key) && WellFormed(s, v);
    HotWrite(b, c, v);
  }

  lemma ColdWritesSpec(s: Server, b: Builder, v: Object)
    requires Consistent(s) && v.key in s.objects && s.objects[v.key] == v && !v.terminating
    requires SpecDrifts(b, v)
    ensures var o := ObjectAfter(s, WriteFor(b, COLD, Some(v)), v.key);
            o.Some? ==> o.value.spec != v.spec || o.value.terminating
  {
    assert Newest(s, v.key) && WellFormed(s, v);
    ColdWrite(b, v);
  }

  /** The raw spec a cold pass would write is not the stored one. */
  predicate SpecDrifts(b: Builder, v: Object) {
    var slow := Reworked(b.update, b.expected, v);
    Stored(slow).spec != v.spec || (b.immutableSpec && slow.spec != v.spec)
  }

  lemma FailedConditionDrifts(r: Resource, before: StringMap, now: StringMap, v: Object)
    requires WellFormedResource(v.key, r) && Stored(v) == v
    requires Fixed(r.update, ExpectedOf(r, before), v)
    requires !SameLabels(r, before, now) || !StoredVerbatim(r)
    ensures SpecDrifts(BuilderOf(r, now), v)
  {
    LabelsDecideFixed(r, before, now, v);
    if !StoredVerbatim(r) { assert CopySpec(r.desired.spec, v.spec, {}) == r.desired.spec; }
  }

  lemma DriftSeparates(s: Server, b: Builder, c: Cache, v: Object)
    requires Consistent(s) && v.key in s.objects && s.objects[v.key] == v && !v.terminating
    requires !b.always && Contains(c, v) && SpecDrifts(b, v)
    ensures ServerAfter(s, WriteFor(b, c, Some(v)), NoFault) != ServerAfter(s, WriteFor(b, COLD, Some(v)), NoFault)
  {
    HotLeavesSpec(s, b, c, v);
    ColdWritesSpec(s, b, v);
  }

  /** Where one of the conditions fails, a fresh and fault-free pass really ends differently. */
  lemma SkippingDiffers(catalog: Catalog, sys: System, v: Object)
    requires WellFormedCatalog(catalog) && Sound(catalog, sys)
    requires v.key in sys.server.objects && sys.server.objects[v.key] == v && !v.terminating && Contains(sys.cache, v)
    requires v.key in catalog(sys.spec) && CacheKeyOf(v) in sys.under
    requires var r := catalog(sys.spec)[v.key];
             !SameLabels(r, sys.under[CacheKeyOf(v)], sys.labels) || !StoredVerbatim(r)
    ensures var b := BuilderOf(catalog(sys.spec)[v.key], sys.labels);
            Reconcile(sys.server, sys.cache, b, Some(v), NoFault).server !=
              Reconcile(sys.server, COLD, b, Some(v), NoFault).server
  {
    var s, r := sys.server, catalog(sys.spec)[v.key];
    var b := BuilderOf(r, sys.labels);
    assert WellFormedResource(v.key, r) && Newest(s, v.key) && WellFormed(s, v);
    HitIsFixed(catalog, sys, v);
    FailedConditionDrifts(r, sys.under[CacheKeyOf(v)], sys.labels, v);
    DriftSeparates(s, b, sys.cache, v);
    ReconcileSendsOneWrite(s, sys.cache, b, Some(v), NoFault);
    ReconcileSendsOneWrite(s, COLD, b, Some(v), NoFault);
  }

  /**
   Over every run of passes, client writes, SSP edits, restarts, stale reads and failed calls:
   a create is never skipped, and on a cache hit the fast and the slow pass leave the same
   server if the conditions hold; for a fresh fault-free read, only if they hold.
   */
  lemma CacheIsSoundOverRuns(catalog: Catalog, events: seq<Event>, v: Object, fault: Fault)
    requires WellFormedCatalog(catalog) && LegalRun(catalog, START, events)
    requires v in Run(START, events).server.published
    requires Contains(Run(START, events).cache, v) && v.key in catalog(Run(START, events).spec)
    ensures var sys := Run(START, events);
            var r := catalog(sys.spec)[v.key];
            var b := BuilderOf(r, sys.labels);
            && !Contains(sys.cache, Blank(b.expected))
            && CacheKeyOf(v) in sys.under
            && var conditions := SameLabels(r, sys.under[CacheKeyOf(v)], sys.labels) && StoredVerbatim(r);
               var same := Reconcile(sys.server, sys.cache, b, Some(v), fault).server
                        == Reconcile(sys.server, COLD, b, Some(v), fault).server;
               && (conditions ==> same)
               && (fault.NoFault? && Lookup(sys.server.objects, v.key) == Some(v) && !v.terminating ==>
                    (same <==> conditions))
  {
    var sys := Run(START, events);
    RunKeepsSound(catalog, START, events);
    var r := catalog(sys.spec)[v.key];
    BlankIsNeverCached(catalog, sys, BuilderOf(r, sys.labels).expected);
    HitIsFixed(catalog, sys, v);
    if SameLabels(r, sys.under[CacheKeyOf(v)], sys.labels) && StoredVerbatim(r) {
      SkippingAgrees(catalog, sys, v, fault);
    } else if fault.NoFault? && Lookup(sys.server.objects, v.key) == Some(v) && !v.terminating {
      SkippingDiffers(catalog, sys, v);
    }
  }

  function OnlyWants(r: Resource): Catalog {
    (_: SspSpec) => map[r.desired.key := r]
  }

  /** Deploy under one set of SSP labels, then change only those labels. */
  function Relabelled(r: Resource, before: StringMap, now: StringMap): seq<Event> {
    [Begin(ZERO_SPEC, before), One(BuilderOf(r, before), None, NoFault), Begin(ZERO_SPEC, now)]
  }

  /** What the first pass of that run creates. */
  lemma DeployedAndCached(r: Resource, before: StringMap)
    requires WellFormedResource(r.desired.key, r) && r.podLabels && r.desired.key.kind.name != ""
    ensures var step := Reconcile(EMPTY, COLD, BuilderOf(r, before), None, NoFault);
            && r.desired.key in step.server.objects
            && var v := step.server.objects[r.desired.key];
               v.key == r.desired.key && !v.terminating && Contains(step.cache, v) && step.result.Done?
  {
  }

  lemma RelabelledRun(r: Resource, before: StringMap, now: StringMap)
    requires WellFormedResource(r.desired.key, r)
    ensures var step := Reconcile(EMPTY, COLD, BuilderOf(r, before), None, NoFault);
            && LegalRun(OnlyWants(r), START, Relabelled(r, before, now))
            && var after := System(step.server, step.cache, ZERO_SPEC, now, map[CacheKeyOf(r.desired) := before]);
               step.result.Done? ==> Run(START, Relabelled(r, before, now)) == after
  {
    var events := Relabelled(r, before, now);
    var s1 := Next(START, events[0]);
    var s2 := Next(s1, events[1]);
    assert events[1..][0] == events[1] && events[1..][1..] == [events[2]];
    assert LegalRun(OnlyWants(r), Next(s2, events[2]), []);
    assert LegalRun(OnlyWants(r), s2, [events[2]]);
    assert Run(s2, [events[2]]) == Next(s2, events[2]) by { assert [events[2]][1..] == []; }
  }

  /**
   A resource whose spec repeats the application labels, such as the template validator's
   deployment: after a change of just those labels of the SSP object the cached pass
   leaves the spec out of date, because only a spec change empties the cache.
   */
  lemma RelabellingIsMissed(r: Resource, before: StringMap, now: StringMap)
    requires WellFormedResource(r.desired.key, r) && r.podLabels && r.desired.key.kind.name != ""
    requires LabelsOf(r, before) != LabelsOf(r, now)
    ensures LegalRun(OnlyWants(r), START, Relabelled(r, before, now))
    ensures var sys := Run(START, Relabelled(r, before, now));
            && r.desired.key in sys.server.objects
            && var v, b := sys.server.objects[r.desired.key], BuilderOf(r, now);
               Reconcile(sys.server, sys.cache, b, Some(v), NoFault).server !=
                 Reconcile(sys.server, COLD, b, Some(v), NoFault).server
  {
    var sys := Run(START, Relabelled(r, before, now));
    RelabelledState(r, before, now);
    RunKeepsSound(OnlyWants(r), START, Relabelled(r, before, now));
    MissedIn(r, sys);
  }

  lemma MissedIn(r: Resource, sys: System)
    requires WellFormedResource(r.desired.key, r) && Sound(OnlyWants(r), sys) && r.podLabels
    requires CacheKeyFor(r.desired.key) in sys.under
    requires LabelsOf(r, sys.under[CacheKeyFor(r.desired.key)]) != LabelsOf(r, sys.labels)
    requires r.desired.key in sys.server.objects
    requires var v := sys.server.objects[r.desired.key];
             v.key == r.desired.key && !v.terminating && Contains(sys.cache, v)
    ensures var v, b := sys.server.objects[r.desired.key], BuilderOf(r, sys.labels);
            Reconcile(sys.server, sys.cache, b, Some(v), NoFault).server !=
              Reconcile(sys.server, COLD, b, Some(v), NoFault).server
  {
    SkippingDiffers(OnlyWants(r), sys, sys.server.objects[r.desired.key]);
  }

  /** What that run leaves: a cached object and labels that have changed since. */
  lemma RelabelledState(r: Resource, before: StringMap, now: StringMap)
    requires WellFormedResource(r.desired.key, r) && r.podLabels && r.desired.key.kind.name != ""
    ensures LegalRun(OnlyWants(r), START, Relabelled(r, before, now))
    ensures var sys := Run(START, Relabelled(r, before, now));
            && sys.labels == now
            && CacheKeyFor(r.desired.key) in sys.under
            && sys.under[CacheKeyFor(r.desired.key)] == before
            && r.desired.key in sys.server.objects
            && var v := sys.server.objects[r.desired.key];
               v.key == r.desired.key && !v.terminating && Contains(sys.cache, v)
  {
    RelabelledRun(r, before, now);
    DeployedAndCached(r, before);
  }
}

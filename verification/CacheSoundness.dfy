/**
 The version cache over whole runs: other clients write, specs and labels of the SSP
 object change, reads are stale, calls fail. Skipping the update function on a cache
 hit leaves the server in the state that running it would have produced.
 */
module CacheSoundness {
  import opened Kube
  import opened ApiServer
  import opened UpdateFuncs
  import opened Engine
  import opened Ssp

  /** A resource an operand asks for. With `podLabels` its spec repeats the application labels. */
  datatype Resource = Resource(
    desired: Object,
    operand: string,
    component: string,
    update: UpdateFunc,
    immutableSpec: bool,
    podLabels: bool)

  /** What the operands want, as a function of the SSP spec. */
  type Catalog = SspSpec -> map<Key, Resource>

  function LabelsOf(r: Resource, sspLabels: StringMap): StringMap {
    AppLabels(sspLabels, r.operand, r.component)
  }

  function ExpectedOf(r: Resource, sspLabels: StringMap): Object {
    var app := LabelsOf(r, sspLabels);
    r.desired.(labels := r.desired.labels + app,
              spec := if r.podLabels && r.desired.spec.Fields? then Fields(r.desired.spec.fields + app)
                else r.desired.spec)
  }

  function BuilderOf(r: Resource, sspLabels: StringMap): Builder {
    Builder(ExpectedOf(r, sspLabels), r.update, r.immutableSpec, false)
  }

  predicate WellFormedResource(key: Key, r: Resource) {
    && r.desired.key == key
    && (r.update.Copy? || r.update.Leave? || (r.update.SyncTemplate? && !key.kind.tracksGeneration))
    && (r.immutableSpec ==> r.update == Copy({}) && !r.podLabels)
    && (r.podLabels ==>
          && r.desired.spec.Fields?
          && r.update.Copy?
          && APP_LABELS !! r.update.keep
          && APP_LABELS !! r.desired.spec.fields.Keys
          && APP_LABELS !! key.kind.defaults.Keys)
  }

  ghost predicate WellFormedCatalog(catalog: Catalog) {
    forall spec, key :: key in catalog(spec) ==> WellFormedResource(key, catalog(spec)[key])
  }

  /** `under` remembers the SSP labels with which the update function last ran for an entry. */
  datatype System = System(
    server: Server,
    cache: Cache,
    spec: SspSpec,
    labels: StringMap,
    under: map<CacheKey, StringMap>)

  datatype Event =
    | Begin(spec: SspSpec, labels: StringMap) // a pass reads the SSP object
    | One(b: Builder, seen: Option<Object>, fault: Fault) // one builder call of that pass
    | Client(w: Write) // anybody else
    | Reset // cleanup finished, or the operator restarted

  const START := System(EMPTY, map[], ZERO_SPEC, map[], map[])

  ghost predicate Legal(catalog: Catalog, sys: System, e: Event) {
    match e
    case One(b, seen, _) =>
      && (seen.Some? ==> seen.value in sys.server.published && seen.value.key == b.expected.key)
      && (b.expected.key in catalog(sys.spec) ==> b == BuilderOf(catalog(sys.spec)[b.expected.key], sys.labels))
    case _ => true
  }

  predicate UpdateRuns(c: Cache, b: Builder, seen: Option<Object>) {
    seen.None? || b.always || !Contains(c, seen.value)
  }

  function Next(sys: System, e: Event): System {
    match e
    case Begin(spec, labels) =>
      if sys.spec != spec then System(sys.server, map[], spec, labels, map[])
      else sys.(labels := labels)
    case One(b, seen, fault) =>
      var step := Reconcile(sys.server, sys.cache, b, seen, fault);
      sys.(server := step.server,
           cache := step.cache,
           under := if step.result.Done? && UpdateRuns(sys.cache, b, seen)
                    then sys.under[CacheKeyOf(b.expected) := sys.labels] else sys.under)
    case Client(w) => sys.(server := Apply(sys.server, w).server)
    case Reset => System(sys.server, map[], ZERO_SPEC, sys.labels, map[])
  }

  function Run(sys: System, events: seq<Event>): System
    decreases |events|
  {
    if events == [] then sys else Run(Next(sys, events[0]), events[1..])
  }

  ghost predicate LegalRun(catalog: Catalog, sys: System, events: seq<Event>)
    decreases |events|
  {
    events != [] ==> Legal(catalog, sys, events[0]) && LegalRun(catalog, Next(sys, events[0]), events[1..])
  }

  ghost predicate FixedUnder(catalog: Catalog, spec: SspSpec, labels: StringMap, o: Object) {
    o.key in catalog(spec) ==>
      var r := catalog(spec)[o.key];
      Fixed(r.update, ExpectedOf(r, labels), o)
  }

  /** `w` is a published version that a cache entry stands for. */
  ghost predicate Witness(catalog: Catalog, sys: System, ck: CacheKey, w: Object)
    requires ck in sys.cache && ck in sys.under
  {
    && w in sys.server.published
    && CacheKeyOf(w) == ck
    && Matches(sys.cache[ck], w)
    && FixedUnder(catalog, sys.spec, sys.under[ck], w)
  }

  ghost predicate Sound(catalog: Catalog, sys: System) {
    && Consistent(sys.server)
    && forall ck <- sys.cache :: ck.kind != "" && ck in sys.under && exists w :: Witness(catalog, sys, ck, w)
  }

  lemma AppLabelsAreNotPredefined(key: string)
    requires key in APP_LABELS
    ensures !IsPredefinedKey(key)
  {
    assert key[0] == 'a' && |key| <= 28;
    assert forall i :: 0 <= i < |key| && i <= 7 && key[i] == '.' ==> key[i + 1] == 'k';
    assert TEMPLATE_DOMAIN[0] == 't' && |TEMPLATE_DOMAIN| == 21;
    forall i | 0 <= i <= |key| && HasPrefix(key[i..], TEMPLATE_DOMAIN)
      ensures i != 0 && key[i - 1] != '.'
    {
      assert key[i..][0] == 't';
    }
  }

  /** A version the cache recognises is one that the update function leaves alone. */
  lemma HitIsFixed(catalog: Catalog, sys: System, v: Object)
    requires WellFormedCatalog(catalog) && Sound(catalog, sys)
    requires v in sys.server.published && Contains(sys.cache, v)
    ensures CacheKeyOf(v) in sys.under
    ensures FixedUnder(catalog, sys.spec, sys.under[CacheKeyOf(v)], v)
  {
    var ck := CacheKeyOf(v);
    var w :| Witness(catalog, sys, ck, w);
    assert WellFormed(sys.server, v) && WellFormed(sys.server, w) && Agree(v, w);
    if v.key in catalog(sys.spec) && v.key.kind.tracksGeneration {
      var r := catalog(sys.spec)[v.key];
      assert WellFormedResource(v.key, r);
      FixedBySpec(r.update, ExpectedOf(r, sys.under[ck]), w, v);
    }
  }

  /** No label that newer SSP labels bring in is one that the template sync would drop. */
  lemma NewLabelsAreNotStale(r: Resource, before: StringMap, now: StringMap, labels: StringMap)
    requires var e0 := ExpectedOf(r, before).labels; DropStale(labels + e0, e0) == labels + e0
    ensures var e0 := ExpectedOf(r, before).labels;
            var merged := labels + ExpectedOf(r, now).labels;
            DropStale(merged + e0, e0) == merged + e0
  {
    var e0, e := ExpectedOf(r, before).labels, ExpectedOf(r, now).labels;
    forall k | k in labels + e + e0 && IsPredefinedKey(k) ensures k in e0 {
      if k in APP_LABELS { AppLabelsAreNotPredefined(k); }
      if k !in e { assert k in DropStale(labels + e0, e0); }
    }
  }

  /** Merging what newer SSP labels ask for does not disturb what older ones fixed. */
  lemma MergeKeepsFixed(r: Resource, before: StringMap, now: StringMap, v: Object, f: Object)
    requires WellFormedResource(v.key, r)
    requires Fixed(r.update, ExpectedOf(r, before), v)
    requires f.key == v.key && f.spec == v.spec
    requires f.labels == v.labels + ExpectedOf(r, now).labels
    requires f.annotations == v.annotations + r.desired.annotations
    ensures Fixed(r.update, ExpectedOf(r, before), f)
  {
    if r.update.SyncTemplate? {
      NewLabelsAreNotStale(r, before, now, v.labels);
      assert f.annotations + r.desired.annotations == v.annotations + r.desired.annotations;
    } else {
      FixedBySpec(r.update, ExpectedOf(r, before), v, f);
    }
  }

  /** What an accepted update stores is what was sent, stamped by the server. */
  lemma AcceptedUpdate(s: Server, existing: Object, found: Object)
    requires Consistent(s) && existing in s.published
    requires found.key == existing.key && found.uid == existing.uid && found.version == existing.version
    requires !existing.terminating && !found.terminating
    requires Update(s, found).outcome.Ok?
    ensures var f := Update(s, found).outcome.value;
            && f in Update(s, found).server.published
            && s.objects[existing.key] == existing
            && f == Stored(found).(version := f.version, generation := f.generation, conditions := f.conditions)
  {
    assert Newest(s, existing.key) && Agree(s.objects[existing.key], existing);
  }

  /** The recorded object is published, and it is what the pass made of the found one. */
  lemma RecordedIsPublished(sys: System, b: Builder, seen: Option<Object>, fault: Fault)
    requires Consistent(sys.server)
    requires seen.Some? ==> seen.value in sys.server.published && seen.value.key == b.expected.key
    requires var step := Reconcile(sys.server, sys.cache, b, seen, fault); step.result.Done? && !step.result.gone
    ensures var f := Recorded(sys.server, sys.cache, b, seen);
            var sent := Mutate(b, sys.cache, if seen.Some? then seen.value else Blank(b.expected));
            && f in Reconcile(sys.server, sys.cache, b, seen, fault).server.published
            && (seen.Some? ==> !seen.value.terminating)
            && f == Stored(sent).(uid := f.uid, version := f.version, generation := f.generation,
                                  conditions := f.conditions)
  {
    var w := WriteFor(b, sys.cache, seen);
    if seen.Some? { assert WellFormed(sys.server, seen.value); }
    if w.Some? && w.value.UpdateOp? { AcceptedUpdate(sys.server, seen.value, w.value.o); }
  }

  lemma RecordedIsFixed(catalog: Catalog, sys: System, r: Resource, b: Builder, seen: Option<Object>, f: Object)
    requires WellFormedCatalog(catalog) && Sound(catalog, sys)
    requires b.expected.key in catalog(sys.spec) && r == catalog(sys.spec)[b.expected.key]
    requires WellFormedResource(b.expected.key, r) && b == BuilderOf(r, sys.labels)
    requires seen.Some? ==>
               seen.value in sys.server.published && seen.value.key == b.expected.key && !seen.value.terminating
    requires var sent := Mutate(b, sys.cache, if seen.Some? then seen.value else Blank(b.expected));
             f == Stored(sent).(uid := f.uid, version := f.version, generation := f.generation,
                                conditions := f.conditions)
    ensures UpdateRuns(sys.cache, b, seen) ==> FixedUnder(catalog, sys.spec, sys.labels, f)
    ensures !UpdateRuns(sys.cache, b, seen) ==>
              CacheKeyOf(f) in sys.under && FixedUnder(catalog, sys.spec, sys.under[CacheKeyOf(f)], f)
  {
    if seen.None? {
      BlankIsNeverCached(catalog, sys, b.expected);
      UpdateSettles(b.update, b.expected, Blank(b.expected), f);
    } else if UpdateRuns(sys.cache, b, seen) {
      UpdateSettles(b.update, b.expected, seen.value, f);
    } else {
      HitIsFixed(catalog, sys, seen.value);
      assert WellFormed(sys.server, seen.value);
      MergeKeepsFixed(r, sys.under[CacheKeyOf(f)], sys.labels, seen.value, f);
    }
  }

  /** A create is never skipped because of a left-over entry. */
  lemma BlankIsNeverCached(catalog: Catalog, sys: System, like: Object)
    requires Sound(catalog, sys)
    ensures !Contains(sys.cache, Blank(like))
  {
    var ck := CacheKeyOf(Blank(like));
    if ck in sys.cache {
      var w :| Witness(catalog, sys, ck, w);
      assert WellFormed(sys.server, w);
    }
  }

  /** An entry that a step does not write keeps its witness. */
  lemma WitnessStays(catalog: Catalog, sys: System, sys': System, ck: CacheKey)
    requires ck in sys.cache && ck in sys.under && exists w :: Witness(catalog, sys, ck, w)
    requires sys.server.published <= sys'.server.published && sys'.spec == sys.spec
    requires ck in sys'.cache && sys'.cache[ck] == sys.cache[ck]
    requires ck in sys'.under && sys'.under[ck] == sys.under[ck]
    ensures exists w :: Witness(catalog, sys', ck, w)
  {
    var w :| Witness(catalog, sys, ck, w);
    assert Witness(catalog, sys', ck, w);
  }

  /** Entries may disappear, and one entry may be rewritten if the new one has a witness. */
  lemma EntriesKeepSound(catalog: Catalog, sys: System, sys': System, own: CacheKey)
    requires Sound(catalog, sys) && Consistent(sys'.server)
    requires sys.server.published <= sys'.server.published && sys'.spec == sys.spec
    requires forall ck <- sys'.cache :: ck != own ==>
               ck in sys.cache && sys'.cache[ck] == sys.cache[ck] && ck in sys'.under && sys'.under[ck] == sys.under[ck]
    requires own in sys'.cache ==> own.kind != "" && own in sys'.under && exists w :: Witness(catalog, sys', own, w)
    ensures Sound(catalog, sys')
  {
    forall ck <- sys'.cache | ck != own ensures exists w :: Witness(catalog, sys', ck, w) {
      WitnessStays(catalog, sys, sys', ck);
    }
  }

  lemma RecordedIsWitness(catalog: Catalog, sys: System, sys': System, b: Builder, seen: Option<Object>, f: Object)
    requires WellFormedCatalog(catalog) && Sound(catalog, sys) && Legal(catalog, sys, One(b, seen, NoFault))
    requires f in sys'.server.published && f.key == b.expected.key && f.key.kind.name != ""
    requires seen.Some? ==> !seen.value.terminating
    requires var sent := Mutate(b, sys.cache, if seen.Some? then seen.value else Blank(b.expected));
             f == Stored(sent).(uid := f.uid, version := f.version, generation := f.generation,
                                conditions := f.conditions)
    requires if f.key.kind.tracksGeneration then f.generation >= 1 else f.generation == 0 && f.version >= 1
    requires sys'.spec == sys.spec && sys'.cache == Add(sys.cache, f)
    requires sys'.under == if UpdateRuns(sys.cache, b, seen) then sys.under[CacheKeyOf(f) := sys.labels] else sys.under
    ensures CacheKeyOf(f) in sys'.under && Witness(catalog, sys', CacheKeyOf(f), f)
  {
    if f.key in catalog(sys.spec) {
      var r := catalog(sys.spec)[f.key];
      assert WellFormedResource(f.key, r);
      RecordedIsFixed(catalog, sys, r, b, seen, f);
    } else if !UpdateRuns(sys.cache, b, seen) {
      HitIsFixed(catalog, sys, seen.value);
    }
  }

  lemma RecordedKeepsSound(catalog: Catalog, sys: System, sys': System, b: Builder, seen: Option<Object>, f: Object)
    requires WellFormedCatalog(catalog) && Sound(catalog, sys) && Legal(catalog, sys, One(b, seen, NoFault))
    requires Consistent(sys'.server) && sys.server.published <= sys'.server.published
    requires f in sys'.server.published && f.key == b.expected.key
    requires seen.Some? ==> !seen.value.terminating
    requires var sent := Mutate(b, sys.cache, if seen.Some? then seen.value else Blank(b.expected));
             f == Stored(sent).(uid := f.uid, version := f.version, generation := f.generation,
                                conditions := f.conditions)
    requires sys'.spec == sys.spec && sys'.cache == Add(sys.cache, f)
    requires sys'.under == if UpdateRuns(sys.cache, b, seen) then sys.under[CacheKeyOf(f) := sys.labels] else sys.under
    ensures Sound(catalog, sys')
  {
    var own := CacheKeyOf(f);
    if own.kind != "" {
      assert WellFormed(sys'.server, f);
      RecordedIsWitness(catalog, sys, sys', b, seen, f);
    }
    AddLeavesOthers(sys, sys', f);
    EntriesKeepSound(catalog, sys, sys', own);
  }

  lemma AddLeavesOthers(sys: System, sys': System, f: Object)
    requires forall ck <- sys.cache :: ck in sys.under
    requires sys'.cache == Add(sys.cache, f)
    requires sys'.under == sys.under || sys'.under == sys.under[CacheKeyOf(f) := sys.labels]
    ensures forall ck <- sys'.cache :: ck != CacheKeyOf(f) ==>
              ck in sys.cache && sys'.cache[ck] == sys.cache[ck] && ck in sys'.under && sys'.under[ck] == sys.under[ck]
    ensures f.key.kind.name == "" ==> sys'.cache == sys.cache
  {
  }

  lemma RecordingKeepsSound(catalog: Catalog, sys: System, b: Builder, seen: Option<Object>, fault: Fault)
    requires WellFormedCatalog(catalog) && Sound(catalog, sys) && Legal(catalog, sys, One(b, seen, fault))
    requires var step := Reconcile(sys.server, sys.cache, b, seen, fault); step.result.Done? && !step.result.gone
    ensures Sound(catalog, Next(sys, One(b, seen, fault)))
  {
    ReconcileKeepsConsistent(sys.server, sys.cache, b, seen, fault);
    CacheEffect(sys.server, sys.cache, b, seen, fault);
    RecordedIsPublished(sys, b, seen, fault);
    RecordedKeepsSound(catalog, sys, Next(sys, One(b, seen, fault)), b, seen, Recorded(sys.server, sys.cache, b, seen));
  }

  lemma ForgottenKeepsSound(catalog: Catalog, sys: System, sys': System, own: CacheKey)
    requires Sound(catalog, sys) && Consistent(sys'.server) && sys.server.published <= sys'.server.published
    requires sys'.spec == sys.spec && sys'.under - {own} == sys.under - {own}
    requires (sys'.cache == sys.cache && sys'.under == sys.under) || sys'.cache == sys.cache - {own}
    ensures Sound(catalog, sys')
  {
    forall ck <- sys'.cache ensures ck in sys'.under && sys'.under[ck] == sys.under[ck] {
      if ck != own {
        assert ck in sys.under - {own} && sys'.under[ck] == (sys'.under - {own})[ck] == (sys.under - {own})[ck];
      }
    }
    if own in sys'.cache { WitnessStays(catalog, sys, sys', own); }
    EntriesKeepSound(catalog, sys, sys', own);
  }

  lemma ForgettingKeepsSound(catalog: Catalog, sys: System, b: Builder, seen: Option<Object>, fault: Fault)
    requires Sound(catalog, sys) && Legal(catalog, sys, One(b, seen, fault))
    requires var step := Reconcile(sys.server, sys.cache, b, seen, fault); step.result.Failed? || step.result.gone
    ensures Sound(catalog, Next(sys, One(b, seen, fault)))
  {
    ReconcileKeepsConsistent(sys.server, sys.cache, b, seen, fault);
    CacheEffect(sys.server, sys.cache, b, seen, fault);
    ForgottenKeepsSound(catalog, sys, Next(sys, One(b, seen, fault)), CacheKeyOf(b.expected));
  }

  lemma StepKeepsSound(catalog: Catalog, sys: System, e: Event)
    requires WellFormedCatalog(catalog) && Sound(catalog, sys) && Legal(catalog, sys, e)
    ensures Sound(catalog, Next(sys, e))
  {
    if e.One? {
      var step := Reconcile(sys.server, sys.cache, e.b, e.seen, e.fault);
      if step.result.Done? && !step.result.gone { RecordingKeepsSound(catalog, sys, e.b, e.seen, e.fault); }
      else { ForgettingKeepsSound(catalog, sys, e.b, e.seen, e.fault); }
    } else {
      var sys' := Next(sys, e);
      if e.Client? { WritesKeepConsistent(sys.server, e.w); }
      forall ck <- sys'.cache ensures exists w :: Witness(catalog, sys', ck, w) {
        WitnessStays(catalog, sys, sys', ck);
      }
    }
  }

  /** The cache is sound in every reachable state. */
  lemma {:induction false} RunKeepsSound(catalog: Catalog, sys: System, events: seq<Event>)
    requires WellFormedCatalog(catalog) && Sound(catalog, sys) && LegalRun(catalog, sys, events)
    ensures Sound(catalog, Run(sys, events))
    decreases |events|
  {
    if events != [] {
      StepKeepsSound(catalog, sys, events[0]);
      RunKeepsSound(catalog, Next(sys, events[0]), events[1..]);
    }
  }
}

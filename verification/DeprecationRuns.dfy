/**
 Deprecation over runs: the version cache may vouch for a template only if it is deprecated,
 and when a list that is older than the read that follows it spoils that.
 */
module DeprecationRuns {
  import opened Kube
  import opened ApiServer
  import opened UpdateFuncs
  import opened Engine
  import opened Convergence
  import CacheSoundness
  import opened Ssp
  import opened DataSourceOperand
  import opened OldTemplates
  import opened OldTemplateRuns

  // ----- one pass, for every listed and every found version

  /** What a map holds after another one was merged over it. */
  function Final(listed: StringMap, found: StringMap, k: string): Option<string> {
    if k in listed then Some(listed[k]) else Lookup(found, k)
  }

  /** Merging alone leaves a deprecated template. */
  ghost predicate MergesDeprecated(listed: Object, o: Object) {
    && (forall k <- o.labels :: !IsSelectorLabel(k))
    && (forall k <- listed.labels :: !IsSelectorLabel(k))
    && Final(listed.labels, o.labels, DEPRECATED) == Some("true")
    && Final(listed.annotations, o.annotations, DEPRECATED) == Some("true")
  }

  /** A pass that listed one version and then found another leaves a deprecated template. */
  ghost predicate LeavesDeprecated(c: Cache, listed: Object, seen: Option<Object>) {
    seen.None? || !Contains(c, seen.value) || MergesDeprecated(listed, seen.value)
  }

  lemma ReworkedIsDeprecated(listed: Object, o: Object, owner: Owner, app: StringMap)
    ensures IsDeprecated(Reworked(Deprecate, DeprecateBuilder(listed, owner, app).expected, o))
  {
    OwnLabelsStay();
  }

  lemma MergedLabels(listed: StringMap, found: StringMap, app: StringMap)
    requires PlainApp(app)
    ensures var all := found + (listed + app);
            && Lookup(all, DEPRECATED) == Final(listed, found, DEPRECATED)
            && ((forall k <- all :: !IsSelectorLabel(k)) <==>
                  (forall k <- found :: !IsSelectorLabel(k)) && (forall k <- listed :: !IsSelectorLabel(k)))
  {
    var all := found + (listed + app);
    assert all.Keys == found.Keys + listed.Keys + app.Keys;
  }

  /** For every cache, listed version and live found version. */
  lemma PassDeprecatesListedIff(c: Cache, listed: Object, o: Object, owner: Owner, app: StringMap)
    requires PlainApp(app) && !o.terminating
    ensures IsDeprecated(Mutate(DeprecateBuilder(listed, owner, app), c, o)) <==> LeavesDeprecated(c, listed, Some(o))
  {
    if Contains(c, o) {
      MergedLabels(listed.labels, o.labels, app);
      OwnLabelsStay();
    } else {
      ReworkedIsDeprecated(listed, o, owner, app);
    }
  }

  // ----- the same for a pass that deploys a shipped template in that place

  ghost predicate DeploysDeprecated(c: Cache, shipped: Object, seen: Option<Object>) {
    if seen.Some? && Contains(c, seen.value) then MergesDeprecated(shipped, seen.value) else IsDeprecated(shipped)
  }

  lemma SuffixedDomainIsPredefined(key: string, prefix: string, i: nat)
    requires HasPrefix(key, prefix) && 0 < i <= |prefix| && prefix[i..] == TEMPLATE_DOMAIN && prefix[i - 1] == '.'
    ensures IsPredefinedKey(key)
  {
    assert key[i..][..|TEMPLATE_DOMAIN|] == key[..|prefix|][i..] == TEMPLATE_DOMAIN;
    assert HasPrefix(key[i..], TEMPLATE_DOMAIN) && key[i - 1] == prefix[i - 1];
  }

  lemma OsLabelIsPredefined(k: string)
    requires HasPrefix(k, OS_PREFIX)
    ensures IsPredefinedKey(k)
  {
    SuffixedDomainIsPredefined(k, OS_PREFIX, 3);
  }

  lemma FlavorLabelIsPredefined(k: string)
    requires HasPrefix(k, FLAVOR_PREFIX)
    ensures IsPredefinedKey(k)
  {
    SuffixedDomainIsPredefined(k, FLAVOR_PREFIX, 7);
  }

  lemma WorkloadLabelIsPredefined(k: string)
    requires HasPrefix(k, WORKLOAD_PREFIX)
    ensures IsPredefinedKey(k)
  {
    SuffixedDomainIsPredefined(k, WORKLOAD_PREFIX, 9);
  }

  lemma DeprecatedIsPredefined()
    ensures IsPredefinedKey(DEPRECATED)
  {
    var k := DEPRECATED;
    assert k[0..] == k && HasPrefix(k[0..], TEMPLATE_DOMAIN);
  }

  /** Everything that deprecation changes belongs to the shipped templates. */
  lemma SelectorIsPredefined(k: string)
    requires IsSelectorLabel(k)
    ensures IsPredefinedKey(k)
  {
    if HasPrefix(k, OS_PREFIX) { OsLabelIsPredefined(k); }
    else if HasPrefix(k, FLAVOR_PREFIX) { FlavorLabelIsPredefined(k); }
    else { WorkloadLabelIsPredefined(k); }
  }

  lemma SyncedIsDeprecatedIff(shipped: Object, o: Object)
    ensures IsDeprecated(Reworked(SyncTemplate, shipped, o)) <==> IsDeprecated(shipped)
  {
    var f := Reworked(SyncTemplate, shipped, o);
    DeprecatedIsPredefined();
    assert Lookup(f.labels, DEPRECATED) == Lookup(shipped.labels, DEPRECATED);
    assert Lookup(f.annotations, DEPRECATED) == Lookup(shipped.annotations, DEPRECATED);
    forall k | IsSelectorLabel(k) ensures k in f.labels <==> k in shipped.labels { SelectorIsPredefined(k); }
  }

  lemma MergeIsDeprecatedIff(shipped: Object, o: Object)
    ensures IsDeprecated(Merge(shipped, o)) <==> MergesDeprecated(shipped, o)
  {
    var all := o.labels + shipped.labels;
    assert all.Keys == o.labels.Keys + shipped.labels.Keys;
  }

  // ----- runs

  datatype World = World(server: Server, cache: Cache)

  /**
   The template is listed, and later read; or a shipped template is deployed in its place. Everything
   else that happens leaves its cache entry alone or empties the cache.
   */
  datatype Event =
    | Process(listed: Object, seen: Option<Object>, fault: Fault)
    | Deploy(shipped: Object, seen: Option<Object>, fault: Fault)
    | Elsewhere(b: Builder, seen: Option<Object>, fault: Fault)
    | Client(w: Write)
    | Clear

  ghost predicate Legal(w: World, e: Event, key: Key) {
    match e
    case Process(listed, seen, _) =>
      && listed in w.server.published
      && listed.key == key
      && (seen.Some? ==> seen.value in w.server.published && seen.value.key == key)
    case Deploy(shipped, seen, _) =>
      && shipped.key == key
      && (seen.Some? ==> seen.value in w.server.published && seen.value.key == key)
    case Elsewhere(b, seen, _) =>
      CacheKeyOf(b.expected) != CacheKeyFor(key) && (seen.Some? ==> seen.value.key == b.expected.key)
    case _ => true
  }

  predicate IsPass(e: Event) {
    e.Process? || e.Deploy?
  }

  function BuilderFor(e: Event, owner: Owner, app: StringMap): Builder
    requires IsPass(e)
  {
    if e.Process? then DeprecateBuilder(e.listed, owner, app) else Builder(e.shipped, SyncTemplate, false, false)
  }

  function Reconciled(w: World, b: Builder, seen: Option<Object>, fault: Fault): World {
    var step := Reconcile(w.server, w.cache, b, seen, fault);
    World(step.server, step.cache)
  }

  function Next(w: World, e: Event, owner: Owner, app: StringMap): World {
    match e
    case Process(_, seen, fault) => Reconciled(w, BuilderFor(e, owner, app), seen, fault)
    case Deploy(_, seen, fault) => Reconciled(w, BuilderFor(e, owner, app), seen, fault)
    case Elsewhere(b, seen, fault) => Reconciled(w, b, seen, fault)
    case Client(write) => w.(server := Apply(w.server, write).server)
    case Clear => w.(cache := map[])
  }

  /** The cache vouches only for a deprecated version. */
  ghost predicate Honest(w: World, key: Key) {
    CacheKeyFor(key) in w.cache ==> exists p <- w.server.published :: VouchedFor(w.cache[CacheKeyFor(key)], p, key)
  }

  ghost predicate VouchedFor(entry: CacheEntry, p: Object, key: Key) {
    p.key == key && Matches(entry, p) && IsDeprecated(p)
  }

  ghost predicate Good(w: World, key: Key) {
    key.kind == TEMPLATE && Consistent(w.server) && Honest(w, key)
  }

  lemma HonestHit(w: World, key: Key, v: Object)
    requires Good(w, key) && v in w.server.published && v.key == key && Contains(w.cache, v)
    ensures IsDeprecated(v)
  {
    var p :| p in w.server.published && VouchedFor(w.cache[CacheKeyFor(key)], p, key);
    assert WellFormed(w.server, v) && WellFormed(w.server, p) && Agree(v, p);
  }

  lemma BlankIsNoHit(w: World, key: Key, like: Object)
    requires Good(w, key) && like.key == key
    ensures !Contains(w.cache, Blank(like))
  {
    if CacheKeyFor(key) in w.cache {
      var p :| p in w.server.published && VouchedFor(w.cache[CacheKeyFor(key)], p, key);
      assert WellFormed(w.server, p);
    }
  }

  /** The pass succeeds and records the object it leaves. */
  predicate Records(w: World, e: Event, owner: Owner, app: StringMap) {
    IsPass(e)
    && var result := Reconcile(w.server, w.cache, BuilderFor(e, owner, app), e.seen, e.fault).result;
       result.Done? && !result.gone
  }

  /** What the pass leaves is deprecated, told from what it lists or ships, what it finds, and the cache. */
  ghost predicate Deprecates(c: Cache, e: Event)
    requires IsPass(e)
  {
    if e.Process? then LeavesDeprecated(c, e.listed, e.seen) else DeploysDeprecated(c, e.shipped, e.seen)
  }

  ghost predicate Spoils(w: World, e: Event, owner: Owner, app: StringMap) {
    Records(w, e, owner, app) && !Deprecates(w.cache, e)
  }

  /** A step that leaves the entry alone keeps the cache honest. */
  lemma EntryStaysHonest(w: World, w': World, key: Key)
    requires Good(w, key) && Consistent(w'.server) && w.server.published <= w'.server.published
    requires CacheKeyFor(key) in w'.cache ==>
               CacheKeyFor(key) in w.cache && w'.cache[CacheKeyFor(key)] == w.cache[CacheKeyFor(key)]
    ensures Good(w', key)
  {
    if CacheKeyFor(key) in w'.cache {
      var p :| p in w.server.published && VouchedFor(w.cache[CacheKeyFor(key)], p, key);
      assert VouchedFor(w'.cache[CacheKeyFor(key)], p, key);
    }
  }

  lemma ElsewhereStaysHonest(
    w: World, key: Key, b: Builder, seen: Option<Object>, fault: Fault, owner: Owner, app: StringMap)
    requires Good(w, key) && Legal(w, Elsewhere(b, seen, fault), key)
    ensures Good(Next(w, Elsewhere(b, seen, fault), owner, app), key)
  {
    ReconcileKeepsConsistent(w.server, w.cache, b, seen, fault);
    CacheEffect(w.server, w.cache, b, seen, fault);
    EntryStaysHonest(w, Next(w, Elsewhere(b, seen, fault), owner, app), key);
  }

  /** The object that a pass works on. */
  function Found(b: Builder, seen: Option<Object>): Object {
    if seen.Some? then seen.value else Blank(b.expected)
  }

  /** What a recording pass recorded. */
  lemma RecordedVersion(w: World, b: Builder, seen: Option<Object>, fault: Fault) returns (f: Object)
    requires Consistent(w.server)
    requires seen.Some? ==> seen.value in w.server.published && seen.value.key == b.expected.key
    requires var result := Reconcile(w.server, w.cache, b, seen, fault).result; result.Done? && !result.gone
    ensures var w' := Reconciled(w, b, seen, fault);
            var sent := Mutate(b, w.cache, Found(b, seen));
            && f in w'.server.published
            && f.key == b.expected.key
            && w'.cache == Add(w.cache, f)
            && (seen.Some? ==> !seen.value.terminating)
            && f.labels == sent.labels
            && f.annotations == sent.annotations
  {
    f := Recorded(w.server, w.cache, b, seen);
    CacheEffect(w.server, w.cache, b, seen, fault);
    var sys := CacheSoundness.System(w.server, w.cache, ZERO_SPEC, map[], map[]);
    CacheSoundness.RecordedIsPublished(sys, b, seen, fault);
  }

  lemma RecordedEntryIsHonestIff(w': World, c: Cache, f: Object, key: Key)
    requires key.kind == TEMPLATE && Consistent(w'.server) && f in w'.server.published && f.key == key
             && w'.cache == Add(c, f)
    ensures Honest(w', key) <==> IsDeprecated(f)
  {
    assert WellFormed(w'.server, f);
    if IsDeprecated(f) {
      assert VouchedFor(w'.cache[CacheKeyFor(key)], f, key);
    } else {
      forall p <- w'.server.published | p.key == key && Matches(w'.cache[CacheKeyFor(key)], p) ensures p == f {
        assert WellFormed(w'.server, p) && Agree(p, f);
      }
    }
  }

  lemma ProcessedIsDeprecatedIff(
    w: World, listed: Object, seen: Option<Object>, owner: Owner, app: StringMap, key: Key)
    requires Good(w, key) && PlainApp(app) && listed.key == key && (seen.Some? ==> !seen.value.terminating)
    ensures var b := DeprecateBuilder(listed, owner, app);
            IsDeprecated(Mutate(b, w.cache, Found(b, seen))) <==> LeavesDeprecated(w.cache, listed, seen)
  {
    if seen.Some? {
      PassDeprecatesListedIff(w.cache, listed, seen.value, owner, app);
    } else {
      BlankIsNoHit(w, key, listed);
      ReworkedIsDeprecated(listed, Blank(listed), owner, app);
      assert Blank(DeprecateBuilder(listed, owner, app).expected) == Blank(listed);
    }
  }

  lemma DeployedIsDeprecatedIff(w: World, shipped: Object, seen: Option<Object>, key: Key)
    requires Good(w, key) && shipped.key == key && (seen.Some? ==> !seen.value.terminating)
    ensures var b := Builder(shipped, SyncTemplate, false, false);
            IsDeprecated(Mutate(b, w.cache, Found(b, seen))) <==> DeploysDeprecated(w.cache, shipped, seen)
  {
    BlankIsNoHit(w, key, shipped);
    var o := if seen.Some? then seen.value else Blank(shipped);
    SyncedIsDeprecatedIff(shipped, o);
    MergeIsDeprecatedIff(shipped, o);
  }

  lemma RecordingIsHonestIff(w: World, e: Event, owner: Owner, app: StringMap, key: Key)
    requires Good(w, key) && PlainApp(app) && IsPass(e) && Legal(w, e, key) && Records(w, e, owner, app)
    ensures var w' := Next(w, e, owner, app);
            Consistent(w'.server) && (Honest(w', key) <==> Deprecates(w.cache, e))
  {
    var b := BuilderFor(e, owner, app);
    ReconcileKeepsConsistent(w.server, w.cache, b, e.seen, e.fault);
    var f := RecordedVersion(w, b, e.seen, e.fault);
    if e.Process? { ProcessedIsDeprecatedIff(w, e.listed, e.seen, owner, app, key); }
    else { DeployedIsDeprecatedIff(w, e.shipped, e.seen, key); }
    RecordedEntryIsHonestIff(Next(w, e, owner, app), w.cache, f, key);
  }

  lemma OtherPassStaysHonest(w: World, e: Event, owner: Owner, app: StringMap, key: Key)
    requires Good(w, key) && IsPass(e) && Legal(w, e, key) && !Records(w, e, owner, app)
    ensures Good(Next(w, e, owner, app), key)
  {
    var b := BuilderFor(e, owner, app);
    ReconcileKeepsConsistent(w.server, w.cache, b, e.seen, e.fault);
    CacheEffect(w.server, w.cache, b, e.seen, e.fault);
    EntryStaysHonest(w, Next(w, e, owner, app), key);
  }

  /** The one kind of step that makes the cache vouch for a template that is not deprecated. */
  lemma StepStaysHonestIff(w: World, e: Event, owner: Owner, app: StringMap, key: Key)
    requires Good(w, key) && PlainApp(app) && Legal(w, e, key)
    ensures Good(Next(w, e, owner, app), key) <==> !Spoils(w, e, owner, app)
  {
    if IsPass(e) {
      if Records(w, e, owner, app) { RecordingIsHonestIff(w, e, owner, app, key); }
      else { OtherPassStaysHonest(w, e, owner, app, key); }
    } else {
      OtherStepStaysHonest(w, e, owner, app, key);
    }
  }

  lemma OtherStepStaysHonest(w: World, e: Event, owner: Owner, app: StringMap, key: Key)
    requires Good(w, key) && Legal(w, e, key) && !IsPass(e)
    ensures Good(Next(w, e, owner, app), key)
  {
    match e
    case Elsewhere(b, seen, fault) => ElsewhereStaysHonest(w, key, b, seen, fault, owner, app);
    case Client(write) =>
      WritesKeepConsistent(w.server, write);
      EntryStaysHonest(w, Next(w, e, owner, app), key);
    case Clear => EntryStaysHonest(w, Next(w, e, owner, app), key);
  }

  function Run(w: World, events: seq<Event>, owner: Owner, app: StringMap): World
    decreases |events|
  {
    if events == [] then w else Run(Next(w, events[0], owner, app), events[1..], owner, app)
  }

  ghost predicate LegalRun(w: World, events: seq<Event>, owner: Owner, app: StringMap, key: Key)
    decreases |events|
  {
    events != [] ==> Legal(w, events[0], key) && LegalRun(Next(w, events[0], owner, app), events[1..], owner, app, key)
  }

  ghost predicate NeverSpoils(w: World, events: seq<Event>, owner: Owner, app: StringMap)
    decreases |events|
  {
    events != [] ==>
      !Spoils(w, events[0], owner, app) && NeverSpoils(Next(w, events[0], owner, app), events[1..], owner, app)
  }

  ghost predicate AlwaysGood(w: World, events: seq<Event>, owner: Owner, app: StringMap, key: Key)
    decreases |events|
  {
    Good(w, key) && (events != [] ==> AlwaysGood(Next(w, events[0], owner, app), events[1..], owner, app, key))
  }

  /** Over every run the cache vouches only for deprecated versions exactly if no pass spoils it. */
  lemma {:induction false} CacheIsHonestIff(w: World, events: seq<Event>, owner: Owner, app: StringMap, key: Key)
    requires Good(w, key) && PlainApp(app) && LegalRun(w, events, owner, app, key)
    ensures AlwaysGood(w, events, owner, app, key) <==> NeverSpoils(w, events, owner, app)
    ensures NeverSpoils(w, events, owner, app) ==> Good(Run(w, events, owner, app), key)
    decreases |events|
  {
    if events != [] {
      StepStaysHonestIff(w, events[0], owner, app, key);
      if !Spoils(w, events[0], owner, app) {
        CacheIsHonestIff(Next(w, events[0], owner, app), events[1..], owner, app, key);
      }
    }
  }

  /** A pass that reads the version it listed never spoils an honest cache. */
  lemma SameVersionIsFine(w: World, o: Object, fault: Fault, owner: Owner, app: StringMap, key: Key)
    requires Good(w, key) && o in w.server.published && o.key == key
    ensures !Spoils(w, Process(o, Some(o), fault), owner, app)
  {
    if Contains(w.cache, o) { HonestHit(w, key, o); }
  }

  /** After every run that does not spoil the cache, a pass deprecates every outdated template. */
  lemma OutdatedIsDeprecatedOverRuns(
    w: World, events: seq<Event>, work: Work, owner: Owner, sspLabels: StringMap, parse: Parser, key: Key)
    requires Good(w, key)
    requires var app := TemplateLabels(sspLabels);
             LegalRun(w, events, owner, app, key) && NeverSpoils(w, events, owner, app)
    requires var now := Run(w, events, owner, TemplateLabels(sspLabels)).server;
             && Typed(now)
             && WellFormedWork(now, work, owner, parse)
             && Concerned(now, work, owner, key)
             && FateOf(now.objects[key], work.archs, parse, work.latest).Outdated?
    ensures var app := TemplateLabels(sspLabels);
            var now := Run(w, events, owner, app);
            var after := After(State(now.server, now.cache), work, owner, app).server;
            key in after.objects && IsDeprecated(after.objects[key])
  {
    var app := TemplateLabels(sspLabels);
    TemplateLabelsArePlain(sspLabels);
    var now := Run(w, events, owner, app);
    CacheIsHonestIff(w, events, owner, app, key);
    var o := now.server.objects[key];
    assert Newest(now.server, key);
    if Contains(now.cache, o) { HonestHit(now, key, o); }
    PassDeprecatesIff(State(now.server, now.cache), work, owner, app, parse, key);
  }

  // ----- the run that spoils it

  /** The first pass deprecates the template and records it. */
  lemma FirstPass(w: World, o: Object, owner: Owner, app: StringMap)
    requires Consistent(w.server) && o.key.kind == TEMPLATE && o.key in w.server.objects && w.server.objects[o.key] == o
    requires !o.terminating && CacheKeyFor(o.key) !in w.cache && PlainApp(app)
    ensures var w' := Next(w, Process(o, Some(o), NoFault), owner, app);
            && Consistent(w'.server)
            && w.server.published <= w'.server.published
            && o.key in w'.server.objects
            && var f := w'.server.objects[o.key];
               f == Marked(o, owner, app).(version := f.version, generation := f.generation) && Contains(w'.cache, f)
  {
    DeprecationStep(w.server, w.cache, o, owner, app);
    ReconcileKeepsConsistent(w.server, w.cache, DeprecateBuilder(o, owner, app), Some(o), NoFault);
  }

  /** The found object with the listed one merged over it, as the server stamped it. */
  predicate MergedFrom(listed: Object, o: Object, owner: Owner, app: StringMap, f: Object) {
    var merged := Merge(DeprecateBuilder(listed, owner, app).expected, o);
    f == merged.(version := f.version, generation := f.generation)
  }

  /** A pass that only merges leaves its own object, and the cache vouches for it. */
  lemma MergingPass(w: World, listed: Object, o: Object, owner: Owner, app: StringMap)
    requires Consistent(w.server) && o.key.kind == TEMPLATE && o.key in w.server.objects && w.server.objects[o.key] == o
    requires !o.terminating && Contains(w.cache, o) && listed.key == o.key
    ensures var w' := Next(w, Process(listed, Some(o), NoFault), owner, app);
            && o.key in w'.server.objects
            && var f := w'.server.objects[o.key];
               && MergedFrom(listed, o, owner, app, f)
               && w'.cache == Add(w.cache, f)
  {
    assert Newest(w.server, o.key) && WellFormed(w.server, o);
    var found := Merge(DeprecateBuilder(listed, owner, app).expected, o);
    if found != o {
      FreshUpdate(w.server, o, found);
      UpdateKeepsConsistent(w.server, found);
      NoDefaultsNoChange(found);
      assert Newest(Update(w.server, found).server, o.key);
    }
  }

  lemma MergedAgainIsSame(listed: Object, o: Object, f: Object, owner: Owner, app: StringMap)
    requires MergedFrom(listed, o, owner, app, f)
    ensures Merged(f, owner, app) == f
  {
    Absorbs(f.labels, app);
    Absorbs(f.annotations, OwnerAnnotations(owner));
  }

  /**
   From then on no quiet pass changes the server or the cache: the template stays offered until the
   cache is emptied.
   */
  lemma RestingForGood(w: World, o: Object, owner: Owner, app: StringMap)
    requires o.key in w.server.objects && w.server.objects[o.key] == o && !o.terminating && o.key.kind == TEMPLATE
    requires Merged(o, owner, app) == o && Add(w.cache, o) == w.cache && Consistent(w.server)
    ensures Next(w, Process(o, Some(o), NoFault), owner, app) == w
  {
    assert Newest(w.server, o.key) && WellFormed(w.server, o);
    MutationReprocesses(w.cache, o, owner, app);
  }

  /** The template carries a label that offers it, the cache vouches for it, and quiet passes change nothing. */
  ghost predicate Spoilt(w: World, key: Key, owner: Owner, app: StringMap, k: string) {
    && key in w.server.objects
    && var o := w.server.objects[key];
       && k in o.labels
       && Contains(w.cache, o)
       && Next(w, Process(o, Some(o), NoFault), owner, app) == w
  }

  lemma SecondPass(w: World, listed: Object, o: Object, owner: Owner, app: StringMap, k: string)
    requires Consistent(w.server) && o.key.kind == TEMPLATE && o.key in w.server.objects && w.server.objects[o.key] == o
    requires !o.terminating && Contains(w.cache, o) && listed.key == o.key && k in listed.labels
    ensures Spoilt(Next(w, Process(listed, Some(o), NoFault), owner, app), o.key, owner, app, k)
  {
    MergingPass(w, listed, o, owner, app);
    ReconcileKeepsConsistent(w.server, w.cache, DeprecateBuilder(listed, owner, app), Some(o), NoFault);
    var w' := Next(w, Process(listed, Some(o), NoFault), owner, app);
    MergedRests(w, w', listed, o, owner, app);
  }

  lemma MergedRests(w: World, w': World, listed: Object, o: Object, owner: Owner, app: StringMap)
    requires Consistent(w'.server) && o.key.kind == TEMPLATE && o.key in w'.server.objects && !o.terminating
    requires var f := w'.server.objects[o.key];
             && MergedFrom(listed, o, owner, app, f)
             && w'.cache == Add(w.cache, f)
    ensures var f := w'.server.objects[o.key];
            && Contains(w'.cache, f)
            && listed.labels.Keys <= f.labels.Keys
            && Next(w', Process(f, Some(f), NoFault), owner, app) == w'
  {
    var f := w'.server.objects[o.key];
    MergedAgainIsSame(listed, o, f, owner, app);
    assert Newest(w'.server, o.key) && WellFormed(w'.server, f);
    RestingForGood(w', f, owner, app);
  }

  lemma TwoSteps(w: World, first: Event, second: Event, owner: Owner, app: StringMap, key: Key)
    requires Legal(w, first, key) && Legal(Next(w, first, owner, app), second, key)
    ensures LegalRun(w, [first, second], owner, app, key)
    ensures Run(w, [first, second], owner, app) == Next(Next(w, first, owner, app), second, owner, app)
  {
    var w1 := Next(w, first, owner, app);
    assert [first, second][1..] == [second] && [second][1..] == [];
    assert LegalRun(w1, [second], owner, app, key);
    assert Run(w1, [second], owner, app) == Next(w1, second, owner, app);
  }

  /**
   Deprecate a template, then list its old version but read the new one: the labels that offer
   the template are back in the cluster, the cache vouches for it, and every further quiet pass
   leaves all of that as it is.
   */
  lemma StaleListSpoils(w: World, o: Object, o1: Object, owner: Owner, app: StringMap, k: string)
    requires Consistent(w.server) && o.key.kind == TEMPLATE && o.key in w.server.objects && w.server.objects[o.key] == o
    requires !o.terminating && CacheKeyFor(o.key) !in w.cache && PlainApp(app)
    requires k in o.labels && IsSelectorLabel(k)
    requires Lookup(Next(w, Process(o, Some(o), NoFault), owner, app).server.objects, o.key) == Some(o1)
    ensures IsDeprecated(o1)
    ensures LegalRun(w, [Process(o, Some(o), NoFault), Process(o, Some(o1), NoFault)], owner, app, o.key)
    ensures var after := Run(w, [Process(o, Some(o), NoFault), Process(o, Some(o1), NoFault)], owner, app);
            Spoilt(after, o.key, owner, app, k)
  {
    FirstPass(w, o, owner, app);
    MarkedIsDeprecated(o, owner, app);
    var w1 := Next(w, Process(o, Some(o), NoFault), owner, app);
    SecondPass(w1, o, o1, owner, app, k);
    assert Newest(w.server, o.key) && Newest(w1.server, o.key);
    TwoSteps(w, Process(o, Some(o), NoFault), Process(o, Some(o1), NoFault), owner, app, o.key);
  }
}

/**
 Passes over one object in a quiet cluster: reads are fresh and nothing fails. Whatever
 was stored before, at most two passes write and all later ones find nothing to do.
 */
module Convergence {
  import opened Kube
  import opened ApiServer
  import opened UpdateFuncs
  import opened Engine
  import opened Ssp
  import opened CacheSoundness
  import opened CacheAgreement

  function Quiet(s: Server, c: Cache, b: Builder): Step {
    Reconcile(s, c, b, Lookup(s.objects, b.expected.key), NoFault)
  }

  function Again(b: Builder): Step -> Step {
    (before: Step) => Quiet(before.server, before.cache, b)
  }

  function Repeat(again: Step -> Step, first: Step, n: nat): Step {
    if n == 0 then first else again(Repeat(again, first, n - 1))
  }

  /** The n-th of a row of quiet passes, counted from zero. */
  function Pass(s: Server, c: Cache, b: Builder, n: nat): Step {
    Repeat(Again(b), Quiet(s, c, b), n)
  }

  /** The fields the update function takes over from what it finds, or none if it leaves the spec alone. */
  function FoundFields(u: UpdateFunc): Option<set<string>> {
    match u
    case Copy(keep) => Some(keep)
    case SyncTemplate => Some({})
    case HandOver(auto, _, _) => if auto then None else Some({})
    case _ => None
  }

  /** Every field that the server fills in is one that the update function sets or takes over. */
  predicate StorableSpec(u: UpdateFunc, kind: Kind, expected: Spec) {
    FoundFields(u).Some? && expected.Fields? ==> kind.defaults.Keys <= expected.fields.Keys + FoundFields(u).value
  }

  /** A pass that cannot rely on the cache needs a spec that the server stores as written. */
  predicate Storable(b: Builder) {
    b.always || b.expected.key.kind.name == "" ==> StorableSpec(b.update, b.expected.key.kind, b.expected.spec)
  }

  predicate WellFormedBuilder(b: Builder) {
    && Compatible(b.update, b.expected)
    && (b.immutableSpec ==> b.update == Copy({}))
    && Storable(b)
  }

  /** Cache entries come from stored objects, and a hit on the current object means it is in order. */
  ghost predicate Trusted(s: Server, c: Cache, b: Builder) {
    && (CacheKeyOf(b.expected) in c ==> c[CacheKeyOf(b.expected)].uid >= 1)
    && (b.expected.key in s.objects && !b.always && Contains(c, s.objects[b.expected.key]) ==>
          Fixed(b.update, b.expected, s.objects[b.expected.key]))
  }

  /** No object that is being deleted, and none that a delete would leave behind. */
  predicate Deletable(s: Server, b: Builder) {
    b.expected.key in s.objects ==>
      var o := s.objects[b.expected.key];
      !o.terminating && (b.immutableSpec ==> o.finalizers == {})
  }

  /** Nothing is left to do for the stored object. */
  ghost predicate Settled(s: Server, c: Cache, b: Builder) {
    && b.expected.key in s.objects
    && var o := s.objects[b.expected.key];
       !o.terminating && Mutate(b, c, o) == o && Fixed(b.update, b.expected, o)
  }

  lemma NoDefaultsNoChange(o: Object)
    requires o.key.kind.defaults == map[]
    ensures Stored(o) == o
  {
    if o.spec.Fields? { assert map[] + o.spec.fields == o.spec.fields; }
  }

  /** A stored spec that differs from what the update function makes of it at most by defaults. */
  lemma StorableIsStored(u: UpdateFunc, kind: Kind, found: Spec, expected: Spec)
    requires StorableSpec(u, kind, expected) && Defaulted(kind, SpecAfter(u, found, expected)) == found
    ensures SpecAfter(u, found, expected) == found
  {
    var made := SpecAfter(u, found, expected);
    if made.Fields? {
      assert kind.defaults + made.fields == found.fields;
      assert forall k <- kind.defaults :: k in found.fields;
      if FoundFields(u).Some? { assert forall k <- kind.defaults :: k in made.fields; }
      assert kind.defaults + made.fields == made.fields;
    }
  }

  /** Otherwise the update function always takes a field away that the server fills in again. */
  lemma UnstorableIsRewritten(u: UpdateFunc, kind: Kind, found: Spec, expected: Spec)
    requires !StorableSpec(u, kind, expected) && Defaulted(kind, found) == found
    ensures SpecAfter(u, found, expected) != found
  {
    var k :| k in kind.defaults && k !in expected.fields && k !in FoundFields(u).value;
    if found.Fields? {
      assert k in (kind.defaults + found.fields).Keys;
      assert SpecAfter(u, found, expected).Fields? && k !in SpecAfter(u, found, expected).fields;
    }
  }

  /** An object that is merged and fixed, and recorded, is settled. */
  lemma RecordedSettles(s: Server, c: Cache, b: Builder)
    requires Consistent(s) && WellFormedBuilder(b) && b.expected.key in s.objects
    requires var o := s.objects[b.expected.key];
             !o.terminating && Merge(b.expected, o) == o && Fixed(b.update, b.expected, o)
    ensures Settled(s, Add(c, s.objects[b.expected.key]), b)
  {
    var o := s.objects[b.expected.key];
    assert Newest(s, o.key) && WellFormed(s, o);
    FixedSpec(b.update, b.expected, o);
    if b.always || b.expected.key.kind.name == "" {
      StorableIsStored(b.update, o.key.kind, o.spec, b.expected.spec);
      assert Reworked(b.update, b.expected, o) == Stored(Reworked(b.update, b.expected, o));
    }
  }

  /** From then on every pass returns "unchanged" and writes nothing. */
  lemma SettledStays(s: Server, c: Cache, b: Builder)
    requires Consistent(s) && WellFormedBuilder(b) && Settled(s, c, b)
    ensures var step := Quiet(s, c, b);
            && step.result == Done(Unchanged, false)
            && step.server == s
            && Settled(s, step.cache, b)
  {
    var o := s.objects[b.expected.key];
    if b.always || !Contains(c, o) { UntouchedIsMerged(b.update, b.expected, o); }
    RecordedSettles(s, c, b);
  }

  /** What a fresh update leaves at the key. */
  lemma FreshUpdate(s: Server, o: Object, found: Object)
    requires Consistent(s) && o.key in s.objects && s.objects[o.key] == o && !o.terminating && !found.terminating
    requires found.key == o.key && found.uid == o.uid && found.version == o.version && found.conditions == o.conditions
    ensures var reply := Update(s, found);
            && reply.outcome.Ok?
            && o.key in reply.server.objects
            && reply.server.objects[o.key] == reply.outcome.value
            && var f := reply.outcome.value;
               f == Stored(found).(version := f.version, generation := f.generation)
  {
    assert Newest(s, o.key);
  }

  /** What a create leaves at the key. */
  lemma FreshCreate(s: Server, o: Object)
    requires o.key !in s.objects && !o.terminating
    ensures var reply := Create(s, o);
            && reply.outcome.Ok?
            && o.key in reply.server.objects
            && reply.server.objects[o.key] == reply.outcome.value
            && var f := reply.outcome.value;
               f == Stored(o).(uid := f.uid, version := f.version, generation := f.generation,
                               conditions := f.conditions)
  {
  }

  lemma AbsentIsCreated(s: Server, c: Cache, b: Builder)
    requires Consistent(s) && WellFormedBuilder(b) && Trusted(s, c, b) && b.expected.key !in s.objects
    ensures var step := Quiet(s, c, b);
            && step.result == Done(Created, false)
            && Settled(step.server, step.cache, b)
            && Consistent(step.server)
  {
    var blank := Blank(b.expected);
    var made := Reworked(b.update, b.expected, blank);
    assert Mutate(b, c, blank) == made;
    FreshCreate(s, made);
    CreateKeepsConsistent(s, made);
    var s' := Create(s, made).server;
    UpdateSettles(b.update, b.expected, blank, s'.objects[b.expected.key]);
    RecordedSettles(s', c, b);
  }

  /** The found object, merged with what a hit knows to be in order, or reworked. */
  lemma RevisedSettles(s: Server, c: Cache, b: Builder, f: Object)
    requires WellFormedBuilder(b) && Trusted(s, c, b) && b.expected.key in s.objects
    requires var o := s.objects[b.expected.key]; o.key == b.expected.key && !o.terminating && Stored(o) == o
    requires var found := Mutate(b, c, s.objects[b.expected.key]);
             f == Stored(found).(version := f.version, generation := f.generation)
    ensures Merge(b.expected, f) == f && Fixed(b.update, b.expected, f)
  {
    var o := s.objects[b.expected.key];
    if b.always || !Contains(c, o) {
      UpdateSettles(b.update, b.expected, o, f);
    } else {
      var merged := Merge(b.expected, o);
      assert merged.labels + b.expected.labels == merged.labels;
      assert merged.annotations + b.expected.annotations == merged.annotations;
      assert f.(version := o.version, generation := o.generation) == merged;
    }
  }

  /** A pass over a stored object settles it, or deletes it because its spec may not be changed. */
  lemma PresentIsSettledOrDeleted(s: Server, c: Cache, b: Builder)
    requires Consistent(s) && WellFormedBuilder(b) && Trusted(s, c, b) && Deletable(s, b)
    requires b.expected.key in s.objects
    ensures var step := Quiet(s, c, b);
            && Consistent(step.server)
            && (|| Settled(step.server, step.cache, b)
                || (&& b.immutableSpec
                    && step.result == Done(Deleted, true)
                    && step.server == s.(objects := s.objects - {b.expected.key})
                    && step.cache == c - {CacheKeyOf(b.expected)}))
  {
    var o := s.objects[b.expected.key];
    assert Newest(s, o.key) && WellFormed(s, o);
    ReconcileKeepsConsistent(s, c, b, Some(o), NoFault);
    var found := Mutate(b, c, o);
    if found == o {
      RevisedSettles(s, c, b, o);
      RecordedSettles(s, c, b);
    } else if b.immutableSpec && o.spec != found.spec {
      PresentIsDeleted(s, c, b, o);
    } else {
      PresentIsUpdated(s, c, b, o, found);
    }
  }

  lemma PresentIsDeleted(s: Server, c: Cache, b: Builder, o: Object)
    requires b.expected.key in s.objects && o == s.objects[b.expected.key] && o.key == b.expected.key
    requires !o.terminating && o.finalizers == {} && b.immutableSpec && Mutate(b, c, o).spec != o.spec
    ensures Quiet(s, c, b) ==
            Step(s.(objects := s.objects - {b.expected.key}), c - {CacheKeyOf(b.expected)}, Done(Deleted, true))
  {
    assert WriteFor(b, c, Some(o)) == Some(DeleteOp(o.key));
  }

  lemma PresentIsUpdated(s: Server, c: Cache, b: Builder, o: Object, found: Object)
    requires Consistent(s) && WellFormedBuilder(b) && Trusted(s, c, b) && b.expected.key in s.objects
    requires o == s.objects[b.expected.key] && o.key == b.expected.key && !o.terminating && Stored(o) == o
    requires found == Mutate(b, c, o) && found != o
    ensures var reply := Update(s, found);
            && reply.outcome.Ok?
            && !reply.outcome.value.terminating
            && Settled(reply.server, Add(c, reply.outcome.value), b)
  {
    FreshUpdate(s, o, found);
    UpdateKeepsConsistent(s, found);
    var s' := Update(s, found).server;
    RevisedSettles(s, c, b, s'.objects[o.key]);
    RecordedSettles(s', c, b);
  }

  /** Dropping an object and its entry leaves a state from which it is created again. */
  lemma DeletionKeepsTrust(s: Server, c: Cache, b: Builder)
    requires Trusted(s, c, b)
    ensures Trusted(s.(objects := s.objects - {b.expected.key}), c - {CacheKeyOf(b.expected)}, b)
  {
  }

  lemma TwoPassesSettle(s: Server, c: Cache, b: Builder)
    requires Consistent(s) && WellFormedBuilder(b) && Trusted(s, c, b) && Deletable(s, b)
    ensures var second := Pass(s, c, b, 1); Consistent(second.server) && Settled(second.server, second.cache, b)
  {
    var first := Quiet(s, c, b);
    assert Repeat(Again(b), first, 0) == first;
    assert Pass(s, c, b, 1) == Again(b)(first);
    if b.expected.key in s.objects { PresentIsSettledOrDeleted(s, c, b); } else { AbsentIsCreated(s, c, b); }
    if Settled(first.server, first.cache, b) {
      SettledStays(first.server, first.cache, b);
    } else {
      DeletionKeepsTrust(s, c, b);
      AbsentIsCreated(first.server, first.cache, b);
    }
  }

  /** What holds after the first pass and is kept by every pass holds after each of them. */
  lemma {:induction false} PassesKeep(again: Step -> Step, first: Step, inv: Step -> bool, n: nat)
    requires inv(first) && forall x: Step :: inv(x) ==> inv(again(x))
    ensures inv(Repeat(again, first, n))
  {
    if n > 0 { PassesKeep(again, first, inv, n - 1); }
  }

  /** If it also makes the next result "unchanged", every later result is. */
  lemma RestsAfter(again: Step -> Step, first: Step, inv: Step -> bool, n: nat)
    requires inv(first) && forall x: Step :: inv(x) ==> inv(again(x)) && again(x).result == Done(Unchanged, false)
    ensures inv(Repeat(again, first, n))
    ensures n > 0 ==> Repeat(again, first, n).result == Done(Unchanged, false)
  {
    PassesKeep(again, first, inv, n);
    if n > 0 { PassesKeep(again, first, inv, n - 1); }
  }

  lemma {:induction false} PassesCompose(again: Step -> Step, first: Step, m: nat, n: nat)
    ensures Repeat(again, first, m + n) == Repeat(again, Repeat(again, first, m), n)
  {
    if n > 0 { PassesCompose(again, first, m, n - 1); }
  }

  /** Settled, in one and the same server state. */
  ghost function SettledAt(s: Server, b: Builder): Step -> bool {
    (x: Step) => Consistent(s) && Settled(s, x.cache, b) && x.server == s
  }

  lemma SettledSteps(s: Server, b: Builder)
    requires WellFormedBuilder(b)
    ensures forall x: Step :: SettledAt(s, b)(x) ==>
              SettledAt(s, b)(Again(b)(x)) && Again(b)(x).result == Done(Unchanged, false)
  {
    forall x: Step | SettledAt(s, b)(x)
      ensures SettledAt(s, b)(Again(b)(x)) && Again(b)(x).result == Done(Unchanged, false)
    {
      SettledStays(x.server, x.cache, b);
    }
  }

  lemma RestsOnceSettled(b: Builder, settled: Step, n: nat)
    requires WellFormedBuilder(b) && Consistent(settled.server) && Settled(settled.server, settled.cache, b)
    ensures SettledAt(settled.server, b)(Repeat(Again(b), settled, n))
    ensures n > 0 ==> Repeat(Again(b), settled, n).result == Done(Unchanged, false)
  {
    SettledSteps(settled.server, b);
    RestsAfter(Again(b), settled, SettledAt(settled.server, b), n);
  }

  /** From the third pass on nothing is written, and every result is "unchanged". */
  lemma Converges(s: Server, c: Cache, b: Builder, n: nat)
    requires Consistent(s) && WellFormedBuilder(b) && Trusted(s, c, b) && Deletable(s, b)
    requires n >= 2
    ensures Pass(s, c, b, n).result == Done(Unchanged, false)
    ensures Pass(s, c, b, n).server == Pass(s, c, b, 1).server
    ensures Settled(Pass(s, c, b, n).server, Pass(s, c, b, n).cache, b)
  {
    TwoPassesSettle(s, c, b);
    RestsOnceSettled(b, Pass(s, c, b, 1), n - 1);
    PassesCompose(Again(b), Quiet(s, c, b), 1, n - 1);
  }

  // ----- and only then

  /** An entry for the builder's object was made from a stored object of a named kind. */
  predicate RealEntry(c: Cache, b: Builder) {
    CacheKeyOf(b.expected) in c ==> b.expected.key.kind.name != "" && c[CacheKeyOf(b.expected)].uid >= 1
  }

  /** What every row of quiet passes starts from, and keeps. */
  ghost predicate Sane(s: Server, c: Cache, b: Builder) {
    Consistent(s) && Deletable(s, b) && RealEntry(c, b)
  }

  lemma QuietKeepsReal(s: Server, c: Cache, b: Builder)
    requires Consistent(s) && RealEntry(c, b)
    ensures RealEntry(Quiet(s, c, b).cache, b)
  {
    var seen := Lookup(s.objects, b.expected.key);
    if seen.Some? { assert Newest(s, b.expected.key); }
    var step := Quiet(s, c, b);
    CacheEffect(s, c, b, seen, NoFault);
    if step.result.Done? && !step.result.gone {
      RecordedIsPublished(System(s, c, ZERO_SPEC, map[], map[]), b, seen, NoFault);
      ReconcileKeepsConsistent(s, c, b, seen, NoFault);
      assert WellFormed(step.server, Recorded(s, c, b, seen));
    }
  }

  lemma WriteKeepsDeletable(s: Server, c: Cache, b: Builder)
    requires Consistent(s) && Deletable(s, b)
    ensures Deletable(ServerAfter(s, WriteFor(b, c, Lookup(s.objects, b.expected.key)), NoFault), b)
  {
    if b.expected.key in s.objects { assert Newest(s, b.expected.key); }
  }

  lemma QuietKeepsDeletable(s: Server, c: Cache, b: Builder)
    requires Consistent(s) && Deletable(s, b)
    ensures Deletable(Quiet(s, c, b).server, b)
  {
    if b.expected.key in s.objects { assert Newest(s, b.expected.key); }
    ReconcileSendsOneWrite(s, c, b, Lookup(s.objects, b.expected.key), NoFault);
    WriteKeepsDeletable(s, c, b);
  }

  lemma QuietKeepsSane(s: Server, c: Cache, b: Builder)
    requires Sane(s, c, b)
    ensures var step := Quiet(s, c, b); Sane(step.server, step.cache, b)
  {
    var seen := Lookup(s.objects, b.expected.key);
    if seen.Some? { assert Newest(s, b.expected.key); }
    ReconcileKeepsConsistent(s, c, b, seen, NoFault);
    QuietKeepsReal(s, c, b);
    QuietKeepsDeletable(s, c, b);
  }

  lemma PassesKeepSane(s: Server, c: Cache, b: Builder, n: nat)
    requires Sane(s, c, b)
    ensures var step := Pass(s, c, b, n); Sane(step.server, step.cache, b)
  {
    var inv := (x: Step) => Sane(x.server, x.cache, b);
    QuietKeepsSane(s, c, b);
    forall x: Step | inv(x) ensures inv(Again(b)(x)) { QuietKeepsSane(x.server, x.cache, b); }
    PassesKeep(Again(b), Quiet(s, c, b), inv, n);
  }

  lemma UnstorableDrifts(c: Cache, b: Builder, o: Object)
    requires !Storable(b) && RealEntry(c, b) && o.key == b.expected.key && Stored(o) == o && !o.terminating
    ensures Mutate(b, c, o) != o
  {
    UnstorableIsRewritten(b.update, o.key.kind, o.spec, b.expected.spec);
    assert Mutate(b, c, o) == Reworked(b.update, b.expected, o);
  }

  lemma ChangedIsNotUnchanged(s: Server, c: Cache, b: Builder)
    requires b.expected.key in s.objects ==>
               var o := s.objects[b.expected.key]; !o.terminating && Mutate(b, c, o) != o
    ensures Quiet(s, c, b).result != Done(Unchanged, false)
  {
  }

  lemma UnstorableIsWritten(s: Server, c: Cache, b: Builder)
    requires Sane(s, c, b) && !Storable(b)
    ensures Quiet(s, c, b).result != Done(Unchanged, false)
  {
    if b.expected.key in s.objects {
      var o := s.objects[b.expected.key];
      assert Newest(s, o.key) && WellFormed(s, o);
      UnstorableDrifts(c, b, o);
    }
    ChangedIsNotUnchanged(s, c, b);
  }

  // ----- a hit on an object that is not in order

  ghost predicate Hit(s: Server, c: Cache, b: Builder) {
    b.expected.key in s.objects && !b.always && Contains(c, s.objects[b.expected.key])
  }

  /** The stored object carries everything expected, and the cache recognises it. */
  ghost predicate Upheld(s: Server, c: Cache, b: Builder) {
    && Hit(s, c, b)
    && var o := s.objects[b.expected.key]; !o.terminating && Merge(b.expected, o) == o
  }

  /** Being in order does not depend on what a merge adds. */
  lemma MergedIsFixedIff(u: UpdateFunc, expected: Object, o: Object, f: Object)
    requires f == Merge(expected, o).(version := f.version, generation := f.generation)
    ensures Merge(expected, f) == f
    ensures Fixed(u, expected, f) <==> Fixed(u, expected, o)
  {
    Absorbs(f.labels, expected.labels);
    Absorbs(f.annotations, expected.annotations);
    assert Stored(Reworked(u, expected, f)) ==
           Stored(Reworked(u, expected, o)).(version := f.version, generation := f.generation);
  }

  /** A hit on a live object ends upheld, with the spec it had. */
  lemma HitMerges(s: Server, c: Cache, b: Builder)
    requires Sane(s, c, b) && Hit(s, c, b)
    ensures var step := Quiet(s, c, b);
            && Upheld(step.server, step.cache, b)
            && step.server.objects[b.expected.key].spec == s.objects[b.expected.key].spec
            && (Fixed(b.update, b.expected, step.server.objects[b.expected.key]) <==>
                  Fixed(b.update, b.expected, s.objects[b.expected.key]))
  {
    var o := s.objects[b.expected.key];
    assert Newest(s, o.key) && WellFormed(s, o);
    var found := Merge(b.expected, o);
    assert Mutate(b, c, o) == found;
    if found == o {
      MergedIsFixedIff(b.update, b.expected, o, o);
    } else {
      FreshUpdate(s, o, found);
      UpdateKeepsConsistent(s, found);
      var f := Update(s, found).outcome.value;
      assert Newest(Update(s, found).server, o.key) && WellFormed(Update(s, found).server, f);
      MergedIsFixedIff(b.update, b.expected, o, f);
    }
  }

  /** A successful pass leaves the object that it records, and any other leaves none. */
  ghost predicate LeavesRecorded(s: Server, c: Cache, b: Builder) {
    var step := Quiet(s, c, b);
    if step.result.Done? && !step.result.gone
    then Lookup(step.server.objects, b.expected.key) == Some(Recorded(s, c, b, Lookup(s.objects, b.expected.key)))
    else b.expected.key !in step.server.objects
  }

  lemma AbsentLeavesRecorded(s: Server, c: Cache, b: Builder)
    requires b.expected.key !in s.objects
    ensures LeavesRecorded(s, c, b)
  {
  }

  lemma UpdatedIsReturned(s: Server, o: Object, found: Object)
    requires Consistent(s) && o.key in s.objects && s.objects[o.key] == o && !o.terminating
    requires found == o.(ownerRefs := found.ownerRefs, labels := found.labels, annotations := found.annotations,
                         spec := found.spec)
    ensures var reply := Apply(s, UpdateOp(found));
            && reply.outcome.Ok?
            && !reply.outcome.value.terminating
            && Lookup(reply.server.objects, o.key) == Some(reply.outcome.value)
  {
    FreshUpdate(s, o, found);
  }

  lemma ReplySettles(c: Cache, seen: Option<Object>, w: Write, reply: Reply)
    requires w.UpdateOp? && reply.outcome.Ok? && !reply.outcome.value.terminating
    ensures Conclude(c, seen, w, reply).result == Done(Updated, false)
  {
  }

  /** A pass over a live object whose spec may change is successful. */
  lemma SucceedsUnlessImmutable(s: Server, c: Cache, b: Builder, o: Object)
    requires Consistent(s) && o.key in s.objects && s.objects[o.key] == o && b.expected.key == o.key && !o.terminating
    requires !b.immutableSpec
    ensures Quiet(s, c, b).result in {Done(Unchanged, false), Done(Updated, false)}
  {
    var found := Mutate(b, c, o);
    if found == o {
      assert WriteFor(b, c, Some(o)) == None;
    } else {
      MutationKeepsIdentity(b, c, o);
      UpdatedIsReturned(s, o, found);
      assert WriteFor(b, c, Some(o)) == Some(UpdateOp(found));
      ReplySettles(c, Some(o), UpdateOp(found), Apply(s, UpdateOp(found)));
    }
  }

  lemma PresentLeavesRecorded(s: Server, c: Cache, b: Builder)
    requires Consistent(s) && Deletable(s, b) && b.expected.key in s.objects
    ensures LeavesRecorded(s, c, b)
  {
    var o := s.objects[b.expected.key];
    assert Newest(s, o.key);
    MutationKeepsIdentity(b, c, o);
    UpdatedIsReturned(s, o, Mutate(b, c, o));
  }

  /** A pass that leaves an object of a named kind records it. */
  lemma QuietRecords(s: Server, c: Cache, b: Builder)
    requires Consistent(s) && Deletable(s, b) && b.expected.key.kind.name != ""
    requires var step := Quiet(s, c, b); step.result.Done? && !step.result.gone
    ensures var step := Quiet(s, c, b);
            b.expected.key in step.server.objects && Contains(step.cache, step.server.objects[b.expected.key])
  {
    var seen := Lookup(s.objects, b.expected.key);
    if seen.Some? { assert Newest(s, b.expected.key); }
    CacheEffect(s, c, b, seen, NoFault);
    if seen.Some? { PresentLeavesRecorded(s, c, b); } else { AbsentLeavesRecorded(s, c, b); }
    var step := Quiet(s, c, b);
    ReconcileKeepsConsistent(s, c, b, seen, NoFault);
    assert Newest(step.server, b.expected.key);
    assert WellFormed(step.server, step.server.objects[b.expected.key]);
  }

  /** Neither the object nor an entry for it is there. */
  ghost predicate Gone(s: Server, c: Cache, b: Builder) {
    b.expected.key !in s.objects && CacheKeyOf(b.expected) !in c
  }

  /**
   Without any trust in the cache: an object is upheld, and in order exactly if the cache could be
   trusted; or it is gone, so that the next pass creates it.
   */
  lemma UpheldOrGone(s: Server, c: Cache, b: Builder)
    requires Sane(s, c, b) && WellFormedBuilder(b) && !b.always && b.expected.key.kind.name != ""
    ensures var step := Quiet(s, c, b);
            || (Upheld(step.server, step.cache, b) && (Settled(step.server, step.cache, b) <==> Trusted(s, c, b)))
            || (Gone(step.server, step.cache, b) && b.expected.key in s.objects && Trusted(s, c, b))
  {
    if Hit(s, c, b) {
      HitMerges(s, c, b);
    } else {
      var step := Quiet(s, c, b);
      if b.expected.key in s.objects { PresentIsSettledOrDeleted(s, c, b); } else { AbsentIsCreated(s, c, b); }
      if Settled(step.server, step.cache, b) { SettledIsUpheld(s, c, b); }
    }
  }

  lemma SettledIsUpheld(s: Server, c: Cache, b: Builder)
    requires Sane(s, c, b) && WellFormedBuilder(b) && !b.always && b.expected.key.kind.name != ""
    requires var step := Quiet(s, c, b); Settled(step.server, step.cache, b)
    ensures var step := Quiet(s, c, b); Upheld(step.server, step.cache, b)
  {
    if b.expected.key in s.objects { PresentLeavesRecorded(s, c, b); } else { AbsentLeavesRecorded(s, c, b); }
    QuietRecords(s, c, b);
  }

  lemma UpheldStays(s: Server, c: Cache, b: Builder)
    requires Sane(s, c, b) && Upheld(s, c, b)
    ensures var step := Quiet(s, c, b);
            && step.result == Done(Unchanged, false)
            && step.server == s
            && Upheld(s, step.cache, b)
  {
    var o := s.objects[b.expected.key];
    assert Newest(s, o.key) && WellFormed(s, o);
  }

  /** Upheld, in one and the same server state. */
  ghost function UpheldAt(s: Server, b: Builder): Step -> bool {
    (x: Step) => Sane(x.server, x.cache, b) && Upheld(x.server, x.cache, b) && x.server == s
  }

  lemma UpheldSteps(s: Server, b: Builder)
    ensures forall x: Step :: UpheldAt(s, b)(x) ==>
              UpheldAt(s, b)(Again(b)(x)) && Again(b)(x).result == Done(Unchanged, false)
  {
    forall x: Step | UpheldAt(s, b)(x)
      ensures UpheldAt(s, b)(Again(b)(x)) && Again(b)(x).result == Done(Unchanged, false)
    {
      UpheldStays(x.server, x.cache, b);
      QuietKeepsSane(x.server, x.cache, b);
    }
  }

  lemma UpheldForGood(s: Server, c: Cache, b: Builder, n: nat)
    requires Sane(s, c, b) && Hit(s, c, b)
    ensures UpheldAt(Quiet(s, c, b).server, b)(Pass(s, c, b, n))
    ensures n > 0 ==> Pass(s, c, b, n).result == Done(Unchanged, false)
  {
    var first := Quiet(s, c, b);
    HitMerges(s, c, b);
    QuietKeepsSane(s, c, b);
    UpheldSteps(first.server, b);
    RestsAfter(Again(b), first, UpheldAt(first.server, b), n);
  }

  /**
   Whatever was stored and recorded: from the third pass on every result is "unchanged" exactly if
   the spec is storable. Nothing is written then, and the stored object is in order exactly
   if the cache did not already vouch for one that was not.
   */
  lemma ComesToRestIff(s: Server, c: Cache, b: Builder, n: nat)
    requires Sane(s, c, b) && Compatible(b.update, b.expected) && (b.immutableSpec ==> b.update == Copy({})) && n >= 2
    ensures Pass(s, c, b, n).result == Done(Unchanged, false) <==> Storable(b)
    ensures Storable(b) ==> Pass(s, c, b, n).server == Pass(s, c, b, 1).server
    ensures Storable(b) ==> (Settled(Pass(s, c, b, n).server, Pass(s, c, b, n).cache, b) <==> Trusted(s, c, b))
  {
    if !Storable(b) {
      PassesKeepSane(s, c, b, n - 1);
      var before := Pass(s, c, b, n - 1);
      UnstorableIsWritten(before.server, before.cache, b);
      assert Pass(s, c, b, n) == Again(b)(before);
    } else if Trusted(s, c, b) {
      Converges(s, c, b, n);
    } else {
      UpheldForGood(s, c, b, n);
      UpheldForGood(s, c, b, 1);
      HitMerges(s, c, b);
    }
  }

  /** Every expected field has the expected value, and other fields are kept ones or the server's. */
  ghost predicate SpecInOrder(u: UpdateFunc, kind: Kind, expected: Spec, spec: Spec) {
    FoundFields(u).Some? ==>
      if expected.Fields? then
        && spec.Fields?
        && (forall k <- expected.fields ::
              k !in FoundFields(u).value ==> k in spec.fields && spec.fields[k] == expected.fields[k])
        && (forall k <- spec.fields ::
              || k in FoundFields(u).value
              || (k in expected.fields && spec.fields[k] == expected.fields[k])
              || (k in kind.defaults && spec.fields[k] == kind.defaults[k]))
      else spec == expected
  }

  /** The expected fields, with the kept ones as they are found. */
  function Taken(keep: set<string>, expected: StringMap, found: StringMap): StringMap {
    (expected - keep) + (map k | k in found && k in keep :: found[k])
  }

  lemma FixedFieldsIff(keep: set<string>, defaults: StringMap, expected: StringMap, found: StringMap)
    requires defaults + found == found
    ensures defaults + Taken(keep, expected, found) == found <==>
              && (forall k <- expected :: k !in keep ==> k in found && found[k] == expected[k])
              && (forall k <- found ::
                    || k in keep
                    || (k in expected && found[k] == expected[k])
                    || (k in defaults && found[k] == defaults[k]))
  {
    var made := defaults + Taken(keep, expected, found);
    if forall k :: Lookup(made, k) == Lookup(found, k) { SameReads(made, found); }
  }

  /** For every update function that sets the spec, nothing is left to do exactly when the spec is in order. */
  lemma FixedSpecIff(u: UpdateFunc, kind: Kind, expected: Spec, spec: Spec)
    requires Defaulted(kind, spec) == spec
    ensures Defaulted(kind, SpecAfter(u, spec, expected)) == spec <==> SpecInOrder(u, kind, expected, spec)
  {
    if FoundFields(u).Some? && expected.Fields? && spec.Fields? {
      FixedFieldsIff(FoundFields(u).value, kind.defaults, expected.fields, spec.fields);
      assert SpecAfter(u, spec, expected).fields == Taken(FoundFields(u).value, expected.fields, spec.fields);
    }
  }

  /** A settled object has every expected label, annotation and spec field with the expected value. */
  lemma ExpectedWins(s: Server, c: Cache, b: Builder)
    requires WellFormedBuilder(b) && Settled(s, c, b)
    ensures var o := s.objects[b.expected.key];
            && o.ownerRefs == b.expected.ownerRefs
            && (forall k <- b.expected.labels :: k in o.labels && o.labels[k] == b.expected.labels[k])
            && (forall k <- b.expected.annotations ::
                  k in o.annotations && o.annotations[k] == b.expected.annotations[k])
            && SpecInOrder(b.update, o.key.kind, b.expected.spec, o.spec)
  {
    var o := s.objects[b.expected.key];
    if b.always || !Contains(c, o) { UntouchedIsMerged(b.update, b.expected, o); }
    assert o.labels + b.expected.labels == o.labels;
    assert o.annotations + b.expected.annotations == o.annotations;
    FixedSpec(b.update, b.expected, o);
    DefaultingIsIdempotent(o.key.kind, SpecAfter(b.update, o.spec, b.expected.spec));
    FixedSpecIff(b.update, o.key.kind, b.expected.spec, o.spec);
  }

  /** What the update function makes of a label that nobody asked for. */
  function ExtraLabel(u: UpdateFunc, k: string, v: Option<string>): Option<string> {
    match u
    case SyncTemplate => if IsPredefinedKey(k) then None else v
    case HandOver(auto, cron, appLabels) =>
      if k == CRON_LABEL then (if auto then Some(cron) else None)
      else if !auto && k in appLabels then Some(appLabels[k])
      else v
    case Deprecate => if k == DEPRECATED then Some("true") else if IsSelectorLabel(k) then None else v
    case _ => v
  }

  function ExtraAnnotation(u: UpdateFunc, k: string, v: Option<string>): Option<string> {
    match u
    case SyncTemplate => if IsPredefinedKey(k) then None else v
    case Deprecate => if k == DEPRECATED then Some("true") else v
    case _ => v
  }

  lemma ExtrasOf(u: UpdateFunc, expected: Object, o: Object, k: string)
    ensures k !in expected.labels ==>
              Lookup(Reworked(u, expected, o).labels, k) == ExtraLabel(u, k, Lookup(o.labels, k))
    ensures k !in expected.annotations ==>
              Lookup(Reworked(u, expected, o).annotations, k) == ExtraAnnotation(u, k, Lookup(o.annotations, k))
  {
  }

  /** A pass that does not delete stores what it made of the found object. */
  lemma QuietStores(s: Server, c: Cache, b: Builder)
    requires Consistent(s) && Deletable(s, b)
    requires b.expected.key in s.objects && Quiet(s, c, b).result != Done(Deleted, true)
    ensures var o := s.objects[b.expected.key];
            var found := Mutate(b, c, o);
            && b.expected.key in Quiet(s, c, b).server.objects
            && var f := Quiet(s, c, b).server.objects[b.expected.key];
               && f == Stored(found).(version := f.version, generation := f.generation)
               && f.finalizers == o.finalizers
               && f.conditions == o.conditions
               && f.uid == o.uid
  {
    var o := s.objects[b.expected.key];
    assert Newest(s, o.key) && WellFormed(s, o);
    var found := Mutate(b, c, o);
    MutationKeepsIdentity(b, c, o);
    if found != o && !(b.immutableSpec && o.spec != found.spec) { FreshUpdate(s, o, found); }
  }

  lemma MutationKeepsIdentity(b: Builder, c: Cache, o: Object)
    requires !o.terminating
    ensures var found := Mutate(b, c, o);
            found == o.(ownerRefs := found.ownerRefs, labels := found.labels, annotations := found.annotations,
                        spec := found.spec)
  {
  }

  lemma MutationOfExtras(c: Cache, b: Builder, o: Object, k: string)
    requires !o.terminating && o.key == b.expected.key
    ensures var found := Mutate(b, c, o);
            var skips := !b.always && Contains(c, o);
            && (k !in b.expected.labels ==>
                  Lookup(found.labels, k) ==
                  if skips then Lookup(o.labels, k) else ExtraLabel(b.update, k, Lookup(o.labels, k)))
            && (k !in b.expected.annotations ==>
                  Lookup(found.annotations, k) ==
                  if skips then Lookup(o.annotations, k) else ExtraAnnotation(b.update, k, Lookup(o.annotations, k)))
  {
    ExtrasOf(b.update, b.expected, o, k);
  }

  /**
   Finalizers, status and identity survive a pass that does not delete. So do labels and annotations
   that nobody asked for, except that a run of the update function drops or sets the ones it owns.
   */
  lemma ExtrasSurvive(s: Server, c: Cache, b: Builder, k: string)
    requires Consistent(s) && Deletable(s, b)
    requires b.expected.key in s.objects && Quiet(s, c, b).result != Done(Deleted, true)
    ensures b.expected.key in Quiet(s, c, b).server.objects
    ensures var o, f := s.objects[b.expected.key], Quiet(s, c, b).server.objects[b.expected.key];
            && f.finalizers == o.finalizers
            && f.conditions == o.conditions
            && f.uid == o.uid
            && (k !in b.expected.labels ==>
                  Lookup(f.labels, k) ==
                  if Hit(s, c, b) then Lookup(o.labels, k) else ExtraLabel(b.update, k, Lookup(o.labels, k)))
            && (k !in b.expected.annotations ==>
                  Lookup(f.annotations, k) ==
                  if Hit(s, c, b) then Lookup(o.annotations, k)
                    else ExtraAnnotation(b.update, k, Lookup(o.annotations, k)))
  {
    QuietStores(s, c, b);
    assert Newest(s, b.expected.key);
    MutationOfExtras(c, b, s.objects[b.expected.key], k);
  }

  // ----- from every reachable state

  lemma SoundIsReal(catalog: Catalog, sys: System, b: Builder)
    requires Sound(catalog, sys)
    ensures RealEntry(sys.cache, b)
  {
    var ck := CacheKeyOf(b.expected);
    if ck in sys.cache {
      var w :| Witness(catalog, sys, ck, w);
      assert WellFormed(sys.server, w);
    }
  }

  /** The labels under which the update function last ran ask for the same spec as today's. */
  ghost predicate UpToDate(sys: System, r: Resource) {
    Hit(sys.server, sys.cache, BuilderOf(r, sys.labels)) ==>
      var ck := CacheKeyFor(r.desired.key);
      ck in sys.under ==> SameLabels(r, sys.under[ck], sys.labels)
  }

  /** In a sound state the cache can be trusted about a resource exactly if that is so. */
  lemma TrustedIff(catalog: Catalog, sys: System, key: Key)
    requires WellFormedCatalog(catalog) && Sound(catalog, sys) && key in catalog(sys.spec)
    ensures var r := catalog(sys.spec)[key];
            Trusted(sys.server, sys.cache, BuilderOf(r, sys.labels)) <==> UpToDate(sys, r)
  {
    var r := catalog(sys.spec)[key];
    var b := BuilderOf(r, sys.labels);
    assert WellFormedResource(key, r);
    SoundIsReal(catalog, sys, b);
    if Hit(sys.server, sys.cache, b) {
      var o := sys.server.objects[key];
      assert Newest(sys.server, key);
      HitIsFixed(catalog, sys, o);
      LabelsDecideFixed(r, sys.under[CacheKeyOf(o)], sys.labels, o);
    }
  }

  /**
   After every run of passes, client writes, SSP edits, restarts, stale reads and failed calls:
   once the cluster is quiet, a resource is at rest from the third pass on, and it is then in order
   exactly if its cached version was not deployed under other labels.
   */
  lemma ConvergesFromEveryState(catalog: Catalog, events: seq<Event>, key: Key, n: nat)
    requires WellFormedCatalog(catalog) && LegalRun(catalog, START, events) && n >= 2
    requires key in catalog(Run(START, events).spec)
    requires var sys := Run(START, events);
             var b := BuilderOf(catalog(sys.spec)[key], sys.labels);
             Deletable(sys.server, b) && Storable(b)
    ensures var sys := Run(START, events);
            var r := catalog(sys.spec)[key];
            var b := BuilderOf(r, sys.labels);
            var step := Pass(sys.server, sys.cache, b, n);
            && step.result == Done(Unchanged, false)
            && step.server == Pass(sys.server, sys.cache, b, 1).server
            && (Settled(step.server, step.cache, b) <==> UpToDate(sys, r))
  {
    var sys := Run(START, events);
    RunKeepsSound(catalog, START, events);
    var r := catalog(sys.spec)[key];
    assert WellFormedResource(key, r);
    SoundIsReal(catalog, sys, BuilderOf(r, sys.labels));
    TrustedIff(catalog, sys, key);
    ComesToRestIff(sys.server, sys.cache, BuilderOf(r, sys.labels), n);
  }
}

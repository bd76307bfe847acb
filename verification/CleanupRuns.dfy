/** Cleanup over several passes: what may be deleted when, and why it comes to an end. */
module CleanupRuns {
  import opened Kube
  import opened Sequences
  import opened ApiServer
  import opened DataSourceOperand
  import opened Cleanup

  // ----- a pass only takes away

  /** Nothing appears, and what stays keeps everything that selection and ownership depend on. */
  ghost predicate Shrinks(s: Server, s': Server) {
    forall key <- s'.objects :: key in s.objects && KeepsIdentity(s.objects[key], s'.objects[key])
  }

  predicate KeepsIdentity(o: Object, o': Object) {
    && o'.key == o.key
    && o'.labels == o.labels
    && o'.annotations == o.annotations
    && o'.ownerRefs == o.ownerRefs
    && (o.terminating ==> o'.terminating)
  }

  /** Gone, or going. */
  ghost predicate Doomed(s: Server, key: Key) {
    key in s.objects ==> s.objects[key].terminating
  }

  lemma ShrinksTransitive(a: Server, b: Server, c: Server)
    requires Shrinks(a, b) && Shrinks(b, c)
    ensures Shrinks(a, c)
  {
  }

  lemma CleanupOneShrinks(s: Server, ssp: Identity, expected: Object)
    requires Consistent(s)
    ensures Shrinks(s, CleanupOne(s, ssp, expected))
    ensures VerdictOn(s, ssp, expected).Requested? ==> Doomed(CleanupOne(s, ssp, expected), expected.key)
  {
    if expected.key in s.objects { assert Newest(s, expected.key); }
  }

  lemma CleanupOneStaysLocal(s: Server, ssp: Identity, expected: Object, key: Key)
    requires Consistent(s) && key != expected.key
    ensures Lookup(CleanupOne(s, ssp, expected).objects, key) == Lookup(s.objects, key)
  {
    if expected.key in s.objects { assert Newest(s, expected.key); }
  }

  lemma CleanupOneKeepsConsistent(s: Server, ssp: Identity, expected: Object)
    requires Consistent(s)
    ensures Consistent(CleanupOne(s, ssp, expected))
  {
    DeleteKeepsConsistent(s, expected.key);
  }

  /** The verdict depends on what shrinking keeps. */
  lemma ShrinkingKeepsVerdict(s: Server, s': Server, ssp: Identity, expected: Object, expected': Object)
    requires Shrinks(s, s') && expected'.key == expected.key && expected'.ownerRefs == expected.ownerRefs
    ensures expected.key in s'.objects ==> VerdictOn(s', ssp, expected') == VerdictOn(s, ssp, expected)
    ensures expected.key !in s'.objects ==> VerdictOn(s', ssp, expected') == Absent
  {
  }

  lemma {:induction false} DeleteAllShrinks(s: Server, ssp: Identity, objects: seq<Object>)
    requires Consistent(s)
    ensures Consistent(DeleteAll(s, ssp, objects).server) && Shrinks(s, DeleteAll(s, ssp, objects).server)
  {
    if objects != [] {
      var n := |objects| - 1;
      var before := DeleteAll(s, ssp, objects[..n]).server;
      DeleteAllShrinks(s, ssp, objects[..n]);
      CleanupOneShrinks(before, ssp, objects[n]);
      CleanupOneKeepsConsistent(before, ssp, objects[n]);
      ShrinksTransitive(s, before, CleanupOne(before, ssp, objects[n]));
    }
  }

  lemma {:induction false} DeleteAllStaysLocal(s: Server, ssp: Identity, objects: seq<Object>, key: Key)
    requires Consistent(s) && forall o <- objects :: o.key != key
    ensures Lookup(DeleteAll(s, ssp, objects).server.objects, key) == Lookup(s.objects, key)
  {
    if objects != [] {
      var n := |objects| - 1;
      DeleteAllStaysLocal(s, ssp, objects[..n], key);
      DeleteAllShrinks(s, ssp, objects[..n]);
      CleanupOneStaysLocal(DeleteAll(s, ssp, objects[..n]).server, ssp, objects[n], key);
    }
  }

  // ----- lists without panics

  /** The ownership comparison of no listed object panics. */
  ghost predicate Calm(s: Server, ssp: Identity, objects: seq<Object>) {
    forall o <- objects :: !VerdictOn(s, ssp, o).Crashed?
  }

  lemma {:induction false} CalmListHasNoCrash(s: Server, ssp: Identity, objects: seq<Object>)
    requires Consistent(s) && Calm(s, ssp, objects)
    ensures !HasCrash(DeleteAll(s, ssp, objects).findings)
  {
    if objects != [] {
      var n := |objects| - 1;
      CalmListHasNoCrash(s, ssp, objects[..n]);
      DeleteAllShrinks(s, ssp, objects[..n]);
      ShrinkingKeepsVerdict(s, DeleteAll(s, ssp, objects[..n]).server, ssp, objects[n], objects[n]);
    }
  }

  /** Every object that is due at the start is gone or going at the end. */
  lemma {:induction false} DueIsDoomed(s: Server, ssp: Identity, objects: seq<Object>, o: Object)
    requires Consistent(s) && Calm(s, ssp, objects) && o in objects && VerdictOn(s, ssp, o).Requested?
    ensures Doomed(DeleteAll(s, ssp, objects).server, o.key)
  {
    var n := |objects| - 1;
    var before := DeleteAll(s, ssp, objects[..n]).server;
    CalmListHasNoCrash(s, ssp, objects[..n]);
    DeleteAllShrinks(s, ssp, objects[..n]);
    CleanupOneShrinks(before, ssp, objects[n]);
    if o in objects[..n] {
      DueIsDoomed(s, ssp, objects[..n], o);
    } else {
      ShrinkingKeepsVerdict(s, before, ssp, o, o);
    }
  }

  // ----- when there is nothing left to do

  lemma ClearConcat(a: seq<Finding>, b: seq<Finding>)
    ensures Clear(a + b) <==> Clear(a) && Clear(b)
  {
    assert forall f :: f in a + b <==> f in a || f in b;
  }

  /** A list is clear exactly if each of its objects was absent or not owned, and then nothing is written. */
  lemma {:induction false} ListIsClearIff(s: Server, ssp: Identity, objects: seq<Object>)
    ensures Clear(DeleteAll(s, ssp, objects).findings) <==> forall o <- objects :: Harmless(VerdictOn(s, ssp, o))
    ensures Clear(DeleteAll(s, ssp, objects).findings) ==> DeleteAll(s, ssp, objects).server == s
  {
    if objects != [] {
      var n := |objects| - 1;
      ListIsClearIff(s, ssp, objects[..n]);
      var before := DeleteAll(s, ssp, objects[..n]);
      var last := Finding(objects[n].key, VerdictOn(before.server, ssp, objects[n]));
      ClearConcat(before.findings, [last]);
      assert Clear([last]) <==> Harmless(last.verdict) by { assert [last][0] == last; }
      assert forall o :: o in objects <==> o in objects[..n] || o == objects[n];
    }
  }

  /** What a part lists, in whatever order. */
  ghost predicate ListedBy(s: Server, ssp: Identity, part: Part, o: Object) {
    if part.Known? then o == part.o
    else exists key :: key in s.objects && o == s.objects[key] && Selects(ssp, part, o)
  }

  lemma InPartList(s: Server, ssp: Identity, part: Part, order: Listing, o: Object)
    requires Enumerates(order)
    ensures o in PartList(s, ssp, part, order) <==> ListedBy(s, ssp, part, o)
  {
    if !part.Known? {
      InFlatMap(order(set key | key in s.objects && Selects(ssp, part, s.objects[key])), Pick(s), o);
      assert forall key :: o in Pick(s)(key) <==> key in s.objects && o == s.objects[key];
    }
  }

  lemma InGathered(s: Server, ssp: Identity, parts: seq<Part>, order: Listing, o: Object)
    requires Enumerates(order)
    ensures o in Gathered(s, ssp, parts, order) <==> exists part <- parts :: ListedBy(s, ssp, part, o)
  {
    InFlatMap(parts, PartStep(s, ssp, order), o);
    forall part ensures o in PartStep(s, ssp, order)(part) <==> ListedBy(s, ssp, part, o) {
      InPartList(s, ssp, part, order, o);
    }
  }

  /** Each object of the part is absent or belongs to somebody else. */
  ghost predicate CleanPart(s: Server, ssp: Identity, part: Part) {
    forall o :: ListedBy(s, ssp, part, o) ==> Harmless(VerdictOn(s, ssp, o))
  }

  ghost predicate CleanParts(s: Server, ssp: Identity, parts: seq<Part>) {
    forall part <- parts :: CleanPart(s, ssp, part)
  }

  ghost predicate CleanOperand(s: Server, ssp: Identity, op: Operand) {
    CleanParts(s, ssp, op.parts) && (op.CronsFirst? ==> CleanPart(s, ssp, ALL_CRONS))
  }

  lemma PartIsClearIff(s: Server, ssp: Identity, part: Part, order: Listing)
    requires Enumerates(order)
    ensures Clear(DeleteAll(s, ssp, PartList(s, ssp, part, order)).findings) <==> CleanPart(s, ssp, part)
  {
    ListIsClearIff(s, ssp, PartList(s, ssp, part, order));
    forall o ensures o in PartList(s, ssp, part, order) <==> ListedBy(s, ssp, part, o) {
      InPartList(s, ssp, part, order, o);
    }
  }

  lemma GatheredIsClearIff(s: Server, ssp: Identity, parts: seq<Part>, order: Listing)
    requires Enumerates(order)
    ensures Clear(DeleteAll(s, ssp, Gathered(s, ssp, parts, order)).findings) <==> CleanParts(s, ssp, parts)
  {
    var list := Gathered(s, ssp, parts, order);
    ListIsClearIff(s, ssp, list);
    forall o ensures o in list <==> exists part <- parts :: ListedBy(s, ssp, part, o) {
      InGathered(s, ssp, parts, order, o);
    }
    if CleanParts(s, ssp, parts) {
      forall o <- list ensures Harmless(VerdictOn(s, ssp, o)) {
        var part :| part in parts && ListedBy(s, ssp, part, o);
        assert CleanPart(s, ssp, part);
      }
    }
  }

  lemma OperandIsClearIff(s: Server, ssp: Identity, op: Operand, order: Listing)
    requires Enumerates(order)
    ensures Clear(CleanupOperand(s, ssp, op, order).findings) <==> CleanOperand(s, ssp, op)
    ensures Clear(CleanupOperand(s, ssp, op, order).findings) ==> CleanupOperand(s, ssp, op, order).server == s
  {
    GatheredIsClearIff(s, ssp, op.parts, order);
    ListIsClearIff(s, ssp, Gathered(s, ssp, op.parts, order));
    if op.CronsFirst? {
      PartIsClearIff(s, ssp, ALL_CRONS, order);
      ListIsClearIff(s, ssp, PartList(s, ssp, ALL_CRONS, order));
    }
  }

  /**
   The finalizer may go exactly if every object of every operand is absent or belongs to
   somebody else in the state that the sweep starts from, and then the sweep writes nothing.
   */
  lemma {:induction false} SweepIsClearIff(s: Server, ssp: Identity, ops: seq<Operand>, order: Listing)
    requires Enumerates(order)
    ensures Clear(Sweep(s, ssp, ops, order).findings) <==> forall op <- ops :: CleanOperand(s, ssp, op)
    ensures Clear(Sweep(s, ssp, ops, order).findings) ==> Sweep(s, ssp, ops, order).server == s
  {
    if ops != [] {
      var n := |ops| - 1;
      var before := Sweep(s, ssp, ops[..n], order);
      SweepIsClearIff(s, ssp, ops[..n], order);
      OperandIsClearIff(s, ssp, ops[n], order);
      ClearConcat(before.findings, CleanupOperand(before.server, ssp, ops[n], order).findings);
      assert forall op :: op in ops <==> op in ops[..n] || op == ops[n];
    }
  }

  // ----- owned kinds

  /** An object with the owner's annotations is found to be owned when it is its own expectation. */
  lemma OwnedIsRequested(s: Server, ssp: Identity, key: Key)
    requires Consistent(s) && key in s.objects && OwnedBy(s.objects[key], ssp.owner)
    ensures VerdictOn(s, ssp, s.objects[key]).Requested?
  {
    assert Newest(s, key);
  }

  ghost predicate OwnsCron(s: Server, ssp: Identity) {
    exists key :: key in s.objects && s.objects[key].key.kind == DATA_IMPORT_CRON && OwnedBy(s.objects[key], ssp.owner)
  }

  lemma CronsAreCleanIff(s: Server, ssp: Identity)
    requires Consistent(s)
    ensures CleanPart(s, ssp, ALL_CRONS) <==> !OwnsCron(s, ssp)
  {
    if key :| key in s.objects && Selects(ssp, ALL_CRONS, s.objects[key]) {
      OwnedIsRequested(s, ssp, key);
      assert ListedBy(s, ssp, ALL_CRONS, s.objects[key]);
    }
  }

  /** While an owned cron remains, cleanup of the data-sources operand touches crons only. */
  lemma SecondPhaseWaits(s: Server, ssp: Identity, parts: seq<Part>, order: Listing, key: Key)
    requires Consistent(s) && Enumerates(order) && OwnsCron(s, ssp) && key.kind != DATA_IMPORT_CRON
    ensures var swept := CleanupOperand(s, ssp, CronsFirst(parts), order);
            Lookup(swept.server.objects, key) == Lookup(s.objects, key) && !Clear(swept.findings)
  {
    var listed := PartList(s, ssp, ALL_CRONS, order);
    CronsAreCleanIff(s, ssp);
    PartIsClearIff(s, ssp, ALL_CRONS, order);
    forall o <- listed ensures o.key != key { InPartList(s, ssp, ALL_CRONS, order, o); }
    DeleteAllStaysLocal(s, ssp, listed, key);
  }

  // ----- objects that no operand is due to delete

  ghost predicate Left(s: Server, ssp: Identity, part: Part, key: Key) {
    forall o :: ListedBy(s, ssp, part, o) && o.key == key ==> !VerdictOn(s, ssp, o).Requested?
  }

  ghost predicate LeftBy(s: Server, ssp: Identity, op: Operand, key: Key) {
    (forall part <- op.parts :: Left(s, ssp, part, key)) && (op.CronsFirst? ==> Left(s, ssp, ALL_CRONS, key))
  }

  lemma SameObjectSameVerdict(s: Server, s': Server, ssp: Identity, expected: Object)
    requires Lookup(s.objects, expected.key) == Lookup(s'.objects, expected.key)
    ensures VerdictOn(s', ssp, expected) == VerdictOn(s, ssp, expected)
  {
  }

  lemma {:induction false} DeleteAllLeaves(s: Server, ssp: Identity, objects: seq<Object>, key: Key)
    requires Consistent(s) && forall o <- objects :: o.key == key ==> !VerdictOn(s, ssp, o).Requested?
    ensures Lookup(DeleteAll(s, ssp, objects).server.objects, key) == Lookup(s.objects, key)
  {
    if objects != [] {
      var n := |objects| - 1;
      var before := DeleteAll(s, ssp, objects[..n]).server;
      DeleteAllLeaves(s, ssp, objects[..n], key);
      DeleteAllShrinks(s, ssp, objects[..n]);
      if objects[n].key == key { SameObjectSameVerdict(s, before, ssp, objects[n]); }
      else { CleanupOneStaysLocal(before, ssp, objects[n], key); }
    }
  }

  lemma LeftStays(s: Server, s': Server, ssp: Identity, part: Part, key: Key)
    requires Consistent(s) && Consistent(s') && Lookup(s.objects, key) == Lookup(s'.objects, key)
             && Left(s, ssp, part, key)
    ensures Left(s', ssp, part, key)
  {
    forall o | ListedBy(s', ssp, part, o) && o.key == key ensures !VerdictOn(s', ssp, o).Requested? {
      if !part.Known? {
        var k :| k in s'.objects && o == s'.objects[k] && Selects(ssp, part, o);
        assert Newest(s', k);
        assert key in s.objects && o == s.objects[key];
      }
      assert ListedBy(s, ssp, part, o);
      SameObjectSameVerdict(s, s', ssp, o);
    }
  }

  lemma LeftByStays(s: Server, s': Server, ssp: Identity, op: Operand, key: Key)
    requires Consistent(s) && Consistent(s') && Lookup(s.objects, key) == Lookup(s'.objects, key)
             && LeftBy(s, ssp, op, key)
    ensures LeftBy(s', ssp, op, key)
  {
    forall part <- op.parts ensures Left(s', ssp, part, key) { LeftStays(s, s', ssp, part, key); }
    if op.CronsFirst? { LeftStays(s, s', ssp, ALL_CRONS, key); }
  }

  lemma GatheringLeaves(s: Server, ssp: Identity, parts: seq<Part>, order: Listing, key: Key)
    requires Consistent(s) && Enumerates(order) && forall part <- parts :: Left(s, ssp, part, key)
    ensures Lookup(DeleteAll(s, ssp, Gathered(s, ssp, parts, order)).server.objects, key) == Lookup(s.objects, key)
  {
    var list := Gathered(s, ssp, parts, order);
    forall o <- list | o.key == key ensures !VerdictOn(s, ssp, o).Requested? {
      InGathered(s, ssp, parts, order, o);
      var part :| part in parts && ListedBy(s, ssp, part, o);
      assert Left(s, ssp, part, key);
    }
    DeleteAllLeaves(s, ssp, list, key);
  }

  lemma OperandLeaves(s: Server, ssp: Identity, op: Operand, order: Listing, key: Key)
    requires Consistent(s) && Enumerates(order) && LeftBy(s, ssp, op, key)
    ensures Lookup(CleanupOperand(s, ssp, op, order).server.objects, key) == Lookup(s.objects, key)
  {
    GatheringLeaves(s, ssp, op.parts, order, key);
    if op.CronsFirst? {
      var list := PartList(s, ssp, ALL_CRONS, order);
      forall o <- list | o.key == key ensures !VerdictOn(s, ssp, o).Requested? {
        InPartList(s, ssp, ALL_CRONS, order, o);
      }
      DeleteAllLeaves(s, ssp, list, key);
      ListIsClearIff(s, ssp, list);
    }
  }

  /** An object that no operand is due to delete when the sweep starts stays exactly as it is. */
  lemma {:induction false} SweepLeaves(s: Server, ssp: Identity, ops: seq<Operand>, order: Listing, key: Key)
    requires Consistent(s) && Enumerates(order) && forall op <- ops :: LeftBy(s, ssp, op, key)
    ensures Lookup(Sweep(s, ssp, ops, order).server.objects, key) == Lookup(s.objects, key)
  {
    if ops != [] {
      var n := |ops| - 1;
      var before := Sweep(s, ssp, ops[..n], order).server;
      SweepLeaves(s, ssp, ops[..n], order, key);
      SweepShrinks(s, ssp, ops[..n], order);
      LeftByStays(s, before, ssp, ops[n], key);
      OperandLeaves(before, ssp, ops[n], order, key);
    }
  }

  // ----- deletions complete

  /** The finalizers of objects that are being deleted have been removed by whoever set them. */
  function Complete(s: Server): Server {
    s.(objects := map key | key in s.objects && !s.objects[key].terminating :: s.objects[key])
  }

  lemma CompleteShrinks(s: Server)
    requires Consistent(s)
    ensures Consistent(Complete(s)) && Shrinks(s, Complete(s))
    ensures forall key :: Doomed(s, key) ==> key !in Complete(s).objects
  {
    forall key <- Complete(s).objects ensures Newest(Complete(s), key) { assert Newest(s, key); }
    forall p <- s.published ensures WellFormed(Complete(s), p) { assert WellFormed(s, p); }
  }

  lemma CompleteIsMonotone(s: Server, s': Server)
    requires Shrinks(s, s')
    ensures Shrinks(Complete(s), Complete(s'))
  {
  }

  /** What a part lists later, it listed before, with the same verdict unless it is gone. */
  lemma ListedBefore(s: Server, s': Server, ssp: Identity, part: Part, o': Object) returns (o: Object)
    requires Shrinks(s, s') && ListedBy(s', ssp, part, o')
    ensures ListedBy(s, ssp, part, o) && o.key == o'.key && o.ownerRefs == o'.ownerRefs
  {
    if part.Known? {
      o := o';
    } else {
      var key :| key in s'.objects && o' == s'.objects[key] && Selects(ssp, part, o');
      o := s.objects[key];
      assert KeepsIdentity(o, o') && Selects(ssp, part, o);
    }
  }

  lemma ShrinkingStaysClean(s: Server, s': Server, ssp: Identity, part: Part)
    requires Shrinks(s, s') && CleanPart(s, ssp, part)
    ensures CleanPart(s', ssp, part)
  {
    forall o' | ListedBy(s', ssp, part, o') ensures Harmless(VerdictOn(s', ssp, o')) {
      var o := ListedBefore(s, s', ssp, part, o');
      ShrinkingKeepsVerdict(s, s', ssp, o, o');
    }
  }

  lemma OperandStaysClean(s: Server, s': Server, ssp: Identity, op: Operand)
    requires Shrinks(s, s') && CleanOperand(s, ssp, op)
    ensures CleanOperand(s', ssp, op)
  {
    forall part <- op.parts ensures CleanPart(s', ssp, part) {
      assert CleanPart(s, ssp, part);
      ShrinkingStaysClean(s, s', ssp, part);
    }
    if op.CronsFirst? { ShrinkingStaysClean(s, s', ssp, ALL_CRONS); }
  }

  /** Once the requested deletions of a calm list complete, all that it listed is harmless. */
  lemma ListIsHarmlessAfter(s: Server, ssp: Identity, objects: seq<Object>, o: Object, o': Object)
    requires Consistent(s) && Calm(s, ssp, objects) && o in objects
    requires o'.key == o.key && o'.ownerRefs == o.ownerRefs
    ensures Harmless(VerdictOn(Complete(DeleteAll(s, ssp, objects).server), ssp, o'))
  {
    var after := DeleteAll(s, ssp, objects).server;
    DeleteAllShrinks(s, ssp, objects);
    CompleteShrinks(after);
    ShrinksTransitive(s, after, Complete(after));
    ShrinkingKeepsVerdict(s, Complete(after), ssp, o, o');
    if VerdictOn(s, ssp, o).Requested? { DueIsDoomed(s, ssp, objects, o); }
  }

  lemma PartIsCleanAfter(s: Server, ssp: Identity, part: Part, objects: seq<Object>)
    requires Consistent(s) && Calm(s, ssp, objects)
    requires forall o :: ListedBy(s, ssp, part, o) ==> o in objects
    ensures CleanPart(Complete(DeleteAll(s, ssp, objects).server), ssp, part)
  {
    var after := DeleteAll(s, ssp, objects).server;
    DeleteAllShrinks(s, ssp, objects);
    CompleteShrinks(after);
    ShrinksTransitive(s, after, Complete(after));
    forall o' | ListedBy(Complete(after), ssp, part, o') ensures Harmless(VerdictOn(Complete(after), ssp, o')) {
      var o := ListedBefore(s, Complete(after), ssp, part, o');
      ListIsHarmlessAfter(s, ssp, objects, o, o');
    }
  }

  // ----- panics

  /** No known object makes the ownership comparison index an empty list. */
  ghost predicate PeacefulParts(s: Server, ssp: Identity, parts: seq<Part>) {
    forall part <- parts :: part.Known? ==> !VerdictOn(s, ssp, part.o).Crashed?
  }

  ghost predicate Peaceful(s: Server, ssp: Identity, op: Operand) {
    PeacefulParts(s, ssp, op.parts)
  }

  /** An object that is its own expectation has a reference to compare with, if it has any. */
  lemma ListedIsCalm(s: Server, ssp: Identity, part: Part, o: Object)
    requires Consistent(s) && !part.Known? && ListedBy(s, ssp, part, o)
    ensures !VerdictOn(s, ssp, o).Crashed?
  {
    var key :| key in s.objects && o == s.objects[key] && Selects(ssp, part, o);
    assert Newest(s, key);
  }

  lemma PartIsCalm(s: Server, ssp: Identity, part: Part, order: Listing)
    requires Consistent(s) && Enumerates(order) && (part.Known? ==> !VerdictOn(s, ssp, part.o).Crashed?)
    ensures Calm(s, ssp, PartList(s, ssp, part, order))
  {
    forall o <- PartList(s, ssp, part, order) ensures !VerdictOn(s, ssp, o).Crashed? {
      InPartList(s, ssp, part, order, o);
      if !part.Known? { ListedIsCalm(s, ssp, part, o); }
    }
  }

  lemma GatheredIsCalm(s: Server, ssp: Identity, parts: seq<Part>, order: Listing)
    requires Consistent(s) && Enumerates(order) && PeacefulParts(s, ssp, parts)
    ensures Calm(s, ssp, Gathered(s, ssp, parts, order))
  {
    forall o <- Gathered(s, ssp, parts, order) ensures !VerdictOn(s, ssp, o).Crashed? {
      InGathered(s, ssp, parts, order, o);
      var part :| part in parts && ListedBy(s, ssp, part, o);
      if !part.Known? { ListedIsCalm(s, ssp, part, o); }
    }
  }

  lemma ShrinkingStaysPeaceful(s: Server, s': Server, ssp: Identity, op: Operand)
    requires Shrinks(s, s') && Peaceful(s, ssp, op)
    ensures Peaceful(s', ssp, op)
  {
    forall part <- op.parts | part.Known? ensures !VerdictOn(s', ssp, part.o).Crashed? {
      ShrinkingKeepsVerdict(s, s', ssp, part.o, part.o);
    }
  }

  // ----- one operand

  /** The first phase of the data-sources operand is over. */
  ghost predicate Ready(s: Server, ssp: Identity, op: Operand) {
    op.CronsFirst? ==> CleanPart(s, ssp, ALL_CRONS)
  }

  lemma OperandShrinks(s: Server, ssp: Identity, op: Operand, order: Listing)
    requires Consistent(s)
    ensures var after := CleanupOperand(s, ssp, op, order).server; Consistent(after) && Shrinks(s, after)
  {
    match op
    case Gather(parts) => DeleteAllShrinks(s, ssp, Gathered(s, ssp, parts, order));
    case CronsFirst(parts) =>
      var crons := DeleteAll(s, ssp, PartList(s, ssp, ALL_CRONS, order));
      DeleteAllShrinks(s, ssp, PartList(s, ssp, ALL_CRONS, order));
      if Clear(crons.findings) {
        var list := Gathered(crons.server, ssp, parts, order);
        DeleteAllShrinks(crons.server, ssp, list);
        ShrinksTransitive(s, crons.server, DeleteAll(crons.server, ssp, list).server);
      }
  }

  lemma GatheringCleans(s: Server, ssp: Identity, parts: seq<Part>, order: Listing)
    requires Consistent(s) && Enumerates(order) && PeacefulParts(s, ssp, parts)
    ensures var swept := DeleteAll(s, ssp, Gathered(s, ssp, parts, order));
            !HasCrash(swept.findings) && CleanParts(Complete(swept.server), ssp, parts)
  {
    var list := Gathered(s, ssp, parts, order);
    GatheredIsCalm(s, ssp, parts, order);
    CalmListHasNoCrash(s, ssp, list);
    forall part <- parts ensures CleanPart(Complete(DeleteAll(s, ssp, list).server), ssp, part) {
      forall o | ListedBy(s, ssp, part, o) ensures o in list { InGathered(s, ssp, parts, order, o); }
      PartIsCleanAfter(s, ssp, part, list);
    }
  }

  lemma CronsClean(s: Server, ssp: Identity, order: Listing)
    requires Consistent(s) && Enumerates(order)
    ensures var swept := DeleteAll(s, ssp, PartList(s, ssp, ALL_CRONS, order));
            !HasCrash(swept.findings) && CleanPart(Complete(swept.server), ssp, ALL_CRONS)
  {
    var list := PartList(s, ssp, ALL_CRONS, order);
    PartIsCalm(s, ssp, ALL_CRONS, order);
    CalmListHasNoCrash(s, ssp, list);
    forall o | ListedBy(s, ssp, ALL_CRONS, o) ensures o in list { InPartList(s, ssp, ALL_CRONS, order, o); }
    PartIsCleanAfter(s, ssp, ALL_CRONS, list);
  }

  /** Once its crons are gone, the data-sources operand is like any other. */
  lemma NoCronsNoFirstPhase(s: Server, ssp: Identity, parts: seq<Part>, order: Listing)
    requires Enumerates(order) && CleanPart(s, ssp, ALL_CRONS)
    ensures CleanupOperand(s, ssp, CronsFirst(parts), order) == DeleteAll(s, ssp, Gathered(s, ssp, parts, order))
  {
    PartIsClearIff(s, ssp, ALL_CRONS, order);
    ListIsClearIff(s, ssp, PartList(s, ssp, ALL_CRONS, order));
  }

  lemma OperandProgress(s: Server, ssp: Identity, op: Operand, order: Listing)
    requires Consistent(s) && Enumerates(order) && Peaceful(s, ssp, op)
    ensures var swept := CleanupOperand(s, ssp, op, order);
            && !HasCrash(swept.findings)
            && Ready(Complete(swept.server), ssp, op)
            && (Ready(s, ssp, op) ==> CleanOperand(Complete(swept.server), ssp, op))
  {
    GatheringCleans(s, ssp, op.parts, order);
    if op.CronsFirst? {
      CronsClean(s, ssp, order);
      PartIsClearIff(s, ssp, ALL_CRONS, order);
      if CleanPart(s, ssp, ALL_CRONS) {
        NoCronsNoFirstPhase(s, ssp, op.parts, order);
        OperandShrinks(s, ssp, op, order);
        var after := CleanupOperand(s, ssp, op, order).server;
        CompleteShrinks(after);
        ShrinksTransitive(s, after, Complete(after));
        ShrinkingStaysClean(s, Complete(after), ssp, ALL_CRONS);
      }
    }
  }

  // ----- all operands

  /** What earlier operands achieved is still there when later ones are done. */
  lemma EarlierOperandsStay(before: Server, after: Server, ssp: Identity, op: Operand)
    requires Shrinks(before, after)
    ensures Ready(Complete(before), ssp, op) ==> Ready(Complete(after), ssp, op)
    ensures CleanOperand(Complete(before), ssp, op) ==> CleanOperand(Complete(after), ssp, op)
  {
    CompleteIsMonotone(before, after);
    if op.CronsFirst? && Ready(Complete(before), ssp, op) {
      ShrinkingStaysClean(Complete(before), Complete(after), ssp, ALL_CRONS);
    }
    if CleanOperand(Complete(before), ssp, op) { OperandStaysClean(Complete(before), Complete(after), ssp, op); }
  }

  ghost predicate Done(s: Server, after: Server, ssp: Identity, op: Operand) {
    && Ready(Complete(after), ssp, op)
    && (Ready(s, ssp, op) ==> CleanOperand(Complete(after), ssp, op))
  }

  lemma {:induction false} SweepShrinks(s: Server, ssp: Identity, ops: seq<Operand>, order: Listing)
    requires Consistent(s)
    ensures var after := Sweep(s, ssp, ops, order).server; Consistent(after) && Shrinks(s, after)
  {
    if ops != [] {
      var n := |ops| - 1;
      var before := Sweep(s, ssp, ops[..n], order).server;
      SweepShrinks(s, ssp, ops[..n], order);
      OperandShrinks(before, ssp, ops[n], order);
      ShrinksTransitive(s, before, CleanupOperand(before, ssp, ops[n], order).server);
    }
  }

  lemma ReadyStays(s: Server, s': Server, ssp: Identity, op: Operand)
    requires Shrinks(s, s') && Ready(s, ssp, op)
    ensures Ready(s', ssp, op)
  {
    if op.CronsFirst? { ShrinkingStaysClean(s, s', ssp, ALL_CRONS); }
  }

  /** A cluster in which no comparison panics is swept to the end, and every operand gets on. */
  lemma {:induction false} SweepProgress(s: Server, ssp: Identity, ops: seq<Operand>, order: Listing)
    requires Consistent(s) && Enumerates(order) && forall op <- ops :: Peaceful(s, ssp, op)
    ensures !HasCrash(Sweep(s, ssp, ops, order).findings)
    ensures forall op <- ops :: Done(s, Sweep(s, ssp, ops, order).server, ssp, op)
  {
    if ops != [] {
      var n := |ops| - 1;
      var before := Sweep(s, ssp, ops[..n], order).server;
      SweepProgress(s, ssp, ops[..n], order);
      SweepShrinks(s, ssp, ops[..n], order);
      ShrinkingStaysPeaceful(s, before, ssp, ops[n]);
      OperandProgress(before, ssp, ops[n], order);
      OperandShrinks(before, ssp, ops[n], order);
      var after := CleanupOperand(before, ssp, ops[n], order).server;
      forall op <- ops ensures Done(s, after, ssp, op) {
        if op in ops[..n] { EarlierOperandsStay(before, after, ssp, op); }
        else if Ready(s, ssp, op) { ReadyStays(s, before, ssp, op); }
      }
    }
  }

  /** A cleanup pass, after which the deletions it requested complete. */
  function CompletedPass(s: Server, ssp: Identity, ops: seq<Operand>, order: Listing): Server {
    Complete(Sweep(s, ssp, ops, order).server)
  }

  lemma CompletedPassShrinks(s: Server, ssp: Identity, ops: seq<Operand>, order: Listing)
    requires Consistent(s)
    ensures var s' := CompletedPass(s, ssp, ops, order); Consistent(s') && Shrinks(s, s')
  {
    var swept := Sweep(s, ssp, ops, order).server;
    SweepShrinks(s, ssp, ops, order);
    CompleteShrinks(swept);
    ShrinksTransitive(s, swept, Complete(swept));
  }

  lemma CompletedPassStaysPeaceful(s: Server, ssp: Identity, ops: seq<Operand>, order: Listing)
    requires Consistent(s) && forall op <- ops :: Peaceful(s, ssp, op)
    ensures forall op <- ops :: Peaceful(CompletedPass(s, ssp, ops, order), ssp, op)
  {
    var s' := CompletedPass(s, ssp, ops, order);
    CompletedPassShrinks(s, ssp, ops, order);
    forall op <- ops ensures Peaceful(s', ssp, op) { ShrinkingStaysPeaceful(s, s', ssp, op); }
  }

  /**
   From any cluster state without panics, the third sweep is clear: the first removes crons
   and everything else but the data-sources, the second removes those.
   */
  lemma ThreePassesSuffice(s: Server, ssp: Identity, ops: seq<Operand>, order: Listing)
    requires Consistent(s) && Enumerates(order) && forall op <- ops :: Peaceful(s, ssp, op)
    ensures var first := CompletedPass(s, ssp, ops, order);
            var second := CompletedPass(first, ssp, ops, order);
            Clear(Sweep(second, ssp, ops, order).findings)
  {
    var first := CompletedPass(s, ssp, ops, order);
    CompletedPassShrinks(s, ssp, ops, order);
    CompletedPassStaysPeaceful(s, ssp, ops, order);
    SweepProgress(s, ssp, ops, order);
    SweepProgress(first, ssp, ops, order);
    var second := CompletedPass(first, ssp, ops, order);
    forall op <- ops ensures CleanOperand(second, ssp, op) {
      assert Done(s, Sweep(s, ssp, ops, order).server, ssp, op);
      assert Done(first, Sweep(first, ssp, ops, order).server, ssp, op);
    }
    SweepIsClearIff(second, ssp, ops, order);
  }
}

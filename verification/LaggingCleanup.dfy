/**
 Cleanup that lists and reads through an informer, which may show old versions or miss objects,
 while deletes go to the server: when it is clear, what that says about the cluster, and what it
 takes away.
 */
module LaggingCleanup {
  import opened Kube
  import opened Sequences
  import opened ApiServer
  import opened DataSourceOperand
  import opened Cleanup
  import opened CleanupRuns
  import opened CleanupScope

  // ----- what an informer can show

  /** Versions that were published, each in its own place. */
  ghost predicate Published(s: Server, view: Server) {
    forall key <- view.objects :: view.objects[key] in s.published && view.objects[key].key == key
  }

  ghost predicate PublishedReadings(s: Server, r: Readings) {
    && (forall part :: Published(s, r.list(part)))
    && (forall k: nat :: r.gets(k).Some? ==> r.gets(k).value in s.published)
  }

  // ----- a clear sweep

  /** Each listed object was found absent or not owned when it was read, or gone when it was deleted. */
  ghost predicate Found(s: Server, ssp: Identity, objects: seq<Object>, gets: Gets) {
    forall k: nat :: k < |objects| ==> Harmless(VerdictSeen(s, ssp, objects[k], gets(k)))
  }

  lemma {:induction false} ListSeenIsClearIff(s: Server, ssp: Identity, objects: seq<Object>, gets: Gets)
    ensures Clear(DeleteSeen(s, ssp, objects, gets).findings) <==> Found(s, ssp, objects, gets)
    ensures Clear(DeleteSeen(s, ssp, objects, gets).findings) ==> DeleteSeen(s, ssp, objects, gets).server == s
  {
    if objects != [] {
      var n := |objects| - 1;
      ListSeenIsClearIff(s, ssp, objects[..n], gets);
      var before := DeleteSeen(s, ssp, objects[..n], gets);
      var last := Finding(objects[n].key, VerdictSeen(before.server, ssp, objects[n], gets(n)));
      ClearConcat(before.findings, [last]);
      assert Clear([last]) <==> Harmless(last.verdict) by { assert [last][0] == last; }
      assert Found(s, ssp, objects, gets) <==>
             Found(s, ssp, objects[..n], gets) && Harmless(VerdictSeen(s, ssp, objects[n], gets(n)));
    }
  }

  ghost predicate PhaseFound(s: Server, ssp: Identity, parts: seq<Part>, order: Listing, r: Readings) {
    Found(s, ssp, Shown(ssp, parts, order, r), r.gets)
  }

  ghost predicate OperandFound(s: Server, ssp: Identity, op: Operand, order: Listing, r: OperandReadings) {
    && PhaseFound(s, ssp, op.parts, order, r.rest)
    && (op.CronsFirst? ==> PhaseFound(s, ssp, [ALL_CRONS], order, r.crons))
  }

  lemma OperandSeenIsClearIff(s: Server, ssp: Identity, op: Operand, order: Listing, r: OperandReadings)
    ensures Clear(OperandSeen(s, ssp, op, order, r).findings) <==> OperandFound(s, ssp, op, order, r)
    ensures Clear(OperandSeen(s, ssp, op, order, r).findings) ==> OperandSeen(s, ssp, op, order, r).server == s
  {
    ListSeenIsClearIff(s, ssp, Shown(ssp, op.parts, order, r.rest), r.rest.gets);
    ListSeenIsClearIff(s, ssp, Shown(ssp, [ALL_CRONS], order, r.crons), r.crons.gets);
  }

  ghost predicate AllFound(
    s: Server, ssp: Identity, ops: seq<Operand>, order: Listing, readings: SweepReadings)
  {
    forall i: nat :: i < |ops| ==> OperandFound(s, ssp, ops[i], order, readings(i))
  }

  lemma OneMoreFound(s: Server, ssp: Identity, ops: seq<Operand>, order: Listing, readings: SweepReadings)
    requires ops != []
    ensures var n: nat := |ops| - 1;
            AllFound(s, ssp, ops, order, readings) <==>
              AllFound(s, ssp, ops[..n], order, readings) && OperandFound(s, ssp, ops[n], order, readings(n))
  {
    var n: nat := |ops| - 1;
    if AllFound(s, ssp, ops, order, readings) {
      forall i: nat | i < n ensures OperandFound(s, ssp, ops[..n][i], order, readings(i)) {
        assert OperandFound(s, ssp, ops[i], order, readings(i));
      }
    }
    if AllFound(s, ssp, ops[..n], order, readings) {
      forall i: nat | i < n ensures OperandFound(s, ssp, ops[i], order, readings(i)) {
        assert OperandFound(s, ssp, ops[..n][i], order, readings(i));
      }
    }
  }

  /** The finalizer may go exactly if every listed object was found absent or not owned, whatever was read. */
  lemma {:induction false} SweepSeenIsClearIff(
    s: Server, ssp: Identity, ops: seq<Operand>, order: Listing, readings: SweepReadings)
    ensures var swept := SweepSeen(s, ssp, ops, order, readings);
            && (Clear(swept.findings) <==> AllFound(s, ssp, ops, order, readings))
            && (Clear(swept.findings) ==> swept.server == s)
  {
    if ops != [] {
      var n: nat := |ops| - 1;
      var before := SweepSeen(s, ssp, ops[..n], order, readings);
      SweepSeenIsClearIff(s, ssp, ops[..n], order, readings);
      OneMoreFound(s, ssp, ops, order, readings);
      OperandSeenIsClearIff(before.server, ssp, ops[n], order, readings(n));
      ClearConcat(before.findings, OperandSeen(before.server, ssp, ops[n], order, readings(n)).findings);
    }
  }

  // ----- and the cluster

  /** An object that cleanup has to wait for if it sees it. */
  ghost predicate Owed(s: Server, ssp: Identity, part: Part, o: Object) {
    ListedBy(s, ssp, part, o) && !Harmless(VerdictOn(s, ssp, o))
  }

  /** The informer shows such an object as it is, when it is listed and when it is read. */
  ghost predicate ShowsOwed(s: Server, ssp: Identity, parts: seq<Part>, order: Listing, r: Readings) {
    forall part <- parts, o | Owed(s, ssp, part, o) ::
      && ListedBy(r.list(part), ssp, part, o)
      && forall k: nat :: k < |Shown(ssp, parts, order, r)| && Shown(ssp, parts, order, r)[k] == o ==>
           r.gets(k) == Lookup(s.objects, o.key)
  }

  ghost predicate OperandShowsOwed(s: Server, ssp: Identity, op: Operand, order: Listing, r: OperandReadings) {
    && ShowsOwed(s, ssp, op.parts, order, r.rest)
    && (op.CronsFirst? ==> ShowsOwed(s, ssp, [ALL_CRONS], order, r.crons))
  }

  lemma InShown(ssp: Identity, parts: seq<Part>, order: Listing, r: Readings, o: Object)
    requires Enumerates(order)
    ensures o in Shown(ssp, parts, order, r) <==> exists part <- parts :: ListedBy(r.list(part), ssp, part, o)
  {
    InFlatMap(parts, ShownStep(ssp, order, r.list), o);
    forall part ensures o in ShownStep(ssp, order, r.list)(part) <==> ListedBy(r.list(part), ssp, part, o) {
      InPartList(r.list(part), ssp, part, order, o);
    }
  }

  lemma FreshVerdict(s: Server, ssp: Identity, expected: Object)
    ensures VerdictSeen(s, ssp, expected, Lookup(s.objects, expected.key)) == VerdictOn(s, ssp, expected)
    ensures CleanupSeen(s, ssp, expected, Lookup(s.objects, expected.key)) == CleanupOne(s, ssp, expected)
  {
  }

  lemma PhaseIsCleanIff(s: Server, ssp: Identity, parts: seq<Part>, order: Listing, r: Readings)
    requires Enumerates(order) && PhaseFound(s, ssp, parts, order, r)
    ensures CleanParts(s, ssp, parts) <==> ShowsOwed(s, ssp, parts, order, r)
  {
    if CleanParts(s, ssp, parts) {
      forall part <- parts, o ensures !Owed(s, ssp, part, o) { assert CleanPart(s, ssp, part); }
    } else if ShowsOwed(s, ssp, parts, order, r) {
      var part :| part in parts && !CleanPart(s, ssp, part);
      var o :| ListedBy(s, ssp, part, o) && !Harmless(VerdictOn(s, ssp, o));
      assert Owed(s, ssp, part, o);
      InShown(ssp, parts, order, r, o);
      var k :| 0 <= k < |Shown(ssp, parts, order, r)| && Shown(ssp, parts, order, r)[k] == o;
      FreshVerdict(s, ssp, o);
    }
  }

  /**
   After a clear sweep the cluster holds nothing that belongs to the SSP object exactly if the
   informer showed every such object as it was; otherwise the finalizer goes and objects stay.
   */
  lemma SweptClusterIsCleanIff(s: Server, ssp: Identity, ops: seq<Operand>, order: Listing, readings: SweepReadings)
    requires Enumerates(order) && Clear(SweepSeen(s, ssp, ops, order, readings).findings)
    ensures (forall op <- ops :: CleanOperand(s, ssp, op)) <==>
              forall i: nat :: i < |ops| ==> OperandShowsOwed(s, ssp, ops[i], order, readings(i))
  {
    SweepSeenIsClearIff(s, ssp, ops, order, readings);
    forall i: nat | i < |ops|
      ensures CleanOperand(s, ssp, ops[i]) <==> OperandShowsOwed(s, ssp, ops[i], order, readings(i))
    {
      assert OperandFound(s, ssp, ops[i], order, readings(i));
      OperandIsCleanIff(s, ssp, ops[i], order, readings(i));
    }
    assert forall op <- ops :: exists i: nat :: i < |ops| && ops[i] == op;
  }

  lemma OperandIsCleanIff(s: Server, ssp: Identity, op: Operand, order: Listing, r: OperandReadings)
    requires Enumerates(order) && OperandFound(s, ssp, op, order, r)
    ensures CleanOperand(s, ssp, op) <==> OperandShowsOwed(s, ssp, op, order, r)
  {
    PhaseIsCleanIff(s, ssp, op.parts, order, r.rest);
    if op.CronsFirst? {
      PhaseIsCleanIff(s, ssp, [ALL_CRONS], order, r.crons);
      assert CleanParts(s, ssp, [ALL_CRONS]) <==> CleanPart(s, ssp, ALL_CRONS) by {
        assert [ALL_CRONS][0] == ALL_CRONS;
      }
    }
  }

  // ----- what a list takes away

  lemma CleanupSeenShrinks(s: Server, ssp: Identity, expected: Object, seen: Option<Object>)
    requires Consistent(s)
    ensures var s' := CleanupSeen(s, ssp, expected, seen);
            && Consistent(s')
            && Shrinks(s, s')
            && (Deletes(ssp, expected, seen) ==> Doomed(s', expected.key))
  {
    DeleteKeepsConsistent(s, expected.key);
    if expected.key in s.objects { assert Newest(s, expected.key); }
  }

  lemma CleanupSeenStaysLocal(s: Server, ssp: Identity, expected: Object, seen: Option<Object>, key: Key)
    requires Consistent(s) && (key != expected.key || !Deletes(ssp, expected, seen))
    ensures Lookup(CleanupSeen(s, ssp, expected, seen).objects, key) == Lookup(s.objects, key)
  {
    if expected.key in s.objects { assert Newest(s, expected.key); }
  }

  lemma {:induction false} DeleteSeenShrinks(s: Server, ssp: Identity, objects: seq<Object>, gets: Gets)
    requires Consistent(s)
    ensures var s' := DeleteSeen(s, ssp, objects, gets).server; Consistent(s') && Shrinks(s, s')
  {
    if objects != [] {
      var n := |objects| - 1;
      var before := DeleteSeen(s, ssp, objects[..n], gets).server;
      DeleteSeenShrinks(s, ssp, objects[..n], gets);
      CleanupSeenShrinks(before, ssp, objects[n], gets(n));
      ShrinksTransitive(s, before, CleanupSeen(before, ssp, objects[n], gets(n)));
    }
  }

  /** No comparison with what is read panics. */
  ghost predicate Smooth(ssp: Identity, objects: seq<Object>, gets: Gets) {
    forall k: nat :: k < |objects| ==> !Judge(ssp, objects[k], gets(k)).Crashed?
  }

  /** A read of the object shows it as owned and live. */
  ghost predicate Takes(ssp: Identity, objects: seq<Object>, gets: Gets, key: Key) {
    exists k: nat :: k < |objects| && objects[k].key == key && Deletes(ssp, objects[k], gets(k))
  }

  lemma {:induction false} SmoothHasNoCrash(s: Server, ssp: Identity, objects: seq<Object>, gets: Gets)
    requires Smooth(ssp, objects, gets)
    ensures !HasCrash(DeleteSeen(s, ssp, objects, gets).findings)
  {
    if objects != [] {
      var n: nat := |objects| - 1;
      SmoothPrefix(ssp, objects, gets, n);
      SmoothHasNoCrash(s, ssp, objects[..n], gets);
    }
  }

  lemma SmoothPrefix(ssp: Identity, objects: seq<Object>, gets: Gets, n: nat)
    requires n <= |objects| && Smooth(ssp, objects, gets)
    ensures Smooth(ssp, objects[..n], gets)
  {
    forall k: nat | k < n ensures !Judge(ssp, objects[..n][k], gets(k)).Crashed? {
      assert objects[..n][k] == objects[k];
    }
  }

  lemma TakesOneMore(ssp: Identity, objects: seq<Object>, gets: Gets, key: Key)
    requires objects != []
    ensures var n: nat := |objects| - 1;
            Takes(ssp, objects, gets, key) <==>
              Takes(ssp, objects[..n], gets, key) || (objects[n].key == key && Deletes(ssp, objects[n], gets(n)))
  {
    var n: nat := |objects| - 1;
    if Takes(ssp, objects[..n], gets, key) {
      var k: nat :| k < n && objects[..n][k].key == key && Deletes(ssp, objects[..n][k], gets(k));
      assert objects[k].key == key && Deletes(ssp, objects[k], gets(k));
    }
    if Takes(ssp, objects, gets, key) {
      var k: nat :| k < |objects| && objects[k].key == key && Deletes(ssp, objects[k], gets(k));
      if k < n { assert objects[..n][k].key == key && Deletes(ssp, objects[..n][k], gets(k)); }
    }
  }

  /** Gone or going if some read shows it as owned and live, and otherwise as it was. */
  ghost predicate TakenOrLeft(s: Server, s': Server, key: Key, taken: bool) {
    if taken then Doomed(s', key) else Lookup(s'.objects, key) == Lookup(s.objects, key)
  }

  lemma {:induction false} ListTakesOrLeaves(s: Server, ssp: Identity, objects: seq<Object>, gets: Gets, key: Key)
    requires Consistent(s) && Smooth(ssp, objects, gets)
    ensures TakenOrLeft(s, DeleteSeen(s, ssp, objects, gets).server, key, Takes(ssp, objects, gets, key))
  {
    if objects != [] {
      var n: nat := |objects| - 1;
      var before := DeleteSeen(s, ssp, objects[..n], gets).server;
      SmoothPrefix(ssp, objects, gets, n);
      SmoothHasNoCrash(s, ssp, objects[..n], gets);
      ListTakesOrLeaves(s, ssp, objects[..n], gets, key);
      TakesOneMore(ssp, objects, gets, key);
      DeleteSeenShrinks(s, ssp, objects[..n], gets);
      CleanupSeenShrinks(before, ssp, objects[n], gets(n));
      if Takes(ssp, objects[..n], gets, key) {
        DoomedStays(before, CleanupSeen(before, ssp, objects[n], gets(n)), key);
      }
      else if !Takes(ssp, objects, gets, key) { CleanupSeenStaysLocal(before, ssp, objects[n], gets(n), key); }
    }
  }

  // ----- operands

  ghost predicate SmoothPhase(ssp: Identity, parts: seq<Part>, order: Listing, r: Readings) {
    Smooth(ssp, Shown(ssp, parts, order, r), r.gets)
  }

  ghost predicate SmoothOperand(ssp: Identity, op: Operand, order: Listing, r: OperandReadings) {
    SmoothPhase(ssp, op.parts, order, r.rest) && (op.CronsFirst? ==> SmoothPhase(ssp, [ALL_CRONS], order, r.crons))
  }

  ghost predicate PhaseTakes(ssp: Identity, parts: seq<Part>, order: Listing, r: Readings, key: Key) {
    Takes(ssp, Shown(ssp, parts, order, r), r.gets, key)
  }

  /** The second phase of the data-sources operand counts only if it is reached. */
  ghost predicate OperandTakes(s: Server, ssp: Identity, op: Operand, order: Listing, r: OperandReadings, key: Key) {
    || (op.CronsFirst? && PhaseTakes(ssp, [ALL_CRONS], order, r.crons, key))
    || (&& (op.CronsFirst? ==> PhaseFound(s, ssp, [ALL_CRONS], order, r.crons))
        && PhaseTakes(ssp, op.parts, order, r.rest, key))
  }

  lemma OperandSeenShrinks(s: Server, ssp: Identity, op: Operand, order: Listing, r: OperandReadings)
    requires Consistent(s)
    ensures var s' := OperandSeen(s, ssp, op, order, r).server; Consistent(s') && Shrinks(s, s')
  {
    DeleteSeenShrinks(s, ssp, Shown(ssp, op.parts, order, r.rest), r.rest.gets);
    if op.CronsFirst? {
      var crons := Shown(ssp, [ALL_CRONS], order, r.crons);
      DeleteSeenShrinks(s, ssp, crons, r.crons.gets);
      ListSeenIsClearIff(s, ssp, crons, r.crons.gets);
    }
  }

  lemma OperandHasNoCrash(s: Server, ssp: Identity, op: Operand, order: Listing, r: OperandReadings)
    requires SmoothOperand(ssp, op, order, r)
    ensures !HasCrash(OperandSeen(s, ssp, op, order, r).findings)
  {
    if op.CronsFirst? {
      var crons := Shown(ssp, [ALL_CRONS], order, r.crons);
      SmoothHasNoCrash(s, ssp, crons, r.crons.gets);
      var rest := Shown(ssp, op.parts, order, r.rest);
      SmoothHasNoCrash(DeleteSeen(s, ssp, crons, r.crons.gets).server, ssp, rest, r.rest.gets);
    } else {
      SmoothHasNoCrash(s, ssp, Shown(ssp, op.parts, order, r.rest), r.rest.gets);
    }
  }

  lemma OperandTakesOrLeaves(s: Server, ssp: Identity, op: Operand, order: Listing, r: OperandReadings, key: Key)
    requires Consistent(s) && SmoothOperand(ssp, op, order, r)
    ensures TakenOrLeft(s, OperandSeen(s, ssp, op, order, r).server, key, OperandTakes(s, ssp, op, order, r, key))
  {
    ListTakesOrLeaves(s, ssp, Shown(ssp, op.parts, order, r.rest), r.rest.gets, key);
    if op.CronsFirst? {
      var crons := Shown(ssp, [ALL_CRONS], order, r.crons);
      ListTakesOrLeaves(s, ssp, crons, r.crons.gets, key);
      ListSeenIsClearIff(s, ssp, crons, r.crons.gets);
      if Found(s, ssp, crons, r.crons.gets) && Takes(ssp, crons, r.crons.gets, key) {
        FoundTakesNothing(s, ssp, crons, r.crons.gets, key);
      }
    }
  }

  /** What a clear list takes was gone before. */
  lemma FoundTakesNothing(s: Server, ssp: Identity, objects: seq<Object>, gets: Gets, key: Key)
    requires Found(s, ssp, objects, gets) && Takes(ssp, objects, gets, key)
    ensures key !in s.objects
  {
    var k: nat :| k < |objects| && objects[k].key == key && Deletes(ssp, objects[k], gets(k));
    assert Harmless(VerdictSeen(s, ssp, objects[k], gets(k)));
  }

  /**
   An object that the second phase would take stays exactly if a cron that the list shows is
   found to be owned when it is read.
   */
  lemma SecondPhaseWaitsIff(s: Server, ssp: Identity, parts: seq<Part>, order: Listing, r: OperandReadings, key: Key)
    requires Consistent(s) && Enumerates(order) && SmoothOperand(ssp, CronsFirst(parts), order, r)
    requires key in s.objects && !s.objects[key].terminating && key.kind != DATA_IMPORT_CRON
    requires PhaseTakes(ssp, parts, order, r.rest, key)
    ensures var crons := Shown(ssp, [ALL_CRONS], order, r.crons);
            Lookup(OperandSeen(s, ssp, CronsFirst(parts), order, r).server.objects, key) == Lookup(s.objects, key) <==>
              exists k: nat :: k < |crons| && VerdictSeen(s, ssp, crons[k], r.crons.gets(k)).Requested?
  {
    OperandTakesOrLeaves(s, ssp, CronsFirst(parts), order, r, key);
    FirstPhaseTakesCrons(ssp, order, r.crons, key);
    SmoothIsFoundIff(s, ssp, Shown(ssp, [ALL_CRONS], order, r.crons), r.crons.gets);
  }

  lemma FirstPhaseTakesCrons(ssp: Identity, order: Listing, r: Readings, key: Key)
    requires Enumerates(order) && key.kind != DATA_IMPORT_CRON
    ensures !PhaseTakes(ssp, [ALL_CRONS], order, r, key)
  {
    var crons := Shown(ssp, [ALL_CRONS], order, r);
    forall k: nat | k < |crons| ensures crons[k].key != key { InShown(ssp, [ALL_CRONS], order, r, crons[k]); }
  }

  lemma SmoothIsFoundIff(s: Server, ssp: Identity, objects: seq<Object>, gets: Gets)
    requires Smooth(ssp, objects, gets)
    ensures !Found(s, ssp, objects, gets) <==>
              exists k: nat :: k < |objects| && VerdictSeen(s, ssp, objects[k], gets(k)).Requested?
  {
  }

  // ----- sweeps

  lemma {:induction false} SweepSeenShrinks(
    s: Server, ssp: Identity, ops: seq<Operand>, order: Listing, readings: SweepReadings)
    requires Consistent(s)
    ensures var s' := SweepSeen(s, ssp, ops, order, readings).server; Consistent(s') && Shrinks(s, s')
  {
    if ops != [] {
      var n: nat := |ops| - 1;
      var before := SweepSeen(s, ssp, ops[..n], order, readings).server;
      SweepSeenShrinks(s, ssp, ops[..n], order, readings);
      OperandSeenShrinks(before, ssp, ops[n], order, readings(n));
      ShrinksTransitive(s, before, OperandSeen(before, ssp, ops[n], order, readings(n)).server);
    }
  }

  ghost predicate SmoothSweep(ssp: Identity, ops: seq<Operand>, order: Listing, readings: SweepReadings) {
    forall i: nat :: i < |ops| ==> SmoothOperand(ssp, ops[i], order, readings(i))
  }

  lemma {:induction false} SweepSeenHasNoCrash(
    s: Server, ssp: Identity, ops: seq<Operand>, order: Listing, readings: SweepReadings)
    requires SmoothSweep(ssp, ops, order, readings)
    ensures !HasCrash(SweepSeen(s, ssp, ops, order, readings).findings)
  {
    if ops != [] {
      var n: nat := |ops| - 1;
      SmoothSweepPrefix(ssp, ops, order, readings, n);
      SweepSeenHasNoCrash(s, ssp, ops[..n], order, readings);
      OperandHasNoCrash(SweepSeen(s, ssp, ops[..n], order, readings).server, ssp, ops[n], order, readings(n));
    }
  }

  lemma SmoothSweepPrefix(ssp: Identity, ops: seq<Operand>, order: Listing, readings: SweepReadings, n: nat)
    requires n <= |ops| && SmoothSweep(ssp, ops, order, readings)
    ensures SmoothSweep(ssp, ops[..n], order, readings)
  {
    forall i: nat | i < n ensures SmoothOperand(ssp, ops[..n][i], order, readings(i)) { assert ops[..n][i] == ops[i]; }
  }

  /** Some operand, when its turn comes, reads the object as owned and live. */
  ghost predicate SweepTakes(
    s: Server, ssp: Identity, ops: seq<Operand>, order: Listing, readings: SweepReadings, key: Key)
  {
    ops != [] &&
    var n: nat := |ops| - 1;
    || SweepTakes(s, ssp, ops[..n], order, readings, key)
    || LastTakes(s, ssp, ops, order, readings, key)
  }

  ghost predicate LastTakes(
    s: Server, ssp: Identity, ops: seq<Operand>, order: Listing, readings: SweepReadings, key: Key)
    requires ops != []
  {
    var n: nat := |ops| - 1;
    OperandTakes(SweepSeen(s, ssp, ops[..n], order, readings).server, ssp, ops[n], order, readings(n), key)
  }

  lemma {:induction false} SweepTakesOrLeaves(
    s: Server, ssp: Identity, ops: seq<Operand>, order: Listing, readings: SweepReadings, key: Key)
    requires Consistent(s) && SmoothSweep(ssp, ops, order, readings)
    ensures TakenOrLeft(s, SweepSeen(s, ssp, ops, order, readings).server, key,
                        SweepTakes(s, ssp, ops, order, readings, key))
  {
    if ops != [] {
      var n: nat := |ops| - 1;
      var before := SweepSeen(s, ssp, ops[..n], order, readings).server;
      SmoothSweepPrefix(ssp, ops, order, readings, n);
      SweepSeenHasNoCrash(s, ssp, ops[..n], order, readings);
      SweepSeenShrinks(s, ssp, ops[..n], order, readings);
      SweepTakesOrLeaves(s, ssp, ops[..n], order, readings, key);
      OperandTakesOrLeaves(before, ssp, ops[n], order, readings(n), key);
      OperandSeenShrinks(before, ssp, ops[n], order, readings(n));
      StepTakenOrLeft(s, before, OperandSeen(before, ssp, ops[n], order, readings(n)).server, key,
                      SweepTakes(s, ssp, ops[..n], order, readings, key),
                      LastTakes(s, ssp, ops, order, readings, key));
    }
  }

  lemma StepTakenOrLeft(s: Server, before: Server, after: Server, key: Key, taken: bool, now: bool)
    requires Shrinks(before, after) && TakenOrLeft(s, before, key, taken) && TakenOrLeft(before, after, key, now)
    ensures TakenOrLeft(s, after, key, taken || now)
  {
    if taken { DoomedStays(before, after, key); }
  }

  /**
   A live object, whoever it belongs to, is left as it is exactly if no read of the sweep
   shows it as owned and live.
   */
  lemma SparedBySweepIff(
    s: Server, ssp: Identity, ops: seq<Operand>, order: Listing, readings: SweepReadings, key: Key)
    requires Consistent(s) && SmoothSweep(ssp, ops, order, readings)
    requires key in s.objects && !s.objects[key].terminating
    ensures Lookup(SweepSeen(s, ssp, ops, order, readings).server.objects, key) == Lookup(s.objects, key) <==>
              !SweepTakes(s, ssp, ops, order, readings, key)
  {
    SweepTakesOrLeaves(s, ssp, ops, order, readings, key);
  }

  /** Of versions that do not name the SSP object, these are read as owned. */
  lemma ForeignVersionIsTakenIff(ssp: Identity, expected: Object, v: Object)
    requires !Mine(ssp, v)
    ensures Deletes(ssp, expected, Some(v)) <==>
              && !v.terminating
              && expected.key.namespace != ssp.owner.namespace
              && expected.ownerRefs != []
              && expected.ownerRefs[0] in v.ownerRefs
  {
    OwnedIff(ssp, expected, v);
  }

  // ----- where a lagging informer leads

  /** Nothing is shown. */
  function Blind(): Readings {
    Readings((_: Part) => EMPTY, (_: nat) => None)
  }

  /** Lists are made from one state, and each object is then read as it is in another. */
  function ReadFrom(listed: Server, s: Server, ssp: Identity, parts: seq<Part>, order: Listing): Readings {
    var objects := Gathered(listed, ssp, parts, order);
    Readings((_: Part) => listed, (k: nat) => if k < |objects| then Lookup(s.objects, objects[k].key) else None)
  }

  lemma BlindShowsNothing(ssp: Identity, order: Listing, part: Part)
    requires Enumerates(order) && !part.Known?
    ensures Shown(ssp, [part], order, Blind()) == []
  {
    var shown := Shown(ssp, [part], order, Blind());
    if shown != [] { InShown(ssp, [part], order, Blind(), shown[0]); }
  }

  lemma ShownFrom(listed: Server, s: Server, ssp: Identity, parts: seq<Part>, order: Listing)
    ensures Shown(ssp, parts, order, ReadFrom(listed, s, ssp, parts, order)) == Gathered(listed, ssp, parts, order)
  {
    var r := ReadFrom(listed, s, ssp, parts, order);
    SameFlatMap(parts, ShownStep(ssp, order, r.list), PartStep(listed, ssp, order));
  }

  lemma {:induction false} SameFlatMap(parts: seq<Part>, f: Part -> seq<Object>, g: Part -> seq<Object>)
    requires forall part :: f(part) == g(part)
    ensures FlatMap(parts, f) == FlatMap(parts, g)
  {
    if parts != [] { SameFlatMap(parts[..|parts| - 1], f, g); }
  }

  lemma ReadingsArePublished(s: Server, ssp: Identity, parts: seq<Part>, order: Listing)
    requires Consistent(s)
    ensures PublishedReadings(s, ReadFrom(s, s, ssp, parts, order)) && PublishedReadings(s, Blind())
  {
    forall key <- s.objects ensures s.objects[key] in s.published && s.objects[key].key == key {
      assert Newest(s, key);
    }
  }

  /** The kind of object that a part is about. */
  function KindOf(part: Part): Kind {
    if part.Known? then part.o.key.kind else part.kind
  }

  /**
   A list that misses the owned crons lets the second phase begin: an owned DataSource goes
   while its cron is still there.
   */
  lemma MissedCronsAreOvertaken(s: Server, ssp: Identity, parts: seq<Part>, order: Listing, key: Key)
    requires Consistent(s) && Enumerates(order) && PeacefulParts(s, ssp, parts) && OwnsCron(s, ssp)
    requires forall part <- parts :: KindOf(part) != DATA_IMPORT_CRON
    requires key in s.objects && !s.objects[key].terminating
    requires exists part <- parts, o :: ListedBy(s, ssp, part, o) && o.key == key && VerdictOn(s, ssp, o).Requested?
    ensures var r := OperandReadings(Blind(), ReadFrom(s, s, ssp, parts, order));
            var after := OperandSeen(s, ssp, CronsFirst(parts), order, r).server;
            && PublishedReadings(s, r.crons)
            && PublishedReadings(s, r.rest)
            && Doomed(after, key)
            && OwnsCron(after, ssp)
  {
    var r := OperandReadings(Blind(), ReadFrom(s, s, ssp, parts, order));
    var list := Gathered(s, ssp, parts, order);
    ReadingsArePublished(s, ssp, parts, order);
    BlindShowsNothing(ssp, order, ALL_CRONS);
    ShownFrom(s, s, ssp, parts, order);
    FreshReadsAreSmooth(s, ssp, parts, order);
    assert OperandSeen(s, ssp, CronsFirst(parts), order, r) == DeleteSeen(s, ssp, list, r.rest.gets);
    FreshReadsTake(s, ssp, parts, order, key);
    ListTakesOrLeaves(s, ssp, list, r.rest.gets, key);
    CronsStay(s, ssp, parts, order, r.rest.gets);
  }

  /** A list without crons leaves them alone. */
  lemma CronsStay(s: Server, ssp: Identity, parts: seq<Part>, order: Listing, gets: Gets)
    requires Consistent(s) && Enumerates(order) && OwnsCron(s, ssp)
    requires Smooth(ssp, Gathered(s, ssp, parts, order), gets)
    requires forall part <- parts :: KindOf(part) != DATA_IMPORT_CRON
    ensures OwnsCron(DeleteSeen(s, ssp, Gathered(s, ssp, parts, order), gets).server, ssp)
  {
    var list := Gathered(s, ssp, parts, order);
    var cron :|
      cron in s.objects && s.objects[cron].key.kind == DATA_IMPORT_CRON && OwnedBy(s.objects[cron], ssp.owner);
    assert Newest(s, cron);
    NoCronIsTaken(s, ssp, parts, order, gets, cron);
    ListTakesOrLeaves(s, ssp, list, gets, cron);
    assert Lookup(DeleteSeen(s, ssp, list, gets).server.objects, cron) == Some(s.objects[cron]);
  }

  lemma FreshReadsAreSmooth(s: Server, ssp: Identity, parts: seq<Part>, order: Listing)
    requires Consistent(s) && Enumerates(order) && PeacefulParts(s, ssp, parts)
    ensures Smooth(ssp, Gathered(s, ssp, parts, order), ReadFrom(s, s, ssp, parts, order).gets)
  {
    var list := Gathered(s, ssp, parts, order);
    GatheredIsCalm(s, ssp, parts, order);
    forall k: nat | k < |list| ensures !Judge(ssp, list[k], Lookup(s.objects, list[k].key)).Crashed? {
      assert list[k] in list;
    }
  }

  lemma FreshReadsTake(s: Server, ssp: Identity, parts: seq<Part>, order: Listing, key: Key)
    requires Enumerates(order) && key in s.objects && !s.objects[key].terminating
    requires exists part <- parts, o :: ListedBy(s, ssp, part, o) && o.key == key && VerdictOn(s, ssp, o).Requested?
    ensures Takes(ssp, Gathered(s, ssp, parts, order), ReadFrom(s, s, ssp, parts, order).gets, key)
  {
    var list := Gathered(s, ssp, parts, order);
    var part, o :| part in parts && ListedBy(s, ssp, part, o) && o.key == key && VerdictOn(s, ssp, o).Requested?;
    InGathered(s, ssp, parts, order, o);
    var k :| 0 <= k < |list| && list[k] == o;
    assert Deletes(ssp, list[k], ReadFrom(s, s, ssp, parts, order).gets(k));
  }

  lemma NoCronIsTaken(s: Server, ssp: Identity, parts: seq<Part>, order: Listing, gets: Gets, cron: Key)
    requires Enumerates(order) && cron.kind == DATA_IMPORT_CRON
    requires forall part <- parts :: KindOf(part) != DATA_IMPORT_CRON
    ensures !Takes(ssp, Gathered(s, ssp, parts, order), gets, cron)
  {
    var list := Gathered(s, ssp, parts, order);
    forall k: nat | k < |list| ensures list[k].key != cron {
      InGathered(s, ssp, parts, order, list[k]);
      var part :| part in parts && ListedBy(s, ssp, part, list[k]);
    }
  }

  /** The cluster as it would be if only this version were there. */
  function Only(v: Object): Server {
    EMPTY.(objects := map[v.key := v])
  }

  /**
   An old version that names the SSP object, shown in place of one that does not: what is
   stored today is deleted by its name.
   */
  lemma StaleVersionIsTaken(s: Server, ssp: Identity, order: Listing, v: Object)
    requires Consistent(s) && Enumerates(order) && v in s.published && OwnedBy(v, ssp.owner) && !v.terminating
    ensures var part := OwnedKind(v.key.kind, None);
            var r := Readings((_: Part) => Only(v), (_: nat) => Some(v));
            && PublishedReadings(s, r)
            && Doomed(OperandSeen(s, ssp, Gather([part]), order, OperandReadings(Blind(), r)).server, v.key)
  {
    var part := OwnedKind(v.key.kind, None);
    var r := Readings((_: Part) => Only(v), (_: nat) => Some(v));
    var shown := Shown(ssp, [part], order, r);
    assert [part][0] == part && ListedBy(Only(v), ssp, part, v) by { assert v.key in Only(v).objects; }
    InShown(ssp, [part], order, r, v);
    forall k: nat | k < |shown| ensures shown[k] == v { InShown(ssp, [part], order, r, shown[k]); }
    OwnVersionIsRequested(ssp, v);
    assert Deletes(ssp, shown[0], r.gets(0));
    ListTakesOrLeaves(s, ssp, shown, r.gets, v.key);
  }

  lemma OwnVersionIsRequested(ssp: Identity, v: Object)
    requires OwnedBy(v, ssp.owner)
    ensures Judge(ssp, v, Some(v)).Requested?
  {
  }

  // ----- the quiet case

  /** Every read returns what is stored at that moment. */
  ghost predicate FreshGets(s: Server, ssp: Identity, objects: seq<Object>, gets: Gets) {
    forall k: nat :: k < |objects| ==>
      gets(k) == Lookup(DeleteAll(s, ssp, objects[..k]).server.objects, objects[k].key)
  }

  lemma {:induction false} FreshListIsQuiet(s: Server, ssp: Identity, objects: seq<Object>, gets: Gets)
    requires FreshGets(s, ssp, objects, gets)
    ensures DeleteSeen(s, ssp, objects, gets) == DeleteAll(s, ssp, objects)
  {
    if objects != [] {
      var n: nat := |objects| - 1;
      forall k: nat | k < n
        ensures gets(k) == Lookup(DeleteAll(s, ssp, objects[..n][..k]).server.objects, objects[..n][k].key)
      {
        assert objects[..n][..k] == objects[..k];
      }
      FreshListIsQuiet(s, ssp, objects[..n], gets);
      FreshVerdict(DeleteAll(s, ssp, objects[..n]).server, ssp, objects[n]);
    }
  }

  ghost predicate FreshPhase(s: Server, ssp: Identity, parts: seq<Part>, order: Listing, r: Readings) {
    && (forall part :: r.list(part) == s)
    && FreshGets(s, ssp, Gathered(s, ssp, parts, order), r.gets)
  }

  ghost predicate FreshOperand(s: Server, ssp: Identity, op: Operand, order: Listing, r: OperandReadings) {
    FreshPhase(s, ssp, op.parts, order, r.rest) && FreshPhase(s, ssp, [ALL_CRONS], order, r.crons)
  }

  lemma FreshPhaseIsQuiet(s: Server, ssp: Identity, parts: seq<Part>, order: Listing, r: Readings)
    requires FreshPhase(s, ssp, parts, order, r)
    ensures PhaseSeen(s, ssp, parts, order, r) == DeleteAll(s, ssp, Gathered(s, ssp, parts, order))
  {
    SameFlatMap(parts, ShownStep(ssp, order, r.list), PartStep(s, ssp, order));
    FreshListIsQuiet(s, ssp, Gathered(s, ssp, parts, order), r.gets);
  }

  lemma FreshOperandIsQuiet(s: Server, ssp: Identity, op: Operand, order: Listing, r: OperandReadings)
    requires FreshOperand(s, ssp, op, order, r)
    ensures OperandSeen(s, ssp, op, order, r) == CleanupOperand(s, ssp, op, order)
  {
    FreshPhaseIsQuiet(s, ssp, op.parts, order, r.rest);
    FreshPhaseIsQuiet(s, ssp, [ALL_CRONS], order, r.crons);
    OnePart(s, ssp, ALL_CRONS, order);
    ListIsClearIff(s, ssp, PartList(s, ssp, ALL_CRONS, order));
  }

  lemma OnePart(s: Server, ssp: Identity, part: Part, order: Listing)
    ensures Gathered(s, ssp, [part], order) == PartList(s, ssp, part, order)
  {
    assert [part][..0] == [];
    assert FlatMap([part][..0], PartStep(s, ssp, order)) == [];
  }

  ghost predicate FreshSweep(s: Server, ssp: Identity, ops: seq<Operand>, order: Listing, readings: SweepReadings) {
    forall i: nat :: i < |ops| ==> FreshAt(s, ssp, ops, order, readings, i)
  }

  ghost predicate FreshAt(
    s: Server, ssp: Identity, ops: seq<Operand>, order: Listing, readings: SweepReadings, i: nat)
    requires i < |ops|
  {
    FreshOperand(Sweep(s, ssp, ops[..i], order).server, ssp, ops[i], order, readings(i))
  }

  /** A sweep whose reads are all up to date is the quiet one. */
  lemma {:induction false} FreshSweepIsQuiet(
    s: Server, ssp: Identity, ops: seq<Operand>, order: Listing, readings: SweepReadings)
    requires FreshSweep(s, ssp, ops, order, readings)
    ensures SweepSeen(s, ssp, ops, order, readings) == Sweep(s, ssp, ops, order)
  {
    if ops != [] {
      var n: nat := |ops| - 1;
      forall i: nat | i < n ensures FreshAt(s, ssp, ops[..n], order, readings, i) {
        assert FreshAt(s, ssp, ops, order, readings, i) && ops[..n][..i] == ops[..i];
      }
      FreshSweepIsQuiet(s, ssp, ops[..n], order, readings);
      assert FreshAt(s, ssp, ops, order, readings, n);
      FreshOperandIsQuiet(Sweep(s, ssp, ops[..n], order).server, ssp, ops[n], order, readings(n));
    }
  }

  /** There always are such reads. */
  function UpToDate(s: Server, ssp: Identity, ops: seq<Operand>, order: Listing): SweepReadings {
    (i: nat) =>
      if i >= |ops| then OperandReadings(Blind(), Blind())
      else
        var now := Sweep(s, ssp, ops[..i], order).server;
        OperandReadings(Current(now, ssp, [ALL_CRONS], order), Current(now, ssp, ops[i].parts, order))
  }

  function Current(s: Server, ssp: Identity, parts: seq<Part>, order: Listing): Readings {
    var objects := Gathered(s, ssp, parts, order);
    Readings((_: Part) => s,
             (k: nat) => if k < |objects| then Lookup(DeleteAll(s, ssp, objects[..k]).server.objects, objects[k].key)
                         else None)
  }

  lemma UpToDateIsFresh(s: Server, ssp: Identity, ops: seq<Operand>, order: Listing)
    ensures FreshSweep(s, ssp, ops, order, UpToDate(s, ssp, ops, order))
  {
    forall i: nat | i < |ops| ensures FreshAt(s, ssp, ops, order, UpToDate(s, ssp, ops, order), i) {
      var now := Sweep(s, ssp, ops[..i], order).server;
      CurrentIsFresh(now, ssp, [ALL_CRONS], order);
      CurrentIsFresh(now, ssp, ops[i].parts, order);
    }
  }

  lemma CurrentIsFresh(s: Server, ssp: Identity, parts: seq<Part>, order: Listing)
    ensures FreshPhase(s, ssp, parts, order, Current(s, ssp, parts, order))
  {
  }
}

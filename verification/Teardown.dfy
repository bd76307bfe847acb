/** How an SSP object that is being deleted loses its finalizer, and when it never does. */
module Teardown {
  import opened Kube
  import opened ApiServer
  import opened Cleanup
  import opened CleanupRuns
  import opened LaggingCleanup
  import opened Lifecycle
  import opened LifecycleSafety

  // ----- quiet passes

  /** What a sweep with up-to-date reads leaves. */
  function QuietSwept(sys: Sys, setup: Setup, order: Listing): Swept
    requires sys.pc.Sweeping?
  {
    Sweep(sys.server, Identity(setup.owner, sys.pc.base.uid), setup.operands, order)
  }

  function QuietReads(sys: Sys, setup: Setup, order: Listing): SweepReadings
    requires sys.pc.Sweeping?
  {
    UpToDate(sys.server, Identity(setup.owner, sys.pc.base.uid), setup.operands, order)
  }

  function QuietSweep(sys: Sys, setup: Setup, order: Listing): Sys
    requires sys.pc.Sweeping?
  {
    SweepResult(sys, QuietSwept(sys, setup, order), Check(sys.server, order, QuietReads(sys, setup, order)))
  }

  lemma QuietSweptIsSeen(sys: Sys, setup: Setup, order: Listing, readings: SweepReadings)
    requires sys.pc.Sweeping?
    requires FreshSweep(sys.server, Identity(setup.owner, sys.pc.base.uid), setup.operands, order, readings)
    ensures SweepOf(sys, setup, order, readings) == QuietSwept(sys, setup, order)
  {
    FreshSweepIsQuiet(sys.server, Identity(setup.owner, sys.pc.base.uid), setup.operands, order, readings);
  }

  /** It is one of the steps of the protocol. */
  lemma QuietSweepIsAStep(sys: Sys, setup: Setup, order: Listing, server: Server)
    requires sys.log != [] && sys.pc.Sweeping?
    ensures Next(sys, setup, SweepStep(order, QuietReads(sys, setup, order), false, server)) ==
            QuietSweep(sys, setup, order)
  {
    UpToDateIsFresh(sys.server, Identity(setup.owner, sys.pc.base.uid), setup.operands, order);
    QuietSweptIsSeen(sys, setup, order, QuietReads(sys, setup, order));
    SweepStepIs(sys, setup, order, QuietReads(sys, setup, order), QuietSwept(sys, setup, order), server);
  }

  /** The next step of a running pass, without failing calls. */
  function Drive(sys: Sys, setup: Setup, order: Listing): Sys {
    if sys.log == [] then sys
    else if IsWrite(sys.pc) then Call(sys, NoFault)
    else if sys.pc.Sweeping? then QuietSweep(sys, setup, order)
    else sys
  }

  /** How far a pass is from its end; the operands' turn is not part of a cleanup. */
  function Rank(pc: Pc): nat {
    match pc
    case Idle => 0
    case Reconciling(_) => 0
    case WriteDeleting(_) => 4
    case Sweeping(_) => 3
    case DropFinalizer(_) => 2
    case WriteFinalizer(_, _) => 2
    case WritePre(_) => 2
    case _ => 1
  }

  lemma DriveGetsOn(sys: Sys, setup: Setup, order: Listing)
    requires sys.log != [] && Rank(sys.pc) > 0
    ensures Rank(Drive(sys, setup, order).pc) < Rank(sys.pc)
  {
    if IsWrite(sys.pc) { CallGetsOn(sys); }
    else { ResultFrame(sys, QuietSwept(sys, setup, order), Check(sys.server, order, QuietReads(sys, setup, order))); }
  }

  lemma AfterWriteGetsOn(pc: Pc, answer: Answer)
    requires IsWrite(pc)
    ensures Rank(AfterWrite(pc, answer)) < Rank(pc)
  {
  }

  lemma CallGetsOn(sys: Sys)
    requires sys.log != [] && IsWrite(sys.pc)
    ensures Rank(Call(sys, NoFault).pc) < Rank(sys.pc)
  {
    var answer := AnswerTo(sys);
    AfterWriteGetsOn(sys.pc, answer);
    if answer.Accepted? { AfterWriteGetsOn(sys.pc, Accepted(Head(Append(Recorded(sys), answer.o)))); }
  }

  function Driven(sys: Sys, setup: Setup, order: Listing): Sys
    decreases Rank(sys.pc)
  {
    if sys.log == [] || Rank(sys.pc) == 0 then sys
    else
      DriveGetsOn(sys, setup, order);
      Driven(Drive(sys, setup, order), setup, order)
  }

  /** Requested deletions complete, and the informer catches up. */
  function Rested(sys: Sys): Sys {
    if sys.log == [] then sys else sys.(server := Complete(sys.server), seen := |sys.log| - 1)
  }

  function QuietPass(sys: Sys, setup: Setup, order: Listing): Sys
    requires sys.seen < |sys.log|
  {
    Rested(Driven(BeginStep(sys), setup, order))
  }

  function Passes(sys: Sys, setup: Setup, order: Listing, n: nat): Sys {
    if n == 0 then sys
    else
      var before := Passes(sys, setup, order, n - 1);
      if before.seen < |before.log| then QuietPass(before, setup, order) else before
  }

  /** The object is being deleted and still protected; nothing is going on, and the informer is up to date. */
  ghost predicate Leaving(sys: Sys) {
    && Safe(sys)
    && sys.pc.Idle?
    && sys.seen == |sys.log| - 1
    && Head(sys).Some?
    && Head(sys).value.deleting
    && Protected(Head(sys).value)
  }

  /** The finalizer is gone, and with it perhaps the object. */
  ghost predicate Released(sys: Sys) {
    sys.log != [] && (Head(sys).Some? ==> !Protected(Head(sys).value))
  }

  function SspIdentity(sys: Sys, setup: Setup): Identity
    requires sys.log != [] && Head(sys).Some?
  {
    Identity(setup.owner, Head(sys).value.uid)
  }

  /** Only the finalizer of this release. */
  ghost predicate Waiting(sys: Sys) {
    Leaving(sys) && OLD_FINALIZER !in Head(sys).value.finalizers
  }

  ghost predicate Outdated(sys: Sys) {
    Leaving(sys) && FINALIZER !in Head(sys).value.finalizers
  }

  // ----- with the finalizer of this release

  lemma Announces(sys: Sys, setup: Setup, order: Listing)
    requires Waiting(sys)
    ensures var announced := Drive(BeginStep(sys), setup, order);
            && Driven(BeginStep(sys), setup, order) == Driven(announced, setup, order)
            && Safe(announced)
            && announced.pc.Sweeping?
            && Head(announced) == Some(announced.pc.base)
            && announced.pc.base.uid == Head(sys).value.uid
            && announced.pc.base.deleting
            && announced.pc.base.finalizers == Head(sys).value.finalizers
            && announced.server == sys.server
  {
    var o := Head(sys).value;
    BeginKeepsSafe(sys);
    var begun := BeginStep(sys);
    assert begun.pc == WriteDeleting(o);
    WriteKeepsSafe(begun, NoFault);
    DeletingIsAnnounced(begun, o);
    DrivenByOne(begun, Call(begun, NoFault), setup, order);
  }

  lemma DeletingIsAnnounced(sys: Sys, o: SspObject)
    requires sys.log != [] && sys.pc == WriteDeleting(o) && Head(sys) == Some(o)
    ensures var n := Call(sys, NoFault);
            && n.pc.Sweeping?
            && Head(n) == Some(n.pc.base)
            && n.pc.base == o.(status := n.pc.base.status, version := n.pc.base.version)
            && n.server == sys.server
  {
  }

  lemma ReleaseStep(sys: Sys)
    requires sys.log != [] && sys.pc.DropFinalizer? && Head(sys) == Some(sys.pc.base) && sys.pc.base.deleting
    ensures Released(Call(sys, NoFault)) && Call(sys, NoFault).pc.WriteDeleted?
  {
  }

  lemma LastWriteStaysReleased(sys: Sys)
    requires Released(sys) && sys.pc.WriteDeleted?
    ensures Released(Call(sys, NoFault)) && Call(sys, NoFault).pc.Idle?
  {
  }

  lemma DeletedEnds(sys: Sys, setup: Setup, order: Listing)
    requires Released(sys) && sys.pc.WriteDeleted?
    ensures Released(Rested(Driven(sys, setup, order)))
  {
    LastWriteStaysReleased(sys);
    var gone := Call(sys, NoFault);
    assert Driven(sys, setup, order) == Driven(gone, setup, order) == gone;
  }

  lemma DropEnds(sys: Sys, setup: Setup, order: Listing)
    requires sys.log != [] && sys.pc.DropFinalizer? && Head(sys) == Some(sys.pc.base) && sys.pc.base.deleting
    ensures Released(Rested(Driven(sys, setup, order)))
  {
    ReleaseStep(sys);
    DeletedEnds(Call(sys, NoFault), setup, order);
    assert Driven(sys, setup, order) == Driven(Call(sys, NoFault), setup, order);
  }

  lemma ClearResult(sys: Sys, swept: Swept, check: Check)
    requires sys.pc.Sweeping? && sys.log != [] && Head(sys) == Some(sys.pc.base) && Clear(swept.findings)
    ensures var n := SweepResult(sys, swept, check);
            n.log == sys.log && n.pc == DropFinalizer(sys.pc.base) && Head(n) == Some(n.pc.base)
  {
  }

  lemma ClearSweepDrops(sys: Sys, setup: Setup, order: Listing)
    requires sys.pc.Sweeping? && sys.log != [] && Head(sys) == Some(sys.pc.base)
    requires Clear(QuietSwept(sys, setup, order).findings)
    ensures var n := Drive(sys, setup, order);
            n.log == sys.log && n.pc == DropFinalizer(sys.pc.base) && Head(n) == Some(n.pc.base)
  {
    ClearResult(sys, QuietSwept(sys, setup, order), Check(sys.server, order, QuietReads(sys, setup, order)));
  }

  lemma DropComesNext(sys: Sys, setup: Setup, order: Listing)
    requires sys.log != [] && Rank(sys.pc) > 0
    requires var next := Drive(sys, setup, order);
             && next.log != [] && next.pc.DropFinalizer? && Head(next) == Some(next.pc.base) && next.pc.base.deleting
    ensures Released(Rested(Driven(sys, setup, order)))
  {
    DropEnds(Drive(sys, setup, order), setup, order);
    DrivenByOne(sys, Drive(sys, setup, order), setup, order);
  }

  lemma DrivenByOne(sys: Sys, next: Sys, setup: Setup, order: Listing)
    requires sys.log != [] && Rank(sys.pc) > 0 && next == Drive(sys, setup, order)
    ensures Driven(sys, setup, order) == Driven(next, setup, order)
  {
  }

  lemma PendingSweepWaits(sys: Sys, setup: Setup, order: Listing)
    requires Safe(sys) && sys.pc.Sweeping? && Head(sys) == Some(sys.pc.base) && sys.pc.base.deleting
    requires Protected(sys.pc.base) && OLD_FINALIZER !in sys.pc.base.finalizers
    requires !Clear(QuietSwept(sys, setup, order).findings)
    ensures var after := Rested(Driven(sys, setup, order));
            && Waiting(after)
            && Head(after) == Head(sys)
            && after.server == Complete(QuietSwept(sys, setup, order).server)
  {
    var idle := QuietSweep(sys, setup, order);
    IdleWaits(sys, idle);
    assert Driven(sys, setup, order) == Driven(idle, setup, order) == idle;
  }

  lemma IdleWaits(sys: Sys, idle: Sys)
    requires Safe(sys) && Head(sys).Some? && Head(sys).value.deleting && idle == sys.(server := idle.server, pc := Idle)
    requires Protected(Head(sys).value) && OLD_FINALIZER !in Head(sys).value.finalizers
    ensures Waiting(Rested(idle)) && Head(Rested(idle)) == Head(sys) && Rested(idle).server == Complete(idle.server)
  {
    var done := idle.(server := Complete(idle.server));
    PassStepKeepsSafe(sys, done);
    SyncKeepsSafe(done, |done.log| - 1);
  }

  /** A pass releases the object if its sweep is clear, and otherwise leaves the next one less to do. */
  lemma PassReleasesOrProgresses(sys: Sys, setup: Setup, order: Listing)
    requires Waiting(sys)
    ensures var ssp := SspIdentity(sys, setup);
            var clear := Clear(Sweep(sys.server, ssp, setup.operands, order).findings);
            var after := QuietPass(sys, setup, order);
            && (clear ==> Released(after))
            && (!clear ==>
                  && Waiting(after)
                  && SspIdentity(after, setup) == ssp
                  && after.server == CompletedPass(sys.server, ssp, setup.operands, order))
  {
    Announces(sys, setup, order);
    var announced := Drive(BeginStep(sys), setup, order);
    if Clear(QuietSwept(announced, setup, order).findings) {
      ClearSweepDrops(announced, setup, order);
      DropComesNext(announced, setup, order);
    } else {
      PendingSweepWaits(announced, setup, order);
    }
  }

  // ----- with both finalizers

  lemma Renames(sys: Sys, setup: Setup, order: Listing)
    requires Leaving(sys) && OLD_FINALIZER in Head(sys).value.finalizers && FINALIZER in Head(sys).value.finalizers
    ensures var renamed := Drive(BeginStep(sys), setup, order);
            && Driven(BeginStep(sys), setup, order) == Driven(renamed, setup, order)
            && Safe(renamed)
            && renamed.pc.WriteDeploying?
            && Head(renamed) == Some(renamed.pc.base)
            && renamed.pc.base.uid == Head(sys).value.uid
            && renamed.pc.base.deleting
            && renamed.pc.base.finalizers == Head(sys).value.finalizers - {OLD_FINALIZER}
            && renamed.server == sys.server
  {
    var o := Head(sys).value;
    BeginKeepsSafe(sys);
    var begun := BeginStep(sys);
    assert (o.finalizers - {OLD_FINALIZER}) + {FINALIZER} == o.finalizers - {OLD_FINALIZER};
    assert begun.pc == WriteFinalizer(o, o.finalizers - {OLD_FINALIZER});
    WriteKeepsSafe(begun, NoFault);
    RenameIsAccepted(begun, o);
    assert Driven(begun, setup, order) == Driven(Call(begun, NoFault), setup, order);
  }

  lemma RenameIsAccepted(sys: Sys, o: SspObject)
    requires sys.log != [] && Head(sys) == Some(o) && o.deleting && FINALIZER in o.finalizers
    requires sys.pc == WriteFinalizer(o, o.finalizers - {OLD_FINALIZER})
    ensures var renamed := Call(sys, NoFault);
            && Head(renamed) == Some(o.(finalizers := o.finalizers - {OLD_FINALIZER}, version := sys.nextVersion))
            && renamed.pc == WriteDeploying(Head(renamed).value)
            && renamed.server == sys.server
  {
    assert FINALIZER != OLD_FINALIZER by { assert FINALIZER[0] == 's' && OLD_FINALIZER[0] == 'f'; }
    assert FINALIZER in o.finalizers - {OLD_FINALIZER};
  }

  lemma RenamedWaits(sys: Sys, setup: Setup, order: Listing)
    requires Safe(sys) && sys.pc.WriteDeploying? && Head(sys) == Some(sys.pc.base) && sys.pc.base.deleting
    requires FINALIZER in sys.pc.base.finalizers && OLD_FINALIZER !in sys.pc.base.finalizers
    ensures var after := Rested(Driven(sys, setup, order));
            && Waiting(after)
            && Head(after).value.uid == sys.pc.base.uid
            && FINALIZER in Head(after).value.finalizers
            && after.server == Complete(sys.server)
  {
    var idle := Call(sys, NoFault);
    WriteKeepsSafe(sys, NoFault);
    assert idle.pc.Idle?;
    IdleWaits(idle, idle);
    assert Driven(sys, setup, order) == Driven(idle, setup, order) == idle;
  }

  /** The first pass renames the finalizer, which the server accepts because both are there. */
  lemma BothMeansRename(sys: Sys, setup: Setup, order: Listing)
    requires Leaving(sys) && OLD_FINALIZER in Head(sys).value.finalizers && FINALIZER in Head(sys).value.finalizers
    ensures var after := QuietPass(sys, setup, order);
            && Waiting(after)
            && FINALIZER in Head(after).value.finalizers
            && SspIdentity(after, setup) == SspIdentity(sys, setup)
            && after.server == Complete(sys.server)
  {
    Renames(sys, setup, order);
    RenamedWaits(Drive(BeginStep(sys), setup, order), setup, order);
  }

  // ----- with the old finalizer only

  /** The server refuses a new finalizer on an object that is being deleted. */
  lemma OutdatedPassChangesNothing(sys: Sys, fault: Fault)
    requires Outdated(sys)
    ensures IsWrite(BeginStep(sys).pc) && Call(BeginStep(sys), fault) == sys
  {
    var o := Head(sys).value;
    assert FINALIZER in (o.finalizers - {OLD_FINALIZER}) + {FINALIZER};
    assert BeginStep(sys).pc == WriteFinalizer(o, (o.finalizers - {OLD_FINALIZER}) + {FINALIZER});
    assert AnswerTo(BeginStep(sys)) == Refused(Forbidden);
  }

  lemma OutdatedStays(sys: Sys, setup: Setup, order: Listing)
    requires Outdated(sys)
    ensures Outdated(QuietPass(sys, setup, order))
  {
    OutdatedPassRests(sys, setup, order);
    PassStepKeepsSafe(sys, Rested(sys));
  }

  lemma OutdatedPassRests(sys: Sys, setup: Setup, order: Listing)
    requires Outdated(sys)
    ensures QuietPass(sys, setup, order) == Rested(sys)
  {
    OutdatedPassChangesNothing(sys, NoFault);
    assert Driven(BeginStep(sys), setup, order) == Driven(sys, setup, order) == sys;
  }

  /** A pass that tries to rename the finalizer, or nothing is going on. */
  ghost predicate Stuck(sys: Sys) {
    Outdated(sys.(pc := Idle)) && (sys.pc.Idle? || sys == BeginStep(sys.(pc := Idle)))
  }

  lemma StuckStays(sys: Sys, setup: Setup, e: Event)
    requires Stuck(sys) && Enabled(sys, e) && !e.User?
    ensures Stuck(Next(sys, setup, e))
  {
    var idle := sys.(pc := Idle);
    match e
    case Cluster(server) => ServerLeavesStuck(sys, server);
    case Sync(seen) => assert sys.(seen := seen) == sys;
    case Restart(crdsMissing) => RestartLeavesStuck(sys, crdsMissing);
    case Begin => assert sys == idle;
    case Write(fault) => OutdatedPassChangesNothing(idle, fault);
    case _ => OutdatedPassChangesNothing(idle, NoFault);
  }

  lemma ServerLeavesStuck(sys: Sys, server: Server)
    requires Stuck(sys)
    ensures Stuck(sys.(server := server))
  {
    PassStepKeepsSafe(sys.(pc := Idle), sys.(pc := Idle, server := server));
  }

  lemma RestartLeavesStuck(sys: Sys, crdsMissing: bool)
    requires Stuck(sys)
    ensures Stuck(sys.(pc := Idle, crdsMissing := crdsMissing))
  {
    PassStepKeepsSafe(sys.(pc := Idle), sys.(pc := Idle, crdsMissing := crdsMissing));
  }

  /**
   So such an object is never cleaned up, whatever happens to the calls and in the cluster,
   unless somebody changes the object.
   */
  lemma {:induction false} OldFinalizerBlocksCleanup(sys: Sys, setup: Setup, events: seq<Event>)
    requires Stuck(sys) && GoodRun(sys, setup, events) && forall e <- events :: !e.User?
    ensures Run(sys, setup, events).Some? && !Released(Run(sys, setup, events).value)
    decreases |events|
  {
    if events == [] {
      LeavingIsNotReleased(sys.(pc := Idle));
    } else {
      assert events[0] in events;
      StuckStays(sys, setup, events[0]);
      OldFinalizerBlocksCleanup(Next(sys, setup, events[0]), setup, events[1..]);
    }
  }

  lemma OutdatedIsNeverReleased(sys: Sys, setup: Setup, order: Listing, n: nat)
    requires Outdated(sys)
    ensures !Released(Passes(sys, setup, order, n))
  {
    var inv := (x: Sys) => Outdated(x);
    forall x | inv(x) ensures x.seen < |x.log| && inv(QuietPass(x, setup, order)) { OutdatedStays(x, setup, order); }
    PassesKeep(sys, setup, order, inv, n);
    LeavingIsNotReleased(Passes(sys, setup, order, n));
  }

  /** What every pass keeps, all passes keep. */
  lemma {:induction false} PassesKeep(sys: Sys, setup: Setup, order: Listing, inv: Sys -> bool, n: nat)
    requires inv(sys) && forall x :: inv(x) ==> x.seen < |x.log| && inv(QuietPass(x, setup, order))
    ensures inv(Passes(sys, setup, order, n))
  {
    if n > 0 { PassesKeep(sys, setup, order, inv, n - 1); }
  }

  lemma LeavingIsNotReleased(sys: Sys)
    requires Leaving(sys)
    ensures !Released(sys)
  {
  }

  // ----- panics

  /** A live object on which the ownership comparison panics, and which nothing is due to delete. */
  ghost predicate Obstacle(s: Server, ssp: Identity, ops: seq<Operand>, op: Operand, o: Object) {
    && op in ops
    && Known(o) in op.parts
    && VerdictOn(s, ssp, o).Crashed?
    && !s.objects[o.key].terminating
    && forall other <- ops :: LeftBy(s, ssp, other, o.key)
  }

  lemma ObstacleIsNotClear(s: Server, ssp: Identity, ops: seq<Operand>, order: Listing, op: Operand, o: Object)
    requires Enumerates(order) && Obstacle(s, ssp, ops, op, o)
    ensures !Clear(Sweep(s, ssp, ops, order).findings)
  {
    SweepIsClearIff(s, ssp, ops, order);
    if CleanOperand(s, ssp, op) {
      assert CleanPart(s, ssp, Known(o));
      assert ListedBy(s, ssp, Known(o), o);
    }
  }

  lemma ObstacleStays(s: Server, s': Server, ssp: Identity, ops: seq<Operand>, op: Operand, o: Object)
    requires Consistent(s) && Consistent(s') && Obstacle(s, ssp, ops, op, o)
    requires Lookup(s'.objects, o.key) == Lookup(s.objects, o.key)
    ensures Obstacle(s', ssp, ops, op, o)
  {
    SameObjectSameVerdict(s, s', ssp, o);
    forall other <- ops ensures LeftBy(s', ssp, other, o.key) { LeftByStays(s, s', ssp, other, o.key); }
  }

  lemma ObstacleSurvivesPass(s: Server, ssp: Identity, ops: seq<Operand>, order: Listing, op: Operand, o: Object)
    requires Consistent(s) && Enumerates(order) && Obstacle(s, ssp, ops, op, o)
    ensures Consistent(CompletedPass(s, ssp, ops, order))
            && Obstacle(CompletedPass(s, ssp, ops, order), ssp, ops, op, o)
    ensures Consistent(Complete(s)) && Obstacle(Complete(s), ssp, ops, op, o)
  {
    SweepLeaves(s, ssp, ops, order, o.key);
    CompletedPassShrinks(s, ssp, ops, order);
    CompleteShrinks(s);
    ObstacleStays(s, CompletedPass(s, ssp, ops, order), ssp, ops, op, o);
    ObstacleStays(s, Complete(s), ssp, ops, op, o);
  }

  ghost predicate Blocked(sys: Sys, setup: Setup, op: Operand, o: Object) {
    && Leaving(sys)
    && Consistent(sys.server)
    && Obstacle(sys.server, SspIdentity(sys, setup), setup.operands, op, o)
  }

  lemma BlockedStays(sys: Sys, setup: Setup, order: Listing, op: Operand, o: Object)
    requires Blocked(sys, setup, op, o) && Enumerates(order)
    ensures Blocked(QuietPass(sys, setup, order), setup, op, o)
  {
    var ssp := SspIdentity(sys, setup);
    ObstacleSurvivesPass(sys.server, ssp, setup.operands, order, op, o);
    if FINALIZER !in Head(sys).value.finalizers {
      OutdatedStays(sys, setup, order);
      OutdatedPassRests(sys, setup, order);
    } else if OLD_FINALIZER in Head(sys).value.finalizers {
      BothMeansRename(sys, setup, order);
    } else {
      ObstacleIsNotClear(sys.server, ssp, setup.operands, order, op, o);
      PassReleasesOrProgresses(sys, setup, order);
    }
  }

  /** The finalizer never goes while such an object is there. */
  lemma PanicBlocksCleanup(sys: Sys, setup: Setup, order: Listing, op: Operand, o: Object, n: nat)
    requires Blocked(sys, setup, op, o) && Enumerates(order)
    ensures !Released(Passes(sys, setup, order, n))
  {
    var inv := (x: Sys) => Blocked(x, setup, op, o);
    forall x | inv(x) ensures x.seen < |x.log| && inv(QuietPass(x, setup, order)) {
      BlockedStays(x, setup, order, op, o);
    }
    PassesKeep(sys, setup, order, inv, n);
    LeavingIsNotReleased(Passes(sys, setup, order, n));
  }

  // ----- the exact condition

  lemma {:induction false} PassesShift(sys: Sys, setup: Setup, order: Listing, n: nat)
    requires sys.seen < |sys.log|
    ensures Passes(sys, setup, order, n + 1) == Passes(QuietPass(sys, setup, order), setup, order, n)
  {
    if n > 0 { PassesShift(sys, setup, order, n - 1); }
    assert Passes(sys, setup, order, 1) == QuietPass(sys, setup, order);
  }

  ghost predicate ReleasedWithin(sys: Sys, setup: Setup, order: Listing, k: nat) {
    exists n: nat :: n <= k && Released(Passes(sys, setup, order, n))
  }

  lemma OnePassLater(sys: Sys, setup: Setup, order: Listing, k: nat)
    requires sys.seen < |sys.log| && ReleasedWithin(QuietPass(sys, setup, order), setup, order, k)
    ensures ReleasedWithin(sys, setup, order, k + 1)
  {
    var n: nat :| n <= k && Released(Passes(QuietPass(sys, setup, order), setup, order, n));
    PassesShift(sys, setup, order, n);
    assert Released(Passes(sys, setup, order, n + 1));
  }

  lemma ReleasedNow(sys: Sys, setup: Setup, order: Listing)
    requires Released(sys)
    ensures ReleasedWithin(sys, setup, order, 0)
  {
    assert Passes(sys, setup, order, 0) == sys;
  }

  /** What is due after at most k more sweeps. */
  ghost predicate ClearWithin(s: Server, ssp: Identity, ops: seq<Operand>, order: Listing, k: nat)
    decreases k
  {
    Clear(Sweep(s, ssp, ops, order).findings)
      || (k > 0 && ClearWithin(CompletedPass(s, ssp, ops, order), ssp, ops, order, k - 1))
  }

  lemma {:induction false} ClearWithinReleases(sys: Sys, setup: Setup, order: Listing, k: nat)
    requires Waiting(sys) && ClearWithin(sys.server, SspIdentity(sys, setup), setup.operands, order, k)
    ensures ReleasedWithin(sys, setup, order, k + 1)
    decreases k
  {
    var after := QuietPass(sys, setup, order);
    PassReleasesOrProgresses(sys, setup, order);
    if Released(after) { ReleasedNow(after, setup, order); } else { ClearWithinReleases(after, setup, order, k - 1); }
    OnePassLater(sys, setup, order, if Released(after) then 0 else k);
    if Released(after) { WithinMore(sys, setup, order, 1, k + 1); }
  }

  lemma WithinMore(sys: Sys, setup: Setup, order: Listing, k: nat, l: nat)
    requires k <= l && ReleasedWithin(sys, setup, order, k)
    ensures ReleasedWithin(sys, setup, order, l)
  {
    var n: nat :| n <= k && Released(Passes(sys, setup, order, n));
    assert n <= l && Released(Passes(sys, setup, order, n));
  }

  /** With peaceful operands three passes are enough for the finalizer of this release. */
  lemma WaitingIsReleased(sys: Sys, setup: Setup, order: Listing)
    requires Waiting(sys) && Consistent(sys.server) && Enumerates(order)
    requires forall op <- setup.operands :: Peaceful(sys.server, SspIdentity(sys, setup), op)
    ensures ReleasedWithin(sys, setup, order, 3)
  {
    ThreePassesSuffice(sys.server, SspIdentity(sys, setup), setup.operands, order);
    ClearWithinReleases(sys, setup, order, 2);
  }

  // ----- how the operands are built

  /** Known objects are built without owner references, and no list is about their kind and name. */
  ghost predicate AsBuilt(ops: seq<Operand>) {
    && (forall op <- ops, part <- op.parts :: part.Known? ==> part.o.ownerRefs == [])
    && (forall op <- ops, part <- op.parts :: part.Known? ==>
          forall other <- ops :: (forall q <- other.parts :: Apart(q, part.o.key)) && Apart(ALL_CRONS, part.o.key))
  }

  predicate Apart(list: Part, key: Key) {
    list.Known? || list.kind != key.kind || (list.Labelled? && list.name.Some? && list.name.value != key.name)
  }

  lemma ApartLeaves(s: Server, ssp: Identity, part: Part, o: Object)
    requires VerdictOn(s, ssp, o).Crashed? && o.ownerRefs == [] && Apart(part, o.key)
    requires part.Known? ==> part.o.ownerRefs == []
    ensures Left(s, ssp, part, o.key)
  {
  }

  lemma PanickingIsObstacle(s: Server, ssp: Identity, ops: seq<Operand>, op: Operand, o: Object)
    requires AsBuilt(ops) && op in ops && Known(o) in op.parts
    requires VerdictOn(s, ssp, o).Crashed? && !s.objects[o.key].terminating
    ensures Obstacle(s, ssp, ops, op, o)
  {
    assert Known(o).Known?;
    forall other <- ops ensures LeftBy(s, ssp, other, o.key) {
      forall q <- other.parts ensures Left(s, ssp, q, o.key) { ApartLeaves(s, ssp, q, o); }
      ApartLeaves(s, ssp, ALL_CRONS, o);
    }
  }

  // ----- the exact condition

  /** A comparison panics at most with an object that is on its way out. */
  ghost predicate Passable(s: Server, ssp: Identity, op: Operand) {
    forall part <- op.parts :: part.Known? && VerdictOn(s, ssp, part.o).Crashed? ==> s.objects[part.o.key].terminating
  }

  lemma CompletionIsPeaceful(s: Server, s': Server, ssp: Identity, op: Operand)
    requires Shrinks(s, s') && Passable(s, ssp, op)
    ensures Peaceful(Complete(s'), ssp, op)
  {
    forall part <- op.parts | part.Known? ensures !VerdictOn(Complete(s'), ssp, part.o).Crashed? {
      var key := part.o.key;
      if key in Complete(s').objects {
        assert KeepsIdentity(s.objects[key], s'.objects[key]);
        assert VerdictOn(Complete(s'), ssp, part.o) == VerdictOn(s, ssp, part.o);
      }
    }
  }

  lemma PassableIsReleased(sys: Sys, setup: Setup, order: Listing)
    requires Leaving(sys) && Consistent(sys.server) && Enumerates(order) && FINALIZER in Head(sys).value.finalizers
    requires forall op <- setup.operands :: Passable(sys.server, SspIdentity(sys, setup), op)
    ensures ReleasedWithin(sys, setup, order, 4)
  {
    var after := QuietPass(sys, setup, order);
    if OLD_FINALIZER in Head(sys).value.finalizers {
      BothMeansRename(sys, setup, order);
      CompleteShrinks(sys.server);
      PassableThenReleased(sys, sys.server, after, setup, order);
    } else {
      PassReleasesOrProgresses(sys, setup, order);
      if Released(after) {
        ReleasedNow(after, setup, order);
        WithinMore(after, setup, order, 0, 3);
      } else {
        SweepShrinks(sys.server, SspIdentity(sys, setup), setup.operands, order);
        var swept := Sweep(sys.server, SspIdentity(sys, setup), setup.operands, order).server;
        CompleteShrinks(swept);
        PassableThenReleased(sys, swept, after, setup, order);
      }
    }
    OnePassLater(sys, setup, order, 3);
  }

  lemma PassableThenReleased(sys: Sys, left: Server, after: Sys, setup: Setup, order: Listing)
    requires sys.log != [] && Head(sys).Some? && Shrinks(sys.server, left) && Enumerates(order)
    requires forall op <- setup.operands :: Passable(sys.server, SspIdentity(sys, setup), op)
    requires Waiting(after) && SspIdentity(after, setup) == SspIdentity(sys, setup)
    requires after.server == Complete(left) && Consistent(after.server)
    ensures ReleasedWithin(after, setup, order, 3)
  {
    forall op <- setup.operands ensures Peaceful(after.server, SspIdentity(after, setup), op) {
      CompletionIsPeaceful(sys.server, left, SspIdentity(sys, setup), op);
    }
    WaitingIsReleased(after, setup, order);
  }

  /**
   In a quiet cluster a deleted object loses its protection exactly if it carries the finalizer
   of this release and no ownership comparison panics with a live object; then four passes are enough.
   */
  lemma FinalizerGoesIff(sys: Sys, setup: Setup, order: Listing)
    requires Leaving(sys) && Consistent(sys.server) && Enumerates(order) && AsBuilt(setup.operands)
    ensures var good := && FINALIZER in Head(sys).value.finalizers
                        && forall op <- setup.operands :: Passable(sys.server, SspIdentity(sys, setup), op);
            && (good ==> ReleasedWithin(sys, setup, order, 4))
            && (!good ==> forall n: nat :: !Released(Passes(sys, setup, order, n)))
  {
    var ssp := SspIdentity(sys, setup);
    if FINALIZER !in Head(sys).value.finalizers {
      forall n: nat ensures !Released(Passes(sys, setup, order, n)) { OutdatedIsNeverReleased(sys, setup, order, n); }
    } else if forall op <- setup.operands :: Passable(sys.server, ssp, op) {
      PassableIsReleased(sys, setup, order);
    } else {
      var op :| op in setup.operands && !Passable(sys.server, ssp, op);
      var part :| part in op.parts && part.Known? && VerdictOn(sys.server, ssp, part.o).Crashed? &&
                  !sys.server.objects[part.o.key].terminating;
      assert Known(part.o) == part;
      PanickingIsObstacle(sys.server, ssp, setup.operands, op, part.o);
      forall n: nat ensures !Released(Passes(sys, setup, order, n)) {
        PanicBlocksCleanup(sys, setup, order, op, part.o, n);
      }
    }
  }
}

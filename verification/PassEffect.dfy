/** What one pass that nobody disturbs makes of the SSP object, from its first read to its last write. */
module PassEffect {
  import opened Kube
  import opened ApiServer
  import opened Cleanup
  import opened Lifecycle
  import opened LifecycleSafety
  import opened Teardown

  /** The whole pass; `outcome` and `server` are what the operands return and leave, if their turn comes. */
  function Undisturbed(sys: Sys, setup: Setup, order: Listing, outcome: OperandOutcome, server: Server): Sys
    requires sys.seen < |sys.log|
  {
    var ready := Driven(BeginStep(sys), setup, order);
    if ready.log != [] && ready.pc.Reconciling?
    then Driven(OperandStep(ready, outcome, server), setup, order)
    else ready
  }

  /** A pass is about to begin, and the informer shows the newest version. */
  ghost predicate Poised(sys: Sys, o: SspObject) {
    sys.log != [] && sys.pc.Idle? && sys.seen == |sys.log| - 1 && Head(sys) == Some(o) && o.version < sys.nextVersion
  }

  /** The pass is over, and the newest version is this one, up to its version number. */
  ghost predicate Leaves(after: Sys, x: SspObject) {
    && after.log != []
    && after.pc.Idle?
    && Head(after).Some?
    && Head(after).value == x.(version := Head(after).value.version)
  }

  // ----- single calls

  /** A status write on the newest version is stored. */
  lemma StatusCall(sys: Sys)
    requires sys.log != [] && IsStatusWrite(sys.pc) && Head(sys) == Some(sys.pc.base)
    ensures var stored := sys.pc.base.(status := StatusFor(sys.pc), version := sys.nextVersion);
            var after := Call(sys, NoFault);
            && after.log == sys.log + [Some(stored)]
            && after.nextVersion == sys.nextVersion + 1
            && after.pc == AfterWrite(sys.pc, Accepted(Some(stored)))
            && after.server == sys.server
            && after.touched == sys.touched
            && after.crdsMissing == sys.crdsMissing
  {
    var answer := AnswerTo(sys);
    assert answer == Accepted(Some(sys.pc.base.(status := StatusFor(sys.pc))));
    RecordedFrame(sys);
    AppendFrame(Recorded(sys), answer.o);
  }

  /** A pass whose last write is a status write. */
  lemma LastStatusWrite(sys: Sys, setup: Setup, order: Listing)
    requires sys.log != [] && IsStatusWrite(sys.pc) && Head(sys) == Some(sys.pc.base)
    requires !sys.pc.WriteDeleting? && !sys.pc.WritePre?
    ensures var after := Driven(sys, setup, order);
            && Leaves(after, sys.pc.base.(status := StatusFor(sys.pc)))
            && after.server == sys.server
            && after.touched == sys.touched
  {
    StatusCall(sys);
    assert Drive(sys, setup, order) == Call(sys, NoFault);
  }

  /** A finalizer write on the newest version. */
  lemma FinalizerCall(sys: Sys)
    requires sys.log != [] && (sys.pc.WriteFinalizer? || sys.pc.DropFinalizer?) && Head(sys) == Some(sys.pc.base)
    requires AnswerTo(sys).Accepted?
    ensures var made := AnswerTo(sys).o;
            var stored := if made.Some? then Some(made.value.(version := sys.nextVersion)) else None;
            var after := Call(sys, NoFault);
            && after.log == sys.log + [stored]
            && after.pc == AfterWrite(sys.pc, Accepted(stored))
            && after.server == sys.server
            && after.touched == sys.touched
  {
    RecordedFrame(sys);
    AppendFrame(Recorded(sys), AnswerTo(sys).o);
  }

  // ----- adoption

  lemma WritesFinalizer(sys: Sys, setup: Setup, order: Listing)
    requires sys.log != [] && sys.pc.WriteFinalizer? && Head(sys) == Some(sys.pc.base)
    requires sys.pc.base.deleting ==> sys.pc.finalizers <= sys.pc.base.finalizers
    requires sys.pc.finalizers != {}
    ensures var o := sys.pc.base;
            var after := Driven(sys, setup, order);
            && Leaves(after, o.(finalizers := sys.pc.finalizers,
                                status := o.status.(phase := Deploying, observed := o.generation)))
            && after.touched == sys.touched
            && after.server == sys.server
  {
    FinalizerCall(sys);
    var next := Call(sys, NoFault);
    assert Drive(sys, setup, order) == next;
    LastStatusWrite(next, setup, order);
  }

  /** A new object gets the finalizer and is announced; operands wait for the next pass. */
  lemma NewObjectIsAdopted(
    sys: Sys, setup: Setup, order: Listing, outcome: OperandOutcome, server: Server, o: SspObject)
    requires Poised(sys, o) && !o.deleting && o.status.phase.NoPhase?
    ensures var after := Undisturbed(sys, setup, order, outcome, server);
            && Leaves(after, o.(finalizers := o.finalizers + {FINALIZER},
                                status := o.status.(phase := Deploying, observed := o.generation)))
            && after.touched == sys.touched
            && after.server == sys.server
  {
    WritesFinalizer(BeginStep(sys), setup, order);
  }

  /** The finalizer of an old release is replaced, unless the server refuses a new one on a deleted object. */
  lemma OldFinalizerIsReplaced(
    sys: Sys, setup: Setup, order: Listing, outcome: OperandOutcome, server: Server, o: SspObject)
    requires Poised(sys, o) && (o.deleting || !o.status.phase.NoPhase?) && OLD_FINALIZER in o.finalizers
    ensures var after := Undisturbed(sys, setup, order, outcome, server);
            && (if o.deleting && FINALIZER !in o.finalizers
                then Leaves(after, o)
                else Leaves(after, o.(finalizers := o.finalizers - {OLD_FINALIZER} + {FINALIZER},
                                      status := o.status.(phase := Deploying, observed := o.generation))))
            && after.touched == sys.touched
            && after.server == sys.server
  {
    var first := BeginStep(sys);
    if o.deleting && FINALIZER !in o.finalizers {
      assert AnswerTo(first) == Refused(Forbidden);
      assert Drive(first, setup, order) == first.(pc := Idle);
      assert Driven(first, setup, order) == Driven(first.(pc := Idle), setup, order) == first.(pc := Idle);
    } else {
      WritesFinalizer(first, setup, order);
    }
  }

  // ----- nothing to reconcile

  /** Deletion comes before the pause: a deleted object without a finalizer of the operator is marked as deleted. */
  lemma UnprotectedIsMarkedDeleted(
    sys: Sys, setup: Setup, order: Listing, outcome: OperandOutcome, server: Server, o: SspObject)
    requires Poised(sys, o) && o.deleting && !Protected(o)
    ensures var after := Undisturbed(sys, setup, order, outcome, server);
            && Leaves(after, o.(status := o.status.(phase := Deleted, observed := o.generation)))
            && after.touched == sys.touched
            && after.server == sys.server
  {
    LastStatusWrite(BeginStep(sys), setup, order);
  }

  /** Initialized, live and with up-to-date finalizers. */
  predicate Working(o: SspObject) {
    !o.deleting && !o.status.phase.NoPhase? && OLD_FINALIZER !in o.finalizers
  }

  /** A paused object is marked once and then left alone. */
  lemma PausedIsMarkedOnce(
    sys: Sys, setup: Setup, order: Listing, outcome: OperandOutcome, server: Server, o: SspObject)
    requires Poised(sys, o) && Working(o) && o.pauseRequested
    ensures var after := Undisturbed(sys, setup, order, outcome, server);
            && Leaves(after, o.(status := o.status.(paused := true)))
            && (o.status.paused ==> after.log == sys.log)
            && after.touched == sys.touched
            && after.server == sys.server
  {
    if !o.status.paused { LastStatusWrite(BeginStep(sys), setup, order); }
  }

  /** Missing CRDs are reported in the conditions and nowhere else. */
  lemma MissingCrdsAreReported(
    sys: Sys, setup: Setup, order: Listing, outcome: OperandOutcome, server: Server, o: SspObject)
    requires Poised(sys, o) && Working(o) && !o.pauseRequested && sys.crdsMissing
    ensures var after := Undisturbed(sys, setup, order, outcome, server);
            && Leaves(after, o.(status := o.status.(available := Some(false), progressing := Some(true),
                                                    degraded := Some(true))))
            && after.touched == sys.touched
            && after.server == sys.server
  {
    LastStatusWrite(BeginStep(sys), setup, order);
  }

  // ----- reconciliation

  /** What a report stores: trouble of a kind is told exactly if some result has it. */
  ghost function Told(results: Results, generation: nat): Status {
    Status(if exists r <- results :: r.notAvailable || r.progressing || r.degraded then Deploying else Deployed,
           generation,
           Some(forall r <- results :: !r.notAvailable),
           Some(exists r <- results :: r.progressing),
           Some(exists r <- results :: r.degraded),
           false)
  }

  /** What the announcement of a new generation stores. */
  function Announced(o: SspObject): SspObject {
    o.(status := Status(Deploying, o.generation, Some(false), Some(true), Some(true), false))
  }

  /** The version that the operands are run for. */
  function Prepared(o: SspObject): SspObject {
    if o.status.observed != 0 && o.status.observed == o.generation then o else Announced(o)
  }

  /** What is stored once the operands have had their turn. */
  ghost function Concluded(o: SspObject, outcome: OperandOutcome): SspObject {
    match outcome
    case Finished(results) => o.(status := Told(results, o.generation))
    case ConflictError => o
    case OtherError =>
      o.(status := o.status.(phase := Deploying, available := Some(false), progressing := Some(true),
                             degraded := Some(true)))
  }

  lemma TurnOfOperands(sys: Sys, setup: Setup, order: Listing, outcome: OperandOutcome, server: Server)
    requires sys.log != [] && sys.pc.Reconciling? && Head(sys) == Some(sys.pc.base)
    ensures var after := Driven(OperandStep(sys, outcome, server), setup, order);
            && Leaves(after, Concluded(sys.pc.base, outcome))
            && after.touched == sys.touched + {sys.pc.base.uid}
            && after.server == server
  {
    OperandFrame(sys, outcome, server);
    var next := OperandStep(sys, outcome, server);
    if !outcome.ConflictError? { LastStatusWrite(next, setup, order); }
    if outcome.Finished? { assert StatusFor(next.pc) == Told(outcome.results, sys.pc.base.generation); }
  }

  lemma AnnouncesGeneration(sys: Sys, setup: Setup, order: Listing)
    requires sys.log != [] && sys.pc.WritePre? && Head(sys) == Some(sys.pc.base)
    ensures var ready := Driven(sys, setup, order);
            && ready.log != []
            && ready.pc.Reconciling?
            && Head(ready) == Some(ready.pc.base)
            && ready.pc.base == Announced(sys.pc.base).(version := sys.nextVersion)
            && ready.touched == sys.touched
  {
    StatusCall(sys);
    assert Drive(sys, setup, order) == Call(sys, NoFault);
  }

  /**
   Operands run for every other object: a new generation is announced first, and what is stored in
   the end follows from what they return.
   */
  lemma OthersAreReconciled(
    sys: Sys, setup: Setup, order: Listing, outcome: OperandOutcome, server: Server, o: SspObject)
    requires Poised(sys, o) && Working(o) && !o.pauseRequested && !sys.crdsMissing
    ensures var after := Undisturbed(sys, setup, order, outcome, server);
            && Leaves(after, Concluded(Prepared(o), outcome))
            && after.touched == sys.touched + {o.uid}
            && after.server == server
  {
    var first := BeginStep(sys);
    if first.pc.WritePre? { AnnouncesGeneration(first, setup, order); }
    var ready := Driven(first, setup, order);
    TurnOfOperands(ready, setup, order, outcome, server);
  }

  /** An announcement that meets a newer version ends the pass; one that fails is told in the status, if that works. */
  lemma FailedAnnouncement(sys: Sys, setup: Setup, order: Listing)
    requires sys.log != [] && sys.pc.WritePre? && Head(sys).Some?
    ensures Head(sys).value.version != sys.pc.base.version ==> Call(sys, NoFault) == sys.(pc := Idle)
    ensures Head(sys).value == sys.pc.base ==>
              var after := Driven(Call(sys, CallFails), setup, order);
              Leaves(after, Announced(sys.pc.base)) && after.touched == sys.touched && after.server == sys.server
  {
    if Head(sys).value == sys.pc.base {
      var next := Call(sys, CallFails);
      assert next == sys.(pc := WriteError(sys.pc.base, true));
      LastStatusWrite(next, setup, order);
    }
  }

  // ----- cleanup

  /** The object while it is cleaned up. */
  function CleanedUp(o: SspObject): SspObject {
    o.(status := o.status.(phase := Deleting, observed := o.generation, available := Some(false),
                           progressing := Some(true), degraded := Some(true)))
  }

  lemma CleanupBegins(sys: Sys, setup: Setup, order: Listing)
    requires sys.log != [] && sys.pc.WriteDeleting? && Head(sys) == Some(sys.pc.base)
    ensures var next := Drive(sys, setup, order);
            && Driven(sys, setup, order) == Driven(next, setup, order)
            && next.log != []
            && next.pc == Sweeping(CleanedUp(sys.pc.base).(version := sys.nextVersion))
            && Head(next) == Some(next.pc.base)
            && next.server == sys.server
            && next.touched == sys.touched
  {
    StatusCall(sys);
    assert Drive(sys, setup, order) == Call(sys, NoFault);
  }

  lemma FinalizersGo(sys: Sys, setup: Setup, order: Listing)
    requires sys.log != [] && sys.pc.DropFinalizer? && Head(sys) == Some(sys.pc.base) && sys.pc.base.deleting
    ensures var o := sys.pc.base;
            var left := o.finalizers - {FINALIZER, OLD_FINALIZER};
            var after := Driven(sys, setup, order);
            && (if left == {}
                then after.log != [] && after.pc.Idle? && Head(after) == None
                else Leaves(after, o.(finalizers := left,
                                      status := o.status.(phase := Deleted, observed := o.generation))))
            && after.server == sys.server
            && after.touched == sys.touched
  {
    FinalizerCall(sys);
    var next := Call(sys, NoFault);
    assert Drive(sys, setup, order) == next;
    if Head(next).Some? {
      LastStatusWrite(next, setup, order);
    } else {
      assert AnswerTo(next) == Refused(NotFound);
      assert Drive(next, setup, order) == next.(pc := Idle);
      assert Driven(next, setup, order) == Driven(next.(pc := Idle), setup, order) == next.(pc := Idle);
    }
  }

  /**
   A deleted object with the finalizer is swept. If the sweep is clear both finalizers go, and with
   the last one the object; otherwise everything waits for the next pass.
   */
  lemma DeletedIsSwept(
    sys: Sys, setup: Setup, order: Listing, outcome: OperandOutcome, server: Server, o: SspObject)
    requires Poised(sys, o) && o.deleting && FINALIZER in o.finalizers && OLD_FINALIZER !in o.finalizers
    ensures var swept := Sweep(sys.server, Identity(setup.owner, o.uid), setup.operands, order);
            var left := o.finalizers - {FINALIZER};
            var after := Undisturbed(sys, setup, order, outcome, server);
            && (if !Clear(swept.findings) then Leaves(after, CleanedUp(o))
                else if left == {} then after.log != [] && after.pc.Idle? && Head(after) == None
                else Leaves(after, CleanedUp(o).(finalizers := left, status := CleanedUp(o).status.(phase := Deleted))))
            && after.server == swept.server
            && after.touched == sys.touched
  {
    var first := BeginStep(sys);
    CleanupBegins(first, setup, order);
    var next := Drive(first, setup, order);
    var swept := Sweep(sys.server, Identity(setup.owner, o.uid), setup.operands, order);
    assert QuietSwept(next, setup, order) == swept;
    var check := Check(next.server, order, QuietReads(next, setup, order));
    ResultFrame(next, swept, check);
    var last := QuietSweep(next, setup, order);
    assert Drive(next, setup, order) == last;
    if Clear(swept.findings) {
      FinalizersGo(last, setup, order);
      assert o.finalizers - {FINALIZER, OLD_FINALIZER} == o.finalizers - {FINALIZER};
    }
  }
}

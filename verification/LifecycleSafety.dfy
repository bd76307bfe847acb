/** What holds in every reachable state of the controller protocol. */
module LifecycleSafety {
  import opened Kube
  import ApiServer
  import opened Cleanup
  import opened CleanupRuns
  import opened LaggingCleanup
  import opened Lifecycle

  // ----- what each kind of step leaves alone

  lemma AppendFrame(sys: Sys, o: Option<SspObject>)
    ensures var n := Append(sys, o); n == sys.(log := n.log, nextVersion := n.nextVersion) && sys.log <= n.log
  {
  }

  lemma EditedFrame(sys: Sys, edit: SspEdit)
    requires sys.log != []
    ensures var n := Edited(sys, edit);
            n == sys.(log := n.log, nextUid := n.nextUid, nextVersion := n.nextVersion) && sys.log <= n.log
  {
  }

  lemma RecordedFrame(sys: Sys)
    ensures var n := Recorded(sys);
            n == sys.(armed := n.armed, reported := n.reported, hidden := n.hidden, acknowledged := n.acknowledged)
  {
  }

  lemma CallFrame(sys: Sys, fault: Fault)
    requires sys.log != [] && IsWrite(sys.pc)
    ensures var n := Call(sys, fault);
            && n == sys.(log := n.log, nextVersion := n.nextVersion, armed := n.armed, reported := n.reported,
                         hidden := n.hidden, acknowledged := n.acknowledged, pc := n.pc)
            && sys.log <= n.log
  {
    var answer := if fault.CallFails? then Refused(ApiServer.Unavailable) else AnswerTo(sys);
    RecordedFrame(sys);
    if answer.Accepted? { AppendFrame(Recorded(sys), answer.o); }
  }

  lemma BeginFrame(sys: Sys)
    requires sys.seen < |sys.log|
    ensures var n := BeginStep(sys); n == sys.(pc := n.pc) && (n.pc == sys.pc || !n.pc.WriteReport?)
  {
  }

  lemma OperandFrame(sys: Sys, outcome: OperandOutcome, server: ApiServer.Server)
    requires sys.pc.Reconciling?
    ensures var n := OperandStep(sys, outcome, server);
            n == sys.(server := n.server, touched := n.touched, late := n.late, completed := n.completed,
                      acknowledged := n.acknowledged, pc := n.pc)
    ensures OperandStep(sys, outcome, server).pc in {Idle, WriteError(sys.pc.base, false)}
            || OperandStep(sys, outcome, server).pc.WriteReport?
  {
  }

  lemma ResultFrame(sys: Sys, swept: Swept, check: Check)
    requires sys.pc.Sweeping?
    ensures var n := SweepResult(sys, swept, check);
            n == sys.(server := n.server, swept := n.swept, pc := n.pc) && n.pc in {Idle, DropFinalizer(sys.pc.base)}
  {
  }

  lemma SweepFrame(sys: Sys, setup: Setup, order: Listing, readings: SweepReadings)
    requires sys.pc.Sweeping?
    ensures var n := SweepResult(sys, SweepOf(sys, setup, order, readings), Check(sys.server, order, readings));
            n == sys.(server := n.server, swept := n.swept, pc := n.pc) && n.pc in {Idle, DropFinalizer(sys.pc.base)}
  {
    ResultFrame(sys, SweepOf(sys, setup, order, readings), Check(sys.server, order, readings));
  }

  lemma SweepStepIs(
    sys: Sys, setup: Setup, order: Listing, readings: SweepReadings, swept: Swept, server: ApiServer.Server)
    requires sys.log != [] && sys.pc.Sweeping? && SweepOf(sys, setup, order, readings) == swept
    ensures Next(sys, setup, SweepStep(order, readings, false, server)) ==
            SweepResult(sys, swept, Check(sys.server, order, readings))
  {
  }

  /** How an entry of the log relates to a later one. */
  ghost predicate Before(a: SspObject, b: SspObject) {
    && a.uid <= b.uid
    && a.version <= b.version
    && (a.version == b.version ==> a == b)
    && (a.uid == b.uid ==>
          && a.generation <= b.generation
          && (a.generation == b.generation ==> a.spec == b.spec)
          && (a.deleting ==> b.deleting))
  }

  ghost predicate LogOk(sys: Sys) {
    && sys.log != []
    && sys.seen < |sys.log|
    && sys.nextUid >= 1
    && sys.nextVersion >= 1
    && (forall i :: 0 <= i < |sys.log| && sys.log[i].Some? ==>
          1 <= sys.log[i].value.uid < sys.nextUid && sys.log[i].value.version < sys.nextVersion)
    && (forall i, j :: 0 <= i <= j < |sys.log| && sys.log[i].Some? && sys.log[j].Some? ==>
          Before(sys.log[i].value, sys.log[j].value))
  }

  /** Some stored version. */
  ghost predicate Stored(sys: Sys, o: SspObject) {
    Some(o) in sys.log
  }

  /** The informer has shown that the object is being deleted. */
  ghost predicate SeenDeleting(sys: Sys, uid: nat) {
    exists k ::
      && 0 <= k < |sys.log|
      && k <= sys.seen
      && sys.log[k].Some?
      && sys.log[k].value.uid == uid
      && sys.log[k].value.deleting
  }

  predicate RunsOperands(pc: Pc) {
    pc.WritePre? || pc.Reconciling? || pc.WriteReport? || pc.WriteError?
  }

  predicate TakesDown(pc: Pc) {
    pc.WriteDeleting? || pc.Sweeping? || pc.DropFinalizer? || pc.WriteDeleted?
  }

  /** The object of a running pass is a stored version in the state that its branch tested. */
  ghost predicate PcOk(sys: Sys) {
    !sys.pc.Idle? ==>
      && Stored(sys, sys.pc.base)
      && (RunsOperands(sys.pc) ==> !sys.pc.base.deleting && sys.pc.base.uid !in sys.swept)
      && (TakesDown(sys.pc) ==> sys.pc.base.deleting && SeenDeleting(sys, sys.pc.base.uid))
      && (sys.pc.DropFinalizer? ==> sys.pc.base.uid in sys.swept)
      && (sys.pc.WriteFinalizer? ==> FINALIZER in sys.pc.finalizers)
      && (!TakesDown(sys.pc) && !sys.pc.WriteFinalizer? ==> sys.pc.base.uid in sys.armed)
  }

  /** A phase is only ever written after the finalizer. */
  ghost predicate PhaseOk(sys: Sys) {
    forall o :: Stored(sys, o) && !o.status.phase.NoPhase? && !o.deleting ==> o.uid in sys.armed
  }

  /** An armed object stays protected until it has been swept; only then may it disappear. */
  ghost predicate ProtectionOk(sys: Sys)
    requires sys.log != []
  {
    forall u <- sys.armed ::
      u in sys.swept || (Head(sys).Some? && Head(sys).value.uid == u && Protected(Head(sys).value))
  }

  /** Swept objects are on their way out, also as far as the informer knows. */
  ghost predicate SweptOk(sys: Sys) {
    && (forall u <- sys.swept :: u < sys.nextUid)
    && (forall i :: 0 <= i < |sys.log| && i >= sys.seen && sys.log[i].Some? && sys.log[i].value.uid in sys.swept ==>
          sys.log[i].value.deleting)
  }

  ghost predicate Safe(sys: Sys) {
    && LogOk(sys)
    && PcOk(sys)
    && PhaseOk(sys)
    && ProtectionOk(sys)
    && SweptOk(sys)
    && (forall u <- sys.armed :: u < sys.nextUid)
    && sys.touched <= sys.armed
    && sys.late == {}
  }

  /** Nobody but the operator takes its finalizers away. */
  ghost predicate Respectful(sys: Sys, e: Event)
    requires sys.log != []
  {
    e.User? && e.edit.Edit? && Head(sys).Some? ==>
      Head(sys).value.finalizers * {FINALIZER, OLD_FINALIZER} <= e.edit.finalizers
  }

  // ----- the log

  /** What a write may make of the stored object. */
  ghost predicate Successor(h: SspObject, o: SspObject) {
    && o.uid == h.uid
    && o.generation >= h.generation
    && (o.generation == h.generation ==> o.spec == h.spec)
    && (h.deleting ==> o.deleting)
  }

  lemma SuccessorKeepsLog(sys: Sys, o: SspObject)
    requires LogOk(sys) && Head(sys).Some? && Successor(Head(sys).value, o)
    ensures LogOk(Append(sys, Some(o)))
  {
    var h := Head(sys).value;
    var sys' := Append(sys, Some(o));
    forall i | 0 <= i < |sys.log| && sys.log[i].Some? ensures Before(sys.log[i].value, sys'.log[|sys.log|].value) {
      assert Before(sys.log[i].value, h);
    }
  }

  lemma NewcomerKeepsLog(sys: Sys, o: SspObject)
    requires LogOk(sys) && Head(sys).None? && o.uid == sys.nextUid
    ensures LogOk(Append(sys.(nextUid := sys.nextUid + 1), Some(o)))
  {
  }

  lemma DepartureKeepsLog(sys: Sys)
    requires LogOk(sys)
    ensures LogOk(Append(sys, None))
  {
  }

  /** Appending keeps what the pass and the history refer to. */
  lemma AppendKeepsRest(sys: Sys, o: Option<SspObject>)
    requires LogOk(sys) && PcOk(sys) && PhaseOk(sys) && SweptOk(sys)
    requires o.Some? && !o.value.deleting ==>
               o.value.uid !in sys.swept && (!o.value.status.phase.NoPhase? ==> o.value.uid in sys.armed)
    ensures var sys' := Append(sys, o); PcOk(sys') && PhaseOk(sys') && SweptOk(sys')
  {
    var sys' := Append(sys, o);
    forall x | Stored(sys', x) ensures Stored(sys, x) || (o.Some? && x == o.value.(version := sys.nextVersion)) {}
    forall uid | SeenDeleting(sys, uid) ensures SeenDeleting(sys', uid) {
      var k :| 0 <= k < |sys.log| && k <= sys.seen && sys.log[k].Some?
               && sys.log[k].value.uid == uid && sys.log[k].value.deleting;
      assert sys'.log[k] == sys.log[k];
    }
    assert forall x :: Stored(sys, x) ==> Stored(sys', x);
  }

  // ----- steps

  /** Steps that leave log, informer and protection alone. */
  lemma PassStepKeepsSafe(sys: Sys, sys': Sys)
    requires Safe(sys)
    requires sys'.log == sys.log && sys'.seen == sys.seen && sys'.nextUid == sys.nextUid
             && sys'.nextVersion == sys.nextVersion
    requires sys'.armed == sys.armed && sys'.swept == sys.swept
    requires sys'.touched <= sys'.armed && sys'.late == {} && PcOk(sys')
    ensures Safe(sys')
  {
    assert forall o :: Stored(sys', o) <==> Stored(sys, o);
  }

  lemma CreateKeepsSafe(sys: Sys, made: SspObject)
    requires Safe(sys) && Head(sys).None? && made.uid == sys.nextUid && !made.deleting && made.status == FRESH_STATUS
    ensures Safe(Append(sys.(nextUid := sys.nextUid + 1), Some(made)))
  {
    var wider := sys.(nextUid := sys.nextUid + 1);
    NewcomerKeepsLog(sys, made);
    assert forall o :: Stored(wider, o) <==> Stored(sys, o);
    assert forall u :: SeenDeleting(wider, u) <==> SeenDeleting(sys, u);
    AppendKeepsRest(wider, Some(made));
  }

  lemma DepartureKeepsSafe(sys: Sys)
    requires Safe(sys) && Head(sys).Some? && (Protected(Head(sys).value) ==> Head(sys).value.uid in sys.swept)
    ensures Safe(Append(sys, None))
  {
    DepartureKeepsLog(sys);
    AppendKeepsRest(sys, None);
  }

  /** A new version that keeps the phase and stays protected unless it was swept. */
  lemma RevisionKeepsSafe(sys: Sys, o: SspObject)
    requires Safe(sys) && Head(sys).Some? && Successor(Head(sys).value, o)
    requires !o.deleting && !o.status.phase.NoPhase? ==> o.uid in sys.armed
    requires o.uid in sys.armed && o.uid !in sys.swept ==> Protected(o)
    ensures Safe(Append(sys, Some(o)))
  {
    assert Stored(sys, Head(sys).value);
    SuccessorKeepsLog(sys, o);
    AppendKeepsRest(sys, Some(o));
  }

  lemma CreationKeepsSafe(sys: Sys, edit: SspEdit)
    requires Safe(sys) && Head(sys).None? && edit.Create?
    ensures Safe(Edited(sys, edit))
  {
    CreateKeepsSafe(sys, SspObject(sys.nextUid, 0, 1, edit.spec, edit.labels, edit.pauseRequested, false,
                                   edit.finalizers, FRESH_STATUS));
  }

  lemma RemovalKeepsSafe(sys: Sys, h: SspObject)
    requires Safe(sys) && Head(sys) == Some(h) && Respectful(sys, User(Remove))
    ensures Safe(Edited(sys, Remove))
  {
    RemovalIs(sys, h);
    if h.finalizers == {} { DepartureKeepsSafe(sys); }
    else if !h.deleting { MarkingKeepsSafe(sys, h); }
  }

  lemma RemovalIs(sys: Sys, h: SspObject)
    requires sys.log != [] && Head(sys) == Some(h)
    ensures Edited(sys, Remove) ==
              if h.finalizers == {} then Append(sys, None)
              else if h.deleting then sys
              else Append(sys, Some(h.(deleting := true, generation := h.generation + 1)))
  {
  }

  lemma MarkingKeepsSafe(sys: Sys, h: SspObject)
    requires Safe(sys) && Head(sys) == Some(h) && !h.deleting
    ensures Safe(Append(sys, Some(h.(deleting := true, generation := h.generation + 1))))
  {
    assert Stored(sys, h);
    UserRevisionKeepsSafe(sys, h, h.(deleting := true, generation := h.generation + 1));
  }

  lemma UserKeepsSafe(sys: Sys, edit: SspEdit)
    requires Safe(sys) && Respectful(sys, User(edit))
    ensures Safe(Edited(sys, edit))
  {
    if Head(sys).None? {
      if edit.Create? { CreationKeepsSafe(sys, edit); }
    } else if edit.Remove? {
      RemovalKeepsSafe(sys, Head(sys).value);
    } else if edit.Edit? {
      var h := Head(sys).value;
      assert Stored(sys, h);
      if h.deleting ==> edit.finalizers <= h.finalizers { EditKeepsSafe(sys, h, edit); }
    }
  }

  lemma EditKeepsSafe(sys: Sys, h: SspObject, edit: SspEdit)
    requires Safe(sys) && Head(sys) == Some(h) && Stored(sys, h) && edit.Edit?
    requires h.deleting ==> edit.finalizers <= h.finalizers
    requires forall f <- {FINALIZER, OLD_FINALIZER} :: f in h.finalizers ==> f in edit.finalizers
    ensures Safe(Edited(sys, edit))
  {
    if h.deleting && edit.finalizers == {} {
      DepartureKeepsSafe(sys);
    } else {
      UserRevisionKeepsSafe(sys, h, h.(spec := edit.spec, labels := edit.labels, pauseRequested := edit.pauseRequested,
                                       finalizers := edit.finalizers,
                                       generation := if edit.spec != h.spec then h.generation + 1 else h.generation));
    }
  }

  lemma UserRevisionKeepsSafe(sys: Sys, h: SspObject, o: SspObject)
    requires Safe(sys) && Head(sys) == Some(h) && Successor(h, o)
    requires o.status == h.status && (Protected(h) ==> Protected(o))
    ensures Safe(Append(sys, Some(o)))
  {
    assert Stored(sys, h);
    RevisionKeepsSafe(sys, o);
  }

  lemma DispatchIsOk(sys: Sys, o: SspObject)
    requires Safe(sys) && sys.log[sys.seen] == Some(o)
    ensures PcOk(sys.(pc := Dispatch(o, sys.crdsMissing)))
  {
    var sys' := sys.(pc := Dispatch(o, sys.crdsMissing));
    assert Stored(sys', o) && Stored(sys, o);
    assert o.deleting ==> SeenDeleting(sys', o.uid);
    assert !o.deleting ==> o.uid !in sys.swept;
  }

  lemma BeginKeepsSafe(sys: Sys)
    requires Safe(sys)
    ensures Safe(BeginStep(sys))
  {
    var o := sys.log[sys.seen];
    if o.Some? {
      DispatchIsOk(sys, o.value);
      PassStepKeepsSafe(sys, BeginStep(sys));
    }
  }

  lemma SyncKeepsSafe(sys: Sys, seen: nat)
    requires Safe(sys) && sys.seen <= seen < |sys.log|
    ensures Safe(sys.(seen := seen))
  {
    var sys' := sys.(seen := seen);
    forall uid | SeenDeleting(sys, uid) ensures SeenDeleting(sys', uid) {
      var k :| 0 <= k < |sys.log| && k <= sys.seen && sys.log[k].Some?
               && sys.log[k].value.uid == uid && sys.log[k].value.deleting;
      assert sys'.log[k] == sys.log[k];
    }
    assert forall o :: Stored(sys', o) <==> Stored(sys, o);
  }

  lemma OperandsKeepSafe(sys: Sys, outcome: OperandOutcome, server: ApiServer.Server)
    requires Safe(sys) && sys.pc.Reconciling?
    ensures Safe(OperandStep(sys, outcome, server))
  {
    var sys' := OperandStep(sys, outcome, server);
    assert Stored(sys', sys.pc.base);
    PassStepKeepsSafe(sys, sys');
  }

  lemma SweptObjectIsLeaving(sys: Sys, i: nat)
    requires Safe(sys) && sys.pc.Sweeping?
    requires sys.seen <= i < |sys.log| && sys.log[i].Some? && sys.log[i].value.uid == sys.pc.base.uid
    ensures sys.log[i].value.deleting
  {
    var k :| 0 <= k < |sys.log| && k <= sys.seen && sys.log[k].Some? && sys.log[k].value.uid == sys.pc.base.uid
      && sys.log[k].value.deleting;
    assert Before(sys.log[k].value, sys.log[i].value);
  }

  lemma ClearSweepKeepsSafe(sys: Sys, swept: Swept, check: Check)
    requires Safe(sys) && sys.pc.Sweeping? && Clear(swept.findings)
    ensures Safe(SweepResult(sys, swept, check))
  {
    var sys' := SweepResult(sys, swept, check);
    assert forall o :: Stored(sys', o) <==> Stored(sys, o);
    assert forall u :: SeenDeleting(sys', u) <==> SeenDeleting(sys, u);
    StoredUid(sys, sys.pc.base);
    SweptStaysOk(sys, sys', check);
  }

  lemma StoredUid(sys: Sys, o: SspObject)
    requires LogOk(sys) && Stored(sys, o)
    ensures o.uid < sys.nextUid
  {
    var i :| 0 <= i < |sys.log| && sys.log[i] == Some(o);
  }

  lemma SweptStaysOk(sys: Sys, sys': Sys, check: Check)
    requires Safe(sys) && sys.pc.Sweeping? && sys.pc.base.uid < sys.nextUid
    requires sys'.log == sys.log && sys'.seen == sys.seen && sys'.nextUid == sys.nextUid
    requires sys'.swept == sys.swept[sys.pc.base.uid := check]
    ensures SweptOk(sys')
  {
    forall i | sys.seen <= i < |sys.log| && sys.log[i].Some? && sys.log[i].value.uid == sys.pc.base.uid
      ensures sys.log[i].value.deleting
    {
      SweptObjectIsLeaving(sys, i);
    }
  }

  /** A write is accepted only if the pass has worked on the newest version. */
  lemma AcceptedMeansCurrent(sys: Sys)
    requires Safe(sys) && IsWrite(sys.pc) && AnswerTo(sys).Accepted?
    ensures Head(sys) == Some(sys.pc.base)
  {
    assert Stored(sys, sys.pc.base);
    var i :| 0 <= i < |sys.log| && sys.log[i] == Some(sys.pc.base);
    assert Before(sys.log[i].value, Head(sys).value);
  }

  lemma RefusedKeepsSafe(sys: Sys, answer: Answer)
    requires Safe(sys) && IsWrite(sys.pc) && answer.Refused?
    ensures Safe(sys.(pc := AfterWrite(sys.pc, answer)))
  {
    var sys' := sys.(pc := AfterWrite(sys.pc, answer));
    assert Stored(sys', sys.pc.base);
    PassStepKeepsSafe(sys, sys');
  }

  lemma AcceptedUpdateKeepsSafe(sys: Sys)
    requires Safe(sys) && (sys.pc.WriteFinalizer? || sys.pc.DropFinalizer?) && AnswerTo(sys).Accepted?
    ensures Safe(Append(Recorded(sys), AnswerTo(sys).o))
  {
    var h := sys.pc.base;
    AcceptedMeansCurrent(sys);
    var i := |sys.log| - 1;
    assert sys.log[i] == Some(h) && h.uid < sys.nextUid;
    var armed := Recorded(sys);
    if sys.pc.WriteFinalizer? {
      assert AnswerTo(sys).o == Some(h.(finalizers := sys.pc.finalizers));
      ArmedRevisionKeepsSafe(sys, sys.pc.finalizers);
    } else if AnswerTo(sys).o.None? {
      DepartureKeepsSafe(sys);
    } else {
      assert AnswerTo(sys).o == Some(h.(finalizers := h.finalizers - {FINALIZER, OLD_FINALIZER}));
      RevisionKeepsSafe(sys, AnswerTo(sys).o.value);
    }
  }

  lemma ArmingShowsTheSame(sys: Sys, armed: set<nat>)
    ensures forall x :: Stored(sys.(armed := armed), x) <==> Stored(sys, x)
    ensures forall u :: SeenDeleting(sys.(armed := armed), u) <==> SeenDeleting(sys, u)
  {
  }

  lemma ArmedRevisionKeepsSafe(sys: Sys, finalizers: set<string>)
    requires Safe(sys) && sys.pc.WriteFinalizer? && Head(sys) == Some(sys.pc.base) && FINALIZER in finalizers
    ensures Safe(Append(sys.(armed := sys.armed + {sys.pc.base.uid}), Some(sys.pc.base.(finalizers := finalizers))))
  {
    var h := sys.pc.base;
    var o := h.(finalizers := finalizers);
    var armed := sys.(armed := sys.armed + {h.uid});
    assert sys.log[|sys.log| - 1] == Some(h);
    ArmingShowsTheSame(sys, sys.armed + {h.uid});
    SuccessorKeepsLog(armed, o);
    AppendKeepsRest(armed, Some(o));
  }

  lemma AcceptedStatusKeepsSafe(sys: Sys)
    requires Safe(sys) && IsStatusWrite(sys.pc) && AnswerTo(sys).Accepted?
    ensures Safe(Append(Recorded(sys), AnswerTo(sys).o))
  {
    var h := sys.pc.base;
    AcceptedMeansCurrent(sys);
    var o := h.(status := StatusFor(sys.pc));
    assert AnswerTo(sys).o == Some(o);
    var noted := Recorded(sys);
    assert Stored(noted, h);
    PassStepKeepsSafe(sys, noted);
    RevisionKeepsSafe(noted, o);
  }

  lemma SeenStaysSeen(sys: Sys, sys': Sys, uid: nat)
    requires sys.log <= sys'.log && sys.seen == sys'.seen && SeenDeleting(sys, uid)
    ensures SeenDeleting(sys', uid)
  {
    var k :| 0 <= k < |sys.log| && k <= sys.seen && sys.log[k].Some?
             && sys.log[k].value.uid == uid && sys.log[k].value.deleting;
    assert sys'.log[k] == sys.log[k];
  }

  /** An accepted write keeps the object's identity and does not undo its deletion. */
  lemma AcceptedKeepsIdentity(sys: Sys)
    requires Safe(sys) && IsWrite(sys.pc) && AnswerTo(sys).Accepted? && AnswerTo(sys).o.Some?
    ensures AnswerTo(sys).o.value.uid == sys.pc.base.uid && AnswerTo(sys).o.value.deleting == sys.pc.base.deleting
  {
    AcceptedMeansCurrent(sys);
  }

  lemma AppendedIsStored(sys: Sys, o: Option<SspObject>)
    ensures var n := Append(sys, o);
            o.Some? ==> Head(n).Some? && Stored(n, Head(n).value) &&
                        Head(n).value.uid == o.value.uid && Head(n).value.deleting == o.value.deleting
    ensures o.None? ==> Head(Append(sys, o)).None?
  {
  }

  lemma ArmingIsRecorded(sys: Sys)
    ensures sys.armed <= Recorded(sys).armed
    ensures sys.pc.WriteFinalizer? ==> sys.pc.base.uid in Recorded(sys).armed
  {
  }

  /** The object the server returned, and what is still known about it. */
  lemma StoredVersion(sys: Sys, stored: Sys)
    requires Safe(sys) && IsWrite(sys.pc) && AnswerTo(sys).Accepted? && stored == Append(Recorded(sys), AnswerTo(sys).o)
    ensures sys.log <= stored.log && stored.seen == sys.seen && stored.swept == sys.swept && sys.armed <= stored.armed
    ensures Stored(stored, sys.pc.base)
    ensures sys.pc.WriteFinalizer? ==> sys.pc.base.uid in stored.armed
    ensures Head(stored).Some? ==>
              && Stored(stored, Head(stored).value)
              && Head(stored).value.uid == sys.pc.base.uid
              && Head(stored).value.deleting == sys.pc.base.deleting
  {
    AcceptedMeansCurrent(sys);
    RecordedFrame(sys);
    ArmingIsRecorded(sys);
    AppendFrame(Recorded(sys), AnswerTo(sys).o);
    AppendedIsStored(Recorded(sys), AnswerTo(sys).o);
    if AnswerTo(sys).o.Some? { AcceptedKeepsIdentity(sys); }
    assert stored.log[|sys.log| - 1] == Some(sys.pc.base);
  }

  /** Where an accepted write leads. */
  lemma AcceptedContinues(sys: Sys, stored: Sys, answer: Answer)
    requires Safe(sys) && IsWrite(sys.pc) && PcOk(sys)
    requires sys.log <= stored.log && stored.seen == sys.seen && stored.swept == sys.swept && sys.armed <= stored.armed
    requires Stored(stored, sys.pc.base)
    requires sys.pc.WriteFinalizer? ==> sys.pc.base.uid in stored.armed
    requires answer.Accepted? && answer.o.Some? ==>
               && Stored(stored, answer.o.value)
               && answer.o.value.uid == sys.pc.base.uid
               && answer.o.value.deleting == sys.pc.base.deleting
    ensures PcOk(stored.(pc := AfterWrite(sys.pc, answer)))
  {
    var sys' := stored.(pc := AfterWrite(sys.pc, answer));
    assert forall x :: Stored(stored, x) ==> Stored(sys', x);
    if TakesDown(sys.pc) { SeenStaysSeen(sys, sys', sys.pc.base.uid); }
  }

  lemma WriteKeepsSafe(sys: Sys, fault: Fault)
    requires Safe(sys) && IsWrite(sys.pc)
    ensures Safe(Call(sys, fault))
  {
    var answer := if fault.CallFails? then Refused(ApiServer.Unavailable) else AnswerTo(sys);
    if answer.Refused? {
      RefusedKeepsSafe(sys, answer);
    } else {
      if IsStatusWrite(sys.pc) { AcceptedStatusKeepsSafe(sys); } else { AcceptedUpdateKeepsSafe(sys); }
      var stored := Append(Recorded(sys), answer.o);
      var reply := if fault.ReplyLost? then Refused(ApiServer.Unavailable) else Accepted(Head(stored));
      StoredVersion(sys, stored);
      AcceptedContinues(sys, stored, reply);
      PassStepKeepsSafe(stored, stored.(pc := AfterWrite(sys.pc, reply)));
    }
  }

  lemma StepKeepsSafe(sys: Sys, setup: Setup, e: Event)
    requires Safe(sys) && Enabled(sys, e) && Respectful(sys, e)
    ensures Safe(Next(sys, setup, e))
  {
    match e
    case User(edit) => UserKeepsSafe(sys, edit);
    case Cluster(server) =>
      assert !sys.pc.Idle? ==> Stored(sys.(server := server), sys.pc.base);
      assert forall u :: SeenDeleting(sys.(server := server), u) <==> SeenDeleting(sys, u);
      PassStepKeepsSafe(sys, sys.(server := server));
    case Sync(seen) => SyncKeepsSafe(sys, seen);
    case Restart(crdsMissing) => PassStepKeepsSafe(sys, sys.(pc := Idle, crdsMissing := crdsMissing));
    case Begin => BeginKeepsSafe(sys);
    case Write(fault) => WriteKeepsSafe(sys, fault);
    case Operands(outcome, server) => OperandsKeepSafe(sys, outcome, server);
    case SweepStep(order, readings, failed, server) =>
      if failed { PassStepKeepsSafe(sys, sys.(server := server, pc := Idle)); }
      else { SweepKeepsSafe(sys, SweepOf(sys, setup, order, readings), Check(sys.server, order, readings)); }
  }

  lemma SweepKeepsSafe(sys: Sys, swept: Swept, check: Check)
    requires Safe(sys) && sys.pc.Sweeping?
    ensures Safe(SweepResult(sys, swept, check))
  {
    if Clear(swept.findings) { ClearSweepKeepsSafe(sys, swept, check); }
    else { PassStepKeepsSafe(sys, sys.(server := swept.server, pc := Idle)); }
  }

  // ----- runs

  function Run(sys: Sys, setup: Setup, events: seq<Event>): (r: Option<Sys>)
    decreases |events|
  {
    if events == [] then Some(sys)
    else if CanStep(sys, events[0]) then Run(Next(sys, setup, events[0]), setup, events[1..])
    else None
  }

  /** The part of being enabled that can be computed. */
  predicate CanStep(sys: Sys, e: Event) {
    && sys.log != []
    && (e.Begin? ==> sys.pc.Idle? && sys.seen < |sys.log|)
    && (e.Write? ==> IsWrite(sys.pc))
    && (e.Operands? ==> sys.pc.Reconciling?)
    && (e.SweepStep? ==> sys.pc.Sweeping?)
  }

  ghost predicate GoodRun(sys: Sys, setup: Setup, events: seq<Event>)
    decreases |events|
  {
    events != [] ==>
      && Enabled(sys, events[0])
      && Respectful(sys, events[0])
      && GoodRun(Next(sys, setup, events[0]), setup, events[1..])
  }

  const START := Sys([None], 0, 1, 1, Idle, false, ApiServer.EMPTY, {}, {}, {}, map[], None, None, false, false)

  /** Over every run in which nobody else takes the finalizer away. */
  lemma {:induction false} RunKeepsSafe(sys: Sys, setup: Setup, events: seq<Event>)
    requires Safe(sys) && GoodRun(sys, setup, events)
    ensures Run(sys, setup, events).Some? && Safe(Run(sys, setup, events).value)
    decreases |events|
  {
    if events != [] {
      StepKeepsSafe(sys, setup, events[0]);
      RunKeepsSafe(Next(sys, setup, events[0]), setup, events[1..]);
    }
  }

  // ----- the final sweep

  /** Every object that the sweep listed was found absent or not owned. */
  ghost predicate Passed(check: Check, setup: Setup, u: nat) {
    && Enumerates(check.order)
    && AllFound(check.server, Identity(setup.owner, u), setup.operands, check.order, check.readings)
  }

  ghost predicate AllPassed(sys: Sys, setup: Setup) {
    forall u <- sys.swept :: Passed(sys.swept[u], setup, u)
  }

  lemma SweepKeepsPassed(sys: Sys, setup: Setup, order: Listing, readings: SweepReadings)
    requires AllPassed(sys, setup) && sys.pc.Sweeping? && Enumerates(order)
    ensures var swept := SweepOf(sys, setup, order, readings);
            AllPassed(SweepResult(sys, swept, Check(sys.server, order, readings)), setup)
  {
    SweepSeenIsClearIff(sys.server, Identity(setup.owner, sys.pc.base.uid), setup.operands, order, readings);
  }

  lemma OtherStepsKeepSwept(sys: Sys, setup: Setup, e: Event)
    requires Enabled(sys, e) && !(e.SweepStep? && !e.failed)
    ensures Next(sys, setup, e).swept == sys.swept
  {
    match e
    case User(edit) => EditedFrame(sys, edit);
    case Begin => BeginFrame(sys);
    case Write(fault) => CallFrame(sys, fault);
    case Operands(outcome, server) => OperandFrame(sys, outcome, server);
    case _ =>
  }

  lemma {:induction false} RunKeepsPassed(sys: Sys, setup: Setup, events: seq<Event>)
    requires AllPassed(sys, setup) && GoodRun(sys, setup, events) && Run(sys, setup, events).Some?
    ensures AllPassed(Run(sys, setup, events).value, setup)
    decreases |events|
  {
    if events != [] {
      var e := events[0];
      if e.SweepStep? && !e.failed { SweepKeepsPassed(sys, setup, e.order, e.readings); }
      else { OtherStepsKeepSwept(sys, setup, e); }
      RunKeepsPassed(Next(sys, setup, e), setup, events[1..]);
    }
  }

  /** Over every run, whenever operands run, their object exists, carries a finalizer and has not been swept. */
  lemma OperandsComeInTime(setup: Setup, events: seq<Event>, outcome: OperandOutcome, server: ApiServer.Server)
    requires GoodRun(START, setup, events) && Run(START, setup, events).Some?
    requires Enabled(Run(START, setup, events).value, Operands(outcome, server))
    ensures var sys := Run(START, setup, events).value;
            && Head(sys).Some?
            && Head(sys).value.uid == sys.pc.base.uid
            && (FINALIZER in Head(sys).value.finalizers || OLD_FINALIZER in Head(sys).value.finalizers)
            && sys.pc.base.uid !in sys.swept
  {
    RunKeepsSafe(START, setup, events);
  }

  /**
   Operands are reconciled only for objects whose finalizer write was accepted, never after
   the sweep that lets the finalizer go, and an object they were reconciled for is still there
   and protected unless a sweep found each cleanup object of each operand absent or not owned,
   whatever the informer showed it.
   */
  lemma LifecycleIsSafe(setup: Setup, events: seq<Event>)
    requires GoodRun(START, setup, events)
    ensures Run(START, setup, events).Some?
    ensures var sys := Run(START, setup, events).value;
            && sys.log != []
            && sys.touched <= sys.armed
            && sys.late == {}
            && forall u <- sys.touched ::
                 || (u in sys.swept && Passed(sys.swept[u], setup, u))
                 || (Head(sys).Some? && Head(sys).value.uid == u && Protected(Head(sys).value))
  {
    RunKeepsSafe(START, setup, events);
    RunKeepsPassed(START, setup, events);
  }

  /**
   Over every run: the cluster that the last sweep met was clean exactly if the informer showed
   it every object that it had to wait for.
   */
  lemma SweptIsCleanIff(setup: Setup, events: seq<Event>, u: nat)
    requires GoodRun(START, setup, events)
    requires Run(START, setup, events).Some? && u in Run(START, setup, events).value.swept
    ensures var check := Run(START, setup, events).value.swept[u];
            var ssp := Identity(setup.owner, u);
            (forall op <- setup.operands :: CleanOperand(check.server, ssp, op)) <==>
              forall i: nat :: i < |setup.operands| ==>
                OperandShowsOwed(check.server, ssp, setup.operands[i], check.order, check.readings(i))
  {
    var check := Run(START, setup, events).value.swept[u];
    RunKeepsPassed(START, setup, events);
    var ssp := Identity(setup.owner, u);
    SweepSeenIsClearIff(check.server, ssp, setup.operands, check.order, check.readings);
    SweptClusterIsCleanIff(check.server, ssp, setup.operands, check.order, check.readings);
  }
}

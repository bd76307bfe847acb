/** When the controller lets operands run at all. */
module OperandGate {
  import opened Kube
  import ApiServer
  import opened Lifecycle
  import opened LifecycleSafety

  /** Not deleted, not paused, nothing missing, and its generation has been announced as being worked on. */
  ghost predicate Gated(sys: Sys) {
    && (sys.pc.WritePre? || sys.pc.Reconciling? ==>
          !sys.pc.base.deleting && !sys.pc.base.pauseRequested && !sys.crdsMissing)
    && (sys.pc.Reconciling? ==>
          sys.pc.base.status.observed == sys.pc.base.generation && !sys.pc.base.status.phase.NoPhase?)
  }

  /** Operands follow a write only if it announced the generation and was accepted. */
  lemma OnlyAnnouncedReconciles(pc: Pc, answer: Answer)
    requires AfterWrite(pc, answer).WritePre? || AfterWrite(pc, answer).Reconciling?
    ensures pc.WritePre? && answer.Accepted? && answer.o.Some? && AfterWrite(pc, answer) == Reconciling(answer.o.value)
  {
  }

  /** The version that an accepted announcement stored. */
  lemma AnnouncedVersion(sys: Sys)
    requires Safe(sys) && sys.pc.WritePre? && AnswerTo(sys).Accepted?
    ensures var stored := Append(Recorded(sys), AnswerTo(sys).o);
            Head(stored) == Some(sys.pc.base.(status := PreStatus(sys.pc.base), version := sys.nextVersion))
  {
    AcceptedMeansCurrent(sys);
  }

  lemma WriteKeepsGated(sys: Sys, fault: Fault)
    requires Safe(sys) && IsWrite(sys.pc) && Gated(sys)
    ensures Gated(Call(sys, fault))
  {
    CallFrame(sys, fault);
    var answer := if fault.CallFails? then Refused(ApiServer.Unavailable) else AnswerTo(sys);
    if answer.Accepted? {
      var stored := Append(Recorded(sys), answer.o);
      var reply := if fault.ReplyLost? then Refused(ApiServer.Unavailable) else Accepted(Head(stored));
      assert Call(sys, fault).pc == AfterWrite(sys.pc, reply);
      if AfterWrite(sys.pc, reply).WritePre? || AfterWrite(sys.pc, reply).Reconciling? {
        OnlyAnnouncedReconciles(sys.pc, reply);
        AnnouncedVersion(sys);
      }
    } else if AfterWrite(sys.pc, answer).WritePre? || AfterWrite(sys.pc, answer).Reconciling? {
      OnlyAnnouncedReconciles(sys.pc, answer);
    }
  }

  lemma StepKeepsGated(sys: Sys, setup: Setup, e: Event)
    requires Safe(sys) && Enabled(sys, e) && Gated(sys)
    ensures Gated(Next(sys, setup, e))
  {
    match e
    case User(edit) => EditedFrame(sys, edit);
    case Begin => BeginKeepsGated(sys);
    case Write(fault) => WriteKeepsGated(sys, fault);
    case Operands(outcome, server) => OperandFrame(sys, outcome, server);
    case SweepStep(order, readings, failed, _) => if !failed { SweepFrame(sys, setup, order, readings); }
    case _ =>
  }

  lemma BeginKeepsGated(sys: Sys)
    requires sys.seen < |sys.log| && Gated(sys)
    ensures Gated(BeginStep(sys))
  {
  }

  lemma {:induction false} RunKeepsGated(sys: Sys, setup: Setup, events: seq<Event>)
    requires Safe(sys) && Gated(sys) && GoodRun(sys, setup, events)
    ensures Run(sys, setup, events).Some? && Gated(Run(sys, setup, events).value)
    decreases |events|
  {
    if events != [] {
      StepKeepsSafe(sys, setup, events[0]);
      StepKeepsGated(sys, setup, events[0]);
      RunKeepsGated(Next(sys, setup, events[0]), setup, events[1..]);
    }
  }

  /**
   Over every run: wherever operands can run, they run for a version that was neither deleted
   nor paused, whose CRDs are there, whose finalizer was written, and whose status no longer
   speaks about another generation.
   */
  lemma OperandsRunOnlyWhenAllowed(setup: Setup, events: seq<Event>)
    requires GoodRun(START, setup, events)
    ensures Run(START, setup, events).Some?
    ensures var sys := Run(START, setup, events).value;
            sys.pc.Reconciling? ==>
              var o := sys.pc.base;
              && !o.deleting
              && !o.pauseRequested
              && !sys.crdsMissing
              && o.uid in sys.armed
              && o.status.observed == o.generation
  {
    RunKeepsSafe(START, setup, events);
    RunKeepsGated(START, setup, events);
  }
}

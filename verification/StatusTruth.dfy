/** What the status of the SSP object says about the operand passes behind it. */
module StatusTruth {
  import opened Kube
  import ApiServer
  import opened Lifecycle
  import opened LifecycleSafety

  /** The three lists that are collected, of which only the emptiness matters. */
  method UpdateStatus(o: SspObject, results: Results) returns (s: Status)
    ensures s.available == Some(!exists r <- results :: r.notAvailable)
    ensures s.progressing == Some(exists r <- results :: r.progressing)
    ensures s.degraded == Some(exists r <- results :: r.degraded)
    ensures s.phase == if forall r <- results :: IsSuccess(r) then Deployed else Deploying
    ensures s.observed == o.generation && !s.paused
    ensures s == ReportStatus(o, results)
  {
    var notAvailable, progressing, degraded: Results := [], [], [];
    for i := 0 to |results|
      invariant |notAvailable| == 0 <==> forall j :: 0 <= j < i ==> !results[j].notAvailable
      invariant |progressing| == 0 <==> forall j :: 0 <= j < i ==> !results[j].progressing
      invariant |degraded| == 0 <==> forall j :: 0 <= j < i ==> !results[j].degraded
    {
      if results[i].notAvailable { notAvailable := notAvailable + [results[i]]; }
      if results[i].progressing { progressing := progressing + [results[i]]; }
      if results[i].degraded { degraded := degraded + [results[i]]; }
    }
    s := o.status.(available := Some(|notAvailable| == 0), progressing := Some(|progressing| != 0),
                   degraded := Some(|degraded| != 0), paused := false, observed := o.generation);
    if |notAvailable| == 0 && |progressing| == 0 && |degraded| == 0 {
      s := s.(phase := Deployed);
    } else {
      s := s.(phase := Deploying);
    }
  }

  predicate GoodConditions(s: Status) {
    s.available == Some(true) && s.progressing == Some(false) && s.degraded == Some(false)
  }

  /** "Deployed" comes from the last accepted report, and that was a report of success. */
  ghost predicate Backed(sys: Sys, o: SspObject) {
    o.status.phase.Deployed? ==>
      && sys.reported.Some?
      && var r := sys.reported.value;
         && r.uid == o.uid
         && r.ok
         && r.generation == o.status.observed
         && r.generation <= o.generation
         && (r.generation == o.generation ==> r.spec == o.spec)
         && (sys.hidden || GoodConditions(o.status))
  }

  ghost predicate Truthful(sys: Sys) {
    Safe(sys) && (Head(sys).Some? ==> Backed(sys, Head(sys).value))
  }

  /** A new version with the same status. */
  lemma RevisionStaysBacked(sys: Sys, h: SspObject, o: SspObject)
    requires Backed(sys, h) && Successor(h, o) && o.status == h.status
    ensures Backed(sys, o.(version := sys.nextVersion))
  {
  }

  lemma UserKeepsTruthful(sys: Sys, edit: SspEdit)
    requires Truthful(sys)
    ensures var sys' := Edited(sys, edit); Head(sys').Some? ==> Backed(sys', Head(sys').value)
  {
    if Head(sys).Some? {
      if edit.Edit? { EditStaysBacked(sys, edit); } else if edit.Remove? { RemovalStaysBacked(sys); }
    }
  }

  lemma EditStaysBacked(sys: Sys, edit: SspEdit)
    requires sys.log != [] && Head(sys).Some? && Backed(sys, Head(sys).value) && edit.Edit?
    ensures var sys' := Edited(sys, edit); Head(sys').Some? ==> Backed(sys', Head(sys').value)
  {
    var h := Head(sys).value;
    var o := h.(spec := edit.spec, labels := edit.labels, pauseRequested := edit.pauseRequested,
                finalizers := edit.finalizers,
                generation := if edit.spec != h.spec then h.generation + 1 else h.generation);
    if h.deleting && !(edit.finalizers <= h.finalizers) {
      assert Edited(sys, edit) == sys;
    } else if h.deleting && edit.finalizers == {} {
      assert Edited(sys, edit) == Append(sys, None);
    } else {
      RevisionStaysBacked(sys, h, o);
      RevisedHead(sys, o);
      assert Edited(sys, edit) == Append(sys, Some(o));
    }
  }

  lemma RemovalStaysBacked(sys: Sys)
    requires sys.log != [] && Head(sys).Some? && Backed(sys, Head(sys).value)
    ensures var sys' := Edited(sys, Remove); Head(sys').Some? ==> Backed(sys', Head(sys').value)
  {
    var h := Head(sys).value;
    var o := h.(deleting := true, generation := h.generation + 1);
    RevisionStaysBacked(sys, h, o);
    RevisedHead(sys, o);
  }

  lemma RevisedHead(sys: Sys, o: SspObject)
    requires Backed(sys, o.(version := sys.nextVersion))
    ensures var sys' := Append(sys, Some(o)); Head(sys').Some? && Backed(sys', Head(sys').value)
  {
  }

  lemma StatusWriteIsBacked(sys: Sys)
    requires Truthful(sys) && IsStatusWrite(sys.pc) && Head(sys) == Some(sys.pc.base)
    ensures Backed(Recorded(sys), sys.pc.base.(status := StatusFor(sys.pc)))
  {
  }

  lemma AcceptedStatusIsBacked(sys: Sys)
    requires Truthful(sys) && IsStatusWrite(sys.pc) && AnswerTo(sys).Accepted?
    ensures AnswerTo(sys).o.Some? && Backed(Recorded(sys), AnswerTo(sys).o.value)
  {
    AcceptedMeansCurrent(sys);
    StatusWriteIsBacked(sys);
    assert AnswerTo(sys).o == Some(sys.pc.base.(status := StatusFor(sys.pc)));
  }

  lemma AcceptedUpdateIsBacked(sys: Sys)
    requires Truthful(sys) && IsWrite(sys.pc) && !IsStatusWrite(sys.pc) && AnswerTo(sys).Accepted?
    ensures AnswerTo(sys).o.Some? ==> Backed(Recorded(sys), AnswerTo(sys).o.value)
  {
    AcceptedMeansCurrent(sys);
    RecordedFrame(sys);
  }

  lemma AcceptedIsBacked(sys: Sys)
    requires Truthful(sys) && IsWrite(sys.pc) && AnswerTo(sys).Accepted?
    ensures var stored := Append(Recorded(sys), AnswerTo(sys).o);
            Head(stored).Some? ==> Backed(stored, Head(stored).value)
  {
    if IsStatusWrite(sys.pc) { AcceptedStatusIsBacked(sys); } else { AcceptedUpdateIsBacked(sys); }
    if AnswerTo(sys).o.Some? { RevisedHead(Recorded(sys), AnswerTo(sys).o.value); }
  }

  lemma WriteKeepsTruthful(sys: Sys, fault: Fault)
    requires Truthful(sys) && IsWrite(sys.pc)
    ensures var sys' := Call(sys, fault); Head(sys').Some? ==> Backed(sys', Head(sys').value)
  {
    if !fault.CallFails? && AnswerTo(sys).Accepted? { AcceptedIsBacked(sys); }
  }

  /** Only users and writes change the log and what was reported. */
  lemma OtherStepsLeaveStatus(sys: Sys, setup: Setup, e: Event)
    requires Enabled(sys, e) && !e.User? && !e.Write?
    ensures var sys' := Next(sys, setup, e);
            sys'.log == sys.log && sys'.reported == sys.reported && sys'.hidden == sys.hidden
  {
    match e
    case Begin => BeginFrame(sys);
    case Operands(outcome, server) => OperandFrame(sys, outcome, server);
    case SweepStep(order, readings, failed, _) => if !failed { SweepFrame(sys, setup, order, readings); }
    case _ =>
  }

  lemma SameLogSameBacking(sys: Sys, sys': Sys)
    requires sys.log != [] && sys'.log == sys.log && sys'.reported == sys.reported && sys'.hidden == sys.hidden
    requires Head(sys).Some? ==> Backed(sys, Head(sys).value)
    ensures Head(sys').Some? ==> Backed(sys', Head(sys').value)
  {
  }

  lemma StepKeepsTruthful(sys: Sys, setup: Setup, e: Event)
    requires Truthful(sys) && Enabled(sys, e) && Respectful(sys, e)
    ensures Truthful(Next(sys, setup, e))
  {
    StepKeepsSafe(sys, setup, e);
    if e.User? {
      UserKeepsTruthful(sys, e.edit);
    } else if e.Write? {
      WriteKeepsTruthful(sys, e.fault);
    } else {
      OtherStepsLeaveStatus(sys, setup, e);
      SameLogSameBacking(sys, Next(sys, setup, e));
    }
  }

  lemma {:induction false} RunKeepsTruthful(sys: Sys, setup: Setup, events: seq<Event>)
    requires Truthful(sys) && GoodRun(sys, setup, events)
    ensures Run(sys, setup, events).Some? && Truthful(Run(sys, setup, events).value)
    decreases |events|
  {
    if events != [] {
      StepKeepsTruthful(sys, setup, events[0]);
      RunKeepsTruthful(Next(sys, setup, events[0]), setup, events[1..]);
    }
  }

  /** The status claims that this very generation is deployed. */
  ghost predicate ClaimsDeployed(sys: Sys)
    requires sys.log != []
  {
    && Head(sys).Some?
    && Head(sys).value.status.phase.Deployed?
    && Head(sys).value.status.observed == Head(sys).value.generation
  }

  /** A pass that ran for exactly this generation's spec, all of whose results were successes. */
  ghost predicate Vouches(report: Option<Report>, o: SspObject) {
    report == Some(Report(o.uid, o.generation, o.spec, true))
  }

  /**
   Over every run: if the status claims that this generation is deployed, the last operand pass
   whose report was accepted ran on exactly this generation's spec and succeeded throughout; its
   conditions say the same unless missing CRDs were reported since.
   */
  lemma StatusIsTrue(setup: Setup, events: seq<Event>)
    requires GoodRun(START, setup, events)
    ensures Run(START, setup, events).Some?
    ensures var sys := Run(START, setup, events).value;
            && sys.log != []
            && (ClaimsDeployed(sys) ==> Vouches(sys.reported, Head(sys).value))
            && (Head(sys).Some? && Head(sys).value.status.phase.Deployed? && !sys.hidden ==>
                 GoodConditions(Head(sys).value.status))
  {
    RunKeepsTruthful(START, setup, events);
  }

  // ----- the last pass that ran to its end

  /** An acknowledged report is the last one, and every completed pass ran for a stored version. */
  ghost predicate Accounted(sys: Sys) {
    && Matched(sys)
    && (sys.completed.Some? ==> exists o :: Stored(sys, o) && RanFor(sys.completed.value, o))
  }

  predicate Matched(sys: Sys) {
    && (sys.acknowledged ==> sys.completed == sys.reported)
    && (sys.pc.WriteReport? ==>
          sys.completed ==
            Some(Report(sys.pc.base.uid, sys.pc.base.generation, sys.pc.base.spec, AllGood(sys.pc.results))))
  }

  predicate RanFor(r: Report, o: SspObject) {
    r.uid == o.uid && r.generation == o.generation && r.spec == o.spec
  }

  lemma AccountedGrows(sys: Sys, sys': Sys)
    requires sys.log <= sys'.log && sys'.completed == sys.completed
    requires sys.completed.Some? ==> exists o :: Stored(sys, o) && RanFor(sys.completed.value, o)
    ensures sys.completed.Some? ==> exists o :: Stored(sys', o) && RanFor(sys.completed.value, o)
  {
    if sys.completed.Some? {
      var o :| Stored(sys, o) && RanFor(sys.completed.value, o);
      assert Stored(sys', o);
    }
  }

  lemma StepExtendsLog(sys: Sys, setup: Setup, e: Event)
    requires Enabled(sys, e)
    ensures sys.log <= Next(sys, setup, e).log
  {
    if e.User? { EditedFrame(sys, e.edit); }
    else if e.Write? { CallFrame(sys, e.fault); }
    else { OtherStepsLeaveStatus(sys, setup, e); }
  }

  /** Only passes and accepted reports change what is known about reports. */
  lemma OtherStepsLeaveReports(sys: Sys, setup: Setup, e: Event)
    requires Enabled(sys, e) && !e.Write? && !e.Operands?
    ensures var sys' := Next(sys, setup, e);
            && sys'.completed == sys.completed
            && sys'.reported == sys.reported
            && sys'.acknowledged == sys.acknowledged
            && (sys'.pc.WriteReport? ==> sys'.pc == sys.pc)
  {
    match e
    case User(edit) => EditedFrame(sys, edit);
    case Begin => BeginFrame(sys);
    case SweepStep(order, readings, failed, _) => if !failed { SweepFrame(sys, setup, order, readings); }
    case _ =>
  }

  lemma WriteLeavesCompleted(sys: Sys, fault: Fault)
    requires sys.log != [] && IsWrite(sys.pc) && Matched(sys)
    ensures var sys' := Call(sys, fault); sys'.completed == sys.completed && Matched(sys')
  {
    AfterWriteIsNoReport(sys.pc, AnswerTo(sys));
    RecordingMatches(sys);
  }

  lemma AfterWriteIsNoReport(pc: Pc, answer: Answer)
    ensures !AfterWrite(pc, answer).WriteReport?
  {
  }

  lemma RecordingMatches(sys: Sys)
    requires Matched(sys)
    ensures var noted := Recorded(sys);
            noted.completed == sys.completed && (noted.acknowledged ==> noted.completed == noted.reported)
  {
  }

  lemma OperandsAreAccounted(sys: Sys, outcome: OperandOutcome, server: ApiServer.Server)
    requires Safe(sys) && sys.pc.Reconciling? && Accounted(sys)
    ensures Accounted(OperandStep(sys, outcome, server))
  {
    var sys' := OperandStep(sys, outcome, server);
    assert Stored(sys', sys.pc.base);
    if !outcome.Finished? { AccountedGrows(sys, sys'); }
  }

  lemma StepKeepsAccounted(sys: Sys, setup: Setup, e: Event)
    requires Safe(sys) && Enabled(sys, e) && Accounted(sys)
    ensures Accounted(Next(sys, setup, e))
  {
    if e.Operands? {
      OperandsAreAccounted(sys, e.outcome, e.server);
    } else {
      StepExtendsLog(sys, setup, e);
      if e.Write? { WriteLeavesCompleted(sys, e.fault); } else { OtherStepsLeaveReports(sys, setup, e); }
      AccountedGrows(sys, Next(sys, setup, e));
    }
  }

  lemma {:induction false} RunKeepsAccounted(sys: Sys, setup: Setup, events: seq<Event>)
    requires Safe(sys) && Accounted(sys) && GoodRun(sys, setup, events)
    ensures Run(sys, setup, events).Some? && Accounted(Run(sys, setup, events).value)
    decreases |events|
  {
    if events != [] {
      StepKeepsSafe(sys, setup, events[0]);
      StepKeepsAccounted(sys, setup, events[0]);
      RunKeepsAccounted(Next(sys, setup, events[0]), setup, events[1..]);
    }
  }

  /** The pass was healthy and ran for this object at this generation. */
  predicate HealthyFor(report: Option<Report>, o: SspObject) {
    report.Some? && report.value.ok && report.value.uid == o.uid && report.value.generation == o.generation
  }

  /** The same uid and generation mean the same spec. */
  lemma HealthyVouches(sys: Sys)
    requires Safe(sys) && Accounted(sys) && Head(sys).Some? && HealthyFor(sys.completed, Head(sys).value)
    ensures Vouches(sys.completed, Head(sys).value)
  {
    var o :| Stored(sys, o) && RanFor(sys.completed.value, o);
    var i :| 0 <= i < |sys.log| && sys.log[i] == Some(o);
    assert Before(sys.log[i].value, Head(sys).value);
  }

  /**
   Over every run, a claim of "Deployed" for this generation is backed by the last pass that
   ran to its end if its report was accepted. If it was not, that pass backs the claim exactly
   if it was healthy and ran for this object at this generation.
   */
  lemma CompletedPassVouchesIff(setup: Setup, events: seq<Event>)
    requires GoodRun(START, setup, events)
    ensures Run(START, setup, events).Some?
    ensures var sys := Run(START, setup, events).value;
            && sys.log != []
            && (ClaimsDeployed(sys) && sys.acknowledged ==> Vouches(sys.completed, Head(sys).value))
            && (ClaimsDeployed(sys) ==>
                  (Vouches(sys.completed, Head(sys).value) <==>
                     sys.acknowledged || HealthyFor(sys.completed, Head(sys).value)))
  {
    RunKeepsTruthful(START, setup, events);
    RunKeepsAccounted(START, setup, events);
    var sys := Run(START, setup, events).value;
    if ClaimsDeployed(sys) && HealthyFor(sys.completed, Head(sys).value) { HealthyVouches(sys); }
  }

  /** A state in which the next pass reconciles operands right away. */
  ghost predicate AtRest(sys: Sys) {
    && Safe(sys)
    && sys.pc.Idle?
    && sys.seen == |sys.log| - 1
    && ClaimsDeployed(sys)
    && var o := Head(sys).value;
       !o.deleting && !o.pauseRequested && OLD_FINALIZER !in o.finalizers && !sys.crdsMissing && o.status.observed > 0
  }

  /** A pass that fails, while a user changes a label of the SSP object before the report is written. */
  function LostReport(o: SspObject, results: Results, server: ApiServer.Server, labels: StringMap): seq<Event> {
    var edit := Edit(o.spec, labels, o.pauseRequested, o.finalizers);
    [Begin, Operands(Finished(results), server), User(edit), Write(NoFault)]
  }

  /** The report of a failed pass can be lost, and then the claim outlives it. */
  lemma LostReportLeavesClaim(sys: Sys, setup: Setup, results: Results, server: ApiServer.Server, labels: StringMap)
    requires AtRest(sys) && !AllGood(results)
    ensures var events := LostReport(Head(sys).value, results, server, labels);
            && GoodRun(sys, setup, events)
            && Run(sys, setup, events).Some?
            && var after := Run(sys, setup, events).value;
               && after.log != []
               && ClaimsDeployed(after)
               && after.completed.Some?
               && !after.completed.value.ok
               && !after.acknowledged
  {
    var o := Head(sys).value;
    var edit := Edit(o.spec, labels, o.pauseRequested, o.finalizers);
    var s1 := BeginStep(sys);
    assert s1.pc == Reconciling(o);
    var s2 := OperandStep(s1, Finished(results), server);
    var s3 := Edited(s2, edit);
    EditedMeanwhile(s2, o, edit);
    var s4 := Call(s3, NoFault);
    ReportIsRefused(s3);
    RunOf(s4, setup);
    OneStepBefore(s3, setup, Write(NoFault), [], s4);
    OneStepBefore(s2, setup, User(edit), [Write(NoFault)], s4);
    OneStepBefore(s1, setup, Operands(Finished(results), server), [User(edit), Write(NoFault)], s4);
    OneStepBefore(sys, setup, Begin, [Operands(Finished(results), server), User(edit), Write(NoFault)], s4);
  }

  /** A user changes a label before the report is written. */
  lemma EditedMeanwhile(sys: Sys, o: SspObject, edit: SspEdit)
    requires sys.log != [] && Head(sys) == Some(o) && !o.deleting && o.version < sys.nextVersion
    requires edit.Edit? && edit == Edit(o.spec, edit.labels, o.pauseRequested, o.finalizers)
    ensures var n := Edited(sys, edit);
            && n == sys.(log := n.log, nextVersion := n.nextVersion)
            && Head(n) == Some(o.(labels := edit.labels, version := sys.nextVersion))
  {
  }

  /** The server does not take a report on a version that is no longer the newest. */
  lemma ReportIsRefused(sys: Sys)
    requires sys.log != [] && sys.pc.WriteReport? && Head(sys).Some? && Head(sys).value.version != sys.pc.base.version
    ensures Call(sys, NoFault) == sys.(pc := Idle)
  {
  }

  lemma RunOf(sys: Sys, setup: Setup)
    ensures GoodRun(sys, setup, []) && Run(sys, setup, []) == Some(sys)
  {
  }

  lemma OneStepBefore(sys: Sys, setup: Setup, e: Event, rest: seq<Event>, after: Sys)
    requires Enabled(sys, e) && Respectful(sys, e)
    requires GoodRun(Next(sys, setup, e), setup, rest) && Run(Next(sys, setup, e), setup, rest) == Some(after)
    ensures GoodRun(sys, setup, [e] + rest) && Run(sys, setup, [e] + rest) == Some(after)
  {
    assert ([e] + rest)[1..] == rest;
  }
}

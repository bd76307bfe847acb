/** Every part of the status, traced over a run to the accepted write that put it there. */
module StatusHistory {
  import opened Kube
  import opened Lifecycle
  import opened LifecycleSafety
  import opened StatusTruth

  /** What a status write is about. */
  datatype Topic =
    | Nothing
    | Adopted // the finalizer has been written
    | Prepared // a new generation is about to be reconciled
    | Passed(results: Results) // the operands returned these results
    | Missing // required CRDs are not there
    | Failed // an error other than a conflict
    | Leaving // cleanup goes on
    | Left // cleanup is over

  /** Which write the conditions and the phase come from; the other two fields as they were last written. */
  datatype History = History(conditions: Topic, phase: Topic, observed: nat, paused: bool)

  const BLANK := History(Nothing, Nothing, 0, false)

  /** What an accepted status write changes. */
  function Noted(h: History, pc: Pc): History {
    match pc
    case WriteDeploying(o) => h.(phase := Adopted, observed := o.generation)
    case WritePre(o) => History(Prepared, Prepared, o.generation, false)
    case WriteReport(o, results) => History(Passed(results), Passed(results), o.generation, false)
    case WriteMissing(_) => h.(conditions := Missing)
    case WriteError(o, afterPre) =>
      if afterPre then History(Failed, Failed, o.generation, false) else h.(conditions := Failed, phase := Failed)
    case WriteDeleting(o) => h.(conditions := Leaving, phase := Leaving, observed := o.generation)
    case WriteDeleted(o) => h.(phase := Left, observed := o.generation)
    case WritePaused(_) => h.(paused := true)
    case _ => h
  }

  function Remember(h: History, sys: Sys, e: Event): History
    requires sys.log != [] && (e.Write? ==> IsWrite(sys.pc))
  {
    match e
    case User(edit) => if Head(sys).None? && edit.Create? then BLANK else h
    case Write(fault) =>
      if !fault.CallFails? && IsStatusWrite(sys.pc) && AnswerTo(sys).Accepted? then Noted(h, sys.pc) else h
    case _ => h
  }

  ghost function RememberAll(h: History, sys: Sys, setup: Setup, events: seq<Event>): History
    requires GoodRun(sys, setup, events)
    decreases |events|
  {
    if events == [] then h
    else RememberAll(Remember(h, sys, events[0]), Next(sys, setup, events[0]), setup, events[1..])
  }

  // ----- what the status says

  ghost predicate ConditionsSay(topic: Topic, s: Status) {
    match topic
    case Passed(results) =>
      && (s.available == Some(true) <==> forall r <- results :: !r.notAvailable)
      && (s.progressing == Some(true) <==> exists r <- results :: r.progressing)
      && (s.degraded == Some(true) <==> exists r <- results :: r.degraded)
      && s.available.Some?
      && s.progressing.Some?
      && s.degraded.Some?
    case Nothing => s.available.None? && s.progressing.None? && s.degraded.None?
    case _ => s.available == Some(false) && s.progressing == Some(true) && s.degraded == Some(true)
  }

  ghost predicate PhaseSays(topic: Topic, s: Status) {
    match topic
    case Nothing => s.phase.NoPhase?
    case Passed(results) =>
      if exists r <- results :: r.progressing || r.notAvailable || r.degraded
      then s.phase.Deploying?
      else s.phase.Deployed?
    case Leaving => s.phase.Deleting?
    case Left => s.phase.Deleted?
    case _ => s.phase.Deploying?
  }

  ghost predicate Says(h: History, s: Status) {
    && ConditionsSay(h.conditions, s)
    && PhaseSays(h.phase, s)
    && s.observed == h.observed
    && s.paused == h.paused
  }

  lemma WriteSays(h: History, pc: Pc)
    requires IsStatusWrite(pc) && Says(h, pc.base.status)
    ensures Says(Noted(h, pc), StatusFor(pc))
  {
  }

  /**
   The newest version says what the history holds. Conditions that come from a report speak about
   results in `past`, and that report is the last one that was accepted.
   */
  ghost predicate Told(past: set<Results>, h: History, head: Option<SspObject>, reported: Option<Report>) {
    && (head.Some? ==> Says(h, head.value.status))
    && (h.conditions.Passed? ==> h.conditions.results in past)
    && (h.conditions.Passed? && head.Some? ==>
          && reported.Some?
          && reported.value.uid == head.value.uid
          && (reported.value.ok <==> AllGood(h.conditions.results)))
  }

  ghost predicate Traced(past: set<Results>, h: History, sys: Sys) {
    && Safe(sys)
    && Told(past, h, Head(sys), sys.reported)
    && (sys.pc.WriteReport? ==> sys.pc.results in past)
  }

  function Brings(e: Event): set<Results> {
    if e.Operands? && e.outcome.Finished? then {e.outcome.results} else {}
  }

  /** Users neither write the status nor replace an object by another one. */
  lemma EditLeavesStatus(sys: Sys, edit: SspEdit)
    requires sys.log != []
    ensures var sys' := Edited(sys, edit);
            Head(sys').Some? ==>
              if Head(sys).Some?
              then Head(sys').value.status == Head(sys).value.status && Head(sys').value.uid == Head(sys).value.uid
              else edit.Create? && Head(sys').value.status == FRESH_STATUS
  {
  }

  lemma EditIsTraced(past: set<Results>, h: History, sys: Sys, edit: SspEdit)
    requires Traced(past, h, sys)
    ensures var sys' := Edited(sys, edit);
            Told(past, Remember(h, sys, User(edit)), Head(sys'), sys'.reported) && sys'.pc == sys.pc
  {
    EditedFrame(sys, edit);
    EditLeavesStatus(sys, edit);
  }

  lemma AcceptedIsTraced(past: set<Results>, h: History, sys: Sys)
    requires Traced(past, h, sys) && IsStatusWrite(sys.pc) && AnswerTo(sys).Accepted?
    ensures var stored := Append(Recorded(sys), AnswerTo(sys).o);
            Told(past, Noted(h, sys.pc), Head(stored), stored.reported)
  {
    AcceptedMeansCurrent(sys);
    WriteSays(h, sys.pc);
    assert AnswerTo(sys).o == Some(sys.pc.base.(status := StatusFor(sys.pc)));
  }

  lemma UpdateIsTraced(past: set<Results>, h: History, sys: Sys)
    requires Traced(past, h, sys) && IsWrite(sys.pc) && !IsStatusWrite(sys.pc) && AnswerTo(sys).Accepted?
    ensures var stored := Append(Recorded(sys), AnswerTo(sys).o);
            Told(past, h, Head(stored), stored.reported)
  {
    AcceptedMeansCurrent(sys);
    RecordedFrame(sys);
  }

  /** A call is refused, or leaves what it appended. */
  lemma CallLeaves(sys: Sys, fault: Fault)
    requires sys.log != [] && IsWrite(sys.pc)
    ensures var sys' := Call(sys, fault);
            if fault.CallFails? || AnswerTo(sys).Refused?
            then sys'.log == sys.log && sys'.reported == sys.reported
            else var stored := Append(Recorded(sys), AnswerTo(sys).o);
                 sys'.log == stored.log && sys'.reported == stored.reported
    ensures !Call(sys, fault).pc.WriteReport?
  {
  }

  lemma AnswerIsTraced(past: set<Results>, h: History, sys: Sys)
    requires Traced(past, h, sys) && IsWrite(sys.pc) && AnswerTo(sys).Accepted?
    ensures var stored := Append(Recorded(sys), AnswerTo(sys).o);
            Told(past, if IsStatusWrite(sys.pc) then Noted(h, sys.pc) else h, Head(stored), stored.reported)
  {
    if IsStatusWrite(sys.pc) { AcceptedIsTraced(past, h, sys); } else { UpdateIsTraced(past, h, sys); }
  }

  lemma CallIsTraced(past: set<Results>, h: History, sys: Sys, fault: Fault)
    requires Traced(past, h, sys) && IsWrite(sys.pc)
    ensures var sys' := Call(sys, fault);
            Told(past, Remember(h, sys, Write(fault)), Head(sys'), sys'.reported) && !sys'.pc.WriteReport?
  {
    CallLeaves(sys, fault);
    if !fault.CallFails? && AnswerTo(sys).Accepted? {
      AnswerIsTraced(past, h, sys);
    }
  }

  lemma OtherIsTraced(past: set<Results>, h: History, sys: Sys, setup: Setup, e: Event)
    requires Traced(past, h, sys) && Enabled(sys, e) && !e.User? && !e.Write?
    ensures var sys' := Next(sys, setup, e);
            && Told(past + Brings(e), h, Head(sys'), sys'.reported)
            && (sys'.pc.WriteReport? ==> sys'.pc.results in past + Brings(e))
  {
    OtherStepsLeaveStatus(sys, setup, e);
    if !e.Operands? { OtherStepsLeaveReports(sys, setup, e); }
  }

  lemma StepIsTraced(past: set<Results>, h: History, sys: Sys, setup: Setup, e: Event)
    requires Traced(past, h, sys) && Enabled(sys, e) && Respectful(sys, e)
    ensures Traced(past + Brings(e), Remember(h, sys, e), Next(sys, setup, e))
  {
    StepKeepsSafe(sys, setup, e);
    if e.User? { EditIsTraced(past, h, sys, e.edit); }
    else if e.Write? { CallIsTraced(past, h, sys, e.fault); }
    else { OtherIsTraced(past, h, sys, setup, e); }
  }

  function BroughtBy(events: seq<Event>): set<Results> {
    if events == [] then {} else Brings(events[0]) + BroughtBy(events[1..])
  }

  lemma {:induction false} RunIsTraced(past: set<Results>, h: History, sys: Sys, setup: Setup, events: seq<Event>)
    requires Traced(past, h, sys) && GoodRun(sys, setup, events)
    ensures Run(sys, setup, events).Some?
    ensures Traced(past + BroughtBy(events), RememberAll(h, sys, setup, events), Run(sys, setup, events).value)
    decreases |events|
  {
    if events == [] {
      assert past + BroughtBy(events) == past;
    } else {
      var e := events[0];
      StepIsTraced(past, h, sys, setup, e);
      RunIsTraced(past + Brings(e), Remember(h, sys, e), Next(sys, setup, e), setup, events[1..]);
      assert past + BroughtBy(events) == past + Brings(e) + BroughtBy(events[1..]);
    }
  }

  lemma {:induction false} BroughtByEvents(events: seq<Event>, results: Results)
    ensures results in BroughtBy(events) <==>
              exists e <- events :: e.Operands? && e.outcome.Finished? && e.outcome.results == results
  {
    if events != [] {
      BroughtByEvents(events[1..], results);
      assert forall e :: e in events <==> e == events[0] || e in events[1..];
    }
  }

  /**
   Over every run: conditions, phase, observed generation and pause mark of the stored object say
   what the writes that last set them were about. Conditions that come from a report speak about
   the results of a pass of this run, the last whose report was accepted, healthy or not.
   */
  lemma StatusIsTraced(setup: Setup, events: seq<Event>)
    requires GoodRun(START, setup, events)
    ensures Run(START, setup, events).Some?
    ensures var sys, h := Run(START, setup, events).value, RememberAll(BLANK, START, setup, events);
            && sys.log != []
            && (Head(sys).Some? ==> Says(h, Head(sys).value.status))
            && (h.conditions.Passed? ==>
                  exists e <- events :: e.Operands? && e.outcome == Finished(h.conditions.results))
            && (h.conditions.Passed? && Head(sys).Some? ==>
                  && sys.reported.Some?
                  && sys.reported.value.uid == Head(sys).value.uid
                  && (sys.reported.value.ok <==> AllGood(h.conditions.results)))
  {
    assert Traced({}, BLANK, START);
    RunIsTraced({}, BLANK, START, setup, events);
    var h := RememberAll(BLANK, START, setup, events);
    if h.conditions.Passed? { BroughtByEvents(events, h.conditions.results); }
  }
}

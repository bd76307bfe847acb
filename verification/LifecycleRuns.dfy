/** Whole runs of the controller, from an empty cluster. */
module LifecycleRuns {
  import opened Kube
  import ApiServer
  import opened Ssp
  import opened Cleanup
  import opened LaggingCleanup
  import opened Lifecycle
  import opened LifecycleSafety
  import opened StatusTruth

  ghost predicate Leads(sys: Sys, setup: Setup, events: seq<Event>, after: Sys) {
    GoodRun(sys, setup, events) && Run(sys, setup, events) == Some(after)
  }

  ghost predicate Reaches(setup: Setup, events: seq<Event>, sys: Sys) {
    Leads(START, setup, events, sys)
  }

  lemma LeadsNowhere(sys: Sys, setup: Setup)
    ensures Leads(sys, setup, [], sys)
  {
  }

  lemma {:induction false} OneStepMore(sys: Sys, setup: Setup, events: seq<Event>, mid: Sys, e: Event)
    requires GoodRun(sys, setup, events) && Run(sys, setup, events) == Some(mid)
    requires Enabled(mid, e) && Respectful(mid, e)
    ensures GoodRun(sys, setup, events + [e]) && Run(sys, setup, events + [e]) == Some(Next(mid, setup, e))
    decreases |events|
  {
    if events == [] {
      assert events + [e] == [e] && [e][1..] == [];
    } else {
      OneStepMore(Next(sys, setup, events[0]), setup, events[1..], mid, e);
      assert (events + [e])[1..] == events[1..] + [e];
    }
  }

  lemma Step(sys: Sys, setup: Setup, events: seq<Event>, mid: Sys, e: Event, after: Sys)
    requires Leads(sys, setup, events, mid) && Enabled(mid, e) && Respectful(mid, e) && Next(mid, setup, e) == after
    ensures Leads(sys, setup, events + [e], after)
  {
    OneStepMore(sys, setup, events, mid, e);
  }

  // ----- deploying

  /** The first SSP object, in its successive versions. */
  function Version(spec: SspSpec, labels: StringMap, version: nat, finalizers: set<string>, status: Status): SspObject {
    SspObject(1, version, 1, spec, labels, false, false, finalizers, status)
  }

  const DEPLOYING := FRESH_STATUS.(phase := Deploying, observed := 1)

  function Created(spec: SspSpec, labels: StringMap): Sys {
    START.(log := [None, Some(Version(spec, labels, 1, {}, FRESH_STATUS))], nextUid := 2, nextVersion := 2)
  }

  function Armed(spec: SspSpec, labels: StringMap): Sys {
    var o := Version(spec, labels, 2, {FINALIZER}, FRESH_STATUS);
    Created(spec, labels).(log := Created(spec, labels).log + [Some(o)], seen := 1, nextVersion := 3, armed := {1},
                           pc := WriteDeploying(o))
  }

  function Announced(spec: SspSpec, labels: StringMap): Sys {
    var o := Version(spec, labels, 3, {FINALIZER}, DEPLOYING);
    Armed(spec, labels).(log := Armed(spec, labels).log + [Some(o)], seen := 3, nextVersion := 4, pc := Idle)
  }

  function Operated(spec: SspSpec, labels: StringMap, results: Results, server: ApiServer.Server): Sys {
    Announced(spec, labels).(server := server, touched := {1}, completed := Some(Report(1, 1, spec, AllGood(results))),
                             pc := WriteReport(Version(spec, labels, 3, {FINALIZER}, DEPLOYING), results))
  }

  function Reported(spec: SspSpec, labels: StringMap, results: Results, server: ApiServer.Server): Sys {
    var before := Operated(spec, labels, results, server);
    var p := Version(spec, labels, 3, {FINALIZER}, DEPLOYING);
    var o := Version(spec, labels, 4, {FINALIZER}, ReportStatus(p, results));
    before.(log := before.log + [Some(o)], seen := 4, nextVersion := 5, reported := before.completed,
            acknowledged := true, pc := Idle)
  }

  function Installation(spec: SspSpec, labels: StringMap): seq<Event> {
    [] + [User(Create(spec, labels, false, {}))] + [Sync(1)] + [Begin] + [Write(NoFault)]
  }

  function Announcement(spec: SspSpec, labels: StringMap): seq<Event> {
    Installation(spec, labels) + [Write(NoFault)] + [Sync(3)]
  }

  function Deployment(spec: SspSpec, labels: StringMap, results: Results, server: ApiServer.Server): seq<Event> {
    Announcement(spec, labels) + [Begin] + [Operands(Finished(results), server)] + [Write(NoFault)] + [Sync(4)]
  }

  lemma ReachesArmed(setup: Setup, spec: SspSpec, labels: StringMap)
    ensures Reaches(setup, Installation(spec, labels), Armed(spec, labels))
  {
    var o := Version(spec, labels, 1, {}, FRESH_STATUS);
    var made := Created(spec, labels);
    var synced := made.(seen := 1);
    var begun := synced.(pc := WriteFinalizer(o, {FINALIZER}));
    LeadsNowhere(START, setup);
    var e1 := [] + [User(Create(spec, labels, false, {}))];
    Step(START, setup, [], START, User(Create(spec, labels, false, {})), made);
    Step(START, setup, e1, made, Sync(1), synced);
    assert {} + {FINALIZER} == {FINALIZER};
    Step(START, setup, e1 + [Sync(1)], synced, Begin, begun);
    Step(START, setup, e1 + [Sync(1)] + [Begin], begun, Write(NoFault), Armed(spec, labels));
  }

  lemma ReachesAnnounced(setup: Setup, spec: SspSpec, labels: StringMap)
    ensures Reaches(setup, Announcement(spec, labels), Announced(spec, labels))
  {
    ReachesArmed(setup, spec, labels);
    var written := Announced(spec, labels).(seen := 1);
    Step(START, setup, Installation(spec, labels), Armed(spec, labels), Write(NoFault), written);
    Step(START, setup, Installation(spec, labels) + [Write(NoFault)], written, Sync(3), Announced(spec, labels));
  }

  lemma ReachesReported(setup: Setup, spec: SspSpec, labels: StringMap, results: Results, server: ApiServer.Server)
    ensures Reaches(setup, Deployment(spec, labels, results, server), Reported(spec, labels, results, server))
  {
    ReachesAnnounced(setup, spec, labels);
    var announced, operated := Announced(spec, labels), Operated(spec, labels, results, server);
    var begun := announced.(pc := Reconciling(Version(spec, labels, 3, {FINALIZER}, DEPLOYING)));
    var reported := Reported(spec, labels, results, server);
    var e0 := Announcement(spec, labels);
    Step(START, setup, e0, announced, Begin, begun);
    Step(START, setup, e0 + [Begin], begun, Operands(Finished(results), server), operated);
    var ran := e0 + [Begin] + [Operands(Finished(results), server)];
    Step(START, setup, ran, operated, Write(NoFault), reported.(seen := 3));
    var e1 := e0 + [Begin] + [Operands(Finished(results), server)] + [Write(NoFault)];
    Step(START, setup, e1, reported.(seen := 3), Sync(4), reported);
  }

  /** For every spec there is a run after which the object is deployed and nothing is going on. */
  lemma ReachesRest(setup: Setup, spec: SspSpec, labels: StringMap, results: Results, server: ApiServer.Server)
    requires AllGood(results)
    ensures Reaches(setup, Deployment(spec, labels, results, server), Reported(spec, labels, results, server))
    ensures AtRest(Reported(spec, labels, results, server))
  {
    ReachesReported(setup, spec, labels, results, server);
    RunKeepsSafe(START, setup, Deployment(spec, labels, results, server));
    assert OLD_FINALIZER !in {FINALIZER} by { assert FINALIZER[0] == 's' && OLD_FINALIZER[0] == 'f'; }
  }

  lemma {:induction false} RunsJoin(sys: Sys, setup: Setup, events: seq<Event>, mid: Sys, more: seq<Event>)
    requires GoodRun(sys, setup, events) && Run(sys, setup, events) == Some(mid) && GoodRun(mid, setup, more)
    ensures GoodRun(sys, setup, events + more) && Run(sys, setup, events + more) == Run(mid, setup, more)
    decreases |events|
  {
    if events == [] {
      assert events + more == more;
    } else {
      RunsJoin(Next(sys, setup, events[0]), setup, events[1..], mid, more);
      assert (events + more)[1..] == events[1..] + more;
    }
  }

  /** So there is a whole run in which the claim outlives a failed pass. */
  lemma LostReportIsReachable(
    setup: Setup, spec: SspSpec, labels: StringMap, good: Results, bad: Results, server: ApiServer.Server)
    requires AllGood(good) && !AllGood(bad)
    ensures var p := Version(spec, labels, 3, {FINALIZER}, DEPLOYING);
            var o := Version(spec, labels, 4, {FINALIZER}, ReportStatus(p, good));
            var events := Deployment(spec, labels, good, server) + LostReport(o, bad, server, labels);
            && GoodRun(START, setup, events)
            && Run(START, setup, events).Some?
            && var after := Run(START, setup, events).value;
               after.log != [] && ClaimsDeployed(after) && after.completed.Some? && !after.completed.value.ok
  {
    var rest := Reported(spec, labels, good, server);
    ReachesRest(setup, spec, labels, good, server);
    LostReportLeavesClaim(rest, setup, bad, server, labels);
    RunsJoin(START, setup, Deployment(spec, labels, good, server), rest,
             LostReport(Head(rest).value, bad, server, labels));
  }

  // ----- deleting while the informer shows nothing

  function BlindReadings(): SweepReadings {
    (_: nat) => OperandReadings(Blind(), Blind())
  }

  lemma BlindFindsNothing(ssp: Identity, parts: seq<Part>, order: Listing, s: ApiServer.Server)
    ensures PhaseFound(s, ssp, parts, order, Blind())
  {
  }

  lemma BlindSweepIsClear(s: ApiServer.Server, ssp: Identity, ops: seq<Operand>, order: Listing)
    ensures var swept := SweepSeen(s, ssp, ops, order, BlindReadings()); Clear(swept.findings) && swept.server == s
  {
    forall i: nat | i < |ops| ensures OperandFound(s, ssp, ops[i], order, BlindReadings()(i)) {
      BlindFindsNothing(ssp, ops[i].parts, order, s);
      BlindFindsNothing(ssp, [ALL_CRONS], order, s);
    }
    SweepSeenIsClearIff(s, ssp, ops, order, BlindReadings());
  }

  /** The deployed object after somebody has asked for its deletion. */
  function Removed(sys: Sys, o: SspObject): Sys {
    sys.(log := sys.log + [Some(Leaving(sys, o))], seen := |sys.log|, nextVersion := sys.nextVersion + 1)
  }

  function Leaving(sys: Sys, o: SspObject): SspObject {
    o.(deleting := true, generation := o.generation + 1, version := sys.nextVersion)
  }

  function Condemned(sys: Sys, o: SspObject): Sys {
    var before, base := Removed(sys, o), Leaving(sys, o);
    var stored := base.(status := StatusFor(WriteDeleting(base)), version := before.nextVersion);
    before.(log := before.log + [Some(stored)], nextVersion := before.nextVersion + 1, pc := Sweeping(stored))
  }

  function Removal(sys: Sys): seq<Event> {
    [] + [User(Remove)] + [Sync(|sys.log|)] + [Begin] + [Write(NoFault)]
  }

  lemma LeadsToSweep(sys: Sys, setup: Setup, o: SspObject)
    requires AtRest(sys) && Head(sys) == Some(o) && o.finalizers == {FINALIZER}
    ensures Leads(sys, setup, Removal(sys), Condemned(sys, o))
  {
    var asked := Removed(sys, o).(seen := sys.seen);
    var begun := Removed(sys, o).(pc := WriteDeleting(Leaving(sys, o)));
    LeadsNowhere(sys, setup);
    var e1 := [] + [User(Remove)];
    Step(sys, setup, [], sys, User(Remove), asked);
    Step(sys, setup, e1, asked, Sync(|sys.log|), Removed(sys, o));
    Step(sys, setup, e1 + [Sync(|sys.log|)], Removed(sys, o), Begin, begun);
    Step(sys, setup, e1 + [Sync(|sys.log|)] + [Begin], begun, Write(NoFault), Condemned(sys, o));
  }

  function BlindSweep(order: Listing, server: ApiServer.Server): Event {
    SweepStep(order, BlindReadings(), false, server)
  }

  lemma BlindSweepDrops(sys: Sys, setup: Setup, order: Listing, server: ApiServer.Server)
    requires sys.log != [] && sys.pc.Sweeping?
    ensures Next(sys, setup, BlindSweep(order, server)) ==
            sys.(swept := sys.swept[sys.pc.base.uid := Check(sys.server, order, BlindReadings())],
                 pc := DropFinalizer(sys.pc.base))
  {
    BlindSweepIsClear(sys.server, Identity(setup.owner, sys.pc.base.uid), setup.operands, order);
    var swept := SweepOf(sys, setup, order, BlindReadings());
    SweepStepIs(sys, setup, order, BlindReadings(), swept, server);
    ClearDrops(sys, swept, Check(sys.server, order, BlindReadings()));
  }

  lemma ClearDrops(sys: Sys, swept: Swept, check: Check)
    requires sys.pc.Sweeping? && Clear(swept.findings) && swept.server == sys.server
    ensures SweepResult(sys, swept, check) ==
            sys.(swept := sys.swept[sys.pc.base.uid := check], pc := DropFinalizer(sys.pc.base))
  {
  }

  lemma LastFinalizerGoes(sys: Sys)
    requires sys.log != [] && sys.pc.DropFinalizer? && Head(sys) == Some(sys.pc.base)
    requires sys.pc.base.deleting && sys.pc.base.finalizers == {FINALIZER}
    ensures Call(sys, NoFault) == sys.(log := sys.log + [None], pc := WriteDeleted(sys.pc.base))
  {
  }

  /**
   From every state of rest: the object is deleted, the sweep reads from an informer that shows
   nothing, and the object goes while the cluster still holds all that its operands deployed.
   */
  lemma BlindSweepOrphans(sys: Sys, setup: Setup, order: Listing, o: SspObject)
    requires AtRest(sys) && Head(sys) == Some(o) && o.finalizers == {FINALIZER} && Enumerates(order)
    ensures var events := Removal(sys) + [BlindSweep(order, sys.server)] + [Write(NoFault)];
            && GoodRun(sys, setup, events)
            && Run(sys, setup, events).Some?
            && var after := Run(sys, setup, events).value;
               after.log != [] && Head(after) == None && after.server == sys.server && after.touched == sys.touched
  {
    var condemned := Condemned(sys, o);
    LeadsToSweep(sys, setup, o);
    BlindSweepDrops(condemned, setup, order, sys.server);
    var dropping := Next(condemned, setup, BlindSweep(order, sys.server));
    Step(sys, setup, Removal(sys), condemned, BlindSweep(order, sys.server), dropping);
    LastFinalizerGoes(dropping);
    Step(sys, setup, Removal(sys) + [BlindSweep(order, sys.server)], dropping, Write(NoFault), Call(dropping, NoFault));
  }

  /** So whatever a first pass deploys can outlive the SSP object. */
  lemma OrphansAreReachable(
    setup: Setup, order: Listing, spec: SspSpec, labels: StringMap, results: Results, server: ApiServer.Server)
    requires AllGood(results) && Enumerates(order)
    ensures var rest := Reported(spec, labels, results, server);
            var events := Deployment(spec, labels, results, server) +
                          (Removal(rest) + [BlindSweep(order, server)] + [Write(NoFault)]);
            && GoodRun(START, setup, events)
            && Run(START, setup, events).Some?
            && var after := Run(START, setup, events).value;
               after.log != [] && Head(after) == None && 1 in after.touched && after.server == server
  {
    var rest := Reported(spec, labels, results, server);
    ReachesRest(setup, spec, labels, results, server);
    BlindSweepOrphans(rest, setup, order, Head(rest).value);
    RunsJoin(START, setup, Deployment(spec, labels, results, server), rest,
             Removal(rest) + [BlindSweep(order, server)] + [Write(NoFault)]);
  }
}

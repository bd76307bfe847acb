/**
 The SSP controller as a protocol: every API call of a pass is a step, and between any two
 steps users edit the SSP object, the cluster changes, the informer lags or the operator
 restarts.
 */
module Lifecycle {
  import opened Kube
  import opened ApiServer
  import opened Ssp
  import opened DataSourceOperand
  import opened Cleanup

  const FINALIZER := "ssp.kubevirt.io/finalizer"
  const OLD_FINALIZER := "finalize.ssp.kubevirt.io"

  datatype Phase = NoPhase | Deploying | Deployed | Deleting | Deleted

  datatype Status = Status(
    phase: Phase,
    observed: nat,
    available: Option<bool>,
    progressing: Option<bool>,
    degraded: Option<bool>,
    paused: bool)

  datatype SspObject = SspObject(
    uid: nat,
    version: nat,
    generation: nat,
    spec: SspSpec,
    labels: StringMap,
    pauseRequested: bool,
    deleting: bool,
    finalizers: set<string>,
    status: Status)

  const FRESH_STATUS := Status(NoPhase, 0, None, None, None, false)

  predicate Protected(o: SspObject) {
    FINALIZER in o.finalizers || OLD_FINALIZER in o.finalizers
  }

  /** Where a pass is; each constructor holds the object as the server last returned it. */
  datatype Pc =
    | Idle
    | WriteFinalizer(base: SspObject, finalizers: set<string>)
    | WriteDeploying(base: SspObject)
    | WriteDeleting(base: SspObject)
    | Sweeping(base: SspObject)
    | DropFinalizer(base: SspObject)
    | WriteDeleted(base: SspObject)
    | WritePaused(base: SspObject)
    | WriteMissing(base: SspObject)
    | WritePre(base: SspObject)
    | Reconciling(base: SspObject)
    | WriteReport(base: SspObject, results: Results)
    | WriteError(base: SspObject, afterPre: bool)

  /** The messages of one reconcile result; true means that the message is present. */
  datatype ResourceStatus = ResourceStatus(progressing: bool, notAvailable: bool, degraded: bool)

  /** What the operands of one pass return. */
  type Results = seq<ResourceStatus>

  predicate IsSuccess(r: ResourceStatus) {
    !r.progressing && !r.notAvailable && !r.degraded
  }

  predicate AllGood(results: Results) {
    forall r <- results :: IsSuccess(r)
  }

  /** One operand pass: the object it ran for, and whether every result was a success. */
  datatype Report = Report(uid: nat, generation: nat, spec: SspSpec, ok: bool)

  /** What a sweep met and what it read. */
  datatype Check = Check(server: Server, order: Listing, readings: SweepReadings)

  datatype Sys = Sys(
    log: seq<Option<SspObject>>, // what the server stored, newest last
    seen: nat, // how far the informer has come
    nextUid: nat,
    nextVersion: nat,
    pc: Pc,
    crdsMissing: bool,
    server: Server, // everything the operands manage
    // history
    armed: set<nat>, // objects on which a write with the finalizer was accepted
    touched: set<nat>, // objects on whose behalf operands were reconciled
    late: set<nat>, // objects for which that happened after they had been swept
    swept: map<nat, Check>, // the sweep after which the finalizer may go
    completed: Option<Report>, // the last operand pass that ran to its end
    reported: Option<Report>, // the last one whose report was accepted
    hidden: bool, // missing CRDs were reported after that
    acknowledged: bool) // the report of the last pass that ran to its end was accepted

  function Head(sys: Sys): Option<SspObject>
    requires sys.log != []
  {
    sys.log[|sys.log| - 1]
  }

  // ----- the server's side

  function Append(sys: Sys, o: Option<SspObject>): Sys {
    if o.Some?
    then sys.(log := sys.log + [Some(o.value.(version := sys.nextVersion))], nextVersion := sys.nextVersion + 1)
    else sys.(log := sys.log + [None])
  }

  datatype Answer = Refused(error: ApiError) | Accepted(o: Option<SspObject>)

  /** An update of everything but the status. */
  function AnswerUpdate(sys: Sys, base: SspObject, finalizers: set<string>): Answer
    requires sys.log != []
  {
    if Head(sys).None? then Refused(NotFound)
    else
      var current := Head(sys).value;
      if current.uid != base.uid || current.version != base.version then Refused(Conflict)
      else if current.deleting && !(finalizers <= current.finalizers) then Refused(Forbidden)
      else if current.deleting && finalizers == {} then Accepted(None)
      else Accepted(Some(current.(finalizers := finalizers)))
  }

  function AnswerStatus(sys: Sys, base: SspObject, status: Status): Answer
    requires sys.log != []
  {
    if Head(sys).None? then Refused(NotFound)
    else
      var current := Head(sys).value;
      if current.uid != base.uid || current.version != base.version then Refused(Conflict)
      else Accepted(Some(current.(status := status)))
  }

  datatype Fault = NoFault | CallFails | ReplyLost

  // ----- the operator's side

  /** The branches at the start of a pass. */
  function Dispatch(o: SspObject, crdsMissing: bool): Pc {
    if !o.deleting && o.status.phase.NoPhase? then
      WriteFinalizer(o, o.finalizers + {FINALIZER})
    else if OLD_FINALIZER in o.finalizers then
      WriteFinalizer(o, (o.finalizers - {OLD_FINALIZER}) + {FINALIZER})
    else if o.deleting then
      if Protected(o) then WriteDeleting(o) else WriteDeleted(o)
    else if o.pauseRequested then
      if o.status.paused then Idle else WritePaused(o)
    else if crdsMissing then WriteMissing(o)
    else if o.status.observed == 0 || o.status.observed != o.generation then WritePre(o)
    else Reconciling(o)
  }

  function Troubled(s: Status): Status {
    s.(available := Some(false), progressing := Some(true), degraded := Some(true))
  }

  function PreStatus(o: SspObject): Status {
    Troubled(o.status).(phase := Deploying, observed := o.generation, paused := false)
  }

  function ReportStatus(o: SspObject, results: Results): Status {
    Status(if AllGood(results) then Deployed else Deploying, o.generation,
           Some(!exists r <- results :: r.notAvailable),
           Some(exists r <- results :: r.progressing),
           Some(exists r <- results :: r.degraded),
           false)
  }

  /** The status a write step sends. */
  function StatusFor(pc: Pc): Status {
    match pc
    case WriteDeploying(o) => o.status.(phase := Deploying, observed := o.generation)
    case WriteDeleting(o) => Troubled(o.status).(phase := Deleting, observed := o.generation)
    case WriteDeleted(o) => o.status.(phase := Deleted, observed := o.generation)
    case WritePaused(o) => o.status.(paused := true)
    case WriteMissing(o) => Troubled(o.status)
    case WritePre(o) => PreStatus(o)
    case WriteReport(o, results) => ReportStatus(o, results)
    case WriteError(o, afterPre) => Troubled(if afterPre then PreStatus(o) else o.status).(phase := Deploying)
    case _ => FRESH_STATUS
  }

  /** Where a pass goes on after a write. */
  function AfterWrite(pc: Pc, answer: Answer): Pc {
    match (pc, answer)
    case (WriteFinalizer(_, _), Accepted(Some(o))) => WriteDeploying(o)
    case (WriteDeleting(_), Accepted(Some(o))) => Sweeping(o)
    case (DropFinalizer(base), Accepted(o)) => WriteDeleted(if o.Some? then o.value else base)
    case (WritePre(_), Accepted(Some(o))) => Reconciling(o)
    case (WritePre(base), Refused(error)) => if error.Conflict? then Idle else WriteError(base, true)
    case _ => Idle
  }

  predicate IsWrite(pc: Pc) {
    !pc.Idle? && !pc.Sweeping? && !pc.Reconciling?
  }

  predicate IsStatusWrite(pc: Pc) {
    IsWrite(pc) && !pc.WriteFinalizer? && !pc.DropFinalizer?
  }

  function AnswerTo(sys: Sys): Answer
    requires sys.log != [] && IsWrite(sys.pc)
  {
    var base := sys.pc.base;
    if sys.pc.WriteFinalizer? then AnswerUpdate(sys, base, sys.pc.finalizers)
    else if sys.pc.DropFinalizer? then AnswerUpdate(sys, base, base.finalizers - {FINALIZER, OLD_FINALIZER})
    else AnswerStatus(sys, base, StatusFor(sys.pc))
  }

  /** History that an accepted write leaves. */
  function Recorded(sys: Sys): Sys {
    match sys.pc
    case WriteFinalizer(base, _) => sys.(armed := sys.armed + {base.uid})
    case WriteReport(base, results) =>
      sys.(reported := Some(Report(base.uid, base.generation, base.spec, AllGood(results))), hidden := false,
           acknowledged := true)
    case WriteMissing(_) => sys.(hidden := true)
    case _ => sys
  }

  function Call(sys: Sys, fault: Fault): Sys
    requires sys.log != [] && IsWrite(sys.pc)
  {
    var answer := if fault.CallFails? then Refused(Unavailable) else AnswerTo(sys);
    if answer.Refused? then
      sys.(pc := AfterWrite(sys.pc, answer))
    else
      var stored := Append(Recorded(sys), answer.o);
      stored.(pc := AfterWrite(sys.pc, if fault.ReplyLost? then Refused(Unavailable) else Accepted(Head(stored))))
  }

  // ----- events

  datatype SspEdit =
    | Create(spec: SspSpec, labels: StringMap, pauseRequested: bool, finalizers: set<string>)
    | Edit(spec: SspSpec, labels: StringMap, pauseRequested: bool, finalizers: set<string>)
    | Remove

  datatype OperandOutcome = Finished(results: Results) | ConflictError | OtherError

  datatype Event =
    | User(edit: SspEdit)
    | Cluster(server: Server) // anything that happens to operand objects
    | Sync(seen: nat)
    | Restart(crdsMissing: bool)
    | Begin
    | Write(fault: Fault)
    | Operands(outcome: OperandOutcome, server: Server)
    | SweepStep(order: Listing, readings: SweepReadings, failed: bool, server: Server)

  function Edited(sys: Sys, edit: SspEdit): Sys
    requires sys.log != []
  {
    match edit
    case Create(spec, labels, pauseRequested, finalizers) =>
      if Head(sys).Some? then sys
      else
        var made := SspObject(sys.nextUid, 0, 1, spec, labels, pauseRequested, false, finalizers, FRESH_STATUS);
        Append(sys.(nextUid := sys.nextUid + 1), Some(made))
    case Edit(spec, labels, pauseRequested, finalizers) =>
      if Head(sys).None? then sys
      else
        var o := Head(sys).value;
        if o.deleting && !(finalizers <= o.finalizers) then sys
        else if o.deleting && finalizers == {} then Append(sys, None)
        else
          var generation := if spec != o.spec then o.generation + 1 else o.generation;
          Append(sys, Some(o.(spec := spec, labels := labels, pauseRequested := pauseRequested,
                              finalizers := finalizers, generation := generation)))
    case Remove =>
      if Head(sys).None? then sys
      else
        var o := Head(sys).value;
        if o.finalizers == {} then Append(sys, None)
        else if o.deleting then sys
        else Append(sys, Some(o.(deleting := true, generation := o.generation + 1)))
  }

  datatype Setup = Setup(owner: Owner, operands: seq<Operand>)

  ghost predicate Enabled(sys: Sys, e: Event) {
    && sys.log != []
    && match e
       case Sync(seen) => sys.seen <= seen < |sys.log|
       case Begin => sys.pc.Idle? && sys.seen < |sys.log|
       case Write(_) => IsWrite(sys.pc)
       case Operands(_, _) => sys.pc.Reconciling?
       case SweepStep(order, _, _, _) => sys.pc.Sweeping? && Enumerates(order)
       case _ => true
  }

  /** The informer may show anything while the objects to clean up are listed and read. */
  function SweepOf(sys: Sys, setup: Setup, order: Listing, readings: SweepReadings): Swept
    requires sys.pc.Sweeping?
  {
    SweepSeen(sys.server, Identity(setup.owner, sys.pc.base.uid), setup.operands, order, readings)
  }

  function Touch(sys: Sys, uid: nat): Sys {
    sys.(touched := sys.touched + {uid}, late := if uid in sys.swept then sys.late + {uid} else sys.late)
  }

  function BeginStep(sys: Sys): Sys
    requires sys.seen < |sys.log|
  {
    var o := sys.log[sys.seen];
    if o.None? then sys else sys.(pc := Dispatch(o.value, sys.crdsMissing))
  }

  function OperandStep(sys: Sys, outcome: OperandOutcome, server: Server): Sys
    requires sys.pc.Reconciling?
  {
    var base := sys.pc.base;
    var after := Touch(sys.(server := server), base.uid);
    match outcome
    case Finished(results) =>
      after.(completed := Some(Report(base.uid, base.generation, base.spec, AllGood(results))),
             acknowledged := false,
             pc := WriteReport(base, results))
    case ConflictError => after.(pc := Idle)
    case OtherError => after.(pc := WriteError(base, false))
  }

  function SweepResult(sys: Sys, swept: Swept, check: Check): Sys
    requires sys.pc.Sweeping?
  {
    if Clear(swept.findings)
    then sys.(server := swept.server, swept := sys.swept[sys.pc.base.uid := check], pc := DropFinalizer(sys.pc.base))
    else sys.(server := swept.server, pc := Idle)
  }

  function Next(sys: Sys, setup: Setup, e: Event): Sys
    requires sys.log != []
    requires e.Begin? ==> sys.seen < |sys.log|
    requires e.Write? ==> IsWrite(sys.pc)
    requires e.Operands? ==> sys.pc.Reconciling?
    requires e.SweepStep? ==> sys.pc.Sweeping?
  {
    match e
    case User(edit) => Edited(sys, edit)
    case Cluster(server) => sys.(server := server)
    case Sync(seen) => sys.(seen := seen)
    case Restart(crdsMissing) => sys.(pc := Idle, crdsMissing := crdsMissing)
    case Begin => BeginStep(sys)
    case Write(fault) => Call(sys, fault)
    case Operands(outcome, server) => OperandStep(sys, outcome, server)
    case SweepStep(order, readings, failed, server) =>
      if failed then sys.(server := server, pc := Idle)
      else SweepResult(sys, SweepOf(sys, setup, order, readings), Check(sys.server, order, readings))
  }
}

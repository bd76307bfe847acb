/** Removing everything an SSP object owns, operand by operand, before its finalizer goes. */
module Cleanup {
  import opened Kube
  import opened Sequences
  import opened ApiServer
  import opened UpdateFuncs
  import opened DataSourceOperand
  import opened Reconciler

  /** The SSP object as an owner: annotations name it, owner references also carry its uid. */
  datatype Identity = Identity(owner: Owner, uid: nat)

  function ControllerRef(ssp: Identity): OwnerRef {
    OwnerRef(ssp.owner.name, ssp.uid)
  }

  datatype Ownership = Owned | NotOwned | Panics

  /** The owner references the expected object has when it is compared. */
  function ExpectedRefs(ssp: Identity, expected: Object): seq<OwnerRef> {
    if expected.key.namespace == ssp.owner.namespace then [ControllerRef(ssp)] else expected.ownerRefs
  }

  /** The comparison indexes the first expected reference, which may not exist. */
  function OwnershipOf(ssp: Identity, expected: Object, found: Object): Ownership {
    var refs := ExpectedRefs(ssp, expected);
    if found.ownerRefs != [] && refs == [] then Panics
    else if found.ownerRefs != [] && refs[0] in found.ownerRefs then Owned
    else if found.annotations != map[]
            && GetOrEmpty(found.annotations, TYPE_ANNOTATION) == SSP_TYPE
            && GetOrEmpty(found.annotations, NAME_ANNOTATION) == OwnerName(ssp.owner)
    then Owned
    else NotOwned
  }

  /** It panics exactly for an object with owner references that is expected outside the SSP's namespace without any. */
  lemma PanicsIff(ssp: Identity, expected: Object, found: Object)
    ensures OwnershipOf(ssp, expected, found).Panics? <==>
              found.ownerRefs != [] && expected.ownerRefs == [] && expected.key.namespace != ssp.owner.namespace
  {
  }

  /** What cleanup found out about one object. */
  datatype Verdict = Absent | Foreign | Requested | Crashed

  datatype Finding = Finding(key: Key, verdict: Verdict)

  datatype Swept = Swept(server: Server, findings: seq<Finding>)

  /** The verdict on what a read returned, which may be an old version, or nothing although there is an object. */
  function Judge(ssp: Identity, expected: Object, seen: Option<Object>): Verdict {
    if seen.None? then Absent
    else
      match OwnershipOf(ssp, expected, seen.value)
      case Panics => Crashed
      case NotOwned => Foreign
      case Owned => Requested
  }

  /** A delete is sent for an object that was read as owned and live. */
  predicate Deletes(ssp: Identity, expected: Object, seen: Option<Object>) {
    Judge(ssp, expected, seen).Requested? && !seen.value.terminating
  }

  /** A delete that finds nothing counts as done. */
  function VerdictSeen(s: Server, ssp: Identity, expected: Object, seen: Option<Object>): Verdict {
    if Deletes(ssp, expected, seen) && expected.key !in s.objects then Absent else Judge(ssp, expected, seen)
  }

  function CleanupSeen(s: Server, ssp: Identity, expected: Object, seen: Option<Object>): Server {
    if Deletes(ssp, expected, seen) then Delete(s, expected.key).server else s
  }

  /** The verdict on an object that is read as it is stored. */
  function VerdictOn(s: Server, ssp: Identity, expected: Object): Verdict {
    if expected.key !in s.objects then Absent
    else
      match OwnershipOf(ssp, expected, s.objects[expected.key])
      case Panics => Crashed
      case NotOwned => Foreign
      case Owned => Requested
  }

  /** The two verdicts that leave nothing to wait for. */
  predicate Harmless(v: Verdict) {
    v.Absent? || v.Foreign?
  }

  predicate Clear(findings: seq<Finding>) {
    forall f <- findings :: Harmless(f.verdict)
  }

  /** A panic has ended the pass. */
  predicate HasCrash(findings: seq<Finding>) {
    exists f <- findings :: f.verdict.Crashed?
  }

  function CleanupOne(s: Server, ssp: Identity, expected: Object): Server {
    if VerdictOn(s, ssp, expected).Requested? && !s.objects[expected.key].terminating
    then Delete(s, expected.key).server
    else s
  }

  /** Nothing follows a panic. */
  function DeleteAll(s: Server, ssp: Identity, objects: seq<Object>): Swept {
    if objects == [] then Swept(s, [])
    else
      var n := |objects| - 1;
      var before := DeleteAll(s, ssp, objects[..n]);
      if HasCrash(before.findings) then before
      else Swept(CleanupOne(before.server, ssp, objects[n]),
                 before.findings + [Finding(objects[n].key, VerdictOn(before.server, ssp, objects[n]))])
  }

  /** What the reads of a loop over a list return, one after the other. */
  type Gets = nat -> Option<Object>

  function DeleteSeen(s: Server, ssp: Identity, objects: seq<Object>, gets: Gets): Swept {
    if objects == [] then Swept(s, [])
    else
      var n := |objects| - 1;
      var before := DeleteSeen(s, ssp, objects[..n], gets);
      if HasCrash(before.findings) then before
      else Swept(CleanupSeen(before.server, ssp, objects[n], gets(n)),
                 before.findings + [Finding(objects[n].key, VerdictSeen(before.server, ssp, objects[n], gets(n)))])
  }

  // ----- what operands clean up

  /** The order in which a list call returns objects. */
  type Listing = set<Key> -> seq<Key>

  ghost predicate Enumerates(order: Listing) {
    forall keys, key :: key in order(keys) <==> key in keys
  }

  /** Listed objects are their own expectation; known ones are built by the operand. */
  datatype Part =
    | Known(o: Object)
    | OwnedKind(kind: Kind, within: Option<string>)
    | Labelled(kind: Kind, within: Option<string>, name: Option<string>, labels: StringMap)

  predicate Selects(ssp: Identity, part: Part, o: Object)
    requires !part.Known?
  {
    && o.key.kind == part.kind
    && (part.within.Some? ==> o.key.namespace == part.within.value)
    && match part
       case OwnedKind(_, _) => OwnedBy(o, ssp.owner)
       case Labelled(_, _, name, labels) =>
         && (name.Some? ==> o.key.name == name.value)
         && forall k <- labels :: Lookup(o.labels, k) == Some(labels[k])
  }

  function Pick(s: Server): Key -> seq<Object> {
    (key: Key) => if key in s.objects then [s.objects[key]] else []
  }

  function PartList(s: Server, ssp: Identity, part: Part, order: Listing): seq<Object> {
    if part.Known? then [part.o]
    else FlatMap(order(set key | key in s.objects && Selects(ssp, part, s.objects[key])), Pick(s))
  }

  function PartStep(s: Server, ssp: Identity, order: Listing): Part -> seq<Object> {
    (part: Part) => PartList(s, ssp, part, order)
  }

  function Gathered(s: Server, ssp: Identity, parts: seq<Part>, order: Listing): seq<Object> {
    FlatMap(parts, PartStep(s, ssp, order))
  }

  /** The data-sources operand deletes the rest only when no owned cron is left. */
  datatype Operand = Gather(parts: seq<Part>) | CronsFirst(parts: seq<Part>)

  const ALL_CRONS := OwnedKind(DATA_IMPORT_CRON, None)

  function CleanupOperand(s: Server, ssp: Identity, op: Operand, order: Listing): Swept {
    match op
    case Gather(parts) => DeleteAll(s, ssp, Gathered(s, ssp, parts, order))
    case CronsFirst(parts) =>
      var crons := DeleteAll(s, ssp, PartList(s, ssp, ALL_CRONS, order));
      if !Clear(crons.findings) then crons
      else DeleteAll(crons.server, ssp, Gathered(crons.server, ssp, parts, order))
  }

  function Sweep(s: Server, ssp: Identity, ops: seq<Operand>, order: Listing): Swept {
    if ops == [] then Swept(s, [])
    else
      var n := |ops| - 1;
      var before := Sweep(s, ssp, ops[..n], order);
      if HasCrash(before.findings) then before
      else
        var last := CleanupOperand(before.server, ssp, ops[n], order);
        Swept(last.server, before.findings + last.findings)
  }

  // ----- the same from an informer's cache

  /** What the informer shows while one list after the other is made, and then object after object is read. */
  datatype Readings = Readings(list: Part -> Server, gets: Gets)

  datatype OperandReadings = OperandReadings(crons: Readings, rest: Readings)

  type SweepReadings = nat -> OperandReadings

  function ShownStep(ssp: Identity, order: Listing, list: Part -> Server): Part -> seq<Object> {
    (part: Part) => PartList(list(part), ssp, part, order)
  }

  /** The objects that the lists show. */
  function Shown(ssp: Identity, parts: seq<Part>, order: Listing, r: Readings): seq<Object> {
    FlatMap(parts, ShownStep(ssp, order, r.list))
  }

  function PhaseSeen(s: Server, ssp: Identity, parts: seq<Part>, order: Listing, r: Readings): Swept {
    DeleteSeen(s, ssp, Shown(ssp, parts, order, r), r.gets)
  }

  function OperandSeen(s: Server, ssp: Identity, op: Operand, order: Listing, r: OperandReadings): Swept {
    match op
    case Gather(parts) => PhaseSeen(s, ssp, parts, order, r.rest)
    case CronsFirst(parts) =>
      var crons := PhaseSeen(s, ssp, [ALL_CRONS], order, r.crons);
      if !Clear(crons.findings) then crons
      else PhaseSeen(crons.server, ssp, parts, order, r.rest)
  }

  function SweepSeen(s: Server, ssp: Identity, ops: seq<Operand>, order: Listing, readings: SweepReadings): Swept {
    if ops == [] then Swept(s, [])
    else
      var n := |ops| - 1;
      var before := SweepSeen(s, ssp, ops[..n], order, readings);
      if HasCrash(before.findings) then before
      else
        var last := OperandSeen(before.server, ssp, ops[n], order, readings(n));
        Swept(last.server, before.findings + last.findings)
  }

  /** Deprecated templates are found by their label, whoever owns them. */
  function TemplatesOperand(namespace: string): Operand {
    Gather([Labelled(TEMPLATE, Some(namespace), None, map[DEPRECATED := "true"]), OwnedKind(TEMPLATE, None)])
  }

  // ----- pending objects

  predicate AnyRequested(findings: seq<Finding>) {
    exists f <- findings :: f.verdict.Requested?
  }

  // ----- the loops, run against the server object

  method CleanupObject(cluster: Cluster, ssp: Identity, expected: Object, seen: Option<Object>)
    returns (verdict: Verdict)
    modifies cluster
    ensures verdict == VerdictSeen(old(cluster.View()), ssp, expected, seen)
    ensures cluster.View() == CleanupSeen(old(cluster.View()), ssp, expected, seen)
  {
    if seen.None? { return Absent; }
    var found := seen.value;
    var ownership := OwnershipOf(ssp, expected, found);
    if ownership.Panics? { return Crashed; }
    if ownership.NotOwned? { return Foreign; }
    if !found.terminating {
      var outcome := cluster.Remove(expected.key);
      if outcome == Err(NotFound) { return Absent; }
    }
    return Requested;
  }

  lemma {:induction false} NothingFollowsCrash(s: Server, ssp: Identity, objects: seq<Object>, gets: Gets, n: nat)
    requires n <= |objects| && HasCrash(DeleteSeen(s, ssp, objects[..n], gets).findings)
    ensures DeleteSeen(s, ssp, objects, gets) == DeleteSeen(s, ssp, objects[..n], gets)
    decreases |objects|
  {
    if n == |objects| {
      assert objects[..n] == objects;
    } else {
      assert objects[..|objects| - 1][..n] == objects[..n];
      NothingFollowsCrash(s, ssp, objects[..|objects| - 1], gets, n);
    }
  }

  /** The loop ends early if the ownership comparison panics. */
  method DeleteObjects(cluster: Cluster, ssp: Identity, objects: seq<Object>, gets: Gets)
    returns (findings: seq<Finding>)
    modifies cluster
    ensures Swept(cluster.View(), findings) == DeleteSeen(old(cluster.View()), ssp, objects, gets)
  {
    findings := [];
    for i := 0 to |objects|
      invariant Swept(cluster.View(), findings) == DeleteSeen(old(cluster.View()), ssp, objects[..i], gets)
      invariant !HasCrash(findings)
    {
      assert objects[..i + 1][..i] == objects[..i];
      var verdict := CleanupObject(cluster, ssp, objects[i], gets(i));
      ghost var before := findings;
      findings := findings + [Finding(objects[i].key, verdict)];
      if verdict.Crashed? {
        assert findings[|before|].verdict.Crashed? && findings[|before|] in findings;
        NothingFollowsCrash(old(cluster.View()), ssp, objects, gets, i + 1);
        return;
      }
      assert forall f <- findings :: f in before || f == Finding(objects[i].key, verdict);
    }
    assert objects[..|objects|] == objects;
  }

  method CountPending(findings: seq<Finding>) returns (pending: nat)
    ensures pending > 0 <==> AnyRequested(findings)
  {
    pending := 0;
    for i := 0 to |findings|
      invariant pending > 0 <==> AnyRequested(findings[..i])
    {
      assert findings[..i + 1] == findings[..i] + [findings[i]];
      assert forall f <- findings[..i] :: f in findings[..i + 1];
      assert findings[i] in findings[..i + 1];
      if findings[i].verdict.Requested? { pending := pending + 1; }
    }
    assert findings[..|findings|] == findings;
  }
}

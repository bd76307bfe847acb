/**
 One call of the reconcile builder as a function of the stored state: read, mutate,
 compare, then create, update or delete, with the version cache deciding whether the
 update function has to run.
 */
module Engine {
  import opened Kube
  import opened ApiServer
  import opened UpdateFuncs

  datatype CacheKey = CacheKey(kind: string, namespace: string, name: string)

  datatype CacheEntry = CacheEntry(uid: nat, version: nat, generation: nat)

  type Cache = map<CacheKey, CacheEntry>

  function CacheKeyFor(key: Key): CacheKey {
    CacheKey(key.kind.name, key.namespace, key.name)
  }

  function CacheKeyOf(o: Object): CacheKey {
    CacheKeyFor(o.key)
  }

  predicate Matches(entry: CacheEntry, o: Object) {
    && o.uid == entry.uid
    && if o.generation == 0 then o.version != 0 && o.version == entry.version
       else entry.generation == o.generation
  }

  predicate Contains(c: Cache, o: Object) {
    CacheKeyOf(o) in c && Matches(c[CacheKeyOf(o)], o)
  }

  function Add(c: Cache, o: Object): Cache {
    if o.key.kind.name == "" then c
    else c[CacheKeyOf(o) := CacheEntry(o.uid, o.version, o.generation)]
  }

  function RemoveObj(c: Cache, o: Object): Cache {
    c - {CacheKeyOf(o)}
  }

  datatype Builder = Builder(expected: Object, update: UpdateFunc, immutableSpec: bool, always: bool)

  datatype Outcome = Unchanged | Created | Updated | Deleted

  /** What can go wrong with the calls of one pass; a lost reply hides a write that did happen. */
  datatype Fault = NoFault | ReadFails | WriteFails | ReplyLost

  datatype EngineResult = Failed(error: ApiError) | Done(outcome: Outcome, gone: bool)

  datatype Step = Step(server: Server, cache: Cache, result: EngineResult)

  function Mutate(b: Builder, c: Cache, found: Object): Object {
    if found.terminating then found
    else if b.always || !Contains(c, found) then Reworked(b.update, b.expected, found)
    else Merge(b.expected, found)
  }

  function Send(s: Server, w: Write, fault: Fault): Reply {
    match fault
    case WriteFails => Reply(s, Err(Unavailable))
    case ReplyLost => Reply(Apply(s, w).server, Err(Unavailable))
    case _ => Apply(s, w)
  }

  function Settle(s: Server, c: Cache, found: Object, outcome: Outcome): Step {
    if outcome.Deleted? || found.terminating
    then Step(s, RemoveObj(c, found), Done(outcome, true))
    else Step(s, Add(c, found), Done(outcome, false))
  }

  /** The one write a pass sends, if any. `seen` is what the read returned. */
  function WriteFor(b: Builder, c: Cache, seen: Option<Object>): Option<Write> {
    match seen
    case None => Some(CreateOp(Mutate(b, c, Blank(b.expected))))
    case Some(existing) =>
      var found := Mutate(b, c, existing);
      if found == existing then None
      else if b.immutableSpec && existing.spec != found.spec then Some(DeleteOp(found.key))
      else Some(UpdateOp(found))
  }

  function OutcomeOf(w: Write): Outcome {
    match w
    case CreateOp(_) => Created
    case DeleteOp(_) => Deleted
    case _ => Updated
  }

  /** What the reply to the one write means for cache and result. */
  function Conclude(c: Cache, seen: Option<Object>, w: Write, reply: Reply): Step
    requires w.DeleteOp? ==> seen.Some?
  {
    if reply.outcome.Err? then Step(reply.server, c, Failed(reply.outcome.error))
    else Settle(reply.server, c, if w.DeleteOp? then seen.value else reply.outcome.value, OutcomeOf(w))
  }

  /** `seen` may be an old version, or a false "not found". */
  function Reconcile(s: Server, c: Cache, b: Builder, seen: Option<Object>, fault: Fault): Step {
    if fault.ReadFails? then Step(s, c, Failed(Unavailable))
    else
      var w := WriteFor(b, c, seen);
      if w.None? then Settle(s, c, seen.value, Unchanged)
      else Conclude(c, seen, w.value, Send(s, w.value, fault))
  }

  /** The server a pass leaves behind, read off the write it sends. */
  function ServerAfter(s: Server, w: Option<Write>, fault: Fault): Server {
    if w.None? || fault.ReadFails? || fault.WriteFails? then s else Apply(s, w.value).server
  }

  lemma ReconcileSendsOneWrite(s: Server, c: Cache, b: Builder, seen: Option<Object>, fault: Fault)
    ensures Reconcile(s, c, b, seen, fault).server == ServerAfter(s, WriteFor(b, c, seen), fault)
  {
  }

  /** The server writes a pass sends are ordinary client writes. */
  lemma ReconcileKeepsConsistent(s: Server, c: Cache, b: Builder, seen: Option<Object>, fault: Fault)
    requires Consistent(s)
    ensures Consistent(Reconcile(s, c, b, seen, fault).server)
    ensures s.published <= Reconcile(s, c, b, seen, fault).server.published
    ensures s.nextVersion <= Reconcile(s, c, b, seen, fault).server.nextVersion
  {
    var w := WriteFor(b, c, seen);
    ReconcileSendsOneWrite(s, c, b, seen, fault);
    if w.Some? { WritesKeepConsistent(s, w.value); }
  }

  /** An object that is being deleted is never written, and its cache entry is dropped. */
  lemma TerminatingIsLeftAlone(s: Server, c: Cache, b: Builder, existing: Object, fault: Fault)
    requires existing.terminating && !fault.ReadFails?
    ensures Reconcile(s, c, b, Some(existing), fault) == Step(s, c - {CacheKeyOf(existing)}, Done(Unchanged, true))
  {
  }

  function KeyOf(w: Write): Key {
    match w
    case DeleteOp(key) => key
    case CreateOp(o) => o.key
    case UpdateOp(o) => o.key
    case StatusOp(o) => o.key
  }

  lemma UpdateTouchesOneKey(s: Server, o: Object)
    requires Consistent(s)
    ensures Update(s, o).server.objects - {o.key} == s.objects - {o.key}
  {
    if o.key in s.objects { assert Newest(s, o.key); }
  }

  lemma StatusTouchesOneKey(s: Server, o: Object)
    requires Consistent(s)
    ensures Apply(s, StatusOp(o)).server.objects - {o.key} == s.objects - {o.key}
  {
    if o.key in s.objects { assert Newest(s, o.key); }
  }

  lemma DeleteTouchesOneKey(s: Server, key: Key)
    requires Consistent(s)
    ensures Delete(s, key).server.objects - {key} == s.objects - {key}
  {
    if key in s.objects { assert Newest(s, key); }
  }

  lemma WriteTouchesOneKey(s: Server, w: Write)
    requires Consistent(s)
    ensures Apply(s, w).server.objects - {KeyOf(w)} == s.objects - {KeyOf(w)}
  {
    match w
    case CreateOp(_) =>
    case UpdateOp(o) => UpdateTouchesOneKey(s, o);
    case StatusOp(o) => StatusTouchesOneKey(s, o);
    case DeleteOp(key) => DeleteTouchesOneKey(s, key);
  }

  lemma ReplyHasTheKey(s: Server, w: Write)
    requires Consistent(s) && Apply(s, w).outcome.Ok?
    ensures Apply(s, w).outcome.value.key == KeyOf(w)
  {
    if KeyOf(w) in s.objects { assert Newest(s, KeyOf(w)); }
  }

  /** The object a successful pass hands to the cache. */
  function Recorded(s: Server, c: Cache, b: Builder, seen: Option<Object>): Object {
    var w := WriteFor(b, c, seen);
    if w.None? then seen.value
    else
      var outcome := Apply(s, w.value).outcome;
      if outcome.Ok? then outcome.value else b.expected
  }

  /** A pass leaves the cache alone, or forgets its own key, or records the object it leaves behind. */
  lemma CacheEffect(s: Server, c: Cache, b: Builder, seen: Option<Object>, fault: Fault)
    requires Consistent(s) && (seen.Some? ==> seen.value.key == b.expected.key)
    ensures var step := Reconcile(s, c, b, seen, fault);
            && (step.result.Failed? ==> step.cache == c)
            && (step.result.Done? && step.result.gone ==> step.cache == c - {CacheKeyOf(b.expected)})
            && (step.result.Done? && !step.result.gone ==>
                  step.cache == Add(c, Recorded(s, c, b, seen)) && Recorded(s, c, b, seen).key == b.expected.key)
  {
    var w := WriteFor(b, c, seen);
    if w.Some? && !fault.ReadFails? {
      if Apply(s, w.value).outcome.Ok? { ReplyHasTheKey(s, w.value); }
      SuccessMeansApplied(s, w.value, fault);
      ConclusionEffect(c, seen, w.value, Send(s, w.value, fault), b.expected.key);
    }
  }

  lemma SuccessMeansApplied(s: Server, w: Write, fault: Fault)
    ensures Send(s, w, fault).outcome.Ok? ==> Send(s, w, fault) == Apply(s, w)
  {
  }

  lemma ConclusionEffect(c: Cache, seen: Option<Object>, w: Write, reply: Reply, key: Key)
    requires w.DeleteOp? ==> seen.Some?
    requires seen.Some? ==> seen.value.key == key
    requires reply.outcome.Ok? ==> reply.outcome.value.key == key
    ensures var step := Conclude(c, seen, w, reply);
            && (step.result.Failed? ==> step.cache == c)
            && (step.result.Done? && step.result.gone ==> step.cache == c - {CacheKeyFor(key)})
            && (step.result.Done? && !step.result.gone ==>
                 reply.outcome.Ok? && step.cache == Add(c, reply.outcome.value))
  {
  }

  /** Only the reconciled key can change. */
  lemma OtherKeysUntouched(s: Server, c: Cache, b: Builder, seen: Option<Object>, fault: Fault)
    requires Consistent(s) && (seen.Some? ==> seen.value.key == b.expected.key)
    ensures Reconcile(s, c, b, seen, fault).server.objects - {b.expected.key} == s.objects - {b.expected.key}
  {
    var w := WriteFor(b, c, seen);
    ReconcileSendsOneWrite(s, c, b, seen, fault);
    if w.Some? { WriteTouchesOneKey(s, w.value); }
  }
}

/**
 The API server: optimistic concurrency, uids, generations, defaulting, finalizers.
 `published` remembers every version ever stored, which is what a read through an
 informer cache may still return.
 */
module ApiServer {
  import opened Kube

  datatype Server = Server(objects: map<Key, Object>, published: set<Object>, nextUid: nat, nextVersion: nat)

  datatype ApiError = NotFound | AlreadyExists | Conflict | Forbidden | Unavailable

  datatype Reply = Reply(server: Server, outcome: Result<Object, ApiError>)

  const EMPTY := Server(map[], {}, 1, 1)

  function Defaulted(kind: Kind, spec: Spec): Spec {
    match spec
    case Fields(fields) => Fields(kind.defaults + fields)
    case _ => spec
  }

  /** The object as the server would store it. */
  function Stored(o: Object): Object {
    o.(spec := Defaulted(o.key.kind, o.spec))
  }

  function Publish(s: Server, o: Object): Server {
    var stamped := o.(version := s.nextVersion);
    Server(s.objects[o.key := stamped], s.published + {stamped}, s.nextUid, s.nextVersion + 1)
  }

  function Create(s: Server, o: Object): Reply {
    if o.key in s.objects then
      Reply(s, Err(AlreadyExists))
    else
      var made := Stored(o).(uid := s.nextUid, generation := if o.key.kind.tracksGeneration then 1 else 0,
                              terminating := false, conditions := map[], version := s.nextVersion);
      Reply(Publish(s, made).(nextUid := s.nextUid + 1), Ok(made))
  }

  /** What an accepted update of `current` by `o` stores; status and lifecycle fields stay the server's. */
  function Revised(current: Object, o: Object): Object {
    var spec := Defaulted(current.key.kind, o.spec);
    o.(spec := spec,
       generation := if current.key.kind.tracksGeneration && spec != current.spec then current.generation + 1
         else current.generation,
       terminating := current.terminating,
       conditions := current.conditions)
  }

  function Update(s: Server, o: Object): Reply {
    if o.key !in s.objects then
      Reply(s, Err(NotFound))
    else
      var current := s.objects[o.key];
      if o.uid != current.uid || o.version != current.version then
        Reply(s, Err(Conflict))
      else if current.terminating && !(o.finalizers <= current.finalizers) then
        Reply(s, Err(Forbidden))
      else
        var next := Revised(current, o);
        if next == current then
          Reply(s, Ok(current))
        else if next.terminating && next.finalizers == {} then
          Reply(s.(objects := s.objects - {o.key}), Ok(next))
        else
          Reply(Publish(s, next), Ok(next.(version := s.nextVersion)))
  }

  function UpdateStatus(s: Server, o: Object): Reply {
    if o.key !in s.objects then
      Reply(s, Err(NotFound))
    else
      var current := s.objects[o.key];
      if o.uid != current.uid || o.version != current.version then
        Reply(s, Err(Conflict))
      else
        var next := current.(conditions := o.conditions);
        if next == current then Reply(s, Ok(current))
        else Reply(Publish(s, next), Ok(next.(version := s.nextVersion)))
  }

  /** Deletion is by key: a stale copy still deletes the current object. */
  function Delete(s: Server, key: Key): Reply {
    if key !in s.objects then
      Reply(s, Err(NotFound))
    else
      var current := s.objects[key];
      if current.finalizers == {} then
        Reply(s.(objects := s.objects - {key}), Ok(current))
      else if current.terminating then
        Reply(s, Ok(current))
      else
        Reply(Publish(s, Condemned(current)), Ok(Condemned(current).(version := s.nextVersion)))
  }

  /** An object that waits for its finalizers after a delete. */
  function Condemned(o: Object): Object {
    o.(terminating := true, generation := if o.key.kind.tracksGeneration then o.generation + 1 else o.generation)
  }

  /** Every write that any client can send. */
  datatype Write =
    | CreateOp(o: Object)
    | UpdateOp(o: Object)
    | StatusOp(o: Object)
    | DeleteOp(key: Key)

  function Apply(s: Server, w: Write): Reply {
    match w
    case CreateOp(o) => Create(s, o)
    case UpdateOp(o) => Update(s, o)
    case StatusOp(o) => UpdateStatus(s, o)
    case DeleteOp(key) => Delete(s, key)
  }

  /** A single published version is well formed. */
  ghost predicate WellFormed(s: Server, p: Object) {
    && 1 <= p.uid < s.nextUid
    && 1 <= p.version < s.nextVersion
    && (if p.key.kind.tracksGeneration then p.generation >= 1 else p.generation == 0)
    && Stored(p) == p
  }

  /** Two published versions agree wherever their identities agree. */
  ghost predicate Agree(p: Object, q: Object) {
    && (p.version == q.version ==> p == q)
    && (p.uid == q.uid ==> p.key == q.key)
    && (p.uid == q.uid && p.generation == q.generation && p.key.kind.tracksGeneration ==> p.spec == q.spec)
  }

  /** A stored object is the newest published version of its uid. */
  ghost predicate Newest(s: Server, key: Key)
    requires key in s.objects
  {
    var o := s.objects[key];
    && o.key == key
    && o in s.published
    && forall p <- s.published :: p.uid == o.uid ==> p.generation <= o.generation
  }

  ghost predicate Consistent(s: Server) {
    && (forall p <- s.published :: WellFormed(s, p))
    && (forall p <- s.published, q <- s.published :: Agree(p, q))
    && (forall key <- s.objects :: Newest(s, key))
    && s.nextUid >= 1
    && s.nextVersion >= 1
  }

  /** Publishing a version that is newest of its uid keeps the server consistent. */
  lemma PublishKeepsConsistent(s: Server, o: Object, nextUid: nat)
    requires Consistent(s) && s.nextUid <= nextUid
    requires 1 <= o.uid < nextUid && Stored(o) == o
    requires if o.key.kind.tracksGeneration then o.generation >= 1 else o.generation == 0
    requires forall p <- s.published :: p.uid == o.uid ==> p.key == o.key && p.generation <= o.generation
    requires forall p <- s.published ::
               p.uid == o.uid && p.generation == o.generation && o.key.kind.tracksGeneration ==> p.spec == o.spec
    requires forall key <- s.objects :: key != o.key ==> s.objects[key].uid != o.uid
    ensures Consistent(Publish(s, o).(nextUid := nextUid))
  {
    var s' := Publish(s, o).(nextUid := nextUid);
    var stamped := o.(version := s.nextVersion);
    forall p <- s'.published, q <- s'.published
      ensures Agree(p, q)
    {
      if p != stamped && q != stamped { assert Agree(p, q); }
    }
    forall key <- s'.objects ensures Newest(s', key) {
      if key != o.key { assert Newest(s, key); }
    }
  }

  lemma StoredIsStable(o: Object)
    ensures Stored(Stored(o)) == Stored(o)
  {
    if o.spec.Fields? {
      var d := o.key.kind.defaults;
      assert d + (d + o.spec.fields) == d + o.spec.fields;
    }
  }

  lemma CreateKeepsConsistent(s: Server, o: Object)
    requires Consistent(s)
    ensures Consistent(Create(s, o).server)
  {
    if o.key !in s.objects {
      var made := Create(s, o).outcome.value;
      StoredIsStable(o);
      assert forall p <- s.published :: WellFormed(s, p);
      forall key <- s.objects ensures s.objects[key].uid != made.uid {
        assert Newest(s, key) && WellFormed(s, s.objects[key]);
      }
      PublishKeepsConsistent(s, made, s.nextUid + 1);
    }
  }

  lemma UpdateKeepsConsistent(s: Server, o: Object)
    requires Consistent(s)
    ensures Consistent(Update(s, o).server)
  {
    if o.key in s.objects && s.objects[o.key].uid == o.uid {
      var current := s.objects[o.key];
      assert Newest(s, o.key) && WellFormed(s, current);
      StoredIsStable(current.(spec := o.spec));
      PublishSuccessor(s, current, Revised(current, o));
      RemovalKeepsConsistent(s, o.key);
    }
  }

  lemma DeleteKeepsConsistent(s: Server, key: Key)
    requires Consistent(s)
    ensures Consistent(Delete(s, key).server)
  {
    if key in s.objects {
      var current := s.objects[key];
      assert Newest(s, key) && WellFormed(s, current);
      RemovalKeepsConsistent(s, key);
      PublishSuccessor(s, current, Condemned(current));
    }
  }

  /** Every client write keeps the server consistent and forgets no published version. */
  lemma WritesKeepConsistent(s: Server, w: Write)
    requires Consistent(s)
    ensures Consistent(Apply(s, w).server)
    ensures s.published <= Apply(s, w).server.published
    ensures s.nextVersion <= Apply(s, w).server.nextVersion
  {
    match w
    case CreateOp(o) => CreateKeepsConsistent(s, o);
    case UpdateOp(o) => UpdateKeepsConsistent(s, o);
    case DeleteOp(key) => DeleteKeepsConsistent(s, key);
    case StatusOp(o) =>
      if o.key in s.objects {
        var current := s.objects[o.key];
        assert Newest(s, o.key) && WellFormed(s, current);
        PublishSuccessor(s, current, current.(conditions := o.conditions));
      }
  }

  lemma RemovalKeepsConsistent(s: Server, key: Key)
    requires Consistent(s)
    ensures Consistent(s.(objects := s.objects - {key}))
  {
    var s' := s.(objects := s.objects - {key});
    forall k <- s'.objects ensures Newest(s', k) { assert Newest(s, k); }
    forall p <- s'.published ensures WellFormed(s', p) { assert WellFormed(s, p); }
  }

  /** The next version of a stored object, with a new generation whenever its spec changes. */
  lemma PublishSuccessor(s: Server, current: Object, next: Object)
    requires Consistent(s)
    requires current.key in s.objects && s.objects[current.key] == current
    requires next.key == current.key && next.uid == current.uid && Stored(next) == next
    requires if current.key.kind.tracksGeneration
             then next.generation == current.generation + 1
               || (next.generation == current.generation && next.spec == current.spec)
             else next.generation == current.generation
    ensures Consistent(Publish(s, next))
  {
    assert Newest(s, current.key) && WellFormed(s, current);
    forall p <- s.published | p.uid == next.uid
      ensures p.key == next.key && p.generation <= next.generation
      ensures p.generation == next.generation && next.key.kind.tracksGeneration ==> p.spec == next.spec
    {
      assert Agree(p, current);
    }
    forall key <- s.objects | key != next.key ensures s.objects[key].uid != next.uid {
      assert Newest(s, key) && Agree(s.objects[key], current);
    }
    PublishKeepsConsistent(s, next, s.nextUid);
    assert Publish(s, next).(nextUid := s.nextUid) == Publish(s, next);
  }
}

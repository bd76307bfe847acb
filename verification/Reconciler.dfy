/**
 The builder, the cache and the server as objects that are updated in place, proved
 against the functions of the engine.
 */
module Reconciler {
  import opened Kube
  import opened ApiServer
  import opened UpdateFuncs
  import opened Engine

  class Cluster {
    var objects: map<Key, Object>
    var nextUid: nat
    var nextVersion: nat
    ghost var published: set<Object>

    ghost function View(): Server
      reads this
    {
      Server(objects, published, nextUid, nextVersion)
    }

    constructor ()
      ensures View() == EMPTY
      ensures Consistent(View())
    {
      objects, nextUid, nextVersion, published := map[], 1, 1, {};
    }

    method Store(o: Object)
      modifies this
      ensures View() == Publish(old(View()), o)
    {
      var stamped := o.(version := nextVersion);
      objects := objects[o.key := stamped];
      published := published + {stamped};
      nextVersion := nextVersion + 1;
    }

    method Write(w: ApiServer.Write) returns (outcome: Result<Object, ApiError>)
      modifies this
      ensures Reply(View(), outcome) == Apply(old(View()), w)
    {
      match w
      case CreateOp(o) => outcome := Make(o);
      case UpdateOp(o) => outcome := Revise(o);
      case StatusOp(o) => outcome := ReviseStatus(o);
      case DeleteOp(key) => outcome := Remove(key);
    }

    method Make(o: Object) returns (outcome: Result<Object, ApiError>)
      modifies this
      ensures Reply(View(), outcome) == Create(old(View()), o)
    {
      if o.key in objects { return Err(AlreadyExists); }
      var made := Stored(o).(uid := nextUid, generation := if o.key.kind.tracksGeneration then 1 else 0,
      terminating := false, conditions := map[], version := nextVersion);
      Store(made);
      nextUid := nextUid + 1;
      return Ok(made);
    }

    method Revise(o: Object) returns (outcome: Result<Object, ApiError>)
      modifies this
      ensures Reply(View(), outcome) == Update(old(View()), o)
    {
      if o.key !in objects { return Err(NotFound); }
      var current := objects[o.key];
      if o.uid != current.uid || o.version != current.version { return Err(Conflict); }
      if current.terminating && !(o.finalizers <= current.finalizers) { return Err(Forbidden); }
      var next := Revised(current, o);
      if next == current { return Ok(current); }
      if next.terminating && next.finalizers == {} {
        objects := objects - {o.key};
        return Ok(next);
      }
      outcome := Ok(next.(version := nextVersion));
      Store(next);
    }

    method ReviseStatus(o: Object) returns (outcome: Result<Object, ApiError>)
      modifies this
      ensures Reply(View(), outcome) == UpdateStatus(old(View()), o)
    {
      if o.key !in objects { return Err(NotFound); }
      var current := objects[o.key];
      if o.uid != current.uid || o.version != current.version { return Err(Conflict); }
      var next := current.(conditions := o.conditions);
      if next == current { return Ok(current); }
      outcome := Ok(next.(version := nextVersion));
      Store(next);
    }

    method Remove(key: Key) returns (outcome: Result<Object, ApiError>)
      modifies this
      ensures Reply(View(), outcome) == Delete(old(View()), key)
    {
      if key !in objects { return Err(NotFound); }
      var current := objects[key];
      if current.finalizers == {} {
        objects := objects - {key};
        return Ok(current);
      }
      if current.terminating { return Ok(current); }
      outcome := Ok(Condemned(current).(version := nextVersion));
      Store(Condemned(current));
    }

    /** A write over an unreliable connection. */
    method Send(w: ApiServer.Write, fault: Fault) returns (outcome: Result<Object, ApiError>)
      modifies this
      ensures Reply(View(), outcome) == Engine.Send(old(View()), w, fault)
    {
      if fault.WriteFails? { return Err(Unavailable); }
      outcome := Write(w);
      if fault.ReplyLost? { outcome := Err(Unavailable); }
    }
  }

  class VersionCache {
    var entries: Cache

    constructor ()
      ensures entries == map[]
    {
      entries := map[];
    }

    predicate Has(o: Object)
      reads this
    {
      Contains(entries, o)
    }

    method Record(o: Object)
      modifies this
      ensures entries == Engine.Add(old(entries), o)
    {
      if o.key.kind.name == "" { return; }
      entries := entries[CacheKeyOf(o) := CacheEntry(o.uid, o.version, o.generation)];
    }

    method Forget(o: Object)
      modifies this
      ensures entries == Engine.RemoveObj(old(entries), o)
    {
      entries := entries - {CacheKeyOf(o)};
    }
  }

  /** Copies every expected entry over the found ones. */
  method UpdateStringMap(expected: StringMap, found: StringMap) returns (r: StringMap)
    ensures r == found + expected
  {
    r := found;
    var todo := expected.Keys;
    while todo != {}
      invariant todo <= expected.Keys
      invariant r == found + (expected - todo)
    {
      var key :| key in todo;
      r := r[key := expected[key]];
      todo := todo - {key};
    }
  }

  method MutateFound(b: Builder, cache: VersionCache, seen: Object) returns (found: Object)
    ensures found == Mutate(b, cache.entries, seen)
  {
    found := seen;
    if found.terminating { return; }
    found := found.(ownerRefs := b.expected.ownerRefs);
    var labels := UpdateStringMap(b.expected.labels, found.labels);
    found := found.(labels := labels);
    var annotations := UpdateStringMap(b.expected.annotations, found.annotations);
    found := found.(annotations := annotations);
    assert found == Merge(b.expected, seen);
    assert cache.Has(found) == cache.Has(seen);
    if b.always || !cache.Has(found) {
      found := RunUpdate(b.update, b.expected, found);
    }
  }

  /** The builder's Reconcile: its effect on server and cache is the engine's function of them. */
  method ReconcileOne(cluster: Cluster, cache: VersionCache, b: Builder, seen: Option<Object>, fault: Fault)
    returns (result: EngineResult)
    modifies cluster, cache
    ensures Step(cluster.View(), cache.entries, result)
         == Reconcile(old(cluster.View()), old(cache.entries), b, seen, fault)
  {
    if fault.ReadFails? { return Failed(Unavailable); }
    var found;
    var outcome;
    if seen.None? {
      found := MutateFound(b, cache, Blank(b.expected));
      var reply := cluster.Send(CreateOp(found), fault);
      if reply.Err? { return Failed(reply.error); }
      found, outcome := reply.value, Created;
    } else {
      found := MutateFound(b, cache, seen.value);
      if found == seen.value {
        outcome := Unchanged;
      } else if b.immutableSpec && seen.value.spec != found.spec {
        var reply := cluster.Send(DeleteOp(found.key), fault);
        if reply.Err? { return Failed(reply.error); }
        outcome := Deleted;
      } else {
        var reply := cluster.Send(UpdateOp(found), fault);
        if reply.Err? { return Failed(reply.error); }
        found, outcome := reply.value, Updated;
      }
    }
    if outcome.Deleted? || found.terminating {
      cache.Forget(found);
      return Done(outcome, true);
    }
    cache.Record(found);
    return Done(outcome, false);
  }
}

/** The watch over required CustomResourceDefinitions and its two edge-triggered callbacks. */
module CrdWatch {
  import opened Kube
  import opened Sequences

  datatype Callback = AllCrdsAdded | SomeCrdRemoved

  /** `calls` are the callbacks in the order in which they were made. */
  datatype Watch = Watch(
    required: set<string>,
    existing: set<string>,
    missing: set<string>,
    initialized: bool,
    calls: seq<Callback>)

  /** Which callbacks are set. */
  datatype Handlers = Handlers(added: bool, removed: bool)

  function Names(names: seq<string>): set<string> {
    set name | name in names
  }

  lemma NothingLeft(a: set<string>, b: set<string>)
    ensures a - b == {} <==> a <= b
  {
    if a - b == {} {
      forall x <- a ensures x in b { assert x !in a - b; }
    }
  }

  ghost predicate Consistent(w: Watch) {
    w.missing == w.required - w.existing
  }

  predicate Ready(w: Watch) {
    w.missing == {}
  }

  function NewWatch(required: set<string>): Watch {
    Watch(required, {}, required, false, [])
  }

  function CallIf(condition: bool, callback: Callback): seq<Callback> {
    if condition then [callback] else []
  }

  function Added(w: Watch, h: Handlers, name: string): Watch {
    w.(existing := w.existing + {name},
       missing := w.missing - {name},
       calls := w.calls + CallIf(w.initialized && h.added && w.missing == {name}, AllCrdsAdded))
  }

  function Deleted(w: Watch, h: Handlers, name: string): Watch {
    if name !in w.required then w.(existing := w.existing - {name})
    else
      w.(existing := w.existing - {name},
         missing := w.missing + {name},
         calls := w.calls + CallIf(w.initialized && h.removed && w.missing == {}, SomeCrdRemoved))
  }

  /** In whatever order a sync goes through the names, this is what it does. */
  function Synced(w: Watch, h: Handlers, listed: set<string>): Watch {
    var seen := w.required <= w.existing + listed; // nothing is missing after the additions
    w.(existing := listed,
       missing := w.required - listed,
       calls := w.calls
                + CallIf(w.initialized && h.added && !Ready(w) && seen, AllCrdsAdded)
                + CallIf(w.initialized && h.removed && seen && !(w.required <= listed), SomeCrdRemoved))
  }

  // ----- the object

  class CrdWatcher {
    const requiredCrds: set<string>
    const handlers: Handlers
    var existingCrds: set<string>
    var missingCrds: set<string>
    var initialized: bool
    var calls: seq<Callback>

    function View(): Watch
      reads this
    {
      Watch(requiredCrds, existingCrds, missingCrds, initialized, calls)
    }

    constructor (required: seq<string>, handlers: Handlers)
      ensures View() == NewWatch(Names(required)) && this.handlers == handlers
      ensures Consistent(View())
    {
      var names: set<string> := {};
      for i := 0 to |required|
        invariant names == Names(required[..i])
      {
        names := names + {required[i]};
      }
      assert required[..|required|] == required;
      requiredCrds := names;
      existingCrds := {};
      missingCrds := names;
      initialized := false;
      calls := [];
      this.handlers := handlers;
    }

    method CrdAdded(name: string)
      modifies this
      ensures View() == Added(old(View()), handlers, name)
    {
      existingCrds := existingCrds + {name};
      var missingCountOld := |missingCrds|;
      ghost var was := missingCrds;
      missingCrds := missingCrds - {name};
      assert missingCountOld == 1 && |missingCrds| == 0 <==> was == {name} by {
        if was == {name} { assert missingCrds == {}; }
        if missingCountOld == 1 && |missingCrds| == 0 { assert was <= {name}; }
      }
      if !initialized || !handlers.added { return; }
      if missingCountOld == 1 && |missingCrds| == 0 {
        calls := calls + [AllCrdsAdded];
      }
    }

    method CrdDeleted(name: string)
      modifies this
      ensures View() == Deleted(old(View()), handlers, name)
    {
      existingCrds := existingCrds - {name};
      if name !in requiredCrds { return; }
      var missingCountOld := |missingCrds|;
      missingCrds := missingCrds + {name};
      if !initialized || !handlers.removed { return; }
      if missingCountOld == 0 {
        calls := calls + [SomeCrdRemoved];
      }
    }

    /** `None` is a list call that fails. */
    method Sync(items: Option<seq<string>>) returns (ok: bool)
      requires Consistent(View())
      modifies this
      ensures ok <==> items.Some?
      ensures View() == if ok then Synced(old(View()), handlers, Names(items.value)) else old(View())
      ensures Consistent(View())
    {
      if items.None? { return false; }
      ghost var was := View();
      var listed := Names(items.value);
      var added := Difference(listed, existingCrds);
      var deleted := Difference(existingCrds, listed);
      for i := 0 to |added|
        invariant View() == AfterAdding(was, handlers, Names(added[..i]))
      {
        ghost var before := Names(added[..i]);
        CrdAdded(added[i]);
        AddingOneMore(was, handlers, before, added[i]);
        assert before + {added[i]} == Names(added[..i + 1]);
      }
      assert was.existing + Names(added[..|added|]) == was.existing + listed;
      ghost var full := View();
      for i := 0 to |deleted|
        invariant View() == AfterDeleting(full, handlers, Names(deleted[..i]))
      {
        ghost var before := Names(deleted[..i]);
        CrdDeleted(deleted[i]);
        DeletingOneMore(full, handlers, before, deleted[i]);
        assert before + {deleted[i]} == Names(deleted[..i + 1]);
      }
      assert deleted[..|deleted|] == deleted && added[..|added|] == added;
      BothPhases(was, handlers, listed, Names(added), Names(deleted));
      return true;
    }

    method Init(items: Option<seq<string>>) returns (ok: bool)
      requires Consistent(View())
      modifies this
      ensures ok <==> items.Some?
      ensures View() == if ok then Synced(old(View()), handlers, Names(items.value)).(initialized := true)
                        else old(View())
      ensures Consistent(View())
    {
      ok := Sync(items);
      if ok { initialized := true; }
    }

    /** Panics before the first successful list. */
    method MissingCrds() returns (names: seq<string>)
      requires initialized && Consistent(View())
      ensures NoDuplicates(names)
      ensures forall name :: name in names <==> name in requiredCrds && name !in existingCrds
    {
      names := Difference(missingCrds, {});
    }
  }

  /** Collects the names of a difference in the order of a Go map iteration. */
  method Difference(names: set<string>, without: set<string>) returns (result: seq<string>)
    ensures NoDuplicates(result)
    ensures forall name :: name in result <==> name in names && name !in without
  {
    result := [];
    var rest := names;
    while rest != {}
      invariant rest <= names
      invariant NoDuplicates(result)
      invariant forall name :: name in result <==> name in names - rest && name !in without
      decreases |rest|
    {
      var name :| name in rest;
      rest := rest - {name};
      if name !in without { result := result + [name]; }
    }
  }

  // ----- order does not matter

  function AfterAdding(w: Watch, h: Handlers, names: set<string>): Watch {
    w.(existing := w.existing + names,
       missing := w.missing - names,
       calls := w.calls + CallIf(w.initialized && h.added && !Ready(w) && w.missing <= names, AllCrdsAdded))
  }

  lemma AddingOneMore(w: Watch, h: Handlers, names: set<string>, name: string)
    ensures Added(AfterAdding(w, h, names), h, name) == AfterAdding(w, h, names + {name})
  {
    var before := AfterAdding(w, h, names);
    assert before.existing + {name} == w.existing + (names + {name});
    assert before.missing - {name} == w.missing - (names + {name});
    NothingLeft(w.missing, names);
    assert before.missing == {name} ==> name in w.missing;
    assert w.missing <= names + {name} <==> before.missing <= {name};
    assert before.missing <= {name} <==> before.missing == {} || before.missing == {name};
  }

  function AfterDeleting(w: Watch, h: Handlers, names: set<string>): Watch {
    w.(existing := w.existing - names,
       missing := w.missing + names * w.required,
       calls := w.calls + CallIf(w.initialized && h.removed && Ready(w) && names * w.required != {}, SomeCrdRemoved))
  }

  lemma DeletingOneMore(w: Watch, h: Handlers, names: set<string>, name: string)
    ensures Deleted(AfterDeleting(w, h, names), h, name) == AfterDeleting(w, h, names + {name})
  {
    var before := AfterDeleting(w, h, names);
    assert before.existing - {name} == w.existing - (names + {name});
    assert name !in w.required ==> (names + {name}) * w.required == names * w.required;
    assert name in w.required ==> (names + {name}) * w.required == names * w.required + {name};
    if name in w.required {
      assert before.missing + {name} == w.missing + (names + {name}) * w.required;
    }
  }

  lemma BothPhases(w: Watch, h: Handlers, listed: set<string>, added: set<string>, deleted: set<string>)
    requires Consistent(w) && added == listed - w.existing && deleted == w.existing - listed
    ensures AfterDeleting(AfterAdding(w, h, added), h, deleted) == Synced(w, h, listed)
  {
    var full := AfterAdding(w, h, added);
    assert full.existing - deleted == listed;
    assert full.missing + deleted * w.required == w.required - listed;
    assert w.missing <= added <==> w.required <= w.existing + listed by {
      assert w.required <= w.existing + listed ==> forall x <- w.missing :: x in added;
      assert w.missing <= added ==> forall x <- w.required :: x in w.missing || x in w.existing;
    }
    NothingLeft(w.missing, added);
    if !(w.required <= listed) && w.missing <= added {
      var x :| x in w.required && x !in listed;
      assert x in deleted * w.required;
    }
  }

  // ----- runs

  datatype Event =
    | Add(name: string)
    | Delete(name: string)
    | Sync(listed: set<string>)
    | Init(listed: set<string>)
    | ListFails

  function Next(w: Watch, h: Handlers, e: Event): Watch {
    match e
    case Add(name) => Added(w, h, name)
    case Delete(name) => Deleted(w, h, name)
    case Sync(listed) => Synced(w, h, listed)
    case Init(listed) => Synced(w, h, listed).(initialized := true)
    case ListFails => w
  }

  function Run(w: Watch, h: Handlers, events: seq<Event>): Watch {
    if events == [] then w
    else Next(Run(w, h, events[..|events| - 1]), h, events[|events| - 1])
  }

  /** Follows the calls from one state of "nothing is missing" to the next; fails if a call does not change it. */
  function Level(ready: bool, calls: seq<Callback>): Option<bool> {
    if calls == [] then Some(ready)
    else
      var before := Level(ready, calls[..|calls| - 1]);
      var wanted := calls[|calls| - 1].SomeCrdRemoved?;
      if before == Some(wanted) then Some(!wanted) else None
  }

  lemma LevelOfCall(ready: bool, calls: seq<Callback>, callback: Callback)
    ensures Level(ready, calls + [callback]) ==
              if Level(ready, calls) == Some(callback.SomeCrdRemoved?) then Some(callback.AllCrdsAdded?) else None
  {
    assert (calls + [callback])[..|calls|] == calls;
  }

  lemma LevelOfStep(ready: bool, calls: seq<Callback>, level: bool, up: bool, down: bool)
    requires Level(ready, calls) == Some(level) && (up ==> !level) && (down ==> level || up)
    ensures Level(ready, calls + CallIf(up, AllCrdsAdded) + CallIf(down, SomeCrdRemoved)) ==
            Some((level || up) && !down)
  {
    var raised := calls + CallIf(up, AllCrdsAdded);
    assert calls + [] == calls && raised + [] == raised;
    LevelOfCall(ready, calls, AllCrdsAdded);
    LevelOfCall(ready, raised, SomeCrdRemoved);
  }

  /** An event calls at most one handler of each kind, and only to follow the readiness. */
  ghost predicate Moves(w: Watch, w': Watch, up: bool, down: bool) {
    && Consistent(w')
    && w'.initialized
    && w'.calls == w.calls + CallIf(up, AllCrdsAdded) + CallIf(down, SomeCrdRemoved)
    && (up ==> !Ready(w))
    && (down ==> Ready(w) || up)
    && Ready(w') == ((Ready(w) || up) && !down)
  }

  lemma AddMoves(w: Watch, name: string)
    requires Consistent(w) && w.initialized
    ensures Moves(w, Added(w, Handlers(true, true), name), w.missing == {name}, false)
  {
    NothingLeft(w.missing, {name});
    assert w.missing <= {name} <==> w.missing == {} || w.missing == {name};
  }

  lemma DeleteMoves(w: Watch, name: string)
    requires Consistent(w) && w.initialized
    ensures Moves(w, Deleted(w, Handlers(true, true), name), false, name in w.required && Ready(w))
  {
    var w' := Deleted(w, Handlers(true, true), name);
    assert w.calls + [] == w.calls;
    if name in w.required {
      assert w'.missing == w'.required - w'.existing;
      assert name in w'.missing;
    } else {
      assert w'.required - w'.existing == w.required - w.existing;
    }
  }

  lemma SyncMoves(w: Watch, listed: set<string>)
    requires Consistent(w) && w.initialized
    ensures var seen := w.required <= w.existing + listed;
            Moves(w, Synced(w, Handlers(true, true), listed), !Ready(w) && seen, seen && !(w.required <= listed))
  {
    NothingLeft(w.required, w.existing);
    NothingLeft(w.required, listed);
  }

  lemma EventMoves(w: Watch, e: Event) returns (up: bool, down: bool)
    requires Consistent(w) && w.initialized
    ensures Moves(w, Next(w, Handlers(true, true), e), up, down)
  {
    match e
    case Add(name) =>
      AddMoves(w, name);
      up, down := w.missing == {name}, false;
    case Delete(name) =>
      DeleteMoves(w, name);
      up, down := false, name in w.required && Ready(w);
    case ListFails =>
      up, down := false, false;
    case _ =>
      SyncMoves(w, e.listed);
      var seen := w.required <= w.existing + e.listed;
      up, down := !Ready(w) && seen, seen && !(w.required <= e.listed);
  }

  lemma StepFollowsLevel(w: Watch, e: Event, ready: bool, since: nat)
    requires Consistent(w) && w.initialized && since <= |w.calls|
    requires Level(ready, w.calls[since..]) == Some(Ready(w))
    ensures var w' := Next(w, Handlers(true, true), e);
            && Consistent(w')
            && w'.initialized
            && |w.calls| <= |w'.calls|
            && Level(ready, w'.calls[since..]) == Some(Ready(w'))
  {
    var up, down := EventMoves(w, e);
    var w' := Next(w, Handlers(true, true), e);
    LevelOfStep(ready, w.calls[since..], Ready(w), up, down);
    assert w'.calls[since..] == w.calls[since..] + CallIf(up, AllCrdsAdded) + CallIf(down, SomeCrdRemoved);
  }

  lemma {:induction false} RunFollowsLevel(w: Watch, events: seq<Event>)
    requires Consistent(w) && w.initialized
    ensures var w' := Run(w, Handlers(true, true), events);
            && Consistent(w')
            && w'.initialized
            && |w.calls| <= |w'.calls|
            && Level(Ready(w), w'.calls[|w.calls|..]) == Some(Ready(w'))
  {
    if events != [] {
      var n := |events| - 1;
      RunFollowsLevel(w, events[..n]);
      StepFollowsLevel(Run(w, Handlers(true, true), events[..n]), events[n], Ready(w), |w.calls|);
    }
  }

  function Count(calls: seq<Callback>, callback: Callback): nat {
    if calls == [] then 0
    else Count(calls[..|calls| - 1], callback) + if calls[|calls| - 1] == callback then 1 else 0
  }

  function Bit(b: bool): int {
    if b then 1 else 0
  }

  /** A trace that can be followed alternates and its counts telescope. */
  lemma {:induction false} LevelMeans(ready: bool, calls: seq<Callback>)
    requires Level(ready, calls).Some?
    ensures forall i :: 0 < i < |calls| ==> calls[i] != calls[i - 1]
    ensures calls != [] ==> calls[0] == if ready then SomeCrdRemoved else AllCrdsAdded
    ensures calls != [] ==> Level(ready, calls).value == calls[|calls| - 1].AllCrdsAdded?
    ensures Count(calls, AllCrdsAdded) - Count(calls, SomeCrdRemoved) == Bit(Level(ready, calls).value) - Bit(ready)
  {
    if calls != [] {
      LevelMeans(ready, calls[..|calls| - 1]);
    }
  }

  /**
   From the moment of initialization, over every run: missing is required minus existing, the
   callbacks alternate, the last one tells whether something is missing, and the numbers of the
   two differ by exactly the change in "nothing is missing".
   */
  lemma CallbacksFollowReadiness(w: Watch, events: seq<Event>)
    requires Consistent(w) && w.initialized
    ensures var w' := Run(w, Handlers(true, true), events);
            && w'.missing == w'.required - w'.existing
            && |w.calls| <= |w'.calls|
            && var calls := w'.calls[|w.calls|..];
               && (forall i :: 0 < i < |calls| ==> calls[i] != calls[i - 1])
               && (calls != [] ==> (calls[|calls| - 1].AllCrdsAdded? <==> Ready(w')))
               && (calls == [] ==> Ready(w) == Ready(w'))
               && Count(calls, AllCrdsAdded) - Count(calls, SomeCrdRemoved) == Bit(Ready(w')) - Bit(Ready(w))
  {
    RunFollowsLevel(w, events);
    LevelMeans(Ready(w), Run(w, Handlers(true, true), events).calls[|w.calls|..]);
  }

  /** Before that nothing is called, whatever is seen. */
  lemma {:induction false} SilentUntilInitialized(required: set<string>, h: Handlers, events: seq<Event>)
    requires forall e <- events :: !e.Init?
    ensures var w := Run(NewWatch(required), h, events);
            w.calls == [] && !w.initialized && Consistent(w) && w.required == required
  {
    if events != [] {
      var n := |events| - 1;
      SilentUntilInitialized(required, h, events[..n]);
    }
  }

  /** One sync calls each handler at most once, additions first, and both exactly if it passes through completeness. */
  lemma SyncCallsBothIff(w: Watch, listed: set<string>)
    requires Consistent(w) && w.initialized
    ensures var w' := Synced(w, Handlers(true, true), listed);
            && w'.existing == listed
            && w.calls <= w'.calls
            && var calls := w'.calls[|w.calls|..];
               && calls in {[], [AllCrdsAdded], [SomeCrdRemoved], [AllCrdsAdded, SomeCrdRemoved]}
               && (|calls| == 2 <==> !Ready(w) && !Ready(w') && w.required <= w.existing + listed)
  {
    NothingLeft(w.required, w.existing);
    NothingLeft(w.required, listed);
    var seen := w.required <= w.existing + listed;
    var up, down := CallIf(!Ready(w) && seen, AllCrdsAdded), CallIf(seen && !(w.required <= listed), SomeCrdRemoved);
    assert Synced(w, Handlers(true, true), listed).calls[|w.calls|..] == up + down;
    assert up + [] == up && [] + down == down && [AllCrdsAdded] + [SomeCrdRemoved] == [AllCrdsAdded, SomeCrdRemoved];
  }
}

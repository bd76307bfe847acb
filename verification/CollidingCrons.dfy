/** What passes make of crons that want the same object. */
module CollidingCrons {
  import opened Kube
  import opened ApiServer
  import opened UpdateFuncs
  import opened Engine
  import opened Convergence
  import opened DataSourceOperand
  import opened GarbageCollection

  /** The one place that they all want: empty, or with a spec that the cache vouches for or not. */
  datatype Slot = Empty | Holds(spec: Spec, recorded: bool)

  /** Items of any number of quiet passes in any order, with the cache emptied in between. */
  datatype Turn = Want(c: Cron) | Elsewhere(t: Todo) | EmptyCache

  function Take(st: State, turn: Turn, owner: Owner, app: StringMap): State {
    match turn
    case Want(c) => Execute(st, Run(CronBuilder(c, owner, app)))
    case Elsewhere(t) => Execute(st, t)
    case EmptyCache => st.(cache := map[])
  }

  function TakeAll(st: State, turns: seq<Turn>, owner: Owner, app: StringMap): State {
    if turns == [] then st
    else Take(TakeAll(st, turns[..|turns| - 1], owner, app), turns[|turns| - 1], owner, app)
  }

  function SlotAfter(slot: Slot, turn: Turn): Slot {
    match turn
    case Want(c) =>
      if slot.Empty? then Holds(c.spec, true)
      else if slot.recorded then slot
      else if c.spec == slot.spec then Holds(c.spec, true)
      else Empty
    case Elsewhere(_) => slot
    case EmptyCache => if slot.Empty? then Empty else Holds(slot.spec, false)
  }

  function SlotAfterAll(slot: Slot, turns: seq<Turn>): Slot {
    if turns == [] then slot else SlotAfter(SlotAfterAll(slot, turns[..|turns| - 1]), turns[|turns| - 1])
  }

  ghost predicate About(turn: Turn, key: Key) {
    match turn
    case Want(c) => c.key == key && !c.terminating
    case Elsewhere(t) => CacheKeyFor(TodoKey(t)) != CacheKeyFor(key)
    case EmptyCache => true
  }

  ghost predicate InPlace(st: State, key: Key, slot: Slot) {
    match slot
    case Empty => key !in st.server.objects && CacheKeyFor(key) !in st.cache
    case Holds(spec, recorded) =>
      && key in st.server.objects
      && var o := st.server.objects[key];
         && o.spec == spec
         && !o.terminating
         && o.finalizers == {}
         && (if recorded then o.key == key && Contains(st.cache, o) && st.cache[CacheKeyFor(key)].uid >= 1
             else CacheKeyFor(key) !in st.cache)
  }

  ghost predicate Good(st: State, key: Key, slot: Slot) {
    key.kind == DATA_IMPORT_CRON && Consistent(st.server) && InPlace(st, key, slot)
  }

  // ----- one item

  lemma ReworkedSpec(c: Cron, owner: Owner, app: StringMap, o: Object)
    ensures Reworked(Copy({}), CronBuilder(c, owner, app).expected, o).spec == c.spec
  {
    assert CopySpec(c.spec, o.spec, {}) == c.spec;
  }

  lemma WantedInEmpty(st: State, c: Cron, owner: Owner, app: StringMap)
    requires Good(st, c.key, Empty) && !c.terminating
    ensures Good(Take(st, Want(c), owner, app), c.key, Holds(c.spec, true))
  {
    var b := CronBuilder(c, owner, app);
    CronBuilderIsWellFormed(c, owner, app);
    AbsentIsCreated(st.server, st.cache, b);
    var step := Quiet(st.server, st.cache, b);
    QuietRecords(st.server, st.cache, b);
    QuietKeepsReal(st.server, st.cache, b);
    CreatedCron(st, c, owner, app);
  }

  lemma CreatedCron(st: State, c: Cron, owner: Owner, app: StringMap)
    requires Good(st, c.key, Empty) && !c.terminating
    ensures var s' := Take(st, Want(c), owner, app).server;
            && c.key in s'.objects
            && s'.objects[c.key].spec == c.spec
            && !s'.objects[c.key].terminating
            && s'.objects[c.key].finalizers == {}
  {
    var b := CronBuilder(c, owner, app);
    var made := Reworked(b.update, b.expected, Blank(b.expected));
    FreshCreate(st.server, made);
    ReworkedSpec(c, owner, app, Blank(b.expected));
    NoDefaultsNoChange(made);
  }

  lemma SaneForCron(st: State, c: Cron, slot: Slot, owner: Owner, app: StringMap)
    requires Good(st, c.key, slot)
    ensures Sane(st.server, st.cache, CronBuilder(c, owner, app))
  {
  }

  lemma WantedWhenRecorded(st: State, c: Cron, spec: Spec, owner: Owner, app: StringMap)
    requires Good(st, c.key, Holds(spec, true))
    ensures Good(Take(st, Want(c), owner, app), c.key, Holds(spec, true))
  {
    var b := CronBuilder(c, owner, app);
    SaneForCron(st, c, Holds(spec, true), owner, app);
    assert Newest(st.server, c.key);
    HitMerges(st.server, st.cache, b);
    QuietKeepsSane(st.server, st.cache, b);
  }

  lemma WantedWhenUnrecorded(st: State, c: Cron, spec: Spec, owner: Owner, app: StringMap)
    requires Good(st, c.key, Holds(spec, false)) && !c.terminating
    ensures Good(Take(st, Want(c), owner, app), c.key, if c.spec == spec then Holds(spec, true) else Empty)
  {
    var b := CronBuilder(c, owner, app);
    SaneForCron(st, c, Holds(spec, false), owner, app);
    QuietKeepsSane(st.server, st.cache, b);
    if c.spec == spec { SameSpecIsRecorded(st, c, owner, app); } else { OtherSpecIsDeleted(st, c, spec, owner, app); }
  }

  lemma OtherSpecIsDeleted(st: State, c: Cron, spec: Spec, owner: Owner, app: StringMap)
    requires Good(st, c.key, Holds(spec, false)) && c.spec != spec
    ensures InPlace(Take(st, Want(c), owner, app), c.key, Empty)
  {
    var o := st.server.objects[c.key];
    assert Newest(st.server, c.key) && WellFormed(st.server, o);
    ReworkedSpec(c, owner, app, o);
  }

  lemma SameSpecIsRecorded(st: State, c: Cron, owner: Owner, app: StringMap)
    requires Good(st, c.key, Holds(c.spec, false))
    ensures InPlace(Take(st, Want(c), owner, app), c.key, Holds(c.spec, true))
  {
    var b := CronBuilder(c, owner, app);
    var o := st.server.objects[c.key];
    assert Newest(st.server, c.key) && WellFormed(st.server, o);
    ReworkedSpec(c, owner, app, o);
    var step := Quiet(st.server, st.cache, b);
    SameSpecSucceeds(st.server, st.cache, b, o);
    QuietStores(st.server, st.cache, b);
    NoDefaultsNoChange(Mutate(b, st.cache, o));
    QuietRecords(st.server, st.cache, b);
    QuietKeepsReal(st.server, st.cache, b);
  }

  /** Without a new spec even an immutable object is updated and not deleted. */
  lemma SameSpecSucceeds(s: Server, c: Cache, b: Builder, o: Object)
    requires Consistent(s) && o.key in s.objects && s.objects[o.key] == o && b.expected.key == o.key && !o.terminating
    requires Mutate(b, c, o).spec == o.spec
    ensures Quiet(s, c, b).result in {Done(Unchanged, false), Done(Updated, false)}
  {
    var found := Mutate(b, c, o);
    if found == o {
      assert WriteFor(b, c, Some(o)) == None;
    } else {
      MutationKeepsIdentity(b, c, o);
      UpdatedIsReturned(s, o, found);
      assert WriteFor(b, c, Some(o)) == Some(UpdateOp(found));
      ReplySettles(c, Some(o), UpdateOp(found), Apply(s, UpdateOp(found)));
    }
  }

  lemma ElsewhereLeavesSlot(st: State, t: Todo, key: Key, slot: Slot, owner: Owner, app: StringMap)
    requires Good(st, key, slot) && CacheKeyFor(TodoKey(t)) != CacheKeyFor(key)
    ensures Good(Take(st, Elsewhere(t), owner, app), key, slot)
  {
    ExecuteKeepsConsistent(st, t);
    UntouchedKey(st, [t], key);
    assert ExecuteAll(st, [t]) == Execute(st, t) by { assert [t][..0] == []; assert ExecuteAll(st, [t][..0]) == st; }
    SameView(st, Execute(st, t), key, slot);
  }

  lemma SameView(st: State, st': State, key: Key, slot: Slot)
    requires Good(st, key, slot) && ViewAt(st', key) == ViewAt(st, key)
    ensures InPlace(st', key, slot)
  {
    assert Lookup(st'.server.objects, key) == Lookup(st.server.objects, key);
    assert Lookup(st'.cache, CacheKeyFor(key)) == Lookup(st.cache, CacheKeyFor(key));
    if key in st.server.objects { assert Newest(st.server, key); }
  }

  lemma SlotTracks(st: State, turn: Turn, key: Key, slot: Slot, owner: Owner, app: StringMap)
    requires Good(st, key, slot) && About(turn, key)
    ensures Good(Take(st, turn, owner, app), key, SlotAfter(slot, turn))
  {
    match turn
    case Want(c) =>
      if slot.Empty? { WantedInEmpty(st, c, owner, app); }
      else if slot.recorded { WantedWhenRecorded(st, c, slot.spec, owner, app); }
      else { WantedWhenUnrecorded(st, c, slot.spec, owner, app); }
    case Elsewhere(t) => ElsewhereLeavesSlot(st, t, key, slot, owner, app);
    case EmptyCache =>
  }

  /** Over every sequence of items and cache resets, in any order, the place holds what the small machine says. */
  lemma {:induction false} SlotTracksAll(
    st: State, turns: seq<Turn>, key: Key, slot: Slot, owner: Owner, app: StringMap)
    requires Good(st, key, slot) && forall turn <- turns :: About(turn, key)
    ensures Good(TakeAll(st, turns, owner, app), key, SlotAfterAll(slot, turns))
  {
    if turns != [] {
      var n := |turns| - 1;
      SlotTracksAll(st, turns[..n], key, slot, owner, app);
      SlotTracks(TakeAll(st, turns[..n], owner, app), turns[n], key, SlotAfterAll(slot, turns[..n]), owner, app);
    }
  }

  // ----- who wins

  lemma {:induction false} RecordedStays(spec: Spec, turns: seq<Turn>)
    requires forall turn <- turns :: !turn.EmptyCache?
    ensures SlotAfterAll(Holds(spec, true), turns) == Holds(spec, true)
  {
    if turns != [] { RecordedStays(spec, turns[..|turns| - 1]); }
  }

  lemma {:induction false} SlotsJoin(slot: Slot, a: seq<Turn>, b: seq<Turn>)
    ensures SlotAfterAll(slot, a + b) == SlotAfterAll(SlotAfterAll(slot, a), b)
  {
    if b == [] {
      assert a + b == a;
    } else {
      var n := |b| - 1;
      assert (a + b)[..|a + b| - 1] == a + b[..n];
      SlotsJoin(slot, a, b[..n]);
    }
  }

  /**
   While the cache is kept, the first cron in an empty place wins: whatever order later items and
   passes come in, the specs of the others are never stored.
   */
  lemma FirstCronWins(st: State, c: Cron, later: seq<Turn>, owner: Owner, app: StringMap)
    requires Good(st, c.key, Empty) && !c.terminating
    requires forall turn <- later :: About(turn, c.key) && !turn.EmptyCache?
    ensures var after := TakeAll(st, [Want(c)] + later, owner, app).server;
            c.key in after.objects && after.objects[c.key].spec == c.spec
  {
    SlotsJoin(Empty, [Want(c)], later);
    assert [Want(c)][..0] == [] && SlotAfterAll(Empty, []) == Empty;
    RecordedStays(c.spec, later);
    SlotTracksAll(st, [Want(c)] + later, c.key, Empty, owner, app);
  }

  /**
   Once the cache has been emptied, the next cron with another spec deletes the object,
   and the one after it takes the place.
   */
  lemma EmptiedCacheTurnsOver(st: State, spec: Spec, d: Cron, e: Cron, owner: Owner, app: StringMap)
    requires Good(st, d.key, Holds(spec, true)) && d.spec != spec && e.key == d.key && !d.terminating && !e.terminating
    ensures var after := TakeAll(st, [EmptyCache, Want(d), Want(e)], owner, app).server;
            d.key in after.objects && after.objects[d.key].spec == e.spec
  {
    var turns := [EmptyCache, Want(d), Want(e)];
    assert turns[..2] == [EmptyCache, Want(d)] && turns[..2][..1] == [EmptyCache] && turns[..2][..1][..0] == [];
    assert SlotAfterAll(Holds(spec, true), turns[..2][..1]) == Holds(spec, false);
    assert SlotAfterAll(Holds(spec, true), turns[..2]) == Empty;
    SlotTracksAll(st, turns, d.key, Holds(spec, true), owner, app);
  }
}

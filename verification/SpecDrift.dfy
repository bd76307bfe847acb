/** What the spec of a managed object is after a pass, field by field. */
module SpecDrift {
  import opened Kube
  import opened ApiServer
  import opened UpdateFuncs
  import opened Engine
  import opened CacheSoundness
  import opened CacheAgreement
  import opened Convergence

  /** Kept fields are the found ones, other expected fields the expected ones, and the server fills in the rest. */
  ghost predicate TakenOver(
    keep: set<string>, defaults: StringMap, expected: StringMap, found: StringMap, after: StringMap)
  {
    && (forall k <- expected :: k !in keep ==> k in after && after[k] == expected[k])
    && (forall k <- found :: k in keep ==> k in after && after[k] == found[k])
    && (forall k <- defaults :: k in after)
    && (forall k <- after ::
          || (k !in keep && k in expected)
          || (k in keep && k in found)
          || (k in defaults && after[k] == defaults[k]))
  }

  /** The spec that is due, given the one that was found. */
  ghost predicate SpecIsDue(u: UpdateFunc, kind: Kind, expected: Spec, found: Spec, after: Spec) {
    match u
    case Copy(keep) =>
      if expected.Fields? then
        && after.Fields?
        && if found.Fields? then TakenOver(keep, kind.defaults, expected.fields, found.fields, after.fields)
           else TakenOver({}, kind.defaults, expected.fields, map[], after.fields)
      else after == expected
    case SyncTemplate => WrittenOver(kind, expected, after)
    case HandOver(auto, _, _) => if auto then after == found else WrittenOver(kind, expected, after)
    case _ => after == found
  }

  /** Nothing of what was there before is left. */
  ghost predicate WrittenOver(kind: Kind, expected: Spec, after: Spec) {
    if expected.Fields?
    then after.Fields? && TakenOver({}, kind.defaults, expected.fields, map[], after.fields)
    else after == expected
  }

  lemma MadeSpecIsDue(u: UpdateFunc, kind: Kind, found: Spec, expected: Spec)
    ensures SpecIsDue(u, kind, expected, Defaulted(kind, found), Defaulted(kind, SpecAfter(u, found, expected)))
  {
  }

  /** A pass that the cache does not stop leaves the spec that is due, unless it deletes the object. */
  lemma MissWritesSpec(s: Server, c: Cache, b: Builder)
    requires Consistent(s) && Deletable(s, b) && b.expected.key in s.objects && !Hit(s, c, b)
    requires Quiet(s, c, b).result != Done(Deleted, true)
    ensures b.expected.key in Quiet(s, c, b).server.objects
    ensures SpecIsDue(b.update, b.expected.key.kind, b.expected.spec, s.objects[b.expected.key].spec,
                      Quiet(s, c, b).server.objects[b.expected.key].spec)
  {
    var o := s.objects[b.expected.key];
    assert Newest(s, o.key) && WellFormed(s, o);
    assert Stored(o) == o;
    QuietStores(s, c, b);
    MadeSpecIsDue(b.update, o.key.kind, o.spec, b.expected.spec);
  }

  /** What an empty object of the same type reads as. */
  function EmptySpec(like: Spec, defaults: StringMap): Spec {
    if like.Fields? then Fields(defaults)
    else if like.DataSourceSpec? then DataSourceSpec(NoSource)
    else if like.CronSpec? then CronSpec("", NoRegistry, "")
    else TemplateSpec(Undecodable, [])
  }

  /** So does a pass that creates the object, as if it had found an empty one. */
  lemma CreationWritesSpec(s: Server, c: Cache, b: Builder)
    requires Consistent(s) && b.expected.key !in s.objects && RealEntry(c, b)
    ensures b.expected.key in Quiet(s, c, b).server.objects
    ensures SpecIsDue(b.update, b.expected.key.kind, b.expected.spec,
                      EmptySpec(b.expected.spec, b.expected.key.kind.defaults),
                      Quiet(s, c, b).server.objects[b.expected.key].spec)
  {
    var blank := Blank(b.expected);
    var made := Reworked(b.update, b.expected, blank);
    assert Mutate(b, c, blank) == made;
    FreshCreate(s, made);
    MadeSpecIsDue(b.update, b.expected.key.kind, blank.spec, b.expected.spec);
    BlankIsEmpty(b.expected.key.kind, b.expected.spec);
  }

  lemma BlankIsEmpty(kind: Kind, like: Spec)
    ensures Defaulted(kind, BlankSpec(like)) == EmptySpec(like, kind.defaults)
  {
    if like.Fields? { assert kind.defaults + map[] == kind.defaults; }
  }

  lemma CopyOfEverything(found: Spec, expected: Spec)
    ensures SpecAfter(Copy({}), found, expected) == expected
  {
    if expected.Fields? && found.Fields? { assert SpecAfter(Copy({}), found, expected).fields == expected.fields; }
  }

  lemma DeletesIff(s: Server, c: Cache, b: Builder)
    ensures Quiet(s, c, b).result == Done(Deleted, true) <==>
              && b.expected.key in s.objects
              && var w := WriteFor(b, c, Some(s.objects[b.expected.key]));
                 w.Some? && w.value.DeleteOp? && w.value.key in s.objects
  {
  }

  lemma WantsDeletionIff(b: Builder, c: Cache, o: Object)
    requires b.immutableSpec ==> b.update == Copy({})
    ensures var w := WriteFor(b, c, Some(o));
            && (w.Some? && w.value.DeleteOp? <==>
                  b.immutableSpec && !o.terminating && (b.always || !Contains(c, o)) && o.spec != b.expected.spec)
            && (w.Some? && w.value.DeleteOp? ==> w.value.key == o.key)
  {
    CopyOfEverything(o.spec, b.expected.spec);
  }

  /** An object is deleted exactly if its spec may not be changed and is not the expected one, as far as is known. */
  lemma DeletedIff(s: Server, c: Cache, b: Builder)
    requires Consistent(s) && (b.immutableSpec ==> b.update == Copy({}))
    ensures Quiet(s, c, b).result == Done(Deleted, true) <==>
              && b.immutableSpec
              && b.expected.key in s.objects
              && var o := s.objects[b.expected.key];
                 !o.terminating && (b.always || !Contains(c, o)) && o.spec != b.expected.spec
  {
    DeletesIff(s, c, b);
    if b.expected.key in s.objects {
      assert Newest(s, b.expected.key);
      WantsDeletionIff(b, c, s.objects[b.expected.key]);
    }
  }

  // ----- labels of the application

  /** A settled object says which operand it belongs to, and repeats two labels of the SSP object if that has any. */
  lemma AppLabelsAreThere(s: Server, c: Cache, r: Resource, sspLabels: StringMap)
    requires WellFormedBuilder(BuilderOf(r, sspLabels)) && Settled(s, c, BuilderOf(r, sspLabels))
    ensures var labels := s.objects[r.desired.key].labels;
            && Lookup(labels, "app.kubernetes.io/name") == Some(r.operand)
            && Lookup(labels, "app.kubernetes.io/component") == Some(r.component)
            && Lookup(labels, "app.kubernetes.io/managed-by") == Some("ssp-operator")
            && forall k <- {"app.kubernetes.io/part-of", "app.kubernetes.io/version"} ::
                 sspLabels != map[] ==> Lookup(labels, k) == Some(GetOrEmpty(sspLabels, k))
  {
    ExpectedWins(s, c, BuilderOf(r, sspLabels));
    AppLabelsAre(r.operand, r.component, sspLabels);
    var o, expected := s.objects[r.desired.key], ExpectedOf(r, sspLabels);
    forall k <- LabelsOf(r, sspLabels) ensures Lookup(o.labels, k) == Some(LabelsOf(r, sspLabels)[k]) {
      assert k in expected.labels && expected.labels[k] == LabelsOf(r, sspLabels)[k];
    }
  }

  lemma AppLabelsAre(name: string, component: string, sspLabels: StringMap)
    ensures var labels := AppLabels(sspLabels, name, component);
            && Lookup(labels, "app.kubernetes.io/name") == Some(name)
            && Lookup(labels, "app.kubernetes.io/component") == Some(component)
            && Lookup(labels, "app.kubernetes.io/managed-by") == Some("ssp-operator")
            && forall k <- {"app.kubernetes.io/part-of", "app.kubernetes.io/version"} ::
                 sspLabels != map[] ==> Lookup(labels, k) == Some(GetOrEmpty(sspLabels, k))
  {
    AppLabelsDiffer();
  }

  lemma AppLabelsDiffer()
    ensures PART_OF != APP_VERSION && PART_OF != APP_NAME && PART_OF != APP_COMPONENT && PART_OF != MANAGED_BY
    ensures APP_VERSION != APP_NAME && APP_VERSION != APP_COMPONENT && APP_VERSION != MANAGED_BY
    ensures APP_NAME != APP_COMPONENT && APP_NAME != MANAGED_BY && APP_COMPONENT != MANAGED_BY
  {
    assert PART_OF[18] == 'p' && APP_VERSION[18] == 'v' && APP_NAME[18] == 'n';
    assert APP_COMPONENT[18] == 'c' && MANAGED_BY[18] == 'm';
  }

  // ----- drift

  /** A change of the spec is noticed, whoever made it: what was recorded no longer fits. */
  lemma DriftIsNoticed(s: Server, c: Cache, recorded: Object, o: Object)
    requires Consistent(s) && recorded in s.published && o in s.published && Contains(c, recorded)
    requires recorded.key == o.key && recorded.spec != o.spec
    ensures !Contains(c, o)
  {
    assert Agree(recorded, o) && WellFormed(s, recorded) && WellFormed(s, o);
  }

  /** And the next quiet pass puts the expected spec back, or deletes an object whose spec may not be changed. */
  lemma DriftIsCorrected(s: Server, c: Cache, b: Builder, recorded: Object)
    requires Consistent(s) && Deletable(s, b) && (b.immutableSpec ==> b.update == Copy({}))
    requires b.expected.key in s.objects && recorded in s.published && Contains(c, recorded)
    requires recorded.key == b.expected.key && recorded.spec != s.objects[b.expected.key].spec
    ensures var step := Quiet(s, c, b);
            if b.immutableSpec && s.objects[b.expected.key].spec != b.expected.spec
            then b.expected.key !in step.server.objects
            else && b.expected.key in step.server.objects
                 && SpecInOrder(b.update, b.expected.key.kind, b.expected.spec,
                                step.server.objects[b.expected.key].spec)
  {
    var o := s.objects[b.expected.key];
    assert Newest(s, o.key);
    DriftIsNoticed(s, c, recorded, o);
    DeletedIff(s, c, b);
    if b.immutableSpec && o.spec != b.expected.spec {
      DeletionRemoves(s, c, b);
    } else {
      MissWritesSpec(s, c, b);
      DueIsInOrder(b.update, o.key.kind, b.expected.spec, o.spec, Quiet(s, c, b).server.objects[o.key].spec);
    }
  }

  lemma DeletionRemoves(s: Server, c: Cache, b: Builder)
    requires Consistent(s) && Deletable(s, b) && b.immutableSpec && Quiet(s, c, b).result == Done(Deleted, true)
    ensures b.expected.key !in Quiet(s, c, b).server.objects
  {
    DeletesIff(s, c, b);
    assert Newest(s, b.expected.key);
  }

  lemma DueIsInOrder(u: UpdateFunc, kind: Kind, expected: Spec, found: Spec, after: Spec)
    requires SpecIsDue(u, kind, expected, found, after)
    ensures SpecInOrder(u, kind, expected, after)
  {
  }

  /** A settled object has the spec in order, and with the expected metadata that is all it takes. */
  lemma SettledSpecIff(s: Server, c: Cache, b: Builder)
    requires Consistent(s) && b.expected.key in s.objects && WellFormedBuilder(b)
    ensures Settled(s, c, b) ==>
              SpecInOrder(b.update, b.expected.key.kind, b.expected.spec, s.objects[b.expected.key].spec)
    ensures var o := s.objects[b.expected.key];
            && Hit(s, c, b)
            && !o.terminating
            && Merge(b.expected, o) == o
            && !TouchesMetadata(b.update)
            && SpecInOrder(b.update, o.key.kind, b.expected.spec, o.spec)
            ==> Settled(s, c, b)
  {
    var o := s.objects[b.expected.key];
    assert Newest(s, o.key) && WellFormed(s, o);
    assert Stored(o) == o;
    FixedSpecIff(b.update, o.key.kind, b.expected.spec, o.spec);
    if Fixed(b.update, b.expected, o) { FixedSpec(b.update, b.expected, o); }
  }
}

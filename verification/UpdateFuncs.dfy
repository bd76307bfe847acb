/**
 What a reconcile pass does to an object it found: owner references, labels and
 annotations are merged on every pass, the update function runs on top of that.
 */
module UpdateFuncs {
  import opened Kube
  import opened ApiServer

  const PART_OF := "app.kubernetes.io/part-of"
  const APP_VERSION := "app.kubernetes.io/version"
  const APP_NAME := "app.kubernetes.io/name"
  const APP_COMPONENT := "app.kubernetes.io/component"
  const MANAGED_BY := "app.kubernetes.io/managed-by"
  const APP_LABELS: set<string> := {PART_OF, APP_VERSION, APP_NAME, APP_COMPONENT, MANAGED_BY}

  const CRON_LABEL := "cdi.kubevirt.io/dataImportCron"
  const DEPRECATED := "template.kubevirt.io/deprecated"
  const TEMPLATE_DOMAIN := "template.kubevirt.io/"
  const OS_PREFIX := "os.template.kubevirt.io/"
  const FLAVOR_PREFIX := "flavor.template.kubevirt.io/"
  const WORKLOAD_PREFIX := "workload.template.kubevirt.io/"

  /** Labels every managed object carries; two of them are copied from the SSP object, if it has labels at all. */
  function AppLabels(sspLabels: StringMap, name: string, component: string): (r: StringMap)
    ensures r.Keys <= APP_LABELS
  {
    (if sspLabels == map[] then map[]
     else map[PART_OF := GetOrEmpty(sspLabels, PART_OF), APP_VERSION := GetOrEmpty(sspLabels, APP_VERSION)])
    + map[APP_NAME := name, APP_COMPONENT := component, MANAGED_BY := "ssp-operator"]
  }

  datatype UpdateFunc =
    | Copy(keep: set<string>) // take over the expected spec, except fields the cluster owns
    | Leave // namespaces and service accounts
    | SyncTemplate
    | HandOver(auto: bool, cron: string, appLabels: StringMap)
    | Deprecate

  function CopySpec(expected: Spec, found: Spec, keep: set<string>): Spec {
    if expected.Fields? && found.Fields?
    then Fields((expected.fields - keep) + (map k | k in found.fields && k in keep :: found.fields[k]))
    else expected
  }

  predicate ContainsDomain(key: string) {
    exists i :: 0 <= i <= |key| && HasPrefix(key[i..], TEMPLATE_DOMAIN) && (i == 0 || key[i - 1] == '.')
  }

  /** Keys that belong to the common templates, so a key the shipped template dropped is dropped here too. */
  predicate IsPredefinedKey(key: string) {
    || key in {"description", "tags", "iconClass"}
    || HasPrefix(key, "openshift.io/")
    || ContainsDomain(key)
  }

  /** Removes the predefined keys that the expected map no longer has. */
  function DropStale(found: StringMap, expected: StringMap): StringMap {
    map k | k in found && (IsPredefinedKey(k) ==> k in expected) :: found[k]
  }

  predicate IsSelectorLabel(key: string) {
    HasPrefix(key, OS_PREFIX) || HasPrefix(key, FLAVOR_PREFIX) || HasPrefix(key, WORKLOAD_PREFIX)
  }

  function WithoutSelectors(labels: StringMap): StringMap {
    map k | k in labels && !IsSelectorLabel(k) :: labels[k]
  }

  /** The labels an update function leaves, given the merged labels. */
  function LabelsAfter(u: UpdateFunc, merged: StringMap, expected: StringMap): StringMap {
    match u
    case SyncTemplate => DropStale(merged, expected)
    case HandOver(auto, cron, appLabels) =>
      if auto then merged[CRON_LABEL := cron] else (merged + appLabels) - {CRON_LABEL}
    case Deprecate => WithoutSelectors(merged)[DEPRECATED := "true"]
    case _ => merged
  }

  function AnnotationsAfter(u: UpdateFunc, merged: StringMap, expected: StringMap): StringMap {
    match u
    case SyncTemplate => DropStale(merged, expected)
    case Deprecate => merged[DEPRECATED := "true"]
    case _ => merged
  }

  function SpecAfter(u: UpdateFunc, found: Spec, expected: Spec): Spec {
    match u
    case Copy(keep) => CopySpec(expected, found, keep)
    case SyncTemplate => expected
    case HandOver(auto, _, _) => if auto then found else expected
    case _ => found
  }

  function RunUpdate(u: UpdateFunc, expected: Object, found: Object): Object {
    found.(labels := LabelsAfter(u, found.labels, expected.labels),
           annotations := AnnotationsAfter(u, found.annotations, expected.annotations),
           spec := SpecAfter(u, found.spec, expected.spec))
  }

  /** Expected owners replace the found ones; expected labels and annotations win, others survive. */
  function Merge(expected: Object, found: Object): Object {
    found.(ownerRefs := expected.ownerRefs,
           labels := found.labels + expected.labels,
           annotations := found.annotations + expected.annotations)
  }

  /** The object the update function produces from a found one. */
  function Reworked(u: UpdateFunc, expected: Object, found: Object): Object {
    RunUpdate(u, expected, Merge(expected, found))
  }

  /** Running the update function on this object changes nothing that the server would store. */
  ghost predicate Fixed(u: UpdateFunc, expected: Object, o: Object) {
    Stored(Reworked(u, expected, o)) == Merge(expected, o)
  }

  /** Labels the update function would itself undo must not be expected. */
  predicate Compatible(u: UpdateFunc, expected: Object) {
    match u
    case HandOver(auto, cron, appLabels) =>
      && CRON_LABEL !in expected.labels
      && expected.labels.Keys !! appLabels.Keys
      && CRON_LABEL !in appLabels
    case Deprecate =>
      && (forall k <- expected.labels :: !IsSelectorLabel(k))
      && (DEPRECATED in expected.labels ==> expected.labels[DEPRECATED] == "true")
      && (DEPRECATED in expected.annotations ==> expected.annotations[DEPRECATED] == "true")
    case _ => true
  }

  /** What the update function may change besides the spec. */
  predicate TouchesMetadata(u: UpdateFunc) {
    !u.Copy? && !u.Leave?
  }

  /** Copying over what the server made of a copy gives the same again. */
  lemma CopySettles(keep: set<string>, kind: Kind, found: Spec, expected: Spec)
    ensures var s := Defaulted(kind, CopySpec(expected, found, keep));
            Defaulted(kind, CopySpec(expected, s, keep)) == s
  {
    var s := Defaulted(kind, CopySpec(expected, found, keep));
    if s.Fields? { assert Defaulted(kind, CopySpec(expected, s, keep)).fields == s.fields; }
  }

  lemma DefaultingIsIdempotent(kind: Kind, spec: Spec)
    ensures Defaulted(kind, Defaulted(kind, spec)) == Defaulted(kind, spec)
  {
    var s := Defaulted(kind, spec);
    if s.Fields? { assert Defaulted(kind, s).fields == s.fields; }
  }

  lemma SpecSettles(u: UpdateFunc, kind: Kind, found: Spec, expected: Spec)
    ensures var s := Defaulted(kind, SpecAfter(u, found, expected));
            Defaulted(kind, SpecAfter(u, s, expected)) == s
  {
    match u
    case Copy(keep) => CopySettles(keep, kind, found, expected);
    case _ => DefaultingIsIdempotent(kind, SpecAfter(u, found, expected));
  }

  /** A map that already has all of another one is unchanged by merging it. */
  lemma Absorbs(m: StringMap, e: StringMap)
    requires forall k <- e :: k in m && m[k] == e[k]
    ensures m + e == m
  {
  }

  lemma LabelsSettle(u: UpdateFunc, found: StringMap, expected: Object)
    requires Compatible(u, expected)
    ensures var l := LabelsAfter(u, found + expected.labels, expected.labels);
            l + expected.labels == l && LabelsAfter(u, l, expected.labels) == l
  {
    var l := LabelsAfter(u, found + expected.labels, expected.labels);
    SelectorsExcludeDeprecated();
    Absorbs(l, expected.labels);
    match u
    case SyncTemplate => assert DropStale(l, expected.labels) == l;
    case HandOver(auto, cron, appLabels) =>
      if !auto { assert (l + appLabels) - {CRON_LABEL} == l; }
    case Deprecate => assert WithoutSelectors(l)[DEPRECATED := "true"] == l;
    case _ =>
  }

  lemma AnnotationsSettle(u: UpdateFunc, found: StringMap, expected: Object)
    requires Compatible(u, expected)
    ensures var a := AnnotationsAfter(u, found + expected.annotations, expected.annotations);
            a + expected.annotations == a && AnnotationsAfter(u, a, expected.annotations) == a
  {
    var a := AnnotationsAfter(u, found + expected.annotations, expected.annotations);
    Absorbs(a, expected.annotations);
    if u.SyncTemplate? { assert DropStale(a, expected.annotations) == a; }
  }

  lemma SelectorsExcludeDeprecated()
    ensures !IsSelectorLabel(DEPRECATED)
  {
    assert DEPRECATED[0] == 't' && OS_PREFIX[0] == 'o' && FLAVOR_PREFIX[0] == 'f' && WORKLOAD_PREFIX[0] == 'w';
  }

  /** The reworked object keeps everything that the merge asked for. */
  lemma ReworkedIsMerged(u: UpdateFunc, expected: Object, found: Object)
    requires Compatible(u, expected)
    ensures Merge(expected, Reworked(u, expected, found)) == Reworked(u, expected, found)
  {
    LabelsSettle(u, found.labels, expected);
    AnnotationsSettle(u, found.annotations, expected);
  }

  /** Update functions are idempotent, up to what the server stores. */
  lemma UpdateSettles(u: UpdateFunc, expected: Object, found: Object, o: Object)
    requires Compatible(u, expected)
    requires var made := Stored(Reworked(u, expected, found));
             o == made.(uid := o.uid, version := o.version, generation := o.generation, conditions := o.conditions)
    ensures Merge(expected, o) == o
    ensures Fixed(u, expected, o)
  {
    LabelsSettle(u, found.labels, expected);
    AnnotationsSettle(u, found.annotations, expected);
    SpecSettles(u, o.key.kind, found.spec, expected.spec);
  }

  /** An object the update function leaves alone already carries everything expected. */
  lemma UntouchedIsMerged(u: UpdateFunc, expected: Object, o: Object)
    requires Compatible(u, expected)
    requires Reworked(u, expected, o) == o
    ensures Merge(expected, o) == o
  {
    ReworkedIsMerged(u, expected, o);
  }

  /** For update functions that only write the spec, being fixed depends on the spec alone. */
  lemma FixedBySpec(u: UpdateFunc, expected: Object, o: Object, p: Object)
    requires !TouchesMetadata(u)
    requires o.key == p.key && o.spec == p.spec
    requires Fixed(u, expected, o)
    ensures Fixed(u, expected, p)
  {
    assert Stored(Reworked(u, expected, o)).spec == o.spec;
  }

  // ----- which keys are meant

  lemma StartsIff(key: string, prefix: string)
    ensures HasPrefix(key, prefix) <==> exists rest :: key == prefix + rest
  {
    if HasPrefix(key, prefix) { assert key == prefix + key[|prefix|..]; }
  }

  ghost predicate InDomain(key: string, domain: string) {
    (exists rest :: key == domain + rest) || (exists sub, rest :: key == sub + "." + domain + rest)
  }

  lemma FoundInDomain(key: string, domain: string, i: nat)
    requires i <= |key| && HasPrefix(key[i..], domain) && (i == 0 || key[i - 1] == '.')
    ensures InDomain(key, domain)
  {
    var rest := key[i..][|domain|..];
    assert key[i..] == domain + rest;
    if i > 0 { assert key == key[..i - 1] + "." + domain + rest; } else { assert key == domain + rest; }
  }

  lemma DomainIsFound(key: string, domain: string) returns (i: nat)
    requires InDomain(key, domain)
    ensures i <= |key| && HasPrefix(key[i..], domain) && (i == 0 || key[i - 1] == '.')
  {
    if rest :| key == domain + rest {
      i := 0;
      assert key[0..] == key;
    } else {
      var sub, rest :| key == sub + "." + domain + rest;
      i := |sub| + 1;
      assert key[i..] == domain + rest && key[|sub|] == '.';
    }
  }

  lemma ContainsDomainIff(key: string)
    ensures ContainsDomain(key) <==> InDomain(key, TEMPLATE_DOMAIN)
  {
    if i :| 0 <= i <= |key| && HasPrefix(key[i..], TEMPLATE_DOMAIN) && (i == 0 || key[i - 1] == '.') {
      FoundInDomain(key, TEMPLATE_DOMAIN, i);
    }
    if InDomain(key, TEMPLATE_DOMAIN) {
      var i := DomainIsFound(key, TEMPLATE_DOMAIN);
    }
  }

  /** Three names, a vendor's domain, and the domain of the templates with whatever comes before a dot. */
  lemma PredefinedIff(key: string)
    ensures IsPredefinedKey(key) <==>
              || key == "description"
              || key == "tags"
              || key == "iconClass"
              || (exists rest :: key == "openshift.io/" + rest)
              || InDomain(key, "template.kubevirt.io/")
  {
    StartsIff(key, "openshift.io/");
    ContainsDomainIff(key);
  }

  lemma SelectorIff(key: string)
    ensures IsSelectorLabel(key) <==>
              exists rest ::
                || key == "os.template.kubevirt.io/" + rest
                || key == "flavor.template.kubevirt.io/" + rest
                || key == "workload.template.kubevirt.io/" + rest
  {
    StartsIff(key, OS_PREFIX);
    StartsIff(key, FLAVOR_PREFIX);
    StartsIff(key, WORKLOAD_PREFIX);
  }
}

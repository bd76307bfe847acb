/**
 Old common templates hold the validation rules of the VMs made from them, so the webhook
 refuses to delete such a template while a cached VM refers to it.
 */
module TemplateProtection {
  import opened Kube
  import opened VmCache

  const TEMPLATE_TYPE := "template.kubevirt.io/type"
  const VALIDATIONS := "validations"

  datatype Template = Template(namespace: string, name: string, labels: StringMap, annotations: StringMap)

  function ObjectKey(t: Template): string {
    t.namespace + "/" + t.name
  }

  // ----- which template a VM refers to

  /** A complete reference: a name, and the current namespace entry or else the old one. */
  predicate NamesTemplate(m: StringMap, namespace: string, name: string) {
    && name != ""
    && namespace != ""
    && TEMPLATE_NAME in m
    && m[TEMPLATE_NAME] == name
    && if TEMPLATE_NAMESPACE in m && m[TEMPLATE_NAMESPACE] != ""
       then m[TEMPLATE_NAMESPACE] == namespace
       else TEMPLATE_OLD_NAMESPACE in m && m[TEMPLATE_OLD_NAMESPACE] == namespace
  }

  /** Annotations count only if the labels hold no complete reference. */
  ghost predicate RefersTo(vm: Vm, namespace: string, name: string) {
    || NamesTemplate(vm.labels, namespace, name)
    || (NamesTemplate(vm.annotations, namespace, name) && forall ns, n :: !NamesTemplate(vm.labels, ns, n))
  }

  /** No name of an object in the cluster has a slash. */
  predicate PlainNames(t: Template) {
    '/' !in t.namespace && '/' !in t.name
  }

  lemma JoinedNames(a: string, b: string, t: Template)
    requires PlainNames(t) && a + "/" + b == ObjectKey(t)
    ensures a == t.namespace && b == t.name
  {
    var key := ObjectKey(t);
    assert key[|t.namespace|] == '/' && key[|a|] == '/';
    assert forall i :: 0 <= i < |t.namespace| ==> key[i] == t.namespace[i];
    assert forall i :: |t.namespace| < i < |key| ==> key[i] == t.name[i - |t.namespace| - 1];
    assert a == key[..|a|] && b == key[|a| + 1..];
  }

  lemma ReferenceIn(m: StringMap, namespace: string, name: string)
    ensures NamesTemplate(m, namespace, name) <==>
              KeyIn(m).Valid() && KeyIn(m).AnyNamespace() == namespace && KeyIn(m).name == name
  {
  }

  lemma ReferenceOf(vm: Vm, namespace: string, name: string)
    ensures RefersTo(vm, namespace, name) <==>
              TemplateOf(vm).Valid() && TemplateOf(vm).AnyNamespace() == namespace && TemplateOf(vm).name == name
  {
    var key := KeyIn(vm.labels);
    forall ns, n ensures NamesTemplate(vm.labels, ns, n) <==> key.Valid() && key.AnyNamespace() == ns && key.name == n {
      ReferenceIn(vm.labels, ns, n);
    }
    ReferenceIn(vm.annotations, namespace, name);
    if key.Valid() { assert NamesTemplate(vm.labels, key.AnyNamespace(), key.name); }
  }

  /** The key under which a VM is filed is that of the template that its labels or annotations name. */
  lemma FiledUnderIff(vm: Vm, t: Template)
    requires PlainNames(t)
    ensures TemplateOf(vm).Text() == ObjectKey(t) <==> RefersTo(vm, t.namespace, t.name)
  {
    ReferenceOf(vm, t.namespace, t.name);
    var key := TemplateOf(vm);
    if key.Text() == ObjectKey(t) {
      assert ObjectKey(t)[|t.namespace|] == '/';
      JoinedNames(key.AnyNamespace(), key.name, t);
    }
  }

  // ----- where the rules for a VM come from

  datatype Rules = NoRules | OwnRules(text: string) | TemplateRules(t: Template)

  /** `templates` is the informer's store. */
  function RulesFor(vm: Vm, templates: map<string, Template>): Rules {
    if vm.deleting then NoRules
    else if SKIP_VALIDATIONS in vm.annotations then NoRules
    else if GetOrEmpty(vm.annotations, OWN_VALIDATIONS) != "" then OwnRules(vm.annotations[OWN_VALIDATIONS])
    else if !HasTemplate(vm) then NoRules
    else
      var key := TemplateOf(vm).Text();
      if key in templates then TemplateRules(templates[key]) else NoRules
  }

  /** A VM takes its rules from a stored template exactly if it refers to it and neither has nor skips rules. */
  lemma TakesRulesIff(vm: Vm, templates: map<string, Template>, t: Template)
    requires PlainNames(t) && WellKeyedTemplates(templates)
    ensures RulesFor(vm, templates) == TemplateRules(t) <==>
              && RefersTo(vm, t.namespace, t.name)
              && t in templates.Values
              && !vm.deleting
              && SKIP_VALIDATIONS !in vm.annotations
              && (OWN_VALIDATIONS in vm.annotations ==> vm.annotations[OWN_VALIDATIONS] == "")
  {
    FiledUnderIff(vm, t);
    if t in templates.Values {
      var k :| k in templates && templates[k] == t;
      assert k == ObjectKey(t);
    }
    ReferenceOf(vm, t.namespace, t.name);
  }

  ghost predicate WellKeyedTemplates(templates: map<string, Template>) {
    forall k <- templates :: ObjectKey(templates[k]) == k
  }

  // ----- the decision about deleting a template

  datatype Operation = CREATE | UPDATE | DELETE | CONNECT

  datatype Response = Allowed | Invalid | Forbidden(vms: seq<string>)

  predicate CarriesRules(t: Template) {
    TEMPLATE_TYPE in t.labels && VALIDATIONS in t.annotations
  }

  ghost predicate Refused(store: Store, t: Template) {
    CarriesRules(t) && exists k :: k in store && store[k].template == ObjectKey(t)
  }

  method AdmitTemplate(operation: Operation, review: Option<Template>, cache: VmStore) returns (r: Response)
    requires Sound(cache.View())
    ensures r.Invalid? <==> operation.DELETE? && review.None?
    ensures r.Forbidden? <==> operation.DELETE? && review.Some? && Refused(cache.store, review.value)
    ensures r.Forbidden? ==>
              forall k :: k in r.vms <==> k in cache.store && cache.store[k].template == ObjectKey(review.value)
  {
    if operation != DELETE { return Allowed; }
    if review.None? { return Invalid; }
    var t := review.value;
    if TEMPLATE_TYPE !in t.labels { return Allowed; }
    if VALIDATIONS !in t.annotations { return Allowed; }
    var vms := cache.GetVmsForTemplate(ObjectKey(t));
    if |vms| == 0 {
      assert forall k :: k !in vms;
      return Allowed;
    }
    assert vms[0] in vms;
    return Forbidden(vms);
  }

  // ----- the cache is fed by a watch

  datatype Watch = Added(vm: Vm) | Modified(vm: Vm) | Deleted(vm: Vm) | Relisted(vms: seq<Vm>)

  /** `listed` are the VMs whose newest state came with a list. */
  datatype Feed = Feed(shown: map<string, Vm>, listed: set<string>, cache: Cache)

  const START := Feed(map[], {}, EMPTY)

  function ByKey(vms: seq<Vm>): map<string, Vm> {
    if vms == [] then map[]
    else ByKey(vms[..|vms| - 1])[KeyOf(vms[|vms| - 1]) := vms[|vms| - 1]]
  }

  ghost predicate Legal(f: Feed, e: Watch) {
    match e
    case Added(vm) => KeyOf(vm) !in f.shown
    case Modified(vm) => KeyOf(vm) in f.shown
    case Deleted(vm) => KeyOf(vm) in f.shown
    case Relisted(vms) => forall i, j :: 0 <= i < j < |vms| ==> KeyOf(vms[i]) != KeyOf(vms[j])
  }

  function Next(f: Feed, e: Watch): Feed {
    match e
    case Added(vm) => Feed(f.shown[KeyOf(vm) := vm], f.listed - {KeyOf(vm)}, Add(f.cache, NeedsTemplate, vm))
    case Modified(vm) => Feed(f.shown[KeyOf(vm) := vm], f.listed - {KeyOf(vm)}, Update(f.cache, NeedsTemplate, vm))
    case Deleted(vm) => Feed(f.shown - {KeyOf(vm)}, f.listed - {KeyOf(vm)}, Drop(f.cache, vm))
    case Relisted(vms) => Feed(ByKey(vms), ByKey(vms).Keys, Replace(vms))
  }

  function Run(f: Feed, events: seq<Watch>): Feed
    decreases |events|
  {
    if events == [] then f else Run(Next(f, events[0]), events[1..])
  }

  ghost predicate LegalRun(f: Feed, events: seq<Watch>)
    decreases |events|
  {
    events != [] ==> Legal(f, events[0]) && LegalRun(Next(f, events[0]), events[1..])
  }

  /** A VM is in the cache if the filter lets it pass or if nothing but a list has shown it. */
  predicate Kept(f: Feed, k: string)
    requires k in f.shown
  {
    NeedsTemplate(f.shown[k]) || k in f.listed
  }

  ghost predicate Mirrors(f: Feed) {
    && Sound(f.cache)
    && (forall k <- f.shown :: KeyOf(f.shown[k]) == k)
    && (forall k :: k in f.cache.store <==> k in f.shown && Kept(f, k))
    && (forall k <- f.cache.store :: f.cache.store[k] == EntryOf(f.shown[k]))
  }

  lemma {:induction false} ListMirrors(vms: seq<Vm>)
    ensures var shown, store := ByKey(vms), Filled(vms).store;
            && store.Keys == shown.Keys
            && (forall k <- shown :: KeyOf(shown[k]) == k && store[k] == EntryOf(shown[k]))
  {
    if vms != [] { ListMirrors(vms[..|vms| - 1]); }
  }

  lemma AddedKeepsMirror(f: Feed, vm: Vm)
    requires Mirrors(f) && KeyOf(vm) !in f.shown
    ensures Mirrors(Next(f, Added(vm)))
  {
    AddKeepsSoundIff(f.cache, NeedsTemplate, vm);
  }

  lemma UpdatedStore(c: Cache, vm: Vm)
    ensures Update(c, NeedsTemplate, vm).store ==
              if NeedsTemplate(vm) then c.store[KeyOf(vm) := EntryOf(vm)] else c.store - {KeyOf(vm)}
  {
  }

  lemma MirrorWithEntry(f: Feed, vm: Vm, cache: Cache)
    requires Mirrors(f) && Sound(cache) && NeedsTemplate(vm) && cache.store == f.cache.store[KeyOf(vm) := EntryOf(vm)]
    ensures Mirrors(Feed(f.shown[KeyOf(vm) := vm], f.listed - {KeyOf(vm)}, cache))
  {
  }

  lemma MirrorWithoutEntry(f: Feed, vm: Vm, cache: Cache)
    requires Mirrors(f) && Sound(cache) && !NeedsTemplate(vm) && cache.store == f.cache.store - {KeyOf(vm)}
    ensures Mirrors(Feed(f.shown[KeyOf(vm) := vm], f.listed - {KeyOf(vm)}, cache))
  {
    var f' := Feed(f.shown[KeyOf(vm) := vm], f.listed - {KeyOf(vm)}, cache);
    forall k ensures k in cache.store <==> k in f'.shown && Kept(f', k) { OtherEntriesStay(f, f', KeyOf(vm), k); }
    forall k <- cache.store ensures cache.store[k] == EntryOf(f'.shown[k]) { assert f'.shown[k] == f.shown[k]; }
  }

  lemma OtherEntriesStay(f: Feed, f': Feed, key: string, k: string)
    requires k in f.cache.store <==> k in f.shown && Kept(f, k)
    requires key in f'.shown && f'.shown == f.shown[key := f'.shown[key]] && f'.listed == f.listed - {key}
    requires f'.cache.store == f.cache.store - {key} && !NeedsTemplate(f'.shown[key])
    ensures k in f'.cache.store <==> k in f'.shown && Kept(f', k)
  {
  }

  lemma ModifiedKeepsMirror(f: Feed, vm: Vm)
    requires Mirrors(f)
    ensures Mirrors(Next(f, Modified(vm)))
  {
    UpdateKeepsSound(f.cache, NeedsTemplate, vm);
    UpdatedStore(f.cache, vm);
    var cache := Update(f.cache, NeedsTemplate, vm);
    if NeedsTemplate(vm) { MirrorWithEntry(f, vm, cache); } else { MirrorWithoutEntry(f, vm, cache); }
  }

  lemma DeletedKeepsMirror(f: Feed, vm: Vm)
    requires Mirrors(f)
    ensures Mirrors(Next(f, Deleted(vm)))
  {
    DropKeepsSound(f.cache, vm);
  }

  lemma StepKeepsMirror(f: Feed, e: Watch)
    requires Mirrors(f) && Legal(f, e)
    ensures Mirrors(Next(f, e))
  {
    match e
    case Added(vm) => AddedKeepsMirror(f, vm);
    case Modified(vm) => ModifiedKeepsMirror(f, vm);
    case Deleted(vm) => DeletedKeepsMirror(f, vm);
    case Relisted(vms) =>
      ReplaceIsSoundIff(vms);
      ListMirrors(vms);
  }

  lemma {:induction false} RunKeepsMirror(f: Feed, events: seq<Watch>)
    requires Mirrors(f) && LegalRun(f, events)
    ensures Mirrors(Run(f, events))
    decreases |events|
  {
    if events != [] {
      StepKeepsMirror(f, events[0]);
      RunKeepsMirror(Next(f, events[0]), events[1..]);
    }
  }

  lemma StartMirrors()
    ensures Mirrors(START)
  {
    assert forall t: string :: VmsFor(START.cache.store, t) == {};
  }

  lemma IndexHolds(events: seq<Watch>, template: string)
    requires LegalRun(START, events)
    ensures var f := Run(START, events);
            && (template in f.cache.index ==> f.cache.index[template] != {})
            && forall k :: (template in f.cache.index && k in f.cache.index[template]) <==>
                             (k in f.shown && Kept(f, k) && TemplateOf(f.shown[k]).Text() == template)
  {
    StartMirrors();
    RunKeepsMirror(START, events);
    var f := Run(START, events);
    assert forall k :: k in VmsFor(f.cache.store, template) <==>
           k in f.cache.store && f.cache.store[k].template == template;
  }

  /** A VM that was shown holds a template it refers to, unless an event brought it with rules of its own. */
  ghost predicate Holds(f: Feed, vm: Vm, t: Template) {
    && RefersTo(vm, t.namespace, t.name)
    && (OWN_VALIDATIONS in vm.annotations ==> vm.namespace + "/" + vm.name in f.listed)
  }

  lemma HoldsIff(f: Feed, k: string, t: Template)
    requires Mirrors(f) && PlainNames(t) && k in f.shown
    ensures k == f.shown[k].namespace + "/" + f.shown[k].name
    ensures Kept(f, k) && TemplateOf(f.shown[k]).Text() == ObjectKey(t) <==> Holds(f, f.shown[k], t)
  {
    FiledUnderIff(f.shown[k], t);
    ReferenceOf(f.shown[k], t.namespace, t.name);
    assert KeyOf(f.shown[k]) == k;
  }

  /** After every run, the index holds under each template exactly the VMs that hold it, and no empty set. */
  lemma IndexIsExactOverRuns(events: seq<Watch>, t: Template, k: string)
    requires LegalRun(START, events) && PlainNames(t)
    ensures var f := Run(START, events);
            var key := t.namespace + "/" + t.name;
            && (key in f.cache.index ==> f.cache.index[key] != {})
            && (key in f.cache.index && k in f.cache.index[key] <==> k in f.shown && Holds(f, f.shown[k], t))
            && (k in f.shown ==> k == f.shown[k].namespace + "/" + f.shown[k].name)
  {
    IndexHolds(events, ObjectKey(t));
    StartMirrors();
    RunKeepsMirror(START, events);
    if k in Run(START, events).shown { HoldsIff(Run(START, events), k, t); }
  }

  // ----- protection against validation

  /** The VM has the annotation for rules of its own, but with nothing in it. */
  predicate EmptyOwnRules(vm: Vm) {
    OWN_VALIDATIONS in vm.annotations && vm.annotations[OWN_VALIDATIONS] == ""
  }

  /** A VM whose rules come from a template holds it, unless a watch event brought it with an empty annotation. */
  lemma ReaderIsKeptIff(f: Feed, k: string, templates: map<string, Template>)
    requires Mirrors(f) && k in f.shown && RulesFor(f.shown[k], templates).TemplateRules?
    ensures k in f.cache.store <==> !(EmptyOwnRules(f.shown[k]) && k !in f.listed)
    ensures WellKeyedTemplates(templates) ==>
              ObjectKey(RulesFor(f.shown[k], templates).t) == TemplateOf(f.shown[k]).Text()
  {
  }

  /** After every run, a template that a VM refers to and reads its rules from cannot be deleted. */
  lemma ReadTemplatesAreProtected(events: seq<Watch>, k: string, templates: map<string, Template>)
    requires LegalRun(START, events) && WellKeyedTemplates(templates)
    requires k in Run(START, events).shown
    requires RulesFor(Run(START, events).shown[k], templates).TemplateRules?
    requires !EmptyOwnRules(Run(START, events).shown[k])
    ensures var f := Run(START, events);
            var t := RulesFor(f.shown[k], templates).t;
            && (CarriesRules(t) ==> Refused(f.cache.store, t))
            && (PlainNames(t) ==> RefersTo(f.shown[k], t.namespace, t.name))
  {
    StartMirrors();
    RunKeepsMirror(START, events);
    ReaderIsKeptIff(Run(START, events), k, templates);
    var vm := Run(START, events).shown[k];
    var t := RulesFor(vm, templates).t;
    if PlainNames(t) { FiledUnderIff(vm, t); }
  }

  /** Refusal is exactly: rules in the template, and some VM that was shown holds it. */
  lemma RefusedIff(events: seq<Watch>, t: Template)
    requires LegalRun(START, events) && PlainNames(t)
    ensures var f := Run(START, events);
            Refused(f.cache.store, t) <==>
              && TEMPLATE_TYPE in t.labels
              && VALIDATIONS in t.annotations
              && exists k :: k in f.shown && Holds(f, f.shown[k], t)
  {
    StartMirrors();
    RunKeepsMirror(START, events);
    var f := Run(START, events);
    forall k <- f.shown
      ensures Kept(f, k) && TemplateOf(f.shown[k]).Text() == ObjectKey(t) <==> Holds(f, f.shown[k], t)
    {
      HoldsIff(f, k, t);
    }
    if k :| k in f.cache.store && f.cache.store[k].template == ObjectKey(t) { assert Holds(f, f.shown[k], t); }
    if k :| k in f.shown && Holds(f, f.shown[k], t) {
      assert k in f.cache.store && f.cache.store[k].template == ObjectKey(t);
    }
  }

  /** Of the VMs that hold a stored template, these do read its rules. */
  lemma HolderReadsIff(f: Feed, k: string, t: Template, templates: map<string, Template>)
    requires Mirrors(f) && WellKeyedTemplates(templates) && ObjectKey(t) in templates && templates[ObjectKey(t)] == t
    requires k in f.cache.store && f.cache.store[k].template == ObjectKey(t)
    ensures var vm := f.shown[k];
            RulesFor(vm, templates) == TemplateRules(t) <==>
              !vm.deleting && SKIP_VALIDATIONS !in vm.annotations && GetOrEmpty(vm.annotations, OWN_VALIDATIONS) == ""
  {
    var vm := f.shown[k];
    assert ObjectKey(t)[|t.namespace|] == '/';
    assert TemplateOf(vm).Text() != "";
  }

  /** The gap: whatever else it says, a VM that arrives with the empty annotation reads rules that nothing protects. */
  lemma EmptyAnnotationEscapes(vm: Vm, t: Template)
    requires EmptyOwnRules(vm) && !vm.deleting && SKIP_VALIDATIONS !in vm.annotations
    requires PlainNames(t) && RefersTo(vm, t.namespace, t.name)
    ensures var events := [Relisted([]), Added(vm)];
            var f := Run(START, events);
            && LegalRun(START, events)
            && f.shown == map[KeyOf(vm) := vm]
            && RulesFor(vm, map[ObjectKey(t) := t]) == TemplateRules(t)
            && !Refused(f.cache.store, t)
  {
    FiledUnderIff(vm, t);
    ReferenceOf(vm, t.namespace, t.name);
    var listed := Next(START, Relisted([]));
    assert [Relisted([]), Added(vm)][1..] == [Added(vm)];
    assert [Added(vm)][1..] == [];
    assert Run(listed, [Added(vm)]) == Run(Next(listed, Added(vm)), []) == Next(listed, Added(vm));
    assert LegalRun(Next(listed, Added(vm)), []);
    assert LegalRun(listed, [Added(vm)]);
  }
}

/** The store of VirtualMachines that use a template, with its index from templates to VMs. */
module VmCache {
  import opened Kube
  import opened Sequences

  // ----- references to templates

  const TEMPLATE_NAME := "vm.kubevirt.io/template"
  const TEMPLATE_NAMESPACE := "vm.kubevirt.io/template.namespace"
  const TEMPLATE_OLD_NAMESPACE := "vm.kubevirt.io/template-namespace"
  const OWN_VALIDATIONS := "vm.kubevirt.io/validations"
  const SKIP_VALIDATIONS := "vm.kubevirt.io/skip-validations"

  datatype Vm = Vm(namespace: string, name: string, labels: StringMap, annotations: StringMap, deleting: bool)

  datatype TemplateKey = TemplateKey(name: string, namespace: string, oldNamespace: string) {
    function AnyNamespace(): string {
      if namespace != "" then namespace else oldNamespace
    }

    predicate Valid() {
      name != "" && AnyNamespace() != ""
    }

    function Text(): string {
      if Valid() then AnyNamespace() + "/" + name else ""
    }
  }

  function KeyIn(m: StringMap): TemplateKey {
    TemplateKey(GetOrEmpty(m, TEMPLATE_NAME), GetOrEmpty(m, TEMPLATE_NAMESPACE), GetOrEmpty(m, TEMPLATE_OLD_NAMESPACE))
  }

  /** Labels win over annotations, but only if they are complete. */
  function TemplateOf(vm: Vm): TemplateKey {
    if KeyIn(vm.labels).Valid() then KeyIn(vm.labels) else KeyIn(vm.annotations)
  }

  predicate HasTemplate(vm: Vm) {
    KeyIn(vm.labels).Valid() || KeyIn(vm.annotations).Valid()
  }

  predicate NeedsTemplate(vm: Vm) {
    OWN_VALIDATIONS !in vm.annotations && HasTemplate(vm)
  }

  function KeyOf(vm: Vm): string {
    vm.namespace + "/" + vm.name
  }

  // ----- the cache as a value

  datatype Entry = Entry(vm: string, template: string)

  type Store = map<string, Entry>

  type Index = map<string, set<string>>

  function EntryOf(vm: Vm): Entry {
    Entry(KeyOf(vm), TemplateOf(vm).Text())
  }

  function IndexAdd(index: Index, template: string, vm: string): Index {
    index[template := (if template in index then index[template] else {}) + {vm}]
  }

  function IndexDelete(index: Index, template: string, vm: string): Index {
    if template !in index then index
    else if index[template] - {vm} == {} then index - {template}
    else index[template := index[template] - {vm}]
  }

  datatype Cache = Cache(store: Store, index: Index, synced: bool)

  const EMPTY := Cache(map[], map[], false)

  predicate WellKeyed(store: Store) {
    forall k <- store :: store[k].vm == k
  }

  /** The VMs stored with a template. */
  function VmsFor(store: Store, template: string): set<string> {
    set k | k in store && store[k].template == template
  }

  /** The index is the inverse of the store, without empty sets. */
  ghost predicate Inverse(store: Store, index: Index) {
    forall t: string ::
      && (t in index <==> VmsFor(store, t) != {})
      && (t in index ==> index[t] == VmsFor(store, t))
  }

  ghost predicate Sound(c: Cache) {
    WellKeyed(c.store) && Inverse(c.store, c.index)
  }

  function Put(c: Cache, vm: Vm): Cache {
    c.(store := c.store[KeyOf(vm) := EntryOf(vm)], index := IndexAdd(c.index, TemplateOf(vm).Text(), KeyOf(vm)))
  }

  function Drop(c: Cache, vm: Vm): Cache {
    if KeyOf(vm) !in c.store then c
    else
      var e := c.store[KeyOf(vm)];
      c.(store := c.store - {KeyOf(vm)}, index := IndexDelete(c.index, e.template, e.vm))
  }

  function Add(c: Cache, filter: Vm -> bool, vm: Vm): Cache {
    if filter(vm) then Put(c, vm) else c
  }

  function Update(c: Cache, filter: Vm -> bool, vm: Vm): Cache {
    if !filter(vm) then Drop(c, vm)
    else if KeyOf(vm) !in c.store then Put(c, vm)
    else
      var e := c.store[KeyOf(vm)];
      c.(store := c.store[KeyOf(vm) := EntryOf(vm)],
         index := IndexAdd(IndexDelete(c.index, e.template, e.vm), TemplateOf(vm).Text(), KeyOf(vm)))
  }

  function Filled(vms: seq<Vm>): Cache {
    if vms == [] then EMPTY
    else Put(Filled(vms[..|vms| - 1]), vms[|vms| - 1])
  }

  function Replace(vms: seq<Vm>): Cache {
    Filled(vms).(synced := true)
  }

  // ----- what keeps the index exact

  lemma PutKeepsSound(c: Cache, vm: Vm)
    requires Sound(c)
    requires KeyOf(vm) in c.store ==> c.store[KeyOf(vm)].template == TemplateOf(vm).Text()
    ensures Sound(Put(c, vm))
  {
    var c', template := Put(c, vm), TemplateOf(vm).Text();
    assert KeyOf(vm) in VmsFor(c'.store, template);
    assert VmsFor(c'.store, template) == VmsFor(c.store, template) + {KeyOf(vm)};
    assert forall t: string :: t != template ==> VmsFor(c'.store, t) == VmsFor(c.store, t);
  }

  lemma DropKeepsSound(c: Cache, vm: Vm)
    requires Sound(c)
    ensures Sound(Drop(c, vm))
  {
    var k := KeyOf(vm);
    if k in c.store {
      var c', template := Drop(c, vm), c.store[k].template;
      assert k in VmsFor(c.store, template);
      assert VmsFor(c'.store, template) == VmsFor(c.store, template) - {k};
      assert forall t: string :: t != template ==> VmsFor(c'.store, t) == VmsFor(c.store, t);
    }
  }

  /** An update is a removal followed by an insertion. */
  lemma UpdateKeepsSound(c: Cache, filter: Vm -> bool, vm: Vm)
    requires Sound(c)
    ensures Sound(Update(c, filter, vm))
  {
    DropKeepsSound(c, vm);
    var dropped := Drop(c, vm);
    PutKeepsSound(dropped, vm);
    if filter(vm) && KeyOf(vm) in c.store {
      assert dropped.store[KeyOf(vm) := EntryOf(vm)] == c.store[KeyOf(vm) := EntryOf(vm)];
      assert Update(c, filter, vm) == Put(dropped, vm);
    }
  }

  /** Add leaves the old index entry behind exactly when a known VM comes with another template. */
  lemma AddKeepsSoundIff(c: Cache, filter: Vm -> bool, vm: Vm)
    requires Sound(c)
    ensures Sound(Add(c, filter, vm)) <==>
              !(filter(vm) && KeyOf(vm) in c.store && c.store[KeyOf(vm)].template != TemplateOf(vm).Text())
  {
    var k := KeyOf(vm);
    if filter(vm) && k in c.store && c.store[k].template != TemplateOf(vm).Text() {
      var c', left := Add(c, filter, vm), c.store[k].template;
      assert k in VmsFor(c.store, left);
      assert k in c'.index[left] && k !in VmsFor(c'.store, left);
    } else if filter(vm) {
      PutKeepsSound(c, vm);
    }
  }

  // ----- lists

  /** Entries of the same VM that disagree about its template. */
  ghost predicate Contradictory(vms: seq<Vm>) {
    exists i, j :: 0 <= i < j < |vms| && KeyOf(vms[i]) == KeyOf(vms[j])
      && TemplateOf(vms[i]).Text() != TemplateOf(vms[j]).Text()
  }

  lemma {:induction false} FilledIsKeyed(vms: seq<Vm>)
    ensures var c := Filled(vms);
            && WellKeyed(c.store)
            && (forall k <- c.store :: exists i :: 0 <= i < |vms| && c.store[k] == EntryOf(vms[i]))
  {
    if vms != [] {
      var n := |vms| - 1;
      FilledIsKeyed(vms[..n]);
      var c := Filled(vms);
      forall k | k in c.store ensures exists i :: 0 <= i < |vms| && c.store[k] == EntryOf(vms[i]) {
        if k == KeyOf(vms[n]) {
          assert c.store[k] == EntryOf(vms[n]);
        } else {
          var i :| 0 <= i < n && Filled(vms[..n]).store[k] == EntryOf(vms[..n][i]);
          assert vms[..n][i] == vms[i];
        }
      }
    }
  }

  /** Nothing ever leaves the index while a list is read. */
  lemma {:induction false} FilledIndexHasAll(vms: seq<Vm>, i: nat)
    requires i < |vms|
    ensures var c := Filled(vms); var t := TemplateOf(vms[i]).Text();
            t in c.index && KeyOf(vms[i]) in c.index[t]
  {
    var n := |vms| - 1;
    if i < n {
      FilledIndexHasAll(vms[..n], i);
    }
  }

  lemma {:induction false} ConsistentListIsSound(vms: seq<Vm>)
    requires !Contradictory(vms)
    ensures Sound(Filled(vms))
  {
    if vms == [] {
      assert forall t: string :: VmsFor(EMPTY.store, t) == {};
    } else {
      var n := |vms| - 1;
      var before, vm := vms[..n], vms[n];
      ConsistentListIsSound(before);
      FilledIsKeyed(before);
      if KeyOf(vm) in Filled(before).store {
        var i :| 0 <= i < n && Filled(before).store[KeyOf(vm)] == EntryOf(before[i]);
        assert vms[i] == before[i] && vms[n] == vm;
      }
      PutKeepsSound(Filled(before), vm);
    }
  }

  /** Reading a list gives an exact index if and only if no VM is listed with two templates. */
  lemma ReplaceIsSoundIff(vms: seq<Vm>)
    ensures Sound(Replace(vms)) <==> !Contradictory(vms)
  {
    var c := Replace(vms);
    if Contradictory(vms) {
      var i, j :| 0 <= i < j < |vms| && KeyOf(vms[i]) == KeyOf(vms[j])
        && TemplateOf(vms[i]).Text() != TemplateOf(vms[j]).Text();
      FilledIndexHasAll(vms, i);
      FilledIndexHasAll(vms, j);
      var t, u := TemplateOf(vms[i]).Text(), TemplateOf(vms[j]).Text();
      assert KeyOf(vms[i]) !in VmsFor(c.store, t) || KeyOf(vms[i]) !in VmsFor(c.store, u);
    } else {
      ConsistentListIsSound(vms);
      assert forall t: string :: VmsFor(c.store, t) == VmsFor(Filled(vms).store, t);
    }
  }

  // ----- the object

  /** `None` is an argument that is not a Kubernetes object. */
  class VmStore {
    var store: Store
    var vmsForTemplate: Index
    var hasSynced: bool
    const filter: Vm -> bool

    constructor (filter: Vm -> bool)
      ensures View() == EMPTY && this.filter == filter
    {
      store := map[];
      vmsForTemplate := map[];
      hasSynced := false;
      this.filter := filter;
    }

    function View(): Cache
      reads this
    {
      Cache(store, vmsForTemplate, hasSynced)
    }

    method IndexVm(template: string, vm: string)
      modifies this`vmsForTemplate
      ensures vmsForTemplate == IndexAdd(old(vmsForTemplate), template, vm)
    {
      var names := {};
      if template in vmsForTemplate { names := vmsForTemplate[template]; }
      vmsForTemplate := vmsForTemplate[template := names + {vm}];
    }

    method UnindexVm(template: string, vm: string)
      modifies this`vmsForTemplate
      ensures vmsForTemplate == IndexDelete(old(vmsForTemplate), template, vm)
    {
      if template !in vmsForTemplate { return; }
      vmsForTemplate := vmsForTemplate[template := vmsForTemplate[template] - {vm}];
      if |vmsForTemplate[template]| == 0 {
        vmsForTemplate := vmsForTemplate - {template};
        assert vmsForTemplate == old(vmsForTemplate) - {template};
      }
    }

    method AddVm(arg: Option<Vm>) returns (ok: bool)
      modifies this`store, this`vmsForTemplate
      ensures ok <==> arg.Some?
      ensures View() == if ok then Add(old(View()), filter, arg.value) else old(View())
    {
      if arg.None? { return false; }
      var vm := arg.value;
      if !filter(vm) { return true; }
      var val := EntryOf(vm);
      store := store[KeyOf(vm) := val];
      IndexVm(val.template, val.vm);
      return true;
    }

    /** The comparison of the old entry with the new one never succeeds: it compares a value with a pointer. */
    method UpdateVm(arg: Option<Vm>) returns (ok: bool)
      modifies this`store, this`vmsForTemplate
      ensures ok <==> arg.Some?
      ensures View() == if ok then Update(old(View()), filter, arg.value) else old(View())
      ensures old(Sound(View())) ==> Sound(View())
    {
      if arg.None? { return false; }
      var vm := arg.value;
      if old(Sound(View())) { UpdateKeepsSound(View(), filter, vm); }
      if !filter(vm) {
        ok := DeleteVm(arg);
        return;
      }
      var key, val := KeyOf(vm), EntryOf(vm);
      if key !in store {
        store := store[key := val];
        IndexVm(val.template, val.vm);
      } else {
        var was := store[key];
        store := store[key := val];
        UnindexVm(was.template, was.vm);
        IndexVm(val.template, val.vm);
      }
      return true;
    }

    method DeleteVm(arg: Option<Vm>) returns (ok: bool)
      modifies this`store, this`vmsForTemplate
      ensures ok <==> arg.Some?
      ensures View() == if ok then Drop(old(View()), arg.value) else old(View())
      ensures old(Sound(View())) ==> Sound(View())
    {
      if arg.None? { return false; }
      if old(Sound(View())) { DropKeepsSound(View(), arg.value); }
      var key := KeyOf(arg.value);
      if key !in store { return true; }
      var val := store[key];
      store := store - {key};
      UnindexVm(val.template, val.vm);
      return true;
    }

    /** A list with a foreign element changes nothing; any other one replaces everything, unfiltered. */
    method ReplaceVms(args: seq<Option<Vm>>) returns (ok: bool)
      modifies this
      ensures ok <==> None !in args
      ensures View() == if ok then Replace(Values(args)) else old(View())
    {
      var newStore: Store := map[];
      var newIndex: Index := map[];
      for i := 0 to |args|
        invariant None !in args[..i]
        invariant Cache(newStore, newIndex, false) == Filled(Values(args[..i]))
        invariant View() == old(View())
      {
        if args[i].None? { return false; }
        var val := EntryOf(args[i].value);
        assert args[..i + 1] == args[..i] + [args[i]];
        ValuesExtend(args[..i], args[i].value);
        newStore := newStore[KeyOf(args[i].value) := val];
        newIndex := IndexAdd(newIndex, val.template, val.vm);
      }
      assert args[..|args|] == args;
      store, vmsForTemplate, hasSynced := newStore, newIndex, true;
      return true;
    }

    /** Every VM of a template once, in no particular order. */
    method GetVmsForTemplate(template: string) returns (vms: seq<string>)
      ensures NoDuplicates(vms)
      ensures Sound(View()) ==> forall k :: k in vms <==> k in store && store[k].template == template
    {
      assert forall k :: k in VmsFor(store, template) <==> k in store && store[k].template == template;
      if template !in vmsForTemplate { return []; }
      vms := [];
      var rest := vmsForTemplate[template];
      while rest != {}
        invariant NoDuplicates(vms)
        invariant forall k :: k in vms || k in rest <==> k in vmsForTemplate[template]
        invariant forall k <- vms :: k !in rest
        decreases |rest|
      {
        var k :| k in rest;
        vms := vms + [k];
        rest := rest - {k};
      }
    }
  }

  function Values(args: seq<Option<Vm>>): seq<Vm>
    requires None !in args
  {
    if args == [] then []
    else Values(args[..|args| - 1]) + [args[|args| - 1].value]
  }

  lemma ValuesExtend(args: seq<Option<Vm>>, vm: Vm)
    requires None !in args
    ensures Values(args + [Some(vm)]) == Values(args) + [vm]
    ensures Filled(Values(args) + [vm]) == Put(Filled(Values(args)), vm)
  {
    assert (args + [Some(vm)])[..|args|] == args;
    assert (Values(args) + [vm])[..|Values(args)|] == Values(args);
  }
}

/** The shipped template bundle and the DataSource names that its templates refer to. */
module Bundle {
  import opened Kube
  import opened Sequences
  import opened Architecture

  const ARCH_LABEL := "template.kubevirt.io/architecture"
  const NAME_PARAMETER := "DATA_SOURCE_NAME"
  const OLD_NAME_PARAMETER := "SRC_PVC_NAME"
  const NAMESPACE_PARAMETER := "DATA_SOURCE_NAMESPACE"
  const OLD_NAMESPACE_PARAMETER := "SRC_PVC_NAMESPACE"

  type Template = t: Object | t.spec.TemplateSpec?
    witness Object(Key(TEMPLATE, "", ""), 0, 0, 0, map[], map[], [], {}, false, TemplateSpec(Undecodable, []), map[])

  /** For every DataSource name, the architectures the bundle has templates for. */
  type Collection = map<string, seq<Arch>>

  datatype BundleError = BadObject(template: string) | BadNamespace(template: string) | BadArch(template: string)

  /** A template without the label is for amd64. */
  function TemplateArch(t: Object): Option<Arch> {
    var arch := GetOrEmpty(t.labels, ARCH_LABEL);
    if arch == "" then Some(AMD64) else ToArch(arch)
  }

  /** The value of the first parameter with this name. */
  function FindParameter(parameters: seq<Parameter>, name: string): Option<string> {
    if parameters == [] then None
    else if parameters[0].name == name then Some(parameters[0].value)
    else FindParameter(parameters[1..], name)
  }

  function FindEither(parameters: seq<Parameter>, name: string, oldName: string): Option<string> {
    var found := FindParameter(parameters, name);
    if found.Some? then found else FindParameter(parameters, oldName)
  }

  function DataSourceName(t: Template): Option<string> {
    FindEither(t.spec.parameters, NAME_PARAMETER, OLD_NAME_PARAMETER)
  }

  /** What one template adds to the collection. */
  function Entry(t: Template): Result<Option<(string, Arch)>, BundleError> {
    if t.spec.vm.Undecodable? then Err(BadObject(t.key.name))
    else if !t.spec.vm.usesSourceRef || DataSourceName(t).None? then Ok(None)
    else
      var namespace := FindEither(t.spec.parameters, NAMESPACE_PARAMETER, OLD_NAMESPACE_PARAMETER);
      if namespace.Some? && namespace.value != GOLDEN_IMAGES then Err(BadNamespace(t.key.name))
      else if TemplateArch(t).None? then Err(BadArch(t.key.name))
      else Ok(Some((DataSourceName(t).value, TemplateArch(t).value)))
  }

  function ArchsOf(c: Collection, name: string): seq<Arch> {
    if name in c then c[name] else []
  }

  function AddNameAndArch(c: Collection, name: string, arch: Arch): Collection {
    if arch in ArchsOf(c, name) then c else c[name := ArchsOf(c, name) + [arch]]
  }

  function Collect(templates: seq<Template>): Result<Collection, BundleError> {
    if templates == [] then Ok(map[])
    else
      var n := |templates| - 1;
      var before := Collect(templates[..n]);
      if before.Err? then before
      else
        match Entry(templates[n])
        case Err(e) => Err(e)
        case Ok(None) => before
        case Ok(Some(pair)) => Ok(AddNameAndArch(before.value, pair.0, pair.1))
  }

  method CollectDataSources(templates: seq<Template>) returns (r: Result<Collection, BundleError>)
    ensures r == Collect(templates)
  {
    var c: Collection := map[];
    for i := 0 to |templates|
      invariant Collect(templates[..i]) == Ok(c)
    {
      assert templates[..i + 1][..i] == templates[..i];
      var entry := Entry(templates[i]);
      if entry.Err? {
        ErrorStays(templates, i + 1);
        return Err(entry.error);
      }
      if entry.value.Some? {
        var (name, arch) := entry.value.value;
        if arch !in ArchsOf(c, name) {
          c := c[name := ArchsOf(c, name) + [arch]];
        }
      }
    }
    assert templates[..|templates|] == templates;
    return Ok(c);
  }

  lemma {:induction false} ErrorStays(templates: seq<Template>, i: nat)
    requires i <= |templates| && Collect(templates[..i]).Err?
    ensures Collect(templates) == Collect(templates[..i])
    decreases |templates|
  {
    if i == |templates| {
      assert templates[..i] == templates;
    } else {
      var n := |templates| - 1;
      assert templates[..n][..i] == templates[..i];
      ErrorStays(templates[..n], i);
    }
  }

  ghost predicate Contributes(templates: seq<Template>, name: string, arch: Arch) {
    exists t <- templates :: Entry(t) == Ok(Some((name, arch)))
  }

  lemma ContributesOneMore(before: seq<Template>, t: Template, name: string, arch: Arch)
    ensures Contributes(before + [t], name, arch) <==>
              Contributes(before, name, arch) || Entry(t) == Ok(Some((name, arch)))
  {
    var all := before + [t];
    assert forall x :: x in all <==> x in before || x == t;
  }

  lemma AddIsExact(c: Collection, name: string, arch: Arch)
    requires forall n <- c :: c[n] != [] && NoDuplicates(c[n])
    ensures var c' := AddNameAndArch(c, name, arch);
            && (forall n, a :: a in ArchsOf(c', n) <==> a in ArchsOf(c, n) || (n == name && a == arch))
            && (forall n <- c' :: c'[n] != [] && NoDuplicates(c'[n]))
  {
  }

  /** The collection has exactly the names and architectures of the templates, each architecture once. */
  lemma {:induction false} CollectIsExact(templates: seq<Template>)
    requires Collect(templates).Ok?
    ensures var c := Collect(templates).value;
            && (forall name, arch :: arch in ArchsOf(c, name) <==> Contributes(templates, name, arch))
            && (forall name <- c :: c[name] != [] && NoDuplicates(c[name]))
  {
    if templates != [] {
      var n := |templates| - 1;
      var before := templates[..n];
      var c, c0 := Collect(templates).value, Collect(before).value;
      CollectIsExact(before);
      assert templates == before + [templates[n]];
      var entry := Entry(templates[n]).value;
      if entry.Some? { AddIsExact(c0, entry.value.0, entry.value.1); }
      forall name, arch ensures arch in ArchsOf(c, name) <==> Contributes(templates, name, arch) {
        ContributesOneMore(before, templates[n], name, arch);
      }
    }
  }

  // ----- what templates contribute, told from their parameters and labels

  /** The first parameter with this name has this value. */
  ghost predicate FirstValue(parameters: seq<Parameter>, name: string, value: string) {
    exists i :: 0 <= i < |parameters| && parameters[i] == Parameter(name, value) &&
                forall j :: 0 <= j < i ==> parameters[j].name != name
  }

  ghost predicate HasParameter(parameters: seq<Parameter>, name: string) {
    exists p <- parameters :: p.name == name
  }

  /** The old name counts only if there is no parameter with the current one. */
  ghost predicate ValueOf(parameters: seq<Parameter>, name: string, oldName: string, value: string) {
    FirstValue(parameters, name, value) || (!HasParameter(parameters, name) && FirstValue(parameters, oldName, value))
  }

  /** A template without the label, or with an empty one, is for amd64. */
  predicate IsFor(t: Object, a: Arch) {
    if "template.kubevirt.io/architecture" in t.labels && t.labels["template.kubevirt.io/architecture"] != ""
    then t.labels["template.kubevirt.io/architecture"] == Name(a)
    else a == AMD64
  }

  /** A DataSource of this name is used by a VM of this architecture, and it is a golden image. */
  ghost predicate Uses(t: Template, name: string, a: Arch) {
    && t.spec.vm.VmDefinition?
    && t.spec.vm.usesSourceRef
    && ValueOf(t.spec.parameters, "DATA_SOURCE_NAME", "SRC_PVC_NAME", name)
    && (forall ns :: ValueOf(t.spec.parameters, "DATA_SOURCE_NAMESPACE", "SRC_PVC_NAMESPACE", ns) ==>
                       ns == "kubevirt-os-images")
    && IsFor(t, a)
  }

  lemma {:induction false} FoundIff(parameters: seq<Parameter>, name: string, value: string)
    ensures FindParameter(parameters, name) == Some(value) <==> FirstValue(parameters, name, value)
    ensures FindParameter(parameters, name).Some? <==> HasParameter(parameters, name)
  {
    if parameters != [] {
      var rest := parameters[1..];
      FoundIff(rest, name, value);
      assert forall i :: 0 <= i < |rest| ==> rest[i] == parameters[i + 1];
      assert forall p :: p in parameters <==> p == parameters[0] || p in rest;
      if parameters[0].name == name {
        if FirstValue(parameters, name, value) { assert parameters[0].name == name; }
      } else {
        LaterValue(parameters, name, value);
      }
    }
  }

  lemma LaterValue(parameters: seq<Parameter>, name: string, value: string)
    requires parameters != [] && parameters[0].name != name
    ensures FirstValue(parameters, name, value) <==> FirstValue(parameters[1..], name, value)
  {
    var rest := parameters[1..];
    assert forall i :: 0 <= i < |rest| ==> rest[i] == parameters[i + 1];
    if i :| 0 <= i < |parameters| && parameters[i] == Parameter(name, value) &&
            forall j :: 0 <= j < i ==> parameters[j].name != name {
      assert rest[i - 1] == Parameter(name, value);
    }
    if i :| 0 <= i < |rest| && rest[i] == Parameter(name, value) && forall j :: 0 <= j < i ==> rest[j].name != name {
      assert parameters[i + 1] == Parameter(name, value);
      assert forall j :: 0 < j < i + 1 ==> parameters[j] == rest[j - 1];
    }
  }

  lemma EitherIff(parameters: seq<Parameter>, name: string, oldName: string, value: string)
    ensures FindEither(parameters, name, oldName) == Some(value) <==> ValueOf(parameters, name, oldName, value)
  {
    FoundIff(parameters, name, value);
    FoundIff(parameters, oldName, value);
  }

  lemma ArchIff(t: Object, a: Arch)
    ensures TemplateArch(t) == Some(a) <==> IsFor(t, a)
  {
    ToArchInvertsName(a, GetOrEmpty(t.labels, ARCH_LABEL));
  }

  lemma EntryIff(t: Template, name: string, a: Arch)
    ensures Entry(t) == Ok(Some((name, a))) <==> Uses(t, name, a)
  {
    EitherIff(t.spec.parameters, NAME_PARAMETER, OLD_NAME_PARAMETER, name);
    forall ns ensures FindEither(t.spec.parameters, NAMESPACE_PARAMETER, OLD_NAMESPACE_PARAMETER) == Some(ns) <==>
                        ValueOf(t.spec.parameters, NAMESPACE_PARAMETER, OLD_NAMESPACE_PARAMETER, ns)
    {
      EitherIff(t.spec.parameters, NAMESPACE_PARAMETER, OLD_NAMESPACE_PARAMETER, ns);
    }
    ArchIff(t, a);
  }

  /** A name with an architecture is collected exactly if some template uses it, each once. */
  lemma CollectedIff(templates: seq<Template>, name: string, a: Arch)
    requires Collect(templates).Ok?
    ensures a in ArchsOf(Collect(templates).value, name) <==> exists t <- templates :: Uses(t, name, a)
    ensures NoDuplicates(ArchsOf(Collect(templates).value, name))
  {
    CollectIsExact(templates);
    forall t <- templates ensures Entry(t) == Ok(Some((name, a))) <==> Uses(t, name, a) { EntryIff(t, name, a); }
  }
}

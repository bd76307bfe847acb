/**
 DataImportCrons of an SSP spec: one per template, or one per architecture, kept in a map
 that is keyed by the DataSource each cron manages.
 */
module CronPlan {
  import opened Kube
  import opened Sequences
  import opened Architecture
  import opened Bundle

  const ARCHS_ANNOTATION := "ssp.kubevirt.io/dict.architectures"
  const DATA_SOURCE_NAME_LABEL := "cdi.kubevirt.io/storage.import.datasource-name"

  datatype Managed = Managed(namespace: string, name: string)

  type CronMap = map<Managed, Cron>

  function ManagedBy(c: Cron): Managed {
    Managed(c.key.namespace, c.spec.managed)
  }

  predicate IsSpace(c: char) {
    || c in {' ', '\t', '\n', '\r', '\U{0B}', '\U{0C}', '\U{85}', '\U{A0}', '\U{1680}',
             '\U{2028}', '\U{2029}', '\U{202F}',
             '\U{205F}', '\U{3000}'}
    || '\U{2000}' <= c <= '\U{200A}'
  }

  function Trim(s: string): string {
    if s == "" then ""
    else if IsSpace(s[0]) then Trim(s[1..])
    else if IsSpace(s[|s| - 1]) then Trim(s[..|s| - 1])
    else s
  }

  function FirstField(s: string): string {
    if s == "" || s[0] == ',' then "" else [s[0]] + FirstField(s[1..])
  }

  lemma FirstFieldIsPrefix(s: string)
    ensures FirstField(s) <= s
    ensures |FirstField(s)| < |s| ==> s[|FirstField(s)|] == ','
  {
  }

  function SplitCommas(s: string): seq<string>
    decreases |s|
  {
    FirstFieldIsPrefix(s);
    var field := FirstField(s);
    if |field| == |s| then [s] else [field] + SplitCommas(s[|field| + 1..])
  }

  /** An architecture that is spelled correctly, up to space around it. */
  function Spelled(name: string): seq<Arch> {
    if ToArch(Trim(name)).Some? then [ToArch(Trim(name)).value] else []
  }

  /** A known architecture; unknown names are ignored. */
  function KnownArch(): string -> seq<Arch> {
    (name: string) => Spelled(name)
  }

  function ParseArchs(value: string): seq<Arch> {
    FlatMap(SplitCommas(value), KnownArch())
  }

  /** The first cluster architecture that is also on offer. */
  function DefaultArch(archs: seq<Arch>, offered: seq<Arch>): (r: Option<Arch>)
    ensures r.None? <==> forall a <- archs :: a !in offered
    ensures r.Some? ==> r.value in archs && r.value in offered
    ensures r.Some? ==>
              exists i :: 0 <= i < |archs| && archs[i] == r.value && forall j :: 0 <= j < i ==> archs[j] !in offered
  {
    if archs == [] then None
    else if archs[0] in offered then Some(archs[0])
    else
      var rest := DefaultArch(archs[1..], offered);
      assert forall i :: 0 < i < |archs| ==> archs[i] == archs[1..][i - 1];
      assert rest.Some? ==> exists i ::
               && 0 <= i < |archs[1..]|
               && archs[1..][i] == rest.value
               && (forall j :: 0 <= j < i ==> archs[1..][j] !in offered)
               && archs[i + 1] == rest.value
               && (forall j :: 0 <= j < i + 1 ==> archs[j] !in offered);
      rest
  }

  /** A template as a cron: the default namespace is filled in, the architecture annotation is dropped. */
  function Normalized(t: Cron): Cron {
    t.(key := t.key.(namespace := if t.key.namespace == "" then GOLDEN_IMAGES else t.key.namespace),
       annotations := t.annotations - {ARCHS_ANNOTATION})
  }

  /** The copy of a cron that imports one architecture. */
  function ForArch(c: Cron, arch: Arch): Cron {
    c.(key := c.key.(name := Suffixed(c.key.name, arch)),
       labels := c.labels[ARCH_LABEL := Name(arch)][DATA_SOURCE_NAME_LABEL := c.spec.managed],
       spec := CronSpec(Suffixed(c.spec.managed, arch),
                        if c.spec.registry.Registry? then c.spec.registry.(architecture := Name(arch)) else NoRegistry,
                        c.spec.schedule))
  }

  /** The copy for one wanted architecture, if the cluster has it. */
  function ArchCopy(c: Cron, archs: seq<Arch>): Arch -> seq<Cron> {
    (a: Arch) => if a in archs then [ForArch(c, a)] else []
  }

  function ArchCopies(c: Cron, wanted: seq<Arch>, archs: seq<Arch>): seq<Cron> {
    FlatMap(wanted, ArchCopy(c, archs))
  }

  /** Without an architecture list the cron serves the DataSource of the default architecture. */
  function ForDefault(c: Cron, archs: seq<Arch>, sources: Collection): Cron {
    if c.spec.managed !in sources then c
    else
      var arch := DefaultArch(archs, sources[c.spec.managed]);
      if arch.None? then c else c.(spec := c.spec.(managed := Suffixed(c.spec.managed, arch.value)))
  }

  /** The crons that one template stands for. */
  function CronsOf(t: Cron, multi: bool, archs: seq<Arch>, sources: Collection): seq<Cron> {
    var c := Normalized(t);
    var list := GetOrEmpty(t.annotations, ARCHS_ANNOTATION);
    if !multi then [c]
    else if list == "" then [ForDefault(c, archs, sources)]
    else ArchCopies(c, ParseArchs(list), archs)
  }

  function AddAll(m: CronMap, crons: seq<Cron>): CronMap {
    if crons == [] then m
    else
      var n := |crons| - 1;
      AddAll(m, crons[..n])[ManagedBy(crons[n]) := crons[n]]
  }

  function CronMapOf(templates: seq<Cron>, multi: bool, archs: seq<Arch>, sources: Collection): CronMap {
    if templates == [] then map[]
    else
      var n := |templates| - 1;
      AddAll(CronMapOf(templates[..n], multi, archs, sources), CronsOf(templates[n], multi, archs, sources))
  }

  ghost predicate KeyedByManaged(m: CronMap) {
    forall k <- m :: ManagedBy(m[k]) == k
  }

  lemma {:induction false} AddAllIsExact(m: CronMap, crons: seq<Cron>)
    ensures forall k :: k in AddAll(m, crons) <==> k in m || exists c <- crons :: ManagedBy(c) == k
    ensures forall k <- AddAll(m, crons) ::
              (k in m && AddAll(m, crons)[k] == m[k])
                || (AddAll(m, crons)[k] in crons && ManagedBy(AddAll(m, crons)[k]) == k)
  {
    if crons != [] {
      var n := |crons| - 1;
      AddAllIsExact(m, crons[..n]);
      assert forall c :: c in crons <==> c in crons[..n] || c == crons[n];
    }
  }

  /** A cron of the map serves a template, and every template's crons have their place in the map. */
  lemma {:induction false} CronMapIsExact(templates: seq<Cron>, multi: bool, archs: seq<Arch>, sources: Collection)
    ensures var m := CronMapOf(templates, multi, archs, sources);
            && KeyedByManaged(m)
            && (forall k <- m :: exists t <- templates :: m[k] in CronsOf(t, multi, archs, sources))
            && (forall t <- templates :: forall c <- CronsOf(t, multi, archs, sources) :: ManagedBy(c) in m)
  {
    if templates != [] {
      var n := |templates| - 1;
      var before := CronMapOf(templates[..n], multi, archs, sources);
      var m := CronMapOf(templates, multi, archs, sources);
      CronMapIsExact(templates[..n], multi, archs, sources);
      AddAllIsExact(before, CronsOf(templates[n], multi, archs, sources));
      assert forall t :: t in templates <==> t in templates[..n] || t == templates[n];
      forall k <- m ensures exists t <- templates :: m[k] in CronsOf(t, multi, archs, sources) {
        if m[k] in CronsOf(templates[n], multi, archs, sources) { assert templates[n] in templates; }
        else {
          var t :| t in templates[..n] && before[k] in CronsOf(t, multi, archs, sources);
          assert t in templates;
        }
      }
    }
  }

  lemma ArchCopiesAreExact(c: Cron, wanted: seq<Arch>, archs: seq<Arch>, copy: Cron)
    ensures copy in ArchCopies(c, wanted, archs) <==> exists a <- wanted :: a in archs && copy == ForArch(c, a)
  {
    InFlatMap(wanted, ArchCopy(c, archs), copy);
    assert forall a :: copy in ArchCopy(c, archs)(a) <==> a in archs && copy == ForArch(c, a);
  }

  method AddArchCopies(before: CronMap, cron: Cron, wanted: seq<Arch>, archs: seq<Arch>) returns (m: CronMap)
    ensures m == AddAll(before, ArchCopies(cron, wanted, archs))
  {
    m := before;
    for j := 0 to |wanted|
      invariant m == AddAll(before, ArchCopies(cron, wanted[..j], archs))
    {
      ghost var copies := ArchCopies(cron, wanted[..j], archs);
      assert wanted[..j + 1][..j] == wanted[..j];
      assert copies + [] == copies;
      if wanted[j] in archs {
        var copy := ForArch(cron, wanted[j]);
        assert ArchCopies(cron, wanted[..j + 1], archs) == copies + [copy];
        assert (copies + [copy])[..|copies|] == copies;
        m := m[ManagedBy(copy) := copy];
      }
    }
    assert wanted[..|wanted|] == wanted;
  }

  method AddTemplate(before: CronMap, t: Cron, multi: bool, archs: seq<Arch>, sources: Collection) returns (m: CronMap)
    ensures m == AddAll(before, CronsOf(t, multi, archs, sources))
  {
    var cron := Normalized(t);
    var list := GetOrEmpty(t.annotations, ARCHS_ANNOTATION);
    if multi && list != "" {
      m := AddArchCopies(before, cron, ParseArchs(list), archs);
      return;
    }
    if multi { cron := ForDefault(cron, archs, sources); }
    m := before[ManagedBy(cron) := cron];
    assert AddAll(before, [cron][..0]) == before;
  }

  method CollectCrons(templates: seq<Cron>, multi: bool, archs: seq<Arch>, sources: Collection) returns (m: CronMap)
    ensures m == CronMapOf(templates, multi, archs, sources)
  {
    m := map[];
    for i := 0 to |templates|
      invariant m == CronMapOf(templates[..i], multi, archs, sources)
    {
      assert templates[..i + 1][..i] == templates[..i];
      m := AddTemplate(m, templates[i], multi, archs, sources);
    }
    assert templates[..|templates|] == templates;
  }
}

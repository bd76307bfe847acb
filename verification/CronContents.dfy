/** What planned crons are called, what they import and for which DataSource, told from the templates. */
module CronContents {
  import opened Kube
  import opened Ssp
  import opened Architecture
  import opened Bundle
  import opened CronPlan
  import opened ManagerExclusivity
  import opened KeptCrons
  import opened ArchLists

  // ----- one cron and its template

  /** The template's own object, in the golden images namespace unless it names another one. */
  ghost predicate Resembles(t: Cron, c: Cron) {
    && c.key.kind == t.key.kind
    && c.key.namespace == (if t.key.namespace == "" then GOLDEN_IMAGES else t.key.namespace)
    && c.spec.schedule == t.spec.schedule
    && (forall k :: Lookup(c.annotations, k) == if k == ARCHS_ANNOTATION then None else Lookup(t.annotations, k))
    && c.uid == t.uid
    && c.version == t.version
    && c.generation == t.generation
    && c.ownerRefs == t.ownerRefs
    && c.finalizers == t.finalizers
    && c.terminating == t.terminating
    && c.conditions == t.conditions
  }

  /** A cron that serves one DataSource and leaves the choice of the image to the registry. */
  ghost predicate Serves(t: Cron, managed: string, c: Cron) {
    && Resembles(t, c)
    && c.key.name == t.key.name
    && c.spec.managed == managed
    && c.spec.registry == t.spec.registry
    && c.labels == t.labels
  }

  /** A cron that imports the image of one architecture. */
  ghost predicate Imports(t: Cron, a: Arch, c: Cron) {
    && Resembles(t, c)
    && c.key.name == t.key.name + "-" + Name(a)
    && c.spec.managed == t.spec.managed + "-" + Name(a)
    && (if t.spec.registry.Registry?
        then c.spec.registry == Registry(t.spec.registry.url, Name(a))
        else c.spec.registry == NoRegistry)
    && forall k :: Lookup(c.labels, k) ==
                     if k == ARCH_LABEL then Some(Name(a))
                     else if k == DATA_SOURCE_NAME_LABEL then Some(t.spec.managed)
                     else Lookup(t.labels, k)
  }

  lemma ResemblesIff(t: Cron, c: Cron)
    ensures Resembles(t, c) <==>
              var n := Normalized(t);
              c == n.(key := n.key.(name := c.key.name), labels := c.labels,
                      spec := CronSpec(c.spec.managed, c.spec.registry, t.spec.schedule))
  {
    var kept := t.annotations - {ARCHS_ANNOTATION};
    assert forall k :: Lookup(kept, k) == if k == ARCHS_ANNOTATION then None else Lookup(t.annotations, k);
    if Resembles(t, c) { SameReads(c.annotations, kept); }
  }

  lemma ServesIff(t: Cron, managed: string, c: Cron)
    ensures Serves(t, managed, c) <==> c == Normalized(t).(spec := t.spec.(managed := managed))
  {
    ResemblesIff(t, c);
  }

  lemma LabelsOfCopy(t: Cron, a: Arch, k: string)
    ensures Lookup(ForArch(Normalized(t), a).labels, k) ==
              if k == ARCH_LABEL then Some(Name(a))
              else if k == DATA_SOURCE_NAME_LABEL then Some(t.spec.managed)
              else Lookup(t.labels, k)
  {
    assert |ARCH_LABEL| != |DATA_SOURCE_NAME_LABEL|;
  }

  lemma ImportsIff(t: Cron, a: Arch, c: Cron)
    ensures Imports(t, a, c) <==> c == ForArch(Normalized(t), a)
  {
    ResemblesIff(t, c);
    var copy := ForArch(Normalized(t), a);
    forall k ensures Lookup(copy.labels, k) ==
                       if k == ARCH_LABEL then Some(Name(a))
                       else if k == DATA_SOURCE_NAME_LABEL then Some(t.spec.managed)
                       else Lookup(t.labels, k)
    {
      LabelsOfCopy(t, a, k);
    }
    if Imports(t, a, c) { SameReads(c.labels, copy.labels); }
  }

  // ----- the crons of one template

  /** The first architecture of the cluster that the bundle offers for this name. */
  ghost predicate FirstOffered(archs: seq<Arch>, sources: Collection, name: string, a: Arch) {
    && name in sources
    && a in sources[name]
    && exists i :: 0 <= i < |archs| && archs[i] == a && forall j :: 0 <= j < i ==> archs[j] !in sources[name]
  }

  /** The cron is one that the template stands for. */
  ghost predicate ComesFrom(inp: Input, t: Cron, c: Cron) {
    var list := GetOrEmpty(t.annotations, ARCHS_ANNOTATION);
    if !IsMultiArch(inp.spec) then
      Serves(t, t.spec.managed, c)
    else if list != "" then
      exists a :: Listed(list, a) && a in inp.archs && Imports(t, a, c)
    else if exists a :: FirstOffered(inp.archs, inp.sources, t.spec.managed, a) then
      exists a ::
        FirstOffered(inp.archs, inp.sources, t.spec.managed, a) && Serves(t, t.spec.managed + "-" + Name(a), c)
    else
      Serves(t, t.spec.managed, c)
  }

  lemma FirstOfferedIff(archs: seq<Arch>, sources: Collection, name: string, a: Arch)
    ensures FirstOffered(archs, sources, name, a) <==> name in sources && DefaultArch(archs, sources[name]) == Some(a)
  {
    if name in sources && FirstOffered(archs, sources, name, a) {
      var r := DefaultArch(archs, sources[name]);
      var i :| 0 <= i < |archs| && archs[i] == a && forall j :: 0 <= j < i ==> archs[j] !in sources[name];
      var k :| 0 <= k < |archs| && archs[k] == r.value && forall j :: 0 <= j < k ==> archs[j] !in sources[name];
      assert i == k;
    }
  }

  lemma ListedComesFrom(inp: Input, t: Cron, c: Cron)
    requires IsMultiArch(inp.spec) && GetOrEmpty(t.annotations, ARCHS_ANNOTATION) != ""
    ensures ComesFrom(inp, t, c) <==> c in CronsOf(t, true, inp.archs, inp.sources)
  {
    var list := GetOrEmpty(t.annotations, ARCHS_ANNOTATION);
    ArchCopiesAreExact(Normalized(t), ParseArchs(list), inp.archs, c);
    forall a ensures a in ParseArchs(list) <==> Listed(list, a) { ListedIff(list, a); }
    forall a ensures Imports(t, a, c) <==> c == ForArch(Normalized(t), a) { ImportsIff(t, a, c); }
  }

  lemma UnlistedComesFrom(inp: Input, t: Cron, c: Cron)
    requires IsMultiArch(inp.spec) && GetOrEmpty(t.annotations, ARCHS_ANNOTATION) == ""
    ensures ComesFrom(inp, t, c) <==> c in CronsOf(t, true, inp.archs, inp.sources)
  {
    forall a ensures FirstOffered(inp.archs, inp.sources, t.spec.managed, a) <==>
                       t.spec.managed in inp.sources && DefaultArch(inp.archs, inp.sources[t.spec.managed]) == Some(a)
    {
      FirstOfferedIff(inp.archs, inp.sources, t.spec.managed, a);
    }
    ServesIff(t, t.spec.managed, c);
    if a :| FirstOffered(inp.archs, inp.sources, t.spec.managed, a) {
      ServesIff(t, t.spec.managed + "-" + Name(a), c);
    }
  }

  function CronsFor(inp: Input, t: Cron): seq<Cron> {
    CronsOf(t, IsMultiArch(inp.spec), inp.archs, inp.sources)
  }

  lemma ComesFromIff(inp: Input, t: Cron, c: Cron)
    ensures ComesFrom(inp, t, c) <==> c in CronsFor(inp, t)
  {
    if !IsMultiArch(inp.spec) { ServesIff(t, t.spec.managed, c); }
    else if GetOrEmpty(t.annotations, ARCHS_ANNOTATION) != "" { ListedComesFrom(inp, t, c); }
    else { UnlistedComesFrom(inp, t, c); }
  }

  // ----- all templates

  /** The template has a cron for this DataSource. */
  ghost predicate Claims(inp: Input, t: Cron, k: Managed) {
    exists c :: ComesFrom(inp, t, c) && c.key.namespace == k.namespace && c.spec.managed == k.name
  }

  /** It comes from the last template that claims the DataSource. */
  ghost predicate LastClaim(inp: Input, templates: seq<Cron>, k: Managed, c: Cron) {
    exists i :: 0 <= i < |templates| && ComesFrom(inp, templates[i], c) &&
                forall j :: i < j < |templates| ==> !Claims(inp, templates[j], k)
  }

  lemma ClaimsIff(inp: Input, t: Cron, k: Managed)
    ensures Claims(inp, t, k) <==>
              exists c <- CronsFor(inp, t) :: ManagedBy(c) == k
  {
    var crons := CronsFor(inp, t);
    if c :| ComesFrom(inp, t, c) && c.key.namespace == k.namespace && c.spec.managed == k.name {
      ComesFromIff(inp, t, c);
      assert ManagedBy(c) == k;
    }
    if c :| c in crons && ManagedBy(c) == k { ComesFromIff(inp, t, c); }
  }

  lemma LastClaimGrows(inp: Input, templates: seq<Cron>, k: Managed, c: Cron, t: Cron)
    requires LastClaim(inp, templates, k, c) && !Claims(inp, t, k)
    ensures LastClaim(inp, templates + [t], k, c)
  {
    var i :| 0 <= i < |templates| && ComesFrom(inp, templates[i], c) &&
             forall j :: i < j < |templates| ==> !Claims(inp, templates[j], k);
    assert (templates + [t])[i] == templates[i];
  }

  /** The map holds the DataSources that templates claim, each with its last claim. */
  ghost predicate HoldsLastClaim(inp: Input, templates: seq<Cron>, m: CronMap, k: Managed) {
    && (k in m <==> exists t <- templates :: Claims(inp, t, k))
    && (k in m ==> LastClaim(inp, templates, k, m[k]) && ManagedBy(m[k]) == k)
  }

  lemma LastClaimIsNew(inp: Input, templates: seq<Cron>, k: Managed, c: Cron, t: Cron)
    requires ComesFrom(inp, t, c)
    ensures LastClaim(inp, templates + [t], k, c)
  {
    assert (templates + [t])[|templates|] == t;
  }

  lemma NextTemplate(inp: Input, templates: seq<Cron>, m: CronMap, k: Managed, t: Cron)
    requires HoldsLastClaim(inp, templates, m, k)
    ensures HoldsLastClaim(inp, templates + [t], AddAll(m, CronsFor(inp, t)), k)
  {
    var crons := CronsFor(inp, t);
    LastAdded(m, crons, k);
    assert Covers(crons, k) <==> Claims(inp, t, k) by { ClaimsIff(inp, t, k); }
    assert forall u :: u in templates + [t] <==> u in templates || u == t;
    if Claims(inp, t, k) {
      ComesFromIff(inp, t, AddAll(m, crons)[k]);
      LastClaimIsNew(inp, templates, k, AddAll(m, crons)[k], t);
    } else if k in m {
      LastClaimGrows(inp, templates, k, m[k], t);
    }
  }

  lemma MapOfOneMore(inp: Input, ts: seq<Cron>, t: Cron)
    ensures CronMapOf(ts + [t], IsMultiArch(inp.spec), inp.archs, inp.sources) ==
            AddAll(CronMapOf(ts, IsMultiArch(inp.spec), inp.archs, inp.sources), CronsFor(inp, t))
  {
    assert (ts + [t])[..|ts|] == ts;
  }

  ghost predicate MapIsRight(inp: Input, ts: seq<Cron>, k: Managed) {
    HoldsLastClaim(inp, ts, CronMapOf(ts, IsMultiArch(inp.spec), inp.archs, inp.sources), k)
  }

  lemma NothingIsClaimed(inp: Input, k: Managed)
    ensures MapIsRight(inp, [], k)
  {
  }

  lemma OneMoreIsRight(inp: Input, ts: seq<Cron>, t: Cron, k: Managed)
    requires MapIsRight(inp, ts, k)
    ensures MapIsRight(inp, ts + [t], k)
  {
    NextTemplate(inp, ts, CronMapOf(ts, IsMultiArch(inp.spec), inp.archs, inp.sources), k, t);
    MapOfOneMore(inp, ts, t);
  }

  lemma {:induction false} MapHoldsLastClaims(inp: Input, templates: seq<Cron>, k: Managed)
    ensures MapIsRight(inp, templates, k)
  {
    if templates == [] {
      NothingIsClaimed(inp, k);
    } else {
      var n := |templates| - 1;
      var earlier, t := templates[..n], templates[n];
      assert templates == earlier + [t];
      MapHoldsLastClaims(inp, earlier, k);
      OneMoreIsRight(inp, earlier, t, k);
    }
  }

  ghost predicate Covers(crons: seq<Cron>, k: Managed) {
    exists c <- crons :: ManagedBy(c) == k
  }

  lemma {:induction false} LastAdded(m: CronMap, crons: seq<Cron>, k: Managed)
    ensures Covers(crons, k) ==>
              && k in AddAll(m, crons)
              && AddAll(m, crons)[k] in crons
              && ManagedBy(AddAll(m, crons)[k]) == k
    ensures !Covers(crons, k) ==> Lookup(AddAll(m, crons), k) == Lookup(m, k)
  {
    if crons != [] {
      var n := |crons| - 1;
      LastAdded(m, crons[..n], k);
      assert Covers(crons[..n], k) ==> Covers(crons, k) by {
        if c :| c in crons[..n] && ManagedBy(c) == k { assert c in crons; }
      }
      if ManagedBy(crons[n]) != k && Covers(crons, k) {
        var c :| c in crons && ManagedBy(c) == k;
        assert c in crons[..n];
      }
    }
  }

  /**
   A cron is planned for a DataSource exactly if some template claims it and bundle and cluster leave
   it to a cron, and the planned one comes from the last template that claims it.
   */
  lemma PlannedCronsIff(inp: Input, k: Managed)
    requires inp.archs != []
    ensures k in Planned(inp).crons <==> (exists t <- inp.spec.cronTemplates :: Claims(inp, t, k)) && Kept(inp, k)
    ensures k in Planned(inp).crons ==>
              var c := Planned(inp).crons[k];
              && LastClaim(inp, inp.spec.cronTemplates, k, c)
              && c.key.namespace == k.namespace
              && c.spec.managed == k.name
  {
    MapHoldsLastClaims(inp, inp.spec.cronTemplates, k);
    RemainingIsExact(Crons(inp), Planned(inp).infos);
    if k in Crons(inp) { KeptIff(inp, k); }
  }
}

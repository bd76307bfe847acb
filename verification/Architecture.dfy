/** CPU architectures of the cluster: parsing, ordering and admission. */
module Architecture {
  import opened Kube
  import opened Ssp
  import opened Sequences

  datatype Arch = AMD64 | ARM64 | S390X

  datatype ArchError = UnknownArch(name: string) | MissingCluster | NoArchitectures | UnsupportedBuild(name: string)

  function Name(a: Arch): (s: string)
    ensures |s| == 5
  {
    match a
    case AMD64 => "amd64"
    case ARM64 => "arm64"
    case S390X => "s390x"
  }

  function ToArch(s: string): Option<Arch> {
    if s == Name(AMD64) then Some(AMD64)
    else if s == Name(ARM64) then Some(ARM64)
    else if s == Name(S390X) then Some(S390X)
    else None
  }

  lemma ToArchInvertsName(a: Arch, s: string)
    ensures ToArch(s) == Some(a) <==> s == Name(a)
    ensures ToArch(s) == Some(AMD64) <==> s == "amd64"
    ensures ToArch(s) == Some(ARM64) <==> s == "arm64"
    ensures ToArch(s) == Some(S390X) <==> s == "s390x"
  {
    assert Name(AMD64)[1] == 'm' && Name(ARM64)[1] == 'r' && Name(S390X)[1] == '3';
  }

  /** A name with an architecture suffix. */
  function Suffixed(name: string, a: Arch): string {
    name + "-" + Name(a)
  }

  /** All suffixes have the same length, so both parts can be read back. */
  lemma SuffixedIsInjective(n: string, a: Arch, m: string, b: Arch)
    requires Suffixed(n, a) == Suffixed(m, b)
    ensures n == m && a == b
  {
    var s := Suffixed(n, a);
    assert n == s[..|s| - 6] == m;
    assert Name(a) == s[|s| - 5..] == Name(b);
    ToArchInvertsName(a, Name(a));
    ToArchInvertsName(b, Name(b));
  }

  /** Keeps the first occurrence of every element, in order. */
  function Dedup<T(==,!new)>(s: seq<T>): (r: seq<T>)
    ensures s != [] ==> r != [] && r[0] == s[0]
  {
    if s == [] then []
    else
      var n := |s| - 1;
      var before := Dedup(s[..n]);
      if s[n] in s[..n] then before else before + [s[n]]
  }

  lemma {:induction false} DedupMembers<T(!new)>(s: seq<T>, x: T)
    ensures x in Dedup(s) <==> x in s
  {
    if s != [] {
      var n := |s| - 1;
      assert s == s[..n] + [s[n]];
      DedupMembers(s[..n], x);
    }
  }

  lemma {:induction false} DedupIsDistinct<T(!new)>(s: seq<T>)
    ensures NoDuplicates(Dedup(s))
  {
    if s != [] {
      var n := |s| - 1;
      DedupIsDistinct(s[..n]);
      DedupMembers(s[..n], s[n]);
    }
  }

  /** This is where an element turns up for the first time. */
  ghost predicate FirstAt<T(!new)>(s: seq<T>, x: T, i: nat) {
    i < |s| && s[i] == x && x !in s[..i]
  }

  ghost predicate TurnsUpBefore<T(!new)>(s: seq<T>, x: T, y: T) {
    exists i: nat, j: nat :: i < j && FirstAt(s, x, i) && FirstAt(s, y, j)
  }

  lemma {:induction false} TurnsUp<T(!new)>(s: seq<T>, x: T) returns (i: nat)
    requires x in s
    ensures FirstAt(s, x, i)
  {
    var n := |s| - 1;
    if x in s[..n] {
      i := TurnsUp(s[..n], x);
      assert s[..n][..i] == s[..i];
    } else {
      i := n;
    }
  }

  /** Elements come in the order in which they first turn up. */
  lemma {:induction false} DedupKeepsOrder<T(!new)>(s: seq<T>, i: nat, j: nat) returns (p: nat, q: nat)
    requires i < j < |Dedup(s)|
    ensures p < q && FirstAt(s, Dedup(s)[i], p) && FirstAt(s, Dedup(s)[j], q)
    decreases |s|
  {
    var n := |s| - 1;
    var before := Dedup(s[..n]);
    if j < |before| {
      p, q := DedupKeepsOrder(s[..n], i, j);
      assert s[..n][..p] == s[..p] && s[..n][..q] == s[..q];
    } else {
      DedupMembers(s[..n], before[i]);
      p := TurnsUp(s[..n], before[i]);
      q := n;
      assert s[..n][..p] == s[..p];
    }
  }

  lemma DedupOneMore<T(!new)>(s: seq<T>, x: T)
    ensures Dedup(s + [x]) == if x in s then Dedup(s) else Dedup(s) + [x]
  {
    assert (s + [x])[..|s|] == s;
  }

  function Flatten<T>(data: seq<seq<T>>): seq<T> {
    if data == [] then [] else Flatten(data[..|data| - 1]) + data[|data| - 1]
  }

  lemma FlattenTwo<T>(a: seq<T>, b: seq<T>)
    ensures Flatten([a, b]) == a + b
  {
    assert [a, b][..1] == [a] && [a][..0] == [];
    assert Flatten([a]) == Flatten([a][..0]) + a == a;
  }

  lemma FlattenOneMore<T>(data: seq<seq<T>>, i: nat)
    requires i < |data|
    ensures Flatten(data[..i + 1]) == Flatten(data[..i]) + data[i]
  {
    assert data[..i + 1][..i] == data[..i];
  }

  lemma DedupNext<T(!new)>(before: seq<T>, xs: seq<T>, j: nat)
    requires j < |xs|
    ensures Dedup(before + xs[..j + 1]) ==
            if xs[j] in Dedup(before + xs[..j]) then Dedup(before + xs[..j]) else Dedup(before + xs[..j]) + [xs[j]]
  {
    assert before + xs[..j + 1] == (before + xs[..j]) + [xs[j]];
    DedupOneMore(before + xs[..j], xs[j]);
    DedupMembers(before + xs[..j], xs[j]);
  }

  method ConcatWithoutRepetitions<T(==,!new)>(data: seq<seq<T>>) returns (r: seq<T>)
    ensures r == Dedup(Flatten(data))
  {
    r := [];
    var seen: set<T> := {};
    for i := 0 to |data|
      invariant r == Dedup(Flatten(data[..i]))
      invariant forall x :: x in seen <==> x in r
    {
      ghost var before := Flatten(data[..i]);
      FlattenOneMore(data, i);
      assert before + data[i][..0] == before;
      for j := 0 to |data[i]|
        invariant r == Dedup(before + data[i][..j])
        invariant forall x :: x in seen <==> x in r
      {
        var val := data[i][j];
        DedupNext(before, data[i], j);
        if val !in seen {
          seen := seen + {val};
          r := r + [val];
        }
      }
      assert data[i][..|data[i]|] == data[i];
    }
    assert data[..|data|] == data;
  }

  /** All of the names as architectures, or the first that is not known. */
  function ToArchs(names: seq<string>): (r: Result<seq<Arch>, ArchError>)
    ensures r.Ok? <==> forall s <- names :: ToArch(s).Some?
    ensures r.Ok? ==> |r.value| == |names| && forall i :: 0 <= i < |names| ==> names[i] == Name(r.value[i])
  {
    if names == [] then Ok([])
    else
      var n := |names| - 1;
      assert names == names[..n] + [names[n]];
      var before := ToArchs(names[..n]);
      if before.Err? then before
      else if ToArch(names[n]).None? then Err(UnknownArch(names[n]))
      else ToArchInvertsName(ToArch(names[n]).value, names[n]); Ok(before.value + [ToArch(names[n]).value])
  }

  /** Control plane architectures first, then workload ones. */
  function ArchNames(c: ClusterArchs): seq<string> {
    Dedup(c.controlPlane + c.workload)
  }

  function SspArchs(spec: SspSpec, build: string): Result<seq<Arch>, ArchError> {
    if spec.cluster.None? then
      if IsMultiArch(spec) then Err(MissingCluster)
      else if ToArch(build).None? then Err(UnsupportedBuild(build))
      else Ok([ToArch(build).value])
    else
      var names := ArchNames(spec.cluster.value);
      if names == [] then Err(NoArchitectures)
      else if IsMultiArch(spec) then ToArchs(names)
      else if ToArch(names[0]).None? then Err(UnknownArch(names[0]))
      else Ok([ToArch(names[0]).value])
  }

  method GetSSPArchs(spec: SspSpec, build: string) returns (r: Result<seq<Arch>, ArchError>)
    ensures r == SspArchs(spec, build)
  {
    if spec.cluster.None? {
      if IsMultiArch(spec) { return Err(MissingCluster); }
      var default := ToArch(build);
      if default.None? { return Err(UnsupportedBuild(build)); }
      return Ok([default.value]);
    }
    var lists := [spec.cluster.value.controlPlane, spec.cluster.value.workload];
    var names := ConcatWithoutRepetitions(lists);
    FlattenTwo(spec.cluster.value.controlPlane, spec.cluster.value.workload);
    if names == [] { return Err(NoArchitectures); }
    if IsMultiArch(spec) {
      var archs: seq<Arch> := [];
      for i := 0 to |names|
        invariant ToArchs(names[..i]) == Ok(archs)
      {
        assert names[..i + 1][..i] == names[..i];
        var arch := ToArch(names[i]);
        if arch.None? {
          FirstUnknown(names, i);
          return Err(UnknownArch(names[i]));
        }
        archs := archs + [arch.value];
      }
      assert names[..|names|] == names;
      return Ok(archs);
    }
    var arch := ToArch(names[0]);
    if arch.None? { return Err(UnknownArch(names[0])); }
    return Ok([arch.value]);
  }

  lemma {:induction false} FirstUnknown(names: seq<string>, i: nat)
    requires i < |names| && ToArch(names[i]).None? && ToArchs(names[..i]).Ok?
    ensures ToArchs(names) == Err(UnknownArch(names[i]))
    decreases |names|
  {
    var n := |names| - 1;
    if i < n {
      assert names[..n][..i] == names[..i];
      FirstUnknown(names[..n], i);
    }
  }

  /** What the validating webhook demands of the cluster part of an SSP object. */
  ghost predicate ClusterAccepted(spec: SspSpec) {
    && (IsMultiArch(spec) ==> spec.cluster.Some?)
    && (spec.cluster.Some? ==>
          var c := spec.cluster.value;
          && c.workload + c.controlPlane != []
          && forall s :: s in c.workload || s in c.controlPlane ==> ToArch(s).Some?)
  }

  method ValidateCluster(spec: SspSpec) returns (accepted: bool)
    ensures accepted <==> ClusterAccepted(spec)
  {
    if IsMultiArch(spec) && spec.cluster.None? { return false; }
    if spec.cluster.Some? {
      var c := spec.cluster.value;
      if |c.workload| == 0 && |c.controlPlane| == 0 { return false; }
      for i := 0 to |c.workload|
        invariant forall j :: 0 <= j < i ==> ToArch(c.workload[j]).Some?
      {
        if ToArch(c.workload[i]).None? { return false; }
      }
      for i := 0 to |c.controlPlane|
        invariant forall j :: 0 <= j < i ==> ToArch(c.controlPlane[j]).Some?
      {
        if ToArch(c.controlPlane[i]).None? { return false; }
      }
    }
    return true;
  }

  function Names(archs: seq<Arch>): seq<string> {
    seq(|archs|, i requires 0 <= i < |archs| => Name(archs[i]))
  }

  /** An accepted SSP object has architectures to work with, in the documented order. */
  lemma AdmissionIsSound(spec: SspSpec, build: string)
    requires ClusterAccepted(spec) && ToArch(build).Some?
    ensures var r := SspArchs(spec, build);
            && r.Ok?
            && r.value != []
            && NoDuplicates(r.value)
            && (spec.cluster.Some? ==>
                  var names := ArchNames(spec.cluster.value);
                  Names(r.value) == if IsMultiArch(spec) then names else names[..1])
  {
    var r := SspArchs(spec, build);
    if spec.cluster.Some? {
      var names := ArchNames(spec.cluster.value);
      DedupIsDistinct(spec.cluster.value.controlPlane + spec.cluster.value.workload);
      forall s <- names ensures s in spec.cluster.value.workload || s in spec.cluster.value.controlPlane {
        DedupMembers(spec.cluster.value.controlPlane + spec.cluster.value.workload, s);
      }
      if spec.cluster.value.controlPlane == [] { assert spec.cluster.value.workload[0] in names; }
      else { assert spec.cluster.value.controlPlane[0] in names; }
      ToArchInvertsName(r.value[0], names[0]);
    }
  }

  /** Each listed name once, those of the control plane first, in the order in which they are listed. */
  ghost predicate InListedOrder(c: ClusterArchs, archs: seq<Arch>) {
    var all := c.controlPlane + c.workload;
    && (forall s :: s in all <==> exists a <- archs :: Name(a) == s)
    && forall i, j :: 0 <= i < j < |archs| ==> TurnsUpBefore(all, Name(archs[i]), Name(archs[j]))
  }

  lemma ArchsInListedOrder(spec: SspSpec, build: string)
    requires ClusterAccepted(spec) && spec.cluster.Some? && spec.multiArch == Some(true) && ToArch(build).Some?
    ensures SspArchs(spec, build).Ok? && InListedOrder(spec.cluster.value, SspArchs(spec, build).value)
  {
    AdmissionIsSound(spec, build);
    var c := spec.cluster.value;
    var all := c.controlPlane + c.workload;
    var names := ArchNames(c);
    var archs := SspArchs(spec, build).value;
    assert |archs| == |names| && forall i :: 0 <= i < |archs| ==> Name(archs[i]) == Names(archs)[i] == names[i];
    forall s ensures s in all <==> exists a <- archs :: Name(a) == s {
      DedupMembers(all, s);
      if s in names {
        var i :| 0 <= i < |names| && names[i] == s;
        assert archs[i] in archs && Name(archs[i]) == s;
      }
    }
    forall i, j | 0 <= i < j < |archs| ensures TurnsUpBefore(all, Name(archs[i]), Name(archs[j])) {
      var p, q := DedupKeepsOrder(all, i, j);
    }
  }

  /** With multiple architectures enabled the webhook rejects exactly what the operator cannot use. */
  lemma AdmissionIsExactForMultiArch(spec: SspSpec, build: string)
    requires IsMultiArch(spec)
    ensures ClusterAccepted(spec) <==> SspArchs(spec, build).Ok?
  {
    if spec.cluster.Some? {
      var c := spec.cluster.value;
      var all := c.controlPlane + c.workload;
      assert forall s :: s in all <==> s in c.workload || s in c.controlPlane;
      forall s ensures s in ArchNames(c) <==> s in all { DedupMembers(all, s); }
      if all == [] { assert c.workload + c.controlPlane == []; }
      else { assert all[0] in ArchNames(c) && c.workload + c.controlPlane != []; }
    }
  }

  /** The first name that the operator would use. */
  predicate FirstIsKnown(c: ClusterArchs) {
    if c.controlPlane != [] then ToArch(c.controlPlane[0]).Some?
    else c.workload != [] && ToArch(c.workload[0]).Some?
  }

  /**
   With a single architecture the operator looks at the first name only: a spec that the webhook
   rejects would have worked exactly if that name is known and some other one is not.
   */
  lemma RejectedButUsableIff(spec: SspSpec, build: string)
    requires spec.multiArch != Some(true)
    ensures !ClusterAccepted(spec) && SspArchs(spec, build).Ok? <==>
              && spec.cluster.Some?
              && FirstIsKnown(spec.cluster.value)
              && exists s ::
                   (s in spec.cluster.value.workload || s in spec.cluster.value.controlPlane) && ToArch(s).None?
  {
    if spec.cluster.Some? {
      var c := spec.cluster.value;
      if c.controlPlane + c.workload != [] {
        assert SspArchs(spec, build).Ok? <==> FirstIsKnown(c);
        assert c.workload + c.controlPlane != [];
      } else {
        assert ArchNames(c) == [];
      }
    }
  }
}

/** Where planned references lead: when one dangles, and when they go round in a circle. */
module ReferenceGraph {
  import opened Kube
  import opened Ssp
  import opened Architecture
  import opened Bundle
  import opened CronPlan
  import opened DataSourcePlan
  import opened ManagerExclusivity
  import opened References

  /** A planned DataSource is a reference to another one in the golden images namespace. */
  ghost predicate PlannedStep(plan: Plan, m: string, n: string) {
    exists x <- plan.infos :: RefersTo(x, m, n)
  }

  predicate RefersTo(x: Info, m: string, n: string) {
    && x.source.key.name == m
    && x.source.spec == DataSourceSpec(Reference(GOLDEN_IMAGES, n))
  }

  // ----- the same, told from bundle, spec and cluster

  /** A bundle name refers to the entry of the first supported architecture. */
  ghost predicate BundleStep(inp: Input, m: string, n: string) {
    exists a :: IsDefault(inp, m, a) && n == Suffixed(m, a)
  }

  /** The first template that asks for a name outside the bundle. */
  ghost predicate TemplateStep(inp: Input, m: string, n: string) {
    exists i: nat :: AsksFirst(inp, i) && m == inp.spec.cronTemplates[i].spec.managed
                     && n == TargetOf(inp.spec.cronTemplates[i], OriginIn(inp.archs))
  }

  ghost predicate AsksFirst(inp: Input, i: nat) {
    && i < |inp.spec.cronTemplates|
    && OriginIn(inp.archs)(inp.spec.cronTemplates[i]).Some?
    && !BundleName(inp, inp.spec.cronTemplates[i].spec.managed)
    && !AskedFor(inp.spec.cronTemplates[..i], OriginIn(inp.archs), inp.spec.cronTemplates[i].spec.managed)
  }

  /** A reference that was left in the place of a default entry. */
  ghost predicate StrayStep(inp: Input, m: string, n: string) {
    exists name, a :: IsStray(inp, name, a, n) && m == Suffixed(name, a)
  }

  ghost predicate IsStray(inp: Input, name: string, a: Arch, n: string) {
    && IsDefault(inp, name, a)
    && StrayReference(inp.server, name, a)
    && inp.server.objects[SourceKey(Suffixed(name, a))].spec == DataSourceSpec(Reference(GOLDEN_IMAGES, n))
  }

  ghost predicate HeldStep(inp: Input, m: string, n: string) {
    BundleStep(inp, m, n) || TemplateStep(inp, m, n) || StrayStep(inp, m, n)
  }

  lemma AsksFirstIff(inp: Input, i: nat)
    ensures AsksFirst(inp, i) <==> FirstFor(MultiInfos(inp), inp.spec.cronTemplates, OriginIn(inp.archs), i)
  {
    if i < |inp.spec.cronTemplates| { BundleNamesArePlanned(inp, inp.spec.cronTemplates[i].spec.managed); }
  }

  lemma BundleStepIsPlanned(inp: Input, m: string, n: string)
    requires inp.archs != [] && IsMultiArch(inp.spec) && BundleStep(inp, m, n)
    ensures PlannedStep(Planned(inp), m, n)
  {
    var a :| IsDefault(inp, m, a) && n == Suffixed(m, a);
    var x := ReferenceInfo(m, a);
    assert IsReferenceFor(inp, m, x);
    PlannedMulti(inp, m, x);
    assert RefersTo(x, m, n);
  }

  lemma TemplateStepIsPlanned(inp: Input, m: string, n: string)
    requires inp.archs != [] && IsMultiArch(inp.spec) && TemplateStep(inp, m, n)
    ensures PlannedStep(Planned(inp), m, n)
  {
    var i: nat :| AsksFirst(inp, i) && m == inp.spec.cronTemplates[i].spec.managed
                  && n == TargetOf(inp.spec.cronTemplates[i], OriginIn(inp.archs));
    AsksFirstIff(inp, i);
    TemplateIsPlanned(inp, i);
    assert RefersTo(ReferenceOf(inp.spec.cronTemplates[i], OriginIn(inp.archs)), m, n);
  }

  lemma StrayStepIsPlanned(inp: Input, m: string, n: string)
    requires inp.archs != [] && IsMultiArch(inp.spec) && StrayStep(inp, m, n)
    ensures PlannedStep(Planned(inp), m, n)
  {
    var name, a :| IsStray(inp, name, a, n) && m == Suffixed(name, a);
    var x := StrayIsPlanned(inp, name, a);
    assert RefersTo(x, m, n);
  }

  lemma MultiStepIsHeld(inp: Input, x: Info, m: string, n: string)
    requires x in MultiInfos(inp) && RefersTo(x, m, n)
    ensures BundleStep(inp, m, n) || StrayStep(inp, m, n)
  {
    assert IsReference(x.source);
    MultiReferenceOrigin(inp, x);
    if name :| FromBundle(inp, name, x) {
      assert IsDefault(inp, m, DefaultArch(inp.archs, ArchsOf(inp.sources, name)).value);
    } else {
      var name, a :| FromStray(inp, name, a, x);
      assert IsStray(inp, name, a, n);
    }
  }

  lemma AddedStepIsHeld(inp: Input, i: nat, x: Info, m: string, n: string)
    requires FromTemplate(inp, i, x) && RefersTo(x, m, n)
    ensures TemplateStep(inp, m, n)
  {
    AsksFirstIff(inp, i);
  }

  /** Planned references are exactly those of bundle, templates and cluster. */
  lemma StepIff(inp: Input, m: string, n: string)
    requires inp.archs != [] && IsMultiArch(inp.spec)
    ensures PlannedStep(Planned(inp), m, n) <==> HeldStep(inp, m, n)
  {
    if BundleStep(inp, m, n) { BundleStepIsPlanned(inp, m, n); }
    if TemplateStep(inp, m, n) { TemplateStepIsPlanned(inp, m, n); }
    if StrayStep(inp, m, n) { StrayStepIsPlanned(inp, m, n); }
    if PlannedStep(Planned(inp), m, n) {
      var x :| x in Planned(inp).infos && RefersTo(x, m, n);
      PlannedStepIsHeld(inp, x, m, n);
    }
  }

  lemma PlannedStepIsHeld(inp: Input, x: Info, m: string, n: string)
    requires inp.archs != [] && IsMultiArch(inp.spec) && x in Planned(inp).infos && RefersTo(x, m, n)
    ensures HeldStep(inp, m, n)
  {
    PlannedIsMultiOrAdded(inp, x);
    if x in MultiInfos(inp) { MultiStepIsHeld(inp, x, m, n); }
    else { AnyAddedStepIsHeld(inp, x, m, n); }
  }

  lemma AnyAddedStepIsHeld(inp: Input, x: Info, m: string, n: string)
    requires Added(MultiInfos(inp), inp.spec.cronTemplates, OriginIn(inp.archs), x) && RefersTo(x, m, n)
    ensures TemplateStep(inp, m, n)
  {
    var i: nat :| AddedFor(MultiInfos(inp), inp.spec.cronTemplates, OriginIn(inp.archs), i, x);
    AddedStepIsHeld(inp, i, x, m, n);
  }

  // ----- dangling

  /** A planned reference to a name in the golden images namespace that nothing provides. */
  ghost predicate Dangles(plan: Plan, n: string) {
    !Provided(plan, n) && exists m :: PlannedStep(plan, m, n)
  }

  lemma BundleStepIsSupplied(inp: Input, m: string, n: string)
    requires BundleStep(inp, m, n)
    ensures Supplied(inp, n)
  {
    var a :| IsDefault(inp, m, a) && n == Suffixed(m, a);
    assert NameFor(inp, m, n);
  }

  /**
   No planned reference dangles exactly if bundle or spec supply the targets
   of custom templates and of stray references.
   */
  lemma NoneDanglesIff(inp: Input)
    requires WellFormedInput(inp) && IsMultiArch(inp.spec) && NonColliding(inp.sources, inp.archs)
    ensures (forall n :: !Dangles(Planned(inp), n)) <==>
              && (forall m, n :: TemplateStep(inp, m, n) ==> Supplied(inp, n))
              && (forall m, n :: StrayStep(inp, m, n) ==> Supplied(inp, n))
  {
    forall m, n ensures PlannedStep(Planned(inp), m, n) <==> HeldStep(inp, m, n) { StepIff(inp, m, n); }
    forall n ensures Provided(Planned(inp), n) <==> Supplied(inp, n) { ProvidedIff(inp, n); }
    forall m, n | BundleStep(inp, m, n) ensures Supplied(inp, n) { BundleStepIsSupplied(inp, m, n); }
    DanglingIff(inp, Planned(inp));
  }

  lemma DanglingIff(inp: Input, plan: Plan)
    requires forall m, n :: PlannedStep(plan, m, n) <==> HeldStep(inp, m, n)
    requires forall n :: Provided(plan, n) <==> Supplied(inp, n)
    requires forall m, n :: BundleStep(inp, m, n) ==> Supplied(inp, n)
    ensures (forall n :: !Dangles(plan, n)) <==>
              && (forall m, n :: TemplateStep(inp, m, n) ==> Supplied(inp, n))
              && (forall m, n :: StrayStep(inp, m, n) ==> Supplied(inp, n))
  {
    if forall n :: !Dangles(plan, n) {
      forall m, n | TemplateStep(inp, m, n) || StrayStep(inp, m, n) ensures Supplied(inp, n) {
        assert PlannedStep(plan, m, n);
        assert !Dangles(plan, n);
      }
    }
  }

  // ----- circles

  type Relation = (string, string) -> bool

  ghost predicate Way(step: Relation, path: seq<string>) {
    path != [] && forall i: nat :: i + 1 < |path| ==> step(path[i], path[i + 1])
  }

  /** From one name to another in any number of steps. */
  ghost predicate Leads(step: Relation, m: string, n: string) {
    exists path :: Way(step, path) && path[0] == m && path[|path| - 1] == n
  }

  ghost predicate Circular(step: Relation) {
    exists path :: Circle(step, path)
  }

  ghost predicate Circle(step: Relation, path: seq<string>) {
    Way(step, path) && |path| >= 2 && path[0] == path[|path| - 1]
  }

  lemma WaysJoin(step: Relation, p: seq<string>, q: seq<string>)
    requires Way(step, p) && Way(step, q) && p[|p| - 1] == q[0]
    ensures var r := p + q[1..]; Way(step, r) && r[0] == p[0] && r[|r| - 1] == q[|q| - 1]
  {
    var r := p + q[1..];
    forall i: nat | i + 1 < |r| ensures step(r[i], r[i + 1]) {
      if i + 1 < |p| { assert step(p[i], p[i + 1]); }
      else { assert step(q[i + 1 - |p|], q[i + 1 - |p| + 1]); }
    }
  }

  lemma WayFrom(step: Relation, path: seq<string>, i: nat)
    requires Way(step, path) && i < |path|
    ensures Way(step, path[i..]) && Way(step, path[..i + 1])
  {
    var p, q := path[i..], path[..i + 1];
    forall k: nat | k + 1 < |p| ensures step(p[k], p[k + 1]) { assert step(path[i + k], path[i + k + 1]); }
    forall k: nat | k + 1 < |q| ensures step(q[k], q[k + 1]) { assert step(path[k], path[k + 1]); }
  }

  /** A way whose steps all lead to longer names does not return. */
  lemma {:induction false} LongerAndLonger(path: seq<string>)
    requires |path| >= 2 && forall i: nat :: i + 1 < |path| ==> |path[i]| < |path[i + 1]|
    ensures |path[0]| < |path[|path| - 1]|
  {
    var n := |path| - 1;
    if n > 1 {
      forall i: nat | i + 1 < n ensures |path[..n][i]| < |path[..n][i + 1]| { assert |path[i]| < |path[i + 1]|; }
      LongerAndLonger(path[..n]);
    }
    assert |path[n - 1]| < |path[n]|;
  }

  /** A circle needs a step that does not lead to a longer name, and leads back from there. */
  lemma CircleIff(step: Relation, odd: Relation)
    requires forall m, n :: odd(m, n) ==> step(m, n)
    requires forall m, n :: step(m, n) && !odd(m, n) ==> |m| < |n|
    ensures Circular(step) <==> exists m, n :: odd(m, n) && Leads(step, n, m)
  {
    if Circular(step) {
      var path :| Circle(step, path);
      OddStep(step, odd, path);
      var i: nat :| i + 1 < |path| && odd(path[i], path[i + 1]);
      RestOfCircle(step, path, i);
    }
    if m, n :| odd(m, n) && Leads(step, n, m) {
      var path :| Way(step, path) && path[0] == n && path[|path| - 1] == m;
      assert Way(step, [m, n]);
      WaysJoin(step, [m, n], path);
      assert Circle(step, [m, n] + path[1..]);
    }
  }

  lemma OddStep(step: Relation, odd: Relation, path: seq<string>)
    requires forall m, n :: step(m, n) && !odd(m, n) ==> |m| < |n|
    requires Circle(step, path)
    ensures exists i: nat :: i + 1 < |path| && odd(path[i], path[i + 1])
  {
    if forall i: nat :: i + 1 < |path| ==> !odd(path[i], path[i + 1]) {
      forall i: nat | i + 1 < |path| ensures |path[i]| < |path[i + 1]| { assert step(path[i], path[i + 1]); }
      LongerAndLonger(path);
      assert false;
    }
  }

  lemma RestOfCircle(step: Relation, path: seq<string>, i: nat)
    requires Circle(step, path) && i + 1 < |path|
    ensures Leads(step, path[i + 1], path[i])
  {
    var p, q := path[i + 1..], path[..i + 1];
    WayFrom(step, path, i + 1);
    WayFrom(step, path, i);
    WaysJoin(step, p, q);
  }

  ghost function Planning(inp: Input): Relation
    requires inp.archs != []
  {
    (m: string, n: string) => PlannedStep(Planned(inp), m, n)
  }

  ghost function Holding(inp: Input): Relation {
    (m: string, n: string) => HeldStep(inp, m, n)
  }

  lemma OwnStepsGetLonger(inp: Input, m: string, n: string)
    requires HeldStep(inp, m, n) && !StrayStep(inp, m, n)
    ensures |m| < |n|
  {
  }

  lemma SameCircles(f: Relation, g: Relation)
    requires forall m, n :: f(m, n) <==> g(m, n)
    ensures Circular(f) <==> Circular(g)
  {
    if path :| Circle(f, path) { assert Circle(g, path); }
    if path :| Circle(g, path) { assert Circle(f, path); }
  }

  /**
   Planned references go round in a circle exactly if a stray reference, followed by the steps
   that bundle, templates and other stray references add, leads back to its own place.
   */
  lemma CycleIff(inp: Input)
    requires inp.archs != [] && IsMultiArch(inp.spec)
    ensures Circular(Planning(inp)) <==> exists m, n :: StrayStep(inp, m, n) && Leads(Holding(inp), n, m)
  {
    forall m, n ensures Planning(inp)(m, n) <==> Holding(inp)(m, n) { StepIff(inp, m, n); }
    SameCircles(Planning(inp), Holding(inp));
    var stray := (m: string, n: string) => StrayStep(inp, m, n);
    forall m, n | Holding(inp)(m, n) && !stray(m, n) ensures |m| < |n| { OwnStepsGetLonger(inp, m, n); }
    CircleIff(Holding(inp), stray);
  }
}

/** Templates of the operator that are no longer deployed: deleted, kept, or marked as deprecated. */
module OldTemplates {
  import opened Kube
  import opened Sequences
  import opened Architecture
  import opened Bundle
  import opened Semver

  const TYPE_LABEL := "template.kubevirt.io/type"
  const BASE := "base"
  const VERSION_LABEL := "template.kubevirt.io/version"
  const SHIPPED := "v0.35.0"

  type Parser = string -> Option<Version>

  datatype Fate = Leaving | Unsupported | UpToDate | Outdated

  /** What becomes of a template that is not deployed. */
  ghost function FateOf(t: Object, archs: seq<Arch>, parse: Parser, latest: Version): Fate {
    if t.terminating then Leaving
    else if TemplateArch(t).None? || TemplateArch(t).value !in archs then Unsupported
    else if HasCurrentVersion(t, parse, latest) then UpToDate
    else Outdated
  }

  ghost predicate HasCurrentVersion(t: Object, parse: Parser, latest: Version) {
    var text := GetOrEmpty(t.labels, VERSION_LABEL);
    text != "" && parse(text).Some? && !Before(parse(text).value, latest)
  }

  datatype Action = DeleteTemplate(t: Template) | DeprecateTemplate(t: Template)

  ghost function ActionFor(t: Template, archs: seq<Arch>, parse: Parser, latest: Version): Option<Action> {
    match FateOf(t, archs, parse, latest)
    case Unsupported => Some(DeleteTemplate(t))
    case Outdated => Some(DeprecateTemplate(t))
    case _ => None
  }

  type ByName = map<string, Template>

  function Indexed(ts: seq<Template>): ByName {
    if ts == [] then map[]
    else Indexed(ts[..|ts| - 1])[ts[|ts| - 1].key.name := ts[|ts| - 1]]
  }

  function NamesIn(ts: seq<Template>): set<string> {
    set t | t in ts :: t.key.name
  }

  /** Owned templates replace old ones of the same name; deployed names are taken out. */
  function NonDeployed(old_: seq<Template>, owned: seq<Template>, deployed: seq<Template>): ByName {
    (Indexed(old_) + Indexed(owned)) - NamesIn(deployed)
  }

  function NameOf(): Action -> string {
    (a: Action) => a.t.key.name
  }

  /** One action for every template that needs one, and no other. */
  ghost predicate Covers(actions: seq<Action>, m: ByName, archs: seq<Arch>, parse: Parser, latest: Version) {
    && DistinctBy(actions, NameOf())
    && forall a: Action :: a in actions <==>
         a.t.key.name in m && m[a.t.key.name] == a.t && ActionFor(a.t, archs, parse, latest) == Some(a)
  }

  // ----- the code

  method IndexOnto(m: ByName, ts: seq<Template>) returns (r: ByName)
    ensures r == m + Indexed(ts)
  {
    r := m;
    for i := 0 to |ts|
      invariant r == m + Indexed(ts[..i])
    {
      assert ts[..i + 1][..i] == ts[..i];
      r := r[ts[i].key.name := ts[i]];
    }
    assert ts[..|ts|] == ts;
  }

  method TakeOut(m: ByName, ts: seq<Template>) returns (r: ByName)
    ensures r == m - NamesIn(ts)
  {
    r := m;
    for i := 0 to |ts|
      invariant r == m - NamesIn(ts[..i])
    {
      assert ts[..i + 1] == ts[..i] + [ts[i]];
      assert NamesIn(ts[..i + 1]) == NamesIn(ts[..i]) + {ts[i].key.name};
      r := r - {ts[i].key.name};
    }
    assert ts[..|ts|] == ts;
  }

  method Decide(t: Template, archs: seq<Arch>, parse: Parser, latest: Version) returns (action: Option<Action>)
    ensures action == ActionFor(t, archs, parse, latest)
  {
    if t.terminating { return None; }
    var arch := TemplateArch(t);
    if arch.None? || arch.value !in archs { return Some(DeleteTemplate(t)); }
    var text := GetOrEmpty(t.labels, VERSION_LABEL);
    if text != "" {
      var version := parse(text);
      if version.Some? {
        var order := Compare(latest, version.value);
        if order != 1 { return None; }
      }
    }
    return Some(DeprecateTemplate(t));
  }

  /** The map is gone through in any order. */
  method DecideAll(m: ByName, archs: seq<Arch>, parse: Parser, latest: Version) returns (actions: seq<Action>)
    requires forall name <- m :: m[name].key.name == name
    ensures Covers(actions, m, archs, parse, latest)
  {
    actions := [];
    var rest := m;
    while rest != map[]
      invariant forall name <- rest :: name in m && rest[name] == m[name]
      invariant Covers(actions, m - rest.Keys, archs, parse, latest)
      decreases |rest|
    {
      var name :| name in rest;
      ghost var before := m - rest.Keys;
      var action := Decide(rest[name], archs, parse, latest);
      rest := rest - {name};
      assert m - rest.Keys == before[name := m[name]];
      CoversOneMore(actions, before, m[name], archs, parse, latest);
      if action.Some? { actions := actions + [action.value]; }
    }
    assert m - rest.Keys == m;
  }

  lemma CoversOneMore(actions: seq<Action>, m: ByName, t: Template, archs: seq<Arch>, parse: Parser, latest: Version)
    requires Covers(actions, m, archs, parse, latest) && t.key.name !in m
    ensures var action := ActionFor(t, archs, parse, latest);
            Covers(if action.Some? then actions + [action.value] else actions, m[t.key.name := t], archs, parse, latest)
  {
    var action := ActionFor(t, archs, parse, latest);
    if action.Some? {
      forall a <- actions ensures NameOf()(a) != NameOf()(action.value) {}
      DistinctConcat(actions, [action.value], NameOf());
    }
  }

  /** Fails if the shipped version does not parse. */
  method DeprecateOrDelete(
    old_: seq<Template>, owned: seq<Template>, deployed: seq<Template>, archs: seq<Arch>, parse: Parser)
    returns (r: Result<seq<Action>, string>)
    ensures r.Ok? <==> parse(SHIPPED).Some?
    ensures r.Ok? ==> Covers(r.value, NonDeployed(old_, owned, deployed), archs, parse, parse(SHIPPED).value)
  {
    var latest := parse(SHIPPED);
    if latest.None? { return Err(SHIPPED); }
    var m := IndexOnto(map[], old_);
    m := IndexOnto(m, owned);
    m := TakeOut(m, deployed);
    assert map[] + Indexed(old_) == Indexed(old_);
    IndexedByName(old_);
    IndexedByName(owned);
    var actions := DecideAll(m, archs, parse, latest.value);
    return Ok(actions);
  }

  lemma {:induction false} IndexedByName(ts: seq<Template>)
    ensures forall name <- Indexed(ts) :: Indexed(ts)[name].key.name == name && Indexed(ts)[name] in ts
    ensures forall t <- ts :: t.key.name in Indexed(ts)
  {
    if ts != [] {
      var n := |ts| - 1;
      assert ts == ts[..n] + [ts[n]];
      IndexedByName(ts[..n]);
    }
  }

  // ----- which templates are looked at

  /** The last of the list with this name. */
  ghost predicate LastNamed(ts: seq<Template>, name: string, t: Template) {
    exists i :: 0 <= i < |ts| && ts[i] == t && t.key.name == name &&
                forall j :: i < j < |ts| ==> ts[j].key.name != name
  }

  lemma {:induction false} IndexedIff(ts: seq<Template>, name: string, t: Template)
    ensures Lookup(Indexed(ts), name) == Some(t) <==> LastNamed(ts, name, t)
  {
    if ts != [] {
      var n := |ts| - 1;
      IndexedIff(ts[..n], name, t);
      if ts[n].key.name == name {
        if t == ts[n] { assert LastNamed(ts, name, t); }
      } else {
        EarlierNamed(ts[..n], ts[n], name, t);
        assert ts == ts[..n] + [ts[n]];
      }
    }
  }

  lemma EarlierNamed(ts: seq<Template>, last: Template, name: string, t: Template)
    requires last.key.name != name
    ensures LastNamed(ts + [last], name, t) <==> LastNamed(ts, name, t)
  {
    var all := ts + [last];
    if i :| 0 <= i < |ts| && ts[i] == t && t.key.name == name && forall j :: i < j < |ts| ==> ts[j].key.name != name {
      assert all[i] == t && forall j :: i < j < |all| ==> all[j].key.name != name;
    }
    if i :| 0 <= i < |all| && all[i] == t && t.key.name == name &&
            forall j :: i < j < |all| ==> all[j].key.name != name {
      assert ts[i] == t && forall j :: i < j < |ts| ==> all[j] == ts[j];
    }
  }

  ghost predicate HasNamed(ts: seq<Template>, name: string) {
    exists t <- ts :: t.key.name == name
  }

  /** A template is looked at if its name is not deployed; an owned one stands for an old one of the same name. */
  lemma LookedAtIff(old_: seq<Template>, owned: seq<Template>, deployed: seq<Template>, name: string, t: Template)
    ensures Lookup(NonDeployed(old_, owned, deployed), name) == Some(t) <==>
              && !HasNamed(deployed, name)
              && (LastNamed(owned, name, t) || (!HasNamed(owned, name) && LastNamed(old_, name, t)))
  {
    IndexedIff(old_, name, t);
    IndexedIff(owned, name, t);
    IndexedByName(owned);
    assert HasNamed(owned, name) <==> name in Indexed(owned);
    assert HasNamed(deployed, name) <==> name in NamesIn(deployed);
  }

  /** What becomes of a template, told from its labels. */
  lemma FateIff(t: Object, archs: seq<Arch>, parse: Parser, latest: Version)
    ensures FateOf(t, archs, parse, latest).Leaving? <==> t.terminating
    ensures FateOf(t, archs, parse, latest).Unsupported? <==> !t.terminating && forall a <- archs :: !IsFor(t, a)
    ensures FateOf(t, archs, parse, latest).Outdated? <==>
              && !t.terminating
              && (exists a <- archs :: IsFor(t, a))
              && ("template.kubevirt.io/version" in t.labels && t.labels["template.kubevirt.io/version"] != "" ==>
                    var v := parse(t.labels["template.kubevirt.io/version"]); v.None? || Before(v.value, latest))
  {
    forall a ensures TemplateArch(t) == Some(a) <==> IsFor(t, a) { ArchIff(t, a); }
  }
}

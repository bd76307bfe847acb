/** Validation rules: what a single rule says about a VirtualMachine. */
module Rules {
  import opened Kube

  /** A value a path leads to: its text, one character for each byte, and its number if it converts to one. */
  datatype Value = Value(text: string, number: Option<int>)

  /** A VirtualMachine as far as rules see it; a path that is not in it cannot be followed. */
  type Document = map<string, seq<Value>>

  datatype IntOrPath = IsInt(n: int) | IntPath(path: string)

  datatype StringOrPath = IsString(s: string) | StringPath(path: string)

  datatype Rule = Rule(
    kind: string,
    name: string,
    path: string,
    message: string,
    valid: Option<string>,
    justWarning: bool,
    values: seq<StringOrPath>,
    min: Option<IntOrPath>,
    max: Option<IntOrPath>,
    minLength: Option<IntOrPath>,
    maxLength: Option<IntOrPath>,
    regex: string)

  datatype RuleError =
    | UnrecognizedRuleType
    | DuplicateRuleName
    | MissingRequiredKey
    | InvalidPath
    | NotANumber
    | NotOneValue
    | NoValuesFound
    | BadRegex

  /** The VM, the defaults that stand in for what it leaves out, and the regular expressions that compile. */
  datatype Context = Context(vm: Document, defaults: Document, regexes: map<string, string -> bool>)

  predicate KnownKind(kind: string) {
    kind == "integer" || kind == "string" || kind == "enum" || kind == "regex"
  }

  function Malformed(r: Rule): Option<RuleError> {
    if !KnownKind(r.kind) then Some(UnrecognizedRuleType)
    else if r.message == "" then Some(MissingRequiredKey)
    else None
  }

  /** A guard path that cannot be followed, or leads nowhere, means that the rule does not apply. */
  predicate Applicable(r: Rule, c: Context) {
    r.valid.Some? ==> r.valid.value in c.vm && c.vm[r.valid.value] != []
  }

  // ----- following paths

  function Find(path: string, c: Context): Result<seq<Value>, RuleError> {
    if path in c.vm then Ok(c.vm[path])
    else if path in c.defaults then Ok(c.defaults[path])
    else Err(InvalidPath)
  }

  function Texts(vs: seq<Value>): seq<string> {
    seq(|vs|, i requires 0 <= i < |vs| => vs[i].text)
  }

  predicate AllNumbers(vs: seq<Value>) {
    forall i :: 0 <= i < |vs| ==> vs[i].number.Some?
  }

  function Numbers(vs: seq<Value>): seq<int>
    requires AllNumbers(vs)
  {
    seq(|vs|, i requires 0 <= i < |vs| => vs[i].number.value)
  }

  function DecodeInts(path: string, c: Context): Result<seq<int>, RuleError> {
    var found := Find(path, c);
    if found.Err? then Err(found.error)
    else if AllNumbers(found.value) then Ok(Numbers(found.value))
    else Err(NotANumber)
  }

  function DecodeInt(ip: IntOrPath, c: Context): Result<int, RuleError> {
    match ip
    case IsInt(n) => Ok(n)
    case IntPath(path) =>
      var ns := DecodeInts(path, c);
      if ns.Err? then Err(ns.error) else if |ns.value| != 1 then Err(NotOneValue) else Ok(ns.value[0])
  }

  function DecodeString(sp: StringOrPath, c: Context): Result<string, RuleError> {
    match sp
    case IsString(s) => Ok(s)
    case StringPath(path) =>
      var found := Find(path, c);
      if found.Err? then Err(found.error)
      else if |found.value| != 1 then Err(NotOneValue)
      else Ok(found.value[0].text)
  }

  datatype Range = Range(min: Option<int>, max: Option<int>) {
    predicate Includes(n: int) {
      (min.Some? ==> min.value <= n) && (max.Some? ==> n <= max.value)
    }
  }

  function DecodeBound(ip: Option<IntOrPath>, c: Context): Result<Option<int>, RuleError> {
    if ip.None? then Ok(None)
    else
      var n := DecodeInt(ip.value, c);
      if n.Err? then Err(n.error) else Ok(Some(n.value))
  }

  function DecodeRange(min: Option<IntOrPath>, max: Option<IntOrPath>, c: Context): Result<Range, RuleError> {
    var lower := DecodeBound(min, c);
    if lower.Err? then Err(lower.error)
    else
      var upper := DecodeBound(max, c);
      if upper.Err? then Err(upper.error) else Ok(Range(lower.value, upper.value))
  }

  function DecodeAll(sps: seq<StringOrPath>, c: Context): Result<seq<string>, RuleError> {
    if sps == [] then Ok([])
    else
      var n := |sps| - 1;
      var before := DecodeAll(sps[..n], c);
      if before.Err? then before
      else
        var last := DecodeString(sps[n], c);
        if last.Err? then Err(last.error) else Ok(before.value + [last.value])
  }

  // ----- the meaning of a rule

  /** Errors of the rule's arguments come before those of its path. */
  function OnValues(found: Result<seq<Value>, RuleError>, satisfied: bool): Result<bool, RuleError> {
    if found.Err? then Err(found.error)
    else if found.value == [] then Err(NoValuesFound)
    else Ok(satisfied)
  }

  /** Whether every value the path leads to is as the rule wants it. */
  ghost function Apply(r: Rule, c: Context): Result<bool, RuleError>
    requires KnownKind(r.kind)
  {
    var found := Find(r.path, c);
    if r.kind == "integer" then
      var range := DecodeRange(r.min, r.max, c);
      if range.Err? then Err(range.error)
      else if found.Ok? && !AllNumbers(found.value) then Err(NotANumber)
      else OnValues(found, found.Ok? && forall v <- found.value ::
                             v.number.Some? && range.value.Includes(v.number.value))
    else if r.kind == "string" then
      var range := DecodeRange(r.minLength, r.maxLength, c);
      if range.Err? then Err(range.error)
      else OnValues(found, found.Ok? && forall v <- found.value :: range.value.Includes(|v.text|))
    else if r.kind == "enum" then
      var wanted := DecodeAll(r.values, c);
      if wanted.Err? then Err(wanted.error)
      else OnValues(found, found.Ok? && forall v <- found.value :: v.text in wanted.value)
    else if r.regex !in c.regexes then Err(BadRegex)
    else OnValues(found, found.Ok? && forall v <- found.value :: c.regexes[r.regex](v.text))
  }

  // ----- the code

  method DecodeValues(sps: seq<StringOrPath>, c: Context) returns (result: Result<seq<string>, RuleError>)
    ensures result == DecodeAll(sps, c)
  {
    var values: seq<string> := [];
    for i := 0 to |sps|
      invariant DecodeAll(sps[..i], c) == Ok(values)
    {
      var s := DecodeString(sps[i], c);
      assert sps[..i + 1][..i] == sps[..i];
      if s.Err? {
        FirstErrorWins(sps, c, i);
        return Err(s.error);
      }
      values := values + [s.value];
    }
    assert sps[..|sps|] == sps;
    return Ok(values);
  }

  lemma {:induction false} FirstErrorWins(sps: seq<StringOrPath>, c: Context, i: nat)
    requires i < |sps| && DecodeAll(sps[..i], c).Ok? && DecodeString(sps[i], c).Err?
    ensures DecodeAll(sps, c) == Err(DecodeString(sps[i], c).error)
    decreases |sps|
  {
    var n := |sps| - 1;
    if i < n {
      assert sps[..n][..i] == sps[..i];
      FirstErrorWins(sps[..n], c, i);
    }
  }

  /** Both loops of the enumeration check. */
  method ContainsOnly(data: seq<string>, wanted: seq<string>) returns (all: bool)
    ensures all <==> forall s <- data :: s in wanted
  {
    for i := 0 to |data|
      invariant forall s <- data[..i] :: s in wanted
    {
      var found := false;
      for j := 0 to |wanted|
        invariant !found && data[i] !in wanted[..j]
      {
        if data[i] == wanted[j] {
          found := true;
          break;
        }
      }
      if !found {
        assert data[i] in data;
        return false;
      }
    }
    return true;
  }

  method AllIncluded(range: Range, ns: seq<int>) returns (all: bool)
    ensures all <==> forall n <- ns :: range.Includes(n)
  {
    for i := 0 to |ns|
      invariant forall n <- ns[..i] :: range.Includes(n)
    {
      if !range.Includes(ns[i]) {
        assert ns[i] in ns;
        return false;
      }
    }
    return true;
  }

  method AllMatch(matches: string -> bool, texts: seq<string>) returns (all: bool)
    ensures all <==> forall s <- texts :: matches(s)
  {
    for i := 0 to |texts|
      invariant forall s <- texts[..i] :: matches(s)
    {
      if !matches(texts[i]) {
        assert texts[i] in texts;
        return false;
      }
    }
    return true;
  }

  method ApplyInteger(r: Rule, c: Context) returns (result: Result<bool, RuleError>)
    requires r.kind == "integer"
    ensures result == Apply(r, c)
  {
    var range := DecodeRange(r.min, r.max, c);
    if range.Err? { return Err(range.error); }
    var ns := DecodeInts(r.path, c);
    if ns.Err? { return Err(ns.error); }
    if |ns.value| == 0 { return Err(NoValuesFound); }
    var all := AllIncluded(range.value, ns.value);
    ghost var found := Find(r.path, c).value;
    assert forall i :: 0 <= i < |found| ==>
           found[i] in found && ns.value[i] == found[i].number.value && ns.value[i] in ns.value;
    return Ok(all);
  }

  method ApplyString(r: Rule, c: Context) returns (result: Result<bool, RuleError>)
    requires r.kind == "string"
    ensures result == Apply(r, c)
  {
    var range := DecodeRange(r.minLength, r.maxLength, c);
    if range.Err? { return Err(range.error); }
    var found := Find(r.path, c);
    if found.Err? { return Err(found.error); }
    if |found.value| == 0 { return Err(NoValuesFound); }
    var lengths := seq(|found.value|, i requires 0 <= i < |found.value| => |found.value[i].text|);
    var all := AllIncluded(range.value, lengths);
    assert forall i :: 0 <= i < |lengths| ==>
           found.value[i] in found.value && lengths[i] in lengths && lengths[i] == |found.value[i].text|;
    return Ok(all);
  }

  lemma TextsMatch(vs: seq<Value>, language: iset<string>)
    ensures (forall s <- Texts(vs) :: s in language) <==> (forall v <- vs :: v.text in language)
  {
    assert forall i :: 0 <= i < |vs| ==> vs[i] in vs && Texts(vs)[i] == vs[i].text && Texts(vs)[i] in Texts(vs);
  }

  method ApplyEnum(r: Rule, c: Context) returns (result: Result<bool, RuleError>)
    requires r.kind == "enum"
    ensures result == Apply(r, c)
  {
    var wanted := DecodeValues(r.values, c);
    if wanted.Err? { return Err(wanted.error); }
    var found := Find(r.path, c);
    if found.Err? { return Err(found.error); }
    if |found.value| == 0 { return Err(NoValuesFound); }
    var all := ContainsOnly(Texts(found.value), wanted.value);
    TextsMatch(found.value, iset s | s in wanted.value);
    return Ok(all);
  }

  method ApplyRegex(r: Rule, c: Context) returns (result: Result<bool, RuleError>)
    requires r.kind == "regex"
    ensures result == Apply(r, c)
  {
    if r.regex !in c.regexes { return Err(BadRegex); }
    var found := Find(r.path, c);
    if found.Err? { return Err(found.error); }
    if |found.value| == 0 { return Err(NoValuesFound); }
    var all := AllMatch(c.regexes[r.regex], Texts(found.value));
    TextsMatch(found.value, iset s | c.regexes[r.regex](s));
    return Ok(all);
  }

  method ApplyRule(r: Rule, c: Context) returns (result: Result<bool, RuleError>)
    requires KnownKind(r.kind)
    ensures result == Apply(r, c)
  {
    if r.kind == "integer" { result := ApplyInteger(r, c); }
    else if r.kind == "string" { result := ApplyString(r, c); }
    else if r.kind == "enum" { result := ApplyEnum(r, c); }
    else { result := ApplyRegex(r, c); }
  }
}

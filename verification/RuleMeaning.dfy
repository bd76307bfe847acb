/** What rules mean, said about the values in the VM and in the defaults alone. */
module RuleMeaning {
  import opened Kube
  import opened Rules
  import opened Evaluator

  /** The path leads to these values, in the VM if it can be followed there and otherwise in the defaults. */
  ghost predicate Leads(path: string, c: Context, vs: seq<Value>) {
    if path in c.vm then vs == c.vm[path] else path in c.defaults && vs == c.defaults[path]
  }

  ghost predicate LeadsNowhere(path: string, c: Context) {
    path !in c.vm && path !in c.defaults
  }

  // ----- arguments

  /** A limit is its literal, or the only number that its path leads to. */
  ghost predicate IsLimit(ip: IntOrPath, c: Context, n: int) {
    match ip
    case IsInt(m) => n == m
    case IntPath(path) => exists v: Value :: Leads(path, c, [v]) && v.number == Some(n)
  }

  ghost predicate LimitTrouble(ip: Option<IntOrPath>, c: Context, e: RuleError) {
    && ip.Some?
    && ip.value.IntPath?
    && var path := ip.value.path;
       || (LeadsNowhere(path, c) && e == InvalidPath)
       || exists vs: seq<Value> :: Leads(path, c, vs) &&
                       if exists v <- vs :: v.number.None? then e == NotANumber else |vs| != 1 && e == NotOneValue
  }

  ghost predicate HasLimit(ip: Option<IntOrPath>, c: Context) {
    ip.Some? ==> exists n :: IsLimit(ip.value, c, n)
  }

  ghost predicate Within(min: Option<IntOrPath>, max: Option<IntOrPath>, c: Context, n: int) {
    && (min.Some? ==> exists lower :: IsLimit(min.value, c, lower) && lower <= n)
    && (max.Some? ==> exists upper :: IsLimit(max.value, c, upper) && n <= upper)
  }

  /** The first of two limits that makes trouble decides about the error. */
  ghost predicate RangeTrouble(min: Option<IntOrPath>, max: Option<IntOrPath>, c: Context, e: RuleError) {
    LimitTrouble(min, c, e) || (HasLimit(min, c) && LimitTrouble(max, c, e))
  }

  /** A listed text is its literal, or the only value that its path leads to. */
  ghost predicate IsText(sp: StringOrPath, c: Context, s: string) {
    match sp
    case IsString(t) => s == t
    case StringPath(path) => exists v: Value :: Leads(path, c, [v]) && v.text == s
  }

  ghost predicate HasText(sp: StringOrPath, c: Context) {
    exists s :: IsText(sp, c, s)
  }

  ghost predicate TextTrouble(sp: StringOrPath, c: Context, e: RuleError) {
    && sp.StringPath?
    && (|| (LeadsNowhere(sp.path, c) && e == InvalidPath)
        || exists vs: seq<Value> :: Leads(sp.path, c, vs) && |vs| != 1 && e == NotOneValue)
  }

  // ----- rules

  ghost predicate ArgumentsDecode(r: Rule, c: Context) {
    if r.kind == "integer" then HasLimit(r.min, c) && HasLimit(r.max, c)
    else if r.kind == "string" then HasLimit(r.minLength, c) && HasLimit(r.maxLength, c)
    else if r.kind == "enum" then forall sp <- r.values :: HasText(sp, c)
    else r.regex in c.regexes
  }

  ghost predicate ArgumentTrouble(r: Rule, c: Context, e: RuleError) {
    if r.kind == "integer" then RangeTrouble(r.min, r.max, c, e)
    else if r.kind == "string" then RangeTrouble(r.minLength, r.maxLength, c, e)
    else if r.kind == "enum" then
      exists i :: 0 <= i < |r.values| && TextTrouble(r.values[i], c, e) &&
                  forall j :: 0 <= j < i ==> HasText(r.values[j], c)
    else r.regex !in c.regexes && e == BadRegex
  }

  /** There is something to judge. */
  ghost predicate Judges(r: Rule, c: Context, vs: seq<Value>) {
    Leads(r.path, c, vs) && vs != [] && (r.kind == "integer" ==> forall v <- vs :: v.number.Some?)
  }

  ghost predicate PathTrouble(r: Rule, c: Context, e: RuleError) {
    || (LeadsNowhere(r.path, c) && e == InvalidPath)
    || exists vs: seq<Value> :: Leads(r.path, c, vs) &&
                    if r.kind == "integer" && exists v <- vs :: v.number.None? then e == NotANumber
                    else vs == [] && e == NoValuesFound
  }

  /** The value is as the rule wants it. */
  ghost predicate Fits(r: Rule, c: Context, v: Value) {
    if r.kind == "integer" then v.number.Some? && Within(r.min, r.max, c, v.number.value)
    else if r.kind == "string" then Within(r.minLength, r.maxLength, c, |v.text|)
    else if r.kind == "enum" then exists sp <- r.values :: IsText(sp, c, v.text)
    else r.regex in c.regexes && c.regexes[r.regex](v.text)
  }

  // ----- decoding

  lemma FindLeads(path: string, c: Context)
    ensures Find(path, c).Err? ==> Find(path, c) == Err(InvalidPath) && LeadsNowhere(path, c)
    ensures Find(path, c).Ok? ==> forall vs :: Leads(path, c, vs) <==> vs == Find(path, c).value
    ensures LeadsNowhere(path, c) ==> forall vs :: !Leads(path, c, vs)
  {
  }

  lemma SomeAreNot(vs: seq<Value>)
    ensures AllNumbers(vs) <==> forall v <- vs :: v.number.Some?
  {
    assert forall i :: 0 <= i < |vs| ==> vs[i] in vs;
  }

  lemma BoundIff(ip: Option<IntOrPath>, c: Context)
    ensures DecodeBound(ip, c).Ok? <==> HasLimit(ip, c)
    ensures DecodeBound(ip, c).Ok? ==> (DecodeBound(ip, c).value.Some? <==> ip.Some?)
    ensures DecodeBound(ip, c).Ok? && ip.Some? ==>
              forall n :: IsLimit(ip.value, c, n) <==> DecodeBound(ip, c).value == Some(n)
    ensures forall e :: DecodeBound(ip, c) == Err(e) <==> LimitTrouble(ip, c, e)
  {
    if ip.Some? {
      match ip.value
      case IsInt(n) => assert IsLimit(ip.value, c, n);
      case IntPath(path) => PathBoundIff(path, c);
    }
  }

  lemma PathBoundIff(path: string, c: Context)
    ensures DecodeInt(IntPath(path), c).Ok? <==> exists n :: IsLimit(IntPath(path), c, n)
    ensures forall n :: IsLimit(IntPath(path), c, n) <==> DecodeInt(IntPath(path), c) == Ok(n)
    ensures forall e :: DecodeInt(IntPath(path), c) == Err(e) <==> LimitTrouble(Some(IntPath(path)), c, e)
  {
    FindLeads(path, c);
    var found := Find(path, c);
    if found.Ok? {
      var vs := found.value;
      SomeAreNot(vs);
      assert Leads(path, c, vs);
      if |vs| == 1 {
        assert vs == [vs[0]] && vs[0] in vs;
        if AllNumbers(vs) {
          assert Numbers(vs)[0] == vs[0].number.value;
          assert IsLimit(IntPath(path), c, vs[0].number.value);
        }
      }
    }
  }

  lemma RangeIff(min: Option<IntOrPath>, max: Option<IntOrPath>, c: Context)
    ensures DecodeRange(min, max, c).Ok? <==> HasLimit(min, c) && HasLimit(max, c)
    ensures DecodeRange(min, max, c).Ok? ==>
              forall n :: DecodeRange(min, max, c).value.Includes(n) <==> Within(min, max, c, n)
    ensures forall e :: DecodeRange(min, max, c) == Err(e) <==> RangeTrouble(min, max, c, e)
  {
    BoundIff(min, c);
    BoundIff(max, c);
  }

  lemma TextIff(sp: StringOrPath, c: Context)
    ensures DecodeString(sp, c).Ok? <==> HasText(sp, c)
    ensures forall s :: IsText(sp, c, s) <==> DecodeString(sp, c) == Ok(s)
    ensures forall e :: DecodeString(sp, c) == Err(e) <==> TextTrouble(sp, c, e)
  {
    if sp.StringPath? {
      FindLeads(sp.path, c);
      var found := Find(sp.path, c);
      if found.Ok? {
        assert Leads(sp.path, c, found.value);
        if |found.value| == 1 {
          assert found.value == [found.value[0]];
          assert IsText(sp, c, found.value[0].text);
        }
      }
    } else {
      assert IsText(sp, c, sp.s);
    }
  }

  ghost predicate FirstTextTrouble(sps: seq<StringOrPath>, c: Context, e: RuleError) {
    exists i :: 0 <= i < |sps| && TextTrouble(sps[i], c, e) && forall j :: 0 <= j < i ==> HasText(sps[j], c)
  }

  lemma {:induction false} TextsIff(sps: seq<StringOrPath>, c: Context)
    ensures DecodeAll(sps, c).Ok? <==> forall sp <- sps :: HasText(sp, c)
    ensures DecodeAll(sps, c).Ok? ==> forall s :: s in DecodeAll(sps, c).value <==> exists sp <- sps :: IsText(sp, c, s)
  {
    if sps != [] {
      var n := |sps| - 1;
      TextsIff(sps[..n], c);
      TextIff(sps[n], c);
      assert forall sp :: sp in sps <==> sp in sps[..n] || sp == sps[n];
    }
  }

  lemma TroubleIsOldOrLast(sps: seq<StringOrPath>, sp: StringOrPath, c: Context, e: RuleError)
    ensures FirstTextTrouble(sps + [sp], c, e) <==>
              FirstTextTrouble(sps, c, e) || ((forall s <- sps :: HasText(s, c)) && TextTrouble(sp, c, e))
  {
    var all := sps + [sp];
    assert forall i :: 0 <= i < |sps| ==> all[i] == sps[i] && sps[i] in sps;
    assert all[|sps|] == sp;
    if i :| 0 <= i < |sps| && TextTrouble(sps[i], c, e) && forall j :: 0 <= j < i ==> HasText(sps[j], c) {
      assert TextTrouble(all[i], c, e);
    }
  }

  lemma {:induction false} TextsErrIff(sps: seq<StringOrPath>, c: Context, e: RuleError)
    ensures DecodeAll(sps, c) == Err(e) <==> FirstTextTrouble(sps, c, e)
  {
    if sps != [] {
      var n := |sps| - 1;
      TextsErrIff(sps[..n], c, e);
      TextsIff(sps[..n], c);
      TextIff(sps[n], c);
      TroubleIsOldOrLast(sps[..n], sps[n], c, e);
      assert sps == sps[..n] + [sps[n]];
    }
  }

  // ----- what a rule says

  lemma ArgumentsIff(r: Rule, c: Context)
    requires KnownKind(r.kind)
    ensures forall e :: ArgumentTrouble(r, c, e) ==> Apply(r, c) == Err(e)
    ensures ArgumentsDecode(r, c) <==> forall e :: !ArgumentTrouble(r, c, e)
  {
    RangeIff(r.min, r.max, c);
    RangeIff(r.minLength, r.maxLength, c);
    TextsIff(r.values, c);
    forall e ensures DecodeAll(r.values, c) == Err(e) <==> FirstTextTrouble(r.values, c, e) {
      TextsErrIff(r.values, c, e);
    }
    if !ArgumentsDecode(r, c) { assert ArgumentTrouble(r, c, Apply(r, c).error); }
  }

  /** An error is that of the first argument that cannot be decoded, or else that of the path. */
  lemma ErrorIff(r: Rule, c: Context, e: RuleError)
    requires KnownKind(r.kind)
    ensures Apply(r, c) == Err(e) <==> ArgumentTrouble(r, c, e) || (ArgumentsDecode(r, c) && PathTrouble(r, c, e))
  {
    ArgumentsIff(r, c);
    if ArgumentsDecode(r, c) { PathErrorIff(r, c, e); }
  }

  lemma PathErrorIff(r: Rule, c: Context, e: RuleError)
    requires KnownKind(r.kind) && ArgumentsDecode(r, c)
    ensures Apply(r, c) == Err(e) <==> PathTrouble(r, c, e)
  {
    DecodedArguments(r, c);
    FindLeads(r.path, c);
    if Find(r.path, c).Ok? {
      SomeAreNot(Find(r.path, c).value);
      assert Leads(r.path, c, Find(r.path, c).value);
    }
  }

  lemma DecodedArguments(r: Rule, c: Context)
    requires KnownKind(r.kind) && ArgumentsDecode(r, c)
    ensures r.kind == "integer" ==> DecodeRange(r.min, r.max, c).Ok?
    ensures r.kind == "string" ==> DecodeRange(r.minLength, r.maxLength, c).Ok?
    ensures r.kind == "enum" ==> DecodeAll(r.values, c).Ok?
  {
    RangeIff(r.min, r.max, c);
    RangeIff(r.minLength, r.maxLength, c);
    TextsIff(r.values, c);
  }

  /** A rule with something to judge is satisfied exactly if every value fits, and there is a verdict only then. */
  lemma VerdictIff(r: Rule, c: Context, vs: seq<Value>)
    requires KnownKind(r.kind) && ArgumentsDecode(r, c) && Judges(r, c, vs)
    ensures Apply(r, c) == Ok(forall v <- vs :: Fits(r, c, v))
  {
    DecodedArguments(r, c);
    FindLeads(r.path, c);
    SomeAreNot(vs);
    forall v ensures Meets(r, c, v) <==> Fits(r, c, v) { MeetsIff(r, c, v); }
    assert Find(r.path, c) == Ok(vs);
  }

  /** The same in terms of decoded arguments. */
  ghost predicate Meets(r: Rule, c: Context, v: Value)
    requires KnownKind(r.kind) && ArgumentsDecode(r, c)
  {
    DecodedArguments(r, c);
    if r.kind == "integer" then v.number.Some? && DecodeRange(r.min, r.max, c).value.Includes(v.number.value)
    else if r.kind == "string" then DecodeRange(r.minLength, r.maxLength, c).value.Includes(|v.text|)
    else if r.kind == "enum" then v.text in DecodeAll(r.values, c).value
    else c.regexes[r.regex](v.text)
  }

  lemma MeetsIff(r: Rule, c: Context, v: Value)
    requires KnownKind(r.kind) && ArgumentsDecode(r, c)
    ensures Meets(r, c, v) <==> Fits(r, c, v)
  {
    if r.kind == "integer" { RangeIff(r.min, r.max, c); }
    else if r.kind == "string" { RangeIff(r.minLength, r.maxLength, c); }
    else if r.kind == "enum" { TextsIff(r.values, c); }
  }

  // ----- what a list of rules says

  /** The guard of the rule is about something that the VM itself has. */
  ghost predicate Concerned(r: Rule, c: Context) {
    r.valid.Some? ==> exists v :: r.valid.value in c.vm && v in c.vm[r.valid.value]
  }

  /** The rule is of no known kind or has no message, or it concerns the VM and cannot be judged or does not fit. */
  ghost predicate SpeaksAgainst(r: Rule, c: Context) {
    || r.kind !in {"integer", "string", "enum", "regex"}
    || r.message == ""
    || (Concerned(r, c) &&
        !(ArgumentsDecode(r, c) &&
          exists vs: seq<Value> :: Judges(r, c, vs) && (r.justWarning || forall v <- vs :: Fits(r, c, v))))
  }

  lemma SpeaksAgainstIff(r: Rule, c: Context)
    ensures Objects(r, c) <==> SpeaksAgainst(r, c)
  {
    if r.valid.Some? && r.valid.value in c.vm && c.vm[r.valid.value] != [] {
      assert c.vm[r.valid.value][0] in c.vm[r.valid.value];
    }
    if Malformed(r).None? && Applicable(r, c) { JudgedIff(r, c); }
  }

  lemma JudgedIff(r: Rule, c: Context)
    requires KnownKind(r.kind)
    ensures Apply(r, c).Ok? && (Apply(r, c).value || r.justWarning) <==>
              ArgumentsDecode(r, c) &&
              exists vs: seq<Value> :: Judges(r, c, vs) && (r.justWarning || forall v <- vs :: Fits(r, c, v))
  {
    ArgumentsIff(r, c);
    if ArgumentsDecode(r, c) {
      forall vs | Judges(r, c, vs) ensures Apply(r, c) == Ok(forall v <- vs :: Fits(r, c, v)) { VerdictIff(r, c, vs); }
      if Apply(r, c).Ok? {
        DecodedArguments(r, c);
        var vs := Find(r.path, c).value;
        FindLeads(r.path, c);
        SomeAreNot(vs);
        assert Judges(r, c, vs);
      }
    }
  }

  /** A VM is rejected exactly if two rules share a name or some rule speaks against it. */
  lemma RejectedIff(rules: seq<Rule>, c: Context)
    ensures Rejects(rules, c) <==>
              || (exists i, j :: 0 <= i < j < |rules| && rules[i].name == rules[j].name)
              || (exists r <- rules :: SpeaksAgainst(r, c))
  {
    forall r <- rules ensures Objects(r, c) <==> SpeaksAgainst(r, c) { SpeaksAgainstIff(r, c); }
  }
}

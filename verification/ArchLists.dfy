/** The architecture list of a cron template: entries between commas, with space around them. */
module ArchLists {
  import opened Sequences
  import opened Architecture
  import opened CronPlan

  /** The text from i to j is one entry of the list. */
  predicate IsEntry(list: string, i: int, j: int) {
    && 0 <= i <= j <= |list|
    && (i == 0 || list[i - 1] == ',')
    && (j == |list| || list[j] == ',')
    && ',' !in list[i..j]
  }

  /** The architecture's name with nothing but space around it. */
  ghost predicate Spells(s: string, a: Arch) {
    exists before, after :: s == before + Name(a) + after && Blanks(before) && Blanks(after)
  }

  predicate Blanks(s: string) {
    forall i :: 0 <= i < |s| ==> IsSpace(s[i])
  }

  /** Some entry of the list is this architecture. */
  ghost predicate Listed(list: string, a: Arch) {
    exists i, j :: IsEntry(list, i, j) && Spells(list[i..j], a)
  }

  lemma NamesAreTight(a: Arch)
    ensures !IsSpace(Name(a)[0]) && !IsSpace(Name(a)[|Name(a)| - 1])
  {
  }

  lemma SpaceAround(x: string, s: string, y: string, a: Arch)
    requires Spells(s, a) && Blanks(x) && Blanks(y)
    ensures Spells(x + s + y, a)
  {
    var before, after :| s == before + Name(a) + after && Blanks(before) && Blanks(after);
    assert x + s + y == (x + before) + Name(a) + (after + y);
    assert Blanks(x + before) && Blanks(after + y);
  }

  lemma {:induction false} TrimmedIsSpelled(s: string, a: Arch)
    requires Trim(s) == Name(a)
    ensures Spells(s, a)
    decreases |s|
  {
    if IsSpace(s[0]) {
      TrimmedIsSpelled(s[1..], a);
      SpaceAround([s[0]], s[1..], "", a);
      assert s == [s[0]] + s[1..] + "";
    } else if IsSpace(s[|s| - 1]) {
      var n := |s| - 1;
      TrimmedIsSpelled(s[..n], a);
      SpaceAround("", s[..n], [s[n]], a);
      assert s == "" + s[..n] + [s[n]];
    } else {
      assert s == "" + Name(a) + "" && Blanks("");
    }
  }

  lemma {:induction false} SpelledIsTrimmed(before: string, a: Arch, after: string)
    requires Blanks(before) && Blanks(after)
    ensures Trim(before + Name(a) + after) == Name(a)
    decreases |before| + |after|
  {
    var s := before + Name(a) + after;
    NamesAreTight(a);
    if before != "" {
      assert s[1..] == before[1..] + Name(a) + after;
      SpelledIsTrimmed(before[1..], a, after);
    } else if after != "" {
      var n := |after| - 1;
      assert s[0] == Name(a)[0] && s[..|s| - 1] == before + Name(a) + after[..n];
      SpelledIsTrimmed(before, a, after[..n]);
    } else {
      assert s == Name(a);
    }
  }

  lemma SpelledIff(s: string, a: Arch)
    ensures a in Spelled(s) <==> Spells(s, a)
  {
    ToArchInvertsName(a, Trim(s));
    if Trim(s) == Name(a) { TrimmedIsSpelled(s, a); }
    if before, after :| s == before + Name(a) + after && Blanks(before) && Blanks(after) {
      SpelledIsTrimmed(before, a, after);
    }
  }

  /** The first field ends at the first comma. */
  lemma {:induction false} FirstFieldIsEntry(s: string)
    ensures IsEntry(s, 0, |FirstField(s)|)
    ensures FirstField(s) == s[..|FirstField(s)|]
  {
    FirstFieldIsPrefix(s);
    FieldHasNoComma(s);
  }

  lemma {:induction false} FieldHasNoComma(s: string)
    ensures ',' !in FirstField(s)
  {
    if s != "" && s[0] != ',' { FieldHasNoComma(s[1..]); }
  }

  /** Entries behind the first one are those of the rest. */
  lemma LaterEntry(s: string, n: nat, i: int, j: int)
    requires n < |s| && IsEntry(s, 0, n)
    ensures 0 <= i ==> (IsEntry(s[n + 1..], i, j) <==> IsEntry(s, n + 1 + i, n + 1 + j))
    ensures IsEntry(s, i, j) ==> (i == 0 && j == n) || i >= n + 1
  {
    var rest := s[n + 1..];
    if 0 <= i <= j <= |rest| { assert rest[i..j] == s[n + 1 + i..n + 1 + j]; }
    assert forall k :: 0 <= k < n ==> s[k] == s[0..n][k];
    if 0 <= i <= n < j <= |s| { assert s[i..j][n - i] == ','; }
  }

  ghost predicate HasEntry(s: string, field: string) {
    exists i, j :: IsEntry(s, i, j) && s[i..j] == field
  }

  lemma EntryOfRest(s: string, n: nat, field: string)
    requires n < |s| && IsEntry(s, 0, n) && HasEntry(s[n + 1..], field)
    ensures HasEntry(s, field)
  {
    var rest := s[n + 1..];
    var i, j :| IsEntry(rest, i, j) && rest[i..j] == field;
    LaterEntry(s, n, i, j);
    assert s[n + 1 + i..n + 1 + j] == rest[i..j];
  }

  lemma EntryIsFirstOrLater(s: string, n: nat, field: string)
    requires n < |s| && IsEntry(s, 0, n) && HasEntry(s, field)
    ensures field == s[..n] || HasEntry(s[n + 1..], field)
  {
    var i, j :| IsEntry(s, i, j) && s[i..j] == field;
    LaterEntry(s, n, i, j);
    if i != 0 {
      LaterEntry(s, n, i - n - 1, j - n - 1);
      assert s[n + 1..][i - n - 1..j - n - 1] == field;
    }
  }

  lemma {:induction false} FieldsAreEntries(s: string, field: string)
    ensures field in SplitCommas(s) <==> HasEntry(s, field)
    decreases |s|
  {
    FirstFieldIsEntry(s);
    FirstFieldIsPrefix(s);
    var n := |FirstField(s)|;
    assert s[0..n] == s[..n];
    if n == |s| {
      WholeIsOnlyEntry(s);
      assert SplitCommas(s) == [s] && IsEntry(s, 0, |s|) && s[0..|s|] == s;
    } else {
      FieldsAreEntries(s[n + 1..], field);
      if HasEntry(s[n + 1..], field) { EntryOfRest(s, n, field); }
      if HasEntry(s, field) { EntryIsFirstOrLater(s, n, field); }
    }
  }

  lemma WholeIsOnlyEntry(s: string)
    requires ',' !in s
    ensures forall i, j :: IsEntry(s, i, j) <==> i == 0 && j == |s|
  {
    assert s[0..|s|] == s;
  }

  /** An architecture is taken from the list exactly if some entry spells it. */
  lemma ListedIff(list: string, a: Arch)
    ensures a in ParseArchs(list) <==> Listed(list, a)
  {
    InFlatMap(SplitCommas(list), KnownArch(), a);
    if a in ParseArchs(list) {
      var field :| field in SplitCommas(list) && a in KnownArch()(field);
      FieldsAreEntries(list, field);
      SpelledIff(field, a);
      var i, j :| IsEntry(list, i, j) && list[i..j] == field;
    }
    if i, j :| IsEntry(list, i, j) && Spells(list[i..j], a) {
      FieldsAreEntries(list, list[i..j]);
      SpelledIff(list[i..j], a);
      assert a in KnownArch()(list[i..j]);
    }
  }
}

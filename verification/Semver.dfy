/** Precedence of versions, as section 11 of Semantic Versioning 2.0.0 defines it. */
module Semver {

  datatype Identifier = Numeric(n: nat) | Alphanumeric(s: string)

  datatype Version = Version(major: nat, minor: nat, patch: nat, pre: seq<Identifier>, build: seq<string>)

  // ----- lexicographic order

  /** How many leading elements two lists share. */
  ghost function Common<T>(p: seq<T>, q: seq<T>): (n: nat)
    ensures n <= |p| && n <= |q| && p[..n] == q[..n]
    ensures n < |p| && n < |q| ==> p[n] != q[n]
  {
    if p == [] || q == [] || p[0] != q[0] then 0
    else
      var n := 1 + Common(p[1..], q[1..]);
      assert p[..n] == [p[0]] + p[1..][..n - 1] && q[..n] == [q[0]] + q[1..][..n - 1];
      n
  }

  /** A proper prefix comes first; otherwise the first difference decides. */
  ghost predicate Lexically<T(!new)>(p: seq<T>, q: seq<T>, less: (T, T) -> bool) {
    var n := Common(p, q);
    n < |q| && (n == |p| || less(p[n], q[n]))
  }

  ghost predicate StrictOrder<T(!new)>(less: (T, T) -> bool) {
    && (forall x, y :: !(less(x, y) && less(y, x)))
    && (forall x, y :: x != y ==> less(x, y) || less(y, x))
    && (forall x, y, z :: less(x, y) && less(y, z) ==> less(x, z))
  }

  lemma CommonIsUnique<T>(p: seq<T>, q: seq<T>, n: nat)
    requires n <= |p| && n <= |q| && p[..n] == q[..n] && (n < |p| && n < |q| ==> p[n] != q[n])
    ensures Common(p, q) == n
  {
    var m := Common(p, q);
    assert forall k :: 0 <= k < n ==> p[k] == p[..n][k] == q[..n][k] == q[k];
    assert forall k :: 0 <= k < m ==> p[k] == p[..m][k] == q[..m][k] == q[k];
  }

  lemma CommonIsSymmetric<T>(p: seq<T>, q: seq<T>)
    ensures Common(p, q) == Common(q, p)
  {
    CommonIsUnique(q, p, Common(p, q));
  }

  /** Exactly one of before, equal and after. */
  lemma LexicalTrichotomy<T(!new)>(p: seq<T>, q: seq<T>, less: (T, T) -> bool)
    requires StrictOrder(less)
    ensures !(Lexically(p, q, less) && Lexically(q, p, less))
    ensures p != q ==> Lexically(p, q, less) || Lexically(q, p, less)
    ensures !Lexically(p, p, less)
  {
    CommonIsSymmetric(p, q);
    CommonIsUnique(p, p, |p|);
    var n := Common(p, q);
    if n == |p| == |q| { assert p == p[..n] == q[..n] == q; }
  }

  lemma LexicalTransitive<T(!new)>(p: seq<T>, q: seq<T>, r: seq<T>, less: (T, T) -> bool)
    requires StrictOrder(less) && Lexically(p, q, less) && Lexically(q, r, less)
    ensures Lexically(p, r, less)
  {
    var i, j := Common(p, q), Common(q, r);
    if i < j {
      assert p[..i] == q[..i] == q[..j][..i] == r[..j][..i] == r[..i];
      assert q[i] == q[..j][i] == r[..j][i] == r[i];
      CommonIsUnique(p, r, i);
    } else {
      assert r[..j] == q[..j] == q[..i][..j] == p[..i][..j] == p[..j];
      if j < i { assert q[j] == q[..i][j] == p[..i][j] == p[j]; }
      CommonIsUnique(p, r, j);
    }
  }

  // ----- precedence

  predicate CharBefore(a: char, b: char) {
    a < b
  }

  /** Numbers come before words; numbers compare as numbers, words by their characters. */
  ghost predicate IdentifierBefore(a: Identifier, b: Identifier) {
    match (a, b)
    case (Numeric(n), Numeric(m)) => n < m
    case (Numeric(_), Alphanumeric(_)) => true
    case (Alphanumeric(_), Numeric(_)) => false
    case (Alphanumeric(s), Alphanumeric(t)) => Lexically(s, t, CharBefore)
  }

  /** A version without pre-release identifiers comes after those that have some. */
  ghost predicate PreBefore(p: seq<Identifier>, q: seq<Identifier>) {
    p != [] && (q == [] || Lexically(p, q, (a, b) => IdentifierBefore(a, b)))
  }

  ghost predicate Before(v: Version, w: Version) {
    || v.major < w.major
    || (v.major == w.major && v.minor < w.minor)
    || (v.major == w.major && v.minor == w.minor && v.patch < w.patch)
    || (v.major == w.major && v.minor == w.minor && v.patch == w.patch && PreBefore(v.pre, w.pre))
  }

  /** Build metadata does not count. */
  predicate SamePrecedence(v: Version, w: Version) {
    v.(build := []) == w.(build := [])
  }

  lemma IdentifiersAreOrdered()
    ensures StrictOrder((a: Identifier, b: Identifier) => IdentifierBefore(a, b))
  {
    forall a: Identifier, b: Identifier
      ensures !(IdentifierBefore(a, b) && IdentifierBefore(b, a))
      ensures a != b ==> IdentifierBefore(a, b) || IdentifierBefore(b, a)
    {
      if a.Alphanumeric? && b.Alphanumeric? { LexicalTrichotomy(a.s, b.s, CharBefore); }
    }
    forall a: Identifier, b: Identifier, c: Identifier | IdentifierBefore(a, b) && IdentifierBefore(b, c)
      ensures IdentifierBefore(a, c)
    {
      if a.Alphanumeric? && b.Alphanumeric? && c.Alphanumeric? { LexicalTransitive(a.s, b.s, c.s, CharBefore); }
    }
  }

  /** Precedence is a strict order on versions up to build metadata. */
  lemma PrecedenceIsOrdered(v: Version, w: Version, x: Version)
    ensures !(Before(v, w) && Before(w, v))
    ensures SamePrecedence(v, w) <==> !Before(v, w) && !Before(w, v)
    ensures Before(v, w) && Before(w, x) ==> Before(v, x)
  {
    var less := (a: Identifier, b: Identifier) => IdentifierBefore(a, b);
    IdentifiersAreOrdered();
    LexicalTrichotomy(v.pre, w.pre, less);
    if v.pre == w.pre { LexicalTrichotomy(v.pre, v.pre, less); }
    if Lexically(v.pre, w.pre, less) && Lexically(w.pre, x.pre, less) { LexicalTransitive(v.pre, w.pre, x.pre, less); }
  }

  // ----- the code

  method CompareText(s: string, t: string) returns (r: int)
    ensures r == if Lexically(s, t, CharBefore) then -1 else if s == t then 0 else 1
  {
    var i := 0;
    while i < |s| && i < |t| && s[i] == t[i]
      invariant 0 <= i <= |s| && i <= |t| && s[..i] == t[..i]
    {
      assert s[..i + 1] == s[..i] + [s[i]] && t[..i + 1] == t[..i] + [t[i]];
      i := i + 1;
    }
    CommonIsUnique(s, t, i);
    if i == |s| && i == |t| {
      assert s == s[..i] == t[..i] == t;
      return 0;
    }
    if i == |t| { return 1; }
    if i == |s| || s[i] < t[i] { return -1; }
    return 1;
  }

  method CompareIdentifiers(a: Identifier, b: Identifier) returns (r: int)
    ensures r == if IdentifierBefore(a, b) then -1 else if a == b then 0 else 1
  {
    if a.Numeric? && !b.Numeric? { return -1; }
    if !a.Numeric? && b.Numeric? { return 1; }
    if a.Numeric? && b.Numeric? {
      return if a.n == b.n then 0 else if a.n > b.n then 1 else -1;
    }
    r := CompareText(a.s, b.s);
  }

  /** The loop over two pre-release lists. */
  method ComparePre(p: seq<Identifier>, q: seq<Identifier>) returns (r: int)
    ensures r == if Lexically(p, q, (a, b) => IdentifierBefore(a, b)) then -1 else if p == q then 0 else 1
  {
    ghost var less := (a: Identifier, b: Identifier) => IdentifierBefore(a, b);
    IdentifiersAreOrdered();
    LexicalTrichotomy(p, q, less);
    var i := 0;
    while i < |p| && i < |q|
      invariant 0 <= i <= |p| && i <= |q| && p[..i] == q[..i]
    {
      var c := CompareIdentifiers(p[i], q[i]);
      if c != 0 {
        CommonIsUnique(p, q, i);
        return if c == 1 then 1 else -1;
      }
      assert p[..i + 1] == p[..i] + [p[i]] && q[..i + 1] == q[..i] + [q[i]];
      i := i + 1;
    }
    CommonIsUnique(p, q, i);
    if i == |p| && i == |q| {
      assert p == p[..i] == q[..i] == q;
      return 0;
    }
    return if i == |p| then -1 else 1;
  }

  method Compare(v: Version, w: Version) returns (r: int)
    ensures r == if Before(v, w) then -1 else if SamePrecedence(v, w) then 0 else 1
    ensures r == 1 <==> Before(w, v)
  {
    PrecedenceIsOrdered(v, w, v);
    if v.major != w.major { return if v.major > w.major then 1 else -1; }
    if v.minor != w.minor { return if v.minor > w.minor then 1 else -1; }
    if v.patch != w.patch { return if v.patch > w.patch then 1 else -1; }
    if |v.pre| == 0 && |w.pre| == 0 { return 0; }
    if |v.pre| == 0 { return 1; }
    if |w.pre| == 0 { return -1; }
    r := ComparePre(v.pre, w.pre);
  }
}

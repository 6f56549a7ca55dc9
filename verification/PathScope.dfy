/** The static scope test before parallel work, and the scope check on the files a task changed. */
module PathScope {
  predicate IsWildcard(c: char) { c == '*' || c == '?' || c == '[' }

  predicate StartsWith(s: string, prefix: string) { prefix <= s }

  /** The text without its trailing slashes. */
  function TrimSlashes(s: string): (r: string)
    ensures r <= s
    ensures r == "" || r[|r| - 1] != '/'
    ensures forall i :: |r| <= i < |s| ==> s[i] == '/'
  {
    if s != "" && s[|s| - 1] == '/' then TrimSlashes(s[..|s| - 1]) else s
  }

  // ---- Matching a path ----

  /** Where a bracket opened just before `i` is closed, as the translator of patterns looks for it. */
  function ClosingBracket(p: string, i: nat): (j: nat)
    ensures j <= |p| || j <= i + 2
  {
    var afterNot := if i < |p| && p[i] == '!' then i + 1 else i;
    var afterFirst := if afterNot < |p| && p[afterNot] == ']' then afterNot + 1 else afterNot;
    NextBracket(p, afterFirst)
  }

  function NextBracket(p: string, j: nat): (r: nat)
    ensures r == j || r <= |p|
    ensures j <= r && (r < |p| ==> p[r] == ']')
    decreases |p| - j
  {
    if j < |p| && p[j] != ']' then NextBracket(p, j + 1) else j
  }

  /**
   * Shell pattern matching in which a star also crosses slashes. What a bracket expression admits
   * is left to `admits`; an unclosed bracket stands for itself.
   */
  predicate Glob(p: string, s: string, admits: (string, char) -> bool)
    decreases |p| + |s|
  {
    if p == "" then s == ""
    else if p[0] == '*' then Glob(p[1..], s, admits) || (s != "" && Glob(p, s[1..], admits))
    else if s == "" then false
    else if p[0] == '?' then Glob(p[1..], s[1..], admits)
    else if p[0] == '[' && ClosingBracket(p, 1) < |p| then
      var j := ClosingBracket(p, 1);
      admits(p[1..j], s[0]) && Glob(p[j + 1..], s[1..], admits)
    else p[0] == s[0] && Glob(p[1..], s[1..], admits)
  }

  predicate EndsWithTree(p: string) { 3 <= |p| && p[|p| - 3..] == "/**" }

  function TreePrefix(p: string): string
    requires EndsWithTree(p)
  {
    TrimSlashes(p[..|p| - 3])
  }

  /** A path matches a pattern: literally below a tree pattern, else by the shell rules. */
  predicate Matches(path: string, pattern: string, admits: (string, char) -> bool) {
    var normalized := TrimSlashes(pattern);
    if EndsWithTree(normalized) then
      var prefix := TreePrefix(normalized);
      path == prefix || StartsWith(path, prefix + "/")
    else Glob(normalized, path, admits)
  }

  // ---- The static test ----

  function FirstWildcard(p: string): (w: nat)
    ensures w <= |p|
    ensures forall i :: 0 <= i < w ==> !IsWildcard(p[i])
    ensures w < |p| ==> IsWildcard(p[w])
  {
    if p == "" || IsWildcard(p[0]) then 0 else 1 + FirstWildcard(p[1..])
  }

  function Slashed(p: string): (r: string)
    ensures |r| == |p|
    ensures forall i :: 0 <= i < |p| ==> r[i] == if p[i] == '\\' then '/' else p[i]
  {
    seq(|p|, i requires 0 <= i < |p| => if p[i] == '\\' then '/' else p[i])
  }

  function ScopePrefix(pattern: string): string {
    var p := Slashed(pattern);
    TrimSlashes(p[..FirstWildcard(p)])
  }

  /** One path is the other, or lies below it. */
  predicate Related(a: string, b: string) {
    a == b || StartsWith(a, b + "/") || StartsWith(b, a + "/")
  }

  predicate PatternsMayConflict(l: string, r: string) {
    var lp, rp := ScopePrefix(l), ScopePrefix(r);
    lp == "" || rp == "" || Related(lp, rp)
  }

  predicate TasksMayConflict(left: seq<string>, right: seq<string>) {
    || left == [] || right == []
    || exists i, j :: 0 <= i < |left| && 0 <= j < |right| && PatternsMayConflict(left[i], right[j])
  }

  /** The nested loops of the test. */
  method TestConflict(left: seq<string>, right: seq<string>) returns (conflict: bool)
    ensures conflict == TasksMayConflict(left, right)
  {
    if |left| == 0 || |right| == 0 { return true; }
    var i := 0;
    while i < |left|
      invariant i <= |left|
      invariant forall a, b :: 0 <= a < i && 0 <= b < |right| ==> !PatternsMayConflict(left[a], right[b])
    {
      var j := 0;
      while j < |right|
        invariant j <= |right|
        invariant forall b :: 0 <= b < j ==> !PatternsMayConflict(left[i], right[b])
      {
        if PatternsMayConflict(left[i], right[j]) { return true; }
        j := j + 1;
      }
      i := i + 1;
    }
    return false;
  }

  /** The verifier's check: every changed file matches one of the task's patterns. */
  predicate InScope(changed: set<string>, allowed: seq<string>, admits: (string, char) -> bool) {
    forall path :: path in changed ==> exists i :: 0 <= i < |allowed| && Matches(path, allowed[i], admits)
  }

  // ---- Patterns for which the test is sound ----

  predicate NoBackslash(p: string) { '\\' !in p }

  /** The first wildcard, if there is one, directly follows a slash. */
  predicate SafePattern(p: string) {
    var w := FirstWildcard(p);
    NoBackslash(p) && (w == |p| || (0 < w && p[w - 1] == '/'))
  }

  /** A path is the scope prefix or lies below it. */
  predicate Under(prefix: string, path: string) { path == prefix || StartsWith(path, prefix + "/") }

  lemma SlashedSame(p: string)
    requires NoBackslash(p)
    ensures Slashed(p) == p
  {
    forall i | 0 <= i < |p| ensures Slashed(p)[i] == p[i] {
      assert p[i] in p;
    }
  }

  /** A matching path begins with everything before the first wildcard. */
  lemma {:induction false} GlobKeepsLiteral(p: string, s: string, n: nat, admits: (string, char) -> bool)
    requires n <= FirstWildcard(p) && Glob(p, s, admits)
    ensures n <= |s| && p[..n] == s[..n]
    decreases n
  {
    if n > 0 {
      assert !IsWildcard(p[0]);
      GlobKeepsLiteral(p[1..], s[1..], n - 1, admits);
      assert p[..n] == [p[0]] + p[1..][..n - 1];
      assert s[..n] == [s[0]] + s[1..][..n - 1];
    }
  }

  lemma {:induction false} LiteralGlob(p: string, s: string, admits: (string, char) -> bool)
    requires FirstWildcard(p) == |p|
    ensures Glob(p, s, admits) <==> s == p
  {
    if p != "" {
      assert !IsWildcard(p[0]);
      if s != "" {
        LiteralGlob(p[1..], s[1..], admits);
        assert s == [s[0]] + s[1..] && p == [p[0]] + p[1..];
      }
    }
  }

  lemma FirstWildcardUnique(p: string, w: nat)
    requires w <= |p| && (forall i :: 0 <= i < w ==> !IsWildcard(p[i])) && (w < |p| ==> IsWildcard(p[w]))
    ensures FirstWildcard(p) == w
  {
  }

  /** Trimming removes slashes only, so it keeps the first wildcard. */
  lemma TrimKeepsWildcard(p: string)
    ensures var t := TrimSlashes(p);
            FirstWildcard(t) == if FirstWildcard(p) == |p| then |t| else FirstWildcard(p)
    ensures FirstWildcard(p) < |p| ==> FirstWildcard(p) < |TrimSlashes(p)|
  {
    var t := TrimSlashes(p);
    var w := FirstWildcard(p);
    assert forall i :: 0 <= i < |t| ==> t[i] == p[i];
    if w < |p| {
      assert !(|t| <= w);
      FirstWildcardUnique(t, w);
    } else {
      FirstWildcardUnique(t, |t|);
    }
  }

  /** The trimmed form of a text is determined by where its trailing slashes begin. */
  lemma TrimUnique(s: string, r: string)
    requires r <= s && (r == "" || r[|r| - 1] != '/') && forall i :: |r| <= i < |s| ==> s[i] == '/'
    ensures TrimSlashes(s) == r
  {
    var t := TrimSlashes(s);
    if r != "" { assert r[|r| - 1] == s[|r| - 1]; }
    if t != "" { assert t[|t| - 1] == s[|t| - 1]; }
    assert |t| == |r|;
    assert t == s[..|t|] && r == s[..|r|];
  }

  lemma UnderWithSlashes(prefix: string, literal: string, path: string)
    requires TrimSlashes(literal) == prefix && literal <= path && (|prefix| < |literal| || path == literal)
    ensures Under(prefix, path)
  {
    if |prefix| < |literal| {
      assert literal[|prefix|] == '/';
      assert path[|prefix|] == '/' && path[..|prefix|] == prefix;
      assert prefix + "/" <= path;
    }
  }

  /** The prefix of a tree pattern reaches past an earlier wildcard, and ends before its own slash otherwise. */
  lemma TreePrefixFacts(p: string)
    requires EndsWithTree(p)
    ensures FirstWildcard(p) <= |p| - 2
    ensures FirstWildcard(p) == |p| - 2 ==> TreePrefix(p) == TrimSlashes(p[..|p| - 2])
    ensures FirstWildcard(p) < |p| - 2 ==>
              FirstWildcard(p) < |TreePrefix(p)| && TreePrefix(p) <= p
  {
    var w := FirstWildcard(p);
    var tail := p[|p| - 3..];
    assert tail[0] == '/' && tail[1] == '*';
    assert p[|p| - 3] == '/' && p[|p| - 2] == '*';
    var prefix := TreePrefix(p);
    if w == |p| - 2 {
      TrimUnique(p[..|p| - 2], prefix);
    } else {
      assert w < |p| - 3;
      assert p[..|p| - 3][w] == p[w];
      assert w < |prefix|;
    }
  }

  /** A match of a pattern with a wildcard begins with the part before the wildcard. */
  lemma MatchKeepsLiteral(path: string, pattern: string, admits: (string, char) -> bool)
    requires FirstWildcard(pattern) < |pattern| && Matches(path, pattern, admits)
    requires !EndsWithTree(TrimSlashes(pattern)) || FirstWildcard(pattern) < |TrimSlashes(pattern)| - 2
    ensures pattern[..FirstWildcard(pattern)] <= path
  {
    hide Glob, TreePrefix;
    TrimKeepsWildcard(pattern);
    var w, n := FirstWildcard(pattern), TrimSlashes(pattern);
    assert pattern[..w] == n[..w];
    if EndsWithTree(n) {
      TreePrefixFacts(n);
      assert TreePrefix(n) <= path;
    } else {
      GlobKeepsLiteral(n, path, w, admits);
    }
  }

  lemma LiteralMatch(path: string, pattern: string, admits: (string, char) -> bool)
    requires FirstWildcard(pattern) == |pattern| && Matches(path, pattern, admits)
    ensures path == TrimSlashes(pattern)
  {
    hide Glob, TreePrefix;
    TrimKeepsWildcard(pattern);
    NoTreeWithoutWildcard(TrimSlashes(pattern));
    LiteralGlob(TrimSlashes(pattern), path, admits);
  }

  lemma PlainTreeMatch(path: string, pattern: string, admits: (string, char) -> bool)
    requires EndsWithTree(TrimSlashes(pattern)) && Matches(path, pattern, admits)
    requires FirstWildcard(pattern) < |pattern| && FirstWildcard(pattern) == |TrimSlashes(pattern)| - 2
    ensures Under(TrimSlashes(pattern[..FirstWildcard(pattern)]), path)
  {
    hide Glob, TrimSlashes, FirstWildcard, TreePrefix;
    TrimKeepsWildcard(pattern);
    var n := TrimSlashes(pattern);
    TreePrefixFacts(n);
    assert pattern[..|n| - 2] == n[..|n| - 2];
  }

  /** Whatever matches a safe pattern is its scope prefix or lies below it. */
  lemma MatchIsUnder(path: string, pattern: string, admits: (string, char) -> bool)
    requires SafePattern(pattern) && Matches(path, pattern, admits)
    ensures Under(ScopePrefix(pattern), path)
  {
    hide Matches, Under, EndsWithTree, TrimSlashes;
    SlashedSame(pattern);
    var w, n := FirstWildcard(pattern), TrimSlashes(pattern);
    var literal := pattern[..w];
    if w == |pattern| {
      LiteralMatch(path, pattern, admits);
      assert literal == pattern;
      assert Under(path, path) by { UnderItself(path); }
    } else if EndsWithTree(n) && w == |n| - 2 {
      PlainTreeMatch(path, pattern, admits);
    } else {
      WildcardMatchIsUnder(path, pattern, admits);
    }
  }

  lemma WildcardMatchIsUnder(path: string, pattern: string, admits: (string, char) -> bool)
    requires Matches(path, pattern, admits) && FirstWildcard(pattern) < |pattern|
    requires 0 < FirstWildcard(pattern) && pattern[FirstWildcard(pattern) - 1] == '/'
    requires !EndsWithTree(TrimSlashes(pattern)) || FirstWildcard(pattern) != |TrimSlashes(pattern)| - 2
    ensures Under(TrimSlashes(pattern[..FirstWildcard(pattern)]), path)
  {
    hide Matches, Under;
    var w, n := FirstWildcard(pattern), TrimSlashes(pattern);
    var literal := pattern[..w];
    TrimKeepsWildcard(pattern);
    if EndsWithTree(n) { TreePrefixFacts(n); }
    MatchKeepsLiteral(path, pattern, admits);
    assert literal[w - 1] == '/';
    UnderWithSlashes(TrimSlashes(literal), literal, path);
  }

  lemma UnderItself(path: string)
    ensures Under(path, path)
  {
  }

  lemma NoTreeWithoutWildcard(n: string)
    requires FirstWildcard(n) == |n|
    ensures !EndsWithTree(n)
  {
    if EndsWithTree(n) { TreePrefixFacts(n); }
  }

  /** Two texts that are both at or above one path are related. */
  lemma UndersRelated(a: string, b: string, path: string)
    requires Under(a, path) && Under(b, path)
    ensures Related(a, b)
  {
    assert a <= path && b <= path;
    if |a| < |b| {
      assert path[|a|] == (a + "/")[|a|];
      assert a + "/" <= b;
    } else if |b| < |a| {
      assert path[|b|] == (b + "/")[|b|];
      assert b + "/" <= a;
    } else {
      assert a == path[..|a|] == b;
    }
  }

  lemma SafePairDisjoint(path: string, l: string, r: string, admits: (string, char) -> bool)
    requires SafePattern(l) && SafePattern(r) && !PatternsMayConflict(l, r)
    ensures !(Matches(path, l, admits) && Matches(path, r, admits))
  {
    if Matches(path, l, admits) && Matches(path, r, admits) {
      MatchIsUnder(path, l, admits);
      MatchIsUnder(path, r, admits);
      UndersRelated(ScopePrefix(l), ScopePrefix(r), path);
    }
  }

  // ---- How far the test is sound ----

  /** The first wildcard opens the pattern, follows a slash or is absent, or the pattern is a tree pattern. */
  predicate Reliable(p: string) {
    NoBackslash(p) && (SafePattern(p) || FirstWildcard(p) == 0 || EndsWithTree(TrimSlashes(p)))
  }

  /** With every reliable pattern that the test calls unrelated, the pattern matches no common path. */
  ghost predicate Sound(p: string, admits: (string, char) -> bool) {
    forall r, path :: Reliable(r) && !PatternsMayConflict(p, r) ==>
      !(Matches(path, p, admits) && Matches(path, r, admits))
  }

  /** A character that is no wildcard, no slash and no backslash. */
  predicate Ordinary(c: char) { !IsWildcard(c) && c != '/' && c != '\\' }

  predicate OpensBracket(p: string) { p != "" && p[0] == '[' && ClosingBracket(p, 1) < |p| }

  /** Every bracket expression of the pattern admits an ordinary character. */
  ghost predicate Admitting(p: string, admits: (string, char) -> bool)
    decreases |p|
  {
    if p == "" then true
    else if OpensBracket(p) then
      var j := ClosingBracket(p, 1);
      (exists c :: Ordinary(c) && admits(p[1..j], c)) && Admitting(p[j + 1..], admits)
    else Admitting(p[1..], admits)
  }

  /** The first wildcard, if it is a bracket, is closed: an unclosed one stands for itself. */
  predicate FirstStands(p: string) {
    var w := FirstWildcard(p);
    w < |p| && p[w] == '[' ==> OpensBracket(p[w..])
  }

  /** A path the pattern matches, with an ordinary character where the pattern has its first wildcard. */
  lemma {:induction false} InstanceExists(p: string, admits: (string, char) -> bool) returns (s: string)
    requires NoBackslash(p) && Admitting(p, admits)
    ensures Glob(p, s, admits) && NoBackslash(s)
    ensures p != "" && p[|p| - 1] != '/' ==> s != "" && s[|s| - 1] != '/'
    ensures FirstStands(p) && FirstWildcard(p) < |p| ==> FirstWildcard(p) < |s| && Ordinary(s[FirstWildcard(p)])
    decreases |p|
  {
    if p == "" {
      s := "";
    } else {
      var skip := if OpensBracket(p) then ClosingBracket(p, 1) + 1 else 1;
      assert NoBackslash(p[skip..]) by { assert forall c :: c in p[skip..] ==> c in p; }
      var rest := InstanceExists(p[skip..], admits);
      var c := p[0];
      if OpensBracket(p) {
        c :| Ordinary(c) && admits(p[1..ClosingBracket(p, 1)], c);
      } else if p[0] == '*' || p[0] == '?' {
        c := 'x';
      }
      assert p[0] in p;
      s := [c] + rest;
      assert s[1..] == rest;
      if p[0] == '*' { StarTakesNothing(p, rest, admits); }
      if IsWildcard(p[0]) {
        assert p[0..] == p;
      } else {
        assert p[1..][FirstWildcard(p[1..])..] == p[FirstWildcard(p)..];
      }
    }
  }

  lemma StarTakesNothing(p: string, s: string, admits: (string, char) -> bool)
    requires p != "" && p[0] == '*' && Glob(p[1..], s, admits)
    ensures Glob(p, s, admits)
  {
  }

  lemma UnsafePrefix(p: string)
    requires NoBackslash(p) && 0 < FirstWildcard(p) && !SafePattern(p)
    ensures FirstWildcard(p) < |p| && ScopePrefix(p) == p[..FirstWildcard(p)]
  {
    hide TrimSlashes, FirstWildcard;
    SlashedSame(p);
    var w := FirstWildcard(p);
    var literal := p[..w];
    assert literal[w - 1] == p[w - 1];
    TrimUnique(literal, literal);
  }

  lemma LiteralPrefix(file: string)
    requires NoBackslash(file) && FirstWildcard(file) == |file| && file != "" && file[|file| - 1] != '/'
    ensures ScopePrefix(file) == file && TrimSlashes(file) == file
  {
    SlashedSame(file);
    assert file[..|file|] == file;
    TrimUnique(file, file);
  }

  lemma FileMatchesItself(file: string, admits: (string, char) -> bool)
    requires FirstWildcard(file) == |file| && TrimSlashes(file) == file
    ensures Matches(file, file, admits)
  {
    NoTreeWithoutWildcard(file);
    LiteralGlob(file, file, admits);
  }

  /** A path and the tree below it. */
  lemma TreeOf(path: string, admits: (string, char) -> bool)
    requires NoBackslash(path) && path != "" && path[|path| - 1] != '/'
    ensures Reliable(path + "/**") && Matches(path, path + "/**", admits)
  {
    var r := path + "/**";
    assert r[|r| - 3..] == "/**" && r[..|r| - 3] == path;
    TrimUnique(r, r);
    TrimUnique(path, path);
    assert forall c :: c in r ==> c in path || c in "/**";
  }

  /** The scope prefix of the tree reaches past a place before which the path has no wildcard. */
  lemma TreeScope(path: string, w: nat)
    requires NoBackslash(path) && w < |path| && Ordinary(path[w]) && forall i :: 0 <= i < w ==> !IsWildcard(path[i])
    ensures var q := ScopePrefix(path + "/**"); w < |q| && q[..w] == path[..w] && q[w] == path[w]
  {
    var r := path + "/**";
    assert NoBackslash(r) by { assert forall c :: c in r ==> c in path || c in "/**"; }
    SlashedSame(r);
    var v := FirstWildcard(r);
    forall i | 0 <= i <= w ensures !IsWildcard(r[i]) { assert r[i] == path[i]; }
    var q := TrimSlashes(r[..v]);
    assert q <= r[..v];
    assert r[..v][w] == path[w];
    assert q[w] == r[w] && forall i :: 0 <= i < w ==> q[i] == r[i];
  }

  /** The pattern matches a path that keeps its literal beginning and then goes on with an ordinary character. */
  lemma UnsafeInstance(p: string, admits: (string, char) -> bool) returns (path: string)
    requires NoBackslash(p) && !Reliable(p)
    requires Admitting(TrimSlashes(p), admits) && FirstStands(TrimSlashes(p))
    ensures var w := FirstWildcard(p);
            && Matches(path, p, admits) && NoBackslash(path) && path != "" && path[|path| - 1] != '/'
            && 0 < w < |p| && w < |path| && p[..w] == path[..w] && Ordinary(path[w])
  {
    hide Glob, Admitting, FirstStands, EndsWithTree, TreePrefix;
    TrimKeepsWildcard(p);
    var w, n := FirstWildcard(p), TrimSlashes(p);
    assert NoBackslash(n) by { assert forall c :: c in n ==> c in p; }
    path := InstanceExists(n, admits);
    GlobKeepsLiteral(n, path, w, admits);
    assert n[..w] == p[..w] == path[..w];
  }

  /** A wildcard inside a name defeats the test: this path and the tree below it are matched and called unrelated. */
  lemma UnsafeIsUnsound(p: string, admits: (string, char) -> bool)
    requires NoBackslash(p) && !Reliable(p)
    requires Admitting(TrimSlashes(p), admits) && FirstStands(TrimSlashes(p))
    ensures !Sound(p, admits)
  {
    hide Matches, ScopePrefix, Admitting, FirstStands, TrimSlashes, EndsWithTree;
    UnsafePrefix(p);
    var w := FirstWildcard(p);
    var path := UnsafeInstance(p, admits);
    forall i | 0 <= i < w ensures !IsWildcard(path[i]) { assert p[..w][i] == path[..w][i]; }
    TreeOf(path, admits);
    TreeScope(path, w);
    hide Reliable;
    var q := ScopePrefix(path + "/**");
    SameStart(p[..w], q, path, w);
  }

  lemma SameStart(literal: string, q: string, path: string, w: nat)
    requires w == |literal| && 0 < w < |q| && w < |path| && literal == path[..w] && q[..w] == path[..w] && q[w] != '/'
    ensures !(literal == "" || q == "" || Related(literal, q))
  {
    NotRelated(literal, q);
  }

  lemma NotRelated(literal: string, file: string)
    requires literal != "" && |literal| < |file| && file[|literal|] != '/'
    ensures !Related(literal, file)
  {
    SlashFollows(literal, file);
  }

  lemma SlashFollows(prefix: string, s: string)
    ensures prefix + "/" <= s ==> |prefix| < |s| && s[|prefix|] == '/'
  {
    if prefix + "/" <= s { SharedPrefix(prefix + "/", s); }
  }

  lemma SharedPrefix(prefix: string, s: string)
    requires prefix <= s
    ensures forall i :: 0 <= i < |prefix| ==> prefix[i] == s[i]
  {
  }

  /** A text without wildcards above a path that has one lies above what precedes the wildcard. */
  lemma AboveWildcard(literal: string, above: string, path: string)
    requires literal <= path && |literal| < |path| && IsWildcard(path[|literal|])
    requires Under(above, path) && forall i :: 0 <= i < |above| ==> !IsWildcard(above[i])
    ensures StartsWith(literal, above + "/")
  {
    assert above <= path;
    SharedPrefix(above, path);
    assert |above| <= |literal|;
    assert above + "/" <= path;
    SlashFollows(above, path);
    assert |above| < |literal|;
  }

  lemma TreeMatchReaches(path: string, p: string, admits: (string, char) -> bool)
    requires EndsWithTree(TrimSlashes(p)) && Matches(path, p, admits)
    requires FirstWildcard(p) < |TrimSlashes(p)| - 2
    ensures FirstWildcard(p) < |path| && p[..FirstWildcard(p)] <= path && IsWildcard(path[FirstWildcard(p)])
  {
    hide Glob;
    TrimKeepsWildcard(p);
    var w, n := FirstWildcard(p), TrimSlashes(p);
    TreePrefixFacts(n);
    var t := TreePrefix(n);
    assert t <= path;
    hide EndsWithTree, TreePrefix, Matches, TrimSlashes;
    SharedStart(t, n, p, path, w);
  }

  lemma SharedStart(t: string, n: string, p: string, path: string, w: nat)
    requires t <= n <= p && t <= path && w < |t|
    ensures p[..w] <= path && path[w] == p[w]
  {
    SharedPrefix(t, n);
    SharedPrefix(n, p);
    SharedPrefix(t, path);
    assert p[..w] == path[..w];
  }

  /** Below a tree pattern an earlier wildcard is taken literally, so safe patterns that reach it are related. */
  lemma TreeIsSound(p: string, r: string, path: string, admits: (string, char) -> bool)
    requires NoBackslash(p) && EndsWithTree(TrimSlashes(p)) && 0 < FirstWildcard(p) && !SafePattern(p)
    requires SafePattern(r) && Matches(path, p, admits) && Matches(path, r, admits)
    ensures PatternsMayConflict(p, r)
  {
    UnsafePrefix(p);
    TrimKeepsWildcard(p);
    EarlierWildcard(p, TrimSlashes(p));
    TreeMatchReaches(path, p, admits);
    MatchIsUnder(path, r, admits);
    PrefixHasNoWildcard(r);
    hide Matches, ScopePrefix, Under;
    AboveWildcard(p[..FirstWildcard(p)], ScopePrefix(r), path);
  }

  lemma EarlierWildcard(p: string, n: string)
    requires n == TrimSlashes(p) && EndsWithTree(n) && NoBackslash(p) && !SafePattern(p)
    requires FirstWildcard(n) == FirstWildcard(p) && 0 < FirstWildcard(p)
    ensures FirstWildcard(p) < |n| - 2
  {
    var w := FirstWildcard(p);
    TreePrefixFacts(n);
    var tail := n[|n| - 3..];
    assert tail[0] == '/';
    assert n[|n| - 3] == '/' && p[|n| - 3] == '/';
  }

  lemma PrefixHasNoWildcard(r: string)
    requires NoBackslash(r)
    ensures forall i :: 0 <= i < |ScopePrefix(r)| ==> !IsWildcard(ScopePrefix(r)[i])
  {
    SlashedSame(r);
    var literal := r[..FirstWildcard(r)];
    assert forall i :: 0 <= i < |TrimSlashes(literal)| ==> TrimSlashes(literal)[i] == literal[i] == r[i];
  }

  /** Two tree patterns with an earlier wildcard that match one path have the same scope prefix. */
  lemma TreesAreSound(p: string, r: string, path: string, admits: (string, char) -> bool)
    requires NoBackslash(p) && EndsWithTree(TrimSlashes(p)) && 0 < FirstWildcard(p) && !SafePattern(p)
    requires NoBackslash(r) && EndsWithTree(TrimSlashes(r)) && 0 < FirstWildcard(r) && !SafePattern(r)
    requires Matches(path, p, admits) && Matches(path, r, admits)
    ensures PatternsMayConflict(p, r)
  {
    hide Matches, ScopePrefix, EndsWithTree, TrimSlashes;
    UnsafePrefix(p);
    UnsafePrefix(r);
    TrimKeepsWildcard(p);
    TrimKeepsWildcard(r);
    EarlierWildcard(p, TrimSlashes(p));
    EarlierWildcard(r, TrimSlashes(r));
    TreeMatchReaches(path, p, admits);
    TreeMatchReaches(path, r, admits);
    var v, w := FirstWildcard(p), FirstWildcard(r);
    SharedPrefix(p[..v], path);
    SharedPrefix(r[..w], path);
    forall i | 0 <= i < v ensures !IsWildcard(path[i]) { assert p[..v][i] == p[i]; }
    forall i | 0 <= i < w ensures !IsWildcard(path[i]) { assert r[..w][i] == r[i]; }
    assert v == w;
    assert p[..v] == path[..v] == r[..w];
  }

  /** Two reliable patterns that match one path are called related. */
  lemma ReliablePairSound(path: string, l: string, r: string, admits: (string, char) -> bool)
    requires Reliable(l) && Reliable(r) && Matches(path, l, admits) && Matches(path, r, admits)
    ensures PatternsMayConflict(l, r)
  {
    hide Matches, EndsWithTree, SafePattern, Related;
    if FirstWildcard(l) == 0 || FirstWildcard(r) == 0 {
      OpeningWildcard(l);
      OpeningWildcard(r);
    } else if SafePattern(l) {
      if SafePattern(r) { if !PatternsMayConflict(l, r) { SafePairDisjoint(path, l, r, admits); } } else { TreeIsSound(r, l, path, admits); }
      RelatedBothWays(ScopePrefix(l), ScopePrefix(r));
    } else if SafePattern(r) {
      TreeIsSound(l, r, path, admits);
    } else {
      TreesAreSound(l, r, path, admits);
    }
  }

  lemma OpeningWildcard(p: string)
    requires NoBackslash(p)
    ensures FirstWildcard(p) == 0 ==> ScopePrefix(p) == ""
  {
    SlashedSame(p);
  }

  lemma RelatedBothWays(a: string, b: string)
    ensures Related(a, b) <==> Related(b, a)
  {
  }

  /**
   * A pattern without backslash that is reliable is sound: with any other reliable pattern that the
   * test calls unrelated it matches no common path. One that is not, and whose brackets admit some
   * ordinary character, is not.
   */
  lemma SoundExactly(p: string, admits: (string, char) -> bool)
    requires NoBackslash(p)
    ensures Reliable(p) ==> Sound(p, admits)
    ensures Admitting(TrimSlashes(p), admits) && FirstStands(TrimSlashes(p)) ==> (Sound(p, admits) <==> Reliable(p))
  {
    hide Matches, PatternsMayConflict, Admitting, FirstStands, TrimSlashes;
    if Reliable(p) {
      forall r, path | Reliable(r) && !PatternsMayConflict(p, r)
        ensures !(Matches(path, p, admits) && Matches(path, r, admits))
      {
        if Matches(path, p, admits) && Matches(path, r, admits) { ReliablePairSound(path, p, r, admits); }
      }
    } else if Admitting(TrimSlashes(p), admits) && FirstStands(TrimSlashes(p)) {
      UnsafeIsUnsound(p, admits);
    }
  }

  /** Patterns with no other wildcards than stars and question marks meet the side conditions. */
  lemma {:induction false} WithoutBrackets(p: string, admits: (string, char) -> bool)
    requires '[' !in p
    ensures Admitting(p, admits) && FirstStands(p)
    decreases |p|
  {
    if p != "" {
      assert p[0] in p;
      assert forall c :: c in p[1..] ==> c in p;
      WithoutBrackets(p[1..], admits);
    }
    assert FirstWildcard(p) < |p| ==> p[FirstWildcard(p)] in p;
  }

  /**
   * Two tasks that pass the parallel-safety test, and whose changed files pass the verifier's scope
   * check, have changed no file in common, if the patterns of both are reliable.
   */
  lemma DisjointEdits(left: seq<string>, right: seq<string>, changedLeft: set<string>, changedRight: set<string>,
                      admits: (string, char) -> bool)
    requires forall p :: p in left || p in right ==> Reliable(p)
    requires !TasksMayConflict(left, right)
    requires InScope(changedLeft, left, admits) && InScope(changedRight, right, admits)
    ensures changedLeft !! changedRight
  {
    hide Matches, Reliable, PatternsMayConflict;
    forall path | path in changedLeft ensures path !in changedRight {
      if path in changedRight {
        var i :| 0 <= i < |left| && Matches(path, left[i], admits);
        var j :| 0 <= j < |right| && Matches(path, right[j], admits);
        ReliablePairSound(path, left[i], right[j], admits);
      }
    }
  }

  lemma StarPrefix()
    ensures ScopePrefix("src/fo*") == "src/fo" && TrimSlashes("src/fo*") == "src/fo*" && !EndsWithTree("src/fo*")
  {
    var star := "src/fo*";
    FirstWildcardUnique(star, 6);
    SlashedSame(star);
    TrimUnique(star, star);
    assert star[..6] == "src/fo";
    TrimUnique("src/fo", "src/fo");
    assert star[|star| - 3..][0] == 'f';
  }

  lemma FilePrefix()
    ensures ScopePrefix("src/foo.ts") == "src/foo.ts" && TrimSlashes("src/foo.ts") == "src/foo.ts"
    ensures FirstWildcard("src/foo.ts") == |"src/foo.ts"|
  {
    hide TrimSlashes, ScopePrefix, FirstWildcard;
    FirstWildcardUnique("src/foo.ts", 10);
    LiteralPrefix("src/foo.ts");
  }

  /** A concrete pair: called unrelated, yet both match the file. */
  lemma MissedOverlap(admits: (string, char) -> bool)
    ensures !PatternsMayConflict("src/fo*", "src/foo.ts")
    ensures Matches("src/foo.ts", "src/fo*", admits) && Matches("src/foo.ts", "src/foo.ts", admits)
  {
    hide Glob, ScopePrefix, TrimSlashes, FirstWildcard, EndsWithTree;
    StarPrefix();
    FilePrefix();
    FileMatchesItself("src/foo.ts", admits);
    NotRelated("src/fo", "src/foo.ts");
    FirstWildcardUnique("src/fo", 6);
    StarMatchesTail("src/fo", "o.ts", admits);
    assert "src/fo" + "*" == "src/fo*" && "src/fo" + "o.ts" == "src/foo.ts";
  }

  lemma {:induction false} StarMatchesTail(literal: string, tail: string, admits: (string, char) -> bool)
    requires FirstWildcard(literal) == |literal|
    ensures Glob(literal + "*", literal + tail, admits)
    decreases |literal| + |tail|
  {
    if literal != "" {
      assert (literal + "*")[1..] == literal[1..] + "*" && (literal + tail)[1..] == literal[1..] + tail;
      StarMatchesTail(literal[1..], tail, admits);
    } else {
      assert literal + "*" == "*" && literal + tail == tail;
      if tail != "" {
        StarMatchesTail("", tail[1..], admits);
        assert "" + "*" == "*" && "" + tail[1..] == tail[1..];
      } else {
        assert Glob("*"[1..], "", admits);
      }
    }
  }
}

/**
 The two translations of a filter value with '*' wildcards: into a regular expression for watches
 (matchesWildcard, pkg/resolver/watchSubscription.go) and into a LIKE pattern for searches
 (getPartialMatchFilter, pkg/resolver/searchHelper.go), against the direct meaning of the wildcard.
*/
module Wildcard {
  import opened Prelude

  // ---- Library functions --------------------------------------------------------------------------

  predicate HasPrefix(s: string, p: string) {
    |p| <= |s| && s[..|p|] == p
  }

  /** strings.ReplaceAll for a non-empty old string: left to right, without overlap. */
  function ReplaceAll(s: string, from: string, to: string): string
    requires from != []
  {
    if s == [] then []
    else if HasPrefix(s, from) then to + ReplaceAll(s[|from|..], from, to)
    else [s[0]] + ReplaceAll(s[1..], from, to)
  }

  predicate IsMeta(c: char) {
    || c == '\\' || c == '.' || c == '+' || c == '*' || c == '?' || c == '(' || c == ')' || c == '|'
    || c == '[' || c == ']' || c == '{' || c == '}' || c == '^' || c == '$'
  }

  function Quoted(c: char): string {
    if IsMeta(c) then ['\\', c] else [c]
  }

  /** regexp.QuoteMeta */
  function QuoteMeta(s: string): string {
    if s == [] then [] else Quoted(s[0]) + QuoteMeta(s[1..])
  }

  // The part of the regular expression syntax that the translation produces.
  datatype Token = Lit(c: char) | AnyRun | Begin | End

  function Parse(s: string): Option<seq<Token>> {
    if s == [] then Some([])
    else if s[0] == '\\' then (if |s| == 1 then None else Cons(Lit(s[1]), Parse(s[2..])))
    else if s[0] == '^' then Cons(Begin, Parse(s[1..]))
    else if s[0] == '$' then Cons(End, Parse(s[1..]))
    else if |s| > 1 && s[0] == '.' && s[1] == '*' then Cons(AnyRun, Parse(s[2..]))
    else if IsMeta(s[0]) then None
    else Cons(Lit(s[0]), Parse(s[1..]))
  }

  function Cons(t: Token, rest: Option<seq<Token>>): Option<seq<Token>> {
    match rest case None => None case Some(ts) => Some([t] + ts)
  }

  predicate OneLine(s: string) {
    '\n' !in s
  }

  /** The tokens match a stretch of the text that starts at position i; '.' does not match a newline. */
  predicate MatchAt(ts: seq<Token>, s: string, i: nat)
    requires i <= |s|
    decreases |ts|
  {
    if ts == [] then true
    else match ts[0]
      case Begin => i == 0 && MatchAt(ts[1..], s, i)
      case End => i == |s| && MatchAt(ts[1..], s, i)
      case Lit(c) => i < |s| && s[i] == c && MatchAt(ts[1..], s, i + 1)
      case AnyRun => exists j | i <= j <= |s| :: OneLine(s[i..j]) && MatchAt(ts[1..], s, j)
  }

  /** regexp.MatchString: the expression matches somewhere in the text. */
  predicate MatchString(re: string, s: string) {
    match Parse(re)
    case None => false
    case Some(ts) => exists i | 0 <= i <= |s| :: MatchAt(ts, s, i)
  }

  /** LIKE with its two wildcards and the escape character; a dangling escape matches nothing. */
  predicate Like(p: string, v: string)
    decreases |p|
  {
    if p == [] then v == []
    else if p[0] == '%' then exists k | 0 <= k <= |v| :: Like(p[1..], v[k..])
    else if p[0] == '_' then v != [] && Like(p[1..], v[1..])
    else if p[0] == '\\' then |p| > 1 && v != [] && v[0] == p[1] && Like(p[2..], v[1..])
    else v != [] && v[0] == p[0] && Like(p[1..], v[1..])
  }

  // ---- The source's translations ----------------------------------------------------------------------

  predicate MatchesWildcard(value: string, pattern: string) {
    var re := "^" + QuoteMeta(pattern) + "$";
    MatchString(ReplaceAll(re, "\\*", ".*"), value)
  }

  function ToLike(pattern: string): string {
    ReplaceAll(pattern, "*", "%")
  }

  // ---- The meaning of a wildcard -----------------------------------------------------------------------

  /** '*' stands for any run of characters, every other character for itself. */
  predicate Glob(p: string, v: string)
    decreases |p|
  {
    if p == [] then v == []
    else if p[0] == '*' then exists k | 0 <= k <= |v| :: Glob(p[1..], v[k..])
    else v != [] && v[0] == p[0] && Glob(p[1..], v[1..])
  }

  /** The same, with '*' confined to one line. */
  predicate GlobLine(p: string, v: string)
    decreases |p|
  {
    if p == [] then v == []
    else if p[0] == '*' then exists k | 0 <= k <= |v| :: OneLine(v[..k]) && GlobLine(p[1..], v[k..])
    else v != [] && v[0] == p[0] && GlobLine(p[1..], v[1..])
  }

  function GlobTokens(p: string): seq<Token> {
    if p == [] then [] else [TokenOf(p[0])] + GlobTokens(p[1..])
  }

  function Unit(c: char): string {
    if c == '*' then ".*" else Quoted(c)
  }

  // The regular expression built from p: literals escaped where needed, stars as dot-star.
  function Target(p: string): string {
    if p == [] then "$" else Unit(p[0]) + Target(p[1..])
  }

  lemma StarPrefix(s: string)
    ensures HasPrefix(s, "\\*") <==> |s| > 1 && s[0] == '\\' && s[1] == '*'
  {
    if |s| > 1 {
      assert s[..2] == [s[0], s[1]];
    }
  }

  // A character that does not start a backslash-star is copied.
  lemma CharIsCopied(c: char, rest: string)
    requires !(c == '\\' && rest != [] && rest[0] == '*')
    ensures ReplaceAll([c] + rest, "\\*", ".*") == [c] + ReplaceAll(rest, "\\*", ".*")
  {
    StarPrefix([c] + rest);
    assert ([c] + rest)[1..] == rest;
  }

  lemma StarIsReplaced(rest: string)
    ensures ReplaceAll(['\\', '*'] + rest, "\\*", ".*") == ".*" + ReplaceAll(rest, "\\*", ".*")
  {
    StarPrefix(['\\', '*'] + rest);
    assert (['\\', '*'] + rest)[2..] == rest;
  }

  // A quoted character in front of a quoted string is translated on its own.
  lemma UnitIsReplaced(c: char, rest: string)
    requires rest != [] && rest[0] != '*'
    ensures ReplaceAll(Quoted(c) + rest, "\\*", ".*") == Unit(c) + ReplaceAll(rest, "\\*", ".*")
  {
    if c == '*' {
      StarIsReplaced(rest);
    } else if IsMeta(c) {
      MetaIsReplaced(c, rest);
    } else {
      CharIsCopied(c, rest);
    }
  }

  lemma MetaIsReplaced(c: char, rest: string)
    requires rest != [] && rest[0] != '*' && c != '*'
    ensures ReplaceAll(['\\', c] + rest, "\\*", ".*") == ['\\', c] + ReplaceAll(rest, "\\*", ".*")
  {
    var tail := [c] + rest;
    assert ['\\', c] + rest == ['\\'] + tail;
    CharIsCopied('\\', tail);
    CharIsCopied(c, rest);
    assert ['\\'] + ([c] + ReplaceAll(rest, "\\*", ".*")) == ['\\', c] + ReplaceAll(rest, "\\*", ".*");
  }

  // No quoted pattern starts with a bare star.
  lemma QuotedStart(p: string)
    ensures (QuoteMeta(p) + "$")[0] != '*'
  {
    if p != [] {
      assert QuoteMeta(p)[0] == Quoted(p[0])[0];
    }
  }

  // Each backslash-star in the quoted pattern is a star of the pattern, whatever backslashes precede it.
  lemma {:induction false} QuotingSeparatesStars(p: string)
    ensures ReplaceAll(QuoteMeta(p) + "$", "\\*", ".*") == Target(p)
  {
    if p == [] {
      CharIsCopied('$', []);
      assert QuoteMeta(p) + "$" == ['$'] + [];
    } else {
      var rest := QuoteMeta(p[1..]) + "$";
      assert QuoteMeta(p) + "$" == Quoted(p[0]) + rest;
      QuotedStart(p[1..]);
      UnitIsReplaced(p[0], rest);
      QuotingSeparatesStars(p[1..]);
    }
  }

  function TokenOf(c: char): Token {
    if c == '*' then AnyRun else Lit(c)
  }

  lemma UnitParses(c: char, rest: string)
    ensures Parse(Unit(c) + rest) == Cons(TokenOf(c), Parse(rest))
  {
    var s := Unit(c) + rest;
    if c == '*' {
      assert s[2..] == rest && s[0] == '.' && s[1] == '*';
    } else if IsMeta(c) {
      assert s[0] == '\\' && s[1] == c && s[2..] == rest;
    } else {
      assert s[0] == c && s[1..] == rest;
    }
  }

  lemma {:induction false} TargetParses(p: string)
    ensures Parse(Target(p)) == Some(GlobTokens(p) + [End])
  {
    if p == [] {
      assert "$"[1..] == [] && Parse([]) == Some([]);
      assert GlobTokens(p) + [End] == [End] + [];
    } else {
      TargetParses(p[1..]);
      UnitParses(p[0], Target(p[1..]));
      assert GlobTokens(p) + [End] == [TokenOf(p[0])] + (GlobTokens(p[1..]) + [End]);
    }
  }

  // ---- matchesWildcard is the one-line wildcard -------------------------------------------------------

  // A run matches up to some position j exactly if the star takes the text between.
  lemma RunMatches(ts: seq<Token>, p: string, s: string, i: nat)
    requires i <= |s| && ts != [] && ts[0] == AnyRun && p != [] && p[0] == '*'
    requires forall j | i <= j <= |s| :: MatchAt(ts[1..], s, j) <==> GlobLine(p[1..], s[j..])
    ensures MatchAt(ts, s, i) <==> GlobLine(p, s[i..])
  {
    var v := s[i..];
    forall k | 0 <= k <= |v| ensures v[..k] == s[i..i + k] && v[k..] == s[i + k..] {
    }
    if MatchAt(ts, s, i) {
      var j :| i <= j <= |s| && OneLine(s[i..j]) && MatchAt(ts[1..], s, j);
      assert OneLine(v[..j - i]) && GlobLine(p[1..], v[j - i..]);
    }
    if GlobLine(p, v) {
      var k :| 0 <= k <= |v| && OneLine(v[..k]) && GlobLine(p[1..], v[k..]);
      assert OneLine(s[i..i + k]) && MatchAt(ts[1..], s, i + k);
    }
  }

  lemma {:induction false} TokensMatch(p: string, s: string, i: nat)
    requires i <= |s|
    ensures MatchAt(GlobTokens(p) + [End], s, i) <==> GlobLine(p, s[i..])
    decreases |p|
  {
    var ts := GlobTokens(p) + [End];
    if p == [] {
      assert ts == [End] && ts[1..] == [];
    } else {
      assert ts[0] == TokenOf(p[0]) && ts[1..] == GlobTokens(p[1..]) + [End];
      if p[0] == '*' {
        forall j | i <= j <= |s| ensures MatchAt(ts[1..], s, j) <==> GlobLine(p[1..], s[j..]) {
          TokensMatch(p[1..], s, j);
        }
        RunMatches(ts, p, s, i);
      } else if i < |s| {
        TokensMatch(p[1..], s, i + 1);
        assert s[i..][1..] == s[i + 1..];
      }
    }
  }

  /** For every pattern and value, backslashes and other metacharacters included. */
  lemma MatchesWildcardMeans(value: string, pattern: string)
    ensures MatchesWildcard(value, pattern) <==> GlobLine(pattern, value)
  {
    var ts := [Begin] + (GlobTokens(pattern) + [End]);
    var re := ReplaceAll("^" + QuoteMeta(pattern) + "$", "\\*", ".*");
    assert "^" + QuoteMeta(pattern) + "$" == ['^'] + (QuoteMeta(pattern) + "$");
    CharIsCopied('^', QuoteMeta(pattern) + "$");
    QuotingSeparatesStars(pattern);
    TargetParses(pattern);
    assert re == ['^'] + Target(pattern) && re[1..] == Target(pattern);
    assert Parse(re) == Some(ts);
    assert ts[1..] == GlobTokens(pattern) + [End];
    assert value[0..] == value;
    TokensMatch(pattern, value, 0);
    assert MatchString(re, value) <==> MatchAt(ts, value, 0);
  }

  lemma {:induction false} OneLineGlob(p: string, v: string)
    requires OneLine(v)
    ensures GlobLine(p, v) <==> Glob(p, v)
    decreases |p|
  {
    if p != [] {
      if p[0] == '*' {
        forall k | 0 <= k <= |v| ensures OneLine(v[..k]) && (GlobLine(p[1..], v[k..]) <==> Glob(p[1..], v[k..])) {
          OneLineGlob(p[1..], v[k..]);
        }
      } else if v != [] {
        OneLineGlob(p[1..], v[1..]);
      }
    }
  }

  /** On values without newlines matchesWildcard is the plain wildcard. */
  lemma MatchesWildcardOnOneLine(value: string, pattern: string)
    requires OneLine(value)
    ensures MatchesWildcard(value, pattern) <==> Glob(pattern, value)
  {
    MatchesWildcardMeans(value, pattern);
    OneLineGlob(pattern, value);
  }

  // ---- When the regular expression and the wildcard part ways: newlines --------------------------------

  function Newlines(s: string): nat {
    if s == [] then 0 else (if s[0] == '\n' then 1 else 0) + Newlines(s[1..])
  }

  // The characters that a pattern requires.
  function Lits(p: string): string {
    if p == [] then [] else if p[0] == '*' then Lits(p[1..]) else [p[0]] + Lits(p[1..])
  }

  function StarsAsNewlines(p: string): string {
    if p == [] then [] else [if p[0] == '*' then '\n' else p[0]] + StarsAsNewlines(p[1..])
  }

  lemma {:induction false} NoNewlineNone(s: string)
    requires OneLine(s)
    ensures Newlines(s) == 0
  {
    if s != [] {
      NoNewlineNone(s[1..]);
    }
  }

  lemma {:induction false} NewlinesSplit(a: string, b: string)
    ensures Newlines(a + b) == Newlines(a) + Newlines(b)
  {
    if a == [] {
      assert a + b == b;
    } else {
      NewlinesSplit(a[1..], b);
      assert (a + b)[1..] == a[1..] + b;
    }
  }

  lemma {:induction false} OneLineKeepsNewlines(p: string, v: string)
    requires GlobLine(p, v)
    ensures Newlines(v) == Newlines(Lits(p))
  {
    if p != [] {
      if p[0] == '*' {
        var k :| 0 <= k <= |v| && OneLine(v[..k]) && GlobLine(p[1..], v[k..]);
        OneLineKeepsNewlines(p[1..], v[k..]);
        assert v == v[..k] + v[k..];
        NewlinesSplit(v[..k], v[k..]);
        NoNewlineNone(v[..k]);
        assert Lits(p) == Lits(p[1..]);
      } else {
        OneLineKeepsNewlines(p[1..], v[1..]);
        assert Lits(p)[1..] == Lits(p[1..]);
      }
    }
  }

  lemma {:induction false} StarsTakeNewlines(p: string)
    ensures Glob(p, StarsAsNewlines(p))
    ensures '*' in p ==> Newlines(StarsAsNewlines(p)) > Newlines(Lits(p))
    ensures Newlines(StarsAsNewlines(p)) >= Newlines(Lits(p))
  {
    if p != [] {
      StarsTakeNewlines(p[1..]);
      assert StarsAsNewlines(p)[1..] == StarsAsNewlines(p[1..]);
      if p[0] == '*' {
        assert Lits(p) == Lits(p[1..]);
      } else {
        assert Lits(p)[1..] == Lits(p[1..]);
      }
    }
  }

  lemma {:induction false} NoStarIsOneLine(p: string, v: string)
    requires '*' !in p
    ensures GlobLine(p, v) <==> Glob(p, v)
  {
    if p != [] && v != [] {
      NoStarIsOneLine(p[1..], v[1..]);
    }
  }

  /** matchesWildcard is the plain wildcard on every value exactly if the pattern has no star at all. */
  lemma WildcardOnAllValues(p: string)
    ensures (forall v :: MatchesWildcard(v, p) <==> Glob(p, v)) <==> '*' !in p
  {
    if '*' in p {
      var v := StarsAsNewlines(p);
      StarsTakeNewlines(p);
      MatchesWildcardMeans(v, p);
      if GlobLine(p, v) {
        OneLineKeepsNewlines(p, v);
      }
      assert Glob(p, v) && !MatchesWildcard(v, p);
    } else {
      forall v ensures MatchesWildcard(v, p) <==> Glob(p, v) {
        MatchesWildcardMeans(v, p);
        NoStarIsOneLine(p, v);
      }
    }
  }

  // ---- The LIKE rewrite ----------------------------------------------------------------------------------

  predicate IsLikeSpecial(c: char) {
    c == '%' || c == '_' || c == '\\'
  }

  predicate LikeFree(p: string) {
    forall c | c in p :: !IsLikeSpecial(c)
  }

  lemma ToLikeUnit(p: string)
    requires p != []
    ensures ToLike(p) == [if p[0] == '*' then '%' else p[0]] + ToLike(p[1..])
  {
    assert p[..1] == [p[0]];
  }

  lemma {:induction false} LikeIsGlob(p: string, v: string)
    requires LikeFree(p)
    ensures Like(ToLike(p), v) <==> Glob(p, v)
    decreases |p|
  {
    if p != [] {
      ToLikeUnit(p);
      assert ToLike(p)[1..] == ToLike(p[1..]);
      assert p[0] in p;
      if p[0] == '*' {
        forall k | 0 <= k <= |v| ensures Like(ToLike(p[1..]), v[k..]) <==> Glob(p[1..], v[k..]) {
          LikeIsGlob(p[1..], v[k..]);
        }
      } else if v != [] {
        LikeIsGlob(p[1..], v[1..]);
      }
    }
  }

  lemma {:induction false} GlobNeedsLits(p: string, v: string)
    requires Glob(p, v)
    ensures |v| >= |Lits(p)| && (|v| == |Lits(p)| ==> v == Lits(p))
  {
    if p != [] {
      if p[0] == '*' {
        var k :| 0 <= k <= |v| && Glob(p[1..], v[k..]);
        GlobNeedsLits(p[1..], v[k..]);
      } else {
        GlobNeedsLits(p[1..], v[1..]);
        assert v == [v[0]] + v[1..];
      }
    }
  }

  lemma {:induction false} LitsMatch(p: string)
    ensures Glob(p, Lits(p))
  {
    if p != [] {
      LitsMatch(p[1..]);
      if p[0] == '*' {
        assert Lits(p) == Lits(p[1..]) && Lits(p)[0..] == Lits(p);
      } else {
        assert Lits(p)[1..] == Lits(p[1..]);
      }
    }
  }

  // A shortest value that the rewritten pattern matches, unless it ends in a dangling escape.
  function Instance(p: string): Option<string>
    decreases |p|
  {
    if p == [] then Some([])
    else if p[0] == '*' || p[0] == '%' then Instance(p[1..])
    else if p[0] == '\\' then
      (if |p| == 1 then None else Prepend(if p[1] == '*' then '%' else p[1], Instance(p[2..])))
    else Prepend(if p[0] == '_' then 'x' else p[0], Instance(p[1..]))
  }

  function Prepend(c: char, w: Option<string>): Option<string> {
    match w case None => None case Some(s) => Some([c] + s)
  }

  lemma {:induction false} InstanceMatches(p: string)
    requires Instance(p).Some?
    ensures Like(ToLike(p), Instance(p).value)
    decreases |p|
  {
    if p != [] {
      ToLikeUnit(p);
      var q := ToLike(p);
      var w := Instance(p).value;
      assert q[1..] == ToLike(p[1..]);
      if p[0] == '*' || p[0] == '%' {
        InstanceMatches(p[1..]);
        assert w[0..] == w;
      } else if p[0] == '\\' {
        ToLikeUnit(p[1..]);
        assert q[2..] == ToLike(p[2..]) by { assert p[1..][1..] == p[2..]; }
        InstanceMatches(p[2..]);
        assert w[1..] == Instance(p[2..]).value;
      } else {
        InstanceMatches(p[1..]);
        assert w[1..] == Instance(p[1..]).value;
      }
    }
  }

  lemma {:induction false} InstanceIsShort(p: string)
    requires Instance(p).Some?
    ensures |Instance(p).value| <= |Lits(p)|
    ensures Instance(p).value == Lits(p) ==> LikeFree(p)
    decreases |p|
  {
    if p != [] {
      var w := Instance(p).value;
      if p[0] == '*' || p[0] == '%' {
        InstanceIsShort(p[1..]);
      } else if p[0] == '\\' {
        InstanceIsShort(p[2..]);
        assert p[1..][1..] == p[2..];
        assert Lits(p) == ['\\'] + Lits(p[1..]) && Lits(p[1..]) == if p[1] == '*' then Lits(p[2..]) else [p[1]] + Lits(p[2..]);
      } else {
        InstanceIsShort(p[1..]);
        assert w[1..] == Instance(p[1..]).value && Lits(p)[1..] == Lits(p[1..]);
      }
    }
  }

  lemma {:induction false} DanglingMatchesNothing(p: string, v: string)
    requires Instance(p).None?
    ensures !Like(ToLike(p), v)
    decreases |p|
  {
    ToLikeUnit(p);
    var q := ToLike(p);
    assert q[1..] == ToLike(p[1..]);
    if p[0] == '*' || p[0] == '%' {
      forall k | 0 <= k <= |v| ensures !Like(q[1..], v[k..]) {
        DanglingMatchesNothing(p[1..], v[k..]);
      }
    } else if p[0] == '\\' {
      if |p| > 1 && v != [] {
        ToLikeUnit(p[1..]);
        assert q[2..] == ToLike(p[2..]) by { assert p[1..][1..] == p[2..]; }
        DanglingMatchesNothing(p[2..], v[1..]);
      } else if |p| == 1 {
        assert q[1..] == [];
      }
    } else if v != [] {
      DanglingMatchesNothing(p[1..], v[1..]);
    }
  }

  lemma {:induction false} InstanceOnOneLine(p: string)
    requires OneLine(p) && Instance(p).Some?
    ensures OneLine(Instance(p).value)
    decreases |p|
  {
    if p != [] {
      if p[0] == '\\' {
        InstanceOnOneLine(p[2..]);
      } else {
        InstanceOnOneLine(p[1..]);
      }
    }
  }

  lemma {:induction false} LitsOnOneLine(p: string)
    requires OneLine(p)
    ensures OneLine(Lits(p))
  {
    if p != [] {
      LitsOnOneLine(p[1..]);
    }
  }

  // A value that tells the LIKE pattern from the wildcard.
  lemma Distinguished(p: string) returns (v: string)
    requires !LikeFree(p)
    ensures Like(ToLike(p), v) != Glob(p, v)
    ensures OneLine(p) ==> OneLine(v)
  {
    if Instance(p).None? {
      v := Lits(p);
      LitsMatch(p);
      DanglingMatchesNothing(p, v);
    } else {
      v := Instance(p).value;
      InstanceMatches(p);
      InstanceIsShort(p);
      if Glob(p, v) {
        GlobNeedsLits(p, v);
      }
    }
    if OneLine(p) {
      LitsOnOneLine(p);
      if Instance(p).Some? {
        InstanceOnOneLine(p);
      }
    }
  }

  /** The LIKE rewrite keeps the meaning of the pattern exactly if the pattern is free of "%", "_" and backslash. */
  lemma LikeAgreesIff(p: string)
    ensures (forall v :: Like(ToLike(p), v) <==> Glob(p, v)) <==> LikeFree(p)
  {
    if LikeFree(p) {
      forall v ensures Like(ToLike(p), v) <==> Glob(p, v) {
        LikeIsGlob(p, v);
      }
    } else {
      var v := Distinguished(p);
    }
  }

  /** The same for a pattern on one line and values on one line. */
  lemma LikeAgreesOnOneLineIff(p: string)
    requires OneLine(p)
    ensures (forall v | OneLine(v) :: Like(ToLike(p), v) <==> Glob(p, v)) <==> LikeFree(p)
  {
    if LikeFree(p) {
      forall v | OneLine(v) ensures Like(ToLike(p), v) <==> Glob(p, v) {
        LikeIsGlob(p, v);
      }
    } else {
      var v := Distinguished(p);
    }
  }
}

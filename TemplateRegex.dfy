/**
 * The endpoint matcher as ha_api_limiter/config.py:64-71 actually builds
 * it, character by character: `re.escape` on the template, the
 * substitution of `\{[^}]+\}` by `[^/]+` on the escaped text, the
 * replacement of every `\*` by `.*`, and the regex that Python reads from
 * `^...$`. The backslash that escaped a `{` survives the substitution, so
 * the regex reads a literal `[` followed by a start anchor: as soon as the
 * template has a `{` with a `}` somewhere after it, no path matches.
 * Without such a pair this matcher and `Template.Matches` agree.
 */
module TemplateRegex {
  import opened Strings
  import opened Template

  // ---------------------------------------------------------------------
  // The three text steps.
  // ---------------------------------------------------------------------

  /** The characters `re.escape` puts a backslash in front of (Python 3.7 and later). */
  predicate IsRegexSpecial(c: char) {
    c == '(' || c == ')' || c == '[' || c == ']' || c == '{' || c == '}' ||
    c == '?' || c == '*' || c == '+' || c == '-' || c == '|' || c == '^' ||
    c == '$' || c == '\\' || c == '.' || c == '&' || c == '~' || c == '#' ||
    c == ' ' || c == '\t' || c == '\n' || c == '\r' || c == '\U{B}' || c == '\U{C}'
  }

  function EscapeChar(c: char): string {
    if IsRegexSpecial(c) then ['\\', c] else [c]
  }

  /** `re.escape(endpoint)`. */
  function Escape(t: string): string {
    if t == [] then [] else EscapeChar(t[0]) + Escape(t[1..])
  }

  /**
   * `re.sub(r"\{[^}]+\}", r"[^/]+", e)`: scanning left to right, a `{`
   * whose first following `}` is at least two places on starts a match
   * that ends at that `}`; the match becomes `[^/]+` and the scan goes on
   * after it.
   */
  function SubstitutePlaceholders(e: string): string
    decreases |e|
  {
    if e == [] then []
    else if e[0] == '{' && 1 <= IndexOf(e[1..], '}') < |e| - 1 then
      "[^/]+" + SubstitutePlaceholders(e[IndexOf(e[1..], '}') + 2..])
    else [e[0]] + SubstitutePlaceholders(e[1..])
  }

  /** `e.replace(r"\*", ".*")`: each leftmost `\*` in turn becomes `.*`. */
  function ReplaceEscapedStars(e: string): string
    decreases |e|
  {
    if e == [] then []
    else if |e| >= 2 && e[0] == '\\' && e[1] == '*' then ".*" + ReplaceEscapedStars(e[2..])
    else [e[0]] + ReplaceEscapedStars(e[1..])
  }

  /** The regex text before the closing `$`, which `RegexFullMatch` accounts for. */
  function CompiledText(t: string): string {
    "^" + ReplaceEscapedStars(SubstitutePlaceholders(Escape(t)))
  }

  // ---------------------------------------------------------------------
  // Reading the regex text.
  // ---------------------------------------------------------------------

  /**
   * The regex constructs the compiled text can contain: a literal
   * character, `.*`, the start anchor `^`, and a character repeated by `+`.
   */
  datatype RegexUnit = RLit(c: char) | RAnyRun | RStart | RPlus(c: char)

  /**
   * How Python's regex parser reads the unit at the front of the compiled
   * text, and how many characters it takes: `^` is the anchor, `.*` a run,
   * a backslash makes the next character literal, any other character is
   * literal, and an atom followed by `+` repeats. Every `.`, `*` and `[`
   * the compile step emits unescaped is part of a `.*` or follows a
   * backslash, so those are the only readings needed.
   */
  function NextUnit(r: string): (next: (RegexUnit, nat))
    requires r != []
    ensures 0 < next.1 <= |r|
  {
    if r[0] == '^' then (RStart, 1)
    else if |r| >= 2 && r[0] == '.' && r[1] == '*' then (RAnyRun, 2)
    else
      var n := if |r| >= 2 && r[0] == '\\' then 2 else 1;
      if n < |r| && r[n] == '+' then (RPlus(r[n - 1]), n + 1)
      else (RLit(r[n - 1]), n)
  }

  /** The compiled text read unit by unit. */
  function ParseRegex(r: string): seq<RegexUnit>
    decreases |r|
  {
    if r == [] then []
    else
      var next := NextUnit(r);
      [next.0] + ParseRegex(r[next.1..])
  }

  /**
   * The units match all of `s`; `atStart` says whether nothing has been
   * consumed yet, the only place where `^` (without MULTILINE) matches.
   */
  predicate RegexMatch(us: seq<RegexUnit>, s: string, atStart: bool)
    decreases |us| + |s|
  {
    if us == [] then s == []
    else match us[0]
      case RLit(c) => s != [] && s[0] == c && RegexMatch(us[1..], s[1..], false)
      case RAnyRun => RegexMatch(us[1..], s, atStart) || (s != [] && s[0] != '\n' && RegexMatch(us, s[1..], false))
      case RPlus(c) => s != [] && s[0] == c && (RegexMatch(us[1..], s[1..], false) || RegexMatch(us, s[1..], false))
      case RStart => atStart && RegexMatch(us[1..], s, atStart)
  }

  /** `.match(p)` of the regex ending in `$`: all of `p`, or all of it but a final newline. */
  predicate RegexFullMatch(us: seq<RegexUnit>, p: string) {
    RegexMatch(us, p, true) || (|p| > 0 && p[|p| - 1] == '\n' && RegexMatch(us, p[..|p| - 1], true))
  }

  /** `_endpoint_patterns[k].match(p)` for the pattern compiled from `t`. */
  predicate MatchesAsWritten(t: string, p: string) {
    RegexFullMatch(ParseRegex(CompiledText(t)), p)
  }

  // ---------------------------------------------------------------------
  // Escaping.
  // ---------------------------------------------------------------------

  lemma {:induction false} EscapeAppend(a: string, b: string)
    ensures Escape(a + b) == Escape(a) + Escape(b)
    decreases |a|
  {
    if a == [] {
      assert a + b == b;
    } else {
      assert (a + b)[0] == a[0] && (a + b)[1..] == a[1..] + b;
      EscapeAppend(a[1..], b);
    }
  }

  /** Escaped text starts with a backslash or with a character that needs none. */
  lemma EscapeHead(x: string)
    ensures Escape(x) == [] || Escape(x)[0] == '\\' || !IsRegexSpecial(Escape(x)[0])
  {
  }

  /** Escaping adds only backslashes. */
  lemma {:induction false} EscapeKeeps(t: string, c: char)
    requires c != '\\'
    ensures c in Escape(t) <==> c in t
    decreases |t|
  {
    if t != [] {
      EscapeKeeps(t[1..], c);
      assert t == [t[0]] + t[1..];
    }
  }

  // ---------------------------------------------------------------------
  // The substitution.
  // ---------------------------------------------------------------------

  lemma {:induction false} SubstituteSkipsBraceFree(a: string, b: string)
    requires '{' !in a
    ensures SubstitutePlaceholders(a + b) == a + SubstitutePlaceholders(b)
    decreases |a|
  {
    if a == [] {
      assert a + b == b;
    } else {
      assert (a + b)[0] == a[0] && (a + b)[1..] == a[1..] + b;
      SubstituteSkipsBraceFree(a[1..], b);
    }
  }

  lemma {:induction false} SubstituteLoneBrace(e: string)
    requires '}' !in e
    ensures SubstitutePlaceholders(e) == e
    decreases |e|
  {
    if e != [] {
      SubstituteLoneBrace(e[1..]);
    }
  }

  /** Without a brace pair, no `}` comes after the first `{`. */
  lemma NoCloseAfterFirstBrace(t: string)
    requires !HasBracePair(t)
    ensures '}' !in t[IndexOf(t, '{')..]
  {
    var i := IndexOf(t, '{');
    forall k | i <= k < |t| ensures t[k] != '}' {
      assert t[i] == '{';
      assert !(t[i] == '{' && t[k] == '}') || k == i;
    }
  }

  /** Without a brace pair the substitution changes nothing. */
  lemma SubstituteWithoutPair(t: string)
    requires !HasBracePair(t)
    ensures SubstitutePlaceholders(Escape(t)) == Escape(t)
  {
    var i := IndexOf(t, '{');
    var u, w := t[..i], t[i..];
    assert t == u + w;
    EscapeAppend(u, w);
    EscapeKeeps(u, '{');
    NoCloseAfterFirstBrace(t);
    EscapeKeeps(w, '}');
    SubstituteSkipsBraceFree(Escape(u), Escape(w));
    SubstituteLoneBrace(Escape(w));
  }

  lemma FirstBraceHasClose(t: string)
    requires HasBracePair(t)
    ensures IndexOf(t, '{') < |t| && '}' in t[IndexOf(t, '{') + 1..]
  {
    var i, j :| 0 <= i < j < |t| && t[i] == '{' && t[j] == '}';
    var k := IndexOf(t, '{');
    assert k <= i;
    assert t[k + 1..][j - k - 1] == '}';
  }

  lemma BeforeIndexOf(t: string, c: char)
    ensures c !in t[..IndexOf(t, c)]
  {
    var k := IndexOf(t, c);
    forall m | 0 <= m < k ensures t[..k][m] != c {
      assert t[..k][m] == t[m];
    }
  }

  lemma SplitAround(t: string, k: nat)
    requires k < |t|
    ensures t == t[..k] + ([t[k]] + t[k + 1..])
  {
    assert t[k..] == [t[k]] + t[k + 1..];
    assert t == t[..k] + t[k..];
  }

  /** The first `{` of a template with a brace pair, and the text after it, which holds a `}`. */
  lemma FirstBraceSplit(t: string) returns (u: string, w: string)
    requires HasBracePair(t)
    ensures '{' !in u && '}' in w && t == u + ("{" + w)
  {
    FirstBraceHasClose(t);
    BeforeIndexOf(t, '{');
    var k := IndexOf(t, '{');
    SplitAround(t, k);
    u, w := t[..k], t[k + 1..];
    assert [t[k]] == "{";
  }

  lemma EscapeAroundBrace(u: string, w: string)
    ensures Escape(u + ("{" + w)) == Escape(u) + ("\\" + ("{" + Escape(w)))
  {
    EscapeAppend(u, "{" + w);
    assert Escape("{" + w) == EscapeChar('{') + Escape(w) by {
      assert ("{" + w)[0] == '{' && ("{" + w)[1..] == w;
    }
    assert EscapeChar('{') == "\\" + "{";
    AppendAssoc("\\", "{", Escape(w));
  }

  /** The escaped `{` and the run up to the next escaped `}` become `\[^/]+`. */
  lemma SubstituteAtBrace(ew: string) returns (x: string)
    requires '}' in ew && ew[0] != '}'
    ensures SubstitutePlaceholders("\\" + ("{" + ew)) == "\\" + ("[^/]+" + x)
  {
    var e := "{" + ew;
    var k := IndexOf(ew, '}');
    x := SubstitutePlaceholders(e[k + 2..]);
    assert SubstitutePlaceholders(e) == "[^/]+" + x by {
      assert e[0] == '{' && e[1..] == ew;
      assert 1 <= k < |e| - 1;
    }
    assert SubstitutePlaceholders("\\" + e) == "\\" + SubstitutePlaceholders(e) by {
      assert ("\\" + e)[0] == '\\' && ("\\" + e)[1..] == e;
    }
  }

  /** With a brace pair, the escape before the first `{` is left in front of `[^/]+`. */
  lemma SubstituteWithPair(t: string) returns (u: string, x: string)
    requires HasBracePair(t)
    ensures SubstitutePlaceholders(Escape(t)) == Escape(u) + ("\\" + ("[^/]+" + x))
  {
    var w;
    u, w := FirstBraceSplit(t);
    EscapeAroundBrace(u, w);
    EscapeKeeps(u, '{');
    SubstituteSkipsBraceFree(Escape(u), "\\" + ("{" + Escape(w)));
    EscapeKeeps(w, '}');
    EscapeHead(w);
    x := SubstituteAtBrace(Escape(w));
  }

  // ---------------------------------------------------------------------
  // The star replacement.
  // ---------------------------------------------------------------------

  lemma {:induction false} ReplaceAppend(a: string, b: string)
    requires a == [] || b == [] || a[|a| - 1] != '\\' || b[0] != '*'
    ensures ReplaceEscapedStars(a + b) == ReplaceEscapedStars(a) + ReplaceEscapedStars(b)
    decreases |a|
  {
    if a == [] {
      assert a + b == b;
    } else {
      var ab := a + b;
      if |a| >= 2 && a[0] == '\\' && a[1] == '*' {
        assert ab[0] == '\\' && ab[1] == '*' && ab[2..] == a[2..] + b;
        assert a[2..] == [] || a[2..][|a[2..]| - 1] == a[|a| - 1];
        ReplaceAppend(a[2..], b);
        AppendAssoc(".*", ReplaceEscapedStars(a[2..]), ReplaceEscapedStars(b));
      } else {
        assert ab[0] == a[0] && ab[1..] == a[1..] + b;
        assert !(|ab| >= 2 && ab[0] == '\\' && ab[1] == '*') by {
          if |a| >= 2 {
            assert ab[1] == a[1];
          } else if b != [] {
            assert ab[1] == b[0];
          }
        }
        assert a[1..] == [] || a[1..][|a[1..]| - 1] == a[|a| - 1];
        ReplaceAppend(a[1..], b);
        AppendAssoc([a[0]], ReplaceEscapedStars(a[1..]), ReplaceEscapedStars(b));
      }
    }
  }

  lemma {:induction false} ReplaceWithoutStar(a: string)
    requires '*' !in a
    ensures ReplaceEscapedStars(a) == a
    decreases |a|
  {
    if a != [] {
      ReplaceWithoutStar(a[1..]);
    }
  }

  /** What each template character becomes once escaped and its `\*` replaced. */
  function UnitText(c: char): string {
    if c == '*' then ".*" else EscapeChar(c)
  }

  function UnitsText(t: string): string {
    if t == [] then [] else UnitText(t[0]) + UnitsText(t[1..])
  }

  lemma UnitsTextHead(t: string)
    ensures UnitsText(t) == [] || UnitsText(t)[0] != '+'
  {
  }

  /** The replacement turns exactly the escaped stars into `.*`. */
  lemma {:induction false} ReplaceOfEscape(t: string)
    ensures ReplaceEscapedStars(Escape(t)) == UnitsText(t)
    decreases |t|
  {
    if t != [] {
      var c, rest := t[0], Escape(t[1..]);
      ReplaceOfEscape(t[1..]);
      if c == '*' {
        var e := "\\*" + rest;
        assert e[2..] == rest;
      } else {
        EscapeHead(t[1..]);
        ReplaceAppend(EscapeChar(c), rest);
        ReplaceWithoutStar(EscapeChar(c));
      }
    }
  }

  // ---------------------------------------------------------------------
  // Parsing the replaced text.
  // ---------------------------------------------------------------------

  function CharUnit(c: char): RegexUnit {
    if c == '*' then RAnyRun else RLit(c)
  }

  function CharUnits(t: string): (us: seq<RegexUnit>)
    ensures |us| == |t|
  {
    if t == [] then [] else [CharUnit(t[0])] + CharUnits(t[1..])
  }

  lemma ParseUnitStep(c: char, w: string)
    requires w == [] || w[0] != '+'
    ensures ParseRegex(UnitText(c) + w) == [CharUnit(c)] + ParseRegex(w)
  {
    var r := UnitText(c) + w;
    if c == '*' {
      assert r[2..] == w;
    } else if IsRegexSpecial(c) {
      assert r[0] == '\\' && r[1] == c && r[2..] == w;
    } else {
      assert r[0] == c && r[1..] == w;
    }
  }

  lemma ConsAppend<T>(a: seq<T>, u: T, tail: seq<T>, rest: seq<T>)
    requires a == [u] + (tail + rest)
    ensures a == ([u] + tail) + rest
  {
  }

  lemma UnitsTextStep(t: string, v: string)
    requires t != []
    ensures UnitsText(t) + v == UnitText(t[0]) + (UnitsText(t[1..]) + v)
  {
  }

  lemma ParseUnitsCons(t: string, v: string)
    requires t != [] && (v == [] || v[0] != '+')
    requires ParseRegex(UnitsText(t[1..]) + v) == CharUnits(t[1..]) + ParseRegex(v)
    ensures ParseRegex(UnitsText(t) + v) == CharUnits(t) + ParseRegex(v)
  {
    var w := UnitsText(t[1..]) + v;
    UnitsTextStep(t, v);
    UnitsTextHead(t[1..]);
    ParseUnitStep(t[0], w);
    ConsAppend(ParseRegex(UnitText(t[0]) + w), CharUnit(t[0]), CharUnits(t[1..]), ParseRegex(v));
  }

  /** The replaced text reads back as one unit per template character. */
  lemma {:induction false} ParseUnits(t: string, v: string)
    requires v == [] || v[0] != '+'
    ensures ParseRegex(UnitsText(t) + v) == CharUnits(t) + ParseRegex(v)
    decreases |t|
  {
    if t == [] {
      assert UnitsText(t) + v == v;
      assert CharUnits(t) + ParseRegex(v) == ParseRegex(v);
    } else {
      ParseUnits(t[1..], v);
      ParseUnitsCons(t, v);
    }
  }

  // ---------------------------------------------------------------------
  // Matching.
  // ---------------------------------------------------------------------

  function ToUnits(ts: seq<Token>): (us: seq<RegexUnit>)
    requires Param !in ts
    ensures |us| == |ts|
  {
    if ts == [] then []
    else [if ts[0] == Star then RAnyRun else RLit(ts[0].c)] + ToUnits(ts[1..])
  }

  /** Literals and stars read as regex units match what the tokens match. */
  lemma {:induction false} RegexOfTokens(ts: seq<Token>, s: string, b: bool)
    requires Param !in ts
    ensures RegexMatch(ToUnits(ts), s, b) == TokMatch(ts, s)
    decreases |ts| + |s|
  {
    if ts != [] {
      var us := ToUnits(ts);
      assert us[1..] == ToUnits(ts[1..]);
      match ts[0]
      case Lit(c) =>
        if s != [] {
          RegexOfTokens(ts[1..], s[1..], false);
        }
      case Star =>
        RegexOfTokens(ts[1..], s, b);
        if s != [] {
          RegexOfTokens(ts, s[1..], false);
        }
    }
  }

  lemma {:induction false} TokensAsCharUnits(t: string)
    requires Param !in Tokenize(t)
    ensures ToUnits(Tokenize(t)) == CharUnits(t)
    decreases |t|
  {
    if t != [] {
      var ts := Tokenize(t);
      assert ts == [if t[0] == '*' then Star else Lit(t[0])] + Tokenize(t[1..]);
      assert ts[1..] == Tokenize(t[1..]);
      TokensAsCharUnits(t[1..]);
    }
  }

  /** A start anchor right after a literal can never be passed. */
  lemma {:induction false} StartAfterLitNeverMatches(us: seq<RegexUnit>, s: string, b: bool, j: nat)
    requires j + 1 < |us| && us[j].RLit? && us[j + 1] == RStart
    ensures !RegexMatch(us, s, b)
    decreases |us| + |s|
  {
    if j == 0 {
      assert us[1..][0] == RStart;
    } else {
      assert us[1..][j - 1] == us[j] && us[1..][j] == us[j + 1];
      StartAfterLitNeverMatches(us[1..], s, b, j - 1);
      if s != [] {
        StartAfterLitNeverMatches(us[1..], s[1..], false, j - 1);
        StartAfterLitNeverMatches(us, s[1..], false, j);
      }
    }
  }

  // ---------------------------------------------------------------------
  // The compiled matcher.
  // ---------------------------------------------------------------------

  lemma ParsedWithoutPair(t: string)
    requires !HasBracePair(t)
    ensures ParseRegex(CompiledText(t)) == [RStart] + CharUnits(t)
  {
    SubstituteWithoutPair(t);
    ReplaceOfEscape(t);
    var r := CompiledText(t);
    assert r[1..] == UnitsText(t) + [];
    ParseUnits(t, []);
  }

  /** After the star replacement, the text before the broken class is the escaped first part. */
  /** The star replacement leaves the backslash and `[^/]+` as they are. */
  lemma ReplaceBrokenClass(x: string)
    ensures ReplaceEscapedStars("\\" + ("[^/]+" + x)) == "\\" + ("[^/]+" + ReplaceEscapedStars(x))
  {
    var v := "[^/]+" + x;
    assert v[0] == '[';
    ReplaceAppend("\\", v);
    ReplaceWithoutStar("\\");
    assert "[^/]+"[4] == '+';
    ReplaceAppend("[^/]+", x);
    assert '*' !in "[^/]+";
    ReplaceWithoutStar("[^/]+");
  }

  lemma ReplacedWithPair(t: string) returns (u: string, y: string)
    requires HasBracePair(t)
    ensures ReplaceEscapedStars(SubstitutePlaceholders(Escape(t))) == UnitsText(u) + ("\\" + ("[^/]+" + y))
  {
    var x;
    u, x := SubstituteWithPair(t);
    assert ("\\" + ("[^/]+" + x))[0] == '\\';
    ReplaceAppend(Escape(u), "\\" + ("[^/]+" + x));
    ReplaceOfEscape(u);
    ReplaceBrokenClass(x);
    y := ReplaceEscapedStars(x);
  }

  /** A backslash followed by `[^/]+` reads as a literal `[` and a start anchor. */
  lemma ParseBrokenClass(y: string) returns (post: seq<RegexUnit>)
    ensures ParseRegex("\\" + ("[^/]+" + y)) == [RLit('['), RStart] + post
  {
    var rv := "\\" + ("[^/]+" + y);
    assert rv[0] == '\\' && rv[1] == '[' && rv[2] == '^';
    assert ParseRegex(rv) == [RLit('[')] + ParseRegex(rv[2..]);
    post := ParseRegex(rv[2..][1..]);
  }

  lemma ParsedWithPair(t: string) returns (pre: seq<RegexUnit>, post: seq<RegexUnit>)
    requires HasBracePair(t)
    ensures ParseRegex(CompiledText(t)) == pre + ([RLit('['), RStart] + post)
  {
    var u, y := ReplacedWithPair(t);
    var rv := "\\" + ("[^/]+" + y);
    var r := CompiledText(t);
    assert r[0] == '^' && r[1..] == UnitsText(u) + rv;
    ParseUnits(u, rv);
    post := ParseBrokenClass(y);
    pre := [RStart] + CharUnits(u);
  }

  /** As written, a template with a `{` followed later by a `}` admits no path at all. */
  lemma BracePairMatchesNothingAsWritten(t: string, p: string)
    requires HasBracePair(t)
    ensures !MatchesAsWritten(t, p)
  {
    var pre, post := ParsedWithPair(t);
    var us := pre + ([RLit('['), RStart] + post);
    assert us[|pre|] == RLit('[') && us[|pre| + 1] == RStart;
    StartAfterLitNeverMatches(us, p, true, |pre|);
    if |p| > 0 {
      StartAfterLitNeverMatches(us, p[..|p| - 1], true, |pre|);
    }
  }

  /** Without a brace pair the compiled matcher is the intended one. */
  lemma AsWrittenAgreesWithoutBracePair(t: string, p: string)
    requires !HasBracePair(t)
    ensures MatchesAsWritten(t, p) <==> Matches(t, p)
  {
    ParsedWithoutPair(t);
    if Param in Tokenize(t) {
      ParamNeedsBracePair(t);
    }
    TokensAsCharUnits(t);
    var us := [RStart] + CharUnits(t);
    assert us[1..] == ToUnits(Tokenize(t));
    RegexOfTokens(Tokenize(t), p, true);
    if |p| > 0 {
      RegexOfTokens(Tokenize(t), p[..|p| - 1], true);
    }
  }

  /** The matcher config.py:64-71 builds: the intended one, except that a brace pair makes it match nothing. */
  lemma MatchesAsWrittenCharacterized(t: string, p: string)
    ensures MatchesAsWritten(t, p) <==> !HasBracePair(t) && Matches(t, p)
  {
    if HasBracePair(t) {
      BracePairMatchesNothingAsWritten(t, p);
    } else {
      AsWrittenAgreesWithoutBracePair(t, p);
    }
  }

  /** As written, a template with a placeholder admits no path at all. */
  lemma PlaceholderTemplateMatchesNothingAsWritten(t: string, p: string)
    requires Param in Tokenize(t)
    ensures !MatchesAsWritten(t, p)
  {
    ParamNeedsBracePair(t);
    BracePairMatchesNothingAsWritten(t, p);
  }
}

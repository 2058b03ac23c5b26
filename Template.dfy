/**
 * Endpoint templates of the whitelist (`/api/states/{entity_id}`, `/api/history` followed by `*`)
 * and the anchored matchers that `_compile_endpoint_patterns`
 * builds from them (ha_api_limiter/config.py:65-72).
 *
 * A template compiles to a token list: a `{name}` placeholder (the regex
 * `\{[^}]+\}`: an opening brace, at least one character other than `}`, a
 * closing brace) becomes `Param`, which stands for `[^/]+`; `*` becomes
 * `Star`, which stands for `.*` (any run of characters other than a
 * newline); every other character matches itself. The compiled regex is
 * `^...$`, and Python's `$` also accepts a single final newline.
 */
module Template {
  import opened Strings

  datatype Token = Lit(c: char) | Param | Star

  /** The compiled form of a template, with placeholders meaning `[^/]+`. */
  function Tokenize(t: string): (ts: seq<Token>)
    decreases |t|
  {
    if t == [] then []
    else if t[0] == '{' && 1 <= IndexOf(t[1..], '}') < |t| - 1 then
      [Param] + Tokenize(t[IndexOf(t[1..], '}') + 2..])
    else if t[0] == '*' then [Star] + Tokenize(t[1..])
    else [Lit(t[0])] + Tokenize(t[1..])
  }

  /** The tokens match all of `s`. */
  predicate TokMatch(ts: seq<Token>, s: string)
    decreases |ts| + |s|
  {
    if ts == [] then s == []
    else match ts[0]
      case Lit(c) => s != [] && s[0] == c && TokMatch(ts[1..], s[1..])
      case Star => TokMatch(ts[1..], s) || (s != [] && s[0] != '\n' && TokMatch(ts, s[1..]))
      case Param => s != [] && s[0] != '/' && (TokMatch(ts[1..], s[1..]) || TokMatch(ts, s[1..]))
  }

  /** `re.compile(f"^{pattern}$").match(p)`: all of `p`, or all of it but a final newline. */
  predicate FullMatch(ts: seq<Token>, p: string) {
    TokMatch(ts, p) || (|p| > 0 && p[|p| - 1] == '\n' && TokMatch(ts, p[..|p| - 1]))
  }

  /** The template admits the path, placeholders taken as the comment at config.py:69 intends. */
  predicate Matches(t: string, p: string) {
    FullMatch(Tokenize(t), p)
  }

  // ---------------------------------------------------------------------
  // The matcher as config.py:70 actually builds it (module TemplateRegex)
  // matches nothing once a `{` has a `}` somewhere after it; a template
  // with a placeholder always has such a pair.
  // ---------------------------------------------------------------------

  predicate HasBracePair(t: string) {
    exists i, j | 0 <= i < j < |t| :: t[i] == '{' && t[j] == '}'
  }

  /** Every template that has a placeholder has a brace pair. */
  lemma {:induction false} ParamNeedsBracePair(t: string)
    requires Param in Tokenize(t)
    ensures HasBracePair(t)
    decreases |t|
  {
    if t[0] == '{' && 1 <= IndexOf(t[1..], '}') < |t| - 1 {
      var j := IndexOf(t[1..], '}') + 1;
      assert t[j] == '}';
    } else {
      var rest := t[1..];
      assert Tokenize(t) == [if t[0] == '*' then Star else Lit(t[0])] + Tokenize(rest);
      ParamNeedsBracePair(rest);
      var i, j :| 0 <= i < j < |rest| && rest[i] == '{' && rest[j] == '}';
      assert t[i + 1] == '{' && t[j + 1] == '}';
    }
  }

  // ---------------------------------------------------------------------
  // Building blocks: literal runs, placeholders, stars.
  // ---------------------------------------------------------------------

  function Lits(s: string): (ts: seq<Token>)
    ensures |ts| == |s|
    ensures forall i | 0 <= i < |s| :: ts[i] == Lit(s[i])
  {
    if s == [] then [] else [Lit(s[0])] + Lits(s[1..])
  }

  /** Text with none of the characters that compile specially. */
  predicate IsPlain(s: string) {
    forall i | 0 <= i < |s| :: s[i] != '{' && s[i] != '*'
  }

  lemma {:induction false} TokenizePlain(s: string, rest: string)
    requires IsPlain(s)
    ensures Tokenize(s + rest) == Lits(s) + Tokenize(rest)
    decreases |s|
  {
    if s != [] {
      var t := s + rest;
      assert t[0] == s[0] && t[1..] == s[1..] + rest;
      assert Tokenize(t) == [Lit(s[0])] + Tokenize(s[1..] + rest);
      TokenizePlain(s[1..], rest);
    } else {
      assert s + rest == rest;
    }
  }

  lemma TokenizePlaceholder(name: string, rest: string)
    requires name != [] && '}' !in name
    ensures Tokenize("{" + name + "}" + rest) == [Param] + Tokenize(rest)
  {
    var t := "{" + name + "}" + rest;
    assert t != [] && t[0] == '{';
    assert t[1..] == name + "}" + rest;
    IndexOfPast(name, '}', rest);
    assert "}" == ['}'];
    assert 1 <= IndexOf(t[1..], '}') < |t| - 1;
    assert t[|name| + 2..] == rest;
  }

  /** A literal run matches exactly itself at the front of the text. */
  lemma {:induction false} LitsPrefix(s: string, ts: seq<Token>, p: string)
    ensures TokMatch(Lits(s) + ts, p) <==> StartsWith(p, s) && TokMatch(ts, p[|s|..])
    decreases |s|
  {
    if s != [] {
      assert (Lits(s) + ts)[0] == Lit(s[0]);
      assert (Lits(s) + ts)[1..] == Lits(s[1..]) + ts;
      if p != [] {
        LitsPrefix(s[1..], ts, p[1..]);
        if |s| <= |p| {
          assert p[..|s|] == [p[0]] + p[1..][..|s| - 1];
          assert p[1..][|s| - 1..] == p[|s|..];
        }
      }
    } else {
      assert Lits(s) + ts == ts;
    }
  }

  /** A lone `*` matches exactly the texts without a newline, slashes included. */
  lemma {:induction false} StarMatchesLine(s: string)
    ensures TokMatch([Star], s) <==> '\n' !in s
    decreases |s|
  {
    if s != [] {
      StarMatchesLine(s[1..]);
      assert s == [s[0]] + s[1..];
    }
  }

  /** Template text with no placeholder and no `*` admits itself, and itself plus a final newline. */
  lemma TokenizeOfPlain(t: string)
    requires IsPlain(t)
    ensures Tokenize(t) == Lits(t)
  {
    TokenizePlain(t, "");
    assert t + "" == t;
    assert Lits(t) + [] == Lits(t);
  }

  lemma LitsMatchExactly(t: string, p: string)
    ensures TokMatch(Lits(t), p) <==> p == t
  {
    assert Lits(t) + [] == Lits(t);
    LitsPrefix(t, [], p);
  }

  /**
   * A `{` that has a `}` somewhere after it has no `/` before the first
   * such `}`, so every run a placeholder stands for is free of `/`. A `{`
   * with no `}` after it is an ordinary character and may precede a `/`.
   */
  predicate BracedRunsSlashFree(t: string) {
    forall i, j | 0 <= i < j < |t| && t[i] == '{' && t[j] == '/' ::
      (exists k | i < k < j :: t[k] == '}') || (forall k | j < k < |t| :: t[k] != '}')
  }

  lemma BracedRunsSlashFreeTail(t: string, n: nat)
    requires n <= |t| && BracedRunsSlashFree(t)
    ensures BracedRunsSlashFree(t[n..])
  {
    var u := t[n..];
    forall i, j | 0 <= i < j < |u| && u[i] == '{' && u[j] == '/'
      ensures (exists k | i < k < j :: u[k] == '}') || (forall k | j < k < |u| :: u[k] != '}')
    {
      assert t[i + n] == '{' && t[j + n] == '/';
      if exists k | i + n < k < j + n :: t[k] == '}' {
        var k :| i + n < k < j + n && t[k] == '}';
        assert u[k - n] == '}';
      } else {
        forall k | j < k < |u| ensures u[k] != '}' {
          assert u[k] == t[k + n];
        }
      }
    }
  }

  /** A placeholder matches any non-empty run without `/`, whatever follows it. */
  lemma {:induction false} ParamConsumes(s: string, ts: seq<Token>, rest: string)
    requires s != [] && '/' !in s && TokMatch(ts, rest)
    ensures TokMatch([Param] + ts, s + rest)
    decreases |s|
  {
    var u := s + rest;
    assert u[0] == s[0] && u[1..] == s[1..] + rest;
    assert ([Param] + ts)[1..] == ts;
    if |s| == 1 {
      assert u[1..] == rest;
    } else {
      ParamConsumes(s[1..], ts, rest);
    }
  }

  /**
   * A plain prefix followed by one placeholder admits the prefix followed
   * by any non-empty run without `/`, newlines included.
   */
  lemma PrefixParamAdmits(prefix: string, name: string, x: string)
    requires IsPlain(prefix) && name != [] && '}' !in name
    requires x != [] && '/' !in x
    ensures Matches(prefix + ("{" + name + "}"), prefix + x)
  {
    var braced := "{" + name + "}";
    TokenizePlaceholder(name, "");
    assert braced + "" == braced;
    assert Tokenize(braced) == [Param] + Tokenize("") == [Param];
    TokenizePlain(prefix, braced);
    assert Tokenize(prefix + braced) == Lits(prefix) + [Param];
    assert x + [] == x && [Param] + [] == [Param];
    ParamConsumes(x, [], []);
    LitsPrefix(prefix, [Param], prefix + x);
    assert (prefix + x)[|prefix|..] == x;
    assert TokMatch(Tokenize(prefix + braced), prefix + x);
  }

  /** A placeholder never takes a `/`. */
  lemma {:induction false} ParamRunHasNoSlash(s: string)
    requires TokMatch([Param], s)
    ensures '/' !in s
    decreases |s|
  {
    assert [Param][1..] == [];
    if |s| > 1 {
      ParamRunHasNoSlash(s[1..]);
      assert s == [s[0]] + s[1..];
    }
  }

  /** The same template refuses the prefix followed by a run that holds a `/`. */
  lemma PrefixParamRefusesSlash(prefix: string, name: string, x: string)
    requires IsPlain(prefix) && name != [] && '}' !in name
    requires '/' in x && '\n' !in x
    ensures !Matches(prefix + ("{" + name + "}"), prefix + x)
  {
    var braced := "{" + name + "}";
    TokenizePlaceholder(name, "");
    assert braced + "" == braced;
    assert Tokenize(braced) == [Param] + Tokenize("") == [Param];
    TokenizePlain(prefix, braced);
    LitsPrefix(prefix, [Param], prefix + x);
    assert (prefix + x)[|prefix|..] == x;
    if TokMatch([Param], x) {
      ParamRunHasNoSlash(x);
    }
    var p := prefix + x;
    assert p[|p| - 1] == x[|x| - 1] && x[|x| - 1] in x;
  }

  /** A template that admits the path without its final newline admits the path. */
  lemma AdmitsThroughBody(t: string, path: string)
    requires '\n' !in DollarBody(path) && Matches(t, DollarBody(path))
    ensures Matches(t, path)
  {
    var body := DollarBody(path);
    if |body| > 0 {
      assert body[|body| - 1] in body;
    }
  }

  /** The run from a `{` to the first `}` after it holds no `/`. */
  lemma BracedRunHasNoSlash(t: string, j: nat)
    requires j < |t| && t[0] == '{' && t[j] == '}' && BracedRunsSlashFree(t)
    requires forall k | 0 < k < j :: t[k] != '}'
    ensures '/' !in t[..j + 1]
  {
    forall m | 0 < m <= j ensures t[m] != '/' {
      if t[m] == '/' {
        assert false;
      }
    }
  }

  lemma ParamStepMatchesOwnText(t: string, j: nat)
    requires 1 < j < |t| && t[0] == '{' && t[j] == '}' && BracedRunsSlashFree(t)
    requires forall k | 0 < k < j :: t[k] != '}'
    requires TokMatch(Tokenize(t[j + 1..]), t[j + 1..])
    ensures TokMatch([Param] + Tokenize(t[j + 1..]), t)
  {
    BracedRunHasNoSlash(t, j);
    assert t == t[..j + 1] + t[j + 1..];
    ParamConsumes(t[..j + 1], Tokenize(t[j + 1..]), t[j + 1..]);
  }

  /** A template admits its own text, `{`, `}` and `*` included, unless a placeholder would span a `/`. */
  lemma {:induction false} TemplateMatchesOwnText(t: string)
    requires BracedRunsSlashFree(t)
    ensures TokMatch(Tokenize(t), t)
    decreases |t|
  {
    if t != [] {
      var j := IndexOf(t[1..], '}') + 1;
      if t[0] == '{' && 2 <= j < |t| {
        BracedRunsSlashFreeTail(t, j + 1);
        TemplateMatchesOwnText(t[j + 1..]);
        BraceStepMatchesOwnText(t, j);
      } else {
        BracedRunsSlashFreeTail(t, 1);
        TemplateMatchesOwnText(t[1..]);
        CharStepMatchesOwnText(t);
      }
    }
  }

  lemma BraceStepMatchesOwnText(t: string, j: nat)
    requires t != [] && j == IndexOf(t[1..], '}') + 1 && t[0] == '{' && 2 <= j < |t|
    requires BracedRunsSlashFree(t) && TokMatch(Tokenize(t[j + 1..]), t[j + 1..])
    ensures TokMatch(Tokenize(t), t)
  {
    assert Tokenize(t) == [Param] + Tokenize(t[j + 1..]);
    assert forall k | 0 < k < j :: t[k] == t[1..][k - 1];
    ParamStepMatchesOwnText(t, j);
  }

  lemma CharStepMatchesOwnText(t: string)
    requires t != [] && !(t[0] == '{' && 2 <= IndexOf(t[1..], '}') + 1 < |t|)
    requires TokMatch(Tokenize(t[1..]), t[1..])
    ensures TokMatch(Tokenize(t), t)
  {
    var ts := Tokenize(t);
    if t[0] == '*' {
      assert ts == [Star] + Tokenize(t[1..]);
      assert TokMatch(ts, t[1..]);
    } else {
      assert ts == [Lit(t[0])] + Tokenize(t[1..]);
    }
  }

  lemma LiteralTemplateMatchesItself(t: string, p: string)
    requires IsPlain(t)
    ensures Matches(t, p) <==> p == t || p == t + "\n"
  {
    TokenizeOfPlain(t);
    LitsMatchExactly(t, p);
    if |p| > 0 && p[|p| - 1] == '\n' {
      LitsMatchExactly(t, p[..|p| - 1]);
      assert p == p[..|p| - 1] + "\n";
    }
    if p == t + "\n" {
      assert p[..|p| - 1] == t;
    }
  }

  /** `<prefix>*` admits a newline-free path exactly when the path starts with the prefix. */
  lemma PrefixStarMatchesPrefix(prefix: string, p: string)
    requires IsPlain(prefix)
    requires '\n' !in p
    ensures Matches(prefix + "*", p) <==> StartsWith(p, prefix)
  {
    TokenizePlain(prefix, "*");
    assert Tokenize("*") == [Star];
    LitsPrefix(prefix, [Star], p);
    if StartsWith(p, prefix) {
      StarMatchesLine(p[|prefix|..]);
      assert forall i | |prefix| <= i < |p| :: p[i] == p[|prefix|..][i - |prefix|];
    }
    if |p| > 0 {
      assert p[|p| - 1] in p;
    }
  }

  // ---------------------------------------------------------------------
  // Segment-by-segment reading of templates made of literal segments and
  // `{name}` placeholders.
  // ---------------------------------------------------------------------

  datatype Segment = Fixed(text: string) | Placeholder(name: string)

  predicate WellFormedSegment(g: Segment) {
    match g
    case Fixed(text) => IsPlain(text) && '/' !in text
    case Placeholder(name) => name != [] && '}' !in name
  }

  /** The template text of one segment: the literal, or `{name}`. */
  function SegmentText(g: Segment): string {
    match g
    case Fixed(text) => text
    case Placeholder(name) => "{" + name + "}"
  }

  function SegmentToks(g: Segment): seq<Token> {
    match g
    case Fixed(text) => Lits(text)
    case Placeholder(_) => [Param]
  }

  /** The template text `/seg/seg/...`. */
  function Render(segs: seq<Segment>): string {
    if segs == [] then "" else "/" + SegmentText(segs[0]) + Render(segs[1..])
  }

  /** The path `/part/part/...`. */
  function Join(parts: seq<string>): string {
    if parts == [] then "" else "/" + parts[0] + Join(parts[1..])
  }

  /** Same segment count, equal literal segments, and a non-empty value for each placeholder. */
  predicate SegmentsAgree(segs: seq<Segment>, parts: seq<string>) {
    |segs| == |parts| &&
    forall i | 0 <= i < |segs| :: Agrees(segs[i], parts[i])
  }

  function SegmentTokens(segs: seq<Segment>): seq<Token> {
    if segs == [] then [] else [Lit('/')] + (SegmentToks(segs[0]) + SegmentTokens(segs[1..]))
  }

  lemma TokenizeSegment(g: Segment, rest: string)
    requires WellFormedSegment(g)
    ensures Tokenize("/" + SegmentText(g) + rest) == [Lit('/')] + (SegmentToks(g) + Tokenize(rest))
  {
    var t := "/" + SegmentText(g) + rest;
    assert t[0] == '/' && t[1..] == SegmentText(g) + rest;
    assert Tokenize(t) == [Lit('/')] + Tokenize(SegmentText(g) + rest);
    assert Tokenize(SegmentText(g) + rest) == SegmentToks(g) + Tokenize(rest) by {
      match g
      case Fixed(text) =>
        TokenizePlain(text, rest);
      case Placeholder(name) =>
        TokenizePlaceholder(name, rest);
    }
  }

  lemma {:induction false} TokenizeRender(segs: seq<Segment>)
    requires forall i | 0 <= i < |segs| :: WellFormedSegment(segs[i])
    ensures Tokenize(Render(segs)) == SegmentTokens(segs)
    decreases |segs|
  {
    if segs != [] {
      TokenizeRender(segs[1..]);
      TokenizeSegment(segs[0], Render(segs[1..]));
    }
  }

  predicate SlashHeaded(ts: seq<Token>) {
    ts == [] || ts[0] == Lit('/')
  }

  predicate SlashFree(parts: seq<string>) {
    forall i | 0 <= i < |parts| :: '/' !in parts[i]
  }

  lemma NoMatchBeforeSlash(ts: seq<Token>, s: string)
    requires SlashHeaded(ts)
    requires s != [] && s[0] != '/'
    ensures !TokMatch(ts, s)
  {
  }

  /** A placeholder takes the whole segment in front of the next `/` or the end, and nothing more. */
  lemma {:induction false} ParamTakesSegment(ts: seq<Token>, a: string, j: string)
    requires SlashHeaded(ts)
    requires '/' !in a
    requires j == [] || j[0] == '/'
    ensures TokMatch([Param] + ts, a + j) <==> a != [] && TokMatch(ts, j)
    decreases |a|
  {
    var pts := [Param] + ts;
    assert pts[1..] == ts;
    if a != [] {
      assert (a + j)[1..] == a[1..] + j;
      assert a[0] in a;
      ParamTakesSegment(ts, a[1..], j);
      if a[1..] != [] {
        assert a[1..][0] in a;
        NoMatchBeforeSlash(ts, a[1..] + j);
      } else {
        assert a[1..] + j == j;
      }
    }
  }

  /** A literal segment shorter than the path segment leaves a non-`/` character in front of the rest. */
  lemma FixedTooShort(ts: seq<Token>, text: string, a: string, j: string)
    requires SlashHeaded(ts)
    requires '/' !in a
    requires |text| < |a|
    ensures !TokMatch(ts, (a + j)[|text|..])
  {
    var r := (a + j)[|text|..];
    assert r[0] == a[|text|];
    assert a[|text|] in a;
    NoMatchBeforeSlash(ts, r);
  }

  /** A literal segment longer than the path segment would have to contain the next `/`. */
  lemma FixedTooLong(text: string, a: string, j: string)
    requires '/' !in text
    requires j == [] || j[0] == '/'
    requires |text| > |a|
    ensures !StartsWith(a + j, text)
  {
    if |text| <= |a + j| {
      assert (a + j)[..|text|][|a|] == j[0] == '/';
      assert text[|a|] in text;
    }
  }

  /** A literal segment must equal the path segment it faces. */
  lemma FixedTakesSegment(ts: seq<Token>, text: string, a: string, j: string)
    requires SlashHeaded(ts)
    requires '/' !in text && '/' !in a
    requires j == [] || j[0] == '/'
    ensures TokMatch(Lits(text) + ts, a + j) <==> a == text && TokMatch(ts, j)
  {
    LitsPrefix(text, ts, a + j);
    if |text| < |a| {
      FixedTooShort(ts, text, a, j);
    } else if |text| > |a| {
      FixedTooLong(text, a, j);
    } else {
      assert (a + j)[..|text|] == a;
      assert (a + j)[|text|..] == j;
    }
  }

  /** One segment of the template against one segment of the path. */
  predicate Agrees(g: Segment, part: string) {
    match g
    case Fixed(text) => part == text
    case Placeholder(_) => part != ""
  }

  lemma SegmentsAgreeCons(segs: seq<Segment>, parts: seq<string>)
    requires segs != [] && parts != []
    ensures SegmentsAgree(segs, parts) <==>
      Agrees(segs[0], parts[0]) && SegmentsAgree(segs[1..], parts[1..])
  {
    if Agrees(segs[0], parts[0]) && SegmentsAgree(segs[1..], parts[1..]) {
      forall i | 0 <= i < |segs| ensures Agrees(segs[i], parts[i]) {
        if i > 0 {
          assert segs[1..][i - 1] == segs[i] && parts[1..][i - 1] == parts[i];
        }
      }
    }
  }

  lemma SlashStep(ts: seq<Token>, s: string)
    ensures TokMatch([Lit('/')] + ts, "/" + s) <==> TokMatch(ts, s)
  {
    assert ([Lit('/')] + ts)[1..] == ts;
    assert ("/" + s)[1..] == s;
  }

  lemma SegmentToksTake(g: Segment, rest: seq<Token>, a: string, j: string)
    requires WellFormedSegment(g)
    requires SlashHeaded(rest)
    requires '/' !in a
    requires j == [] || j[0] == '/'
    ensures TokMatch(SegmentToks(g) + rest, a + j) <==> Agrees(g, a) && TokMatch(rest, j)
  {
    match g
    case Fixed(text) =>
      FixedTakesSegment(rest, text, a, j);
    case Placeholder(_) =>
      ParamTakesSegment(rest, a, j);
  }

  /** The first template segment against the first path segment. */
  lemma SegmentTokensStep(segs: seq<Segment>, parts: seq<string>)
    requires segs != [] && parts != []
    requires WellFormedSegment(segs[0])
    requires '/' !in parts[0]
    ensures TokMatch(SegmentTokens(segs), Join(parts)) <==>
      Agrees(segs[0], parts[0]) && TokMatch(SegmentTokens(segs[1..]), Join(parts[1..]))
  {
    var rest := SegmentTokens(segs[1..]);
    var j := Join(parts[1..]);
    StepShapes(segs, parts);
    SlashStep(SegmentToks(segs[0]) + rest, parts[0] + j);
    SegmentToksTake(segs[0], rest, parts[0], j);
  }

  /** Both sides split into a leading slash, the first segment, and the rest. */
  lemma StepShapes(segs: seq<Segment>, parts: seq<string>)
    requires segs != [] && parts != []
    ensures SlashHeaded(SegmentTokens(segs[1..]))
    ensures Join(parts[1..]) == [] || Join(parts[1..])[0] == '/'
    ensures SegmentTokens(segs) == [Lit('/')] + (SegmentToks(segs[0]) + SegmentTokens(segs[1..]))
    ensures Join(parts) == "/" + (parts[0] + Join(parts[1..]))
  {
    SegmentTokensHeaded(segs[1..]);
    JoinHeaded(parts[1..]);
    JoinUnfold(parts);
  }

  lemma JoinUnfold(parts: seq<string>)
    requires parts != []
    ensures Join(parts) == "/" + (parts[0] + Join(parts[1..]))
  {
    AppendAssoc("/", parts[0], Join(parts[1..]));
  }

  lemma SegmentTokensHeaded(segs: seq<Segment>)
    ensures SlashHeaded(SegmentTokens(segs))
  {
    if segs != [] {
      assert SegmentTokens(segs)[0] == Lit('/');
    }
  }

  lemma JoinHeaded(parts: seq<string>)
    ensures Join(parts) == [] || Join(parts)[0] == '/'
  {
    if parts != [] {
      JoinUnfold(parts);
    }
  }

  lemma {:induction false} SegmentTokensMatch(segs: seq<Segment>, parts: seq<string>)
    requires forall i | 0 <= i < |segs| :: WellFormedSegment(segs[i])
    requires SlashFree(parts)
    ensures TokMatch(SegmentTokens(segs), Join(parts)) <==> SegmentsAgree(segs, parts)
    decreases |segs|
  {
    if segs == [] {
      if parts != [] {
        assert Join(parts)[0] == '/';
      }
    } else if parts == [] {
      assert SegmentTokens(segs)[0] == Lit('/');
    } else {
      SegmentTokensMatch(segs[1..], parts[1..]);
      SegmentsAgreeCons(segs, parts);
      SegmentTokensStep(segs, parts);
    }
  }

  lemma {:induction false} JoinHasNoNewline(parts: seq<string>)
    requires forall i | 0 <= i < |parts| :: '\n' !in parts[i]
    ensures '\n' !in Join(parts)
    decreases |parts|
  {
    if parts != [] {
      JoinHasNoNewline(parts[1..]);
      assert '\n' !in parts[0];
    }
  }

  /**
   * A template of literal segments and placeholders admits a path exactly
   * when both have the same number of segments, the literal segments are
   * equal and every placeholder faces a non-empty segment.
   */
  lemma SegmentwiseMatching(segs: seq<Segment>, parts: seq<string>)
    requires forall i | 0 <= i < |segs| :: WellFormedSegment(segs[i])
    requires SlashFree(parts)
    requires forall i | 0 <= i < |parts| :: '\n' !in parts[i]
    ensures Matches(Render(segs), Join(parts)) <==> SegmentsAgree(segs, parts)
  {
    TokenizeRender(segs);
    SegmentTokensMatch(segs, parts);
    JoinHasNoNewline(parts);
    if |Join(parts)| > 0 {
      assert Join(parts)[|Join(parts)| - 1] in Join(parts);
    }
  }


  lemma RenderAppend(a: seq<Segment>, b: seq<Segment>)
    ensures Render(a + b) == Render(a) + Render(b)
  {
    if a != [] {
      assert (a + b)[0] == a[0] && (a + b)[1..] == a[1..] + b;
      RenderAppend(a[1..], b);
    } else {
      assert a + b == b;
    }
  }

  lemma JoinAppend(a: seq<string>, b: seq<string>)
    ensures Join(a + b) == Join(a) + Join(b)
  {
    if a != [] {
      assert (a + b)[0] == a[0] && (a + b)[1..] == a[1..] + b;
      JoinAppend(a[1..], b);
    } else {
      assert a + b == b;
    }
  }

  lemma RenderCons(g: Segment, segs: seq<Segment>)
    ensures Render([g] + segs) == "/" + SegmentText(g) + Render(segs)
  {
    assert ([g] + segs)[0] == g && ([g] + segs)[1..] == segs;
  }

  lemma JoinCons(part: string, parts: seq<string>)
    ensures Join([part] + parts) == "/" + part + Join(parts)
  {
    assert ([part] + parts)[0] == part && ([part] + parts)[1..] == parts;
  }

  lemma RenderOne(g: Segment)
    ensures Render([g]) == "/" + SegmentText(g)
  {
  }

  lemma JoinOne(part: string)
    ensures Join([part]) == "/" + part
  {
  }
}

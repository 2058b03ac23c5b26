/**
 * Learn mode, `Learner` (ha_api_limiter/learner.py:21-135): every request
 * path is reduced to an endpoint template and added to the whitelist, the
 * entity named in the path and every entity id found in a JSON response
 * body are added to the entity list, and the whitelist is written out
 * every `_save_interval` requests.
 *
 * The fixed path regular expressions are written out as functions: the
 * anchored ones through `PathShapes`, the history query pattern as the
 * backtracking search that `re.match` performs.
 */
module Learner {
  import opened Wrappers
  import opened Strings
  import opened Json
  import opened Template
  import opened TemplateRegex
  import opened Config
  import opened PathShapes
  import opened LearnedTemplates

  // ---------------------------------------------------------------------
  // `_normalize_endpoint`
  // ---------------------------------------------------------------------

  /**
   * `_normalize_endpoint`: the first of the five shapes that matches
   * selects its template; any other path is kept as it is.
   */
  function NormalizeEndpoint(path: string): string {
    if EntityAfter(StatesPrefix, path).Some? then StatesTemplate
    else if IsServicePath(path) then ServicesTemplate
    else if EntityAfter(CameraPrefix, path).Some? then CameraTemplate
    else if IsDatedPath(HistoryPrefix, path) then HistoryTemplate
    else if IsDatedPath(LogbookPrefix, path) then LogbookTemplate
    else path
  }

  /** The characters of an entity id exclude `{`. */
  lemma EntityIdHasNoBrace(e: string)
    requires IsEntityId(e)
    ensures '{' !in e
  {
    var k :| 0 < k < |e| && e[k] == '.' && IsDomainRun(e[..k]) && IsObjectRun(e[k + 1..]);
    forall i | 0 <= i < |e| ensures e[i] != '{' {
      if i < k {
        assert e[..k][i] == e[i];
      } else if i > k {
        assert e[k + 1..][i - k - 1] == e[i];
      }
    }
  }

  /** A path of an anchored entity shape holds no `{`. */
  lemma EntityShapeHasNoBrace(prefix: string, path: string)
    requires '{' !in prefix && EntityAfter(prefix, path).Some?
    ensures '{' !in path
  {
    var e := EntityAfter(prefix, path).value;
    EntityIdHasNoBrace(e);
  }

  /** A service path holds no `{`. */
  lemma ServiceShapeHasNoBrace(path: string)
    requires IsServicePath(path)
    ensures '{' !in path
  {
    var body := DollarBody(path);
    var rest := body[|ServicesPrefix|..];
    var k := IndexOf(rest, '/');
    var d, v := rest[..k], rest[k + 1..];
    assert forall i | 0 <= i < |d| :: d[i] != '{' by {
      assert forall i | 0 <= i < |d| :: IsDomainChar(d[i]);
    }
    assert forall i | 0 <= i < |v| :: v[i] != '{' by {
      assert forall i | 0 <= i < |v| :: IsDomainChar(v[i]);
    }
    forall i | 0 <= i < |rest| ensures rest[i] != '{' {
      if i < k {
        assert d[i] == rest[i];
      } else if i > k {
        assert v[i - k - 1] == rest[i];
      }
    }
    assert body == ServicesPrefix + rest;
    forall i | 0 <= i < |path| ensures path[i] != '{' {
      if i < |ServicesPrefix| {
        assert path[i] == ServicesPrefix[i];
      } else if i < |body| {
        assert path[i] == rest[i - |ServicesPrefix|];
      }
    }
  }

  /** A path none of the five shapes matches is kept as it is. */
  lemma UnshapedPathIsKept(path: string)
    requires EntityAfter(StatesPrefix, path).None? && !IsServicePath(path)
    requires EntityAfter(CameraPrefix, path).None?
    requires !IsDatedPath(HistoryPrefix, path) && !IsDatedPath(LogbookPrefix, path)
    ensures NormalizeEndpoint(path) == path
  {
  }

  /** A template written with `{` right after one of the fixed prefixes. */
  lemma BracedPathIsKept(path: string)
    requires '{' in path
    requires !IsDatedPath(HistoryPrefix, path) && !IsDatedPath(LogbookPrefix, path)
    ensures NormalizeEndpoint(path) == path
  {
    assert EntityAfter(StatesPrefix, path).None? by {
      if EntityAfter(StatesPrefix, path).Some? {
        StatesPrefixHasNoBrace();
        EntityShapeHasNoBrace(StatesPrefix, path);
      }
    }
    assert !IsServicePath(path) by {
      if IsServicePath(path) {
        ServiceShapeHasNoBrace(path);
      }
    }
    assert EntityAfter(CameraPrefix, path).None? by {
      if EntityAfter(CameraPrefix, path).Some? {
        CameraPrefixHasNoBrace();
        EntityShapeHasNoBrace(CameraPrefix, path);
      }
    }
    UnshapedPathIsKept(path);
  }

  lemma StatesPrefixHasNoBrace()
    ensures '{' !in StatesPrefix
  {
  }

  lemma CameraPrefixHasNoBrace()
    ensures '{' !in CameraPrefix
  {
  }

  lemma StatesTemplateIsFixed()
    ensures NormalizeEndpoint(StatesTemplate) == StatesTemplate
  {
    assert StatesTemplate[12] == '{' && StatesTemplate[5] == 's';
    BracedPathIsKept(StatesTemplate);
  }

  lemma ServicesTemplateIsFixed()
    ensures NormalizeEndpoint(ServicesTemplate) == ServicesTemplate
  {
    assert ServicesTemplate[14] == '{' && ServicesTemplate[5] == 's';
    BracedPathIsKept(ServicesTemplate);
  }

  lemma CameraTemplateIsFixed()
    ensures NormalizeEndpoint(CameraTemplate) == CameraTemplate
  {
    assert CameraTemplate[18] == '{' && CameraTemplate[5] == 'c';
    BracedPathIsKept(CameraTemplate);
  }

  lemma HistoryTemplateIsFixed()
    ensures NormalizeEndpoint(HistoryTemplate) == HistoryTemplate
  {
    assert HistoryTemplate[20] == '{' && HistoryTemplate[5] == 'h';
    assert HistoryTemplate[|HistoryPrefix|..][0] == '{';
    BracedPathIsKept(HistoryTemplate);
  }

  lemma LogbookTemplateIsFixed()
    ensures NormalizeEndpoint(LogbookTemplate) == LogbookTemplate
  {
    assert LogbookTemplate[13] == '{' && LogbookTemplate[5] == 'l';
    assert LogbookTemplate[|LogbookPrefix|..][0] == '{';
    BracedPathIsKept(LogbookTemplate);
  }

  /** The result is the path itself or one of the five templates. */
  lemma NormalizeCases(path: string)
    ensures NormalizeEndpoint(path) in {path, StatesTemplate, ServicesTemplate, CameraTemplate,
                                        HistoryTemplate, LogbookTemplate}
  {
  }

  /** Normalising a template the learner wrote gives the same template back. */
  lemma NormalizeIdempotent(path: string)
    ensures NormalizeEndpoint(NormalizeEndpoint(path)) == NormalizeEndpoint(path)
  {
    var n := NormalizeEndpoint(path);
    NormalizeCases(path);
    if n == StatesTemplate {
      StatesTemplateIsFixed();
    } else if n == ServicesTemplate {
      ServicesTemplateIsFixed();
    } else if n == CameraTemplate {
      CameraTemplateIsFixed();
    } else if n == HistoryTemplate {
      HistoryTemplateIsFixed();
    } else if n == LogbookTemplate {
      LogbookTemplateIsFixed();
    }
  }

  /** A state path becomes `/api/states/{entity_id}`. */
  lemma NormalizeStatesPath(e: string)
    requires IsEntityId(e)
    ensures NormalizeEndpoint(StatesPrefix + e) == StatesTemplate
  {
    EntityAfterComplete(StatesPrefix, e);
  }

  /** A service call path becomes `/api/services/{domain}/{service}`. */
  lemma NormalizeServicePath(d: string, s: string)
    requires IsDomainRun(d) && IsDomainRun(s)
    ensures NormalizeEndpoint(ServicesPrefix + d + "/" + s) == ServicesTemplate
  {
    ServicePathComplete(d, s);
    var v := ServicesPrefix + d + "/" + s;
    assert EntityAfter(StatesPrefix, v).None? by {
      assert v[6] == 'e' && DollarBody(v)[6] == 'e';
      NotEntityAfter(StatesPrefix, v, 6);
    }
    ServiceShapeSelectsServicesTemplate(v);
  }

  lemma ServiceShapeSelectsServicesTemplate(path: string)
    requires EntityAfter(StatesPrefix, path).None? && IsServicePath(path)
    ensures NormalizeEndpoint(path) == ServicesTemplate
  {
  }

  /** No path whose text differs from `/api/services/` inside that prefix is a service path. */
  lemma NotServicePath(path: string, i: nat)
    requires i < |ServicesPrefix| && i < |DollarBody(path)| && DollarBody(path)[i] != ServicesPrefix[i]
    ensures !IsServicePath(path)
  {
  }

  /** The same for an anchored entity shape and its prefix. */
  lemma NotEntityAfter(prefix: string, path: string, i: nat)
    requires i < |prefix| && i < |DollarBody(path)| && DollarBody(path)[i] != prefix[i]
    ensures EntityAfter(prefix, path).None?
  {
  }

  lemma CameraShapeSelectsCameraTemplate(path: string)
    requires EntityAfter(StatesPrefix, path).None? && !IsServicePath(path)
    requires EntityAfter(CameraPrefix, path).Some?
    ensures NormalizeEndpoint(path) == CameraTemplate
  {
  }

  /** A camera proxy path becomes `/api/camera_proxy/{entity_id}`. */
  lemma NormalizeCameraPath(e: string)
    requires IsEntityId(e)
    ensures NormalizeEndpoint(CameraPrefix + e) == CameraTemplate
  {
    var c := CameraPrefix + e;
    assert c[5] == 'c' && DollarBody(c)[5] == 'c';
    NotEntityAfter(StatesPrefix, c, 5);
    NotServicePath(c, 5);
    EntityAfterComplete(CameraPrefix, e);
    CameraShapeSelectsCameraTemplate(c);
  }

  /** Learning state paths for two entities leaves one template entry. */
  lemma TwoStatePathsOneTemplate(xs: seq<string>, e1: string, e2: string)
    requires IsEntityId(e1) && IsEntityId(e2)
    ensures WithAdded(WithAdded(xs, NormalizeEndpoint(StatesPrefix + e1)), NormalizeEndpoint(StatesPrefix + e2))
      == WithAdded(xs, StatesTemplate)
  {
    NormalizeStatesPath(e1);
    NormalizeStatesPath(e2);
    WithAddedIdempotent(xs, StatesTemplate);
  }

  /**
   * What learn mode writes, limit mode accepts: read as an endpoint
   * template, the normalised form of a path admits that path. The path
   * holds no `{` whose run up to the next `}` spans a `/` (a path kept as
   * it is would read that run as a placeholder), and the text after a date
   * prefix holds no further `/`.
   */
  lemma LearnedTemplateAdmitsPath(path: string)
    requires BracedRunsSlashFree(path)
    requires IsDatedPath(HistoryPrefix, path) ==> '/' !in path[|HistoryPrefix|..]
    requires IsDatedPath(LogbookPrefix, path) ==> '/' !in path[|LogbookPrefix|..]
    ensures Matches(NormalizeEndpoint(path), path)
  {
    if EntityAfter(StatesPrefix, path).Some? {
      StatesPathAdmitted(path);
    } else if IsServicePath(path) {
      ServicePathAdmitted(path);
    } else if EntityAfter(CameraPrefix, path).Some? {
      CameraPathAdmitted(path);
    } else if IsDatedPath(HistoryPrefix, path) {
      HistoryPathAdmitted(path);
    } else if IsDatedPath(LogbookPrefix, path) {
      LogbookPathAdmitted(path);
    } else {
      TemplateMatchesOwnText(path);
    }
  }

  /**
   * The first condition of LearnedTemplateAdmitsPath cannot be dropped: a
   * braced run that spans a `/` is learned unchanged and refused.
   */
  lemma BracedSlashPathRefused()
    ensures !Matches(NormalizeEndpoint("/{a/b}"), "/{a/b}")
  {
    var p := "/{a/b}";
    assert |p| < |HistoryPrefix| && |p| < |LogbookPrefix|;
    assert p[1] == '{';
    BracedPathIsKept(p);
    assert p == "/" + ("{" + "a/b" + "}");
    PrefixParamRefusesSlash("/", "a/b", "{a/b}");
  }

  /**
   * Nor can the second: a dated path with a further `/` is learned as a
   * one-segment template, which refuses it.
   */
  lemma DatedSlashPathRefused(x: string)
    requires StartsWithDate(x) && '/' in x && '\n' !in x
    ensures !Matches(NormalizeEndpoint(HistoryPrefix + x), HistoryPrefix + x)
    ensures !Matches(NormalizeEndpoint(LogbookPrefix + x), LogbookPrefix + x)
  {
    NormalizeDatedPaths(x);
    DatedTemplatesSplit();
    PrefixParamRefusesSlash(HistoryPrefix, "timestamp", x);
    PrefixParamRefusesSlash(LogbookPrefix, "timestamp", x);
  }

  lemma DatedTemplatesSplit()
    ensures HistoryTemplate == HistoryPrefix + ("{" + "timestamp" + "}") && IsPlain(HistoryPrefix)
    ensures LogbookTemplate == LogbookPrefix + ("{" + "timestamp" + "}") && IsPlain(LogbookPrefix)
  {
  }

  /** The text after the prefix of an entity path is non-empty and holds no `/`. */
  lemma EntityRest(prefix: string, path: string) returns (x: string)
    requires EntityAfter(prefix, path).Some?
    ensures path == prefix + x && x != [] && '/' !in x
  {
    var e := EntityAfter(prefix, path).value;
    EntityIdChars(e);
    if path == prefix + e {
      x := e;
    } else {
      x := e + "\n";
      assert path == prefix + x;
      assert forall i | 0 <= i < |x| :: x[i] == if i < |e| then e[i] else '\n';
    }
  }

  lemma StatesPathAdmitted(path: string)
    requires EntityAfter(StatesPrefix, path).Some?
    ensures Matches(StatesTemplate, path)
  {
    var x := EntityRest(StatesPrefix, path);
    assert StatesTemplate == StatesPrefix + ("{" + "entity_id" + "}");
    PrefixParamAdmits(StatesPrefix, "entity_id", x);
  }

  lemma CameraPathAdmitted(path: string)
    requires EntityAfter(CameraPrefix, path).Some?
    ensures Matches(CameraTemplate, path)
  {
    var x := EntityRest(CameraPrefix, path);
    assert CameraTemplate == CameraPrefix + ("{" + "entity_id" + "}");
    PrefixParamAdmits(CameraPrefix, "entity_id", x);
  }

  /** A service path is admitted through its `$` body, which has no newline. */
  lemma ServicePathAdmitted(path: string)
    requires IsServicePath(path)
    ensures Matches(ServicesTemplate, path)
  {
    var body := DollarBody(path);
    var rest := body[|ServicesPrefix|..];
    var k := IndexOf(rest, '/');
    var d, s := rest[..k], rest[k + 1..];
    assert body == ServicesPrefix + d + "/" + s by {
      assert rest == d + "/" + s;
      assert body == ServicesPrefix + rest;
    }
    assert '/' !in d && '\n' !in d by {
      assert forall i | 0 <= i < |d| :: IsDomainChar(d[i]);
    }
    assert '/' !in s && '\n' !in s by {
      assert forall i | 0 <= i < |s| :: IsDomainChar(s[i]);
    }
    assert '\n' !in body by {
      assert forall i | 0 <= i < |body| :: body[i] == (ServicesPrefix + d + "/" + s)[i];
    }
    ServicesTemplateAdmits(d, s);
    AdmitsThroughBody(ServicesTemplate, path);
  }

  /** The text after a prefix the path starts with is the rest of the path. */
  lemma AfterPrefix(prefix: string, path: string) returns (x: string)
    requires StartsWith(path, prefix)
    ensures x == path[|prefix|..] && path == prefix + x
  {
    x := path[|prefix|..];
    assert path == prefix + x;
  }

  lemma HistoryPathAdmitted(path: string)
    requires IsDatedPath(HistoryPrefix, path) && '/' !in path[|HistoryPrefix|..]
    ensures Matches(HistoryTemplate, path)
  {
    var x := AfterPrefix(HistoryPrefix, path);
    assert HistoryTemplate == HistoryPrefix + ("{" + "timestamp" + "}");
    PrefixParamAdmits(HistoryPrefix, "timestamp", x);
  }

  lemma LogbookPathAdmitted(path: string)
    requires IsDatedPath(LogbookPrefix, path) && '/' !in path[|LogbookPrefix|..]
    ensures Matches(LogbookTemplate, path)
  {
    var x := AfterPrefix(LogbookPrefix, path);
    assert LogbookTemplate == LogbookPrefix + ("{" + "timestamp" + "}");
    PrefixParamAdmits(LogbookPrefix, "timestamp", x);
  }

  /**
   * With placeholders read as config.py:70 writes them, the template
   * learned from a state request does not admit that request.
   */
  lemma LearnedStatesTemplateRefusedAsWritten(e: string)
    requires IsEntityId(e)
    ensures !MatchesAsWritten(NormalizeEndpoint(StatesPrefix + e), StatesPrefix + e)
  {
    NormalizeStatesPath(e);
    StatesTemplateHasBraces();
    BracePairMatchesNothingAsWritten(StatesTemplate, StatesPrefix + e);
  }

  lemma StatesTemplateHasBraces()
    ensures HasBracePair(StatesTemplate)
  {
    assert StatesTemplate[12] == '{' && StatesTemplate[22] == '}';
  }

  // ---------------------------------------------------------------------
  // `_extract_entity_from_path`
  //
  // The second pattern, `^/api/history/period/[^/]+\?.*entity_id=(...)`,
  // has no end anchor. `re.match` tries the greedy `[^/]+` from its longest
  // extent downwards to the first `?` it can stop at, and for each such `?`
  // tries the greedy `.*` (which stops at a newline) from its longest extent
  // downwards to an `entity_id=` followed by an entity id. The capture
  // takes the longest `[a-z_]+` run, which must be followed by `.`, and the
  // longest `[a-z0-9_]+` run after it.
  // ---------------------------------------------------------------------

  /** Length of the `[a-z_]` run that starts at `i`. */
  function DomainRunFrom(s: string, i: nat): (n: nat)
    requires i <= |s|
    ensures i + n <= |s|
    ensures forall k | i <= k < i + n :: IsDomainChar(s[k])
    ensures i + n < |s| ==> !IsDomainChar(s[i + n])
    decreases |s| - i
  {
    if i < |s| && IsDomainChar(s[i]) then 1 + DomainRunFrom(s, i + 1) else 0
  }

  /** Length of the `[a-z0-9_]` run that starts at `i`. */
  function ObjectRunFrom(s: string, i: nat): (n: nat)
    requires i <= |s|
    ensures i + n <= |s|
    ensures forall k | i <= k < i + n :: IsObjectChar(s[k])
    ensures i + n < |s| ==> !IsObjectChar(s[i + n])
    decreases |s| - i
  {
    if i < |s| && IsObjectChar(s[i]) then 1 + ObjectRunFrom(s, i + 1) else 0
  }

  /** `([a-z_]+\.[a-z0-9_]+)` matched at `i`, with nothing required after it. */
  function CaptureAt(s: string, i: nat): (r: Option<string>)
    requires i <= |s|
    ensures r.Some? ==> IsEntityId(r.value) && StartsWith(s[i..], r.value)
  {
    var d := DomainRunFrom(s, i);
    if d > 0 && i + d < |s| && s[i + d] == '.' then
      var o := ObjectRunFrom(s, i + d + 1);
      if o > 0 then
        var e := s[i..i + d + 1 + o];
        assert e[d] == '.' && e[..d] == s[i..i + d] && e[d + 1..] == s[i + d + 1..i + d + 1 + o];
        assert s[i..][..|e|] == e;
        Some(e)
      else None
    else None
  }

  const EntityKey: string := "entity_id="

  /** `entity_id=<e>` occurs somewhere in `s`. */
  predicate KeyedIn(s: string, e: string) {
    exists p | 0 <= p <= |s| :: StartsWith(s[p..], EntityKey + e)
  }

  /** `.*entity_id=(...)` with the `.*` ending at `q`, then at `q - 1`, down to `lo`. */
  function TryKey(s: string, lo: nat, q: int): Option<string>
    requires lo <= |s| && q <= |s|
    decreases q + 1
  {
    if q < lo then None
    else if StartsWith(s[q..], EntityKey) && CaptureAt(s, q + |EntityKey|).Some? then
      CaptureAt(s, q + |EntityKey|)
    else TryKey(s, lo, q - 1)
  }

  /** What the key search finds is an entity id that follows an `entity_id=` in the text. */
  lemma {:induction false} TryKeySound(s: string, lo: nat, q: int)
    requires lo <= |s| && q <= |s|
    ensures TryKey(s, lo, q).Some? ==> IsEntityId(TryKey(s, lo, q).value) && KeyedIn(s, TryKey(s, lo, q).value)
    decreases q + 1
  {
    if q < lo {
    } else if StartsWith(s[q..], EntityKey) && CaptureAt(s, q + |EntityKey|).Some? {
      var e := CaptureAt(s, q + |EntityKey|).value;
      assert s[q..][..|EntityKey| + |e|] == EntityKey + e by {
        assert s[q..][..|EntityKey|] == EntityKey;
        assert s[q + |EntityKey|..][..|e|] == e;
      }
      assert StartsWith(s[q..], EntityKey + e);
    } else {
      TryKeySound(s, lo, q - 1);
    }
  }

  /** Where `.*` from `i` must stop: the first newline at or after `i`, else the end. */
  function LineEnd(s: string, i: nat): (r: nat)
    requires i <= |s|
    ensures i <= r <= |s|
    ensures forall k | i <= k < r :: s[k] != '\n'
    ensures r < |s| ==> s[r] == '\n'
  {
    var n := IndexOf(s[i..], '\n');
    assert forall k | i <= k < i + n :: s[k] == s[i..][k - i];
    i + n
  }

  /** Where `[^/]+` from `i` must stop: the first `/` at or after `i`, else the end. */
  function SegmentEnd(s: string, i: nat): (r: nat)
    requires i <= |s|
    ensures i <= r <= |s|
    ensures forall k | i <= k < r :: s[k] != '/'
    ensures r < |s| ==> s[r] == '/'
  {
    var n := IndexOf(s[i..], '/');
    assert forall k | i <= k < i + n :: s[k] == s[i..][k - i];
    i + n
  }

  /** `\?.*entity_id=(...)` with the `?` at `m`, then at `m - 1`, down to index 21. */
  function TryQuestion(s: string, m: int): Option<string>
    requires m < |s|
    decreases m + 1
  {
    if m <= |HistoryPrefix| then None
    else if s[m] == '?' && TryKey(s, m + 1, LineEnd(s, m + 1)).Some? then
      TryKey(s, m + 1, LineEnd(s, m + 1))
    else TryQuestion(s, m - 1)
  }

  /** What the search finds is an entity id that follows an `entity_id=` in the text. */
  lemma {:induction false} TryQuestionSound(s: string, m: int)
    requires m < |s|
    ensures TryQuestion(s, m).Some? ==>
      IsEntityId(TryQuestion(s, m).value) && KeyedIn(s, TryQuestion(s, m).value)
    decreases m + 1
  {
    if m <= |HistoryPrefix| {
    } else if s[m] == '?' && TryKey(s, m + 1, LineEnd(s, m + 1)).Some? {
      TryKeySound(s, m + 1, LineEnd(s, m + 1));
    } else {
      TryQuestionSound(s, m - 1);
    }
  }

  /** The history pattern: `[^/]+` runs from index 20 up to the first `/` after it. */
  function HistoryEntity(path: string): (r: Option<string>)
    ensures r.Some? ==> IsEntityId(r.value)
    ensures r.Some? ==> StartsWith(path, HistoryPrefix)
    ensures r.Some? ==> KeyedIn(path, r.value)
  {
    if StartsWith(path, HistoryPrefix) then
      TryQuestionSound(path, SegmentEnd(path, |HistoryPrefix|) - 1);
      TryQuestion(path, SegmentEnd(path, |HistoryPrefix|) - 1)
    else None
  }

  /** Without a `?` the history pattern never matches. */
  lemma {:induction false} NoQuestionNoMatch(s: string, m: int)
    requires m < |s| && '?' !in s
    ensures TryQuestion(s, m).None?
    decreases m + 1
  {
    if m > |HistoryPrefix| {
      assert s[m] != '?';
      NoQuestionNoMatch(s, m - 1);
    }
  }

  /**
   * `_extract_entity_from_path`: the entity of a state path, else the
   * entity named after `entity_id=` in the query of a history path.
   */
  function ExtractEntityFromPath(path: string): (r: Option<string>)
    ensures r.Some? ==> IsEntityId(r.value)
  {
    var states := EntityAfter(StatesPrefix, path);
    if states.Some? then states else HistoryEntity(path)
  }

  /**
   * An entity comes from the state path it names, or from an
   * `entity_id=` in the query of a history path, which needs a `?`.
   */
  lemma ExtractedEntitySource(path: string)
    requires ExtractEntityFromPath(path).Some?
    ensures var e := ExtractEntityFromPath(path).value;
      path == StatesPrefix + e || path == StatesPrefix + e + "\n" ||
      (StartsWith(path, HistoryPrefix) && '?' in path &&
       KeyedIn(path, e))
  {
    if EntityAfter(StatesPrefix, path).None? {
      HistoryEntityNeedsQuestion(path);
    }
  }

  lemma HistoryEntityNeedsQuestion(path: string)
    requires HistoryEntity(path).Some?
    ensures '?' in path
  {
    if '?' !in path {
      NoQuestionNoMatch(path, SegmentEnd(path, |HistoryPrefix|) - 1);
    }
  }

  /** Every state path yields its entity. */
  lemma ExtractFromStatePath(e: string)
    requires IsEntityId(e)
    ensures ExtractEntityFromPath(StatesPrefix + e) == Some(e)
  {
    EntityAfterComplete(StatesPrefix, e);
  }

  /** Unlike the limit-mode gate, learn mode takes no entity from a camera path. */
  lemma NoEntityFromCameraPath(e: string)
    ensures ExtractEntityFromPath(CameraPrefix + e).None?
  {
    var c := CameraPrefix + e;
    assert c[5] == 'c' && DollarBody(c)[5] == 'c';
    NotEntityAfter(StatesPrefix, c, 5);
    assert !StartsWith(c, HistoryPrefix) by {
      assert HistoryPrefix[5] == 'h';
    }
  }

  lemma DomainRunExact(s: string, i: nat, k: nat)
    requires i + k < |s| && !IsDomainChar(s[i + k])
    requires forall j | i <= j < i + k :: IsDomainChar(s[j])
    ensures DomainRunFrom(s, i) == k
  {
  }

  lemma ObjectRunToEnd(s: string, i: nat)
    requires i <= |s| && forall j | i <= j < |s| :: IsObjectChar(s[j])
    ensures ObjectRunFrom(s, i) == |s| - i
  {
  }

  /** The capture at `i` takes all of an entity id that ends the text. */
  lemma CaptureWholeId(s: string, i: nat)
    requires i <= |s| && IsEntityId(s[i..])
    ensures CaptureAt(s, i) == Some(s[i..])
  {
    var k := WholeIdRuns(s, i);
    assert i + k + 1 + (|s| - (i + k + 1)) == |s|;
    assert s[i..|s|] == s[i..];
  }

  /** An entity id that ends the text splits into its two maximal runs. */
  lemma WholeIdRuns(s: string, i: nat) returns (k: nat)
    requires i <= |s| && IsEntityId(s[i..])
    ensures 0 < k && i + k + 1 < |s| && s[i + k] == '.'
    ensures DomainRunFrom(s, i) == k && ObjectRunFrom(s, i + k + 1) == |s| - (i + k + 1)
  {
    var e := s[i..];
    k :| 0 < k < |e| && e[k] == '.' && IsDomainRun(e[..k]) && IsObjectRun(e[k + 1..]);
    forall j | i <= j < i + k ensures IsDomainChar(s[j]) {
      assert s[j] == e[..k][j - i];
    }
    assert s[i + k] == '.';
    DomainRunExact(s, i, k);
    forall j | i + k + 1 <= j < |s| ensures IsObjectChar(s[j]) {
      assert s[j] == e[k + 1..][j - i - k - 1];
    }
    ObjectRunToEnd(s, i + k + 1);
  }

  /** `?` found nowhere after `m0` up to `m`: the search reaches `m0` unchanged. */
  lemma {:induction false} SkipToQuestion(s: string, m: int, m0: int)
    requires |HistoryPrefix| < m0 <= m < |s|
    requires forall k | m0 < k <= m :: s[k] != '?'
    ensures TryQuestion(s, m) == TryQuestion(s, m0)
    decreases m - m0
  {
    if m > m0 {
      QuestionSkipStep(s, m);
      SkipToQuestion(s, m - 1, m0);
    }
  }

  lemma QuestionSkipStep(s: string, m: int)
    requires |HistoryPrefix| < m < |s| && s[m] != '?'
    ensures TryQuestion(s, m) == TryQuestion(s, m - 1)
  {
  }

  /** No key starting after `q0` up to `q`: the search reaches `q0` unchanged. */
  lemma {:induction false} SkipToKey(s: string, lo: nat, q: int, q0: int)
    requires lo <= q0 <= q <= |s|
    requires forall k | q0 < k <= q :: !StartsWith(s[k..], EntityKey)
    ensures TryKey(s, lo, q) == TryKey(s, lo, q0)
    decreases q - q0
  {
    if q > q0 {
      KeySkipStep(s, lo, q);
      SkipToKey(s, lo, q - 1, q0);
    }
  }

  lemma KeySkipStep(s: string, lo: nat, q: int)
    requires lo < q <= |s| && !StartsWith(s[q..], EntityKey)
    ensures TryKey(s, lo, q) == TryKey(s, lo, q - 1)
  {
  }

  /** Entity ids hold no `=`, `?` or `/`. */
  lemma EntityIdNoSpecials(e: string)
    requires IsEntityId(e)
    ensures forall i | 0 <= i < |e| :: e[i] != '=' && e[i] != '?' && e[i] != '/' && e[i] != '\n'
  {
    var k :| 0 < k < |e| && e[k] == '.' && IsDomainRun(e[..k]) && IsObjectRun(e[k + 1..]);
    forall i | 0 <= i < |e| ensures e[i] != '=' && e[i] != '?' && e[i] != '/' && e[i] != '\n' {
      if i < k {
        assert e[..k][i] == e[i];
      } else if i > k {
        assert e[k + 1..][i - k - 1] == e[i];
      }
    }
  }

  /** Only the one `entity_id=` in the query starts a key. */
  lemma OnlyKeyAt(s: string, m0: nat, e: string)
    requires IsEntityId(e) && m0 < |s| && s[m0 + 1..] == EntityKey + e
    ensures forall k | m0 + 1 < k <= |s| :: !StartsWith(s[k..], EntityKey)
  {
    EntityIdNoSpecials(e);
    assert s[m0 + 1..][9] == '=';
    forall k | m0 + 1 < k <= |s| ensures !StartsWith(s[k..], EntityKey) {
      if k + |EntityKey| <= |s| {
        if k <= m0 + 10 {
          assert s[k..][m0 + 10 - k] == s[m0 + 1..][9];
        } else {
          assert s[k..][9] == s[m0 + 1..][k + 9 - m0 - 1];
          assert s[m0 + 1..][k + 9 - m0 - 1] == e[k + 9 - m0 - 11];
        }
      }
    }
  }

  /** The characters of a history request with the query `entity_id=<id>`. */
  lemma HistoryQueryShape(t: string, e: string)
    requires t != [] && '/' !in t && '\n' !in t
    requires IsEntityId(e)
    ensures var s := HistoryPrefix + t + "?" + EntityKey + e;
      var m0 := |HistoryPrefix| + |t|;
      StartsWith(s, HistoryPrefix) && s[m0] == '?' && s[m0 + 1..] == EntityKey + e &&
      s[m0 + 1 + |EntityKey|..] == e &&
      (forall k | |HistoryPrefix| <= k < |s| :: s[k] != '/') &&
      (forall k | m0 < k < |s| :: s[k] != '?' && s[k] != '\n')
  {
    var s := HistoryPrefix + t + "?" + EntityKey + e;
    var m0 := |HistoryPrefix| + |t|;
    EntityIdNoSpecials(e);
    assert s[m0 + 1..] == EntityKey + e;
    forall k | |HistoryPrefix| <= k < |s| ensures s[k] != '/' {
      if k < m0 {
        assert s[k] == t[k - |HistoryPrefix|];
      } else if k > m0 {
        assert s[k] == s[m0 + 1..][k - m0 - 1];
      }
    }
    forall k | m0 < k < |s| ensures s[k] != '?' && s[k] != '\n' {
      assert s[k] == s[m0 + 1..][k - m0 - 1];
      if k > m0 + |EntityKey| {
        assert s[m0 + 1..][k - m0 - 1] == e[k - m0 - 1 - |EntityKey|];
      }
    }
  }

  /** With no `/` after `i`, `[^/]+` first takes the rest of the text. */
  lemma NoSlashAfter(s: string, i: nat)
    requires i <= |s| && forall k | i <= k < |s| :: s[k] != '/'
    ensures SegmentEnd(s, i) == |s|
  {
  }

  /** With no newline after `i`, `.*` first takes the rest of the text. */
  lemma NoNewlineAfter(s: string, i: nat)
    requires i <= |s| && forall k | i <= k < |s| :: s[k] != '\n'
    ensures LineEnd(s, i) == |s|
  {
  }

  /** The key right after the `?` captures the id that ends the text. */
  lemma KeyAfterQuestion(s: string, m0: nat, e: string)
    requires m0 < |s| && IsEntityId(e) && s[m0 + 1..] == EntityKey + e
    ensures TryKey(s, m0 + 1, m0 + 1) == Some(e)
  {
    assert s[m0 + 1 + |EntityKey|..] == e;
    CaptureWholeId(s, m0 + 1 + |EntityKey|);
    assert StartsWith(s[m0 + 1..], EntityKey);
    KeyFoundAt(s, m0 + 1, m0 + 1);
  }

  lemma QuestionYields(s: string, m0: nat, e: string)
    requires |HistoryPrefix| < m0 < |s| && s[m0] == '?'
    requires TryKey(s, m0 + 1, |s|) == Some(e) && LineEnd(s, m0 + 1) == |s|
    ensures TryQuestion(s, m0) == Some(e)
  {
    QuestionFoundAt(s, m0);
  }

  /** After the `?` at `m0`, exactly `entity_id=<id>` to the end: the key search yields the id. */
  lemma KeySearchYields(s: string, m0: nat, e: string)
    requires m0 < |s| && IsEntityId(e) && s[m0 + 1..] == EntityKey + e
    ensures TryKey(s, m0 + 1, |s|) == Some(e)
  {
    KeyAfterQuestion(s, m0, e);
    OnlyKeyAt(s, m0, e);
    SkipToKey(s, m0 + 1, |s|, m0 + 1);
  }

  /**
   * A history request whose query is exactly `entity_id=<id>` yields that
   * id, whatever the (slash-free) text between the date prefix and the `?`.
   */
  lemma HistoryQueryYieldsEntity(t: string, e: string)
    requires t != [] && '/' !in t && '\n' !in t
    requires IsEntityId(e)
    ensures HistoryEntity(HistoryPrefix + t + "?" + EntityKey + e) == Some(e)
  {
    HistoryQueryShape(t, e);
    HistoryShapeYields(HistoryPrefix + t + "?" + EntityKey + e, |HistoryPrefix| + |t|, e);
  }

  /** A `?` at `m0` followed by exactly `entity_id=<id>`, and no `/` after the prefix. */
  lemma HistoryShapeYields(s: string, m0: nat, e: string)
    requires IsEntityId(e) && StartsWith(s, HistoryPrefix)
    requires |HistoryPrefix| < m0 < |s| && s[m0] == '?' && s[m0 + 1..] == EntityKey + e
    requires forall k | |HistoryPrefix| <= k < |s| :: s[k] != '/'
    requires forall k | m0 < k < |s| :: s[k] != '?' && s[k] != '\n'
    ensures HistoryEntity(s) == Some(e)
  {
    NoSlashAfter(s, |HistoryPrefix|);
    HistorySearchStart(s);
    SkipToQuestion(s, |s| - 1, m0);
    NoNewlineAfter(s, m0 + 1);
    KeySearchYields(s, m0, e);
    QuestionYields(s, m0, e);
  }

  lemma HistorySearchStart(path: string)
    requires StartsWith(path, HistoryPrefix)
    ensures HistoryEntity(path) == TryQuestion(path, SegmentEnd(path, |HistoryPrefix|) - 1)
  {
  }

  lemma KeyFoundAt(s: string, lo: nat, q: nat)
    requires lo <= q <= |s| && StartsWith(s[q..], EntityKey) && CaptureAt(s, q + |EntityKey|).Some?
    ensures TryKey(s, lo, q) == CaptureAt(s, q + |EntityKey|)
  {
  }

  lemma QuestionFoundAt(s: string, m: nat)
    requires |HistoryPrefix| < m < |s| && s[m] == '?'
    requires TryKey(s, m + 1, LineEnd(s, m + 1)).Some?
    ensures TryQuestion(s, m) == TryKey(s, m + 1, LineEnd(s, m + 1))
  {
  }

  /** A path of the dated history shape selects its template. */
  lemma DatedHistorySelectsTemplate(path: string)
    requires EntityAfter(StatesPrefix, path).None? && !IsServicePath(path)
    requires EntityAfter(CameraPrefix, path).None? && IsDatedPath(HistoryPrefix, path)
    ensures NormalizeEndpoint(path) == HistoryTemplate
  {
  }

  /** A path of the dated logbook shape selects its template. */
  lemma DatedLogbookSelectsTemplate(path: string)
    requires EntityAfter(StatesPrefix, path).None? && !IsServicePath(path)
    requires EntityAfter(CameraPrefix, path).None? && !IsDatedPath(HistoryPrefix, path)
    requires IsDatedPath(LogbookPrefix, path)
    ensures NormalizeEndpoint(path) == LogbookTemplate
  {
  }

  /** A dated history or logbook path becomes its template, whatever follows the date. */
  lemma NormalizeDatedPaths(x: string)
    requires StartsWithDate(x)
    ensures NormalizeEndpoint(HistoryPrefix + x) == HistoryTemplate
    ensures NormalizeEndpoint(LogbookPrefix + x) == LogbookTemplate
  {
    var h := HistoryPrefix + x;
    assert h[5] == 'h' && DollarBody(h)[5] == 'h';
    NotEntityAfter(StatesPrefix, h, 5);
    NotEntityAfter(CameraPrefix, h, 5);
    NotServicePath(h, 5);
    assert h[|HistoryPrefix|..] == x;
    DatedHistorySelectsTemplate(h);
    var l := LogbookPrefix + x;
    assert l[5] == 'l' && DollarBody(l)[5] == 'l';
    NotEntityAfter(StatesPrefix, l, 5);
    NotEntityAfter(CameraPrefix, l, 5);
    NotServicePath(l, 5);
    assert !StartsWith(l, HistoryPrefix) by {
      assert HistoryPrefix[5] == 'h';
    }
    assert l[|LogbookPrefix|..] == x;
    DatedLogbookSelectsTemplate(l);
  }

  // ---------------------------------------------------------------------
  // `_extract_entities_from_json`
  // ---------------------------------------------------------------------

  /** The ids among the first `n` list members: strings holding a `.`. */
  function StrIdsUpTo(items: seq<Json>, n: nat): set<string>
    requires n <= |items|
  {
    if n == 0 then {}
    else StrIdsUpTo(items, n - 1) + (if items[n - 1].Str? && '.' in items[n - 1].s then {items[n - 1].s} else {})
  }

  /** What an `entity_id` member contributes: a string holding `.`, or such strings in a list. */
  function IdsOfValue(v: Json): set<string> {
    match v
    case Str(s) => if '.' in s then {s} else {}
    case Arr(items) => StrIdsUpTo(items, |items|)
    case _ => {}
  }

  function DirectIds(fields: seq<(string, Json)>): set<string> {
    match Get(fields, "entity_id")
    case None => {}
    case Some(v) => IdsOfValue(v)
  }

  /**
   * The entity ids found anywhere in a decoded JSON value: in the
   * `entity_id` member of every object, at every depth, and in every list
   * item.
   */
  function EntitiesIn(j: Json): set<string>
    decreases j, 1
  {
    match j
    case Obj(fields) => DirectIds(fields) + ValuesUnion(j, |fields|)
    case Arr(items) => ItemsUnion(j, |items|)
    case _ => {}
  }

  /** The ids found in the first `n` member values of an object. */
  function ValuesUnion(j: Json, n: nat): set<string>
    requires j.Obj? && n <= |j.fields|
    decreases j, 0, n
  {
    if n == 0 then {} else ValuesUnion(j, n - 1) + EntitiesIn(j.fields[n - 1].1)
  }

  /** The ids found in the first `n` items of a list. */
  function ItemsUnion(j: Json, n: nat): set<string>
    requires j.Arr? && n <= |j.items|
    decreases j, 0, n
  {
    if n == 0 then {} else ItemsUnion(j, n - 1) + EntitiesIn(j.items[n - 1])
  }

  lemma {:induction false} StrIdsHaveDots(items: seq<Json>, n: nat)
    requires n <= |items|
    ensures forall e | e in StrIdsUpTo(items, n) :: '.' in e
  {
    if n > 0 {
      StrIdsHaveDots(items, n - 1);
    }
  }

  /** Every id found holds a `.`. */
  lemma {:induction false} EntitiesHaveDots(j: Json)
    ensures forall e | e in EntitiesIn(j) :: '.' in e
    decreases j, 1
  {
    match j {
      case Obj(fields) =>
        var id := Get(fields, "entity_id");
        if id.Some? && id.value.Arr? {
          StrIdsHaveDots(id.value.items, |id.value.items|);
        }
        ValuesHaveDots(j, |fields|);
      case Arr(items) =>
        ItemsHaveDots(j, |items|);
      case _ =>
    }
  }

  lemma {:induction false} ValuesHaveDots(j: Json, n: nat)
    requires j.Obj? && n <= |j.fields|
    ensures forall e | e in ValuesUnion(j, n) :: '.' in e
    decreases j, 0, n
  {
    if n > 0 {
      ValuesHaveDots(j, n - 1);
      EntitiesHaveDots(j.fields[n - 1].1);
    }
  }

  lemma {:induction false} ItemsHaveDots(j: Json, n: nat)
    requires j.Arr? && n <= |j.items|
    ensures forall e | e in ItemsUnion(j, n) :: '.' in e
    decreases j, 0, n
  {
    if n > 0 {
      ItemsHaveDots(j, n - 1);
      EntitiesHaveDots(j.items[n - 1]);
    }
  }

  lemma {:induction false} ValuesUnionCovers(j: Json, n: nat, i: nat)
    requires j.Obj? && i < n <= |j.fields|
    ensures EntitiesIn(j.fields[i].1) <= ValuesUnion(j, n)
  {
    if i < n - 1 {
      ValuesUnionCovers(j, n - 1, i);
    }
  }

  lemma {:induction false} ItemsUnionCovers(j: Json, n: nat, i: nat)
    requires j.Arr? && i < n <= |j.items|
    ensures EntitiesIn(j.items[i]) <= ItemsUnion(j, n)
  {
    if i < n - 1 {
      ItemsUnionCovers(j, n - 1, i);
    }
  }

  /** Whatever a member value or a list item holds, the value holding it holds too. */
  lemma NestedIdsAreFound(j: Json, i: nat)
    ensures j.Obj? && i < |j.fields| ==> EntitiesIn(j.fields[i].1) <= EntitiesIn(j)
    ensures j.Arr? && i < |j.items| ==> EntitiesIn(j.items[i]) <= EntitiesIn(j)
  {
    if j.Obj? && i < |j.fields| {
      ValuesUnionCovers(j, |j.fields|, i);
    }
    if j.Arr? && i < |j.items| {
      ItemsUnionCovers(j, |j.items|, i);
    }
  }

  /** An object's own `entity_id` string, when it holds a `.`, is found. */
  lemma DirectIdIsFound(fields: seq<(string, Json)>, s: string)
    requires Get(fields, "entity_id") == Some(Str(s)) && '.' in s
    ensures s in EntitiesIn(Obj(fields))
  {
  }

  /** The `entity_id` member of one object: a string holding `.`, or each such string of a list. */
  method AddDirectIds(fields: seq<(string, Json)>, found: set<string>) returns (result: set<string>)
    ensures result == found + DirectIds(fields)
  {
    result := found;
    var id := Get(fields, "entity_id");
    if id.Some? {
      match id.value {
        case Str(s) =>
          if '.' in s {
            result := result + {s};
          }
        case Arr(items) =>
          var k := 0;
          while k < |items|
            invariant 0 <= k <= |items|
            invariant result == found + StrIdsUpTo(items, k)
          {
            if items[k].Str? && '.' in items[k].s {
              result := result + {items[k].s};
            }
            k := k + 1;
          }
        case _ =>
      }
    }
  }

  /**
   * `_extract_entities_from_json`: walks the value depth first and adds
   * every id it finds to the caller's set, which it never shrinks.
   */
  method ExtractEntitiesFromJson(data: Json, found: set<string>) returns (result: set<string>)
    ensures result == found + EntitiesIn(data)
    decreases data
  {
    result := found;
    match data {
      case Obj(fields) =>
        result := AddDirectIds(fields, result);
        var i := 0;
        while i < |fields|
          invariant 0 <= i <= |fields|
          invariant result == found + DirectIds(fields) + ValuesUnion(data, i)
        {
          result := ExtractEntitiesFromJson(fields[i].1, result);
          i := i + 1;
        }
      case Arr(items) =>
        var i := 0;
        while i < |items|
          invariant 0 <= i <= |items|
          invariant result == found + ItemsUnion(data, i)
        {
          result := ExtractEntitiesFromJson(items[i], result);
          i := i + 1;
        }
      case _ =>
    }
  }

  // ---------------------------------------------------------------------
  // The save counter of `maybe_save`
  // ---------------------------------------------------------------------

  /** One `maybe_save` call on the counter: the new count, and whether it saved. */
  function CounterStep(count: int, interval: int): (int, bool) {
    if count + 1 >= interval then (0, true) else (count + 1, false)
  }

  /** The counter and the number of saves after `n` calls from `count`. */
  function CounterAfter(count: int, interval: int, n: nat): (int, nat) {
    if n == 0 then (count, 0)
    else
      var before := CounterAfter(count, interval, n - 1);
      var step := CounterStep(before.0, interval);
      (step.0, before.1 + if step.1 then 1 else 0)
  }

  lemma MulBeyondOne(k: int, d: int)
    requires d >= 1
    ensures k >= 1 ==> k * d >= d
    ensures k <= -1 ==> k * d <= -d
  {
  }

  lemma DivModUnique(a: int, d: int, q: int, r: int)
    requires d > 0 && 0 <= r < d && a == q * d + r
    ensures a / d == q && a % d == r
  {
    var k := q - a / d;
    assert k * d == a % d - r by {
      assert a == (a / d) * d + a % d;
      assert q * d == (a / d) * d + k * d;
    }
    MulBeyondOne(k, d);
  }

  /** One more call moves the remainder on by one, wrapping into the quotient. */
  lemma NextDivMod(a: nat, d: int)
    requires d >= 1
    ensures a % d + 1 == d ==> (a + 1) / d == a / d + 1 && (a + 1) % d == 0
    ensures a % d + 1 != d ==> (a + 1) / d == a / d && (a + 1) % d == a % d + 1
  {
    var q, r := a / d, a % d;
    assert a == q * d + r && 0 <= r < d;
    if r + 1 == d {
      assert a + 1 == (q + 1) * d + 0 by {
        assert (q + 1) * d == q * d + d;
      }
      DivModUnique(a + 1, d, q + 1, 0);
    } else {
      DivModUnique(a + 1, d, q, r + 1);
    }
  }

  /**
   * From a fresh counter, `n` calls with an interval of at least one save
   * `n / interval` times and leave the count at `n % interval`.
   */
  lemma {:induction false} SavesEveryInterval(interval: int, n: nat)
    requires interval >= 1
    ensures CounterAfter(0, interval, n) == (n % interval, n / interval)
  {
    if n > 0 {
      SavesEveryInterval(interval, n - 1);
      NextDivMod(n - 1, interval);
    }
  }

  /** The documented case: with an interval of three, the third call saves and resets. */
  lemma ThirdCallSaves()
    ensures CounterAfter(0, 3, 2) == (2, 0)
    ensures CounterAfter(0, 3, 3) == (0, 1)
  {
    SavesEveryInterval(3, 2);
    SavesEveryInterval(3, 3);
  }

  // ---------------------------------------------------------------------
  // `Learner`
  // ---------------------------------------------------------------------

  const JsonMediaType: string := "application/json"

  class Learner {
    const whitelist: WhitelistConfig
    var requestCount: int
    var saveInterval: int

    constructor(whitelist: WhitelistConfig)
      ensures this.whitelist == whitelist
      ensures requestCount == 0 && saveInterval == 10
    {
      this.whitelist := whitelist;
      requestCount := 0;
      saveInterval := 10;
    }

    /**
     * `learn_from_request`: adds the normalised endpoint and the entity the
     * path names. The query is only logged.
     */
    method LearnFromRequest(path: string, query: Option<string>)
      modifies whitelist
      ensures whitelist.endpoints == WithAdded(old(whitelist.endpoints), NormalizeEndpoint(path))
      ensures whitelist.entities ==
        if ExtractEntityFromPath(path).Some? then WithAdded(old(whitelist.entities), ExtractEntityFromPath(path).value)
        else old(whitelist.entities)
      ensures old(whitelist.Valid()) ==> whitelist.Valid()
      ensures whitelist.Extras() == old(whitelist.Extras())
    {
      var normalized := NormalizeEndpoint(path);
      var _ := whitelist.AddEndpoint(normalized);
      var entityId := ExtractEntityFromPath(path);
      if entityId.Some? && entityId.value != "" {
        var _ := whitelist.AddEntity(entityId.value);
      }
    }

    /**
     * `learn_from_response`: for a JSON response whose body decodes, every
     * id found in it is added to the entity list, in no particular order.
     * `body` is the decoded body, or nothing when decoding fails.
     */
    method LearnFromResponse(contentType: string, body: Option<Json>)
      modifies whitelist
      ensures !Contains(contentType, JsonMediaType) || body.None? ==>
        whitelist.entities == old(whitelist.entities)
      ensures Contains(contentType, JsonMediaType) && body.Some? ==>
        old(whitelist.entities) <= whitelist.entities &&
        Elems(whitelist.entities) == Elems(old(whitelist.entities)) + EntitiesIn(body.value) &&
        forall i | |old(whitelist.entities)| <= i < |whitelist.entities| ::
          whitelist.entities[i] !in whitelist.entities[..i]
      ensures whitelist.endpoints == old(whitelist.endpoints)
      ensures whitelist.endpointPatterns == old(whitelist.endpointPatterns)
      ensures whitelist.Extras() == old(whitelist.Extras())
    {
      if !Contains(contentType, JsonMediaType) || body.None? {
        return;
      }
      var found := ExtractEntitiesFromJson(body.value, {});
      var remaining := found;
      while remaining != {}
        invariant remaining <= found
        invariant old(whitelist.entities) <= whitelist.entities
        invariant Elems(whitelist.entities) == Elems(old(whitelist.entities)) + (found - remaining)
        invariant forall i | |old(whitelist.entities)| <= i < |whitelist.entities| ::
          whitelist.entities[i] !in whitelist.entities[..i]
        invariant whitelist.endpoints == old(whitelist.endpoints)
        invariant whitelist.endpointPatterns == old(whitelist.endpointPatterns)
        invariant whitelist.Extras() == old(whitelist.Extras())
        decreases remaining
      {
        var e :| e in remaining;
        ghost var before := whitelist.entities;
        var _ := whitelist.AddEntity(e);
        AppendedStaysFresh(old(whitelist.entities), before, whitelist.entities);
        remaining := remaining - {e};
      }
    }

    /**
     * `maybe_save`: counts the request and saves once the count reaches the
     * interval, resetting it. `written` is what the save writes.
     */
    method MaybeSave() returns (saved: bool, written: Option<WhitelistFile>)
      modifies this
      ensures (requestCount, saved) == CounterStep(old(requestCount), saveInterval)
      ensures saved ==> written == whitelist.SaveRecord()
      ensures !saved ==> written.None?
      ensures saveInterval == old(saveInterval)
      ensures old(requestCount) >= 0 && saveInterval >= 1 ==> 0 <= requestCount < saveInterval
    {
      requestCount := requestCount + 1;
      saved := false;
      written := None;
      if requestCount >= saveInterval {
        written := Save();
        saved := true;
        requestCount := 0;
      }
    }

    /** `save`: writes the whitelist now. */
    method Save() returns (written: Option<WhitelistFile>)
      ensures written == whitelist.SaveRecord()
    {
      written := whitelist.SaveRecord();
    }
  }

  /** Appending a fresh item keeps every item after `base` fresh. */
  lemma AppendedStaysFresh(base: seq<string>, before: seq<string>, after: seq<string>)
    requires base <= before && before <= after
    requires forall i | |base| <= i < |before| :: before[i] !in before[..i]
    requires forall i | |before| <= i < |after| :: after[i] !in after[..i]
    ensures base <= after
    ensures forall i | |base| <= i < |after| :: after[i] !in after[..i]
  {
    forall i | |base| <= i < |after| ensures after[i] !in after[..i] {
      if i < |before| {
        assert after[..i] == before[..i];
        assert after[i] == before[i];
      }
    }
  }
}

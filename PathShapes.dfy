/**
 * The fixed path regular expressions of ha_api_limiter/limiter.py and
 * ha_api_limiter/learner.py, written out as predicates and extractors
 * over the character classes `[a-z_]`, `[a-z0-9_]` and `\d`.
 */
module PathShapes {
  import opened Wrappers
  import opened Strings

  const StatesPrefix: string := "/api/states/"
  const CameraPrefix: string := "/api/camera_proxy/"
  const ServicesPrefix: string := "/api/services/"
  const HistoryPrefix: string := "/api/history/period/"
  const LogbookPrefix: string := "/api/logbook/"

  /** Entity ids hold neither `/` nor a newline. */
  lemma EntityIdChars(e: string)
    requires IsEntityId(e)
    ensures '/' !in e && '\n' !in e
  {
    var k :| 0 < k < |e| && e[k] == '.' && IsDomainRun(e[..k]) && IsObjectRun(e[k + 1..]);
    forall i | 0 <= i < |e| ensures e[i] != '/' && e[i] != '\n' {
      if i < k {
        assert e[..k][i] == e[i];
      } else if i > k {
        assert e[k + 1..][i - k - 1] == e[i];
      }
    }
  }

  /** `d.o` with `d` in `[a-z_]+` and `o` in `[a-z0-9_]+` is an entity id. */
  lemma JoinedEntityId(d: string, o: string)
    requires IsDomainRun(d) && IsObjectRun(o)
    ensures IsEntityId(d + "." + o)
  {
    var e := d + "." + o;
    assert e[|d|] == '.' && e[..|d|] == d && e[|d| + 1..] == o;
  }

  /**
   * `^<prefix>([a-z_]+\.[a-z0-9_]+)$`: the captured entity id when the
   * whole path (or all of it but a final newline) has that shape.
   */
  function EntityAfter(prefix: string, path: string): (r: Option<string>)
    ensures r.Some? ==> IsEntityId(r.value)
    ensures r.Some? ==> path == prefix + r.value || path == prefix + r.value + "\n"
  {
    var body := DollarBody(path);
    if StartsWith(body, prefix) && IsEntityId(body[|prefix|..]) then
      assert body == prefix + body[|prefix|..];
      Some(body[|prefix|..])
    else
      None
  }

  /** Every path of the shape yields its entity id, with or without a final newline. */
  lemma EntityAfterComplete(prefix: string, e: string)
    requires IsEntityId(e)
    ensures EntityAfter(prefix, prefix + e) == Some(e)
    ensures EntityAfter(prefix, prefix + e + "\n") == Some(e)
  {
    EntityIdChars(e);
    var p := prefix + e;
    assert p[|p| - 1] == e[|e| - 1];
    assert e[|e| - 1] in e;
    assert DollarBody(p) == p;
    assert p[|prefix|..] == e;
    var q := p + "\n";
    assert DollarBody(q) == p;
  }

  /** `^/api/services/([a-z_]+)/([a-z_]+)$` */
  predicate IsServicePath(path: string) {
    var body := DollarBody(path);
    StartsWith(body, ServicesPrefix) &&
    var rest := body[|ServicesPrefix|..];
    var k := IndexOf(rest, '/');
    k < |rest| && IsDomainRun(rest[..k]) && IsDomainRun(rest[k + 1..])
  }

  /** Every `/api/services/<domain>/<service>` path is recognised. */
  lemma ServicePathComplete(d: string, s: string)
    requires IsDomainRun(d) && IsDomainRun(s)
    ensures IsServicePath(ServicesPrefix + d + "/" + s)
  {
    var p := ServicesPrefix + d + "/" + s;
    assert p[|p| - 1] == s[|s| - 1];
    assert DollarBody(p) == p;
    var rest := p[|ServicesPrefix|..];
    assert rest == d + "/" + s;
    assert '/' !in d by {
      forall i | 0 <= i < |d| ensures d[i] != '/' {
        assert IsDomainChar(d[i]);
      }
    }
    IndexOfPast(d, '/', s);
    assert "/" == ['/'];
    assert rest[..|d|] == d && rest[|d| + 1..] == s;
  }

  /** `\d{4}-\d{2}-\d{2}` at the start of `s`, with nothing required after it. */
  predicate StartsWithDate(s: string) {
    |s| >= 10 &&
    IsDigit(s[0]) && IsDigit(s[1]) && IsDigit(s[2]) && IsDigit(s[3]) && s[4] == '-' &&
    IsDigit(s[5]) && IsDigit(s[6]) && s[7] == '-' && IsDigit(s[8]) && IsDigit(s[9])
  }

  /** `^<prefix>\d{4}-\d{2}-\d{2}` with no end anchor. */
  predicate IsDatedPath(prefix: string, path: string) {
    StartsWith(path, prefix) && StartsWithDate(path[|prefix|..])
  }
}

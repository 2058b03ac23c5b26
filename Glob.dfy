/**
 * Shell-style wildcard patterns as `fnmatch.fnmatch` applies them to entity,
 * device and area ids (POSIX, so case-sensitive): `*` matches any run of
 * characters, newlines included, `?` matches one character and every other
 * character matches itself; the match must cover the whole id.
 */
module Glob {
  import opened Strings

  predicate GlobMatch(p: string, s: string)
    decreases |p| + |s|
  {
    if p == [] then s == []
    else if p[0] == '*' then GlobMatch(p[1..], s) || (s != [] && GlobMatch(p, s[1..]))
    else s != [] && (p[0] == '?' || p[0] == s[0]) && GlobMatch(p[1..], s[1..])
  }

  /** A pattern with none of fnmatch's special characters. */
  predicate IsLiteral(p: string) {
    forall i | 0 <= i < |p| :: p[i] != '*' && p[i] != '?' && p[i] != '['
  }

  /** A pattern without wildcards matches exactly itself. */
  lemma {:induction false} LiteralMatchesOnlyItself(p: string, s: string)
    requires IsLiteral(p)
    ensures GlobMatch(p, s) <==> s == p
    decreases |p|
  {
    if p != [] && s != [] {
      LiteralMatchesOnlyItself(p[1..], s[1..]);
      assert p == [p[0]] + p[1..] && s == [s[0]] + s[1..];
    }
  }

  /** A lone `*` matches every id. */
  lemma {:induction false} StarMatchesEverything(s: string)
    ensures GlobMatch("*", s)
    decreases |s|
  {
    if s != [] {
      StarMatchesEverything(s[1..]);
    }
  }

  /** `<prefix>*` matches exactly the ids that start with the prefix (`light.*`). */
  lemma {:induction false} PrefixWildcardMatchesPrefix(prefix: string, s: string)
    requires IsLiteral(prefix)
    ensures GlobMatch(prefix + "*", s) <==> StartsWith(s, prefix)
    decreases |prefix|
  {
    if prefix == [] {
      assert prefix + "*" == "*";
      StarMatchesEverything(s);
    } else {
      var p := prefix + "*";
      assert p[0] == prefix[0] && p[1..] == prefix[1..] + "*";
      if s != [] {
        PrefixWildcardMatchesPrefix(prefix[1..], s[1..]);
        if StartsWith(s[1..], prefix[1..]) && s[0] == prefix[0] {
          assert s[..|prefix|] == [s[0]] + s[1..][..|prefix| - 1];
        }
        if StartsWith(s, prefix) {
          assert s[1..][..|prefix| - 1] == s[..|prefix|][1..];
        }
      }
    }
  }

  /** Some pattern of the list matches `s` (the loop of `is_entity_allowed`). */
  predicate AnyMatch(patterns: seq<string>, s: string) {
    exists i | 0 <= i < |patterns| :: GlobMatch(patterns[i], s)
  }

  /** Tries the patterns in order and stops at the first that matches. */
  method MatchesAny(patterns: seq<string>, s: string) returns (found: bool)
    ensures found == AnyMatch(patterns, s)
  {
    var i := 0;
    while i < |patterns|
      invariant 0 <= i <= |patterns|
      invariant forall k | 0 <= k < i :: !GlobMatch(patterns[k], s)
    {
      if GlobMatch(patterns[i], s) {
        return true;
      }
      i := i + 1;
    }
    return false;
  }

  /** `light.*` admits `light.bedroom`. */
  lemma DomainWildcardExample()
    ensures GlobMatch("light.*", "light.bedroom")
  {
    assert "light.*" == "light." + "*";
    PrefixWildcardMatchesPrefix("light.", "light.bedroom");
  }

  /** `sensor.weather_*` does not admit `sensor.humidity`. */
  lemma PartialWildcardExample()
    ensures !GlobMatch("sensor.weather_*", "sensor.humidity")
  {
    assert "sensor.weather_*" == "sensor.weather_" + "*";
    assert !StartsWith("sensor.humidity", "sensor.weather_") by {
      assert "sensor.humidity"[..15][7] == 'h';
    }
    PrefixWildcardMatchesPrefix("sensor.weather_", "sensor.humidity");
  }
}

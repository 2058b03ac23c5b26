/**
 * Text helpers shared by the whole model: the character classes that the
 * source's fixed regular expressions use, prefix tests, what Python's `$`
 * anchor accepts, Python's ordering of `str` values and `sorted(set(xs))`.
 */
module Strings {

  /** `[a-z_]`, the class used for entity domains and service names. */
  predicate IsDomainChar(c: char) {
    ('a' <= c <= 'z') || c == '_'
  }

  /** `[a-z0-9_]`, the class used for entity object ids. */
  predicate IsObjectChar(c: char) {
    ('a' <= c <= 'z') || ('0' <= c <= '9') || c == '_'
  }

  /** `\d`, restricted to ASCII digits. */
  predicate IsDigit(c: char) {
    '0' <= c <= '9'
  }

  /** `[a-z_]+` matches all of `s`. */
  predicate IsDomainRun(s: string) {
    |s| > 0 && forall i | 0 <= i < |s| :: IsDomainChar(s[i])
  }

  /** `[a-z0-9_]+` matches all of `s`. */
  predicate IsObjectRun(s: string) {
    |s| > 0 && forall i | 0 <= i < |s| :: IsObjectChar(s[i])
  }

  /** `[a-z_]+\.[a-z0-9_]+` matches all of `s`: an entity id such as `light.kitchen`. */
  predicate IsEntityId(s: string) {
    exists k | 0 < k < |s| :: s[k] == '.' && IsDomainRun(s[..k]) && IsObjectRun(s[k + 1..])
  }

  predicate StartsWith(s: string, prefix: string) {
    |prefix| <= |s| && s[..|prefix|] == prefix
  }

  /** `sub` occurs somewhere in `s` (Python's `sub in s` on two strings). */
  predicate Contains(s: string, sub: string)
    decreases |s|
  {
    StartsWith(s, sub) || (s != [] && Contains(s[1..], sub))
  }

  /**
   * Python's `$` (without MULTILINE) accepts the end of the text and also the
   * position just before a final newline. For a pattern whose language holds
   * no newline, `^P$` therefore matches `s` exactly when `P` matches all of
   * `DollarBody(s)`.
   */
  function DollarBody(s: string): (r: string)
    ensures r == s || (|s| > 0 && s[|s| - 1] == '\n' && r == s[..|s| - 1])
  {
    if |s| > 0 && s[|s| - 1] == '\n' then s[..|s| - 1] else s
  }

  /** The first index of `c` in `s`, or `|s|` when `c` does not occur. */
  function IndexOf(s: string, c: char): (r: nat)
    ensures r <= |s|
    ensures r < |s| ==> s[r] == c
    ensures forall i | 0 <= i < r :: s[i] != c
  {
    if s == [] then 0 else if s[0] == c then 0 else 1 + IndexOf(s[1..], c)
  }

  /** Concatenation regrouped; stated once so that proofs need not search for it. */
  lemma AppendAssoc<T>(a: seq<T>, b: seq<T>, c: seq<T>)
    ensures a + (b + c) == (a + b) + c
  {
  }

  /** A non-empty sequence is its front followed by its last element. */
  lemma SplitLast<T>(s: seq<T>)
    requires s != []
    ensures s == s[..|s| - 1] + [s[|s| - 1]]
  {
  }

  /** `c` found just past a run that does not contain it. */
  lemma {:induction false} IndexOfPast(a: string, c: char, b: string)
    requires c !in a
    ensures IndexOf(a + [c] + b, c) == |a|
    decreases |a|
  {
    if a != [] {
      assert (a + [c] + b)[1..] == a[1..] + [c] + b;
      IndexOfPast(a[1..], c, b);
    }
  }

  function Elems(s: seq<string>): set<string> {
    set x | x in s
  }

  // ---------------------------------------------------------------------
  // Python's `<` on `str`: lexicographic by code point.
  // ---------------------------------------------------------------------

  predicate Less(a: string, b: string)
    decreases |a|
  {
    if a == [] then b != []
    else b != [] && (a[0] < b[0] || (a[0] == b[0] && Less(a[1..], b[1..])))
  }

  lemma {:induction false} LessIrreflexive(a: string)
    ensures !Less(a, a)
    decreases |a|
  {
    if a != [] {
      LessIrreflexive(a[1..]);
    }
  }

  lemma {:induction false} LessTransitive(a: string, b: string, c: string)
    requires Less(a, b) && Less(b, c)
    ensures Less(a, c)
    decreases |a|
  {
    if a != [] && a[0] == b[0] && b[0] == c[0] {
      LessTransitive(a[1..], b[1..], c[1..]);
    }
  }

  lemma {:induction false} LessTotal(a: string, b: string)
    ensures a == b || Less(a, b) || Less(b, a)
    decreases |a|
  {
    if a != [] && b != [] && a[0] == b[0] {
      LessTotal(a[1..], b[1..]);
      if a[1..] == b[1..] {
        assert a == [a[0]] + a[1..] && b == [b[0]] + b[1..];
      }
    }
  }

  /** Strictly increasing in Python's order, hence free of duplicates. */
  predicate StrictlySorted(s: seq<string>) {
    forall i, j | 0 <= i < j < |s| :: Less(s[i], s[j])
  }

  /** Inserts `x` at its place in a strictly sorted list, unless it is already there. */
  function Insert(s: seq<string>, x: string): (r: seq<string>)
    requires StrictlySorted(s)
    ensures StrictlySorted(r)
    ensures Elems(r) == Elems(s) + {x}
  {
    if s == [] then [x]
    else if x == s[0] then s
    else if Less(x, s[0]) then
      forall j | 0 < j < |s| ensures Less(x, s[j]) {
        LessTransitive(x, s[0], s[j]);
      }
      [x] + s
    else
      LessTotal(x, s[0]);
      var rest := Insert(s[1..], x);
      assert Elems(s) == {s[0]} + Elems(s[1..]);
      forall y | y in rest ensures Less(s[0], y) {
        assert y in Elems(rest);
        if y != x {
          var k :| 1 <= k < |s| && s[k] == y;
        }
      }
      assert Elems([s[0]] + rest) == {s[0]} + Elems(rest);
      [s[0]] + rest
  }

  /** `sorted(set(xs))`. */
  function SortedUnique(xs: seq<string>): (r: seq<string>)
    ensures StrictlySorted(r)
    ensures Elems(r) == Elems(xs)
  {
    if xs == [] then []
    else
      var init := xs[..|xs| - 1];
      assert xs == init + [xs[|xs| - 1]];
      assert Elems(xs) == Elems(init) + {xs[|xs| - 1]};
      Insert(SortedUnique(init), xs[|xs| - 1])
  }

  /** A strictly sorted list is determined by its elements. */
  lemma {:induction false} SortedListsWithSameElementsAreEqual(a: seq<string>, b: seq<string>)
    requires StrictlySorted(a) && StrictlySorted(b)
    requires Elems(a) == Elems(b)
    ensures a == b
    decreases |a|
  {
    if a != [] && b != [] {
      // The head of each list is the least of the common elements.
      assert b[0] in Elems(a);
      assert a[0] in Elems(b);
      if a[0] != b[0] {
        var i :| 0 <= i < |a| && a[i] == b[0];
        var j :| 0 <= j < |b| && b[j] == a[0];
        assert i > 0 && j > 0;
        assert Less(a[0], b[0]) && Less(b[0], a[0]);
        LessTransitive(a[0], b[0], a[0]);
        LessIrreflexive(a[0]);
      }
      forall y | y in Elems(a[1..]) ensures y in Elems(b[1..]) {
        var i :| 1 <= i < |a| && a[i] == y;
        assert y in Elems(a);
        var j :| 0 <= j < |b| && b[j] == y;
        if j == 0 {
          LessIrreflexive(y);
        }
      }
      forall y | y in Elems(b[1..]) ensures y in Elems(a[1..]) {
        var j :| 1 <= j < |b| && b[j] == y;
        assert y in Elems(b);
        var i :| 0 <= i < |a| && a[i] == y;
        if i == 0 {
          LessIrreflexive(y);
        }
      }
      SortedListsWithSameElementsAreEqual(a[1..], b[1..]);
      assert a == [a[0]] + a[1..] && b == [b[0]] + b[1..];
    } else {
      ElemsEmpty(a);
      ElemsEmpty(b);
    }
  }

  lemma ElemsEmpty(s: seq<string>)
    ensures Elems(s) == {} <==> s == []
  {
    if s != [] {
      assert s[0] in Elems(s);
    }
  }

  /** `sorted(set(sorted(set(xs)))) == sorted(set(xs))`. */
  lemma SortedUniqueIdempotent(xs: seq<string>)
    ensures SortedUnique(SortedUnique(xs)) == SortedUnique(xs)
  {
    SortedListsWithSameElementsAreEqual(SortedUnique(SortedUnique(xs)), SortedUnique(xs));
  }
}

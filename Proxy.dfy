/**
 * The pure helpers of `HAProxy` (ha_api_limiter/proxy.py): the hop-by-hop
 * header filter, the stored upstream URL without trailing slashes, and
 * the WebSocket URL derived from it. The request forwarding itself is
 * network I/O and is not part of this model.
 */
module Proxy {
  import opened Wrappers
  import opened Strings

  // ---------------------------------------------------------------------
  // Header filtering
  // ---------------------------------------------------------------------

  /** `HOP_BY_HOP_HEADERS`: header names, in lower case, that are never forwarded. */
  const HopByHopHeaders: set<string> := {
    "connection", "keep-alive", "proxy-authenticate", "proxy-authorization",
    "te", "trailers", "transfer-encoding", "upgrade", "host",
    "content-length", "content-encoding"
  }

  /** `str.lower()` on one character, for ASCII letters. */
  function LowerChar(c: char): char {
    if 'A' <= c <= 'Z' then (c as int - 'A' as int + 'a' as int) as char else c
  }

  /** `str.lower()`, for ASCII letters. */
  function AsciiLower(s: string): (r: string)
    ensures |r| == |s|
    ensures forall i | 0 <= i < |s| :: r[i] == LowerChar(s[i])
  {
    seq(|s|, i requires 0 <= i < |s| => LowerChar(s[i]))
  }

  /** Lower-casing a lower-case name changes nothing. */
  lemma AsciiLowerIdempotent(s: string)
    ensures AsciiLower(AsciiLower(s)) == AsciiLower(s)
  {
    var once := AsciiLower(s);
    var twice := AsciiLower(once);
    assert forall i | 0 <= i < |s| :: twice[i] == once[i];
  }

  /** Lower-casing text without upper-case letters changes nothing. */
  lemma AsciiLowerOfLower(s: string)
    requires forall i | 0 <= i < |s| :: !('A' <= s[i] <= 'Z')
    ensures AsciiLower(s) == s
  {
  }

  /** One header survives the filter: its lower-cased name is not hop-by-hop. */
  predicate Forwardable(header: (string, string)) {
    AsciiLower(header.0) !in HopByHopHeaders
  }

  /**
   * `_filter_headers`: the headers, in their order, without those whose
   * lower-cased name is hop-by-hop. A header is kept exactly when it is
   * forwardable, with its value unchanged.
   */
  function FilterHeaders(headers: seq<(string, string)>): (r: seq<(string, string)>)
    ensures |r| <= |headers|
    ensures forall h :: h in r <==> h in headers && Forwardable(h)
  {
    if headers == [] then []
    else
      var init := FilterHeaders(headers[..|headers| - 1]);
      var last := headers[|headers| - 1];
      assert headers == headers[..|headers| - 1] + [last];
      if Forwardable(last) then init + [last] else init
  }

  /** `xs` is `ys` with some elements left out, the others in their order. */
  predicate IsSubsequence<T(==)>(xs: seq<T>, ys: seq<T>)
    decreases |ys|
  {
    xs == [] ||
    (ys != [] &&
     ((xs[|xs| - 1] == ys[|ys| - 1] && IsSubsequence(xs[..|xs| - 1], ys[..|ys| - 1])) ||
      IsSubsequence(xs, ys[..|ys| - 1])))
  }

  /** The filter keeps the order of the headers it forwards. */
  lemma {:induction false} FilterHeadersKeepsOrder(headers: seq<(string, string)>)
    ensures IsSubsequence(FilterHeaders(headers), headers)
    decreases |headers|
  {
    if headers != [] {
      var init := headers[..|headers| - 1];
      FilterHeadersKeepsOrder(init);
      if Forwardable(headers[|headers| - 1]) {
        var r := FilterHeaders(headers);
        assert r[..|r| - 1] == FilterHeaders(init);
      }
    }
  }

  /** A filtered header list holds no hop-by-hop header, so filtering it again changes nothing. */
  lemma {:induction false} FilterHeadersIdempotent(headers: seq<(string, string)>)
    ensures FilterHeaders(FilterHeaders(headers)) == FilterHeaders(headers)
    decreases |headers|
  {
    if headers != [] {
      var init := headers[..|headers| - 1];
      var last := headers[|headers| - 1];
      FilterHeadersIdempotent(init);
      if Forwardable(last) {
        var r := FilterHeaders(init) + [last];
        assert r[..|r| - 1] == FilterHeaders(init);
      }
    }
  }

  lemma AsciiLowerAppend(a: string, b: string)
    ensures AsciiLower(a + b) == AsciiLower(a) + AsciiLower(b)
  {
    var l, r := AsciiLower(a + b), AsciiLower(a) + AsciiLower(b);
    assert forall i | 0 <= i < |a + b| :: l[i] == r[i] by {
      forall i | 0 <= i < |a + b| ensures l[i] == r[i] {
        if i < |a| { assert (a + b)[i] == a[i]; } else { assert (a + b)[i] == b[i - |a|]; }
      }
    }
  }

  lemma HostNotForwardable(value: string)
    ensures !Forwardable(("Host", value))
  {
    var r := AsciiLower("Host");
    assert r[0] == 'h' && r[1] == 'o' && r[2] == 's' && r[3] == 't';
    assert r == "host";
  }

  lemma ContentLengthNotForwardable(value: string)
    ensures !Forwardable(("Content-Length", value))
  {
    assert AsciiLower("Content-") == "content-" by {
      LowerCapitalized('C', "ontent-");
      assert "Content-" == ['C'] + "ontent-";
    }
    assert AsciiLower("Length") == "length" by {
      LowerCapitalized('L', "ength");
      assert "Length" == ['L'] + "ength";
    }
    assert "Content-Length" == "Content-" + "Length";
    AsciiLowerAppend("Content-", "Length");
    assert "content-" + "length" == "content-length";
  }

  /** Lower-casing a capitalised word lowers only its first letter. */
  lemma LowerCapitalized(c: char, rest: string)
    requires 'A' <= c <= 'Z'
    requires forall i | 0 <= i < |rest| :: !('A' <= rest[i] <= 'Z')
    ensures AsciiLower([c] + rest) == [LowerChar(c)] + rest
  {
    AsciiLowerAppend([c], rest);
    AsciiLowerOfLower(rest);
  }

  lemma AcceptForwardable(value: string)
    ensures Forwardable(("Accept", value))
  {
    var r := AsciiLower("Accept");
    assert r[0] == 'a';
    assert r == "accept";
  }

  /** `Host` and `Content-Length` are dropped whatever their case; other headers pass. */
  lemma HostAndLengthDropped(host: string, length: string, accept: string)
    ensures FilterHeaders([("Host", host), ("Content-Length", length), ("Accept", accept)])
         == [("Accept", accept)]
  {
    HostNotForwardable(host);
    ContentLengthNotForwardable(length);
    AcceptForwardable(accept);
    var h := [("Host", host), ("Content-Length", length), ("Accept", accept)];
    var two := [("Host", host), ("Content-Length", length)];
    assert h[..2] == two;
    assert two[..1] == [("Host", host)];
    assert [("Host", host)][..0] == [];
    assert FilterHeaders([("Host", host)]) == [];
    assert FilterHeaders(two) == [];
    assert FilterHeaders(h) == [] + [("Accept", accept)];
  }

  // ---------------------------------------------------------------------
  // The upstream URL
  // ---------------------------------------------------------------------

  /** `s.rstrip("/")`: `s` without its trailing slashes. */
  function StripTrailingSlashes(s: string): (r: string)
    ensures |r| <= |s| && s[..|r|] == r
    ensures r == [] || r[|r| - 1] != '/'
    ensures forall i | |r| <= i < |s| :: s[i] == '/'
  {
    if s != [] && s[|s| - 1] == '/' then StripTrailingSlashes(s[..|s| - 1]) else s
  }

  /** Stripping removes exactly the slashes appended to a URL that does not end in one. */
  lemma {:induction false} StripAppendedSlashes(base: string, n: nat)
    requires base == [] || base[|base| - 1] != '/'
    ensures StripTrailingSlashes(base + seq(n, _ => '/')) == base
    decreases n
  {
    if n > 0 {
      assert (base + seq(n, _ => '/'))[..|base| + n - 1] == base + seq(n - 1, _ => '/');
      StripAppendedSlashes(base, n - 1);
    } else {
      assert base + seq(n, _ => '/') == base;
    }
  }

  /** The upstream URL `HAProxy` keeps: `(ha_url or settings.ha_url).rstrip("/")`. */
  function BaseUrl(haUrl: Option<string>, settingsUrl: string): (r: string)
    ensures r == [] || r[|r| - 1] != '/'
  {
    var chosen := if haUrl.Some? && haUrl.value != "" then haUrl.value else settingsUrl;
    StripTrailingSlashes(chosen)
  }

  // ---------------------------------------------------------------------
  // The WebSocket URL
  // ---------------------------------------------------------------------

  /** A character `urlparse` accepts in a scheme after its first letter. */
  predicate IsSchemeChar(c: char) {
    ('a' <= c <= 'z') || ('A' <= c <= 'Z') || ('0' <= c <= '9') || c == '+' || c == '-' || c == '.'
  }

  /** The text before the first `:` is a scheme: a letter, then scheme characters. */
  predicate IsScheme(s: string) {
    |s| > 0 && (('a' <= s[0] <= 'z') || ('A' <= s[0] <= 'Z')) &&
    forall i | 0 <= i < |s| :: IsSchemeChar(s[i])
  }

  /** The length of the network location at the start of `s`: up to the first `/`, `?` or `#`. */
  function NetlocLength(s: string): (r: nat)
    ensures r <= |s|
    ensures r < |s| ==> s[r] in "/?#"
    ensures forall i | 0 <= i < r :: s[i] !in "/?#"
  {
    if s == [] || s[0] in "/?#" then 0 else 1 + NetlocLength(s[1..])
  }

  /** The scheme and network location `urlparse` reads from a URL, the scheme lower-cased. */
  function SchemeAndNetloc(url: string): (r: (string, string))
  {
    var colon := IndexOf(url, ':');
    var scheme := if colon < |url| && IsScheme(url[..colon]) then AsciiLower(url[..colon]) else "";
    var rest := if colon < |url| && IsScheme(url[..colon]) then url[colon + 1..] else url;
    var netloc := if |rest| >= 2 && rest[..2] == "//" then rest[2..][..NetlocLength(rest[2..])] else "";
    (scheme, netloc)
  }

  /** `urlparse` recovers the scheme and host of a URL built from them. */
  lemma {:induction false} SchemeAndNetlocOfComposed(scheme: string, netloc: string, path: string)
    requires IsScheme(scheme)
    requires forall i | 0 <= i < |netloc| :: netloc[i] !in "/?#:"
    requires path == [] || path[0] in "/?#"
    ensures SchemeAndNetloc(scheme + "://" + netloc + path) == (AsciiLower(scheme), netloc)
  {
    var tail := "//" + netloc + path;
    var url := scheme + "://" + netloc + path;
    assert url == scheme + ":" + tail by {
      SchemeSeparator(scheme, netloc + path);
    }
    SchemeSplit(scheme, tail);
    assert tail[2..] == netloc + path;
    NetlocOfComposed(netloc, path);
  }

  lemma SchemeSeparator(scheme: string, rest: string)
    ensures scheme + "://" + rest == scheme + ":" + ("//" + rest)
  {
    assert "://" == ":" + "//";
  }

  /** The first `:` of `scheme:tail` ends the scheme. */
  lemma SchemeSplit(scheme: string, tail: string)
    requires IsScheme(scheme)
    ensures var url := scheme + ":" + tail;
      IndexOf(url, ':') == |scheme| && url[..|scheme|] == scheme && url[|scheme| + 1..] == tail
  {
    assert ':' !in scheme by {
      forall i | 0 <= i < |scheme| ensures scheme[i] != ':' {
        assert IsSchemeChar(scheme[i]);
      }
    }
    var url := scheme + ":" + tail;
    assert url == scheme + [':'] + tail;
    IndexOfPast(scheme, ':', tail);
    assert url[..|scheme|] == scheme;
  }

  lemma {:induction false} NetlocOfComposed(netloc: string, path: string)
    requires forall i | 0 <= i < |netloc| :: netloc[i] !in "/?#:"
    requires path == [] || path[0] in "/?#"
    ensures NetlocLength(netloc + path) == |netloc|
    decreases |netloc|
  {
    if netloc != [] {
      assert (netloc + path)[1..] == netloc[1..] + path;
      NetlocOfComposed(netloc[1..], path);
    } else {
      assert netloc + path == path;
    }
  }

  lemma HttpSchemes()
    ensures IsScheme("https") && AsciiLower("https") == "https"
    ensures IsScheme("http") && AsciiLower("http") == "http"
  {
    AsciiLowerOfLower("https");
    AsciiLowerOfLower("http");
  }

  /** The WebSocket scheme for an upstream scheme: `wss` exactly for `https`. */
  function WsScheme(scheme: string): (r: string)
    ensures r == "wss" <==> scheme == "https"
    ensures r == "ws" <==> scheme != "https"
  {
    if scheme == "https" then "wss" else "ws"
  }

  /** The URL `HAProxy` holds: its upstream URL, kept without trailing slashes. */
  class HAProxy {
    const haUrl: string

    /** `HAProxy.__init__`: the given URL, or the configured one, without trailing slashes. */
    constructor(haUrl: Option<string>, settingsUrl: string)
      ensures this.haUrl == BaseUrl(haUrl, settingsUrl)
      ensures this.haUrl == [] || this.haUrl[|this.haUrl| - 1] != '/'
    {
      this.haUrl := BaseUrl(haUrl, settingsUrl);
    }

    /**
     * `_get_ws_url`: `wss` exactly when the upstream scheme is `https`,
     * then the upstream host, then `path` unchanged.
     */
    function GetWsUrl(path: string): (r: string)
      ensures StartsWith(r, "wss://") <==> SchemeAndNetloc(haUrl).0 == "https"
      ensures |path| <= |r| && r[|r| - |path|..] == path
    {
      var (scheme, netloc) := SchemeAndNetloc(haUrl);
      var r := WsScheme(scheme) + "://" + netloc + path;
      assert scheme != "https" ==> !StartsWith(r, "wss://") by {
        if scheme != "https" && |r| >= 6 {
          assert r[2] == ':';
          assert r[..6][2] != "wss://"[2];
        }
      }
      assert r[|r| - |path|..] == path;
      r
    }

    /** An `https` upstream gives a `wss` URL on the same host with the path appended. */
    lemma WsUrlOfHttps(netloc: string, base: string, path: string)
      requires haUrl == "https://" + netloc + base
      requires forall i | 0 <= i < |netloc| :: netloc[i] !in "/?#:"
      requires base == [] || base[0] in "/?#"
      ensures GetWsUrl(path) == "wss://" + netloc + path
    {
      HttpSchemes();
      SchemeAndNetlocOfComposed("https", netloc, base);
      assert "https" + "://" + netloc + base == haUrl;
      assert SchemeAndNetloc(haUrl) == ("https", netloc);
      assert GetWsUrl(path) == "wss" + "://" + netloc + path;
      assert "wss" + "://" == "wss://";
    }

    /** An `http` upstream gives a plain `ws` URL on the same host with the path appended. */
    lemma WsUrlOfHttp(netloc: string, base: string, path: string)
      requires haUrl == "http://" + netloc + base
      requires forall i | 0 <= i < |netloc| :: netloc[i] !in "/?#:"
      requires base == [] || base[0] in "/?#"
      ensures GetWsUrl(path) == "ws://" + netloc + path
    {
      HttpSchemes();
      SchemeAndNetlocOfComposed("http", netloc, base);
      assert "http" + "://" + netloc + base == haUrl;
      assert SchemeAndNetloc(haUrl) == ("http", netloc);
      assert GetWsUrl(path) == "ws" + "://" + netloc + path;
      assert "ws" + "://" == "ws://";
    }
  }
}

/**
 * The part of Python's `urllib.parse.urlparse` the shell relies on: the scheme,
 * the network location after `//`, the path with its `;params`, the query and
 * the fragment, and the `ValueError` raised for an unbalanced `[` or `]` in the
 * network location or for a network location that NFKC normalisation would
 * give a `/ ? # @ :`.
 */
module Urls {
  import opened Wrappers
  import opened Text

  datatype ParsedUrl = ParsedUrl(scheme: string, netloc: string, path: string, params: string,
                                 query: string, fragment: string)

  predicate IsAsciiLetter(c: char) {
    'a' <= c <= 'z' || 'A' <= c <= 'Z'
  }

  /** `scheme_chars`: letters, digits and `+ - .`. */
  predicate IsSchemeChar(c: char) {
    IsAsciiLetter(c) || IsAsciiDigit(c) || c == '+' || c == '-' || c == '.'
  }

  /** WHATWG C0 control or space: stripped from the front of the URL. */
  predicate IsC0OrSpace(c: char) {
    c <= ' '
  }

  function StripLeadingC0(s: string): (r: string)
    ensures |r| <= |s| && r == s[|s| - |r|..]
    ensures r == [] || !IsC0OrSpace(r[0])
    ensures s == [] || !IsC0OrSpace(s[0]) ==> r == s
  {
    if s == [] || !IsC0OrSpace(s[0]) then s else StripLeadingC0(s[1..])
  }

  /** Tab, carriage return and line feed are removed anywhere in the URL. */
  predicate IsUnsafe(c: char) {
    c == '\t' || c == '\r' || c == '\n'
  }

  function RemoveUnsafe(s: string): (r: string)
    ensures forall i :: 0 <= i < |r| ==> !IsUnsafe(r[i])
    ensures (forall i :: 0 <= i < |s| ==> !IsUnsafe(s[i])) ==> r == s
  {
    if s == [] then [] else (if IsUnsafe(s[0]) then [] else [s[0]]) + RemoveUnsafe(s[1..])
  }

  /** The length of the scheme: the text before the first `:` when it is a valid scheme, else 0. */
  function SchemeLength(url: string): (n: nat)
    ensures n < |url|
      ==> n == 0 || (url[n] == ':' && IsAsciiLetter(url[0]) && forall i :: 0 <= i < n ==> IsSchemeChar(url[i]))
    ensures n <= |url|
  {
    var colon := TakeUntil(url, ':');
    if |colon| < |url| && |colon| > 0 && IsAsciiLetter(url[0]) && forall i :: 0 <= i < |colon| ==> IsSchemeChar(colon[i])
    then |colon| else 0
  }

  /** The end of the network location: the first of `/ ? #` at or after `from`, or the end. */
  function NetlocEnd(s: string, from: nat): (e: nat)
    requires from <= |s|
    ensures from <= e <= |s|
    ensures forall i :: from <= i < e ==> s[i] != '/' && s[i] != '?' && s[i] != '#'
    ensures e < |s| ==> s[e] == '/' || s[e] == '?' || s[e] == '#'
    decreases |s| - from
  {
    if from == |s| || s[from] == '/' || s[from] == '?' || s[from] == '#' then from else NetlocEnd(s, from + 1)
  }

  /** The schemes for which `urlparse` splits `;params` off the path (`uses_params` of Python 3.12). */
  const UsesParams: seq<string> := ["", "ftp", "hdl", "prospero", "http", "imap", "https", "shttp",
                                    "rtsp", "rtsps", "rtspu", "sip", "sips", "mms", "sftp", "tel"]

  /** `url.split(c, 1)` when `c` occurs, else the whole text and an empty remainder. */
  function SplitOnce(s: string, c: char): (r: (string, string))
    ensures c !in r.0
    ensures c in s ==> s == r.0 + [c] + r.1
    ensures c !in s ==> r == (s, [])
  {
    var head := TakeUntil(s, c);
    if |head| < |s| then
      assert s == head + [c] + s[|head| + 1..];
      (head, s[|head| + 1..])
    else
      assert c !in s;
      (s, [])
  }

  /** `_splitparams`: the `;` searched for is the first one after the last `/`. */
  function SplitParams(path: string): (r: (string, string))
    ensures '/' !in r.1
    ensures r.0 == path || path == r.0 + ";" + r.1
  {
    var tail := AfterLast(path, '/');
    if ';' in tail then
      var cut := SplitOnce(tail, ';');
      var head := path[..|path| - |tail|];
      ResplitParams(path, head, tail, cut.0, cut.1);
      (head + cut.0, cut.1)
    else (path, [])
  }

  lemma ResplitParams(path: string, head: string, tail: string, a: string, b: string)
    requires |tail| <= |path| && tail == path[|path| - |tail|..] && head == path[..|path| - |tail|]
    requires tail == a + [';'] + b && '/' !in tail
    ensures '/' !in b
    ensures path == (head + a) + ";" + b
  {
    assert path == head + tail;
    assert forall x :: x in b ==> x in tail;
  }

  /**
   * `_splitnetloc(url, 2)` after a leading `//`: the network location runs to
   * the first of `/ ? #`; without `//` there is none.
   */
  function SplitNetloc(rest: string): (r: (string, string))
    ensures StartsWith(rest, "//") ==> rest == "//" + r.0 + r.1
    ensures !StartsWith(rest, "//") ==> r == ([], rest)
    ensures '/' !in r.0 && '?' !in r.0 && '#' !in r.0
  {
    if StartsWith(rest, "//") then
      var e := NetlocEnd(rest, 2);
      var netloc := rest[2..e];
      assert forall i :: 0 <= i < |netloc| ==> netloc[i] == rest[2 + i];
      assert rest == rest[..2] + netloc + rest[e..];
      (netloc, rest[e..])
    else ([], rest)
  }

  /**
   * Characters whose NFKC form holds one of `/ ? # @ :`: the fullwidth, small
   * and vertical forms of those signs, and the compatibility characters for
   * a/c, a/s, c/o, c/u and ::=. The Unicode table is abridged to these.
   */
  predicate IsNfkcReserved(c: char) {
    c == '\U{ff03}' || c == '\U{ff0f}' || c == '\U{ff1a}' || c == '\U{ff1f}' || c == '\U{ff20}'
    || c == '\U{fe55}' || c == '\U{fe56}' || c == '\U{fe5f}' || c == '\U{fe6b}'
    || c == '\U{fe13}' || c == '\U{fe16}'
    || c == '\U{2100}' || c == '\U{2101}' || c == '\U{2105}' || c == '\U{2106}' || c == '\U{2a74}'
  }

  /**
   * `_checknetloc` raises: the network location is not ASCII, and its NFKC form
   * (with `@ : # ?` taken out first) holds one of `/ ? # @ :`. Every reserved
   * character is non-ASCII and is changed by NFKC, so one occurrence is enough.
   */
  predicate NfkcInvalid(netloc: string) {
    exists i :: 0 <= i < |netloc| && IsNfkcReserved(netloc[i])
  }

  /**
   * `urlsplit(url)`. `Err` is the `ValueError` for an unbalanced `[` or `]`, or
   * the one of `_checknetloc`.
   */
  function Urlsplit(url: string): (r: Result<ParsedUrl, string>)
    ensures r.Ok? ==> '/' !in r.value.netloc && '?' !in r.value.netloc && '#' !in r.value.netloc
    ensures r.Ok? ==> '?' !in r.value.path && '#' !in r.value.path && '#' !in r.value.query
    ensures var netloc := SplitNetloc(SplitScheme(url).1).0;
      r.Ok? <==> (('[' in netloc <==> ']' in netloc) && !NfkcInvalid(netloc))
  {
    var (scheme, rest) := SplitScheme(url);
    var (netloc, after) := SplitNetloc(rest);
    if ('[' in netloc) != (']' in netloc) then Err("Invalid IPv6 URL")
    else if NfkcInvalid(netloc) then
      Err("netloc '" + netloc + "' contains invalid characters under NFKC normalization")
    else
      var (beforeFragment, fragment) := SplitOnce(after, '#');
      var (path, query) := SplitOnce(beforeFragment, '?');
      SplitOnceParts(beforeFragment, '?', '#');
      Ok(ParsedUrl(scheme, netloc, path, [], query, fragment))
  }

  /** The cleaned URL cut after its scheme: the lower-cased scheme (or none) and the rest. */
  function SplitScheme(url: string): (r: (string, string))
  {
    var u := RemoveUnsafe(StripLeadingC0(url));
    var n := SchemeLength(u);
    if n > 0 then (Lower(u[..n]), u[n + 1..]) else ([], u)
  }

  lemma SplitOnceParts(s: string, c: char, d: char)
    requires d !in s
    ensures d !in SplitOnce(s, c).0 && d !in SplitOnce(s, c).1
  {
    var r := SplitOnce(s, c);
    if c in s {
      assert s == r.0 + [c] + r.1;
      assert forall x :: x in r.0 || x in r.1 ==> x in s;
    }
  }

  /** `urlparse(url)`: as `urlsplit`, with `;params` split off the path for the schemes in `UsesParams`. */
  function Urlparse(url: string): (r: Result<ParsedUrl, string>)
    ensures r.Ok? <==> Urlsplit(url).Ok?
    ensures r.Ok? ==> r.value.netloc == Urlsplit(url).value.netloc && r.value.query == Urlsplit(url).value.query
    ensures r.Ok? ==> '?' !in r.value.path && '#' !in r.value.path
  {
    match Urlsplit(url)
    case Err(e) => Err(e)
    case Ok(p) =>
      if p.scheme in UsesParams && ';' in p.path then
        var (path, params) := SplitParams(p.path);
        PrefixKeepsAbsent(p.path, path, params);
        Ok(p.(path := path, params := params))
      else Ok(p)
  }

  /** An `rtsps` URL, like an `https` one, has `;params` split off the last segment of its path. */
  lemma RtspsSplitsParams(url: string, p: ParsedUrl)
    requires Urlsplit(url) == Ok(p) && p.scheme == "rtsps" && ';' in p.path
    ensures Urlparse(url) == Ok(p.(path := SplitParams(p.path).0, params := SplitParams(p.path).1))
  {
    assert "rtsps" in UsesParams;
  }

  /**
   * A fullwidth solidus is not a `/` to the netloc split, so it stays in the
   * network location, where `_checknetloc` rejects it.
   */
  lemma FullwidthSolidusRaises(rest: string)
    requires PlainChars(rest) && '/' !in rest && '?' !in rest
    ensures Urlparse("https://coomer.su\U{ff0f}" + rest).Err?
  {
    var host := "coomer.su\U{ff0f}" + rest;
    assert PlainChars(host) by {
      PlainAppend("coomer.su\U{ff0f}", rest);
    }
    assert "https://coomer.su\U{ff0f}" + rest == "https:" + ("//" + (host + []));
    PlainAppend("//", host);
    assert "//" + host == "//" + (host + []);
    SchemeOfHttps("//" + (host + []));
    FullwidthHostDelimiters(rest);
    NetlocOfHost("//" + (host + []), host, []);
    assert IsNfkcReserved(host[9]);
  }

  lemma FullwidthHostDelimiters(rest: string)
    requires PlainChars(rest) && '/' !in rest && '?' !in rest
    ensures var host := "coomer.su\U{ff0f}" + rest;
      '/' !in host && '?' !in host && '#' !in host
  {
    var host := "coomer.su\U{ff0f}" + rest;
    assert forall i :: 0 <= i < |host| ==> host[i] == (if i < 10 then "coomer.su\U{ff0f}"[i] else rest[i - 10]);
  }

  lemma PrefixKeepsAbsent(s: string, a: string, b: string)
    requires a == s || s == a + ";" + b
    ensures forall c :: c in a && c != ';' ==> c in s
  {
    if a != s {
      forall c | c in a ensures c in s {
        var i :| 0 <= i < |a| && a[i] == c;
        assert s[i] == c;
      }
    }
  }

  /** No tab, carriage return, line feed or `#`. */
  predicate PlainChars(s: string) {
    forall i :: 0 <= i < |s| ==> !IsUnsafe(s[i]) && s[i] != '#'
  }

  /**
   * `urlparse("https://" + host + path + suffix)` separates exactly those parts
   * when the host holds none of `/ ? # [ ]` and no character that NFKC turns
   * into one of `/ ? # @ :`, the path is absolute or empty with no `?` or `;`,
   * and the suffix is empty or a `?query`.
   */
  lemma ParseHttps(host: string, path: string, suffix: string)
    requires PlainChars(host) && PlainChars(path) && PlainChars(suffix)
    requires '/' !in host && '?' !in host && '[' !in host && ']' !in host && !NfkcInvalid(host)
    requires path == [] || path[0] == '/'
    requires '?' !in path && ';' !in path
    requires suffix == [] || suffix[0] == '?'
    ensures Urlparse("https://" + host + path + suffix)
         == Ok(ParsedUrl("https", host, path, [], if suffix == [] then [] else suffix[1..], []))
  {
    SplitHttps(host, path, suffix);
    assert "https" in UsesParams;
  }

  lemma SplitHttps(host: string, path: string, suffix: string)
    requires PlainChars(host) && PlainChars(path) && PlainChars(suffix)
    requires '/' !in host && '?' !in host && '[' !in host && ']' !in host && !NfkcInvalid(host)
    requires path == [] || path[0] == '/'
    requires '?' !in path
    requires suffix == [] || suffix[0] == '?'
    ensures Urlsplit("https://" + host + path + suffix)
         == Ok(ParsedUrl("https", host, path, [], if suffix == [] then [] else suffix[1..], []))
  {
    var tail := path + suffix;
    var rest := "//" + (host + tail);
    PlainAppend(path, suffix);
    PlainAppend(host, tail);
    PlainAppend("//", host + tail);
    assert "https:" + rest == "https://" + host + path + suffix;
    SchemeOfHttps(rest);
    NetlocOfHost(rest, host, tail);
    assert '#' !in tail;
    QueryOfTail(path, suffix);
  }

  lemma PlainAppend(a: string, b: string)
    requires PlainChars(a) && PlainChars(b)
    ensures PlainChars(a + b)
  {
    forall i | 0 <= i < |a + b| ensures !IsUnsafe((a + b)[i]) && (a + b)[i] != '#' {
      if i >= |a| {
        assert (a + b)[i] == b[i - |a|];
      }
    }
  }

  /** The scheme of `"https:" + rest` is `https`, and the rest is handed on unchanged. */
  lemma SchemeOfHttps(rest: string)
    requires PlainChars(rest)
    ensures SplitScheme("https:" + rest) == ("https", rest)
  {
    var url := "https:" + rest;
    PlainAppend("https:", rest);
    assert StripLeadingC0(url) == url;
    assert RemoveUnsafe(url) == url;
    HttpsSchemeLength(url, rest);
    assert url[..5] == "https";
    var lowered := Lower("https");
    assert forall i :: 0 <= i < 5 ==> lowered[i] == "https"[i];
    assert lowered == "https";
    assert url[6..] == rest;
  }

  lemma HttpsSchemeLength(url: string, rest: string)
    requires url == "https:" + rest
    ensures SchemeLength(url) == 5
  {
    assert url == "https" + [':'] + rest;
    TakeUntilAt("https", rest, ':');
    var colon := TakeUntil(url, ':');
    assert colon == "https";
    assert forall i :: 0 <= i < |colon| ==> IsSchemeChar(colon[i]);
  }

  lemma NetlocOfHost(rest: string, host: string, tail: string)
    requires rest == "//" + (host + tail)
    requires '/' !in host && '?' !in host && '#' !in host
    requires tail == [] || tail[0] == '/' || tail[0] == '?'
    ensures SplitNetloc(rest) == (host, tail)
  {
    assert rest[..2] == "//";
    forall i | 2 <= i < 2 + |host| ensures rest[i] != '/' && rest[i] != '?' && rest[i] != '#' {
      assert rest[i] == host[i - 2];
    }
    NetlocEndSkips(rest, 2, 2 + |host|);
    assert rest[2..2 + |host|] == host;
    assert rest[2 + |host|..] == tail;
  }

  /** The path ends at the first `?`; there is no fragment. */
  lemma QueryOfTail(path: string, suffix: string)
    requires '?' !in path && '#' !in path + suffix
    requires suffix == [] || suffix[0] == '?'
    ensures SplitOnce(path + suffix, '#') == (path + suffix, [])
    ensures SplitOnce(path + suffix, '?') == (path, if suffix == [] then [] else suffix[1..])
  {
    if suffix == [] {
      assert path + suffix == path;
    } else {
      assert path + suffix == path + ['?'] + suffix[1..];
      TakeUntilAt(path, suffix[1..], '?');
    }
  }

  lemma NetlocEndSkips(s: string, from: nat, to: nat)
    requires from <= to <= |s|
    requires forall i :: from <= i < to ==> s[i] != '/' && s[i] != '?' && s[i] != '#'
    requires to == |s| || s[to] == '/' || s[to] == '?' || s[to] == '#'
    ensures NetlocEnd(s, from) == to
    decreases |s| - from
  {
    if from < to {
      NetlocEndSkips(s, from + 1, to);
    }
  }

  lemma TakeUntilAt(a: string, b: string, c: char)
    requires c !in a
    ensures TakeUntil(a + [c] + b, c) == a
  {
    assert (a + [c] + b)[..|a|] == a;
    assert (a + [c] + b)[|a|] == c;
  }
}

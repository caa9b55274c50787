/**
 * The application shell (app/ui.py): parsing of coomer/kemono URLs, the site
 * dispatch of `start_download`, translation lookup, the error/warning
 * classification of log messages, the trimming of the log window, the counts of
 * the exported summary, and the close and cancel decisions.
 */
module Shell {
  import opened Wrappers
  import opened Text
  import opened Numerals
  import opened Urls

  // ---------------------------------------------------------------------------
  // extract_ck_parameters
  // ---------------------------------------------------------------------------

  /** `[^/?]`: a character that may appear inside a path segment. */
  predicate IsSegChar(c: char) {
    c != '/' && c != '?'
  }

  /** A non-empty run of segment characters (what `[^/?]+` matches). */
  predicate IsSegment(s: string) {
    |s| > 0 && forall i :: 0 <= i < |s| ==> IsSegChar(s[i])
  }

  /** The end of the longest run of segment characters from `from` (greedy `[^/?]+`). */
  function SegmentEnd(s: string, from: nat): (e: nat)
    requires from <= |s|
    ensures from <= e <= |s|
    ensures forall i :: from <= i < e ==> IsSegChar(s[i])
    ensures e < |s| ==> !IsSegChar(s[e])
    decreases |s| - from
  {
    if from == |s| || !IsSegChar(s[from]) then from else SegmentEnd(s, from + 1)
  }

  lemma SegmentEndSkips(s: string, from: nat, to: nat)
    requires from <= to <= |s|
    requires forall i :: from <= i < to ==> IsSegChar(s[i])
    requires to == |s| || !IsSegChar(s[to])
    ensures SegmentEnd(s, from) == to
    decreases |s| - from
  {
    if from < to {
      SegmentEndSkips(s, from + 1, to);
    }
  }

  /** Where `/(?P<service>[^/?]+)` can match: a `/` followed by a segment character. */
  predicate SegmentStartsAt(s: string, i: nat) {
    i + 1 < |s| && s[i] == '/' && IsSegChar(s[i + 1])
  }

  /** The leftmost position from `from` where a segment starts (`re.search` scans left to right). */
  function FirstSegment(s: string, from: nat): (r: Option<nat>)
    requires from <= |s|
    ensures r.Some? ==> from <= r.value && SegmentStartsAt(s, r.value)
    ensures r.Some? ==> forall j :: from <= j < r.value ==> !SegmentStartsAt(s, j)
    ensures r.None? ==> forall j :: from <= j < |s| ==> !SegmentStartsAt(s, j)
    decreases |s| - from
  {
    if from == |s| then None
    else if SegmentStartsAt(s, from) then Some(from)
    else FirstSegment(s, from + 1)
  }

  /** `marker` at `at`, followed by a segment character: where an optional group can match. */
  predicate MarkedSegment(s: string, at: nat, marker: string) {
    at + |marker| < |s| && OccursAt(s, marker, at) && IsSegChar(s[at + |marker|])
  }

  /** `seg` is what a greedy `[^/?]+` started at `from` captures, ending at `e`. */
  predicate CapturedAt(s: string, from: nat, seg: string, e: nat) {
    && from + |seg| == e <= |s|
    && IsSegment(seg) && s[from..e] == seg
    && (e == |s| || !IsSegChar(s[e]))
  }

  /**
   * The optional part `marker` + `[^/?]+` tried at `at`: the segment it captures
   * and where the match ends, or `None` when that part does not match there.
   */
  function GroupAfter(s: string, at: nat, marker: string): (r: Option<(string, nat)>)
    ensures r.Some? <==> MarkedSegment(s, at, marker)
    ensures r.Some? ==> CapturedAt(s, at + |marker|, r.value.0, r.value.1)
  {
    if MarkedSegment(s, at, marker) then
      var e := SegmentEnd(s, at + |marker|);
      Some((s[at + |marker|..e], e))
    else None
  }

  datatype CkParams = CkParams(service: Option<string>, user: Option<string>, post: Option<string>)

  /**
   * `extract_ck_parameters`: the match of
   * `/(?P<service>[^/?]+)(/user/(?P<user>[^/?]+)(/post/(?P<post>[^/?]+))?)?`
   * searched in the path. Each group is greedy and each optional part is tried
   * right after the group before it.
   */
  function ExtractCkParameters(path: string): (r: CkParams)
    ensures r.post.Some? ==> r.user.Some?
    ensures r.user.Some? ==> r.service.Some?
    ensures r.service.None? <==> forall j :: 0 <= j < |path| ==> !SegmentStartsAt(path, j)
    ensures r.service.Some? ==> IsSegment(r.service.value)
    ensures r.user.Some? ==> IsSegment(r.user.value)
    ensures r.post.Some? ==> IsSegment(r.post.value)
  {
    match FirstSegment(path, 0)
    case None => CkParams(None, None, None)
    case Some(i) => MatchFrom(path, i)
  }

  /** The match once `/(?P<service>...)` is anchored at `i`. */
  function MatchFrom(path: string, i: nat): (r: CkParams)
    requires SegmentStartsAt(path, i)
    ensures r.service.Some? && IsSegment(r.service.value)
    ensures r.post.Some? ==> r.user.Some?
    ensures r.user.Some? ==> IsSegment(r.user.value)
    ensures r.post.Some? ==> IsSegment(r.post.value)
  {
    var service := path[i + 1..SegmentEnd(path, i + 1)];
    match GroupAfter(path, SegmentEnd(path, i + 1), "/user/")
    case None => CkParams(Some(service), None, None)
    case Some((user, ue)) =>
      match GroupAfter(path, ue, "/post/")
      case None => CkParams(Some(service), Some(user), None)
      case Some((post, _)) => CkParams(Some(service), Some(user), Some(post))
  }

  /** Three adjacent slices of `s` spell their concatenation at the first one's start. */
  lemma OccursJoined(s: string, i: nat, j: nat, k: nat, l: nat, x: string, y: string, z: string)
    requires i <= j <= k <= l <= |s|
    requires s[i..j] == x && s[j..k] == y && s[k..l] == z
    ensures OccursAt(s, x + y + z, i)
  {
    assert s[i..l] == s[i..j] + s[j..k] + s[k..l];
  }

  /** The parts found are written one after the other in the path, as the pattern spells them. */
  lemma CkParametersOccur(path: string)
    ensures var r := ExtractCkParameters(path);
      && (r.service.Some? ==> Contains(path, "/" + r.service.value))
      && (r.user.Some? ==> Contains(path, "/" + r.service.value + "/user/" + r.user.value))
      && (r.post.Some? ==>
            Contains(path, "/" + r.service.value + "/user/" + r.user.value + "/post/" + r.post.value))
  {
    var first := FirstSegment(path, 0);
    if first.Some? {
      MatchFromOccurs(path, first.value);
    }
  }

  lemma MatchFromOccurs(path: string, i: nat)
    requires SegmentStartsAt(path, i)
    ensures var r := MatchFrom(path, i);
      && Contains(path, "/" + r.service.value)
      && (r.user.Some? ==> Contains(path, "/" + r.service.value + "/user/" + r.user.value))
      && (r.post.Some? ==>
            Contains(path, "/" + r.service.value + "/user/" + r.user.value + "/post/" + r.post.value))
  {
    var se := SegmentEnd(path, i + 1);
    var sv := "/" + path[i + 1..se];
    assert OccursAt(path, sv, i) by {
      assert path[i..se] == [path[i]] + path[i + 1..se];
    }
    ContainsAt(path, sv, i);
    var u := GroupAfter(path, se, "/user/");
    if u.Some? {
      UserOccurs(path, i, se, sv, u.value.0, u.value.1);
    }
  }

  lemma UserOccurs(path: string, i: nat, se: nat, sv: string, user: string, ue: nat)
    requires i <= se && OccursAt(path, sv, i) && |sv| == se - i
    requires GroupAfter(path, se, "/user/") == Some((user, ue))
    ensures Contains(path, sv + "/user/" + user)
    ensures GroupAfter(path, ue, "/post/").Some? ==>
      Contains(path, sv + "/user/" + user + "/post/" + GroupAfter(path, ue, "/post/").value.0)
  {
    var su := sv + "/user/" + user;
    OccursJoined(path, i, se, se + 6, ue, sv, "/user/", user);
    ContainsAt(path, su, i);
    var p := GroupAfter(path, ue, "/post/");
    if p.Some? {
      OccursJoined(path, i, ue, ue + 6, p.value.1, su, "/post/", p.value.0);
      ContainsAt(path, su + "/post/" + p.value.0, i);
    }
  }

  /** A segment written at `|x|` and followed by a non-segment character is what the greedy group takes. */
  lemma CaptureWritten(x: string, seg: string, y: string)
    requires IsSegment(seg) && (y == [] || !IsSegChar(y[0]))
    ensures CapturedAt(x + seg + y, |x|, seg, |x| + |seg|)
    ensures SegmentEnd(x + seg + y, |x|) == |x| + |seg|
  {
    var s := x + seg + y;
    assert s[|x|..|x| + |seg|] == seg;
    SegmentOf(s, |x|, seg);
  }

  /** `marker` written at `|x|` before a segment: the optional part matches there. */
  lemma GroupWritten(x: string, marker: string, seg: string, y: string)
    requires IsSegment(seg) && (y == [] || !IsSegChar(y[0]))
    ensures GroupAfter(x + marker + seg + y, |x|, marker) == Some((seg, |x| + |marker| + |seg|))
  {
    var s := x + marker + seg + y;
    assert s[|x|..|x| + |marker|] == marker;
    assert s[|x| + |marker|] == seg[0];
    CaptureWritten(x + marker, seg, y);
  }

  /** Nothing matches at `|x|` unless `marker` is written there. */
  lemma GroupAbsent(x: string, marker: string, y: string)
    requires !MarkedSegment(y, 0, marker)
    ensures GroupAfter(x + y, |x|, marker).None?
  {
    var s := x + y;
    if |x| + |marker| < |s| {
      assert s[|x|..|x| + |marker|] == y[..|marker|];
      assert s[|x| + |marker|] == y[|marker|];
    }
  }

  /** A path that opens with `/` and a segment starts its first match at 0. */
  lemma FirstSegmentWritten(service: string, y: string)
    requires IsSegment(service) && (y == [] || !IsSegChar(y[0]))
    ensures FirstSegment("/" + service + y, 0) == Some(0)
    ensures SegmentEnd("/" + service + y, 1) == 1 + |service|
    ensures ("/" + service + y)[1..1 + |service|] == service
  {
    var s := "/" + service + y;
    assert SegmentStartsAt(s, 0) by { assert s[1] == service[0]; }
    CaptureWritten("/", service, y);
  }

  /** The match read off from where each part was found. */
  lemma MatchFromParts(path: string, service: string, se: nat, user: string, ue: nat, post: Option<string>)
    requires FirstSegment(path, 0) == Some(0) && SegmentEnd(path, 1) == se && path[1..se] == service
    requires GroupAfter(path, se, "/user/") == Some((user, ue))
    requires post.None? <==> GroupAfter(path, ue, "/post/").None?
    requires post.Some? ==> GroupAfter(path, ue, "/post/").value.0 == post.value
    ensures ExtractCkParameters(path) == CkParams(Some(service), Some(user), post)
  {
  }

  /** A post path `/service/user/id/post/id` yields all three parts. */
  lemma CkPostPath(service: string, user: string, post: string, rest: string)
    requires IsSegment(service) && IsSegment(user) && IsSegment(post)
    requires rest == [] || !IsSegChar(rest[0])
    ensures ExtractCkParameters("/" + service + "/user/" + user + "/post/" + post + rest)
         == CkParams(Some(service), Some(user), Some(post))
  {
    var sv := "/" + service;
    var su := sv + "/user/" + user;
    PostPathService(service, user, post, rest);
    PostPathUser(service, user, post, rest);
    PostPathPost(service, user, post, rest);
    MatchFromParts(su + "/post/" + post + rest, service, |sv|, user, |su|, Some(post));
  }

  lemma PostPathService(service: string, user: string, post: string, rest: string)
    requires IsSegment(service) && IsSegment(user) && IsSegment(post)
    ensures var path := "/" + service + "/user/" + user + "/post/" + post + rest;
      FirstSegment(path, 0) == Some(0) && SegmentEnd(path, 1) == 1 + |service| && path[1..1 + |service|] == service
  {
    var path := "/" + service + "/user/" + user + "/post/" + post + rest;
    var tail := "/user/" + user + "/post/" + post + rest;
    assert path == "/" + service + tail;
    FirstSegmentWritten(service, tail);
  }

  lemma PostPathUser(service: string, user: string, post: string, rest: string)
    requires IsSegment(service) && IsSegment(user) && IsSegment(post)
    ensures var path := "/" + service + "/user/" + user + "/post/" + post + rest;
      GroupAfter(path, 1 + |service|, "/user/") == Some((user, 1 + |service| + 6 + |user|))
  {
    var sv := "/" + service;
    var path := "/" + service + "/user/" + user + "/post/" + post + rest;
    assert path == sv + "/user/" + user + ("/post/" + post + rest);
    GroupWritten(sv, "/user/", user, "/post/" + post + rest);
  }

  lemma PostPathPost(service: string, user: string, post: string, rest: string)
    requires IsSegment(post) && (rest == [] || !IsSegChar(rest[0]))
    ensures var su := "/" + service + "/user/" + user;
      GroupAfter(su + "/post/" + post + rest, |su|, "/post/") == Some((post, |su| + 6 + |post|))
  {
    GroupWritten("/" + service + "/user/" + user, "/post/", post, rest);
  }

  /** A profile path `/service/user/id` yields the service and the user, and no post. */
  lemma CkUserPath(service: string, user: string, rest: string)
    requires IsSegment(service) && IsSegment(user)
    requires rest == [] || !IsSegChar(rest[0])
    requires !MarkedSegment(rest, 0, "/post/")
    ensures ExtractCkParameters("/" + service + "/user/" + user + rest) == CkParams(Some(service), Some(user), None)
  {
    var sv := "/" + service;
    var su := sv + "/user/" + user;
    var path := "/" + service + "/user/" + user + rest;
    assert FirstSegment(path, 0) == Some(0) && SegmentEnd(path, 1) == |sv| && path[1..|sv|] == service by {
      var tail := "/user/" + user + rest;
      assert path == "/" + service + tail;
      FirstSegmentWritten(service, tail);
    }
    assert GroupAfter(path, |sv|, "/user/") == Some((user, |su|)) by {
      GroupWritten(sv, "/user/", user, rest);
    }
    assert GroupAfter(path, |su|, "/post/").None? by {
      GroupAbsent(su, "/post/", rest);
    }
    MatchFromParts(path, service, |sv|, user, |su|, None);
  }

  /** A segment written at `at` and followed by a non-segment character is what the greedy group takes. */
  lemma SegmentOf(path: string, at: nat, seg: string)
    requires IsSegment(seg) && at + |seg| <= |path| && path[at..at + |seg|] == seg
    requires at + |seg| == |path| || !IsSegChar(path[at + |seg|])
    ensures SegmentEnd(path, at) == at + |seg| && path[at..SegmentEnd(path, at)] == seg
  {
    forall i | at <= i < at + |seg| ensures IsSegChar(path[i]) {
      assert path[i] == seg[i - at];
    }
    SegmentEndSkips(path, at, at + |seg|);
  }

  // ---------------------------------------------------------------------------
  // extract_ck_query
  // ---------------------------------------------------------------------------

  /** What `parse_qs(url.query)` returns: every key with its list of values. */
  type QueryValues = map<string, seq<string>>

  /** `query.get(key)[0]` when the key is present with at least one value. */
  function FirstValue(values: QueryValues, key: string): (r: Option<string>)
    ensures r.Some? <==> key in values && |values[key]| > 0
    ensures r.Some? ==> r.value == values[key][0]
  {
    if key in values && |values[key]| > 0 then Some(values[key][0]) else None
  }

  datatype CkQuery = CkQuery(query: Option<string>, offset: int)

  /**
   * `extract_ck_query` as written: the offset text `o` is checked with
   * `str.isdigit` and then converted with `int`, which raises `ValueError` on
   * digits that are not decimal (superscripts, for instance).
   */
  function ExtractCkQueryAsWritten(values: QueryValues): (r: Result<CkQuery, string>)
    ensures r.Ok? ==> r.value.query == FirstValue(values, "q")
  {
    var q := FirstValue(values, "q");
    var o := FirstValue(values, "o").GetOr("0");
    if IsDigitString(o) then
      match ParseInt(o)
      case None => Err("ValueError")
      case Some(n) => Ok(CkQuery(q, n))
    else Ok(CkQuery(q, 0))
  }

  /** The superscript two passes `isdigit` and makes `int` raise. */
  lemma ExtractCkQuerySuperscriptRaises()
    ensures ExtractCkQueryAsWritten(map["o" := ["\U{00b2}"]]).Err?
  {
    var o := "\U{00b2}";
    assert FirstValue(map["o" := [o]], "o") == Some(o);
    assert IsDigitString(o);
    DigitStringParses(o);
    assert !IsDecimalChar(o[0]);
  }

  /**
   * `extract_ck_query` as evidently intended: an offset that is not a decimal
   * number counts as 0, so the function never raises.
   */
  function ExtractCkQuery(values: QueryValues): (r: CkQuery)
    ensures r.query == FirstValue(values, "q")
    ensures r.offset >= 0
    ensures var o := FirstValue(values, "o");
      o.Some? && IsDigits(o.value) ==> r.offset == DecimalValue(o.value)
    ensures var o := FirstValue(values, "o");
      o.Some? && IsDecimalString(o.value) ==> r.offset == DecimalStringValue(o.value)
    ensures var o := FirstValue(values, "o");
      (o.None? || !IsDecimalString(o.value)) ==> r.offset == 0
  {
    var q := FirstValue(values, "q");
    var o := FirstValue(values, "o").GetOr("0");
    AsciiDigitsDecimal(o);
    if IsDecimalString(o) then CkQuery(q, DecimalStringValue(o))
    else CkQuery(q, 0)
  }

  /** Wherever the code as written returns, the corrected function returns the same. */
  lemma ExtractCkQueryAgrees(values: QueryValues)
    requires ExtractCkQueryAsWritten(values).Ok?
    ensures ExtractCkQueryAsWritten(values).value == ExtractCkQuery(values)
  {
    var o := FirstValue(values, "o").GetOr("0");
    if IsDigitString(o) {
      DigitStringParses(o);
    }
  }

  /** An offset written by `str(n)` is read back as `n`. */
  lemma ExtractCkQueryOffsetRoundTrip(values: QueryValues, n: nat)
    requires "o" in values && |values["o"]| > 0 && values["o"][0] == NatToString(n)
    ensures ExtractCkQuery(values).offset == n
  {
    NatToStringRoundTrip(n);
  }

  // ---------------------------------------------------------------------------
  // load_translations and tr
  // ---------------------------------------------------------------------------

  /**
   * `load_translations(lang)`: every key of the translations file maps to its
   * `lang` entry, or to the key itself when that entry is missing.
   */
  function Translations(all: map<string, map<string, string>>, lang: string): (t: map<string, string>)
    ensures t.Keys == all.Keys
    ensures forall k :: k in all && lang in all[k] ==> t[k] == all[k][lang]
    ensures forall k :: k in all && lang !in all[k] ==> t[k] == k
  {
    map k | k in all :: if lang in all[k] then all[k][lang] else k
  }

  /** `tr(text)` without keyword arguments: the stored translation, or the text itself. */
  function Translate(table: map<string, string>, text: string): (r: string)
    ensures text in table ==> r == table[text]
    ensures text !in table ==> r == text
  {
    if text in table then table[text] else text
  }

  /** After loading a language, looking a text up yields its entry in that language, else the text. */
  lemma TranslateAfterLoad(all: map<string, map<string, string>>, lang: string, text: string)
    ensures Translate(Translations(all, lang), text)
         == if text in all && lang in all[text] then all[text][lang] else text
  {
  }

  // ---------------------------------------------------------------------------
  // add_log_message_safe and limit_log_lines
  // ---------------------------------------------------------------------------

  const MaxLogLines: nat := 50

  /** Whether `p` occurs in the lower-case form of `m`, scanning `m` from the front. */
  predicate MentionsLower(m: string, p: string)
    decreases |m|
  {
    |p| <= |m| && (LowerMatchAt(m, p, |m| - |p|, 0) || MentionsLower(m[..|m| - 1], p))
  }

  /** The lower-case form of `m[i + j..i + |p|]` is `p[j..]`. */
  predicate LowerMatchAt(m: string, p: string, i: nat, j: nat)
    requires i + |p| <= |m| && j <= |p|
    decreases |p| - j
  {
    j == |p| || (LowerChar(m[i + j]) == p[j] && LowerMatchAt(m, p, i, j + 1))
  }

  /** The scan agrees with `p in m.lower()`. */
  lemma {:induction false} MentionsLowerContains(m: string, p: string)
    ensures MentionsLower(m, p) <==> Contains(Lower(m), p)
  {
    var l := Lower(m);
    if |p| > |m| {
      assert !Contains(l, p) by {
        forall i: nat | OccursAt(l, p, i) ensures false {
        }
      }
    } else {
      var k := |m| - |p|;
      LowerMatchOccurs(m, p, k, 0);
      assert p[0..] == p;
      if LowerMatchAt(m, p, k, 0) {
        ContainsAt(l, p, k);
      } else {
        MentionsLowerContains(m[..|m| - 1], p);
        LowerDropLast(m, p);
      }
    }
  }

  /** Without a match at the end, `p` occurs in `m.lower()` exactly when it occurs in `m[:-1].lower()`. */
  lemma LowerDropLast(m: string, p: string)
    requires 0 < |p| <= |m|
    requires !OccursAt(Lower(m), p, |m| - |p|)
    ensures Contains(Lower(m), p) <==> Contains(Lower(m[..|m| - 1]), p)
  {
    var l := Lower(m);
    assert Lower(m[..|m| - 1]) == l[..|l| - 1];
    SuffixContains(l, p);
  }

  /** The character-by-character match at `i` agrees with comparing the lower-cased slice. */
  lemma {:induction false} LowerMatchOccurs(m: string, p: string, i: nat, j: nat)
    requires i + |p| <= |m| && j <= |p|
    ensures LowerMatchAt(m, p, i, j) <==> Lower(m)[i + j..i + |p|] == p[j..]
    decreases |p| - j
  {
    if j < |p| {
      LowerMatchOccurs(m, p, i, j + 1);
      var l := Lower(m);
      var a, b := l[i + j..i + |p|], p[j..];
      assert a[0] == l[i + j] && b[0] == p[j];
      assert a[1..] == l[i + j + 1..i + |p|] && b[1..] == p[j + 1..];
      if a == b {
        assert a[1..] == b[1..];
      }
      if l[i + j] == p[j] && a[1..] == b[1..] {
        assert a == [a[0]] + a[1..] && b == [b[0]] + b[1..];
      }
    }
  }

  /** `p` occurs in `l` either as its suffix or within `l` without its last character. */
  lemma SuffixContains(l: string, p: string)
    requires 0 < |l| && |p| <= |l|
    ensures Contains(l, p) <==> OccursAt(l, p, |l| - |p|) || Contains(l[..|l| - 1], p)
  {
    var init := l[..|l| - 1];
    if OccursAt(l, p, |l| - |p|) {
      ContainsAt(l, p, |l| - |p|);
    }
    if Contains(init, p) {
      var i := IndexOf(init, p).value;
      assert init[i..i + |p|] == l[i..i + |p|];
      ContainsAt(l, p, i);
    }
    if Contains(l, p) && !OccursAt(l, p, |l| - |p|) {
      var i := IndexOf(l, p).value;
      assert i + |p| < |l|;
      assert init[i..i + |p|] == l[i..i + |p|];
      ContainsAt(init, p, i);
    }
  }

  /** `"error" in message.lower()`. */
  predicate IsErrorMessage(m: string) {
    MentionsLower(m, "error")
  }

  /** `"warning" in message.lower()`. */
  predicate IsWarningMessage(m: string) {
    MentionsLower(m, "warning")
  }

  lemma ClassifiesByLowerCase(m: string)
    ensures IsErrorMessage(m) <==> Contains(Lower(m), "error")
    ensures IsWarningMessage(m) <==> Contains(Lower(m), "warning")
  {
    MentionsLowerContains(m, "error");
    MentionsLowerContains(m, "warning");
  }

  /** `text.split("\n")`, the way `limit_log_lines` counts the lines of the log window. */
  function SplitLines(s: string): (r: seq<string>)
    ensures |r| == CountChar(s, '\n') + 1
    ensures forall i :: 0 <= i < |r| ==> '\n' !in r[i]
    decreases |s|
  {
    var head := TakeUntil(s, '\n');
    if |head| == |s| then
      CountCharAbsent(s, '\n');
      [s]
    else
      NewlineCount(s, head);
      [head] + SplitLines(s[|head| + 1..])
  }

  lemma {:induction false} CountCharAbsent(s: string, c: char)
    requires c !in s
    ensures CountChar(s, c) == 0
  {
    if s != [] {
      assert s[0] != c;
      CountCharAbsent(s[1..], c);
    }
  }

  /** Cutting at the first newline removes exactly one of them. */
  lemma NewlineCount(s: string, head: string)
    requires |head| < |s| && head == s[..|head|] && s[|head|] == '\n' && '\n' !in head
    ensures CountChar(s, '\n') == CountChar(s[|head| + 1..], '\n') + 1
  {
    assert s == head + ("\n" + s[|head| + 1..]);
    CountCharAppend(head, "\n" + s[|head| + 1..], '\n');
    CountCharAbsent(head, '\n');
    assert ("\n" + s[|head| + 1..])[1..] == s[|head| + 1..];
  }

  /** `CountChar` of a suffix, peeled by one character. */
  lemma CountFrom(s: string, from: nat, c: char)
    requires from < |s|
    ensures CountChar(s[from..], c) == (if s[from] == c then 1 else 0) + CountChar(s[from + 1..], c)
  {
    assert s[from..][1..] == s[from + 1..];
  }

  /** The index just after the `n`-th newline at or after `from`. */
  function SkipLines(s: string, from: nat, n: nat): (e: nat)
    requires from <= |s| && n <= CountChar(s[from..], '\n')
    ensures from <= e <= |s|
    decreases |s| - from
  {
    if n == 0 then from
    else
      assert from < |s|;
      CountFrom(s, from, '\n');
      if s[from] == '\n' then SkipLines(s, from + 1, n - 1) else SkipLines(s, from + 1, n)
  }

  /** The text after its first `n` lines: `delete("1.0", "{n + 1}.0")`. */
  function DeleteLeadingLines(s: string, n: nat): string
    requires n <= CountChar(s, '\n')
  {
    assert s[0..] == s;
    s[SkipLines(s, 0, n)..]
  }

  /** A text that opens with a newline has an empty first line. */
  lemma SplitLinesNewline(t: string)
    requires t != [] && t[0] == '\n'
    ensures SplitLines(t) == [""] + SplitLines(t[1..])
  {
  }

  /** Dropping a first character that is not a newline changes only the first line. */
  lemma SplitLinesTail(t: string)
    requires t != [] && t[0] != '\n'
    ensures SplitLines(t)[1..] == SplitLines(t[1..])[1..]
  {
    var head := TakeUntil(t, '\n');
    var head' := TakeUntil(t[1..], '\n');
    assert head == [t[0]] + head';
    if |head| < |t| {
      assert t[1..][|head'| + 1..] == t[|head| + 1..];
    }
  }

  /** The number of newlines still to skip after the character at `from`. */
  function LinesLeft(s: string, from: nat, n: nat): nat
    requires from < |s| && 0 < n
  {
    if s[from] == '\n' then n - 1 else n
  }

  /** One step of `SkipLines` and the matching step on the lines. */
  lemma SkipLinesShift(s: string, from: nat, n: nat)
    requires from < |s| && 0 < n <= CountChar(s[from..], '\n')
    ensures LinesLeft(s, from, n) <= CountChar(s[from + 1..], '\n')
    ensures SkipLines(s, from, n) == SkipLines(s, from + 1, LinesLeft(s, from, n))
    ensures SplitLines(s[from..])[n..] == SplitLines(s[from + 1..])[LinesLeft(s, from, n)..]
  {
    CountFrom(s, from, '\n');
    var t := s[from..];
    assert t[1..] == s[from + 1..];
    if s[from] == '\n' {
      SplitLinesNewline(t);
    } else {
      SplitLinesTail(t);
    }
  }

  /** Skipping `n` newlines drops the first `n` lines. */
  lemma {:induction false} SkipLinesSplit(s: string, from: nat, n: nat)
    requires from <= |s| && n <= CountChar(s[from..], '\n')
    ensures SplitLines(s[SkipLines(s, from, n)..]) == SplitLines(s[from..])[n..]
    decreases |s| - from
  {
    if n > 0 {
      assert from < |s|;
      SkipLinesShift(s, from, n);
      SkipLinesSplit(s, from + 1, LinesLeft(s, from, n));
    }
  }

  /** Deleting the leading lines leaves the remaining lines, in order. */
  lemma DeleteLeadingLinesSuffix(s: string, n: nat)
    requires n <= CountChar(s, '\n')
    ensures EndsWith(s, DeleteLeadingLines(s, n))
    ensures SplitLines(DeleteLeadingLines(s, n)) == SplitLines(s)[n..]
  {
    assert s[0..] == s;
    SkipLinesSplit(s, 0, n);
  }

  /** Newlines skipped inside `a` are skipped the same way in `a + b`. */
  lemma {:induction false} SkipLinesAppend(a: string, b: string, from: nat, n: nat)
    requires from <= |a| && n <= CountChar(a[from..], '\n')
    ensures n <= CountChar((a + b)[from..], '\n')
    ensures SkipLines(a + b, from, n) == SkipLines(a, from, n)
    decreases |a| - from
  {
    assert (a + b)[from..] == a[from..] + b;
    CountCharAppend(a[from..], b, '\n');
    if n > 0 {
      CountFrom(a, from, '\n');
      CountFrom(a + b, from, '\n');
      if a[from] == '\n' {
        SkipLinesAppend(a, b, from + 1, n - 1);
      } else {
        SkipLinesAppend(a, b, from + 1, n);
      }
    }
  }

  /** Deleting leading lines of `a + b` when they all lie in `a` leaves `b` in place. */
  lemma DeleteLeadingLinesAppend(a: string, b: string, n: nat)
    requires n <= CountChar(a, '\n')
    ensures n <= CountChar(a + b, '\n')
    ensures DeleteLeadingLines(a + b, n) == DeleteLeadingLines(a, n) + b
  {
    assert a[0..] == a;
    assert (a + b)[0..] == a + b;
    SkipLinesAppend(a, b, 0, n);
    var k := SkipLines(a, 0, n);
    assert (a + b)[k..] == a[k..] + b;
  }

  /** `len(text.split("\n"))`, counted as one more than the newlines. */
  function LineCount(text: string): nat {
    CountChar(text, '\n') + 1
  }

  /** `limit_log_lines`: beyond `MaxLogLines` lines, the first lines are deleted. */
  function TrimLog(text: string): (r: string)
    ensures LineCount(text) <= MaxLogLines ==> r == text
  {
    var count := LineCount(text);
    if count > MaxLogLines then DeleteLeadingLines(text, count - MaxLogLines - 1) else text
  }

  /** The trimmed window keeps an in-order suffix of the lines, at most `MaxLogLines + 1` of them. */
  lemma TrimLogKeepsLastLines(text: string)
    ensures var lines := SplitLines(text);
      var kept := if |lines| > MaxLogLines then |lines| - MaxLogLines - 1 else 0;
      EndsWith(text, TrimLog(text)) && SplitLines(TrimLog(text)) == lines[kept..]
    ensures |SplitLines(TrimLog(text))| <= MaxLogLines + 1
  {
    var count := |SplitLines(text)|;
    assert count == LineCount(text);
    if count > MaxLogLines {
      DeleteLeadingLinesSuffix(text, count - MaxLogLines - 1);
    }
  }

  /** Text appended with at most `MaxLogLines` newlines survives the trimming. */
  lemma TrimLogSuffix(a: string, b: string)
    requires CountChar(b, '\n') <= MaxLogLines
    ensures EndsWith(TrimLog(a + b), b)
  {
    CountCharAppend(a, b, '\n');
    if LineCount(a + b) > MaxLogLines {
      TrimLogDeletesFrom(a, b, LineCount(a + b) - MaxLogLines - 1);
    } else {
      assert (a + b)[|a|..] == b;
    }
  }

  lemma TrimLogDeletesFrom(a: string, b: string, n: nat)
    requires n <= CountChar(a, '\n') && LineCount(a + b) > MaxLogLines
    requires n == LineCount(a + b) - MaxLogLines - 1
    ensures EndsWith(TrimLog(a + b), b)
  {
    var ab := a + b;
    DeleteLeadingLinesAppend(a, b, n);
    var d := DeleteLeadingLines(a, n);
    assert TrimLog(ab) == DeleteLeadingLines(ab, n);
    var r := d + b;
    assert DeleteLeadingLines(ab, n) == r;
    assert r[|r| - |b|..] == b;
  }

  /** A message is never trimmed away by its own insertion unless it alone fills the window. */
  lemma TrimLogKeepsNewest(text: string, m: string)
    requires CountChar(m, '\n') < MaxLogLines
    ensures EndsWith(TrimLog(text + m + "\n"), m + "\n")
  {
    var nl := "\n";
    assert nl[1..] == [];
    assert CountChar(nl, '\n') == 1;
    CountCharAppend(m, nl, '\n');
    assert text + m + nl == text + (m + nl);
    TrimLogSuffix(text, m + nl);
  }

  /** The shell's log state: the `errors` and `warnings` lists and the text of the log window. */
  datatype LogState = LogState(errors: seq<string>, warnings: seq<string>, text: string)

  /** One `add_log_message_safe(m)`, with the window update of the main thread applied at once. */
  function LogStep(st: LogState, m: string): LogState {
    LogState(st.errors + (if IsErrorMessage(m) then [m] else []),
             st.warnings + (if IsWarningMessage(m) then [m] else []),
             TrimLog(st.text + m + "\n"))
  }

  function LogAll(st: LogState, ms: seq<string>): LogState {
    if ms == [] then st else LogStep(LogAll(st, ms[..|ms| - 1]), ms[|ms| - 1])
  }

  /** The messages of `ms` that `add_log_message_safe` files as errors, in order. */
  function ErrorsIn(ms: seq<string>): (r: seq<string>)
    ensures forall m :: m in r <==> m in ms && IsErrorMessage(m)
  {
    if ms == [] then []
    else ErrorsIn(ms[..|ms| - 1]) + (if IsErrorMessage(ms[|ms| - 1]) then [ms[|ms| - 1]] else [])
  }

  function WarningsIn(ms: seq<string>): (r: seq<string>)
    ensures forall m :: m in r <==> m in ms && IsWarningMessage(m)
  {
    if ms == [] then []
    else WarningsIn(ms[..|ms| - 1]) + (if IsWarningMessage(ms[|ms| - 1]) then [ms[|ms| - 1]] else [])
  }

  /**
   * Logging a sequence of messages appends to `errors` exactly the messages
   * whose lower-case form contains `error`, and to `warnings` exactly those
   * containing `warning`, in order; a message can land in both.
   */
  lemma {:induction false} LogAllClassifies(st: LogState, ms: seq<string>)
    ensures LogAll(st, ms).errors == st.errors + ErrorsIn(ms)
    ensures LogAll(st, ms).warnings == st.warnings + WarningsIn(ms)
  {
    if ms != [] {
      LogAllClassifies(st, ms[..|ms| - 1]);
    }
  }

  /** Logging one more message extends the run by one step. */
  lemma LogAllSnoc(st: LogState, ms: seq<string>, m: string)
    ensures LogAll(st, ms + [m]) == LogStep(LogAll(st, ms), m)
  {
    assert (ms + [m])[..|ms + [m]| - 1] == ms;
  }

  /** Runs of none, one, two and three messages, step by step. */
  lemma LogAllNone(st: LogState)
    ensures LogAll(st, []) == st
  {
  }

  lemma LogAllOne(st: LogState, a: string)
    ensures LogAll(st, [a]) == LogStep(st, a)
  {
    assert [a][..0] == [];
  }

  lemma LogAllTwo(st: LogState, a: string, b: string)
    ensures LogAll(st, [a, b]) == LogStep(LogStep(st, a), b)
  {
    assert [a, b][..1] == [a];
    LogAllOne(st, a);
  }

  lemma LogAllThree(st: LogState, a: string, b: string, c: string)
    ensures LogAll(st, [a, b, c]) == LogStep(LogStep(LogStep(st, a), b), c)
  {
    assert [a, b, c][..2] == [a, b];
    LogAllTwo(st, a, b);
  }

  // ---------------------------------------------------------------------------
  // "\n".join
  // ---------------------------------------------------------------------------

  /** `"\n".join(xs)`. */
  function JoinLines(xs: seq<string>): (r: string)
    ensures xs == [] ==> r == ""
  {
    if xs == [] then ""
    else if |xs| == 1 then xs[0]
    else xs[0] + "\n" + JoinLines(xs[1..])
  }

  /** Joining lines without newlines and splitting the result gives the lines back. */
  lemma {:induction false} JoinLinesSplit(xs: seq<string>)
    requires |xs| > 0
    requires forall i :: 0 <= i < |xs| ==> '\n' !in xs[i]
    ensures SplitLines(JoinLines(xs)) == xs
  {
    if |xs| == 1 {
      SplitLinesWhole(xs[0]);
    } else {
      assert forall i :: 0 <= i < |xs[1..]| ==> xs[1..][i] == xs[i + 1];
      JoinLinesSplit(xs[1..]);
      SplitLinesAt(xs[0], JoinLines(xs[1..]));
      assert xs == [xs[0]] + xs[1..];
    }
  }

  /** A line without a newline splits into itself. */
  lemma SplitLinesWhole(a: string)
    requires '\n' !in a
    ensures SplitLines(a) == [a]
  {
    TakeUntilWhole(a);
  }

  /** Splitting at the first newline: the line before it, then the split of the rest. */
  lemma SplitLinesAt(a: string, b: string)
    requires '\n' !in a
    ensures SplitLines(a + "\n" + b) == [a] + SplitLines(b)
  {
    var s := a + "\n" + b;
    assert s == a + ['\n'] + b;
    TakeUntilAt(a, b, '\n');
    assert s[|a| + 1..] == b;
  }

  lemma {:induction false} TakeUntilWhole(s: string)
    requires '\n' !in s
    ensures TakeUntil(s, '\n') == s
  {
    if s != [] {
      assert s[0] != '\n';
      assert forall i :: 0 <= i < |s[1..]| ==> s[1..][i] == s[i + 1];
      TakeUntilWhole(s[1..]);
      assert s == [s[0]] + s[1..];
    }
  }

  // ---------------------------------------------------------------------------
  // start_download: the site dispatch
  // ---------------------------------------------------------------------------

  /** `str.format(**kwargs)` applied to a translated template; formatting is not modelled. */
  type Formatter = (string, map<string, string>) -> string

  datatype Site = EromeSite | BunkrSite | CkSite | SimpCitySite | Jpg5Site

  /** The download `start_download` hands to its thread, with the arguments it passes. */
  datatype Job =
    | EromeAlbum(url: string, folder: string, images: bool, videos: bool)
    | EromeProfile(url: string, folder: string, images: bool, videos: bool)
    | BunkrPost(url: string)
    | BunkrProfile(url: string)
    | CkPost(site: string, service: string, user: string, post: string)
    | CkProfile(site: string, service: string, user: string, query: Option<string>,
                downloadAll: bool, offset: int)
    | SimpCityImages(url: string)
    | Jpg5Images(url: string)

  function SiteOf(job: Job): Site {
    match job
    case EromeAlbum(_, _, _, _) => EromeSite
    case EromeProfile(_, _, _, _) => EromeSite
    case BunkrPost(_) => BunkrSite
    case BunkrProfile(_) => BunkrSite
    case CkPost(_, _, _, _) => CkSite
    case CkProfile(_, _, _, _, _, _) => CkSite
    case SimpCityImages(_) => SimpCitySite
    case Jpg5Images(_) => Jpg5Site
  }

  datatype Rejection = NoService | NoUser | Unsupported

  /**
   * How `start_download` ends: no folder chosen, `urlparse` raising, the URL
   * refused with the buttons restored, a thread started for a job, or
   * `extract_ck_query` raising for the coomer/kemono profile of `service` on
   * `site`, which leaves `start_download` with the buttons still disabled.
   */
  datatype Dispatch =
    | NoFolder
    | ParseError(reason: string)
    | Rejected(why: Rejection)
    | Launch(job: Job)
    | QueryRaised(site: string, service: string, error: string)

  predicate IsCkHost(netloc: string) {
    netloc == "coomer.su" || netloc == "kemono.su"
  }

  /**
   * The decision of `start_download` for the stripped URL. The bunkr pattern is
   * the predicate `isBunkr`, and `parseQs` is `parse_qs`.
   */
  function Route(url: string, parsed: Result<ParsedUrl, string>, folder: string, images: bool, videos: bool,
                 downloadAll: bool, isBunkr: string -> bool, parseQs: string -> QueryValues): Dispatch
  {
    if folder == "" then NoFolder
    else
      match parsed
      case Err(e) => ParseError(e)
      case Ok(p) => RouteUrl(url, p, folder, images, videos, downloadAll, isBunkr, parseQs)
  }

  /** The site tests of `start_download`, in their order, once the URL has parsed. */
  function RouteUrl(url: string, p: ParsedUrl, folder: string, images: bool, videos: bool,
                    downloadAll: bool, isBunkr: string -> bool, parseQs: string -> QueryValues): Dispatch
  {
    if Contains(url, "erome.com") then
      if Contains(url, "/a/") then Launch(EromeAlbum(url, folder, images, videos))
      else Launch(EromeProfile(url, folder, images, videos))
    else if isBunkr(url) then
      if Contains(url, "/v/") || Contains(url, "/i/") then Launch(BunkrPost(url)) else Launch(BunkrProfile(url))
    else if IsCkHost(p.netloc) then CkRoute(p, downloadAll, parseQs)
    else if Contains(url, "simpcity.su") then Launch(SimpCityImages(url))
    else if Contains(url, "jpg5.su") then Launch(Jpg5Images(url))
    else Rejected(Unsupported)
  }

  /** The coomer/kemono branch: the path must name a service and a user. */
  function CkRoute(p: ParsedUrl, downloadAll: bool, parseQs: string -> QueryValues): (d: Dispatch)
    ensures IsCkOutcome(d)
  {
    CkDecide(p.netloc, ExtractCkParameters(p.path), p.query, downloadAll, parseQs)
  }

  /** The outcomes of the coomer/kemono branch. */
  predicate IsCkOutcome(d: Dispatch) {
    (d.Launch? && SiteOf(d.job) == CkSite) || d == Rejected(NoService) || d == Rejected(NoUser) || d.QueryRaised?
  }

  /**
   * The coomer/kemono decision once the path parameters `c` are extracted. A
   * profile URL goes through `extract_ck_query` as written, so an offset that
   * `int` refuses ends the branch with the exception.
   */
  function CkDecide(site: string, c: CkParams, query: string, downloadAll: bool,
                    parseQs: string -> QueryValues): (d: Dispatch)
    ensures IsCkOutcome(d)
  {
    if c.service.None? then Rejected(NoService)
    else if c.user.None? then Rejected(NoUser)
    else if c.post.Some? then Launch(CkPost(site, c.service.value, c.user.value, c.post.value))
    else
      match ExtractCkQueryAsWritten(parseQs(query))
      case Err(e) => QueryRaised(site, c.service.value, e)
      case Ok(q) => Launch(CkProfile(site, c.service.value, c.user.value, q.query, downloadAll, q.offset))
  }

  /**
   * The five sites are tried in a fixed order and the first that accepts the
   * URL takes it: erome by substring, bunkr by its pattern, coomer/kemono by
   * exact host, then simpcity and jpg5 by substring.
   */
  lemma RouteOrder(url: string, parsed: Result<ParsedUrl, string>, folder: string, images: bool,
                   videos: bool, downloadAll: bool, isBunkr: string -> bool, parseQs: string -> QueryValues)
    requires folder != "" && parsed.Ok?
    ensures var d := Route(url, parsed, folder, images, videos, downloadAll, isBunkr, parseQs);
      var host := parsed.value.netloc;
      && ((d.Launch? && SiteOf(d.job) == EromeSite) <==> Contains(url, "erome.com"))
      && ((d.Launch? && SiteOf(d.job) == BunkrSite) <==> !Contains(url, "erome.com") && isBunkr(url))
      && (IsCkOutcome(d) <==> !Contains(url, "erome.com") && !isBunkr(url) && IsCkHost(host))
      && ((d.Launch? && SiteOf(d.job) == SimpCitySite)
            <==> !Contains(url, "erome.com") && !isBunkr(url) && !IsCkHost(host) && Contains(url, "simpcity.su"))
      && ((d.Launch? && SiteOf(d.job) == Jpg5Site)
            <==> !Contains(url, "erome.com") && !isBunkr(url) && !IsCkHost(host)
                 && !Contains(url, "simpcity.su") && Contains(url, "jpg5.su"))
  {
    var p := parsed.value;
    if !Contains(url, "erome.com") && !isBunkr(url) && IsCkHost(p.netloc) {
      assert RouteUrl(url, p, folder, images, videos, downloadAll, isBunkr, parseQs) == CkRoute(p, downloadAll, parseQs);
    }
  }

  /** An erome URL is an album exactly when it contains `/a/`; a bunkr URL is a post when it has `/v/` or `/i/`. */
  lemma RouteKinds(url: string, parsed: Result<ParsedUrl, string>, folder: string, images: bool,
                   videos: bool, downloadAll: bool, isBunkr: string -> bool, parseQs: string -> QueryValues)
    ensures var d := Route(url, parsed, folder, images, videos, downloadAll, isBunkr, parseQs);
      && (d.Launch? && SiteOf(d.job) == EromeSite ==> (d.job.EromeAlbum? <==> Contains(url, "/a/")))
      && (d.Launch? && SiteOf(d.job) == BunkrSite ==>
            (d.job.BunkrPost? <==> Contains(url, "/v/") || Contains(url, "/i/")))
  {
    if folder != "" && parsed.Ok? {
      var p := parsed.value;
      if !Contains(url, "erome.com") && !isBunkr(url) && IsCkHost(p.netloc) {
        assert RouteUrl(url, p, folder, images, videos, downloadAll, isBunkr, parseQs) == CkRoute(p, downloadAll, parseQs);
      }
    }
  }

  /**
   * A single-post job names a coomer/kemono host and three segments that the
   * path spells in order as `/service/user/id/post/id`.
   */
  lemma RouteCkPost(url: string, parsed: Result<ParsedUrl, string>, folder: string, images: bool,
                    videos: bool, downloadAll: bool, isBunkr: string -> bool, parseQs: string -> QueryValues)
    ensures var d := Route(url, parsed, folder, images, videos, downloadAll, isBunkr, parseQs);
      d.Launch? && d.job.CkPost? ==>
        && IsCkHost(d.job.site) && d.job.site == parsed.value.netloc
        && IsSegment(d.job.service) && IsSegment(d.job.user) && IsSegment(d.job.post)
        && Contains(parsed.value.path,
                    "/" + d.job.service + "/user/" + d.job.user + "/post/" + d.job.post)
  {
    if folder != "" && parsed.Ok? {
      CkParametersOccur(parsed.value.path);
    }
  }

  /**
   * A profile job has a service and a user segment, the download-all choice,
   * and the offset of the corrected `ExtractCkQuery`, which is never negative:
   * a profile is launched only where `extract_ck_query` as written returns.
   */
  lemma RouteCkProfile(url: string, parsed: Result<ParsedUrl, string>, folder: string, images: bool,
                       videos: bool, downloadAll: bool, isBunkr: string -> bool, parseQs: string -> QueryValues)
    ensures var d := Route(url, parsed, folder, images, videos, downloadAll, isBunkr, parseQs);
      d.Launch? && d.job.CkProfile? ==>
        && IsCkHost(d.job.site) && IsSegment(d.job.service) && IsSegment(d.job.user)
        && d.job.downloadAll == downloadAll
        && ExtractCkQueryAsWritten(parseQs(parsed.value.query)).Ok?
        && d.job.offset == ExtractCkQuery(parseQs(parsed.value.query)).offset && d.job.offset >= 0
        && d.job.query == FirstValue(parseQs(parsed.value.query), "q")
        && ExtractCkParameters(parsed.value.path).post.None?
  {
    if folder != "" && parsed.Ok? {
      var p := parsed.value;
      var d := RouteUrl(url, p, folder, images, videos, downloadAll, isBunkr, parseQs);
      if d.Launch? && d.job.CkProfile? {
        assert !Contains(url, "erome.com") && !isBunkr(url) && IsCkHost(p.netloc);
        assert d == CkRoute(p, downloadAll, parseQs);
        ExtractCkQueryAgrees(parseQs(p.query));
      }
    }
  }

  /**
   * A coomer/kemono URL naming a service and a user but no post ends with the
   * exception of `extract_ck_query` exactly when that function raises on the
   * parsed query, and the outcome names the host and the service logged.
   */
  lemma RouteCkQueryRaises(url: string, parsed: Result<ParsedUrl, string>, folder: string, images: bool,
                           videos: bool, downloadAll: bool, isBunkr: string -> bool, parseQs: string -> QueryValues)
    requires folder != "" && parsed.Ok?
    requires !Contains(url, "erome.com") && !isBunkr(url) && IsCkHost(parsed.value.netloc)
    ensures var d := Route(url, parsed, folder, images, videos, downloadAll, isBunkr, parseQs);
      var c := ExtractCkParameters(parsed.value.path);
      && (d.QueryRaised? <==>
            c.service.Some? && c.user.Some? && c.post.None?
            && ExtractCkQueryAsWritten(parseQs(parsed.value.query)).Err?)
      && (d.QueryRaised? ==> d.site == parsed.value.netloc && d.service == c.service.value)
  {
  }

  /** A profile URL whose offset is the superscript two makes the dispatch raise. */
  lemma CkDecideSuperscriptRaises(c: CkParams, query: string, downloadAll: bool, parseQs: string -> QueryValues)
    requires c.service.Some? && c.user.Some? && c.post.None?
    requires parseQs(query) == map["o" := ["\U{00b2}"]]
    ensures CkDecide("coomer.su", c, query, downloadAll, parseQs).QueryRaised?
  {
    ExtractCkQuerySuperscriptRaises();
  }

  /** A coomer/kemono URL is refused for a missing service exactly when its path has no `/` followed by a segment character. */
  lemma RouteCkRejects(url: string, parsed: Result<ParsedUrl, string>, folder: string, images: bool,
                       videos: bool, downloadAll: bool, isBunkr: string -> bool, parseQs: string -> QueryValues)
    requires folder != "" && parsed.Ok?
    requires !Contains(url, "erome.com") && !isBunkr(url) && IsCkHost(parsed.value.netloc)
    ensures var d := Route(url, parsed, folder, images, videos, downloadAll, isBunkr, parseQs);
      var path := parsed.value.path;
      && (d == Rejected(NoService) <==> forall j :: 0 <= j < |path| ==> !SegmentStartsAt(path, j))
      && (d == Rejected(NoUser) <==>
            ExtractCkParameters(path).service.Some? && ExtractCkParameters(path).user.None?)
  {
  }

  /** The lines `start_download` logs for each outcome, in order. */
  function DispatchMessages(d: Dispatch, table: map<string, string>, fmt: Formatter): seq<string> {
    match d
    case NoFolder => []
    case ParseError(_) => []
    case Rejected(Unsupported) => [Translate(table, "URL no v\U{00e1}lida")]
    case Rejected(NoService) =>
      [Translate(table, "Iniciando descarga..."), Translate(table, "No se pudo extraer el servicio."),
       Translate(table, "URL no v\U{00e1}lida")]
    case Rejected(NoUser) =>
      [Translate(table, "Iniciando descarga..."), Translate(table, "No se pudo extraer el ID del usuario."),
       Translate(table, "URL no v\U{00e1}lida")]
    case Launch(job) => JobMessages(job, table, fmt)
    case QueryRaised(site, service, _) => [Translate(table, "Iniciando descarga..."), ServiceMessage(table, fmt, site, service)]
  }

  function JobMessages(job: Job, table: map<string, string>, fmt: Formatter): seq<string> {
    match job
    case EromeAlbum(_, _, _, _) => [Translate(table, "Descargando Erome"), Translate(table, "URL del \U{00e1}lbum")]
    case EromeProfile(_, _, _, _) => [Translate(table, "Descargando Erome"), Translate(table, "URL del perfil")]
    case BunkrPost(_) => [Translate(table, "Descargando Bunkr"), Translate(table, "URL del post")]
    case BunkrProfile(_) => [Translate(table, "Descargando Bunkr"), Translate(table, "URL del perfil")]
    case CkPost(site, service, _, _) =>
      [Translate(table, "Iniciando descarga..."), ServiceMessage(table, fmt, site, service),
       Translate(table, "Descargando post \U{00fa}nico...")]
    case CkProfile(site, service, _, _, all, _) =>
      [Translate(table, "Iniciando descarga..."), ServiceMessage(table, fmt, site, service),
       Translate(table, if all then "Descargando todo el contenido del usuario..."
                        else "Descargando solo los posts del URL proporcionado...")]
    case SimpCityImages(_) => [Translate(table, "Descargando SimpCity")]
    case Jpg5Images(_) => [Translate(table, "Descargando desde Jpg5")]
  }

  function ServiceMessage(table: map<string, string>, fmt: Formatter, site: string, service: string): string {
    fmt(Translate(table, "Servicio extra\U{00ed}do: {service} del sitio: {site}"), map["service" := service, "site" := site])
  }

  /** The lines of each outcome spelled out, one lemma per branch of `start_download`. */
  lemma EromeMessages(job: Job, table: map<string, string>, fmt: Formatter)
    requires job.EromeAlbum? || job.EromeProfile?
    ensures DispatchMessages(Launch(job), table, fmt)
         == [Translate(table, "Descargando Erome"),
             Translate(table, if job.EromeAlbum? then "URL del \U{00e1}lbum" else "URL del perfil")]
  {
  }

  lemma BunkrMessages(job: Job, table: map<string, string>, fmt: Formatter)
    requires job.BunkrPost? || job.BunkrProfile?
    ensures DispatchMessages(Launch(job), table, fmt)
         == [Translate(table, "Descargando Bunkr"),
             Translate(table, if job.BunkrPost? then "URL del post" else "URL del perfil")]
  {
  }

  lemma CkLaunchMessages(job: Job, table: map<string, string>, fmt: Formatter)
    requires job.CkPost? || job.CkProfile?
    ensures DispatchMessages(Launch(job), table, fmt)
         == [Translate(table, "Iniciando descarga..."), ServiceMessage(table, fmt, job.site, job.service),
             Translate(table, if job.CkPost? then "Descargando post \U{00fa}nico..."
                              else if job.downloadAll then "Descargando todo el contenido del usuario..."
                              else "Descargando solo los posts del URL proporcionado...")]
  {
  }

  lemma CkRaisedMessages(site: string, service: string, e: string, table: map<string, string>, fmt: Formatter)
    ensures DispatchMessages(QueryRaised(site, service, e), table, fmt)
         == [Translate(table, "Iniciando descarga..."), ServiceMessage(table, fmt, site, service)]
  {
  }

  lemma CkRejectMessages(why: Rejection, table: map<string, string>, fmt: Formatter)
    requires why != Unsupported
    ensures DispatchMessages(Rejected(why), table, fmt)
         == [Translate(table, "Iniciando descarga..."),
             Translate(table, if why == NoService then "No se pudo extraer el servicio."
                              else "No se pudo extraer el ID del usuario."),
             Translate(table, "URL no v\U{00e1}lida")]
  {
  }

  lemma ImagesMessage(simpCity: bool, url: string, table: map<string, string>, fmt: Formatter)
    ensures DispatchMessages(Launch(if simpCity then SimpCityImages(url) else Jpg5Images(url)), table, fmt)
         == [Translate(table, if simpCity then "Descargando SimpCity" else "Descargando desde Jpg5")]
  {
  }

  lemma UnsupportedMessage(table: map<string, string>, fmt: Formatter)
    ensures DispatchMessages(Rejected(Unsupported), table, fmt) == [Translate(table, "URL no v\U{00e1}lida")]
  {
  }

  // ---------------------------------------------------------------------------
  // The active downloader as the shell sees it
  // ---------------------------------------------------------------------------

  /** `cancel_requested`: a plain `bool` in the erome downloader, a `threading.Event` in the general one. */
  datatype CancelFlag = Flag(requested: bool) | EventFlag(isSet: bool)

  /** Python truthiness of the flag: an `Event` object is always true, set or not. */
  predicate Truthy(f: CancelFlag) {
    match f
    case Flag(b) => b
    case EventFlag(_) => true
  }

  /**
   * What the shell reads from the active downloader: its class name, its cancel
   * flag and the four attributes `export_logs` reads, each `None` when the class
   * does not define it. `cancelLog` holds the lines that `request_cancel` of a
   * bunkr, simpcity or jpg5 downloader logs; the two classes of this model have
   * their lines written out in `CancelMessages`.
   */
  datatype Downloader = Downloader(site: Site, className: string, cancel: CancelFlag,
                                   totalFiles: Option<int>, completedFiles: Option<int>,
                                   skippedFiles: Option<seq<string>>, failedFiles: Option<seq<string>>,
                                   cancelLog: seq<string>)

  /** A new `EromeDownloader` (downloader/erome.py:28-32): it has no `skipped_files` or `failed_files`. */
  const FreshErome: Downloader := Downloader(EromeSite, "EromeDownloader", Flag(false), Some(0), Some(0), None, None, [])

  /** A new `Downloader` (downloader/downloader.py:10-26): it has none of the four counters. */
  const FreshGeneral: Downloader := Downloader(CkSite, "Downloader", EventFlag(false), None, None, None, None, [])

  /**
   * `active_downloader` after `start_download`. The bunkr, simpcity and jpg5
   * downloaders come from `other`, since their classes are not part of this model.
   */
  function ActiveAfter(d: Dispatch, prev: Option<Downloader>, other: Site -> Downloader): Option<Downloader> {
    match d
    case NoFolder => prev
    case ParseError(_) => prev
    case Rejected(Unsupported) => prev
    case Rejected(_) => Some(FreshGeneral)
    case QueryRaised(_, _, _) => Some(FreshGeneral)
    case Launch(job) =>
      match SiteOf(job)
      case EromeSite => Some(FreshErome)
      case CkSite => Some(FreshGeneral)
      case s => Some(other(s))
  }

  /**
   * Whatever the coomer/kemono decision (a launch, a refusal for a missing part
   * or the exception of `extract_ck_query`), a fresh general downloader is
   * active after it.
   */
  lemma CkDecideActive(site: string, c: CkParams, query: string, downloadAll: bool, parseQs: string -> QueryValues,
                       prev: Option<Downloader>, other: Site -> Downloader)
    ensures ActiveAfter(CkDecide(site, c, query, downloadAll, parseQs), prev, other) == Some(FreshGeneral)
  {
  }

  /** An unsupported URL leaves the active downloader as it was. */
  lemma UnsupportedActive(prev: Option<Downloader>, other: Site -> Downloader)
    ensures ActiveAfter(Rejected(Unsupported), prev, other) == prev
  {
  }

  /** A launch for a site other than erome and coomer/kemono installs that site's downloader. */
  lemma OtherActive(d: Dispatch, prev: Option<Downloader>, other: Site -> Downloader)
    requires d.Launch? && SiteOf(d.job) != EromeSite && SiteOf(d.job) != CkSite
    ensures ActiveAfter(d, prev, other) == Some(other(SiteOf(d.job)))
  {
  }

  /** A simpcity or jpg5 launch installs that site's downloader. */
  lemma ImagesActive(simpCity: bool, url: string, prev: Option<Downloader>, other: Site -> Downloader)
    ensures ActiveAfter(Launch(if simpCity then SimpCityImages(url) else Jpg5Images(url)), prev, other)
         == Some(other(if simpCity then SimpCitySite else Jpg5Site))
  {
  }

  /** `on_app_close` lets the window close unless a downloader is active with a false cancel flag. */
  predicate MayClose(active: Option<Downloader>) {
    active.None? || Truthy(active.value.cancel)
  }

  /** A running erome download blocks closing; a coomer/kemono one never does, its `Event` being always true. */
  lemma CloseWhileActive(d: Dispatch, prev: Option<Downloader>, other: Site -> Downloader)
    requires d.Launch?
    ensures SiteOf(d.job) == EromeSite ==> !MayClose(ActiveAfter(d, prev, other))
    ensures SiteOf(d.job) == CkSite ==> MayClose(ActiveAfter(d, prev, other))
  {
  }

  /** A coomer/kemono URL refused for its path still leaves the general downloader active. */
  lemma RejectedCkLeavesDownloader(d: Dispatch, prev: Option<Downloader>, other: Site -> Downloader)
    requires d == Rejected(NoService) || d == Rejected(NoUser)
    ensures ActiveAfter(d, prev, other) == Some(FreshGeneral)
    ensures MayClose(ActiveAfter(d, prev, other))
  {
  }

  /** The line `request_cancel` and `cancel_download` log. */
  function CancelMessages(active: Option<Downloader>, table: map<string, string>): seq<string> {
    match active
    case None => [Translate(table, "No hay una descarga en curso para cancelar.")]
    case Some(d) =>
      match d.site
      case EromeSite => [Translate(table, "Download cancelled")]
      case CkSite => ["Download cancelled."]
      case _ => d.cancelLog
  }

  // ---------------------------------------------------------------------------
  // export_logs
  // ---------------------------------------------------------------------------

  /** The counts and lists written at the head of the exported log (the duration is left out). */
  datatype Summary = Summary(totalFiles: int, totalImages: int, totalVideos: int,
                             errors: nat, warnings: nat, skipped: string, failed: string)

  /** The text of the `AttributeError` raised for a missing attribute. */
  function MissingAttribute(className: string, attr: string): string {
    "'" + className + "' object has no attribute '" + attr + "'"
  }

  /** The text of the `TypeError` raised by `now - None` when no download was started. */
  const NoStartTime := "unsupported operand type(s) for -: 'datetime.datetime' and 'NoneType'"

  /** The counts of a summary taken while `d` is active. */
  predicate ExportCounts(s: Summary, d: Downloader, images: bool, videos: bool) {
    && d.totalFiles.Some? && d.completedFiles.Some? && d.skippedFiles.Some? && d.failedFiles.Some?
    && s.totalFiles == d.totalFiles.value
    && s.totalImages == (if images then d.completedFiles.value else 0)
    && s.totalVideos == (if videos then d.completedFiles.value else 0)
    && s.skipped == JoinLines(d.skippedFiles.value) && s.failed == JoinLines(d.failedFiles.value)
  }

  /**
   * The summary `export_logs` writes, or the text of the exception its `try`
   * catches: the four attributes are read in order, then the duration needs a
   * start time.
   */
  function ExportSummary(active: Option<Downloader>, images: bool, videos: bool,
                         errors: nat, warnings: nat, started: bool): (r: Result<Summary, string>)
    ensures r.Ok? ==> started
    ensures r.Ok? ==> r.value.errors == errors && r.value.warnings == warnings
    ensures r.Ok? && active.None? ==> r.value == Summary(0, 0, 0, errors, warnings, "", "")
    ensures r.Ok? && active.Some? ==> ExportCounts(r.value, active.value, images, videos)
  {
    match active
    case None =>
      if started then Ok(Summary(0, 0, 0, errors, warnings, JoinLines([]), JoinLines([]))) else Err(NoStartTime)
    case Some(d) =>
      if d.totalFiles.None? then Err(MissingAttribute(d.className, "total_files"))
      else if d.completedFiles.None? then Err(MissingAttribute(d.className, "completed_files"))
      else if d.skippedFiles.None? then Err(MissingAttribute(d.className, "skipped_files"))
      else if d.failedFiles.None? then Err(MissingAttribute(d.className, "failed_files"))
      else if !started then Err(NoStartTime)
      else
        var completed := d.completedFiles.value;
        Ok(Summary(d.totalFiles.value, if images then completed else 0, if videos then completed else 0,
                   errors, warnings, JoinLines(d.skippedFiles.value), JoinLines(d.failedFiles.value)))
  }

  /** Once a download was started and no downloader is active, the export succeeds with zero counts and empty lists. */
  lemma ExportWithoutDownloader(images: bool, videos: bool, errors: nat, warnings: nat)
    ensures ExportSummary(None, images, videos, errors, warnings, true)
         == Ok(Summary(0, 0, 0, errors, warnings, "", ""))
  {
  }

  /**
   * Neither modelled downloader class carries all four attributes, so an export
   * while one is active always fails: erome lacks `skipped_files`, the general
   * one `total_files`.
   */
  lemma ExportWithModelledDownloader(d: Downloader, images: bool, videos: bool, errors: nat, warnings: nat, started: bool)
    requires d.site == EromeSite || d.site == CkSite
    requires d.site == EromeSite ==> d.className == "EromeDownloader" && d.skippedFiles.None? && d.totalFiles.Some?
                                     && d.completedFiles.Some?
    requires d.site == CkSite ==> d.className == "Downloader" && d.totalFiles.None?
    ensures ExportSummary(Some(d), images, videos, errors, warnings, started)
         == Err(MissingAttribute(d.className, if d.site == EromeSite then "skipped_files" else "total_files"))
  {
  }

  /** The skipped and failed lists are written one per line and can be read back by splitting. */
  lemma ExportListsReadBack(d: Downloader, images: bool, videos: bool, errors: nat, warnings: nat)
    requires ExportSummary(Some(d), images, videos, errors, warnings, true).Ok?
    requires |d.skippedFiles.value| > 0 && forall i :: 0 <= i < |d.skippedFiles.value| ==> '\n' !in d.skippedFiles.value[i]
    ensures SplitLines(ExportSummary(Some(d), images, videos, errors, warnings, true).value.skipped) == d.skippedFiles.value
  {
    JoinLinesSplit(d.skippedFiles.value);
  }

  /** The line logged after an export. */
  function ExportMessage(r: Result<Summary, string>, table: map<string, string>, fmt: Formatter, path: string): string {
    match r
    case Ok(_) => fmt(Translate(table, "Logs exportados exitosamente a {path}"), map["path" := path])
    case Err(e) => fmt(Translate(table, "No se pudo exportar los logs: {e}"), map["e" := e])
  }

  // ---------------------------------------------------------------------------
  // The application window
  // ---------------------------------------------------------------------------

  /**
   * `ImageDownloaderApp`: the state its download, cancel, log and export
   * handlers read and write. Widget updates that go through `update_queue` are
   * applied at once.
   */
  class App {
    var translations: map<string, string>
    var errors: seq<string>
    var warnings: seq<string>
    /** The text of the log window (`get("1.0", "end-1c")`). */
    var logText: string
    var active: Option<Downloader>
    var downloadEnabled: bool
    var cancelEnabled: bool
    var downloadAllEnabled: bool
    /** Whether `download_start_time` has been set. */
    var started: bool
    var downloadFolder: string
    var imagesChecked: bool
    var videosChecked: bool
    var downloadAllChecked: bool
    /** Fields the settings window writes. */
    var maxDownloads: int
    var maxRetries: Option<int>
    var retryInterval: Option<real>
    var fileNamingMode: Option<int>

    constructor(all: map<string, map<string, string>>, lang: string, folder: string, maxDownloads: int,
                images: bool, videos: bool, downloadAll: bool)
      ensures translations == Translations(all, lang)
      ensures errors == [] && warnings == [] && logText == "" && active.None? && !started
      ensures downloadFolder == folder && this.maxDownloads == maxDownloads
      ensures imagesChecked == images && videosChecked == videos && downloadAllChecked == downloadAll
      ensures downloadEnabled && !cancelEnabled && downloadAllEnabled
      ensures maxRetries.None? && retryInterval.None? && fileNamingMode.None?
    {
      translations := Translations(all, lang);
      errors := [];
      warnings := [];
      logText := "";
      active := None;
      downloadEnabled := true;
      cancelEnabled := false;
      downloadAllEnabled := true;
      started := false;
      downloadFolder := folder;
      imagesChecked := images;
      videosChecked := videos;
      downloadAllChecked := downloadAll;
      this.maxDownloads := maxDownloads;
      maxRetries := None;
      retryInterval := None;
      fileNamingMode := None;
    }

    function Log(): LogState
      reads this`errors, this`warnings, this`logText
    {
      LogState(errors, warnings, logText)
    }

    function Tr(text: string): string
      reads this`translations
    {
      Translate(translations, text)
    }

    /** `update_max_downloads`: the download limit the shell hands to new downloaders. */
    method UpdateMaxDownloads(n: int)
      modifies this`maxDownloads
      ensures maxDownloads == n
    {
      maxDownloads := n;
    }

    /** `load_translations(lang)`. */
    method LoadTranslations(all: map<string, map<string, string>>, lang: string)
      modifies this`translations
      ensures translations == Translations(all, lang)
    {
      translations := Translations(all, lang);
    }

    /** `limit_log_lines`. */
    method LimitLogLines()
      modifies this`logText
      ensures logText == TrimLog(old(logText))
    {
      var lines := SplitLines(logText);
      if |lines| > MaxLogLines {
        logText := DeleteLeadingLines(logText, |lines| - MaxLogLines - 1);
      }
    }

    /** `add_log_message_safe(m)`, with the window update applied at once. */
    method AddLogMessage(m: string)
      modifies this`errors, this`warnings, this`logText
      ensures Log() == LogStep(old(Log()), m)
    {
      if IsErrorMessage(m) {
        errors := errors + [m];
      }
      if IsWarningMessage(m) {
        warnings := warnings + [m];
      }
      logText := logText + m + "\n";
      LimitLogLines();
    }

    /** `add_log_message_safe` for each line in turn, as another downloader's `log_callback` does. */
    method AddLogMessages(lines: seq<string>)
      modifies this`errors, this`warnings, this`logText
      ensures Log() == LogAll(old(Log()), lines)
    {
      ghost var st0 := Log();
      var i := 0;
      while i < |lines|
        invariant 0 <= i <= |lines|
        invariant Log() == LogAll(st0, lines[..i])
      {
        AddLogMessage(lines[i]);
        LogAllSnoc(st0, lines[..i], lines[i]);
        assert lines[..i + 1] == lines[..i] + [lines[i]];
        i := i + 1;
      }
      assert lines[..i] == lines;
    }

    /** `enable_widgets`. */
    method EnableWidgets()
      modifies this`downloadEnabled, this`cancelEnabled, this`downloadAllEnabled
      ensures downloadEnabled && !cancelEnabled && downloadAllEnabled
    {
      downloadEnabled := true;
      cancelEnabled := false;
      downloadAllEnabled := true;
    }

    /**
     * `start_download` for the text of the URL entry. It returns the decision;
     * the thread it starts is the returned job.
     */
    method StartDownload(entry: string, isBunkr: string -> bool, parseQs: string -> QueryValues,
                         fmt: Formatter, other: Site -> Downloader) returns (d: Dispatch)
      modifies this`errors, this`warnings, this`logText, this`active, this`downloadEnabled,
               this`cancelEnabled, this`started
      ensures d == Route(Strip(entry), Urlparse(Strip(entry)), downloadFolder, imagesChecked, videosChecked, downloadAllChecked,
                         isBunkr, parseQs)
      ensures active == ActiveAfter(d, old(active), other)
      ensures d.NoFolder? ==>
        && Log() == old(Log()) && started == old(started)
        && downloadEnabled == old(downloadEnabled) && cancelEnabled == old(cancelEnabled)
      ensures !d.NoFolder? ==> started
      ensures !d.NoFolder? ==>
        Log() == LogAll(LogState([], old(warnings), old(logText)), DispatchMessages(d, translations, fmt))
      ensures !d.NoFolder? ==> downloadEnabled == d.Rejected? && cancelEnabled == !d.Rejected?
    {
      if downloadFolder == "" {
        return NoFolder;
      }
      var url := Strip(entry);
      var parsed := Urlparse(url);
      d := StartParsed(url, parsed, isBunkr, parseQs, fmt, other);
    }

    /** The body of `start_download` once the folder is known to be set and the URL is parsed. */
    method StartParsed(url: string, parsed: Result<ParsedUrl, string>, isBunkr: string -> bool,
                       parseQs: string -> QueryValues, fmt: Formatter, other: Site -> Downloader)
                       returns (d: Dispatch)
      requires downloadFolder != ""
      modifies this`errors, this`warnings, this`logText, this`active, this`downloadEnabled, this`cancelEnabled,
               this`started
      ensures d == Route(url, parsed, downloadFolder, imagesChecked, videosChecked, downloadAllChecked, isBunkr, parseQs)
      ensures !d.NoFolder? && started
      ensures active == ActiveAfter(d, old(active), other)
      ensures Log() == LogAll(LogState([], old(warnings), old(logText)), DispatchMessages(d, translations, fmt))
      ensures downloadEnabled == d.Rejected? && cancelEnabled == !d.Rejected?
    {
      downloadEnabled := false;
      cancelEnabled := true;
      started := true;
      errors := [];
      ghost var st0 := Log();
      if parsed.Err? {
        LogAllNone(st0);
        return ParseError(parsed.error);
      }
      d := StartRouted(url, parsed.value, isBunkr, parseQs, fmt, other, st0);
    }

    /** The site dispatch of `start_download` for a parsed URL. */
    method StartRouted(url: string, p: ParsedUrl, isBunkr: string -> bool, parseQs: string -> QueryValues,
                       fmt: Formatter, other: Site -> Downloader, ghost st0: LogState) returns (d: Dispatch)
      requires Log() == st0 && !downloadEnabled && cancelEnabled
      modifies this`errors, this`warnings, this`logText, this`active, this`downloadEnabled, this`cancelEnabled
      ensures d == RouteUrl(url, p, downloadFolder, imagesChecked, videosChecked, downloadAllChecked, isBunkr, parseQs)
      ensures active == ActiveAfter(d, old(active), other)
      ensures Log() == LogAll(st0, DispatchMessages(d, translations, fmt))
      ensures downloadEnabled == d.Rejected? && cancelEnabled == !d.Rejected?
    {
      if Contains(url, "erome.com") {
        d := StartErome(url, other, fmt, st0);
      } else if isBunkr(url) {
        d := StartBunkr(url, other, fmt, st0);
      } else if IsCkHost(p.netloc) {
        d := StartCk(p, downloadAllChecked, parseQs, fmt, other, st0);
      } else {
        d := StartOther(url, Contains(url, "simpcity.su"), Contains(url, "jpg5.su"), other, fmt, st0);
      }
    }

    /** The erome branch of `start_download`. */
    method StartErome(url: string, other: Site -> Downloader, fmt: Formatter, ghost st0: LogState) returns (d: Dispatch)
      requires Log() == st0
      modifies this`errors, this`warnings, this`logText, this`active
      ensures d == Launch(if Contains(url, "/a/") then EromeAlbum(url, downloadFolder, imagesChecked, videosChecked)
                          else EromeProfile(url, downloadFolder, imagesChecked, videosChecked))
      ensures active == ActiveAfter(d, old(active), other) == Some(FreshErome)
      ensures Log() == LogAll(st0, DispatchMessages(d, translations, fmt))
    {
      var site := Tr("Descargando Erome");
      AddLogMessage(site);
      active := Some(FreshErome);
      var kind;
      if Contains(url, "/a/") {
        kind := Tr("URL del \U{00e1}lbum");
        AddLogMessage(kind);
        d := Launch(EromeAlbum(url, downloadFolder, imagesChecked, videosChecked));
      } else {
        kind := Tr("URL del perfil");
        AddLogMessage(kind);
        d := Launch(EromeProfile(url, downloadFolder, imagesChecked, videosChecked));
      }
      LogAllTwo(st0, site, kind);
      EromeMessages(d.job, translations, fmt);
    }

    /** The bunkr branch of `start_download`. */
    method StartBunkr(url: string, other: Site -> Downloader, fmt: Formatter, ghost st0: LogState) returns (d: Dispatch)
      requires Log() == st0
      modifies this`errors, this`warnings, this`logText, this`active
      ensures d == Launch(if Contains(url, "/v/") || Contains(url, "/i/") then BunkrPost(url) else BunkrProfile(url))
      ensures active == ActiveAfter(d, old(active), other) == Some(other(BunkrSite))
      ensures Log() == LogAll(st0, DispatchMessages(d, translations, fmt))
    {
      var site := Tr("Descargando Bunkr");
      AddLogMessage(site);
      active := Some(other(BunkrSite));
      var kind;
      if Contains(url, "/v/") || Contains(url, "/i/") {
        kind := Tr("URL del post");
        AddLogMessage(kind);
        d := Launch(BunkrPost(url));
      } else {
        kind := Tr("URL del perfil");
        AddLogMessage(kind);
        d := Launch(BunkrProfile(url));
      }
      LogAllTwo(st0, site, kind);
      BunkrMessages(d.job, translations, fmt);
      OtherActive(d, old(active), other);
    }

    /** The last branches of `start_download`: simpcity, jpg5, or an unsupported URL. */
    method StartOther(url: string, simpCity: bool, jpg5: bool, other: Site -> Downloader, fmt: Formatter,
                      ghost st0: LogState) returns (d: Dispatch)
      requires Log() == st0 && !downloadEnabled && cancelEnabled
      modifies this`errors, this`warnings, this`logText, this`active, this`downloadEnabled, this`cancelEnabled
      ensures d == if simpCity then Launch(SimpCityImages(url))
                   else if jpg5 then Launch(Jpg5Images(url))
                   else Rejected(Unsupported)
      ensures active == ActiveAfter(d, old(active), other)
      ensures Log() == LogAll(st0, DispatchMessages(d, translations, fmt))
      ensures downloadEnabled == d.Rejected? && cancelEnabled == !d.Rejected?
    {
      if simpCity || jpg5 {
        d := StartImages(url, simpCity, other, fmt, st0);
      } else {
        d := RejectUnsupported(other, fmt, st0);
      }
    }

    /** The simpcity and jpg5 branches: one log line, then that site's downloader. */
    method StartImages(url: string, simpCity: bool, other: Site -> Downloader, fmt: Formatter, ghost st0: LogState)
      returns (d: Dispatch)
      requires Log() == st0
      modifies this`errors, this`warnings, this`logText, this`active
      ensures d == Launch(if simpCity then SimpCityImages(url) else Jpg5Images(url))
      ensures active == ActiveAfter(d, old(active), other)
      ensures Log() == LogAll(st0, DispatchMessages(d, translations, fmt))
    {
      var job := if simpCity then SimpCityImages(url) else Jpg5Images(url);
      var line := Tr(if simpCity then "Descargando SimpCity" else "Descargando desde Jpg5");
      AddLogMessage(line);
      active := Some(other(if simpCity then SimpCitySite else Jpg5Site));
      d := Launch(job);
      ImagesActive(simpCity, url, old(active), other);
      LogAllOne(st0, line);
      ImagesMessage(simpCity, url, translations, fmt);
    }

    /** A URL no downloader matches: one log line, and the buttons come back. */
    method RejectUnsupported(other: Site -> Downloader, fmt: Formatter, ghost st0: LogState) returns (d: Dispatch)
      requires Log() == st0
      modifies this`errors, this`warnings, this`logText, this`downloadEnabled, this`cancelEnabled
      ensures d == Rejected(Unsupported)
      ensures active == ActiveAfter(d, active, other)
      ensures Log() == LogAll(st0, DispatchMessages(d, translations, fmt))
      ensures downloadEnabled && !cancelEnabled
    {
      var line := Tr("URL no v\U{00e1}lida");
      AddLogMessage(line);
      downloadEnabled := true;
      cancelEnabled := false;
      d := Rejected(Unsupported);
      UnsupportedActive(active, other);
      LogAllOne(st0, line);
      UnsupportedMessage(translations, fmt);
    }

    /** The coomer/kemono branch of `start_download`. */
    method StartCk(p: ParsedUrl, downloadAll: bool, parseQs: string -> QueryValues, fmt: Formatter,
                   other: Site -> Downloader, ghost st0: LogState) returns (d: Dispatch)
      requires Log() == st0 && !downloadEnabled && cancelEnabled
      modifies this`errors, this`warnings, this`logText, this`active, this`downloadEnabled, this`cancelEnabled
      ensures d == CkDecide(p.netloc, ExtractCkParameters(p.path), p.query, downloadAll, parseQs)
      ensures active == Some(FreshGeneral) == ActiveAfter(d, old(active), other)
      ensures Log() == LogAll(st0, DispatchMessages(d, translations, fmt))
      ensures downloadEnabled == d.Rejected? && cancelEnabled == !d.Rejected?
    {
      // The extraction is pure, so computing it before the first log line changes nothing.
      var c := ExtractCkParameters(p.path);
      var starting := Tr("Iniciando descarga...");
      AddLogMessage(starting);
      active := Some(FreshGeneral);
      if c.service.None? || c.user.None? {
        d := RejectCk(c.service.None?, fmt, st0, starting);
      } else {
        d := LaunchCk(p.netloc, p.query, c, downloadAll, parseQs, fmt, st0, starting);
      }
      CkDecideActive(p.netloc, c, p.query, downloadAll, parseQs, old(active), other);
    }

    /** A coomer/kemono URL without a service or a user: two more lines, and the buttons come back. */
    method RejectCk(noService: bool, fmt: Formatter, ghost st0: LogState, ghost starting: string) returns (d: Dispatch)
      requires starting == Tr("Iniciando descarga...") && Log() == LogStep(st0, starting)
      modifies this`errors, this`warnings, this`logText, this`downloadEnabled, this`cancelEnabled
      ensures d == Rejected(if noService then NoService else NoUser) && d.why != Unsupported
      ensures Log() == LogAll(st0, DispatchMessages(d, translations, fmt))
      ensures downloadEnabled && !cancelEnabled
    {
      d := Rejected(if noService then NoService else NoUser);
      var why := Tr(if noService then "No se pudo extraer el servicio." else "No se pudo extraer el ID del usuario.");
      AddLogMessage(why);
      var invalid := Tr("URL no v\U{00e1}lida");
      AddLogMessage(invalid);
      downloadEnabled := true;
      cancelEnabled := false;
      CkRejectMessages(d.why, translations, fmt);
      assert DispatchMessages(d, translations, fmt) == [starting, why, invalid];
      LogAllThree(st0, starting, why, invalid);
    }

    /** A coomer/kemono URL with a service and a user: the service line, then the kind of download. */
    method LaunchCk(site: string, query: string, c: CkParams, downloadAll: bool, parseQs: string -> QueryValues,
                    fmt: Formatter, ghost st0: LogState, ghost starting: string) returns (d: Dispatch)
      requires c.service.Some? && c.user.Some?
      requires starting == Tr("Iniciando descarga...") && Log() == LogStep(st0, starting)
      modifies this`errors, this`warnings, this`logText
      ensures d == CkDecide(site, c, query, downloadAll, parseQs)
      ensures (d.Launch? && (d.job.CkPost? || d.job.CkProfile?)) || d.QueryRaised?
      ensures Log() == LogAll(st0, DispatchMessages(d, translations, fmt))
    {
      var service := ServiceMessage(translations, fmt, site, c.service.value);
      AddLogMessage(service);
      if c.post.None? {
        d := LaunchCkProfile(site, query, c.service.value, c.user.value, downloadAll, parseQs, fmt, st0, starting, service);
        return;
      }
      var kind := Tr("Descargando post \U{00fa}nico...");
      AddLogMessage(kind);
      d := Launch(CkPost(site, c.service.value, c.user.value, c.post.value));
      CkLaunchMessages(d.job, translations, fmt);
      LogAllThree(st0, starting, service, kind);
    }

    /**
     * A coomer/kemono profile URL: `extract_ck_query` as written, then the line
     * for the kind of download. When that function raises, nothing more is
     * logged and no job is launched.
     */
    method LaunchCkProfile(site: string, query: string, service: string, user: string, downloadAll: bool,
                           parseQs: string -> QueryValues, fmt: Formatter, ghost st0: LogState,
                           ghost starting: string, ghost serviceLine: string) returns (d: Dispatch)
      requires starting == Tr("Iniciando descarga...") && serviceLine == ServiceMessage(translations, fmt, site, service)
      requires Log() == LogStep(LogStep(st0, starting), serviceLine)
      modifies this`errors, this`warnings, this`logText
      ensures d == CkDecide(site, CkParams(Some(service), Some(user), None), query, downloadAll, parseQs)
      ensures d.QueryRaised? <==> ExtractCkQueryAsWritten(parseQs(query)).Err?
      ensures Log() == LogAll(st0, DispatchMessages(d, translations, fmt))
    {
      var r := ExtractCkQueryAsWritten(parseQs(query));
      if r.Err? {
        d := QueryRaised(site, service, r.error);
        CkRaisedMessages(site, service, r.error, translations, fmt);
        LogAllTwo(st0, starting, serviceLine);
        return;
      }
      var kind := Tr(if downloadAll then "Descargando todo el contenido del usuario..."
                     else "Descargando solo los posts del URL proporcionado...");
      AddLogMessage(kind);
      d := Launch(CkProfile(site, service, user, r.value.query, downloadAll, r.value.offset));
      CkLaunchMessages(d.job, translations, fmt);
      LogAllThree(st0, starting, serviceLine, kind);
    }

    /** `cancel_download`, with the active downloader's own `request_cancel` logging. */
    method CancelDownload()
      modifies this`errors, this`warnings, this`logText, this`active, this`downloadEnabled,
               this`cancelEnabled, this`downloadAllEnabled
      ensures active.None? && MayClose(active)
      ensures downloadEnabled && !cancelEnabled && downloadAllEnabled
      ensures Log() == LogAll(old(Log()), CancelMessages(old(active), translations))
    {
      ghost var st0 := Log();
      if active.Some? {
        match active.value.site {
          case EromeSite =>
            var m := Tr("Download cancelled");
            AddLogMessage(m);
            LogAllOne(st0, m);
          case CkSite =>
            AddLogMessage("Download cancelled.");
            LogAllOne(st0, "Download cancelled.");
          case _ =>
            AddLogMessages(active.value.cancelLog);
        }
        active := None;
      } else {
        var m := Tr("No hay una descarga en curso para cancelar.");
        AddLogMessage(m);
        LogAllOne(st0, m);
      }
      EnableWidgets();
    }

    /** `on_app_close`: whether the window is destroyed (otherwise a warning is shown). */
    method OnAppClose() returns (closes: bool)
      ensures closes == MayClose(active)
    {
      if active.Some? && !Truthy(active.value.cancel) {
        closes := false;
      } else {
        closes := true;
      }
    }

    /** `export_logs`: the summary it writes, or the exception text it reports. */
    method ExportLogs(fmt: Formatter, path: string) returns (r: Result<Summary, string>)
      modifies this`errors, this`warnings, this`logText
      ensures r == ExportSummary(active, imagesChecked, videosChecked, |old(errors)|, |old(warnings)|, started)
      ensures Log() == LogStep(old(Log()), ExportMessage(r, translations, fmt, path))
    {
      r := ExportSummary(active, imagesChecked, videosChecked, |errors|, |warnings|, started);
      AddLogMessage(ExportMessage(r, translations, fmt, path));
    }

    /** The `finally` of `wrapped_download`: reset the downloader, restore the buttons, export. */
    method FinishDownload(fmt: Formatter, path: string) returns (r: Result<Summary, string>)
      requires started
      modifies this`errors, this`warnings, this`logText, this`active, this`downloadEnabled,
               this`cancelEnabled, this`downloadAllEnabled
      ensures active.None? && downloadEnabled && !cancelEnabled && downloadAllEnabled
      ensures r == Ok(Summary(0, 0, 0, |old(errors)|, |old(warnings)|, "", ""))
      ensures Log() == LogStep(old(Log()), ExportMessage(r, translations, fmt, path))
    {
      active := None;
      EnableWidgets();
      r := ExportLogs(fmt, path);
      ExportWithoutDownloader(imagesChecked, videosChecked, |old(errors)|, |old(warnings)|);
    }
  }
}

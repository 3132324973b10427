/** Percent-encoding as a per-byte map, and its decoder. */
module Percent {
  import opened GoText

  /** A Go string: a sequence of bytes. */
  type Bytes = s: string | forall i :: 0 <= i < |s| ==> s[i] < '\U{0100}' witness ""

  /** The bytes written literally, and whether a space becomes '+' (as in a query). */
  datatype Escaper = Escaper(keep: set<char>, plus: bool)

  function HexDigit(n: int): char
    requires 0 <= n < 16
  {
    "0123456789ABCDEF"[n]
  }

  function HexValue(c: char): int {
    if '0' <= c <= '9' then c as int - '0' as int
    else if 'A' <= c <= 'F' then c as int - 'A' as int + 10
    else -1
  }

  function EscapeByte(e: Escaper, c: char): (r: string)
    requires c < '\U{0100}'
    ensures r != ""
  {
    if c in e.keep then [c]
    else if e.plus && c == ' ' then "+"
    else ['%', HexDigit(c as int / 16), HexDigit(c as int % 16)]
  }

  function Escape(e: Escaper, s: Bytes): string {
    if s == "" then "" else EscapeByte(e, s[0]) + Escape(e, s[1..])
  }

  /** The decoder: `plus` makes a literal '+' read back as a space. */
  function Unescape(plus: bool, s: string): Option<Bytes>
    decreases |s|
  {
    if s == "" then Some("")
    else if s[0] == '%' then
      if |s| < 3 || HexValue(s[1]) < 0 || HexValue(s[2]) < 0 then None
      else Prepend((HexValue(s[1]) * 16 + HexValue(s[2])) as char, Unescape(plus, s[3..]))
    else if s[0] >= '\U{0100}' then None
    else Prepend(if plus && s[0] == '+' then ' ' else s[0], Unescape(plus, s[1..]))
  }

  function Prepend(c: char, rest: Option<Bytes>): Option<Bytes>
    requires c < '\U{0100}'
  {
    if rest.None? then None else Some([c] + rest.value)
  }

  /** What decoding in a given style makes of one encoded byte. */
  lemma DecodeByte(e: Escaper, plus: bool, c: char, rest: string)
    requires c < '\U{0100}' && '%' !in e.keep
    ensures Unescape(plus, EscapeByte(e, c) + rest)
            == Prepend(if c in e.keep && plus && c == '+' then ' '
                       else if c !in e.keep && e.plus && c == ' ' && !plus then '+' else c, Unescape(plus, rest))
  {
    var s := EscapeByte(e, c) + rest;
    if c in e.keep || (e.plus && c == ' ') {
      assert s[1..] == rest;
    } else {
      assert s[1] == HexDigit(c as int / 16) && s[2] == HexDigit(c as int % 16) && s[3..] == rest;
      assert HexValue(s[1]) == c as int / 16 && HexValue(s[2]) == c as int % 16;
    }
  }

  /** An encoder and a decoding style agree on spaces, and leave '%' and '+' unambiguous. */
  predicate Faithful(e: Escaper, plus: bool) {
    '%' !in e.keep && (plus ==> '+' !in e.keep) && (e.plus ==> plus)
  }

  lemma {:induction false} EscapeRoundTrip(e: Escaper, plus: bool, s: Bytes)
    requires Faithful(e, plus)
    ensures Unescape(plus, Escape(e, s)) == Some(s)
  {
    if s != "" {
      EscapeRoundTrip(e, plus, s[1..]);
      DecodeByte(e, plus, s[0], Escape(e, s[1..]));
      assert s == [s[0]] + s[1..];
    }
  }

  /** Bytes outside the keep-set, other than those the encoding itself writes, never
      appear in encoded text. */
  lemma {:induction false} EscapeExcludes(e: Escaper, s: Bytes, c: char)
    requires c !in e.keep && c != '%' && c != '+' && HexValue(c) < 0
    ensures c !in Escape(e, s)
  {
    if s != "" {
      EscapeExcludes(e, s[1..], c);
      assert forall n :: 0 <= n < 16 ==> HexValue(HexDigit(n)) == n;
      assert c !in EscapeByte(e, s[0]);
    }
  }

  // ---------------------------------------------------------------- x-amz-copy-source

  predicate IsUnreserved(c: char) {
    'A' <= c <= 'Z' || 'a' <= c <= 'z' || '0' <= c <= '9' || c in "-._~"
  }

  /** The unreserved bytes together with those of `extra`. */
  function KeepSet(extra: string): set<char> {
    set c: char | '\0' <= c < '\U{0100}' && (IsUnreserved(c) || c in extra)
  }

  const COPY_SOURCE := Escaper(KeepSet("/"), false)

  lemma {:induction false} EscapeConcat(e: Escaper, a: Bytes, b: Bytes)
    ensures Escape(e, a + b) == Escape(e, a) + Escape(e, b)
  {
    if a == "" {
      assert a + b == b;
    } else {
      assert (a + b)[1..] == a[1..] + b;
      EscapeConcat(e, a[1..], b);
    }
  }

  lemma {:induction false} EscapeKeeps(e: Escaper, s: Bytes)
    requires forall i :: 0 <= i < |s| ==> s[i] in e.keep
    ensures Escape(e, s) == s
  {
    if s != "" {
      EscapeKeeps(e, s[1..]);
      assert s == [s[0]] + s[1..];
    }
  }

  lemma EscapeSnoc(e: Escaper, s: Bytes, i: nat)
    requires i < |s|
    ensures Escape(e, s[..i + 1]) == Escape(e, s[..i]) + EscapeByte(e, s[i])
  {
    EscapeConcat(e, s[..i], [s[i]]);
    assert s[..i + 1] == s[..i] + [s[i]];
    assert [s[i]][1..] == "" && EscapeByte(e, s[i]) + "" == EscapeByte(e, s[i]);
  }

  method EscapeCopySource(s: Bytes) returns (r: string)
    ensures r == Escape(COPY_SOURCE, s)
  {
    r := "";
    for i := 0 to |s|
      invariant r == Escape(COPY_SOURCE, s[..i])
    {
      var c := s[i];
      EscapeSnoc(COPY_SOURCE, s, i);
      if IsUnreserved(c) || c == '/' {
        r := r + [c];
      } else {
        r := r + ['%', HexDigit(c as int / 16), HexDigit(c as int % 16)];
      }
    }
    assert s[..|s|] == s;
  }

  /** Exactly the unreserved bytes of section 2.3 of RFC 3986 and the slash stay literal; any
      other byte becomes a percent sign and its two hexadecimal digits. */
  lemma CopySourceBytes(c: char)
    requires c < '\U{0100}'
    ensures var r := Escape(COPY_SOURCE, [c]);
            if || 'A' <= c <= 'Z' || 'a' <= c <= 'z' || '0' <= c <= '9'
               || c == '-' || c == '.' || c == '_' || c == '~' || c == '/'
            then r == [c]
            else |r| == 3 && r[0] == '%' && HexValue(r[1]) * 16 + HexValue(r[2]) == c as int
  {
    KeptBytes(c);
    HexRoundTrip(c as int / 16);
    HexRoundTrip(c as int % 16);
    hide KeepSet;
    assert [c][1..] == "";
    assert EscapeByte(COPY_SOURCE, c) + "" == EscapeByte(COPY_SOURCE, c);
  }

  lemma KeptBytes(c: char)
    requires c < '\U{0100}'
    ensures c in COPY_SOURCE.keep <==>
            || 'A' <= c <= 'Z' || 'a' <= c <= 'z' || '0' <= c <= '9'
            || c == '-' || c == '.' || c == '_' || c == '~' || c == '/'
  {
  }

  lemma HexRoundTrip(n: int)
    requires 0 <= n < 16
    ensures HexValue(HexDigit(n)) == n
  {
  }

  /** S3 decodes the header query-style, so Touch copies the very object it names. */
  lemma CopySourceIsExact(s: Bytes)
    ensures Unescape(true, Escape(COPY_SOURCE, s)) == Some(s)
  {
    EscapeRoundTrip(COPY_SOURCE, true, s);
  }

  /** An encoder that keeps '+', as URL-path encoding does, names another object exactly
      for the keys that contain one. */
  lemma {:induction false} KeepingPlusMisnames(e: Escaper, s: Bytes)
    requires '%' !in e.keep && '+' in e.keep && !e.plus
    ensures Unescape(true, Escape(e, s)) == Some(s) <==> '+' !in s
    ensures Unescape(true, Escape(e, s)).Some?
  {
    if s != "" {
      KeepingPlusMisnames(e, s[1..]);
      DecodeByte(e, true, s[0], Escape(e, s[1..]));
      assert s == [s[0]] + s[1..];
      var decoded := Unescape(true, Escape(e, s)).value;
      assert decoded[1..] == Unescape(true, Escape(e, s[1..])).value;
    }
  }
}

/** Cache keys: the request target, the S3 key grammar and the singleflight key. */
module Keys {
  import opened GoText
  import opened Percent

  /** An upstream URL (https, so the scheme is left out) and the Accept variant. */
  datatype CacheKey = CacheKey(host: Bytes, path: Bytes, query: Bytes, variant: Bytes)

  /** The encoders of net/url by their per-byte behaviour: PathEscape, EscapedPath,
      QueryEscape, and the host encoder of URL.String. */
  datatype Escapers = Escapers(segment: Escaper, path: Escaper, query: Escaper, host: Escaper) {
    predicate Valid() {
      && Faithful(segment, false) && '?' !in segment.keep && '/' !in segment.keep
      && Faithful(path, false) && '?' !in path.keep && '\0' !in path.keep && '/' in path.keep
      && Faithful(query, true) && '?' !in query.keep
      && Faithful(host, false) && '?' !in host.keep && '/' !in host.keep && '\0' !in host.keep
    }
  }

  /** The keep-sets of Go's net/url. */
  const GO_ESCAPERS := Escapers(
    Escaper(KeepSet("$&+=:@"), false), Escaper(KeepSet("$&+,/:;=@"), false), Escaper(KeepSet(""), true),
    Escaper(KeepSet("!$&'()*+,;=:[]<>\""), false))

  lemma GoEscapersValid()
    ensures GO_ESCAPERS.Valid()
  {
    SegmentEscaper();
    PathEscaper();
    HostEscaper();
  }

  lemma SegmentEscaper()
    ensures var e := GO_ESCAPERS.segment; Faithful(e, false) && '?' !in e.keep && '/' !in e.keep
    ensures var e := GO_ESCAPERS.query; Faithful(e, true) && '?' !in e.keep
  {
  }

  lemma PathEscaper()
    ensures var e := GO_ESCAPERS.path; Faithful(e, false) && '?' !in e.keep && '\0' !in e.keep && '/' in e.keep
  {
    assert '/' in "$&+,/:;=@" by {
      assert "$&+,/:;=@"[4] == '/';
    }
  }

  lemma HostEscaper()
    ensures var e := GO_ESCAPERS.host; Faithful(e, false) && '?' !in e.keep && '/' !in e.keep && '\0' !in e.keep
  {
  }

  /** A path is empty or starts with a slash. */
  predicate Rooted(k: CacheKey) {
    k.path == "" || k.path[0] == '/'
  }

  const SCHEME := "https://"

  function Optional(mark: string, s: string): string {
    if s == "" then "" else mark + s
  }

  function S3PathFor(u: Escapers, prefix: string, k: CacheKey): string {
    prefix + "/" + Escape(u.segment, k.host) + Escape(u.path, k.path)
    + Optional("?", Escape(u.query, k.query)) + Optional("??", Escape(u.segment, k.variant))
  }

  function KeyTarget(u: Escapers, k: CacheKey): string {
    Escape(u.host, k.host) + Escape(u.path, k.path) + Optional("?", k.query)
  }

  /** CacheKey.String: URL.String, then the variant after a NUL. */
  function KeyString(u: Escapers, k: CacheKey): string {
    SCHEME + KeyTarget(u, k) + Optional("\0", k.variant)
  }

  // ---------------------------------------------------------------- the decoder

  /** The length of the longest prefix of `s` without a byte in `stop`. */
  function Span(s: string, stop: set<char>): (n: nat)
    ensures n <= |s|
    ensures forall i :: 0 <= i < n ==> s[i] !in stop
    ensures n < |s| ==> s[n] in stop
  {
    if s == "" || s[0] in stop then 0 else 1 + Span(s[1..], stop)
  }

  lemma SpanOf(a: string, b: string, stop: set<char>)
    requires forall i :: 0 <= i < |a| ==> a[i] !in stop
    requires b != "" ==> b[0] in stop
    ensures Span(a + b, stop) == |a|
    ensures (a + b)[..|a|] == a && (a + b)[|a|..] == b
  {
    var n := Span(a + b, stop);
    assert b != "" ==> (a + b)[|a|] == b[0];
    assert forall i :: 0 <= i < |a| ==> (a + b)[i] == a[i];
    assert n == |a|;
  }

  /** Splits `s` into host, path and the rest, which starts at the first '?'. */
  function SplitTarget(s: string): (string, string, string) {
    var h := Span(s, {'/', '?'});
    var p := Span(s[h..], {'?'});
    (s[..h], s[h..h + p], s[h + p..])
  }

  /** Splits what follows the path into query and variant. */
  function SplitTail(s: string): (string, string) {
    if s == "" then ("", "")
    else if "??" <= s then ("", s[2..])
    else
      var q := Span(s[1..], {'?'});
      (s[1..1 + q], if 1 + q + 2 <= |s| then s[1 + q + 2..] else "")
  }

  /** Reads an S3 key back. */
  function DecodeS3Path(prefix: string, s: string): Option<CacheKey> {
    if !(prefix + "/" <= s) then None
    else
      var (host, path, tail) := SplitTarget(s[|prefix| + 1..]);
      var (query, variant) := SplitTail(tail);
      DecodeParts(host, path, query, variant)
  }

  function DecodeParts(host: string, path: string, query: string, variant: string): Option<CacheKey> {
    var h, p, q, v := Unescape(false, host), Unescape(false, path), Unescape(true, query), Unescape(false, variant);
    if h.Some? && p.Some? && q.Some? && v.Some? then Some(CacheKey(h.value, p.value, q.value, v.value)) else None
  }

  lemma TailSplits(query: string, variant: string)
    requires '?' !in query
    ensures SplitTail(Optional("?", query) + Optional("??", variant)) == (query, variant)
  {
    var mark := Optional("??", variant);
    var s := Optional("?", query) + mark;
    if query == "" {
      assert s == mark;
      assert variant != "" ==> s[2..] == variant;
    } else {
      assert s == ['?'] + (query + mark);
      assert s[1..] == query + mark && s[1] == query[0];
      SpanOf(query, mark, {'?'});
      assert s[1..1 + |query|] == query;
      assert variant != "" ==> s[1 + |query| + 2..] == mark[2..] == variant;
    }
  }

  lemma TargetSplits(host: string, path: string, tail: string)
    requires '/' !in host && '?' !in host && '?' !in path
    requires path == "" || path[0] == '/'
    requires tail == "" || tail[0] == '?'
    ensures SplitTarget(host + path + tail) == (host, path, tail)
  {
    var s := host + path + tail;
    assert s == host + (path + tail);
    SpanOf(host, path + tail, {'/', '?'});
    SpanOf(path, tail, {'?'});
  }

  lemma EscapedPathRooted(u: Escapers, k: CacheKey)
    requires u.Valid() && Rooted(k)
    ensures Escape(u.path, k.path) == "" || Escape(u.path, k.path)[0] == '/'
  {
  }

  /** The decoder recovers the whole key from every S3 path, under any encoders whose
      keep-sets leave out '%' and '?' (and '/' for host and variant). */
  lemma DecodeInverts(u: Escapers, prefix: string, k: CacheKey)
    requires u.Valid() && Rooted(k)
    ensures DecodeS3Path(prefix, S3PathFor(u, prefix, k)) == Some(k)
  {
    S3PathParts(u, prefix, k);
    PartsDecode(u, k);
  }

  lemma PartsDecode(u: Escapers, k: CacheKey)
    requires u.Valid()
    ensures DecodeParts(Escape(u.segment, k.host), Escape(u.path, k.path), Escape(u.query, k.query),
                        Escape(u.segment, k.variant)) == Some(k)
  {
    EscapeRoundTrip(u.segment, false, k.host);
    EscapeRoundTrip(u.path, false, k.path);
    EscapeRoundTrip(u.query, true, k.query);
    EscapeRoundTrip(u.segment, false, k.variant);
  }

  /** The joiners of an S3 path are where the grammar put them. */
  lemma S3PathParts(u: Escapers, prefix: string, k: CacheKey)
    requires u.Valid() && Rooted(k)
    ensures var s := S3PathFor(u, prefix, k);
            && prefix + "/" <= s
            && var (host, path, tail) := SplitTarget(s[|prefix| + 1..]);
               && host == Escape(u.segment, k.host) && path == Escape(u.path, k.path)
               && SplitTail(tail) == (Escape(u.query, k.query), Escape(u.segment, k.variant))
  {
    var host, path := Escape(u.segment, k.host), Escape(u.path, k.path);
    var query, variant := Escape(u.query, k.query), Escape(u.segment, k.variant);
    var tail := Optional("?", query) + Optional("??", variant);
    AfterPrefix(prefix, host, path, Optional("?", query), Optional("??", variant));
    EscapeExcludes(u.segment, k.host, '/');
    EscapeExcludes(u.segment, k.host, '?');
    EscapeExcludes(u.path, k.path, '?');
    EscapeExcludes(u.query, k.query, '?');
    EscapedPathRooted(u, k);
    TailSplits(query, variant);
    TargetSplits(host, path, tail);
  }

  lemma AfterPrefix(prefix: string, host: string, path: string, query: string, variant: string)
    ensures var s := prefix + "/" + host + path + query + variant;
            prefix + "/" <= s && s[|prefix| + 1..] == host + path + (query + variant)
  {
    var s := prefix + "/" + host + path + query + variant;
    assert s == (prefix + "/") + (host + path + (query + variant));
  }

  /** Keys of plain traffic read exactly like the URLs they cache, under the prefix. */
  lemma S3PathReadable(u: Escapers, prefix: string, k: CacheKey)
    requires k.query == "" && k.variant == ""
    requires (forall i :: 0 <= i < |k.host| ==> k.host[i] in u.segment.keep)
             && forall i :: 0 <= i < |k.path| ==> k.path[i] in u.path.keep
    ensures S3PathFor(u, prefix, k) == prefix + "/" + k.host + k.path
  {
    EscapeKeeps(u.segment, k.host);
    EscapeKeeps(u.path, k.path);
  }

  lemma S3PathInjective(u: Escapers, prefix: string, a: CacheKey, b: CacheKey)
    requires u.Valid() && Rooted(a) && Rooted(b)
    requires S3PathFor(u, prefix, a) == S3PathFor(u, prefix, b)
    ensures a == b
  {
    DecodeInverts(u, prefix, a);
    DecodeInverts(u, prefix, b);
  }

  // ---------------------------------------------------------------- the singleflight key

  /** The URL and the variant of a singleflight key, cut at the first NUL. */
  function CutKeyString(s: string): (string, string) {
    if |s| < |SCHEME| then ("", "")
    else
      var body := s[|SCHEME|..];
      var n := Span(body, {'\0'});
      (body[..n], if n < |body| then body[n + 1..] else "")
  }

  /** Host, path and query of a URL without its scheme. */
  function DecodeTarget(target: string): Option<(string, string, string)> {
    var (host, path, tail) := SplitTarget(target);
    var h, p := Unescape(false, host), Unescape(false, path);
    if h.Some? && p.Some? then Some((h.value, p.value, if tail == "" then "" else tail[1..])) else None
  }

  /** The whole key can be read back from its singleflight key, if its query is NUL-free. */
  lemma KeyStringInverts(u: Escapers, k: CacheKey)
    requires u.Valid() && Rooted(k) && '\0' !in k.query
    ensures CutKeyString(KeyString(u, k)) == (KeyTarget(u, k), k.variant)
    ensures DecodeTarget(KeyTarget(u, k)) == Some((k.host, k.path, k.query))
  {
    KeyTargetSplits(u, k);
    KeyStringParts(KeyTarget(u, k), k.variant);
    EscapeRoundTrip(u.host, false, k.host);
    EscapeRoundTrip(u.path, false, k.path);
    assert k.query != "" ==> ("?" + k.query)[1..] == k.query;
  }

  lemma KeyTargetSplits(u: Escapers, k: CacheKey)
    requires u.Valid() && Rooted(k) && '\0' !in k.query
    ensures '\0' !in KeyTarget(u, k)
    ensures SplitTarget(KeyTarget(u, k)) == (Escape(u.host, k.host), Escape(u.path, k.path), Optional("?", k.query))
  {
    EscapeExcludes(u.host, k.host, '/');
    EscapeExcludes(u.host, k.host, '?');
    EscapeExcludes(u.host, k.host, '\0');
    EscapeExcludes(u.path, k.path, '?');
    EscapeExcludes(u.path, k.path, '\0');
    EscapedPathRooted(u, k);
    TargetSplits(Escape(u.host, k.host), Escape(u.path, k.path), Optional("?", k.query));
  }

  lemma KeyStringParts(target: string, variant: string)
    requires '\0' !in target
    ensures CutKeyString(SCHEME + target + Optional("\0", variant)) == (target, variant)
  {
    var mark := Optional("\0", variant);
    var s := SCHEME + target + mark;
    assert s == SCHEME + (target + mark);
    assert s[|SCHEME|..] == target + mark;
    SpanOf(target, mark, {'\0'});
    if variant != "" {
      assert mark == "\0" + variant && mark[1..] == variant;
      assert (target + mark)[|target| + 1..] == mark[1..];
    }
  }

  /** Two keys with NUL-free queries share a flight exactly when they share an object. */
  lemma SameFlightSameObject(u: Escapers, prefix: string, a: CacheKey, b: CacheKey)
    requires u.Valid() && Rooted(a) && Rooted(b) && '\0' !in a.query && '\0' !in b.query
    ensures KeyString(u, a) == KeyString(u, b) <==> a == b
    ensures S3PathFor(u, prefix, a) == S3PathFor(u, prefix, b) <==> a == b
  {
    KeyStringInverts(u, a);
    KeyStringInverts(u, b);
    DecodeInverts(u, prefix, a);
    DecodeInverts(u, prefix, b);
  }

  /** A NUL inside a query passes for the variant mark: every key with a query and a
      variant shares its flight, but not its object, with one whose query has a NUL. */
  lemma NulQueryCollides(u: Escapers, prefix: string, a: CacheKey, b: CacheKey)
    requires u.Valid() && Rooted(a) && a.query != "" && a.variant != ""
    requires b == a.(query := a.query + "\0" + a.variant, variant := "")
    ensures KeyString(u, a) == KeyString(u, b) && S3PathFor(u, prefix, a) != S3PathFor(u, prefix, b)
  {
    assert b.query != a.query by {
      assert |b.query| > |a.query|;
    }
    if S3PathFor(u, prefix, a) == S3PathFor(u, prefix, b) {
      S3PathInjective(u, prefix, a, b);
    }
    SameKeyString(u, a, b);
  }

  lemma SameKeyString(u: Escapers, a: CacheKey, b: CacheKey)
    requires a.query != "" && a.variant != ""
    requires b == a.(query := a.query + "\0" + a.variant, variant := "")
    ensures KeyString(u, a) == KeyString(u, b)
  {
    var site := Escape(u.host, a.host) + Escape(u.path, a.path);
    Reassociate(SCHEME, site, "?" + a.query, "\0" + a.variant);
    assert "?" + b.query == ("?" + a.query) + ("\0" + a.variant);
  }

  lemma Reassociate(a: string, b: string, c: string, d: string)
    ensures a + (b + c) + d == a + (b + (c + d)) + ""
  {
  }

  // ---------------------------------------------------------------- requests

  datatype Target = Target(host: Bytes, path: Bytes, query: Bytes)

  /** parseTargetURL: "/<host>/<path>", the host not empty. */
  function ParseTarget(path: Bytes, rawQuery: Bytes): (r: Option<Target>)
    ensures r.Some? ==> r.value.host != "" && '/' !in r.value.host && r.value.path != "" && r.value.path[0] == '/'
    ensures r.Some? && "/" <= path ==> path == "/" + r.value.host + r.value.path && r.value.query == rawQuery
    ensures r.None? && "/" <= path ==> '/' !in path[1..] || "//" <= path
  {
    var p := TrimPrefix(path, "/");
    var i := Index(p, '/');
    if i == |p| || i == 0 then None
    else
      assert p[..i] + ("/" + p[i + 1..]) == p;
      Some(Target(p[..i], "/" + p[i + 1..], rawQuery))
  }

  function KeyOf(t: Target, accept: Bytes): CacheKey {
    CacheKey(t.host, t.path, t.query, accept)
  }

  /** Distinct accepted requests have distinct S3 keys. */
  lemma RequestsHaveOwnKeys(u: Escapers, prefix: string, path1: Bytes, query1: Bytes, accept1: Bytes,
                            path2: Bytes, query2: Bytes, accept2: Bytes)
    requires u.Valid() && "/" <= path1 && "/" <= path2
    requires ParseTarget(path1, query1).Some? && ParseTarget(path2, query2).Some?
    ensures S3PathFor(u, prefix, KeyOf(ParseTarget(path1, query1).value, accept1))
            == S3PathFor(u, prefix, KeyOf(ParseTarget(path2, query2).value, accept2))
            <==> path1 == path2 && query1 == query2 && accept1 == accept2
  {
    var t1, t2 := ParseTarget(path1, query1).value, ParseTarget(path2, query2).value;
    DecodeInverts(u, prefix, KeyOf(t1, accept1));
    DecodeInverts(u, prefix, KeyOf(t2, accept2));
  }
}

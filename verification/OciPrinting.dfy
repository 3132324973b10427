/** Printing WWW-Authenticate lines, as sections 5.6.4 and 11.6.1 of RFC 9110 have them and
    in every spelling, and what the parser makes of them. */
module OciPrinting {
  import opened GoText
  import opened Commas
  import opened OciChallenge

  // ---------------------------------------------------------------- values

  /** The quoted-string form, without its delimiters. */
  function Quote(v: string): string {
    if v == "" then ""
    else (if v[0] == '"' || v[0] == '\\' then ['\\', v[0]] else [v[0]]) + Quote(v[1..])
  }

  /** What the parser makes of a quoted value: every backslash is doubled. */
  function Doubled(v: string): string {
    if v == "" then "" else (if v[0] == '\\' then "\\\\" else [v[0]]) + Doubled(v[1..])
  }

  lemma {:induction false} DoubledSame(v: string)
    ensures |Doubled(v)| >= |v|
    ensures Doubled(v) == v <==> '\\' !in v
    ensures '\\' in v ==> |Doubled(v)| > |v|
  {
    if v != "" {
      DoubledSame(v[1..]);
      assert v == [v[0]] + v[1..];
    }
  }

  lemma {:induction false} UnescapeQuote(v: string)
    ensures UnescapeQuotes(Quote(v)) == Doubled(v)
    ensures Quote(v) != "" ==> Quote(v)[0] != '"'
  {
    if v != "" {
      var rest := Quote(v[1..]);
      UnescapeQuote(v[1..]);
      var s := Quote(v);
      if v[0] == '"' {
        assert s == ['\\', '"'] + rest && s[2..] == rest;
      } else if v[0] == '\\' {
        assert s == ['\\', '\\'] + rest && s[1..] == ['\\'] + rest;
        assert s[1] == '\\';
        assert (['\\'] + rest)[1..] == rest;
        assert rest != "" ==> (['\\'] + rest)[1] != '"';
        assert UnescapeQuotes(s) == ['\\'] + (['\\'] + UnescapeQuotes(rest));
      } else {
        assert s == [v[0]] + rest && s[1..] == rest;
      }
    }
  }

  /** Scanning `s` from `st` meets no visible comma and ends in `end`. */
  ghost predicate Solid(st: Scan, s: string, end: Scan) {
    Scanned(QuotesAndEscapes, st, s) == end && Pieces(QuotesAndEscapes, st, s) == [s]
  }

  lemma SolidConcat(st: Scan, a: string, mid: Scan, b: string, end: Scan)
    requires Solid(st, a, mid) && Solid(mid, b, end)
    ensures Solid(st, a + b, end)
  {
    ScannedConcat(QuotesAndEscapes, st, a, b);
    PiecesConcat(QuotesAndEscapes, st, a, b);
    assert Glue([a], [b]) == [a + b];
  }

  lemma SolidByte(st: Scan, c: char)
    requires c != ',' || st != OUTSIDE
    ensures Solid(st, [c], Advance(QuotesAndEscapes, st, c))
  {
    OneByte(QuotesAndEscapes, st, c);
  }

  /** Free of the bytes that mean something to the splitter. */
  predicate Inert(s: string) {
    ',' !in s && '"' !in s && '\\' !in s
  }

  lemma {:induction false} SolidInert(s: string)
    requires Inert(s)
    ensures Solid(OUTSIDE, s, OUTSIDE)
  {
    if s != "" {
      SolidByte(OUTSIDE, s[0]);
      SolidInert(s[1..]);
      SolidConcat(OUTSIDE, [s[0]], OUTSIDE, s[1..], OUTSIDE);
      assert s == [s[0]] + s[1..];
    }
  }

  const INSIDE := Scan(true, false)

  lemma {:induction false} SolidQuote(v: string)
    ensures Solid(INSIDE, Quote(v), INSIDE)
  {
    if v != "" {
      SolidQuote(v[1..]);
      if v[0] == '"' || v[0] == '\\' {
        SolidByte(INSIDE, '\\');
        SolidByte(Scan(true, true), v[0]);
        SolidConcat(INSIDE, ['\\'], Scan(true, true), [v[0]], INSIDE);
        assert ['\\'] + [v[0]] == ['\\', v[0]];
        SolidConcat(INSIDE, ['\\', v[0]], INSIDE, Quote(v[1..]), INSIDE);
      } else {
        SolidByte(INSIDE, v[0]);
        SolidConcat(INSIDE, [v[0]], INSIDE, Quote(v[1..]), INSIDE);
      }
    }
  }

  // ---------------------------------------------------------------- parameters

  /** A parameter as printed: runs of blanks around its name and value, the name in any
      letter case, the value quoted or, if it has none of the special bytes, bare. One that is
      not valued is a name alone. */
  datatype Printed = Printed(lead: string, name: string, gap: string, valued: bool,
                             open: string, quoted: bool, value: string, trail: string)

  function ValueText(p: Printed): string {
    if p.quoted then "\"" + Quote(p.value) + "\"" else p.value
  }

  function Text(p: Printed): string {
    p.lead + p.name + p.gap + if p.valued then "=" + (p.open + ValueText(p) + p.trail) else ""
  }

  predicate Proper(p: Printed) {
    && Blank(p.lead) && Blank(p.gap) && Blank(p.open) && Blank(p.trail)
    && p.name != "" && NoEdgeBlanks(p.name) && '=' !in p.name && Inert(p.name)
    && (!p.quoted ==> Inert(p.value) && NoEdgeBlanks(p.value))
  }

  /** The value that comes back. */
  function ReadValue(p: Printed): string {
    if p.quoted then Doubled(p.value) else p.value
  }

  lemma BlankInert(s: string)
    requires Blank(s)
    ensures Inert(s) && '=' !in s
  {
    assert forall i :: 0 <= i < |s| ==> IsSpace(s[i]);
  }

  lemma SolidValue(p: Printed)
    requires Proper(p)
    ensures Solid(OUTSIDE, ValueText(p), OUTSIDE)
  {
    if p.quoted {
      SolidByte(OUTSIDE, '"');
      SolidQuote(p.value);
      SolidByte(INSIDE, '"');
      SolidConcat(OUTSIDE, "\"", INSIDE, Quote(p.value), INSIDE);
      SolidConcat(OUTSIDE, "\"" + Quote(p.value), INSIDE, "\"", OUTSIDE);
    } else {
      SolidInert(p.value);
    }
  }

  lemma SolidText(p: Printed)
    requires Proper(p)
    ensures Solid(OUTSIDE, Text(p), OUTSIDE)
  {
    BlankInert(p.lead);
    BlankInert(p.gap);
    BlankInert(p.open);
    BlankInert(p.trail);
    SolidInert(p.lead + p.name + p.gap);
    SolidInert("=");
    SolidInert("");
    SolidInert(p.open);
    SolidValue(p);
    SolidInert(p.trail);
    hide Solid, Inert, Blank;
    SolidConcat(OUTSIDE, p.open, OUTSIDE, ValueText(p), OUTSIDE);
    SolidConcat(OUTSIDE, p.open + ValueText(p), OUTSIDE, p.trail, OUTSIDE);
    var after := p.open + ValueText(p) + p.trail;
    SolidConcat(OUTSIDE, "=", OUTSIDE, after, OUTSIDE);
    SolidConcat(OUTSIDE, p.lead + p.name + p.gap, OUTSIDE, if p.valued then "=" + after else "", OUTSIDE);
  }

  lemma ValueEdges(p: Printed)
    requires Proper(p)
    ensures NoEdgeBlanks(ValueText(p)) && Unquote(ValueText(p)) == ReadValue(p)
  {
    var v := ValueText(p);
    if p.quoted {
      assert v[1..|v| - 1] == Quote(p.value);
      UnescapeQuote(p.value);
    } else {
      assert v != "" ==> v[0] != '"';
    }
  }

  /** The text of a parameter without the blanks at its ends. */
  lemma TrimmedText(p: Printed)
    requires Proper(p) && p.valued
    ensures TrimSpace(Text(p)) == p.name + p.gap + "=" + (if ValueText(p) == "" then "" else p.open + ValueText(p))
  {
    ValueEdges(p);
    var v := ValueText(p);
    hide ValueText, Unquote, ReadValue, Inert, TrimSpace;
    assert p.lead + p.name + p.gap == p.lead + (p.name + p.gap);
    if v == "" {
      assert "" + (p.open + v + p.trail) == p.open + v + p.trail;
      assert p.name + p.gap + "=" + "" == p.name + p.gap + "=";
      Regroup(p.lead, p.name + p.gap, "", p.open + v + p.trail);
      CoreEdges(p.name, p.gap, "");
      TrimBlanks(p.lead, p.name + p.gap + "=" + "", p.open + v + p.trail);
    } else {
      Regroup(p.lead, p.name + p.gap, p.open + v, p.trail);
      CoreEdges(p.name, p.gap, p.open + v);
      TrimBlanks(p.lead, p.name + p.gap + "=" + (p.open + v), p.trail);
    }
  }

  lemma Regroup(lead: string, name: string, value: string, after: string)
    ensures lead + name + ("=" + (value + after)) == lead + (name + "=" + value) + after
  {
  }

  lemma CoreEdges(name: string, gap: string, value: string)
    requires name != "" && !IsSpace(name[0]) && (value != "" ==> !IsSpace(value[|value| - 1]))
    ensures NoEdgeBlanks(name + gap + "=" + value)
  {
  }

  /** A printed parameter is read back under its folded name, and a name alone is not read. */
  lemma ParamReadBack(p: Printed)
    requires Proper(p)
    ensures ParamOf(Text(p)) == if p.valued then Some((ToLower(p.name), ReadValue(p))) else None
  {
    if p.valued {
      ValuedReadBack(p);
    } else {
      assert Text(p) == p.lead + p.name + p.gap;
      TrimBlanks(p.lead, p.name, p.gap);
      assert Cut(p.name, '=') == (p.name, "", false);
    }
  }

  lemma ValuedReadBack(p: Printed)
    requires Proper(p) && p.valued
    ensures ParamOf(Text(p)) == Some((ToLower(p.name), ReadValue(p)))
  {
    TrimmedText(p);
    ValueEdges(p);
    BlankInert(p.gap);
    hide Quote, Doubled, UnescapeQuotes, Unquote, ValueText, Inert, Text;
    var before, v := p.name + p.gap, ValueText(p);
    var after := if v == "" then "" else p.open + v;
    CutAt(before, '=', after);
    TrimBlanks("", p.name, p.gap);
    assert "" + p.name + p.gap == before;
    TrimBlanks(if v == "" then "" else p.open, v, "");
    assert (if v == "" then "" else p.open) + v + "" == after;
  }

  // ---------------------------------------------------------------- lists of parameters

  function List(ps: seq<Printed>): string {
    if ps == [] then "" else if |ps| == 1 then Text(ps[0]) else Text(ps[0]) + "," + List(ps[1..])
  }

  predicate ProperList(ps: seq<Printed>) {
    forall i :: 0 <= i < |ps| ==> Proper(ps[i])
  }

  function Texts(ps: seq<Printed>): seq<string> {
    seq(|ps|, i requires 0 <= i < |ps| => Text(ps[i]))
  }

  lemma TextNotEmpty(p: Printed)
    requires p.name != ""
    ensures Text(p) != ""
  {
  }

  lemma {:induction false} ListPieces(ps: seq<Printed>)
    requires ProperList(ps) && ps != []
    ensures Pieces(QuotesAndEscapes, OUTSIDE, List(ps)) == Texts(ps)
  {
    hide Text, Proper;
    assert Proper(ps[0]);
    SolidText(ps[0]);
    if |ps| == 1 {
      assert Texts(ps) == [Text(ps[0])];
    } else {
      ListPieces(ps[1..]);
      SplitAtComma(QuotesAndEscapes, Text(ps[0]), List(ps[1..]));
      assert Texts(ps) == [Text(ps[0])] + Texts(ps[1..]);
    }
  }

  lemma ListSplits(ps: seq<Printed>)
    requires ProperList(ps)
    ensures AuthPieces(List(ps)) == Texts(ps)
  {
    if ps != [] {
      ListPieces(ps);
      assert Proper(ps[|ps| - 1]);
      TextNotEmpty(ps[|ps| - 1]);
    }
  }

  /** The value of the last parameter of that name, in any letter case. */
  function Last(ps: seq<Printed>, name: string): Option<string> {
    if ps == [] then None
    else if ps[|ps| - 1].valued && EqualFold(ps[|ps| - 1].name, name) then Some(ReadValue(ps[|ps| - 1]))
    else Last(ps[..|ps| - 1], name)
  }

  predicate Lower(name: string) {
    ToLower(name) == name
  }

  lemma {:induction false} ListReadBack(ps: seq<Printed>, name: string)
    requires ProperList(ps) && Lower(name)
    ensures var params := ParamsOf(Texts(ps));
            Last(ps, name) == if name in params then Some(params[name]) else None
  {
    hide Text, Proper, ParamOf, ReadValue;
    if ps != [] {
      var n := |ps| - 1;
      ListReadBack(ps[..n], name);
      assert Proper(ps[n]);
      ParamReadBack(ps[n]);
      assert Texts(ps)[..n] == Texts(ps[..n]) && Texts(ps)[n] == Text(ps[n]);
    }
  }

  // ---------------------------------------------------------------- lines

  /** A line as printed: its scheme, what follows it, and the blanks between and around. */
  datatype AuthLine = AuthLine(lead: string, scheme: string, sep: string, body: string, tail: string)

  function LineText(l: AuthLine): string {
    l.lead + (l.scheme + l.sep + l.body) + l.tail
  }

  predicate ProperLine(l: AuthLine) {
    && Blank(l.lead) && Blank(l.sep) && Blank(l.tail) && NoEdgeBlanks(l.body)
    && l.scheme != "" && (forall i :: 0 <= i < |l.scheme| ==> !IsSpace(l.scheme[i]))
    && (if l.body == "" then l.sep == "" else l.sep != "" && (l.sep[0] == ' ' || l.sep[0] == '\t'))
  }

  lemma TrimmedLine(l: AuthLine)
    requires ProperLine(l)
    ensures TrimSpace(LineText(l)) == l.scheme + l.sep + l.body
  {
    var core := l.scheme + l.sep + l.body;
    assert core[0] == l.scheme[0];
    assert core[|core| - 1] == if l.body == "" then l.scheme[|l.scheme| - 1] else l.body[|l.body| - 1];
    TrimBlanks(l.lead, core, l.tail);
  }

  lemma BlankNotFolded(s: string, i: nat)
    requires i < |s| && i < |BEARER| && IsSpace(s[i])
    ensures !EqualFold(s, BEARER)
  {
    assert ToLower(s)[i] == LowerChar(s[i]) && ToLower(BEARER)[i] == LowerChar(BEARER[i]);
    assert 'A' <= BEARER[i] <= 'z';
  }

  /** A line is a Bearer line exactly by its scheme, in any letter case. */
  lemma SchemeDecides(l: AuthLine)
    requires ProperLine(l)
    ensures IsBearer(TrimSpace(LineText(l))) <==> EqualFold(l.scheme, BEARER)
  {
    TrimmedLine(l);
    var h, k, n := l.scheme + l.sep + l.body, |l.scheme|, |BEARER|;
    assert |h| > k ==> h[k] == l.sep[0];
    assert |ToLower(l.scheme)| == k && |ToLower(BEARER)| == n;
    if k == n {
      assert h[..n] == l.scheme;
    } else if k < n <= |h| {
      assert h[..n][k] == l.sep[0];
      BlankNotFolded(h[..n], k);
    } else if n < k {
      assert h[n] == l.scheme[n];
    }
  }

  lemma BearerBody(l: AuthLine)
    requires ProperLine(l) && EqualFold(l.scheme, BEARER)
    ensures var header := TrimSpace(LineText(l)); |header| >= |BEARER| && TrimSpace(header[|BEARER|..]) == l.body
  {
    TrimmedLine(l);
    assert |l.scheme| == |ToLower(l.scheme)| == |BEARER|;
    hide LineText, EqualFold, ToLower, TrimSpace;
    AfterScheme(l.scheme, l.sep, l.body);
    TrimBlanks(l.sep, l.body, "");
  }

  lemma AfterScheme(scheme: string, sep: string, body: string)
    ensures (scheme + sep + body)[|scheme|..] == sep + body + ""
  {
  }

  /** A line of another scheme says nothing. */
  predicate Foreign(l: AuthLine) {
    ProperLine(l) && !EqualFold(l.scheme, BEARER)
  }

  function LineTexts(ls: seq<AuthLine>): seq<string> {
    seq(|ls|, i requires 0 <= i < |ls| => LineText(ls[i]))
  }

  lemma {:induction false} SkipForeign(others: seq<AuthLine>, lines: seq<string>)
    requires forall i :: 0 <= i < |others| ==> Foreign(others[i])
    ensures FirstChallenge(LineTexts(others) + lines) == FirstChallenge(lines)
  {
    hide LineText, IsBearer, EqualFold;
    if others == [] {
      assert LineTexts(others) + lines == lines;
    } else {
      var all := LineTexts(others) + lines;
      assert all[0] == LineText(others[0]) && all[1..] == LineTexts(others[1..]) + lines;
      assert Foreign(others[0]);
      SchemeDecides(others[0]);
      SkipForeign(others[1..], lines);
    }
  }

  function OrBlank(v: Option<string>): string {
    if v.Some? then v.value else ""
  }

  /** What a Bearer line of these parameters asks for: the realm must be there, service and
      scope need not. */
  function Asked(ps: seq<Printed>): Option<Challenge> {
    if Last(ps, "realm").None? then None
    else Some(Challenge(Last(ps, "realm").value, OrBlank(Last(ps, "service")), OrBlank(Last(ps, "scope"))))
  }

  lemma KnownNames()
    ensures Lower("realm") && Lower("service") && Lower("scope")
  {
  }

  /** The first Bearer line of a 401 decides: whatever the selection, order, spelling and
      quoting of its parameters, the challenge has the last value given for each, and none
      for what was left out; without a realm there is no challenge, whatever lines follow. */
  lemma ChallengeParsed(others: seq<AuthLine>, l: AuthLine, ps: seq<Printed>, more: seq<string>)
    requires forall i :: 0 <= i < |others| ==> Foreign(others[i])
    requires ProperLine(l) && EqualFold(l.scheme, BEARER) && ProperList(ps) && l.body == List(ps)
    ensures ParseChallenge(STATUS_UNAUTHORIZED, LineTexts(others) + [LineText(l)] + more) == Asked(ps)
  {
    SchemeDecides(l);
    BearerBody(l);
    ListSplits(ps);
    KnownNames();
    ListReadBack(ps, "realm");
    ListReadBack(ps, "service");
    ListReadBack(ps, "scope");
    hide LineText, IsBearer, EqualFold, List, Texts, Last, AuthPieces, ParamsOf, ProperLine, ProperList, Lower;
    assert LineTexts(others) + [LineText(l)] + more == LineTexts(others) + ([LineText(l)] + more);
    SkipForeign(others, [LineText(l)] + more);
    assert ([LineText(l)] + more)[0] == LineText(l);
  }

  /** No other status is a challenge, and no line of another scheme is one. */
  lemma NoChallenge(status: int, lines: seq<string>, others: seq<AuthLine>)
    requires forall i :: 0 <= i < |others| ==> Foreign(others[i])
    ensures status != 401 ==> ParseChallenge(status, lines).None?
    ensures ParseChallenge(status, LineTexts(others)).None?
  {
    SkipForeign(others, []);
    assert LineTexts(others) + [] == LineTexts(others);
  }

  // ---------------------------------------------------------------- the round trip

  function Quoted(sep: string, name: string, v: string): Printed {
    Printed(sep, name, "", true, "", true, v, "")
  }

  /** The three parameters, quoted. */
  function Params(sep: string, c: Challenge): seq<Printed> {
    [Quoted("", "realm", c.realm), Quoted(sep, "service", c.service), Quoted(sep, "scope", c.scope)]
  }

  lemma ParamsAsk(sep: string, c: Challenge)
    ensures Asked(Params(sep, c)) == Some(Challenge(Doubled(c.realm), Doubled(c.service), Doubled(c.scope)))
  {
    var ps := Params(sep, c);
    assert ps[..2] == [ps[0], ps[1]] && ps[..2][..1] == [ps[0]] && [ps[0]][..0] == [];
    assert |ToLower("realm")| == 5 && |ToLower("service")| == 7;
    assert ToLower("scope")[0] == 's' && ToLower("realm")[0] == 'r';
    assert Last(ps[..2], "service") == Some(Doubled(c.service));
    assert Last([ps[0]], "realm") == Some(Doubled(c.realm));
    assert Last(ps[..2], "realm") == Last([ps[0]], "realm");
  }

  lemma ParamsProper(sep: string, c: Challenge)
    requires Blank(sep)
    ensures ProperList(Params(sep, c))
  {
  }

  /** Printed in full, among other lines, a challenge is parsed back exactly when none of its
      values contains a backslash: the parser unescapes quotes but not backslashes. */
  lemma ChallengeRoundTrip(others: seq<AuthLine>, l: AuthLine, sep: string, c: Challenge, more: seq<string>)
    requires forall i :: 0 <= i < |others| ==> Foreign(others[i])
    requires ProperLine(l) && EqualFold(l.scheme, BEARER) && Blank(sep) && l.body == List(Params(sep, c))
    ensures var parsed := ParseChallenge(STATUS_UNAUTHORIZED, LineTexts(others) + [LineText(l)] + more);
            && parsed == Some(Challenge(Doubled(c.realm), Doubled(c.service), Doubled(c.scope)))
            && (parsed == Some(c) <==> '\\' !in c.realm && '\\' !in c.service && '\\' !in c.scope)
  {
    var ps := Params(sep, c);
    ParamsProper(sep, c);
    hide LineText, LineTexts, List, Asked, Params, ProperList, Foreign, ProperLine, EqualFold;
    ChallengeParsed(others, l, ps, more);
    ParamsAsk(sep, c);
    DoubledSame(c.realm);
    DoubledSame(c.service);
    DoubledSame(c.scope);
  }
}

/** How a Cache-Control line may be spelled, byte by byte, and that the gate does not mind. */
module Spelling {
  import opened GoText
  import opened Commas
  import opened Headers
  import opened Freshness
  import opened FreshnessLaws

  /** One directive as written: runs of blanks around its name and, if it has one, its value. */
  datatype Spelled = Spelled(lead: string, name: string, gap: string, given: bool,
                             open: string, value: string, trail: string)

  function Text(d: Spelled): string {
    d.lead + d.name + d.gap + if d.given then "=" + (d.open + d.value + d.trail) else ""
  }

  /** A value without quotes and commas, or a quoted string of any bytes but the quote. */
  predicate IsValue(v: string) {
    || ('"' !in v && ',' !in v)
    || (|v| >= 2 && v[0] == '"' && v[|v| - 1] == '"' && '"' !in v[1..|v| - 1])
  }

  predicate IsName(n: string) {
    n != "" && NoEdgeBlanks(n) && '=' !in n && ',' !in n && '"' !in n
  }

  predicate Proper(d: Spelled) {
    && Blank(d.lead) && Blank(d.gap) && Blank(d.open) && Blank(d.trail)
    && IsName(d.name) && IsValue(d.value) && NoEdgeBlanks(d.value)
  }

  /** What is meant: the name with its letters folded, and the value exactly. */
  function Meant(d: Spelled): Directive {
    Directive(ToLower(d.name), if d.given then d.value else "")
  }

  /** Folding touches the letters A to Z and nothing else. */
  lemma FoldedByte(n: string, i: nat)
    requires i < |n|
    ensures ToLower(n)[i] == if 'A' <= n[i] <= 'Z' then (n[i] as int + 32) as char else n[i]
  {
  }

  /** A piece yields the one directive it spells. */
  lemma PieceMeans(d: Spelled)
    requires Proper(d)
    ensures DirectiveIn(Text(d)) == [Meant(d)]
  {
    var before, after := d.lead + d.name + d.gap, d.open + d.value + d.trail;
    assert '=' !in before by {
      assert forall i :: 0 <= i < |d.lead| ==> IsSpace(d.lead[i]);
      assert forall i :: 0 <= i < |d.gap| ==> IsSpace(d.gap[i]);
    }
    TrimBlanks(d.lead, d.name, d.gap);
    TrimBlanks(d.open, d.value, d.trail);
    if d.given {
      assert Text(d) == before + ['='] + after;
      CutAt(before, '=', after);
    } else {
      assert Text(d) == before;
      assert Cut(before, '=') == (before, "", false);
      TrimBlanks("", "", "");
    }
    assert ToLower(d.name) != "";
  }

  // ---------------------------------------------------------------- lines

  /** The splitter sees one piece, and no quote is left open. */
  predicate Closed(s: string) {
    Pieces(Quotes, OUTSIDE, s) == [s] && Scanned(Quotes, OUTSIDE, s) == OUTSIDE
  }

  lemma ClosedConcat(a: string, b: string)
    requires Closed(a) && Closed(b)
    ensures Closed(a + b)
  {
    PiecesConcat(Quotes, OUTSIDE, a, b);
    ScannedConcat(Quotes, OUTSIDE, a, b);
    assert Glue([a], [b]) == [a + b];
  }

  lemma ClosedQuoted(inner: string)
    requires '"' !in inner
    ensures Closed("\"" + inner + "\"")
  {
    var inside := Scan(true, false);
    OneByte(Quotes, OUTSIDE, '"');
    OnePiece(true, inner);
    PiecesConcat(Quotes, OUTSIDE, "\"", inner);
    ScannedConcat(Quotes, OUTSIDE, "\"", inner);
    assert Glue(["\""], [inner]) == ["\"" + inner];
    OneByte(Quotes, inside, '"');
    PiecesConcat(Quotes, OUTSIDE, "\"" + inner, "\"");
    ScannedConcat(Quotes, OUTSIDE, "\"" + inner, "\"");
    assert Glue(["\"" + inner], ["\""]) == ["\"" + inner + "\""];
  }

  lemma ClosedValue(v: string)
    requires IsValue(v)
    ensures Closed(v)
  {
    if '"' !in v && ',' !in v {
      OnePiece(false, v);
    } else {
      ClosedQuoted(v[1..|v| - 1]);
      assert "\"" + v[1..|v| - 1] + "\"" == v;
    }
  }

  lemma ClosedBlank(b: string)
    requires Blank(b)
    ensures Closed(b)
  {
    assert forall i :: 0 <= i < |b| ==> IsSpace(b[i]);
    OnePiece(false, b);
  }

  lemma ClosedText(d: Spelled)
    requires Proper(d)
    ensures Closed(Text(d))
  {
    hide Closed;
    ClosedBlank(d.lead);
    OnePieceClosed(d.name);
    ClosedBlank(d.gap);
    ClosedConcat(d.lead, d.name);
    ClosedConcat(d.lead + d.name, d.gap);
    OnePieceClosed("=");
    ClosedBlank(d.open);
    ClosedValue(d.value);
    ClosedBlank(d.trail);
    ClosedConcat(d.open, d.value);
    ClosedConcat(d.open + d.value, d.trail);
    ClosedConcat("=", d.open + d.value + d.trail);
    OnePieceClosed("");
    ClosedConcat(d.lead + d.name + d.gap, if d.given then "=" + (d.open + d.value + d.trail) else "");
  }

  lemma OnePieceClosed(s: string)
    requires '"' !in s && ',' !in s
    ensures Closed(s)
  {
    OnePiece(false, s);
  }

  /** A line of directives. */
  function Line(ds: seq<Spelled>): string
    requires ds != []
  {
    if |ds| == 1 then Text(ds[0]) else Text(ds[0]) + "," + Line(ds[1..])
  }

  predicate ProperLine(ds: seq<Spelled>) {
    ds != [] && forall i :: 0 <= i < |ds| ==> Proper(ds[i])
  }

  function MeantAll(ds: seq<Spelled>): seq<Directive> {
    seq(|ds|, i requires 0 <= i < |ds| => Meant(ds[i]))
  }

  /** A line yields the directives it spells, in order. */
  lemma {:induction false} LineMeans(ds: seq<Spelled>)
    requires ProperLine(ds)
    ensures DirectivesOn(Line(ds)) == MeantAll(ds)
  {
    hide Text, Proper, DirectiveIn, Meant;
    var first := Text(ds[0]);
    ClosedText(ds[0]);
    PieceMeans(ds[0]);
    FlatOne(DirectiveIn, first);
    if |ds| > 1 {
      LineMeans(ds[1..]);
      SplitAtComma(Quotes, first, Line(ds[1..]));
      FlatConcat(DirectiveIn, [first], Pieces(Quotes, OUTSIDE, Line(ds[1..])));
      assert MeantAll(ds) == [Meant(ds[0])] + MeantAll(ds[1..]);
    } else {
      assert MeantAll(ds) == [Meant(ds[0])];
    }
  }

  // ---------------------------------------------------------------- decisions

  /** Spelled in another case or with other blanks, the same directive. */
  predicate Respelled(d: Spelled, e: Spelled) {
    EqualFold(d.name, e.name) && d.given == e.given && (d.given ==> d.value == e.value)
  }

  lemma DirectivesAround(before: seq<string>, line: string, after: seq<string>)
    ensures Directives(before + [line] + after) == Directives(before) + DirectivesOn(line) + Directives(after)
  {
    hide DirectivesOn;
    FlatConcat(DirectivesOn, before + [line], after);
    FlatConcat(DirectivesOn, before, [line]);
    FlatOne(DirectivesOn, line);
  }

  /** Neither the case of directive names nor blanks around names and values, trailing ones
      too, matter: respelling a line, among any others, leaves the whole decision as it was. */
  lemma SpellingIrrelevant(parse: DateParser, h1: Header, h2: Header, before: seq<string>, ds: seq<Spelled>,
                           es: seq<Spelled>, after: seq<string>,
                           storedAt: int, now: int, lifetimeCap: int, keyHeaders: seq<string>)
    requires SameExceptCacheControl(h1, h2) && ProperLine(ds) && ProperLine(es)
    requires |ds| == |es| && forall i :: 0 <= i < |ds| ==> Respelled(ds[i], es[i])
    requires Values(h1, "Cache-Control") == before + [Line(ds)] + after
    requires Values(h2, "Cache-Control") == before + [Line(es)] + after
    ensures Verdict(parse, h1, storedAt, now, lifetimeCap, keyHeaders)
            == Verdict(parse, h2, storedAt, now, lifetimeCap, keyHeaders)
  {
    LineMeans(ds);
    LineMeans(es);
    hide Line, ProperLine, Verdict;
    DirectivesAround(before, Line(ds), after);
    DirectivesAround(before, Line(es), after);
    assert MeantAll(ds) == MeantAll(es);
    SameParse(parse, h1, h2, storedAt, now, lifetimeCap, keyHeaders);
  }

  /** A line with any spelling of no-cache, with or without a value, among any others. */
  lemma AnyNoCacheRefuses(parse: DateParser, h: Header, before: seq<string>, ds: seq<Spelled>, i: nat,
                          after: seq<string>, storedAt: int, now: int, lifetimeCap: int, keyHeaders: seq<string>)
    requires ProperLine(ds) && i < |ds| && EqualFold(ds[i].name, "no-cache")
    requires Values(h, "Cache-Control") == before + [Line(ds)] + after
    ensures var d := Verdict(parse, h, storedAt, now, lifetimeCap, keyHeaders);
            !d.isFresh && (storedAt != 0 ==> d.reason == ReasonNoCache)
  {
    hide Directives, Line, ProperLine, Verdict, ToLower;
    SpelledAmong(before, ds, i, after);
    KnownDirectives();
    NoCacheRefuses(parse, h, storedAt, now, lifetimeCap, keyHeaders, |Directives(before)| + i);
  }

  lemma KnownDirectives()
    ensures ToLower("no-cache") == "no-cache" && ToLower("max-age") == "max-age"
  {
    LowerKeeps("no-cache");
    LowerKeeps("max-age");
  }

  lemma SpelledAmong(before: seq<string>, ds: seq<Spelled>, i: nat, after: seq<string>)
    requires ProperLine(ds) && i < |ds|
    ensures var all, k := Directives(before + [Line(ds)] + after), |Directives(before)| + i;
            k < |all| && all[k] == Meant(ds[i])
  {
    LineMeans(ds);
    hide Line, ProperLine, Directives, DirectivesOn, Meant;
    DirectivesAround(before, Line(ds), after);
    assert MeantAll(ds)[i] == Meant(ds[i]);
  }

  lemma OneArg(d: Directive, name: string)
    ensures Args([d], name) == if d.name == name then [d.arg] else []
  {
    assert [d][1..] == [];
  }

  /** An entry whose one Cache-Control line spells max-age=N is fresh for exactly N seconds,
      or the cap if that is less. */
  lemma MaxAgeWindow(parse: DateParser, h: Header, d: Spelled, seconds: nat,
                     storedAt: int, now: int, lifetimeCap: int, keyHeaders: seq<string>)
    requires lifetimeCap <= SAFE_CAP && storedAt != 0
    requires Values(h, "Vary") == [] && Values(h, "Age") == [] && Values(h, "Cache-Control") == [Text(d)]
    requires Proper(d) && d.given && EqualFold(d.name, "max-age") && DeltaOf(d.value, seconds)
    ensures Verdict(parse, h, storedAt, now, lifetimeCap, keyHeaders).isFresh
            <==> Max(now - storedAt, 0) < seconds * SECOND && Max(now - storedAt, 0) < lifetimeCap
  {
    LineMeans([d]);
    KnownDirectives();
    OneLine(Text(d));
    var all := Directives(Values(h, "Cache-Control"));
    assert all == [Directive("max-age", d.value)];
    OneArg(all[0], "max-age");
    OneArg(all[0], "s-maxage");
    hide Args, Directives, DirectivesOn, Text, ToLower;
    assert Eligible(h, storedAt, keyHeaders) && ArrivedAged(h, 0);
    assert Declares(parse, h, storedAt, seconds * SECOND);
    FreshWindow(parse, h, storedAt, lifetimeCap, keyHeaders, seconds * SECOND, 0, now);
  }

  // ---------------------------------------------------------------- Vary

  /** A name as listed in Vary, with runs of blanks around it. */
  datatype Listed = Listed(lead: string, name: string, trail: string)

  function ListedText(n: Listed): string {
    n.lead + n.name + n.trail
  }

  predicate ProperListed(n: Listed) {
    Blank(n.lead) && Blank(n.trail) && NoEdgeBlanks(n.name) && ',' !in n.name
  }

  function VaryLine(ns: seq<Listed>): string
    requires ns != []
  {
    if |ns| == 1 then ListedText(ns[0]) else ListedText(ns[0]) + "," + VaryLine(ns[1..])
  }

  predicate ProperVary(ns: seq<Listed>) {
    ns != [] && forall i :: 0 <= i < |ns| ==> ProperListed(ns[i])
  }

  lemma {:induction false} PlainPiece(s: string)
    requires ',' !in s
    ensures Pieces(Plain, OUTSIDE, s) == [s]
  {
    if s != "" {
      PlainPiece(s[1..]);
      assert s == [s[0]] + s[1..];
    }
  }

  /** The name is a blank, Accept-Encoding, or a header of the key, in any letter case; an
      asterisk is none. */
  predicate Tolerated(name: string, keyHeaders: seq<string>) {
    || name == "" || ToLower(name) == ToLower("Accept-Encoding")
    || (name != "*" && exists k :: 0 <= k < |keyHeaders| && ToLower(keyHeaders[k]) == ToLower(name))
  }

  lemma ListedPiece(n: Listed, keyHeaders: seq<string>)
    requires ProperListed(n)
    ensures Pieces(Plain, OUTSIDE, ListedText(n)) == [ListedText(n)]
    ensures LineSatisfied(ListedText(n), keyHeaders) <==> Tolerated(n.name, keyHeaders)
  {
    assert ',' !in n.lead && ',' !in n.trail by {
      assert forall i :: 0 <= i < |n.lead| ==> IsSpace(n.lead[i]);
      assert forall i :: 0 <= i < |n.trail| ==> IsSpace(n.trail[i]);
    }
    PlainPiece(ListedText(n));
    TrimBlanks(n.lead, n.name, n.trail);
    assert VaryName(ListedText(n), 0) == n.name;
  }

  /** A Vary line is satisfied exactly if every name on it is tolerated, however spelled. */
  lemma {:induction false} VarySpelled(ns: seq<Listed>, keyHeaders: seq<string>)
    requires ProperVary(ns)
    ensures LineSatisfied(VaryLine(ns), keyHeaders)
            <==> forall i :: 0 <= i < |ns| ==> Tolerated(ns[i].name, keyHeaders)
  {
    hide LineSatisfied, Tolerated, ProperListed;
    ListedPiece(ns[0], keyHeaders);
    if |ns| > 1 {
      VarySpelled(ns[1..], keyHeaders);
      JoinedVaryLine(ListedText(ns[0]), VaryLine(ns[1..]), keyHeaders);
      assert forall i :: 1 <= i < |ns| ==> ns[i] == ns[1..][i - 1];
    }
  }
}

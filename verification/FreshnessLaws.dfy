/** What the freshness gate decides, stated without its parser's order of tests and
    over unbounded integers. */
module FreshnessLaws {
  import opened GoText
  import opened Commas
  import opened Headers
  import opened Freshness

  /** The largest cap for which int64 arithmetic is exact. */
  const SAFE_CAP: int := MAX_INT64 - MAX_DELTA * SECOND

  /** There is one argument, and it denotes the duration `d`. */
  ghost predicate OnceDelta(args: seq<string>, d: int) {
    |args| == 1 && d % SECOND == 0 && DeltaOf(args[0], d / SECOND)
  }

  lemma OnceDeltaParsed(args: seq<string>)
    ensures var machine := OnceParsed(args);
            && (machine.seen <==> args != [])
            && (machine.ok ==> OnceDelta(args, machine.d) && 0 <= machine.d <= MAX_DELTA * SECOND)
            && (forall d :: OnceDelta(args, d) ==> machine.ok && machine.d == d)
  {
  }

  /** Sections 4.2.1 and 5.2.2.10 of RFC 9111: the headers declare `lifetime`. The
      strongest source present decides alone, even when it is unusable. */
  ghost predicate Declares(parse: DateParser, stored: Header, storedAt: int, lifetime: int) {
    var ds := Directives(Values(stored, "Cache-Control"));
    var shared, general := Args(ds, "s-maxage"), Args(ds, "max-age");
    var expires, date := Values(stored, "Expires"), Values(stored, "Date");
    if shared != [] then OnceDelta(shared, lifetime)
    else if general != [] then OnceDelta(general, lifetime)
    else
      && |expires| == 1 && parse(expires[0]).Some?
      && var usesDate := |date| == 1 && parse(date[0]).Some?;
         lifetime == parse(expires[0]).value - (if usesDate then parse(date[0]).value else storedAt)
  }

  /** The response was already `age` old when it was stored. */
  ghost predicate ArrivedAged(stored: Header, age: int) {
    var lines := Values(stored, "Age");
    if lines == [] then age == 0 else OnceDelta(lines, age)
  }

  /** The conditions on the stored headers alone. */
  ghost predicate Eligible(stored: Header, storedAt: int, keyHeaders: seq<string>) {
    && storedAt != 0
    && (forall d :: d in Directives(Values(stored, "Cache-Control")) ==> d.name != "no-cache")
    && VaryOk(Values(stored, "Vary"), keyHeaders)
  }

  /** Fresh, by the definition of the design: eligible, under the declared lifetime
      counting the age on arrival, and resident for less than the cap. */
  ghost predicate Fresh(parse: DateParser, stored: Header, storedAt: int, now: int, lifetimeCap: int,
                        keyHeaders: seq<string>) {
    var resident := Max(now - storedAt, 0);
    && Eligible(stored, storedAt, keyHeaders)
    && resident < lifetimeCap
    && exists lifetime, age ::
         Declares(parse, stored, storedAt, lifetime) && ArrivedAged(stored, age) && resident + age < lifetime
  }

  lemma {:induction false} ArgsEmpty(ds: seq<Directive>, name: string)
    ensures Args(ds, name) == [] <==> forall d :: d in ds ==> d.name != name
  {
    if ds != [] {
      ArgsEmpty(ds[1..], name);
      assert ds == [ds[0]] + ds[1..];
    }
  }

  /** The two axes of the machine agree with the ideal ones under a safe cap. */
  lemma WeighExact(lifetime: int, age: int, storedAt: int, now: int, lifetimeCap: int)
    requires 0 <= age <= MAX_DELTA * SECOND
    requires lifetimeCap <= SAFE_CAP
    ensures var resident := Max(now - storedAt, 0);
            Weigh(SaturatingSub(lifetime, 0), age, storedAt, now, lifetimeCap).isFresh
            <==> resident + age < lifetime && resident < lifetimeCap
  {
  }

  /** Evaluate answers fresh exactly on the entries the definition calls fresh, for
      every cap up to the largest int64 minus the largest usable Age. */
  lemma VerdictIsFresh(parse: DateParser, stored: Header, storedAt: int, now: int, lifetimeCap: int,
                       keyHeaders: seq<string>)
    requires lifetimeCap <= SAFE_CAP
    ensures Verdict(parse, stored, storedAt, now, lifetimeCap, keyHeaders).isFresh
            <==> Fresh(parse, stored, storedAt, now, lifetimeCap, keyHeaders)
  {
    var ds := Directives(Values(stored, "Cache-Control"));
    ArgsEmpty(ds, "no-cache");
    LifetimeDeclared(parse, stored, storedAt);
    AgeArrived(stored);
    var lifetime := DeclaredLifetime(parse, Parsed(ds), stored, storedAt);
    var age := ParsedAge(Values(stored, "Age"));
    if lifetime.Some? && age.Some? {
      var ideal :| Declares(parse, stored, storedAt, ideal);
      WeighExact(ideal, age.value, storedAt, now, lifetimeCap);
      assert Declares(parse, stored, storedAt, ideal) && ArrivedAged(stored, age.value);
    }
  }

  /** The machine's lifetime is the declared one, saturated; there is at most one. */
  lemma LifetimeDeclared(parse: DateParser, stored: Header, storedAt: int)
    ensures var cc := Parsed(Directives(Values(stored, "Cache-Control")));
            var machine := DeclaredLifetime(parse, cc, stored, storedAt);
            && (machine.Some? <==> exists lifetime :: Declares(parse, stored, storedAt, lifetime))
            && (forall lifetime :: Declares(parse, stored, storedAt, lifetime) ==>
                  machine == Some(SaturatingSub(lifetime, 0)))
    ensures forall x, y :: Declares(parse, stored, storedAt, x) && Declares(parse, stored, storedAt, y) ==> x == y
  {
    var ds := Directives(Values(stored, "Cache-Control"));
    var shared, general := Args(ds, "s-maxage"), Args(ds, "max-age");
    OnceDeltaParsed(shared);
    OnceDeltaParsed(general);
    var machine := DeclaredLifetime(parse, Parsed(ds), stored, storedAt);
    if machine.Some? {
      var ideal := if shared != [] || general != [] then machine.value
                   else parse(Values(stored, "Expires")[0]).value - Anchor(parse, stored, storedAt);
      assert Declares(parse, stored, storedAt, ideal);
    }
  }

  lemma AgeArrived(stored: Header)
    ensures var machine := ParsedAge(Values(stored, "Age"));
            && (machine.Some? ==> ArrivedAged(stored, machine.value) && 0 <= machine.value <= MAX_DELTA * SECOND)
            && (forall age :: ArrivedAged(stored, age) ==> machine == Some(age))
  {
    OnceDeltaParsed(Values(stored, "Age"));
  }

  // ---------------------------------------------------------------- the bound on the cap is exact

  const LARGEST_AGE := "4611686018"

  lemma DecimalSnoc(s: string, k: nat)
    requires k < |s| && AllDigits(s)
    ensures Decimal(s[..k + 1]) == Decimal(s[..k]) * 10 + (s[k] as int - '0' as int)
  {
    assert s[..k + 1][..k] == s[..k];
  }

  lemma LargestAgeDigits()
    ensures AllDigits(LARGEST_AGE)
    ensures Decimal(LARGEST_AGE[..5]) == 46116
  {
    var s := LARGEST_AGE;
    assert s[..0] == "";
    DecimalSnoc(s, 0); DecimalSnoc(s, 1); DecimalSnoc(s, 2); DecimalSnoc(s, 3); DecimalSnoc(s, 4);
  }

  lemma LargestAge()
    ensures ParsedDelta(LARGEST_AGE) == DeltaSeconds(MAX_DELTA * SECOND, true, false)
    ensures DeltaOf(LARGEST_AGE, MAX_DELTA)
  {
    var s := LARGEST_AGE;
    LargestAgeDigits();
    DecimalSnoc(s, 5); DecimalSnoc(s, 6); DecimalSnoc(s, 7); DecimalSnoc(s, 8); DecimalSnoc(s, 9);
    assert s[..10] == s;
  }

  /** An entry whose lifetime runs from the date `date` to the date `expires`, and which
      arrived with the largest usable Age. */
  function AgedEntry(expires: string, date: string): Header {
    map["Expires" := [expires], "Date" := [date], "Age" := [LARGEST_AGE]]
  }

  /** Past the safe cap the gate can refuse a fresh entry (one nanosecond before the
      age sum overflows, under a saturated lifetime) ... */
  lemma UnsafeCapRefuses(parse: DateParser, early: string, late: string, lifetimeCap: int)
    requires parse(early).Some? && parse(late).Some? && parse(late).value - parse(early).value > MAX_INT64
    requires SAFE_CAP < lifetimeCap
    ensures !Verdict(parse, AgedEntry(late, early), 1, 1 + SAFE_CAP, lifetimeCap, []).isFresh
    ensures Fresh(parse, AgedEntry(late, early), 1, 1 + SAFE_CAP, lifetimeCap, [])
  {
    LargestAge();
    var h := AgedEntry(late, early);
    assert Values(h, "Cache-Control") == [] && Values(h, "Vary") == [];
    assert Declares(parse, h, 1, parse(late).value - parse(early).value);
    AgeArrived(h);
    assert ArrivedAged(h, MAX_DELTA * SECOND);
  }

  /** ... and, a nanosecond later, serve one whose lifetime is zero, the sum having wrapped. */
  lemma UnsafeCapServes(parse: DateParser, date: string, lifetimeCap: int)
    requires parse(date).Some?
    requires SAFE_CAP + 1 < lifetimeCap
    ensures Verdict(parse, AgedEntry(date, date), 1, 2 + SAFE_CAP, lifetimeCap, []).isFresh
    ensures !Fresh(parse, AgedEntry(date, date), 1, 2 + SAFE_CAP, lifetimeCap, [])
  {
    LargestAge();
    var h := AgedEntry(date, date);
    assert Values(h, "Cache-Control") == [] && Values(h, "Vary") == [];
    LifetimeDeclared(parse, h, 1);
    assert Declares(parse, h, 1, 0);
  }

  /** The machine verdict is the ideal one on every entry exactly when the cap is safe. */
  lemma SafeCapIsExact(parse: DateParser, early: string, late: string, lifetimeCap: int)
    requires parse(early).Some? && parse(late).Some? && parse(late).value - parse(early).value > MAX_INT64
    ensures lifetimeCap <= SAFE_CAP <==>
            forall stored, storedAt, now, keyHeaders ::
              Verdict(parse, stored, storedAt, now, lifetimeCap, keyHeaders).isFresh
              <==> Fresh(parse, stored, storedAt, now, lifetimeCap, keyHeaders)
  {
    if lifetimeCap <= SAFE_CAP {
      forall stored, storedAt, now, keyHeaders
        ensures Verdict(parse, stored, storedAt, now, lifetimeCap, keyHeaders).isFresh
                <==> Fresh(parse, stored, storedAt, now, lifetimeCap, keyHeaders)
      {
        VerdictIsFresh(parse, stored, storedAt, now, lifetimeCap, keyHeaders);
      }
    } else {
      UnsafeCapRefuses(parse, early, late, lifetimeCap);
    }
  }

  // ---------------------------------------------------------------- shape in time

  /** The fresh instants form one window: from the store until `lifetime - age`, or the
      cap if that is sooner. Before the store (a lagging clock) the verdict is that at it. */
  lemma FreshWindow(parse: DateParser, stored: Header, storedAt: int, lifetimeCap: int, keyHeaders: seq<string>,
                    lifetime: int, age: int, now: int)
    requires lifetimeCap <= SAFE_CAP
    requires Eligible(stored, storedAt, keyHeaders)
    requires Declares(parse, stored, storedAt, lifetime) && ArrivedAged(stored, age)
    ensures Verdict(parse, stored, storedAt, now, lifetimeCap, keyHeaders).isFresh
            <==> Max(now, storedAt) < storedAt + (if lifetime - age < lifetimeCap then lifetime - age else lifetimeCap)
  {
    VerdictIsFresh(parse, stored, storedAt, now, lifetimeCap, keyHeaders);
    LifetimeDeclared(parse, stored, storedAt);
    AgeArrived(stored);
  }

  // ---------------------------------------------------------------- the reasons

  /** Cut off at the ends of int64. */
  function CutOff(x: int): int {
    if x > MAX_INT64 then MAX_INT64 else if x < MIN_INT64 then MIN_INT64 else x
  }

  /** The first test that fails, in the order of the design, gives the reason; the figures of
      the decision are the resident time, the age with the time on arrival, and the declared
      lifetime, cut off at the ends of int64. Stated short of the age of 146 years at which
      the sum can wrap. */
  ghost predicate Explains(parse: DateParser, stored: Header, storedAt: int, now: int, lifetimeCap: int,
                           keyHeaders: seq<string>, d: Decision) {
    var resident := Max(now - storedAt, 0);
    if storedAt == 0 then d.reason == ReasonNoStoredAt
    else if exists x :: x in Directives(Values(stored, "Cache-Control")) && x.name == "no-cache"
    then d.reason == ReasonNoCache
    else if !VaryOk(Values(stored, "Vary"), keyHeaders) then d.reason == ReasonVaryMismatch
    else if forall lifetime :: !Declares(parse, stored, storedAt, lifetime) then d.reason == ReasonNoLifetime
    else if forall age :: !ArrivedAged(stored, age) then d.reason == ReasonInvalidAge
    else
      forall lifetime, age :: Declares(parse, stored, storedAt, lifetime) && ArrivedAged(stored, age) ==>
        && d.resident == resident && d.age == resident + age
        && d.lifetime == CutOff(lifetime)
        && d.reason == (if resident + age >= lifetime then ReasonTTLExpired
                        else if resident >= lifetimeCap then ReasonCapExpired else ReasonFresh)
  }

  lemma VerdictExplained(parse: DateParser, stored: Header, storedAt: int, now: int, lifetimeCap: int,
                         keyHeaders: seq<string>)
    requires now - storedAt < SAFE_CAP
    ensures var d := Verdict(parse, stored, storedAt, now, lifetimeCap, keyHeaders);
            && Explains(parse, stored, storedAt, now, lifetimeCap, keyHeaders, d)
            && (d.isFresh <==> d.reason == ReasonFresh)
  {
    var ds := Directives(Values(stored, "Cache-Control"));
    ArgsEmpty(ds, "no-cache");
    LifetimeDeclared(parse, stored, storedAt);
    AgeArrived(stored);
    hide Declares, ArrivedAged, VaryOk, DeclaredLifetime, ParsedAge, Directives, Weigh;
    var machine, age := DeclaredLifetime(parse, Parsed(ds), stored, storedAt), ParsedAge(Values(stored, "Age"));
    if machine.Some? && age.Some? {
      var ideal :| Declares(parse, stored, storedAt, ideal);
      WeighExplained(ideal, age.value, storedAt, now, lifetimeCap);
      assert ArrivedAged(stored, age.value);
    }
    WeighReason(machine, age, storedAt, now, lifetimeCap);
  }

  lemma WeighReason(lifetime: Option<int>, age: Option<int>, storedAt: int, now: int, lifetimeCap: int)
    ensures lifetime.Some? && age.Some? ==>
              var d := Weigh(lifetime.value, age.value, storedAt, now, lifetimeCap);
              d.isFresh <==> d.reason == ReasonFresh
  {
  }

  lemma WeighExplained(lifetime: int, age: int, storedAt: int, now: int, lifetimeCap: int)
    requires now - storedAt < SAFE_CAP && 0 <= age <= MAX_DELTA * SECOND
    ensures var d := Weigh(SaturatingSub(lifetime, 0), age, storedAt, now, lifetimeCap);
            var resident := Max(now - storedAt, 0);
            && d.resident == resident && d.age == resident + age
            && d.lifetime == CutOff(lifetime)
            && d.reason == (if resident + age >= lifetime then ReasonTTLExpired
                            else if resident >= lifetimeCap then ReasonCapExpired else ReasonFresh)
  {
  }

  // ---------------------------------------------------------------- laws of the parser

  /** The gate reads these five fields and nothing else. */
  ghost predicate SameExceptCacheControl(h1: Header, h2: Header) {
    && Values(h1, "Vary") == Values(h2, "Vary")
    && Values(h1, "Expires") == Values(h2, "Expires")
    && Values(h1, "Date") == Values(h2, "Date")
    && Values(h1, "Age") == Values(h2, "Age")
  }

  /** The gate sees the Cache-Control lines only through their parse. */
  lemma SameParse(parse: DateParser, h1: Header, h2: Header, storedAt: int, now: int, lifetimeCap: int,
                  keyHeaders: seq<string>)
    requires SameExceptCacheControl(h1, h2)
    requires Parsed(Directives(Values(h1, "Cache-Control"))) == Parsed(Directives(Values(h2, "Cache-Control")))
    ensures Verdict(parse, h1, storedAt, now, lifetimeCap, keyHeaders)
            == Verdict(parse, h2, storedAt, now, lifetimeCap, keyHeaders)
  {
    var cc := Parsed(Directives(Values(h1, "Cache-Control")));
    assert DeclaredLifetime(parse, cc, h1, storedAt) == DeclaredLifetime(parse, cc, h2, storedAt);
  }

  /** What a repeated directive does to the arguments collected under `name`. */
  lemma RepeatedArgs(a: seq<Directive>, d: Directive, b: seq<Directive>, name: string)
    requires exists e :: e in a + b && e.name == d.name
    ensures Args(a + b, name) == [] <==> Args(a + [d] + b, name) == []
    ensures d.name != name ==> Args(a + [d] + b, name) == Args(a + b, name)
    ensures d.name == name ==> |Args(a + b, name)| >= 1 && |Args(a + [d] + b, name)| >= 2
  {
    ArgsConcat(a + [d], b, name);
    ArgsConcat(a, [d], name);
    ArgsConcat(a, b, name);
    ArgsEmpty(a + b, d.name);
    assert [d][1..] == [];
    assert Args([d], name) == if d.name == name then [d.arg] else [];
    assert Args(a, name) + [] == Args(a, name);
  }

  /** Writing a directive a second time, anywhere, leaves the decision as it was or
      refuses the entry: ambiguity never buys freshness. */
  lemma RepeatNeverFreshens(parse: DateParser, h1: Header, h2: Header, a: seq<Directive>, d: Directive,
                            b: seq<Directive>, storedAt: int, now: int, lifetimeCap: int, keyHeaders: seq<string>)
    requires SameExceptCacheControl(h1, h2)
    requires Directives(Values(h1, "Cache-Control")) == a + b
    requires Directives(Values(h2, "Cache-Control")) == a + [d] + b
    requires exists e :: e in a + b && e.name == d.name
    ensures var once, twice := Verdict(parse, h1, storedAt, now, lifetimeCap, keyHeaders),
                               Verdict(parse, h2, storedAt, now, lifetimeCap, keyHeaders);
            twice == once || !twice.isFresh
  {
    RepeatedArgs(a, d, b, "no-cache");
    RepeatedArgs(a, d, b, "s-maxage");
    RepeatedArgs(a, d, b, "max-age");
    var cc1, cc2 := Parsed(a + b), Parsed(a + [d] + b);
    if cc1 == cc2 {
      SameParse(parse, h1, h2, storedAt, now, lifetimeCap, keyHeaders);
    } else if d.name == "s-maxage" {
      assert DeclaredLifetime(parse, cc2, h2, storedAt) == None;
    } else if cc1.sMaxAge.seen {
      assert DeclaredLifetime(parse, cc2, h2, storedAt) == DeclaredLifetime(parse, cc1, h1, storedAt);
    } else {
      assert DeclaredLifetime(parse, cc2, h2, storedAt) == None;
    }
  }

  /** Section 5.3 of RFC 9110: two Cache-Control lines may be joined by a comma, with no
      effect on the decision, when the first has no open quoted string. */
  lemma JoiningCacheControl(parse: DateParser, h1: Header, h2: Header, before: seq<string>, a: string, b: string,
                            after: seq<string>, storedAt: int, now: int, lifetimeCap: int, keyHeaders: seq<string>)
    requires SameExceptCacheControl(h1, h2)
    requires Values(h1, "Cache-Control") == before + [a, b] + after
    requires Values(h2, "Cache-Control") == before + [a + "," + b] + after
    requires Scanned(Quotes, OUTSIDE, a) == OUTSIDE
    ensures Verdict(parse, h1, storedAt, now, lifetimeCap, keyHeaders)
            == Verdict(parse, h2, storedAt, now, lifetimeCap, keyHeaders)
  {
    SplitAtComma(Quotes, a, b);
    FlatConcat(DirectiveIn, Pieces(Quotes, OUTSIDE, a), Pieces(Quotes, OUTSIDE, b));
    assert DirectivesOn(a + "," + b) == DirectivesOn(a) + DirectivesOn(b);
    JoinLines(DirectivesOn, before, a, b, a + "," + b, after);
    SameParse(parse, h1, h2, storedAt, now, lifetimeCap, keyHeaders);
  }

  lemma JoinLines<T>(f: string -> seq<T>, before: seq<string>, a: string, b: string, joined: string, after: seq<string>)
    requires f(joined) == f(a) + f(b)
    ensures Flat(f, before + [a, b] + after) == Flat(f, before + [joined] + after)
  {
    FlatConcat(f, before + [a, b], after);
    FlatConcat(f, before, [a, b]);
    FlatConcat(f, before + [joined], after);
    FlatConcat(f, before, [joined]);
    assert [a, b][1..] == [b] && [b][1..] == [] && [joined][1..] == [];
    assert Flat(f, [a, b]) == f(a) + Flat(f, [b]);
  }

  // ---------------------------------------------------------------- an open quote

  lemma {:induction false} OnePiece(quoted: bool, s: string)
    requires '"' !in s && (!quoted ==> ',' !in s)
    ensures Pieces(Quotes, Scan(quoted, false), s) == [s]
    ensures Scanned(Quotes, Scan(quoted, false), s) == Scan(quoted, false)
  {
    if s != "" {
      OnePiece(quoted, s[1..]);
      assert s == [s[0]] + s[1..];
    }
  }

  /** A parameter that opens a quote swallows the rest of a line that closes none. */
  lemma SwallowedPiece(b: string)
    requires '"' !in b
    ensures Pieces(Quotes, OUTSIDE, "x=\"" + b) == ["x=\"" + b]
  {
    OnePiece(false, "x=");
    OneByte(Quotes, OUTSIDE, '"');
    PiecesConcat(Quotes, OUTSIDE, "x=", "\"");
    ScannedConcat(Quotes, OUTSIDE, "x=", "\"");
    assert "x=" + "\"" == "x=\"";
    OnePiece(true, b);
    PiecesConcat(Quotes, OUTSIDE, "x=\"", b);
  }

  lemma LowerKeeps(s: string)
    requires forall i :: 0 <= i < |s| ==> LowerChar(s[i]) == s[i]
    ensures ToLower(s) == s
  {
  }

  /** It is a directive of no concern to the gate. */
  lemma SwallowedDirective(b: string)
    ensures DirectiveIn("x=\"" + b) == [Directive("x", TrimSpace("\"" + b))]
  {
    assert "x=\"" + b == "x" + ['='] + ("\"" + b);
    CutAt("x", '=', "\"" + b);
    TrimKeeps("x");
    LowerKeeps("x");
  }

  /** What joining does to a line that ends in an open quote: two lines are read as `p` and
      `b`, the joined one as `p` alone. */
  lemma OpenQuoteLines(p: string, b: string)
    requires Scanned(Quotes, OUTSIDE, p) == OUTSIDE && '"' !in b
    ensures var a, last := p + "," + "x=\"", TrimSpace("\"" + ("," + b));
            && DirectivesOn(a) == DirectivesOn(p) + [Directive("x", TrimSpace("\"" + ""))]
            && DirectivesOn(a + "," + b) == DirectivesOn(p) + [Directive("x", last)]
  {
    var a := p + "," + "x=\"";
    assert "x=\"" + "" == "x=\"";
    assert a + "," + b == p + "," + ("x=\"" + ("," + b));
    OpenQuoteLine(p, "");
    OpenQuoteLine(p, "," + b);
  }

  lemma OpenQuoteLine(p: string, b: string)
    requires Scanned(Quotes, OUTSIDE, p) == OUTSIDE && '"' !in b
    ensures DirectivesOn(p + "," + ("x=\"" + b)) == DirectivesOn(p) + [Directive("x", TrimSpace("\"" + b))]
  {
    SplitAtComma(Quotes, p, "x=\"" + b);
    SwallowedPiece(b);
    SwallowedDirective(b);
    FlatConcat(DirectiveIn, Pieces(Quotes, OUTSIDE, p), ["x=\"" + b]);
    FlatOne(DirectiveIn, "x=\"" + b);
  }

  lemma ParsedWithout(ds: seq<Directive>, arg: string, rest: seq<Directive>)
    ensures Parsed(ds + [Directive("x", arg)] + rest) == Parsed(ds + rest)
  {
    forall name | name in {"no-cache", "s-maxage", "max-age"}
      ensures Args(ds + [Directive("x", arg)] + rest, name) == Args(ds + rest, name)
    {
      ArgsConcat(ds + [Directive("x", arg)], rest, name);
      ArgsConcat(ds, [Directive("x", arg)], name);
      ArgsConcat(ds, rest, name);
      assert [Directive("x", arg)][1..] == [];
      assert Args(ds, name) + [] == Args(ds, name);
    }
  }

  /** With an open quote joining matters: two such lines get the decision of `p` and `b`, and
      the joined line the decision of `p` alone, as if `b` had not been sent. */
  lemma OpenQuoteHides(parse: DateParser, h: Header, p: string, b: string,
                       storedAt: int, now: int, lifetimeCap: int, keyHeaders: seq<string>)
    requires Scanned(Quotes, OUTSIDE, p) == OUTSIDE && '"' !in b
    ensures var a := p + "," + "x=\"";
            && Verdict(parse, h["Cache-Control" := [a, b]], storedAt, now, lifetimeCap, keyHeaders)
               == Verdict(parse, h["Cache-Control" := [p, b]], storedAt, now, lifetimeCap, keyHeaders)
            && Verdict(parse, h["Cache-Control" := [a + "," + b]], storedAt, now, lifetimeCap, keyHeaders)
               == Verdict(parse, h["Cache-Control" := [p]], storedAt, now, lifetimeCap, keyHeaders)
  {
    hide Scanned, DirectivesOn, DeclaredLifetime, VaryOk;
    var a := p + "," + "x=\"";
    OpenQuoteLines(p, b);
    TwoLines(a, b);
    TwoLines(p, b);
    ParsedWithout(DirectivesOn(p), TrimSpace("\"" + ""), DirectivesOn(b));
    ParsedWithout(DirectivesOn(p), TrimSpace("\"" + ("," + b)), []);
    assert DirectivesOn(p) + [] == DirectivesOn(p);
    assert DirectivesOn(a + "," + b) + [] == DirectivesOn(a + "," + b);
    OneLine(p);
    OneLine(a + "," + b);
    SameParse(parse, h["Cache-Control" := [a, b]], h["Cache-Control" := [p, b]], storedAt, now, lifetimeCap,
              keyHeaders);
    SameParse(parse, h["Cache-Control" := [a + "," + b]], h["Cache-Control" := [p]],
              storedAt, now, lifetimeCap, keyHeaders);
  }

  lemma OneLine(a: string)
    ensures Directives([a]) == DirectivesOn(a)
  {
    hide DirectivesOn;
    FlatOne(DirectivesOn, a);
  }

  lemma TwoLines(a: string, b: string)
    ensures Directives([a, b]) == DirectivesOn(a) + DirectivesOn(b)
  {
    assert [a, b] == [a] + [b];
    FlatConcat(DirectivesOn, [a], [b]);
    OneLine(a);
    OneLine(b);
  }

  /** A piece that is a bare directive name. */
  lemma BareDirective(name: string)
    requires name != "" && forall i :: 0 <= i < |name| ==> 'a' <= name[i] <= 'z' || name[i] == '-'
    ensures DirectivesOn(name) == [Directive(name, "")]
  {
    OnePiece(false, name);
    TrimKeeps(name);
    LowerKeeps(name);
    assert Cut(name, '=') == (name, "", false);
    FlatOne(DirectiveIn, name);
  }

  lemma NoCacheRefuses(parse: DateParser, h: Header, storedAt: int, now: int, lifetimeCap: int,
                       keyHeaders: seq<string>, i: nat)
    requires i < |Directives(Values(h, "Cache-Control"))|
    requires Directives(Values(h, "Cache-Control"))[i].name == "no-cache"
    ensures var d := Verdict(parse, h, storedAt, now, lifetimeCap, keyHeaders);
            !d.isFresh && (storedAt != 0 ==> d.reason == ReasonNoCache)
  {
    ArgsEmpty(Directives(Values(h, "Cache-Control")), "no-cache");
  }

  lemma BlankLine()
    ensures DirectivesOn("") == []
  {
    assert Cut("", '=') == ("", "", false);
    FlatOne(DirectiveIn, "");
  }

  lemma RefusedAfterBlank(parse: DateParser, h: Header, storedAt: int, now: int, lifetimeCap: int,
                          keyHeaders: seq<string>)
    ensures !Verdict(parse, h["Cache-Control" := ["", "no-cache"]], storedAt, now, lifetimeCap, keyHeaders).isFresh
  {
    BareDirective("no-cache");
    BlankLine();
    TwoLines("", "no-cache");
    hide DirectivesOn;
    NoCacheRefuses(parse, h["Cache-Control" := ["", "no-cache"]], storedAt, now, lifetimeCap, keyHeaders, 0);
  }

  lemma BlankLineIrrelevant(parse: DateParser, h: Header, storedAt: int, now: int, lifetimeCap: int,
                            keyHeaders: seq<string>)
    requires Values(h, "Cache-Control") == []
    ensures Verdict(parse, h["Cache-Control" := [""]], storedAt, now, lifetimeCap, keyHeaders)
            == Verdict(parse, h, storedAt, now, lifetimeCap, keyHeaders)
  {
    BlankLine();
    OneLine("");
    hide DirectivesOn;
    SameParse(parse, h["Cache-Control" := [""]], h, storedAt, now, lifetimeCap, keyHeaders);
  }

  /** An input: of an entry fresh by its Expires, these two lines forbid the use, and joined
      they allow it. */
  lemma OpenQuoteFreshens(parse: DateParser, h: Header, storedAt: int, now: int, lifetimeCap: int,
                          keyHeaders: seq<string>)
    requires Values(h, "Cache-Control") == [] && Verdict(parse, h, storedAt, now, lifetimeCap, keyHeaders).isFresh
    ensures !Verdict(parse, h["Cache-Control" := [",x=\"", "no-cache"]], storedAt, now, lifetimeCap, keyHeaders).isFresh
    ensures Verdict(parse, h["Cache-Control" := [",x=\",no-cache"]], storedAt, now, lifetimeCap, keyHeaders).isFresh
  {
    hide Verdict;
    OpenQuoteHides(parse, h, "", "no-cache", storedAt, now, lifetimeCap, keyHeaders);
    assert "" + "," + "x=\"" == ",x=\"" && ",x=\"" + "," + "no-cache" == ",x=\",no-cache";
    RefusedAfterBlank(parse, h, storedAt, now, lifetimeCap, keyHeaders);
    BlankLineIrrelevant(parse, h, storedAt, now, lifetimeCap, keyHeaders);
  }

  /** The same for Vary, whose names are never quoted. */
  lemma JoiningVary(parse: DateParser, h: Header, before: seq<string>, a: string, b: string, after: seq<string>,
                    storedAt: int, now: int, lifetimeCap: int, keyHeaders: seq<string>)
    ensures Verdict(parse, h["Vary" := before + [a, b] + after], storedAt, now, lifetimeCap, keyHeaders)
            == Verdict(parse, h["Vary" := before + [a + "," + b] + after], storedAt, now, lifetimeCap, keyHeaders)
  {
    JoinedVaryLine(a, b, keyHeaders);
    VaryOkSplit(before, [a, b], after, keyHeaders);
    VaryOkSplit(before, [a + "," + b], after, keyHeaders);
    assert VaryOk([a, b], keyHeaders) <==> VaryOk([a + "," + b], keyHeaders) by {
      assert [a, b][0] == a && [a, b][1] == b && [a + "," + b][0] == a + "," + b;
    }
    SameVary(parse, h, before + [a, b] + after, before + [a + "," + b] + after, storedAt, now, lifetimeCap, keyHeaders);
  }

  /** The gate sees the Vary lines only through the guard. */
  lemma SameVary(parse: DateParser, h: Header, lines: seq<string>, others: seq<string>,
                 storedAt: int, now: int, lifetimeCap: int, keyHeaders: seq<string>)
    requires VaryOk(lines, keyHeaders) <==> VaryOk(others, keyHeaders)
    ensures Verdict(parse, h["Vary" := lines], storedAt, now, lifetimeCap, keyHeaders)
            == Verdict(parse, h["Vary" := others], storedAt, now, lifetimeCap, keyHeaders)
  {
    var h1, h2 := h["Vary" := lines], h["Vary" := others];
    assert Values(h1, "Vary") == lines && Values(h2, "Vary") == others;
    var cc := Parsed(Directives(Values(h, "Cache-Control")));
    assert Values(h1, "Cache-Control") == Values(h, "Cache-Control") == Values(h2, "Cache-Control");
    assert Values(h1, "Age") == Values(h2, "Age");
    assert DeclaredLifetime(parse, cc, h1, storedAt) == DeclaredLifetime(parse, cc, h2, storedAt) by {
      assert Values(h1, "Expires") == Values(h2, "Expires") && Values(h1, "Date") == Values(h2, "Date");
    }
  }

  lemma JoinedVaryLine(a: string, b: string, keyHeaders: seq<string>)
    ensures LineSatisfied(a + "," + b, keyHeaders) <==> LineSatisfied(a, keyHeaders) && LineSatisfied(b, keyHeaders)
  {
    PlainNeverQuotes(a);
    SplitAtComma(Plain, a, b);
    var joined, n := a + "," + b, |Pieces(Plain, OUTSIDE, a)|;
    assert forall j :: 0 <= j < n ==> VaryName(joined, j) == VaryName(a, j);
    forall j | 0 <= j < |Pieces(Plain, OUTSIDE, b)|
      ensures VaryName(joined, n + j) == VaryName(b, j)
    {
    }
    if LineSatisfied(a, keyHeaders) && LineSatisfied(b, keyHeaders) {
      forall j | 0 <= j < |Pieces(Plain, OUTSIDE, joined)| ensures NameSatisfied(VaryName(joined, j), keyHeaders) {
        assert VaryName(joined, j) == if j < n then VaryName(a, j) else VaryName(b, j - n);
      }
    }
    if LineSatisfied(joined, keyHeaders) {
      forall j | 0 <= j < |Pieces(Plain, OUTSIDE, b)| ensures NameSatisfied(VaryName(b, j), keyHeaders) {
        assert VaryName(joined, n + j) == VaryName(b, j);
      }
    }
  }

  lemma {:induction false} PlainNeverQuotes(s: string)
    ensures Scanned(Plain, OUTSIDE, s) == OUTSIDE
  {
    if s != "" {
      PlainNeverQuotes(s[1..]);
    }
  }

  lemma VaryOkSplit(a: seq<string>, b: seq<string>, c: seq<string>, keyHeaders: seq<string>)
    ensures VaryOk(a + b + c, keyHeaders) <==> VaryOk(a, keyHeaders) && VaryOk(b, keyHeaders) && VaryOk(c, keyHeaders)
  {
    var all := a + b + c;
    assert forall i :: 0 <= i < |a| ==> all[i] == a[i];
    assert forall i :: 0 <= i < |b| ==> all[|a| + i] == b[i];
    assert forall i :: 0 <= i < |c| ==> all[|a| + |b| + i] == c[i];
    assert forall i :: 0 <= i < |all| ==>
      all[i] == if i < |a| then a[i] else if i < |a| + |b| then b[i - |a|] else c[i - |a| - |b|];
  }
}

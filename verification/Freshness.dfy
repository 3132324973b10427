/** The freshness gate of RFC 9111: the parser of Cache-Control, the two freshness
    axes in 64-bit nanosecond arithmetic, and what the verdict means. */
module Freshness {
  import opened GoText
  import opened Commas
  import opened Headers

  // ---------------------------------------------------------------- machine arithmetic

  const MAX_INT64: int := 0x7fff_ffff_ffff_ffff
  const MIN_INT64: int := -0x8000_0000_0000_0000
  const TWO_64: int := 0x1_0000_0000_0000_0000
  const SECOND: int := 1_000_000_000

  /** The largest delta-seconds value the parser accepts: half the Duration range. */
  const MAX_DELTA: int := 4_611_686_018

  /** Two's-complement wrap-around of an int64 result. */
  function Wrap64(x: int): int {
    (x - MIN_INT64) % TWO_64 + MIN_INT64
  }

  function Max(x: int, y: int): int {
    if x >= y then x else y
  }

  /** time.Time.Sub, which saturates. Times are nanoseconds since Go's zero time. */
  function SaturatingSub(t: int, u: int): int {
    if t - u > MAX_INT64 then MAX_INT64 else if t - u < MIN_INT64 then MIN_INT64 else t - u
  }

  // ---------------------------------------------------------------- delta-seconds

  /** A duration directive: its value, whether that is usable, whether it appeared. */
  datatype DeltaSeconds = DeltaSeconds(d: int, ok: bool, seen: bool)

  const NO_DELTA := DeltaSeconds(0, false, false)

  predicate AllDigits(s: string) {
    forall i :: 0 <= i < |s| ==> '0' <= s[i] <= '9'
  }

  /** The number a string of digits denotes. */
  function Decimal(s: string): (n: nat)
    requires AllDigits(s)
  {
    if s == "" then 0 else Decimal(s[..|s| - 1]) * 10 + (s[|s| - 1] as int - '0' as int)
  }

  /** `s` denotes `seconds` in the delta-seconds grammar and is small enough to use. */
  predicate DeltaOf(s: string, seconds: int) {
    1 <= |s| <= 18 && AllDigits(s) && Decimal(s) == seconds && seconds <= MAX_DELTA
  }

  function ParsedDelta(s: string): (r: DeltaSeconds)
    ensures r.ok ==> 0 <= r.d <= MAX_DELTA * SECOND && DeltaOf(s, r.d / SECOND)
    ensures !r.ok ==> r == NO_DELTA && forall n :: !DeltaOf(s, n)
  {
    if 1 <= |s| <= 18 && AllDigits(s) && Decimal(s) <= MAX_DELTA
    then DeltaSeconds(Decimal(s) * SECOND, true, false)
    else NO_DELTA
  }

  function Pow10(n: nat): nat {
    if n == 0 then 1 else 10 * Pow10(n - 1)
  }

  lemma {:induction false} Pow10Bound(n: nat)
    requires n <= 18
    ensures Pow10(n) <= 1_000_000_000_000_000_000
    decreases 18 - n
  {
    if n < 18 {
      Pow10Bound(n + 1);
    } else {
      assert Pow10(18) == 1_000_000_000_000_000_000 by {
        assert Pow10(6) == 1_000_000;
        assert Pow10(12) == 1_000_000_000_000;
      }
    }
  }

  /** The digit loop on int64: it never overflows, so it computes the number denoted. */
  method ParseDeltaSeconds(s: string) returns (r: DeltaSeconds)
    ensures r == ParsedDelta(s)
  {
    if s == "" || |s| > 18 {
      return NO_DELTA;
    }
    var secs := 0;
    for i := 0 to |s|
      invariant AllDigits(s[..i])
      invariant secs == Decimal(s[..i]) < Pow10(i)
    {
      if s[i] < '0' || s[i] > '9' {
        return NO_DELTA;
      }
      Pow10Bound(i + 1);
      assert s[..i + 1][..i] == s[..i];
      secs := Wrap64(Wrap64(secs * 10) + (s[i] as int - '0' as int));
    }
    assert s[..|s|] == s;
    if secs > MAX_INT64 / SECOND / 2 {
      return NO_DELTA;
    }
    return DeltaSeconds(secs * SECOND, true, false);
  }

  // ---------------------------------------------------------------- Cache-Control

  datatype Directive = Directive(name: string, arg: string)

  /** The directive a piece holds; one without a name holds none. */
  function DirectiveIn(piece: string): seq<Directive> {
    var (before, after, _) := Cut(piece, '=');
    var name := ToLower(TrimSpace(before));
    if name == "" then [] else [Directive(name, TrimSpace(after))]
  }

  function DirectivesOn(line: string): seq<Directive> {
    Flat(DirectiveIn, Pieces(Quotes, OUTSIDE, line))
  }

  /** Every directive of the Cache-Control lines, in order. */
  function Directives(lines: seq<string>): seq<Directive> {
    Flat(DirectivesOn, lines)
  }

  /** The arguments given to the directive `name`, in order. */
  function Args(ds: seq<Directive>, name: string): seq<string> {
    if ds == [] then []
    else (if ds[0].name == name then [ds[0].arg] else []) + Args(ds[1..], name)
  }

  lemma {:induction false} ArgsConcat(a: seq<Directive>, b: seq<Directive>, name: string)
    ensures Args(a + b, name) == Args(a, name) + Args(b, name)
  {
    if a == [] {
      assert a + b == b;
    } else {
      ArgsConcat(a[1..], b, name);
      assert (a + b)[0] == a[0] && (a + b)[1..] == a[1..] + b;
      var first := if a[0].name == name then [a[0].arg] else [];
      assert first + (Args(a[1..], name) + Args(b, name)) == first + Args(a[1..], name) + Args(b, name);
    }
  }

  datatype CcDirectives = CcDirectives(noCache: bool, sMaxAge: DeltaSeconds, maxAge: DeltaSeconds)

  function OnceParsed(args: seq<string>): DeltaSeconds {
    if |args| == 0 then NO_DELTA
    else if |args| > 1 then DeltaSeconds(0, false, true)
    else ParsedDelta(args[0]).(seen := true)
  }

  function Parsed(ds: seq<Directive>): CcDirectives {
    CcDirectives(Args(ds, "no-cache") != [], OnceParsed(Args(ds, "s-maxage")), OnceParsed(Args(ds, "max-age")))
  }

  method SplitQuoted(s: string) returns (parts: seq<string>)
    ensures parts == Pieces(Quotes, OUTSIDE, s)
  {
    parts := [];
    var start, inQuotes := 0, false;
    for i := 0 to |s|
      invariant 0 <= start <= i
      invariant Scan(inQuotes, false) == Scanned(Quotes, OUTSIDE, s[..i])
      invariant parts + [s[start..i]] == Pieces(Quotes, OUTSIDE, s[..i])
    {
      PiecesSnoc(Quotes, OUTSIDE, s[..i], s[i]);
      assert s[..i + 1] == s[..i] + [s[i]];
      assert s[start..i + 1] == s[start..i] + [s[i]];
      ghost var xs := parts + [s[start..i]];
      assert xs[..|xs| - 1] == parts && xs[|xs| - 1] == s[start..i];
      assert s[i] == ',' && !inQuotes ==> Pieces(Quotes, OUTSIDE, s[..i + 1]) == xs + [""];
      assert !(s[i] == ',' && !inQuotes) ==> Pieces(Quotes, OUTSIDE, s[..i + 1]) == parts + [s[start..i + 1]];
      assert s[i + 1..i + 1] == "";
      if s[i] == '"' {
        inQuotes := !inQuotes;
      } else if s[i] == ',' && !inQuotes {
        parts := parts + [s[start..i]];
        start := i + 1;
      }
    }
    assert s[..|s|] == s;
    parts := parts + [s[start..]];
  }

  /** `occurrences` lists, under each directive name, its arguments in `ds`. */
  ghost predicate Tallies(occurrences: map<string, seq<string>>, ds: seq<Directive>) {
    forall name :: Values(occurrences, name) == Args(ds, name)
  }

  method ParseOnce(occurrences: map<string, seq<string>>, name: string) returns (r: DeltaSeconds)
    ensures r == OnceParsed(Values(occurrences, name))
  {
    var args := if name in occurrences then occurrences[name] else [];
    if |args| == 0 {
      return NO_DELTA;
    }
    if |args| > 1 {
      return DeltaSeconds(0, false, true);
    }
    r := ParseDeltaSeconds(args[0]);
    r := r.(seen := true);
  }

  /** The `occurrences` map after the directive, if any, that a piece holds. */
  function Recorded(occurrences: map<string, seq<string>>, found: seq<Directive>): map<string, seq<string>> {
    if found == [] then occurrences
    else occurrences[found[0].name := Values(occurrences, found[0].name) + [found[0].arg]]
  }

  /** Recording what the next piece holds keeps the tally. */
  lemma TallyNext(read: string -> seq<Directive>, pieces: seq<string>, j: nat,
                  occurrences: map<string, seq<string>>, done: seq<Directive>)
    requires j < |pieces| && |read(pieces[j])| <= 1
    requires Tallies(occurrences, done + Flat(read, pieces[..j]))
    ensures Tallies(Recorded(occurrences, read(pieces[j])), done + Flat(read, pieces[..j + 1]))
  {
    var ds, found := done + Flat(read, pieces[..j]), read(pieces[j]);
    FlatSnoc(read, pieces, j);
    assert done + Flat(read, pieces[..j + 1]) == ds + found;
    var after := Recorded(occurrences, found);
    forall name ensures Values(after, name) == Args(ds + found, name) {
      ArgsConcat(ds, found, name);
      assert Values(occurrences, name) == Args(ds, name);
      if found == [] {
        assert Args(found, name) == [];
      } else {
        assert found == [found[0]] && found[1..] == [];
        assert Args(found, name) == if found[0].name == name then [found[0].arg] else [];
      }
    }
  }

  method ParseCacheControl(lines: seq<string>) returns (r: CcDirectives)
    ensures r == Parsed(Directives(lines))
  {
    var occurrences: map<string, seq<string>> := map[];
    for i := 0 to |lines|
      invariant Tallies(occurrences, Directives(lines[..i]))
    {
      var pieces := SplitQuoted(lines[i]);
      ghost var done := Directives(lines[..i]);
      occurrences := TallyLine(pieces, occurrences, done);
      FlatSnoc(DirectivesOn, lines, i);
      assert Directives(lines[..i + 1]) == done + DirectivesOn(lines[i]);
    }
    assert lines[..|lines|] == lines;
    var sMaxAge := ParseOnce(occurrences, "s-maxage");
    var maxAge := ParseOnce(occurrences, "max-age");
    assert Values(occurrences, "no-cache") == Args(Directives(lines), "no-cache");
    r := CcDirectives(|Values(occurrences, "no-cache")| > 0, sMaxAge, maxAge);
  }

  /** The inner loop: the directives of one line, which follow those of `done`. */
  method TallyLine(pieces: seq<string>, before: map<string, seq<string>>, ghost done: seq<Directive>)
      returns (occurrences: map<string, seq<string>>)
    requires Tallies(before, done)
    ensures Tallies(occurrences, done + Flat(DirectiveIn, pieces))
  {
    occurrences := before;
    assert done + [] == done;
    for j := 0 to |pieces|
      invariant Tallies(occurrences, done + Flat(DirectiveIn, pieces[..j]))
    {
      TallyNext(DirectiveIn, pieces, j, occurrences, done);
      occurrences := Recorded(occurrences, DirectiveIn(pieces[j]));
    }
    assert pieces[..|pieces|] == pieces;
  }

  // ---------------------------------------------------------------- Vary

  const ACCEPT_ENCODING := "Accept-Encoding"

  /** A name listed in Vary that the cache key answers for, or that needs no answer. */
  predicate NameSatisfied(name: string, keyHeaders: seq<string>) {
    name == "" || EqualFold(name, ACCEPT_ENCODING)
    || (name != "*" && exists k :: 0 <= k < |keyHeaders| && EqualFold(keyHeaders[k], name))
  }

  /** The `j`-th name on a Vary line. */
  function VaryName(line: string, j: nat): string
    requires j < |Pieces(Plain, OUTSIDE, line)|
  {
    TrimSpace(Pieces(Plain, OUTSIDE, line)[j])
  }

  predicate LineSatisfied(line: string, keyHeaders: seq<string>) {
    forall j :: 0 <= j < |Pieces(Plain, OUTSIDE, line)| ==> NameSatisfied(VaryName(line, j), keyHeaders)
  }

  predicate VaryOk(lines: seq<string>, keyHeaders: seq<string>) {
    forall i :: 0 <= i < |lines| ==> LineSatisfied(lines[i], keyHeaders)
  }

  method VarySatisfied(lines: seq<string>, keyHeaders: seq<string>) returns (ok: bool)
    ensures ok == VaryOk(lines, keyHeaders)
  {
    for i := 0 to |lines|
      invariant forall k :: 0 <= k < i ==> LineSatisfied(lines[k], keyHeaders)
    {
      var names := Pieces(Plain, OUTSIDE, lines[i]);
      for j := 0 to |names|
        invariant forall k :: 0 <= k < j ==> NameSatisfied(VaryName(lines[i], k), keyHeaders)
      {
        var name := TrimSpace(names[j]);
        assert name == VaryName(lines[i], j);
        if name == "" || EqualFold(name, ACCEPT_ENCODING) {
          continue;
        }
        if name == "*" || !(exists k :: 0 <= k < |keyHeaders| && EqualFold(keyHeaders[k], name)) {
          return false;
        }
      }
    }
    return true;
  }

  // ---------------------------------------------------------------- the gate

  /** http.ParseTime, left uninterpreted: an HTTP date denotes an instant or nothing. */
  type DateParser = string -> Option<int>

  datatype Reason = ReasonFresh | ReasonNoCache | ReasonVaryMismatch | ReasonNoLifetime
                  | ReasonInvalidAge | ReasonNoStoredAt | ReasonTTLExpired | ReasonCapExpired

  datatype Decision = Decision(isFresh: bool, reason: Reason, age: int, lifetime: int, resident: int)

  function Refuse(reason: Reason): Decision {
    Decision(false, reason, 0, 0, 0)
  }

  /** The instant Expires is measured from. */
  function Anchor(parse: DateParser, stored: Header, storedAt: int): int {
    var date := Values(stored, "Date");
    if |date| == 1 && parse(date[0]).Some? then parse(date[0]).value else storedAt
  }

  function DeclaredLifetime(parse: DateParser, cc: CcDirectives, stored: Header, storedAt: int): Option<int> {
    if cc.sMaxAge.seen then (if cc.sMaxAge.ok then Some(cc.sMaxAge.d) else None)
    else if cc.maxAge.seen then (if cc.maxAge.ok then Some(cc.maxAge.d) else None)
    else
      var expires := Values(stored, "Expires");
      if |expires| != 1 || parse(expires[0]).None? then None
      else Some(SaturatingSub(parse(expires[0]).value, Anchor(parse, stored, storedAt)))
  }

  function ParsedAge(lines: seq<string>): Option<int> {
    if |lines| == 0 then Some(0)
    else if |lines| == 1 && ParsedDelta(lines[0]).ok then Some(ParsedDelta(lines[0]).d)
    else None
  }

  /** The two axes, on int64 durations. */
  function Weigh(lifetime: int, storedAge: int, storedAt: int, now: int, lifetimeCap: int): Decision {
    var resident := Max(SaturatingSub(now, storedAt), 0);
    var age := Wrap64(resident + storedAge);
    if age >= lifetime then Decision(false, ReasonTTLExpired, age, lifetime, resident)
    else if resident >= lifetimeCap then Decision(false, ReasonCapExpired, age, lifetime, resident)
    else Decision(true, ReasonFresh, age, lifetime, resident)
  }

  /** What Evaluate returns. */
  function Verdict(parse: DateParser, stored: Header, storedAt: int, now: int, lifetimeCap: int,
                   keyHeaders: seq<string>): Decision {
    var cc := Parsed(Directives(Values(stored, "Cache-Control")));
    var lifetime := DeclaredLifetime(parse, cc, stored, storedAt);
    var age := ParsedAge(Values(stored, "Age"));
    if storedAt == 0 then Refuse(ReasonNoStoredAt)
    else if cc.noCache then Refuse(ReasonNoCache)
    else if !VaryOk(Values(stored, "Vary"), keyHeaders) then Refuse(ReasonVaryMismatch)
    else if lifetime.None? then Refuse(ReasonNoLifetime)
    else if age.None? then Refuse(ReasonInvalidAge)
    else Weigh(lifetime.value, age.value, storedAt, now, lifetimeCap)
  }

  method Evaluate(parse: DateParser, stored: Header, storedAt: int, now: int, lifetimeCap: int,
                  keyHeaders: seq<string>) returns (d: Decision)
    ensures d == Verdict(parse, stored, storedAt, now, lifetimeCap, keyHeaders)
  {
    if storedAt == 0 {
      return Refuse(ReasonNoStoredAt);
    }
    var cc := ParseCacheControl(Values(stored, "Cache-Control"));
    if cc.noCache {
      return Refuse(ReasonNoCache);
    }
    var ok := VarySatisfied(Values(stored, "Vary"), keyHeaders);
    if !ok {
      return Refuse(ReasonVaryMismatch);
    }
    var lifetime := DeclaredLifetime(parse, cc, stored, storedAt);
    if lifetime.None? {
      return Refuse(ReasonNoLifetime);
    }
    var storedAge := ParsedAge(Values(stored, "Age"));
    if storedAge.None? {
      return Refuse(ReasonInvalidAge);
    }
    var resident := Max(SaturatingSub(now, storedAt), 0);
    var age := Wrap64(resident + storedAge.value);
    if age >= lifetime.value {
      return Decision(false, ReasonTTLExpired, age, lifetime.value, resident);
    }
    if resident >= lifetimeCap {
      return Decision(false, ReasonCapExpired, age, lifetime.value, resident);
    }
    return Decision(true, ReasonFresh, age, lifetime.value, resident);
  }
}

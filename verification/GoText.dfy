/** The string operations the proxy uses, on Go strings seen as byte sequences:
    a `char` stands for one byte, and folding and trimming are those of ASCII. */
module GoText {

  datatype Option<+T> = None | Some(value: T)

  predicate IsSpace(c: char) {
    c == ' ' || '\t' <= c <= '\r'
  }

  function TrimLeft(s: string): string {
    if s != "" && IsSpace(s[0]) then TrimLeft(s[1..]) else s
  }

  function TrimRight(s: string): string {
    if s != "" && IsSpace(s[|s| - 1]) then TrimRight(s[..|s| - 1]) else s
  }

  function TrimSpace(s: string): string {
    TrimRight(TrimLeft(s))
  }

  function LowerChar(c: char): char {
    if 'A' <= c <= 'Z' then (c as int + 32) as char else c
  }

  function UpperChar(c: char): char {
    if 'a' <= c <= 'z' then (c as int - 32) as char else c
  }

  function ToLower(s: string): (r: string)
    ensures |r| == |s|
  {
    seq(|s|, i requires 0 <= i < |s| => LowerChar(s[i]))
  }

  predicate EqualFold(a: string, b: string) {
    ToLower(a) == ToLower(b)
  }

  /** Where `c` first occurs in `s`, or `|s|`. */
  function Index(s: string, c: char): (i: nat)
    ensures i <= |s|
    ensures c !in s[..i]
    ensures i < |s| ==> s[i] == c
  {
    if s == "" || s[0] == c then 0 else 1 + Index(s[1..], c)
  }

  /** strings.Cut on a one-byte separator; `found` tells whether it occurs. */
  function Cut(s: string, c: char): (string, string, bool) {
    var i := Index(s, c);
    if i < |s| then (s[..i], s[i + 1..], true) else (s, "", false)
  }

  lemma {:induction false} CutAt(before: string, c: char, after: string)
    requires c !in before
    ensures Cut(before + [c] + after, c) == (before, after, true)
  {
    var s := before + [c] + after;
    var i := Index(s, c);
    assert s[|before|] == c;
    assert i <= |before|;
    assert i == |before|;
    assert s[..|before|] == before && s[|before| + 1..] == after;
  }

  predicate HasPrefix(s: string, prefix: string) {
    prefix <= s
  }

  predicate HasSuffix(s: string, suffix: string) {
    |suffix| <= |s| && s[|s| - |suffix|..] == suffix
  }

  function TrimPrefix(s: string, prefix: string): string {
    if prefix <= s then s[|prefix|..] else s
  }

  function Join(parts: seq<string>, sep: string): string {
    if |parts| == 0 then ""
    else if |parts| == 1 then parts[0]
    else parts[0] + sep + Join(parts[1..], sep)
  }

  /** The concatenation of what `f` makes of each element. */
  function Flat<T>(f: string -> seq<T>, xs: seq<string>): seq<T> {
    if xs == [] then [] else f(xs[0]) + Flat(f, xs[1..])
  }

  lemma {:induction false} FlatConcat<T>(f: string -> seq<T>, xs: seq<string>, ys: seq<string>)
    ensures Flat(f, xs + ys) == Flat(f, xs) + Flat(f, ys)
  {
    if xs == [] {
      assert xs + ys == ys;
    } else {
      FlatConcat(f, xs[1..], ys);
      assert (xs + ys)[0] == xs[0] && (xs + ys)[1..] == xs[1..] + ys;
    }
  }

  lemma FlatOne<T>(f: string -> seq<T>, x: string)
    ensures Flat(f, [x]) == f(x)
  {
    assert [x][1..] == [];
    assert f(x) + [] == f(x);
  }

  lemma FlatSnoc<T>(f: string -> seq<T>, xs: seq<string>, i: nat)
    requires i < |xs|
    ensures Flat(f, xs[..i + 1]) == Flat(f, xs[..i]) + f(xs[i])
  {
    FlatConcat(f, xs[..i], [xs[i]]);
    assert xs[..i + 1] == xs[..i] + [xs[i]];
    assert Flat(f, [xs[i]]) == f(xs[i]) + Flat(f, []);
  }

  lemma {:induction false} TrimKeeps(s: string)
    requires s != "" && !IsSpace(s[0]) && !IsSpace(s[|s| - 1])
    ensures TrimSpace(s) == s
    ensures TrimSpace(" " + s) == s
  {
    assert TrimLeft(s) == s && TrimRight(s) == s;
    assert (" " + s)[1..] == s;
  }

  // ---------------------------------------------------------------- blanks around a text

  predicate Blank(s: string) {
    forall i :: 0 <= i < |s| ==> IsSpace(s[i])
  }

  predicate NoEdgeBlanks(s: string) {
    s != "" ==> !IsSpace(s[0]) && !IsSpace(s[|s| - 1])
  }

  lemma {:induction false} TrimLeftBlanks(b: string, s: string)
    requires Blank(b)
    ensures TrimLeft(b + s) == TrimLeft(s)
  {
    if b == "" {
      assert b + s == s;
    } else {
      assert (b + s)[0] == b[0] && (b + s)[1..] == b[1..] + s;
      TrimLeftBlanks(b[1..], s);
    }
  }

  lemma {:induction false} TrimRightBlanks(s: string, b: string)
    requires Blank(b)
    ensures TrimRight(s + b) == TrimRight(s)
  {
    if b == "" {
      assert s + b == s;
    } else {
      var n := |b| - 1;
      assert (s + b)[|s + b| - 1] == b[n] && (s + b)[..|s + b| - 1] == s + b[..n];
      TrimRightBlanks(s, b[..n]);
    }
  }

  /** Runs of blanks on either side, and nothing else, are trimmed away. */
  lemma TrimBlanks(before: string, s: string, after: string)
    requires Blank(before) && Blank(after) && NoEdgeBlanks(s)
    ensures TrimSpace(before + s + after) == s
  {
    assert before + s + after == before + (s + after);
    TrimLeftBlanks(before, s + after);
    if s == "" {
      assert s + after == after == after + "";
      TrimLeftBlanks(after, "");
    } else {
      assert (s + after)[0] == s[0];
      TrimRightBlanks(s, after);
    }
  }
}

/** Comma splitting. The three splitters of the proxy differ only in what they
    let hide a comma, so they share one scanner. */
module Commas {
  import opened GoText

  /** What can hide a comma: nothing (strings.Split), a quoted string, or a quoted
      string in which a backslash also protects the next byte. */
  datatype Mode = Plain | Quotes | QuotesAndEscapes

  datatype Scan = Scan(quoted: bool, escaped: bool)

  const OUTSIDE := Scan(false, false)

  function Advance(mode: Mode, st: Scan, c: char): Scan {
    if st.escaped then Scan(st.quoted, false)
    else if mode == QuotesAndEscapes && c == '\\' then Scan(st.quoted, true)
    else if mode != Plain && c == '"' then Scan(!st.quoted, false)
    else st
  }

  /** The scanner's state after `s`. */
  function Scanned(mode: Mode, st: Scan, s: string): Scan
    decreases s
  {
    if s == "" then st else Scanned(mode, Advance(mode, st, s[0]), s[1..])
  }

  /** Concatenates two lists of pieces, the last of `xs` and the first of `ys` being
      two halves of one piece. */
  function Glue(xs: seq<string>, ys: seq<string>): (r: seq<string>)
    requires xs != [] && ys != []
    ensures |r| == |xs| + |ys| - 1
  {
    xs[..|xs| - 1] + [xs[|xs| - 1] + ys[0]] + ys[1..]
  }

  /** The pieces of `s` between the commas that are not hidden. */
  function Pieces(mode: Mode, st: Scan, s: string): (r: seq<string>)
    ensures r != []
    decreases s
  {
    if s == "" then [""]
    else if s[0] == ',' && st == OUTSIDE then [""] + Pieces(mode, st, s[1..])
    else Glue([[s[0]]], Pieces(mode, Advance(mode, st, s[0]), s[1..]))
  }

  lemma {:induction false} ScannedConcat(mode: Mode, st: Scan, a: string, b: string)
    ensures Scanned(mode, st, a + b) == Scanned(mode, Scanned(mode, st, a), b)
    decreases a
  {
    if a == "" {
      assert a + b == b;
    } else {
      assert (a + b)[1..] == a[1..] + b;
      ScannedConcat(mode, Advance(mode, st, a[0]), a[1..], b);
    }
  }

  lemma PiecesStep(mode: Mode, st: Scan, c: char, rest: string)
    ensures Pieces(mode, st, [c] + rest) ==
            if c == ',' && st == OUTSIDE then [""] + Pieces(mode, st, rest)
            else Glue([[c]], Pieces(mode, Advance(mode, st, c), rest))
    ensures Scanned(mode, st, [c] + rest) == Scanned(mode, Advance(mode, st, c), rest)
  {
    assert ([c] + rest)[1..] == rest;
  }

  lemma GlueEmpty(ys: seq<string>)
    requires ys != []
    ensures Glue([""], ys) == ys
  {
    assert "" + ys[0] == ys[0];
    assert ys == [ys[0]] + ys[1..];
  }

  /** The pieces of a concatenation: those of its halves, glued where they meet. */
  lemma {:induction false} PiecesConcat(mode: Mode, st: Scan, a: string, b: string)
    ensures Pieces(mode, st, a + b) == Glue(Pieces(mode, st, a), Pieces(mode, Scanned(mode, st, a), b))
    decreases a
  {
    if a == "" {
      assert a + b == b;
      GlueEmpty(Pieces(mode, st, b));
    } else {
      var c, rest := a[0], a[1..];
      assert a == [c] + rest && a + b == [c] + (rest + b);
      PiecesStep(mode, st, c, rest);
      PiecesStep(mode, st, c, rest + b);
      var next := Advance(mode, st, c);
      PiecesConcat(mode, next, rest, b);
      var xs, ys := Pieces(mode, next, rest), Pieces(mode, Scanned(mode, next, rest), b);
      if c == ',' && st == OUTSIDE {
        GlueCons(xs, ys);
      } else {
        GlueAssoc([[c]], xs, ys);
      }
    }
  }

  lemma GlueCons(xs: seq<string>, ys: seq<string>)
    requires xs != [] && ys != []
    ensures [""] + Glue(xs, ys) == Glue([""] + xs, ys)
  {
    assert ([""] + xs)[..|xs|] == [""] + xs[..|xs| - 1];
  }

  /** Cutting at every visible comma loses nothing but those commas. */
  lemma {:induction false} PiecesJoin(mode: Mode, st: Scan, s: string)
    ensures Join(Pieces(mode, st, s), ",") == s
    decreases s
  {
    if s != "" {
      var c, rest := s[0], s[1..];
      assert s == [c] + rest;
      PiecesStep(mode, st, c, rest);
      PiecesJoin(mode, Advance(mode, st, c), rest);
      if c == ',' && st == OUTSIDE {
        JoinCons("", Pieces(mode, st, rest));
      } else {
        JoinLonger([c], Pieces(mode, Advance(mode, st, c), rest));
      }
    }
  }

  lemma JoinCons(x: string, xs: seq<string>)
    requires xs != []
    ensures Join([x] + xs, ",") == x + "," + Join(xs, ",")
  {
    assert ([x] + xs)[1..] == xs;
  }

  lemma JoinLonger(c: string, xs: seq<string>)
    requires xs != []
    ensures Join(Glue([c], xs), ",") == c + Join(xs, ",")
  {
    var ys := Glue([c], xs);
    assert ys[0] == c + xs[0] && ys[1..] == xs[1..];
  }

  lemma GlueAssoc(xs: seq<string>, ys: seq<string>, zs: seq<string>)
    requires xs != [] && ys != [] && zs != []
    ensures Glue(xs, Glue(ys, zs)) == Glue(Glue(xs, ys), zs)
  {
    var x, y, z := xs[|xs| - 1], ys[|ys| - 1], zs[0];
    if |ys| == 1 {
      assert x + (y + z) == (x + y) + z;
    }
    assert Glue(xs, Glue(ys, zs)) == Glue(Glue(xs, ys), zs);
  }

  /** The pieces of a single byte. */
  lemma OneByte(mode: Mode, st: Scan, c: char)
    ensures Scanned(mode, st, [c]) == Advance(mode, st, c)
    ensures Pieces(mode, st, [c]) == if c == ',' && st == OUTSIDE then ["", ""] else [[c]]
  {
    assert [c][1..] == "";
    var tail := Pieces(mode, Advance(mode, st, c), "");
    assert tail == [""];
    assert [c] + "" == [c];
    assert Glue([[c]], tail) == [[c]];
  }

  /** Reading one more byte starts a new piece or lengthens the last one. */
  lemma PiecesSnoc(mode: Mode, st: Scan, s: string, c: char)
    ensures Scanned(mode, st, s + [c]) == Advance(mode, Scanned(mode, st, s), c)
    ensures var xs := Pieces(mode, st, s);
            Pieces(mode, st, s + [c]) ==
            if c == ',' && Scanned(mode, st, s) == OUTSIDE then xs + [""]
            else xs[..|xs| - 1] + [xs[|xs| - 1] + [c]]
  {
    ScannedConcat(mode, st, s, [c]);
    PiecesConcat(mode, st, s, [c]);
    OneByte(mode, Scanned(mode, st, s), c);
    GlueOne(Pieces(mode, st, s), [c]);
  }

  lemma GlueOne(xs: seq<string>, c: string)
    requires xs != []
    ensures Glue(xs, [c]) == xs[..|xs| - 1] + [xs[|xs| - 1] + c]
    ensures Glue(xs, ["", ""]) == xs + [""]
  {
    assert xs[|xs| - 1] + "" == xs[|xs| - 1];
    assert xs == xs[..|xs| - 1] + [xs[|xs| - 1]];
  }

  /** A line may be cut at a comma into two lines exactly when that comma is visible:
      the pieces are then those of the first line followed by those of the second. */
  lemma {:induction false} SplitAtComma(mode: Mode, a: string, b: string)
    ensures Pieces(mode, OUTSIDE, a + "," + b) == Pieces(mode, OUTSIDE, a) + Pieces(mode, OUTSIDE, b)
            <==> Scanned(mode, OUTSIDE, a) == OUTSIDE
  {
    var st := Scanned(mode, OUTSIDE, a);
    var xs, ys := Pieces(mode, OUTSIDE, a), Pieces(mode, OUTSIDE, b);
    assert a + "," + b == a + ([','] + b);
    PiecesConcat(mode, OUTSIDE, a, [','] + b);
    PiecesStep(mode, st, ',', b);
    if st == OUTSIDE {
      GlueBlank(xs, ys);
    } else {
      GlueLonger(xs, ",", Pieces(mode, Advance(mode, st, ','), b), ys);
    }
  }

  lemma GlueBlank(xs: seq<string>, ys: seq<string>)
    requires xs != []
    ensures Glue(xs, [""] + ys) == xs + ys
  {
    assert xs[|xs| - 1] + "" == xs[|xs| - 1];
    assert xs == xs[..|xs| - 1] + [xs[|xs| - 1]];
    assert ([""] + ys)[1..] == ys;
  }

  lemma GlueLonger(xs: seq<string>, c: string, zs: seq<string>, ys: seq<string>)
    requires xs != [] && zs != [] && c != ""
    ensures Glue(xs, Glue([c], zs)) != xs + ys
  {
    var joined := Glue(xs, Glue([c], zs));
    assert |joined[|xs| - 1]| > |xs[|xs| - 1]|;
    assert (xs + ys)[|xs| - 1] == xs[|xs| - 1];
  }

  /** Without a backslash, the escape-aware scanner cuts where the plain one does. */
  lemma {:induction false} EscapesIrrelevant(quoted: bool, s: string)
    requires '\\' !in s
    ensures Pieces(QuotesAndEscapes, Scan(quoted, false), s) == Pieces(Quotes, Scan(quoted, false), s)
    decreases s
  {
    if s != "" {
      var st := Scan(quoted, false);
      assert s[0] != '\\';
      EscapesIrrelevant(Advance(Quotes, st, s[0]).quoted, s[1..]);
      EscapesIrrelevant(quoted, s[1..]);
    }
  }

  function QuoteMarks(s: string): nat {
    if s == "" then 0 else (if s[0] == '"' then 1 else 0) + QuoteMarks(s[1..])
  }

  /** Where backslashes protect nothing, a quote is open exactly after an odd number of marks. */
  lemma {:induction false} OpenAfterOdd(quoted: bool, s: string)
    ensures Scanned(Quotes, Scan(quoted, false), s) == Scan(quoted != (QuoteMarks(s) % 2 == 1), false)
    decreases s
  {
    if s != "" {
      OpenAfterOdd(quoted != (s[0] == '"'), s[1..]);
    }
  }
}

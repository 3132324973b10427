/** Runs of revalidations as maybeTouch makes them: a confirming reply is written only if
    the merged headers pass the gate, and what is written passes through storage. */
module Touches {
  import opened GoText
  import opened Commas
  import opened Headers
  import opened Freshness
  import opened FreshnessLaws
  import opened Merging
  import opened Metadata
  import opened Revalidation

  /** What the gate is asked with: the date parser, the cap and the key's headers. */
  datatype Gate = Gate(parse: DateParser, cap: int, keyHeaders: seq<string>)

  /** A reply that confirmed the entry, and when it did; `lands` is false when S3 refused
      or lost the copy. */
  datatype Confirmation = Confirmation(at: int, headers: Header, lands: bool)

  function Offer(g: Gate, h: Header, c: Confirmation): Option<Header> {
    TouchHeaders(g.parse, h, c.headers, c.at, g.cap, g.keyHeaders)
  }

  predicate Writes(g: Gate, h: Header, c: Confirmation) {
    c.lands && Offer(g, h, c).Some?
  }

  /** What is stored after maybeTouch has handled one confirmation. */
  function Touched(g: Gate, h: Header, c: Confirmation): Header {
    if Writes(g, h, c) then Stored(Offer(g, h, c).value) else h
  }

  function TouchedAll(g: Gate, h: Header, run: seq<Confirmation>): Header {
    if run == [] then h else Touched(g, TouchedAll(g, h, run[..|run| - 1]), run[|run| - 1])
  }

  /** The replies of the run that were written, in order. */
  function Written(g: Gate, h: Header, run: seq<Confirmation>): seq<Header> {
    if run == [] then []
    else
      var earlier, last := run[..|run| - 1], run[|run| - 1];
      Written(g, h, earlier) + if Writes(g, TouchedAll(g, h, earlier), last) then [last.headers] else []
  }

  lemma TouchedOneMore(g: Gate, h: Header, run: seq<Confirmation>, c: Confirmation)
    requires Writes(g, TouchedAll(g, h, run), c)
    ensures TouchedAll(g, h, run + [c]) == Stored(Offer(g, TouchedAll(g, h, run), c).value)
    ensures Written(g, h, run + [c]) == Written(g, h, run) + [c.headers]
  {
    assert (run + [c])[..|run|] == run;
  }

  // ---------------------------------------------------------------- a run is a merge

  /** What one field of a stored header set holds is what its source holds, blanks aside. */
  lemma StoredEqual(a: Header, b: Header)
    ensures Stored(a) == Stored(b) <==> forall name :: name in ALLOWLIST ==> Values(a, name) == Values(b, name)
  {
    forall name ensures Lookup(Stored(a), name) == Lookup(Stored(b), name)
                        <==> (name in ALLOWLIST ==> Values(a, name) == Values(b, name)) {
      StoredAt(a, name);
      StoredAt(b, name);
    }
    if Stored(a) == Stored(b) {
      assert forall name :: Lookup(Stored(a), name) == Lookup(Stored(b), name);
    } else if forall name :: name in ALLOWLIST ==> Values(a, name) == Values(b, name) {
      SameHeader(Stored(a), Stored(b));
    }
  }

  /** The lines of one field of a merge. */
  lemma MergedValues(h: Header, r: Header, name: string)
    ensures Values(Merged(h, r), name)
            == if name in BODY_FIELDS then Values(h, name)
               else if name in r || name in DELIVERY_FIELDS then Values(r, name) else Values(h, name)
  {
    MergedAt(h, r, name);
    assert Values(h, name) == if Lookup(h, name).Some? then Lookup(h, name).value else [];
  }

  /** Filtering the stored side first changes nothing that is stored. */
  lemma StoredFirst(h: Header, r: Header)
    ensures Stored(Merged(Stored(h), r)) == Stored(Merged(h, r))
  {
    forall name | name in ALLOWLIST ensures Values(Merged(Stored(h), r), name) == Values(Merged(h, r), name) {
      MergedValues(Stored(h), r, name);
      MergedValues(h, r, name);
      StoredValues(h, name);
    }
    StoredEqual(Merged(Stored(h), r), Merged(h, r));
  }

  lemma MergedOneMore(h: Header, replies: seq<Header>, r: Header)
    ensures MergedAll(h, replies + [r]) == Merged(MergedAll(h, replies), r)
  {
    assert (replies + [r])[..|replies|] == replies;
  }

  /** A run of revalidations stores the merge of the uploaded headers with the replies that
      were written, and of no others. */
  lemma {:induction false} RunIsMerges(g: Gate, h: Header, run: seq<Confirmation>)
    ensures TouchedAll(g, Stored(h), run) == Stored(MergedAll(h, Written(g, Stored(h), run)))
  {
    if run != [] {
      var earlier, last := run[..|run| - 1], run[|run| - 1];
      RunIsMerges(g, h, earlier);
      var held, replies := TouchedAll(g, Stored(h), earlier), Written(g, Stored(h), earlier);
      if Writes(g, held, last) {
        MergedOneMore(h, replies, last.headers);
        StoredFirst(MergedAll(h, replies), last.headers);
      } else {
        assert replies + [] == replies;
      }
    }
  }

  /** Hence one merge with one reply. */
  lemma RunIsOneReply(g: Gate, h: Header, run: seq<Confirmation>)
    requires Written(g, Stored(h), run) != []
    ensures TouchedAll(g, Stored(h), run) == Stored(Merged(h, Combined(Written(g, Stored(h), run))))
  {
    RunIsMerges(g, h, run);
    RunIsOneMerge(h, Written(g, Stored(h), run));
  }

  /** After any run, body-describing fields are those of the upload, and Age and Date those
      of the last reply written. */
  lemma FieldsAfterRun(g: Gate, h: Header, run: seq<Confirmation>, name: string)
    requires name in ALLOWLIST
    ensures name in BODY_FIELDS ==> Values(TouchedAll(g, Stored(h), run), name) == Values(h, name)
    ensures var replies := Written(g, Stored(h), run);
            name in DELIVERY_FIELDS ==>
              Values(TouchedAll(g, Stored(h), run), name)
              == if replies == [] then Values(h, name) else Values(replies[|replies| - 1], name)
  {
    var replies := Written(g, Stored(h), run);
    RunIsMerges(g, h, run);
    hide TouchedAll, Written, Stored;
    StoredValues(MergedAll(h, replies), name);
    if replies != [] {
      RunFields(h, replies, name);
    }
  }

  /** Every other field is that of the last written reply that had it, else of the upload. */
  lemma OtherFieldAfterRun(g: Gate, h: Header, run: seq<Confirmation>, name: string, last: nat)
    requires name in ALLOWLIST && name !in BODY_FIELDS && name !in DELIVERY_FIELDS
    requires var replies := Written(g, Stored(h), run);
             && last <= |replies| && (last > 0 ==> name in replies[last - 1])
             && forall i :: last <= i < |replies| ==> name !in replies[i]
    ensures Values(TouchedAll(g, Stored(h), run), name)
            == if last == 0 then Values(h, name) else Written(g, Stored(h), run)[last - 1][name]
  {
    var replies := Written(g, Stored(h), run);
    RunIsMerges(g, h, run);
    StoredValues(MergedAll(h, replies), name);
    RunOtherField(h, replies, name, last);
  }

  // ---------------------------------------------------------------- what a skipped reply leaves behind

  predicate Provided(replies: seq<Header>, name: string) {
    exists i :: 0 <= i < |replies| && name in replies[i]
  }

  lemma {:induction false} MergedConcat(h: Header, a: seq<Header>, b: seq<Header>)
    ensures MergedAll(h, a + b) == MergedAll(MergedAll(h, a), b)
  {
    if b == [] {
      assert a + b == a;
    } else {
      var n := |b| - 1;
      MergedConcat(h, a, b[..n]);
      assert (a + b)[..|a + b| - 1] == a + b[..n];
    }
  }

  lemma {:induction false} RunConcat(g: Gate, h: Header, a: seq<Confirmation>, b: seq<Confirmation>)
    ensures TouchedAll(g, h, a + b) == TouchedAll(g, TouchedAll(g, h, a), b)
    ensures Written(g, h, a + b) == Written(g, h, a) + Written(g, TouchedAll(g, h, a), b)
  {
    hide Touched, Writes;
    if b == [] {
      assert a + b == a;
    } else {
      var n := |b| - 1;
      RunConcat(g, h, a, b[..n]);
      assert (a + b)[..|a + b| - 1] == a + b[..n];
    }
  }

  /** After the same replies two entries hold one field alike exactly when they did before,
      or a reply has settled it. */
  lemma {:induction false} SettledOrKept(x: Header, y: Header, replies: seq<Header>, name: string)
    ensures Values(MergedAll(x, replies), name) == Values(MergedAll(y, replies), name)
            <==> || Values(x, name) == Values(y, name)
                 || (name in DELIVERY_FIELDS && replies != [])
                 || (name !in BODY_FIELDS && Provided(replies, name))
  {
    BodyNotDelivery(name);
    if replies != [] {
      var n := |replies| - 1;
      SettledOrKept(x, y, replies[..n], name);
      MergedValues(MergedAll(x, replies[..n]), replies[n], name);
      MergedValues(MergedAll(y, replies[..n]), replies[n], name);
      assert Provided(replies, name) <==> Provided(replies[..n], name) || name in replies[n] by {
        assert forall i :: 0 <= i < n ==> replies[..n][i] == replies[i];
      }
    }
  }

  /** Whatever `r` says of the stored fields was held already, or said again later. */
  predicate Superseded(held: Header, r: Header, later: seq<Header>) {
    forall name :: name in ALLOWLIST && name in r && name !in BODY_FIELDS && name !in DELIVERY_FIELDS ==>
      Values(held, name) == Values(r, name) || Provided(later, name)
  }

  lemma SupersededMerge(held: Header, r: Header, later: seq<Header>)
    requires later != []
    ensures Stored(MergedAll(held, later)) == Stored(MergedAll(Merged(held, r), later)) <==> Superseded(held, r, later)
  {
    var code, full := MergedAll(held, later), MergedAll(Merged(held, r), later);
    StoredEqual(code, full);
    forall name | name in ALLOWLIST
      ensures Values(code, name) == Values(full, name)
              <==> (name in r && name !in BODY_FIELDS && name !in DELIVERY_FIELDS ==>
                      Values(held, name) == Values(r, name) || Provided(later, name))
    {
      SettledOrKept(held, Merged(held, r), later, name);
      MergedValues(held, r, name);
    }
  }

  /** A reply that is not written is forgotten: once a later one is written, what is stored
      is the merge of all the replies exactly when the skipped one was superseded. */
  lemma SkipForgets(g: Gate, h: Header, before: seq<Confirmation>, c: Confirmation, after: seq<Confirmation>)
    requires !Writes(g, TouchedAll(g, Stored(h), before), c)
    requires Written(g, TouchedAll(g, Stored(h), before), after) != []
    ensures var held := TouchedAll(g, Stored(h), before);
            var earlier, later := Written(g, Stored(h), before), Written(g, held, after);
            TouchedAll(g, Stored(h), before + [c] + after) == Stored(MergedAll(h, earlier + [c.headers] + later))
            <==> Superseded(held, c.headers, later)
  {
    var held := TouchedAll(g, Stored(h), before);
    var earlier, later := Written(g, Stored(h), before), Written(g, held, after);
    var all := MergedAll(h, earlier);
    SkippedRun(g, Stored(h), before, c, after);
    RunIsMerges(g, h, before);
    RunIsMerges(g, all, after);
    MergedConcat(h, earlier + [c.headers], later);
    MergedOneMore(h, earlier, c.headers);
    SupersededMerge(all, c.headers, later);
    forall name | name in ALLOWLIST ensures Values(held, name) == Values(all, name) {
      StoredValues(all, name);
    }
  }

  /** The run goes on from where it stood. */
  lemma SkippedRun(g: Gate, h: Header, before: seq<Confirmation>, c: Confirmation, after: seq<Confirmation>)
    requires !Writes(g, TouchedAll(g, h, before), c)
    ensures TouchedAll(g, h, before + [c] + after) == TouchedAll(g, TouchedAll(g, h, before), after)
  {
    RunConcat(g, h, before + [c], after);
    RunConcat(g, h, before, [c]);
    var held := TouchedAll(g, h, before);
    assert [c][..0] == [];
    assert TouchedAll(g, held, [c]) == Touched(g, held, c) == held;
  }

  /** The two entries agree on every stored field that a merge with `r` retains. */
  predicate RetainedAlike(x: Header, y: Header, r: Header) {
    forall name :: name in ALLOWLIST && (name in BODY_FIELDS || (name !in DELIVERY_FIELDS && name !in r)) ==>
      Values(x, name) == Values(y, name)
  }

  /** A reply merged into one entry gives what it gives merged into another exactly when they
      agree on the fields it retains. */
  lemma MergedAlike(x: Header, y: Header, r: Header)
    ensures Stored(Merged(x, r)) == Stored(Merged(y, r)) <==> RetainedAlike(x, y, r)
  {
    StoredEqual(Merged(x, r), Merged(y, r));
    forall name | name in ALLOWLIST
      ensures Values(Merged(x, r), name) == Values(Merged(y, r), name)
              <==> (name in BODY_FIELDS || (name !in DELIVERY_FIELDS && name !in r) ==>
                      Values(x, name) == Values(y, name))
    {
      BodyNotDelivery(name);
      MergedValues(x, r, name);
      MergedValues(y, r, name);
    }
  }

  // ---------------------------------------------------------------- and what that does to decisions

  predicate FreshBy(g: Gate, h: Header, storedAt: int, now: int) {
    Verdict(g.parse, h, storedAt, now, g.cap, g.keyHeaders).isFresh
  }

  /** Once not fresh, never fresh again, unless written anew. */
  lemma NeverAgain(g: Gate, h: Header, storedAt: int, earlier: int, now: int)
    requires g.cap <= SAFE_CAP && !FreshBy(g, h, storedAt, earlier) && Max(earlier, storedAt) <= Max(now, storedAt)
    ensures !FreshBy(g, h, storedAt, now)
  {
    VerdictIsFresh(g.parse, h, storedAt, earlier, g.cap, g.keyHeaders);
    VerdictIsFresh(g.parse, h, storedAt, now, g.cap, g.keyHeaders);
    if Fresh(g.parse, h, storedAt, now, g.cap, g.keyHeaders) {
      var lifetime, age :| Declares(g.parse, h, storedAt, lifetime) && ArrivedAged(h, age)
                           && Max(now - storedAt, 0) + age < lifetime;
    }
  }

  /** Skipping the write of a reply that the gate refuses is silent at first: until something
      is written, the entry is not fresh, and neither would the one skipped have been. */
  lemma SkipIsSilentAtFirst(g: Gate, h: Header, storedAt: int, asked: int, r: Header, at: int, now: int)
    requires g.cap <= SAFE_CAP && asked <= now
    requires !FreshBy(g, h, storedAt, asked) && !FreshBy(g, Merged(h, r), at, at)
    ensures !FreshBy(g, h, storedAt, now) && !FreshBy(g, Stored(Merged(h, r)), at, now)
  {
    NeverAgain(g, h, storedAt, asked, now);
    NeverAgain(g, Merged(h, r), at, at, now);
    StoredVerdict(g.parse, Merged(h, r), at, now, g.cap, g.keyHeaders);
  }

  /** The fields the gate reads that a touch can retain. */
  const GATE_FIELDS: set<string> := {"Cache-Control", "Vary", "Expires"}

  /** After a later write the whole decision is the same, at all times, if the gate's fields
      of the skipped reply were held already or said again. */
  lemma SameDecisionAfterSkip(g: Gate, held: Header, r: Header, later: Header, storedAt: int, now: int)
    requires forall name :: name in GATE_FIELDS && name in r ==> Values(held, name) == Values(r, name) || name in later
    ensures Verdict(g.parse, Merged(held, later), storedAt, now, g.cap, g.keyHeaders)
            == Verdict(g.parse, Merged(Merged(held, r), later), storedAt, now, g.cap, g.keyHeaders)
  {
    var code, full := Merged(held, later), Merged(Merged(held, r), later);
    forall name | name in GATE_FIELDS || name in DELIVERY_FIELDS ensures Values(code, name) == Values(full, name) {
      MergedValues(held, r, name);
      MergedValues(held, later, name);
      MergedValues(Merged(held, r), later, name);
    }
    SameParse(g.parse, code, full, storedAt, now, g.cap, g.keyHeaders);
  }

  /** The headers make an entry stored at `at` fresh for exactly `n` nanoseconds. */
  ghost predicate Grants(g: Gate, h: Header, at: int, n: int) {
    && Eligible(h, at, g.keyHeaders)
    && exists lifetime, age :: Declares(g.parse, h, at, lifetime) && ArrivedAged(h, age)
                               && n == if lifetime - age < g.cap then lifetime - age else g.cap
  }

  lemma GrantsWindow(g: Gate, h: Header, at: int, n: int, now: int)
    requires g.cap <= SAFE_CAP && Grants(g, h, at, n)
    ensures FreshBy(g, h, at, now) <==> Max(now, at) < at + n
  {
    var lifetime, age :| Declares(g.parse, h, at, lifetime) && ArrivedAged(h, age)
                         && n == if lifetime - age < g.cap then lifetime - age else g.cap;
    FreshWindow(g.parse, h, at, g.cap, g.keyHeaders, lifetime, age, now);
  }

  lemma FreshGrants(g: Gate, h: Header, at: int) returns (n: int)
    requires g.cap <= SAFE_CAP && FreshBy(g, h, at, at)
    ensures n > 0 && Grants(g, h, at, n)
  {
    VerdictIsFresh(g.parse, h, at, at, g.cap, g.keyHeaders);
    var lifetime, age :| Declares(g.parse, h, at, lifetime) && ArrivedAged(h, age) && Max(at - at, 0) + age < lifetime;
    n := if lifetime - age < g.cap then lifetime - age else g.cap;
  }

  /** Two header sets, of which the first is fresh when stored, as one a touch has written
      is, lead to the same decisions at all times exactly when they grant the same time. */
  lemma SameDecisionsIff(g: Gate, code: Header, full: Header, at: int)
    requires g.cap <= SAFE_CAP && FreshBy(g, code, at, at)
    ensures (forall now :: FreshBy(g, code, at, now) <==> FreshBy(g, full, at, now))
            <==> exists n :: Grants(g, code, at, n) && Grants(g, full, at, n)
  {
    hide FreshBy, Grants;
    var n := FreshGrants(g, code, at);
    GrantsWindow(g, code, at, n, at);
    if forall now :: FreshBy(g, code, at, now) <==> FreshBy(g, full, at, now) {
      var m := FreshGrants(g, full, at);
      var last := at + (if n < m then n else m);
      GrantsWindow(g, code, at, n, last);
      GrantsWindow(g, full, at, m, last);
      assert FreshBy(g, code, at, last) <==> FreshBy(g, full, at, last);
    } else if k: int :| Grants(g, code, at, k) && Grants(g, full, at, k) {
      forall now ensures FreshBy(g, code, at, now) <==> FreshBy(g, full, at, now) {
        GrantsWindow(g, code, at, k, now);
        GrantsWindow(g, full, at, k, now);
      }
    }
  }

  /** So a skipped reply followed by a written one changes no decision exactly when merging
      it as well would grant the same time. */
  lemma SkipDecides(g: Gate, held: Header, c: Confirmation, d: Confirmation)
    requires g.cap <= SAFE_CAP && !Writes(g, held, c) && Writes(g, held, d)
    ensures (forall now :: FreshBy(g, TouchedAll(g, held, [c, d]), d.at, now)
                           <==> FreshBy(g, Stored(MergedAll(held, [c.headers, d.headers])), d.at, now))
            <==> exists n :: Grants(g, Merged(held, d.headers), d.at, n)
                             && Grants(g, Merged(Merged(held, c.headers), d.headers), d.at, n)
  {
    var code, full := Merged(held, d.headers), Merged(Merged(held, c.headers), d.headers);
    assert Offer(g, held, d) == Some(code) && FreshBy(g, code, d.at, d.at);
    hide Grants, Writes, Offer, Merged, Stored;
    RunOfTwo(g, held, c, d);
    MergesOfTwo(held, c.headers, d.headers);
    SameDecisionsIff(g, code, full, d.at);
    forall now
      ensures FreshBy(g, Stored(code), d.at, now) == FreshBy(g, code, d.at, now)
      ensures FreshBy(g, Stored(full), d.at, now) == FreshBy(g, full, d.at, now)
    {
      StoredVerdict(g.parse, code, d.at, now, g.cap, g.keyHeaders);
      StoredVerdict(g.parse, full, d.at, now, g.cap, g.keyHeaders);
    }
  }

  /** A reply that no gate for these key headers lets through, whatever else is stored. */
  predicate Forbids(r: Header, keyHeaders: seq<string>) {
    (exists d :: d in Directives(Values(r, "Cache-Control")) && d.name == "no-cache")
    || !VaryOk(Values(r, "Vary"), keyHeaders)
  }

  lemma ForbiddenIsNotFresh(g: Gate, h: Header, storedAt: int, now: int)
    requires Forbids(h, g.keyHeaders)
    ensures !FreshBy(g, h, storedAt, now)
  {
    ArgsEmpty(Directives(Values(h, "Cache-Control")), "no-cache");
  }

  lemma ForbidsStays(h: Header, r: Header, keyHeaders: seq<string>)
    requires Forbids(r, keyHeaders)
    ensures Forbids(Merged(h, r), keyHeaders) && Forbids(Merged(r, map[]), keyHeaders)
  {
    MergedValues(h, r, "Cache-Control");
    MergedValues(h, r, "Vary");
    MergedValues(r, map[], "Cache-Control");
    MergedValues(r, map[], "Vary");
  }

  /** So a skipped write does change decisions: an Expires-only entry, a reply that forbids
      unvalidated use and a reply that says nothing. The first is skipped and the second
      re-arms the entry, which is fresh again; merging both would never be. */
  lemma SkipRearms(parse: DateParser, expires: string, cap: int, keyHeaders: seq<string>, r: Header, first: int,
                   second: int)
    requires parse(expires).Some? && 0 < second < parse(expires).value && 0 < cap <= SAFE_CAP && Forbids(r, keyHeaders)
    ensures var g, h := Gate(parse, cap, keyHeaders), map["Expires" := [expires]];
            var run := [Confirmation(first, r, true), Confirmation(second, map[], true)];
            && Written(g, h, run) == [map[]] && TouchedAll(g, h, run) == h
            && FreshBy(g, TouchedAll(g, h, run), second, second)
            && forall storedAt, now :: !FreshBy(g, Stored(MergedAll(h, [r, map[]])), storedAt, now)
  {
    var g, h: Header, silent: Header := Gate(parse, cap, keyHeaders), map["Expires" := [expires]], map[];
    var c, d := Confirmation(first, r, true), Confirmation(second, silent, true);
    ForbidsStays(h, r, keyHeaders);
    ForbiddenIsNotFresh(g, Merged(h, r), first, first);
    assert !Writes(g, h, c);
    SilentReplyRearms(g, h, expires, second);
    var full := Merged(Merged(h, r), silent);
    ForbidsKept(Merged(h, r), keyHeaders);
    forall storedAt, now ensures !FreshBy(g, Stored(full), storedAt, now) {
      ForbiddenIsNotFresh(g, full, storedAt, now);
      StoredVerdict(parse, full, storedAt, now, cap, keyHeaders);
    }
    hide FreshBy, Merged, Stored, Offer, Forbids;
    RunOfTwo(g, h, c, d);
    MergesOfTwo(h, r, silent);
  }

  lemma MergesOfTwo(h: Header, r: Header, s: Header)
    ensures MergedAll(h, [r, s]) == Merged(Merged(h, r), s)
  {
    assert [r, s][..1] == [r] && [r][..0] == [];
    assert MergedAll(h, [r]) == Merged(h, r);
  }

  lemma RunOfTwo(g: Gate, h: Header, c: Confirmation, d: Confirmation)
    requires !Writes(g, h, c) && Writes(g, h, d)
    ensures TouchedAll(g, h, [c, d]) == Stored(Offer(g, h, d).value) && Written(g, h, [c, d]) == [d.headers]
  {
    hide Writes, Stored, Offer;
    assert [c, d][..1] == [c] && [c][..0] == [];
    assert TouchedAll(g, h, [c]) == h && Written(g, h, [c]) == [];
  }

  lemma ForbidsKept(h: Header, keyHeaders: seq<string>)
    requires Forbids(h, keyHeaders)
    ensures Forbids(Merged(h, map[]), keyHeaders)
  {
    MergedValues(h, map[], "Cache-Control");
    MergedValues(h, map[], "Vary");
  }

  lemma SilentReplyRearms(g: Gate, h: Header, expires: string, at: int)
    requires h == map["Expires" := [expires]] && g.parse(expires).Some?
    requires 0 < at < g.parse(expires).value && 0 < g.cap <= SAFE_CAP
    ensures Merged(h, map[]) == h && Stored(h) == h && FreshBy(g, h, at, at)
    ensures Offer(g, h, Confirmation(at, map[], true)) == Some(h)
  {
    assert Declares(g.parse, h, at, g.parse(expires).value - at) && ArrivedAged(h, 0);
    VerdictIsFresh(g.parse, h, at, at, g.cap, g.keyHeaders);
  }

  /** Such replies exist. */
  lemma NoCacheForbids(keyHeaders: seq<string>)
    ensures Forbids(map["Cache-Control" := ["no-cache"]], keyHeaders)
  {
    BareDirective("no-cache");
    OneLine("no-cache");
    assert Directives(["no-cache"])[0].name == "no-cache";
  }

  lemma StarForbids(keyHeaders: seq<string>)
    ensures Forbids(map["Vary" := ["*"]], keyHeaders)
  {
    assert Pieces(Plain, OUTSIDE, "*") == ["*"] by {
      OneByte(Plain, OUTSIDE, '*');
    }
    assert VaryName("*", 0) == "*";
    assert !LineSatisfied("*", keyHeaders);
  }

  // ---------------------------------------------------------------- Expires across touches

  ghost predicate NoLifetimeDirective(h: Header) {
    Args(Directives(Values(h, "Cache-Control")), "s-maxage") == []
    && Args(Directives(Values(h, "Cache-Control")), "max-age") == []
  }

  /** A revalidation that brings no new lifetime and no Date. */
  ghost predicate BringsNoLifetime(reply: Header) {
    "Date" !in reply && "Expires" !in reply && NoLifetimeDirective(reply)
  }

  /** At the instant `at`, and counting the age the reply arrived with. */
  ghost predicate BeforeDeadline(reply: Header, at: int, deadline: int) {
    exists age :: ArrivedAged(reply, age) && at + age < deadline
  }

  lemma {:induction false} LifetimeDirectivesStayAway(stored: Header, replies: seq<Header>)
    requires NoLifetimeDirective(stored)
    requires forall i :: 0 <= i < |replies| ==> NoLifetimeDirective(replies[i])
    ensures NoLifetimeDirective(MergedAll(stored, replies))
  {
    if replies != [] {
      var n := |replies|;
      LifetimeDirectivesStayAway(stored, replies[..n - 1]);
      CacheControlIsOrdinary();
      MergedAt(MergedAll(stored, replies[..n - 1]), replies[n - 1], "Cache-Control");
      assert NoLifetimeDirective(replies[n - 1]);
    }
  }

  lemma CacheControlIsOrdinary()
    ensures "Cache-Control" !in BODY_FIELDS && "Cache-Control" !in DELIVERY_FIELDS
    ensures "Expires" !in BODY_FIELDS && "Expires" !in DELIVERY_FIELDS && "Date" in DELIVERY_FIELDS
  {
  }

  lemma ExpiresAcrossMerges(parse: DateParser, stored: Header, replies: seq<Header>, expires: string,
                          storedAt: int, now: int, lifetimeCap: int, keyHeaders: seq<string>)
    requires lifetimeCap <= SAFE_CAP
    requires Values(stored, "Expires") == [expires] && parse(expires).Some? && NoLifetimeDirective(stored)
    requires replies != [] && forall i :: 0 <= i < |replies| ==> BringsNoLifetime(replies[i])
    ensures var h := MergedAll(stored, replies);
            Verdict(parse, h, storedAt, now, lifetimeCap, keyHeaders).isFresh
            <==> Eligible(h, storedAt, keyHeaders) && Max(now - storedAt, 0) < lifetimeCap
                 && BeforeDeadline(replies[|replies| - 1], Max(now, storedAt), parse(expires).value)
  {
    var h, last := MergedAll(stored, replies), replies[|replies| - 1];
    CacheControlIsOrdinary();
    RunFields(stored, replies, "Date");
    RunFields(stored, replies, "Age");
    RunOtherField(stored, replies, "Expires", 0);
    LifetimeDirectivesStayAway(stored, replies);
    assert BringsNoLifetime(last);
    var lifetime := parse(expires).value - storedAt;
    assert Declares(parse, h, storedAt, lifetime);
    LifetimeDeclared(parse, h, storedAt);
    VerdictIsFresh(parse, h, storedAt, now, lifetimeCap, keyHeaders);
    assert "Age" in DELIVERY_FIELDS && Values(h, "Age") == Values(last, "Age");
    assert forall age :: ArrivedAged(h, age) <==> ArrivedAged(last, age);
  }

  lemma EligibleStored(h: Header, storedAt: int, keyHeaders: seq<string>)
    ensures Eligible(Stored(h), storedAt, keyHeaders) <==> Eligible(h, storedAt, keyHeaders)
  {
    StoredValues(h, "Cache-Control");
    StoredValues(h, "Vary");
  }

  /** Expires is an absolute deadline: however many revalidations follow, if those that were
      written brought no lifetime and no Date, an Expires-only entry is fresh just while
      eligible, within the cap, and before Expires less the Age of the last one written,
      whatever instant it was stored at. */
  lemma ExpiresIsDeadline(g: Gate, h: Header, run: seq<Confirmation>, expires: string, storedAt: int, now: int)
    requires g.cap <= SAFE_CAP
    requires Values(h, "Expires") == [expires] && g.parse(expires).Some? && NoLifetimeDirective(h)
    requires var replies := Written(g, Stored(h), run);
             replies != [] && forall i :: 0 <= i < |replies| ==> BringsNoLifetime(replies[i])
    ensures var held, replies := TouchedAll(g, Stored(h), run), Written(g, Stored(h), run);
            FreshBy(g, held, storedAt, now)
            <==> Eligible(held, storedAt, g.keyHeaders) && Max(now - storedAt, 0) < g.cap
                 && BeforeDeadline(replies[|replies| - 1], Max(now, storedAt), g.parse(expires).value)
  {
    hide Eligible, BeforeDeadline, Stored;
    var replies := Written(g, Stored(h), run);
    RunIsMerges(g, h, run);
    ExpiresAcrossMerges(g.parse, h, replies, expires, storedAt, now, g.cap, g.keyHeaders);
    StoredVerdict(g.parse, MergedAll(h, replies), storedAt, now, g.cap, g.keyHeaders);
    EligibleStored(MergedAll(h, replies), storedAt, g.keyHeaders);
  }
}

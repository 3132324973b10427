/** What the cache protocol makes of each upstream answer and of each confirmation, in terms
    of statuses and header lines alone, and that concurrent callers share one flight. */
module CacheAnswers {
  import opened GoText
  import opened Headers
  import opened Freshness
  import opened FreshnessLaws
  import opened Merging
  import opened Metadata
  import opened Revalidation
  import opened Touches
  import opened Keys
  import opened Spelling
  import opened CacheProtocol
  import opened CacheRuns

  /** Equal, and between double quotes. */
  predicate SameQuoted(a: string, b: string) {
    a == b && |a| >= 2 && a[0] == '"' && a[|a| - 1] == '"'
  }

  /** The answer says that what was seen at Head is current: any 304 does, whatever tags it
      carries, and a 200 that has the very tag of the entry, a strong one. */
  predicate SaysUnchanged(seen: Option<Version>, status: int, headers: Header) {
    && seen.Some?
    && (status == 304 || (status == 200 && SameQuoted(Get(seen.value.headers, "Etag"), Get(headers, "Etag"))))
  }

  lemma CurrentMeans(seen: Option<Version>, status: int, headers: Header)
    ensures Current(seen, status, headers) <==> SaysUnchanged(seen, status, headers)
  {
    assert !IsStrong("");
  }

  /** The policy serves what was seen: for any failure, or for a status of the 500s. */
  predicate ServesStale(p: FallbackPolicy, status: int) {
    p.onAnyError || (p.on5xx && 500 <= status <= 599)
  }

  /** What an answer does, whatever it is: it writes nothing, and leads to a confirmation of
      what was seen, to an upload, or to the end. */
  lemma AnswerDecides(w: World, s: State, id: nat, status: int, headers: Header, body: string, signs: bool)
    requires Enabled(w, s, Answer(id, status, headers, body, signs))
    ensures var t := Apply(w, s, Answer(id, status, headers, body, signs));
            var f, phase := s.flights[id], t.flights[id].phase;
            var seen := f.phase.seen;
            && t.store == s.store
            && (SaysUnchanged(seen, status, headers) ==> phase.Confirmed? && phase.entry == seen.value)
            && (!SaysUnchanged(seen, status, headers) && status == 200 ==> phase.Uploading?)
            && (!SaysUnchanged(seen, status, headers) && status != 200 ==>
                  phase == Done(if seen.Some? && ServesStale(w.fallback, status) && signs
                                then Redirected(PathOf(w, f.key)) else Failed))
  {
    hide PathOf, UpstreamUnchanged, TagHolds, Canonical;
    CurrentMeans(s.flights[id].phase.seen, status, headers);
  }

  /** Every step that can end the flight in the rest of the run presigns. */
  predicate Presigns(rest: seq<Step>, id: nat) {
    forall k :: 0 <= k < |rest| ==>
      (rest[k].ConsiderTouch? || rest[k].Copy?) && rest[k].id == id ==> rest[k].signs
  }

  /** On the way to, or at, a redirect to the flight's own path. */
  predicate Redirecting(w: World, s: State, id: nat, key: CacheKey) {
    id in s.flights && s.flights[id].key == key
    && var p := s.flights[id].phase;
       p.Confirmed? || p.Touching? || p == Done(Redirected(PathOf(w, key)))
  }

  lemma StaysRedirecting(w: World, s: State, e: Step, id: nat, key: CacheKey)
    requires Redirecting(w, s, id, key) && Enabled(w, s, e)
    requires (e.ConsiderTouch? || e.Copy?) && e.id == id ==> e.signs
    ensures Redirecting(w, Apply(w, s, e), id, key)
  {
    hide PathOf, KeyFor, Joinable, Verdict, Offer, Current, CopyObject, TagHolds, Canonical, Admissible, Uploaded;
  }

  /** A 304 to a flight that saw an entry leads to a redirect to the request's own path,
      whatever tags it carries and whatever else happens, if presigning works. */
  lemma {:induction false} NotModifiedRedirects(w: World, start: int, steps: seq<Step>, s: State, id: nat,
                                                headers: Header, body: string, signs: bool, rest: seq<Step>, t: State)
    requires After(w, start, steps) == Some(s) && Enabled(w, s, Answer(id, 304, headers, body, signs))
    requires s.flights[id].phase.seen.Some? && Presigns(rest, id)
    requires After(w, start, steps + [Answer(id, 304, headers, body, signs)] + rest) == Some(t)
    ensures Redirecting(w, t, id, s.flights[id].key)
  {
    var e, key := Answer(id, 304, headers, body, signs), s.flights[id].key;
    if rest == [] {
      assert steps + [e] + rest == steps + [e];
      StartsRedirecting(w, start, steps, s, id, headers, body, signs);
    } else {
      hide PathOf, Enabled, Apply, After, Redirecting;
      var n := |rest| - 1;
      assert steps + [e] + rest == steps + [e] + rest[..n] + [rest[n]];
      LastStep(w, start, steps + [e] + rest[..n], rest[n]);
      var before := After(w, start, steps + [e] + rest[..n]).value;
      NotModifiedRedirects(w, start, steps, s, id, headers, body, signs, rest[..n], before);
      StaysRedirecting(w, before, rest[n], id, key);
    }
  }

  lemma StartsRedirecting(w: World, start: int, steps: seq<Step>, s: State, id: nat, headers: Header, body: string,
                          signs: bool)
    requires After(w, start, steps) == Some(s) && Enabled(w, s, Answer(id, 304, headers, body, signs))
    requires s.flights[id].phase.seen.Some?
    ensures var t := After(w, start, steps + [Answer(id, 304, headers, body, signs)]);
            t.Some? && Redirecting(w, t.value, id, s.flights[id].key)
  {
    var e := Answer(id, 304, headers, body, signs);
    AnswerDecides(w, s, id, 304, headers, body, signs);
    SameFlightKey(w, s, e);
    hide PathOf, Enabled, Apply, After;
    AfterOneMore(w, start, steps, s, e);
  }

  lemma SameFlightKey(w: World, s: State, e: Step)
    requires Enabled(w, s, e) && e.Answer?
    ensures e.id in Apply(w, s, e).flights && Apply(w, s, e).flights[e.id].key == s.flights[e.id].key
  {
    hide PathOf, Current, TagHolds, Canonical;
  }

  /** The last step of a run was enabled where it was taken. */
  lemma LastStep(w: World, start: int, steps: seq<Step>, e: Step)
    requires After(w, start, steps + [e]).Some?
    ensures var before := After(w, start, steps);
            && before.Some? && Enabled(w, before.value, e)
            && After(w, start, steps + [e]) == Some(Apply(w, before.value, e))
  {
    hide Enabled, Apply;
    assert (steps + [e])[..|steps + [e]| - 1] == steps;
  }

  /** A confirmation is touched in exactly if the flag is on, the reply's tag, if it has one,
      is the entry's own and strong, and the merged headers are fresh at that reading of the
      clock; otherwise the flight ends with its redirect. Neither writes anything yet. */
  lemma ConfirmationDecides(w: World, s: State, id: nat, now: int, signs: bool)
    requires w.cap <= SAFE_CAP && Enabled(w, s, ConsiderTouch(id, now, signs))
    ensures var t := Apply(w, s, ConsiderTouch(id, now, signs));
            var Confirmed(entry, reply) := s.flights[id].phase;
            var merged, tag := Merged(entry.headers, reply.headers), Get(reply.headers, "Etag");
            var touches := w.honorFreshness && (tag == "" || SameQuoted(Get(entry.headers, "Etag"), tag))
                           && Fresh(w.parse, merged, now, now, w.cap, KeyHeaders(s.flights[id].key));
            && t.store == s.store
            && t.flights[id].phase ==
               if touches then Touching(entry, merged, Refresh(reply, now))
               else Done(if signs then Redirected(PathOf(w, s.flights[id].key)) else Failed)
  {
    hide PathOf, Merged, KeyHeaders, Verdict, Fresh;
    var Confirmed(entry, reply) := s.flights[id].phase;
    VerdictIsFresh(w.parse, Merged(entry.headers, reply.headers), now, now, w.cap, KeyHeaders(s.flights[id].key));
  }

  /** A landed confirmation is written exactly if its tag, if it has one, is the entry's own
      and strong, and the merged headers are fresh at that instant; else all stays. */
  lemma TouchedExactly(g: Gate, h: Header, run: seq<Confirmation>, c: Confirmation)
    requires g.cap <= SAFE_CAP && c.lands
    ensures var held := TouchedAll(g, h, run);
            var merged, tag := Merged(held, c.headers), Get(c.headers, "Etag");
            TouchedAll(g, h, run + [c]) ==
            if (tag == "" || SameQuoted(Get(held, "Etag"), tag))
               && Fresh(g.parse, merged, c.at, c.at, g.cap, g.keyHeaders)
            then Stored(merged) else held
  {
    var held := TouchedAll(g, h, run);
    hide Merged, Verdict, Fresh, Stored;
    assert (run + [c])[..|run|] == run;
    VerdictIsFresh(g.parse, Merged(held, c.headers), c.at, c.at, g.cap, g.keyHeaders);
  }

  /** A run in which a 304 with the entry's own strong tag makes the gate answer again for an
      entry that had gone stale. */
  lemma SameTagRearms(w: World, start: int, r: Request, body: string, etag: string, first: Header, reply: Header)
      returns (seen: seq<Step>, s: State, touched: seq<Step>, t: State)
    requires w.Valid() && w.cap <= SAFE_CAP && w.honorFreshness && Admissible(r) && Canonical(first) && Canonical(reply)
    requires w.bodyOf(etag) == body && |body| <= COPY_LIMIT && TagHolds(w, KeyFor(r), first, body)
    requires SameQuoted(Get(first, "Etag"), Get(reply, "Etag"))
    requires !Fresh(w.parse, first, start, start, w.cap, KeyHeaders(KeyFor(r)))
    requires Fresh(w.parse, Merged(first, reply), start, start, w.cap, KeyHeaders(KeyFor(r)))
    ensures After(w, start, seen) == Some(s) && Holds(w, s, r, Stored(first), start, etag, body)
    ensures After(w, start, touched) == Some(t) && Holds(w, t, r, Stored(Merged(first, reply)), start, etag, body)
    ensures !GateAnswers(w, s, r, start) && GateAnswers(w, t, r, start)
  {
    var g := GateOf(w, KeyFor(r));
    SameTagOffers(g, first, reply, start);
    hide KeyFor, After, FreshBy, Fresh, Merged, Stored, Canonical, TagHolds, PathOf, Admissible, GateOf, Offer;
    seen, s := FirstRun(w, start, r, body, etag, first);
    var entry, merged := Found(w, s, r).value, Merged(Stored(first), reply);
    touched, t := TouchRun(w, start, seen, s, 1, r, entry, reply, merged, start, etag);
  }

  lemma SameTagOffers(g: Gate, first: Header, reply: Header, at: int)
    requires g.cap <= SAFE_CAP && SameQuoted(Get(first, "Etag"), Get(reply, "Etag"))
    requires !Fresh(g.parse, first, at, at, g.cap, g.keyHeaders)
    requires Fresh(g.parse, Merged(first, reply), at, at, g.cap, g.keyHeaders)
    ensures Offer(g, Stored(first), Confirmation(at, reply, true)) == Some(Merged(Stored(first), reply))
    ensures Stored(Merged(Stored(first), reply)) == Stored(Merged(first, reply))
    ensures !FreshBy(g, Stored(first), at, at) && FreshBy(g, Stored(Merged(first, reply)), at, at)
  {
    hide Fresh, Merged, Stored, Verdict;
    TagStored(first);
    StoredFirst(first, reply);
    FreshStored(g, first, at);
    FreshStored(g, Merged(first, reply), at);
    FreshStored(g, Merged(Stored(first), reply), at);
  }

  lemma TagStored(h: Header)
    ensures Get(Stored(h), "Etag") == Get(h, "Etag")
  {
    TagIsOrdinary();
    StoredValues(h, "Etag");
  }

  lemma FreshStored(g: Gate, h: Header, at: int)
    requires g.cap <= SAFE_CAP
    ensures FreshBy(g, h, at, at) <==> Fresh(g.parse, h, at, at, g.cap, g.keyHeaders)
    ensures FreshBy(g, Stored(h), at, at) <==> FreshBy(g, h, at, at)
  {
    hide Verdict, Fresh, Stored;
    VerdictIsFresh(g.parse, h, at, at, g.cap, g.keyHeaders);
    StoredVerdict(g.parse, h, at, at, g.cap, g.keyHeaders);
  }

  // ---------------------------------------------------------------- one flight for all callers

  /** Two unfinished flights of one instance never have the same singleflight key. */
  ghost predicate Sole(w: World, s: State) {
    forall a, b :: a in s.flights && b in s.flights && a != b
                   && s.flights[a].instance == s.flights[b].instance
                   && !s.flights[a].phase.Done? && !s.flights[b].phase.Done? ==>
                     KeyString(w.escapers, s.flights[a].key) != KeyString(w.escapers, s.flights[b].key)
  }

  /** Everybody in a flight that ended with a redirect was given it. */
  ghost predicate AllTold(s: State) {
    forall id, r :: id in s.flights && s.flights[id].phase.Done? && s.flights[id].phase.outcome.Redirected?
                    && r in s.flights[id].waiters + {s.flights[id].leader} ==>
                      Response(r, s.flights[id].phase.outcome.path, id) in s.responses
  }

  /** A step moves one flight on, if any, and never back from its end. */
  ghost predicate Advances(s: State, t: State, id: nat) {
    && t.flights.Keys == s.flights.Keys + {id}
    && s.responses <= t.responses
    && (forall other :: other in s.flights && other != id ==> t.flights[other] == s.flights[other])
    && (id in s.flights ==>
          && t.flights[id].instance == s.flights[id].instance && t.flights[id].key == s.flights[id].key
          && (s.flights[id].phase.Done? ==> t.flights[id] == s.flights[id]))
    && (t.flights[id].phase.Done? && t.flights[id].phase.outcome.Redirected? ==>
          forall r :: r in t.flights[id].waiters + {t.flights[id].leader} ==>
            Response(r, t.flights[id].phase.outcome.path, id) in t.responses)
  }

  /** The flight a step is about. */
  function Subject(e: Step): nat {
    if e.Tick? then 0 else e.id
  }

  lemma StepAdvances(w: World, s: State, e: Step)
    requires Enabled(w, s, e) && !e.Tick?
    ensures Advances(s, Apply(w, s, e), Subject(e))
  {
    hide PathOf, KeyFor, Verdict, Offer, Current, CopyObject, TagHolds, Canonical, Admissible, Uploaded, KeyString;
  }

  lemma ArrivalIsSole(w: World, s: State, e: Step, other: nat)
    requires Enabled(w, s, e) && e.Arrive? && e.id !in s.flights
    requires other in s.flights && s.flights[other].instance == e.instance && !s.flights[other].phase.Done?
    ensures KeyString(w.escapers, s.flights[other].key)
            != KeyString(w.escapers, Apply(w, s, e).flights[e.id].key)
  {
    hide Admissible, KeyFor, KeyString;
    assert !Joinable(w, s.flights[other], e.instance, KeyFor(e.request));
  }

  lemma StepShares(w: World, s: State, e: Step)
    requires Sole(w, s) && AllTold(s) && Enabled(w, s, e)
    ensures Sole(w, Apply(w, s, e)) && AllTold(Apply(w, s, e))
  {
    hide PathOf, KeyFor, Joinable, Verdict, Offer, Current, CopyObject, TagHolds, Canonical, Admissible, Uploaded;
    hide KeyString;
    if !e.Tick? {
      StepAdvances(w, s, e);
      var t, id := Apply(w, s, e), Subject(e);
      if id !in s.flights {
        assert e.Arrive? && t.flights[id].instance == e.instance;
        forall other | other in s.flights && s.flights[other].instance == e.instance && !s.flights[other].phase.Done?
          ensures KeyString(w.escapers, s.flights[other].key) != KeyString(w.escapers, t.flights[id].key)
        {
          ArrivalIsSole(w, s, e, other);
        }
      }
      hide Enabled, Apply, KeyString;
      StaysSole(w, s, t, id);
      StaysTold(s, t, id);
    }
  }

  lemma StaysSole(w: World, s: State, t: State, id: nat)
    requires Sole(w, s) && Advances(s, t, id)
    requires id !in s.flights ==>
               forall other :: other in s.flights && !s.flights[other].phase.Done?
                               && s.flights[other].instance == t.flights[id].instance ==>
                 KeyString(w.escapers, s.flights[other].key) != KeyString(w.escapers, t.flights[id].key)
    ensures Sole(w, t)
  {
    hide KeyString;
  }

  lemma StaysTold(s: State, t: State, id: nat)
    requires AllTold(s) && Advances(s, t, id)
    ensures AllTold(t)
  {
  }

  /** Concurrent callers share: in every run an instance never has two unfinished flights with
      one key, so those with the same URL and Accept wait for the same one, and when it ends
      with a redirect the leader and every waiter have been given it. */
  lemma {:induction false} CallersShare(w: World, start: int, steps: seq<Step>)
    requires After(w, start, steps).Some?
    ensures Sole(w, After(w, start, steps).value) && AllTold(After(w, start, steps).value)
  {
    hide Enabled, Apply;
    if steps != [] {
      CallersShare(w, start, steps[..|steps| - 1]);
      StepShares(w, After(w, start, steps[..|steps| - 1]).value, steps[|steps| - 1]);
    }
  }

  // ---------------------------------------------------------------- Vary of a key

  /** The gate tolerates a Vary line for a key exactly if it names nothing but Accept-Encoding
      and, when the key has a variant, Accept. */
  lemma VaryOfKey(key: CacheKey, ns: seq<Listed>)
    requires ProperVary(ns)
    ensures LineSatisfied(VaryLine(ns), KeyHeaders(key)) <==>
            forall i :: 0 <= i < |ns| ==>
              || ns[i].name == "" || EqualFold(ns[i].name, "Accept-Encoding")
              || (key.variant != "" && EqualFold(ns[i].name, "Accept"))
  {
    VarySpelled(ns, KeyHeaders(key));
    forall i | 0 <= i < |ns|
      ensures Tolerated(ns[i].name, KeyHeaders(key)) <==>
              || ns[i].name == "" || EqualFold(ns[i].name, "Accept-Encoding")
              || (key.variant != "" && EqualFold(ns[i].name, "Accept"))
    {
      assert |ToLower("*")| == 1 && |ToLower("Accept")| == 6;
      assert KeyHeaders(key) != [] ==> KeyHeaders(key)[0] == "Accept";
    }
  }
}

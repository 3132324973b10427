/** More of what every run of the cache protocol guarantees: where headers come from, what a
    touch makes of a race, and that every answer was earned. */
module CacheRuns {
  import opened GoText
  import opened Headers
  import opened Freshness
  import opened FreshnessLaws
  import opened Merging
  import opened Metadata
  import opened Revalidation
  import opened Touches
  import opened Keys
  import opened CacheProtocol

  // ---------------------------------------------------------------- where headers come from

  lemma VersionIsSound(w: World, s: State, v: Version)
    requires Inv(w, s) && v in s.versions
    ensures Sound(w, s.exchanges, s.clock, v)
  {
    hide Sound, Filed, FlightSound, ServeSound, Answered;
  }

  lemma VersionHistory(w: World, s: State, v: Version)
    requires Inv(w, s) && v in s.versions
    ensures HistoryHolds(w, s.exchanges, v)
  {
    hide Inv, HistoryHolds;
    VersionIsSound(w, s, v);
  }

  /** Every version ever stored has the headers of one upload of its own body for its own key,
      merged with replies that confirmed this very body, each of which passed the gate; and
      the Content-Type of that upload. */
  lemma HeadersHaveHistory(w: World, start: int, steps: seq<Step>, v: Version)
    requires w.Valid() && After(w, start, steps).Some? && v in After(w, start, steps).value.versions
    ensures var s, upload := After(w, start, steps).value, v.history.upload;
            && HistoryHolds(w, s.exchanges, v)
            && v.headers == Stored(MergedAll(upload.headers, Replies(v.history.refreshes)))
            && v.contentType == ContentTypeOf(upload.headers)
  {
    RunsKeepInv(w, start, steps);
    var s := After(w, start, steps).value;
    hide Inv, After, Carried, Confirming, ContentTypeOf, Stored;
    VersionHistory(w, s, v);
    RunIsMerges(GateOf(w, v.key), v.history.upload.headers, Confirmations(v.history.refreshes));
  }

  /** The upload declared its lifetime by Expires alone, and there were refreshes, all by
      replies without a lifetime or a Date. */
  ghost predicate ExpiresOnly(w: World, h: History, expires: string) {
    && Values(h.upload.headers, "Expires") == [expires] && w.parse(expires).Some?
    && NoLifetimeDirective(h.upload.headers)
    && h.refreshes != []
    && forall i :: 0 <= i < |h.refreshes| ==> BringsNoLifetime(Replies(h.refreshes)[i])
  }

  lemma FreshBeforeExpires(w: World, v: Version, now: int, expires: string)
    requires w.cap <= SAFE_CAP && HeadersHold(w, v) && ExpiresOnly(w, v.history, expires)
    requires FreshBy(GateOf(w, v.key), v.headers, v.storedAt, now)
    ensures var rs := v.history.refreshes;
            BeforeDeadline(rs[|rs| - 1].reply.headers, now, w.parse(expires).value)
  {
    hide BringsNoLifetime, BeforeDeadline, Eligible, NoLifetimeDirective, FreshBy, TouchedAll, Written, Stored;
    var g, h := GateOf(w, v.key), v.history;
    ExpiresIsDeadline(g, h.upload.headers, Confirmations(h.refreshes), expires, v.storedAt, now);
    SoonerStillBefore(h.refreshes[|h.refreshes| - 1].reply.headers, now, Max(now, v.storedAt), w.parse(expires).value);
  }

  /** Expires is a deadline in every run: an entry whose upload declared its lifetime by
      Expires alone, and whose refreshes brought none, is served only while the instance
      reads a time before Expires less the Age of the last refresh. */
  lemma ServedBeforeExpires(w: World, start: int, steps: seq<Step>, v: Serve, expires: string)
    requires w.Valid() && w.cap <= SAFE_CAP && After(w, start, steps).Some?
    requires v in After(w, start, steps).value.serves && ExpiresOnly(w, v.entry.history, expires)
    ensures var rs := v.entry.history.refreshes;
            BeforeDeadline(rs[|rs| - 1].reply.headers, v.now, w.parse(expires).value)
  {
    hide Inv, BeforeDeadline, HeadersHold, ExpiresOnly, Verdict, TagHolds;
    RunsKeepInv(w, start, steps);
    ServedSoundly(w, After(w, start, steps).value, v);
    FreshBeforeExpires(w, v.entry, v.now, expires);
  }

  lemma SoonerStillBefore(reply: Header, sooner: int, at: int, deadline: int)
    requires sooner <= at && BeforeDeadline(reply, at, deadline)
    ensures BeforeDeadline(reply, sooner, deadline)
  {
    var age :| ArrivedAged(reply, age) && at + age < deadline;
  }

  // ---------------------------------------------------------------- racing touches

  /** What a copy that S3 accepts stores, if this one would be. */
  function CopyOf(w: World, s: State, id: nat, stamp: int, etag: string): Option<Version>
    requires id in s.flights && s.flights[id].phase.Touching?
  {
    var f := s.flights[id];
    CopyObject(s.store, PathOf(w, f.key), f.phase.entry, f.phase.headers, f.phase.refresh, stamp, etag, s.clock)
  }

  lemma TouchingHeaders(w: World, s: State, id: nat)
    requires Inv(w, s) && id in s.flights && s.flights[id].phase.Touching?
    ensures var Touching(entry, headers, refresh) := s.flights[id].phase;
            headers == Merged(entry.headers, refresh.reply.headers)
  {
    hide Inv, Verdict, Merged;
    FlightIsSound(w, s, id);
  }

  /** When the copy refreshes the headers of the object it replaces, and when its history. */
  ghost predicate ExtendsObject(w: World, s: State, id: nat, stamp: int, etag: string)
    requires id in s.flights && s.flights[id].phase.Touching? && CopyOf(w, s, id, stamp, etag).Some?
  {
    var copied, current := CopyOf(w, s, id, stamp, etag).value, s.store[PathOf(w, s.flights[id].key)];
    var Touching(entry, _, refresh) := s.flights[id].phase;
    && (copied.headers == Stored(Merged(current.headers, refresh.reply.headers))
        <==> RetainedAlike(entry.headers, current.headers, refresh.reply.headers))
    && (copied.history == Refreshed(current.history, refresh) <==> entry.history == current.history)
  }

  lemma CopyExtends(w: World, s: State, id: nat, stamp: int, etag: string)
    requires Inv(w, s) && id in s.flights && s.flights[id].phase.Touching? && CopyOf(w, s, id, stamp, etag).Some?
    ensures ExtendsObject(w, s, id, stamp, etag)
  {
    hide Inv, PathOf, Stored, RetainedAlike, Merged, ContentTypeOf, Refreshed;
    var Touching(entry, headers, refresh) := s.flights[id].phase;
    var current := s.store[PathOf(w, s.flights[id].key)];
    TouchingHeaders(w, s, id);
    MergedAlike(entry.headers, current.headers, refresh.reply.headers);
    SameRefreshed(entry.history, current.history, refresh);
  }

  /** The ETag condition protects the body, not the headers: an accepted copy refreshes the
      headers of the object it replaces exactly when these agree with the ones seen at Head
      on every field the reply leaves alone, and extends the object's history exactly when
      it is still the one seen. */
  lemma CopiesExtendWhatTheySaw(w: World, start: int, steps: seq<Step>, id: nat, stamp: int, etag: string)
    requires w.Valid() && After(w, start, steps).Some?
    requires id in After(w, start, steps).value.flights && After(w, start, steps).value.flights[id].phase.Touching?
    requires CopyOf(w, After(w, start, steps).value, id, stamp, etag).Some?
    ensures ExtendsObject(w, After(w, start, steps).value, id, stamp, etag)
  {
    hide Inv, CopyOf, ExtendsObject;
    RunsKeepInv(w, start, steps);
    CopyExtends(w, After(w, start, steps).value, id, stamp, etag);
  }

  lemma SameRefreshed(a: History, b: History, refresh: Refresh)
    ensures Refreshed(a, refresh) == Refreshed(b, refresh) <==> a == b
  {
    assert Refreshed(a, refresh).refreshes[..|a.refreshes|] == a.refreshes;
    assert Refreshed(b, refresh).refreshes[..|b.refreshes|] == b.refreshes;
  }

  // ---------------------------------------------------------------- stretches of a run

  lemma AfterOneMore(w: World, start: int, steps: seq<Step>, s: State, e: Step)
    requires After(w, start, steps) == Some(s) && Enabled(w, s, e)
    ensures After(w, start, steps + [e]) == Some(Apply(w, s, e))
  {
    hide Enabled, Apply;
    assert (steps + [e])[..|steps + [e]| - 1] == steps;
  }

  /** A request that finds nobody to wait for. */
  predicate Unaccompanied(w: World, s: State, id: nat, instance: nat, r: Request) {
    && Admissible(r) && id !in s.flights
    && forall other :: other in s.flights ==> !Joinable(w, s.flights[other], instance, KeyFor(r))
  }

  function Found(w: World, s: State, r: Request): Option<Version>
    requires Admissible(r)
  {
    var path := PathOf(w, KeyFor(r));
    if path in s.store then Some(s.store[path]) else None
  }

  /** The gate answers for what is stored, on an instance that reads `now`. */
  predicate GateAnswers(w: World, s: State, r: Request, now: int)
    requires Admissible(r)
  {
    var found := Found(w, s, r);
    w.honorFreshness && found.Some? && FreshBy(GateOf(w, KeyFor(r)), found.value.headers, found.value.storedAt, now)
  }

  function LookedUp(w: World, s: State, id: nat, instance: nat, r: Request, phase: Phase): State
    requires Admissible(r)
  {
    s.(flights := s.flights[id := Flight(instance, r, KeyFor(r), {}, phase)])
  }

  lemma ArriveRun(w: World, start: int, steps: seq<Step>, s: State, id: nat, instance: nat, r: Request)
    requires After(w, start, steps) == Some(s) && Unaccompanied(w, s, id, instance, r)
    ensures After(w, start, steps + [Arrive(id, instance, r)]) == Some(LookedUp(w, s, id, instance, r, Looking))
  {
    hide KeyFor, Joinable, After;
    AfterOneMore(w, start, steps, s, Arrive(id, instance, r));
  }

  lemma LookEnabled(w: World, s: State, id: nat)
    requires id in s.flights && s.flights[id].phase.Looking?
    ensures Enabled(w, s, Look(id, false))
  {
  }

  /** Arriving and looking. */
  lemma LookRun(w: World, start: int, steps: seq<Step>, s: State, id: nat, instance: nat, r: Request)
    requires After(w, start, steps) == Some(s) && Unaccompanied(w, s, id, instance, r)
    ensures After(w, start, steps + [Arrive(id, instance, r)] + [Look(id, false)])
            == Some(LookedUp(w, s, id, instance, r, Deciding(Found(w, s, r))))
  {
    hide PathOf, KeyFor, After, Enabled, Joinable, Admissible;
    ArriveRun(w, start, steps, s, id, instance, r);
    var arrived := LookedUp(w, s, id, instance, r, Looking);
    assert Enabled(w, arrived, Look(id, false)) by { LookEnabled(w, arrived, id); }
    AfterOneMore(w, start, steps + [Arrive(id, instance, r)], arrived, Look(id, false));
    assert LookStep(w, arrived, id, false).flights == LookedUp(w, s, id, instance, r, Deciding(Found(w, s, r))).flights;
  }

  /** The other side of the gate: from any reachable state a fresh object can be served at
      once, with no upstream exchange and no write. */
  lemma FreshHitIsServed(w: World, start: int, steps: seq<Step>, s: State, id: nat, instance: nat, r: Request, now: int)
    requires After(w, start, steps) == Some(s) && Unaccompanied(w, s, id, instance, r)
    requires GateAnswers(w, s, r, now) && Reads(w, s.clock, now)
    ensures var t := After(w, start, steps + [Arrive(id, instance, r)] + [Look(id, false)] + [Decide(id, now, true)]);
            && t.Some? && t.value.exchanges == s.exchanges && t.value.store == s.store
            && Serve(s.clock, now, r, Found(w, s, r).value, id) in t.value.serves
            && Response(r, PathOf(w, KeyFor(r)), id) in t.value.responses
  {
    hide PathOf, KeyFor, Joinable, After, Verdict, KeyHeaders;
    LookRun(w, start, steps, s, id, instance, r);
    var looked := LookedUp(w, s, id, instance, r, Deciding(Found(w, s, r)));
    AfterOneMore(w, start, steps + [Arrive(id, instance, r)] + [Look(id, false)], looked, Decide(id, now, true));
  }

  /** Arriving, looking, and going on to ask upstream. */
  lemma FetchRun(w: World, start: int, steps: seq<Step>, s: State, id: nat, instance: nat, r: Request)
      returns (all: seq<Step>)
    requires After(w, start, steps) == Some(s) && Unaccompanied(w, s, id, instance, r)
    requires !GateAnswers(w, s, r, s.clock)
    ensures After(w, start, all) == Some(LookedUp(w, s, id, instance, r, Fetching(Found(w, s, r))))
  {
    hide PathOf, KeyFor, Joinable, After, Verdict, KeyHeaders, Found, Admissible;
    LookRun(w, start, steps, s, id, instance, r);
    var looked := LookedUp(w, s, id, instance, r, Deciding(Found(w, s, r)));
    all := steps + [Arrive(id, instance, r)] + [Look(id, false)] + [Decide(id, s.clock, true)];
    AfterOneMore(w, start, steps + [Arrive(id, instance, r)] + [Look(id, false)], looked, Decide(id, s.clock, true));
    assert DecideStep(w, looked, id, s.clock, true).flights
           == LookedUp(w, s, id, instance, r, Fetching(Found(w, s, r))).flights;
  }

  /** The store holds this, for the request. */
  predicate Holds(w: World, s: State, r: Request, h: Header, storedAt: int, etag: string, body: string)
    requires Admissible(r)
  {
    var v := Found(w, s, r);
    v.Some? && v.value.headers == h && v.value.storedAt == storedAt && v.value.etag == etag && v.value.body == body
  }

  /** A whole flight that uploads what upstream sends. */
  lemma UploadRun(w: World, start: int, steps: seq<Step>, s: State, id: nat, instance: nat, r: Request,
                  h: Header, body: string, stamp: int, etag: string) returns (all: seq<Step>, t: State)
    requires After(w, start, steps) == Some(s) && Unaccompanied(w, s, id, instance, r)
    requires !GateAnswers(w, s, r, s.clock)
    requires Canonical(h) && TagHolds(w, KeyFor(r), h, body) && !Current(Found(w, s, r), STATUS_OK, h)
    requires stamp <= s.clock + w.skew && w.bodyOf(etag) == body
    ensures After(w, start, all) == Some(t) && t.clock == s.clock
    ensures t.flights.Keys == s.flights.Keys + {id} && t.flights[id].phase.Done?
    ensures forall other :: other in s.flights ==> t.flights[other] == s.flights[other]
    ensures Holds(w, t, r, Stored(h), stamp, etag, body)
  {
    hide PathOf, KeyFor, Joinable, After, GateAnswers, Current, TagHolds, Stored, Holds, Found, Canonical, Admissible;
    var asked := FetchRun(w, start, steps, s, id, instance, r);
    var u := LookedUp(w, s, id, instance, r, Fetching(Found(w, s, r)));
    all, t := AnswerRun(w, start, asked, u, id, r, Found(w, s, r), h, body, stamp, etag);
  }

  /** Upstream sends new content and the upload lands. */
  lemma AnswerRun(w: World, start: int, steps: seq<Step>, s: State, id: nat, r: Request, seen: Option<Version>,
                  h: Header, body: string, stamp: int, etag: string) returns (all: seq<Step>, t: State)
    requires After(w, start, steps) == Some(s) && Admissible(r) && id in s.flights
    requires s.flights[id].key == KeyFor(r) && s.flights[id].phase == Fetching(seen)
    requires Canonical(h) && TagHolds(w, KeyFor(r), h, body) && !Current(seen, STATUS_OK, h)
    requires stamp <= s.clock + w.skew && w.bodyOf(etag) == body
    ensures After(w, start, all) == Some(t) && t.clock == s.clock
    ensures t.flights.Keys == s.flights.Keys && t.flights[id].phase.Done?
    ensures forall other :: other in s.flights && other != id ==> t.flights[other] == s.flights[other]
    ensures Holds(w, t, r, Stored(h), stamp, etag, body)
  {
    hide PathOf, KeyFor, After, Current, TagHolds, Stored, ContentTypeOf, Canonical, Admissible;
    var answer, upload := Answer(id, STATUS_OK, h, body, true), Upload(id, stamp, etag, true);
    AfterOneMore(w, start, steps, s, answer);
    var u := AnswerStep(w, s, id, STATUS_OK, h, body, true);
    AfterOneMore(w, start, steps + [answer], u, upload);
    t := UploadStep(w, u, id, stamp, etag, true);
    all := steps + [answer] + [upload];
  }

  /** Upstream confirms the entry and the touch lands. */
  lemma TouchRun(w: World, start: int, steps: seq<Step>, s: State, id: nat, r: Request, entry: Version,
                 h: Header, merged: Header, stamp: int, etag: string) returns (all: seq<Step>, t: State)
    requires After(w, start, steps) == Some(s) && w.honorFreshness && Admissible(r) && Canonical(h)
    requires id in s.flights && s.flights[id].key == KeyFor(r) && s.flights[id].phase == Fetching(Some(entry))
    requires Found(w, s, r).Some? && Found(w, s, r).value.etag == entry.etag && |entry.body| <= COPY_LIMIT
    requires Offer(GateOf(w, KeyFor(r)), entry.headers, Confirmation(s.clock, h, true)) == Some(merged)
    requires stamp <= s.clock + w.skew && w.bodyOf(etag) == Found(w, s, r).value.body
    ensures After(w, start, all) == Some(t)
    ensures Holds(w, t, r, Stored(merged), stamp, etag, Found(w, s, r).value.body)
  {
    hide PathOf, KeyFor, After, GateOf, Offer, Stored, ContentTypeOf, TagHolds, Holds, Canonical;
    var answer, consider := Answer(id, STATUS_NOT_MODIFIED, h, "", true), ConsiderTouch(id, s.clock, true);
    AfterOneMore(w, start, steps, s, answer);
    var u := AnswerStep(w, s, id, STATUS_NOT_MODIFIED, h, "", true);
    AfterOneMore(w, start, steps + [answer], u, consider);
    var v := ConsiderTouchStep(w, u, id, s.clock, true);
    all, t := CopyRun(w, start, steps + [answer] + [consider], v, id, r, stamp, etag);
  }

  /** The touch lands. */
  lemma CopyRun(w: World, start: int, steps: seq<Step>, s: State, id: nat, r: Request, stamp: int, etag: string)
      returns (all: seq<Step>, t: State)
    requires After(w, start, steps) == Some(s) && Admissible(r) && id in s.flights && s.flights[id].key == KeyFor(r)
    requires s.flights[id].phase.Touching? && Found(w, s, r).Some? && |s.flights[id].phase.entry.body| <= COPY_LIMIT
    requires Found(w, s, r).value.etag == s.flights[id].phase.entry.etag
    requires stamp <= s.clock + w.skew && w.bodyOf(etag) == Found(w, s, r).value.body
    ensures After(w, start, all) == Some(t)
    ensures Holds(w, t, r, Stored(s.flights[id].phase.headers), stamp, etag, Found(w, s, r).value.body)
  {
    hide PathOf, KeyFor, After, Stored, ContentTypeOf;
    var copy := Copy(id, stamp, etag, true, true);
    AfterOneMore(w, start, steps, s, copy);
    t := CopyStep(w, s, id, stamp, etag, true, true);
    all := steps + [copy];
  }

  /** What the rollback below needs of the world and of upstream: a body that the store keeps
      under one ETag, an entry that is not fresh, newer headers that do not match it, and a
      reply with which the entry would be fresh. */
  ghost predicate Race(w: World, start: int, r: Request, body: string, etag: string, first: Header, newer: Header,
                       reply: Header)
  {
    && w.Valid() && w.honorFreshness && Admissible(r) && Canonical(first) && Canonical(newer) && Canonical(reply)
    && w.bodyOf(etag) == body && |body| <= COPY_LIMIT
    && TagHolds(w, KeyFor(r), first, body) && TagHolds(w, KeyFor(r), newer, body)
    && !UpstreamUnchanged(STATUS_OK, newer, Some(Stored(first)))
    && !FreshBy(GateOf(w, KeyFor(r)), Stored(first), start, start)
    && Offer(GateOf(w, KeyFor(r)), Stored(first), Confirmation(start, reply, true))
       == Some(Merged(Stored(first), reply))
  }

  lemma NothingToMatch(h: Header)
    ensures !Current(None, STATUS_OK, h)
  {
  }

  /** Flight 0 has uploaded the first headers, and flight 1 of the same instance has seen them. */
  predicate Seen(w: World, s: State, start: int, r: Request, h: Header, etag: string, body: string)
    requires Admissible(r)
  {
    && s.clock == start && s.flights.Keys == {0, 1} && s.flights[0].phase.Done?
    && Holds(w, s, r, h, start, etag, body)
    && s.flights[1] == Flight(0, r, KeyFor(r), {}, Fetching(Found(w, s, r)))
  }

  lemma FirstRun(w: World, start: int, r: Request, body: string, etag: string, first: Header)
      returns (all: seq<Step>, s: State)
    requires Admissible(r) && Canonical(first) && w.bodyOf(etag) == body && TagHolds(w, KeyFor(r), first, body)
    requires !FreshBy(GateOf(w, KeyFor(r)), Stored(first), start, start)
    ensures After(w, start, all) == Some(s) && Seen(w, s, start, r, Stored(first), etag, body)
  {
    var empty := State(start, map[], map[], {}, {}, {}, {});
    assert After(w, start, []) == Some(empty);
    NothingToMatch(first);
    hide PathOf, KeyFor, After, FreshBy, TagHolds, Stored, Current, KeyString, Admissible, Canonical, GateOf, Holds;
    var one, s1 := UploadRun(w, start, [], empty, 0, 0, r, first, body, start, etag);
    assert s1.flights.Keys == {0};
    all, s := SeeRun(w, start, one, s1, r, Stored(first), etag, body);
  }

  lemma SeeRun(w: World, start: int, steps: seq<Step>, s: State, r: Request, h: Header, etag: string, body: string)
      returns (all: seq<Step>, t: State)
    requires After(w, start, steps) == Some(s) && Admissible(r) && Holds(w, s, r, h, start, etag, body)
    requires s.clock == start && s.flights.Keys == {0} && s.flights[0].phase.Done?
    requires !FreshBy(GateOf(w, KeyFor(r)), h, start, start)
    ensures After(w, start, all) == Some(t) && Seen(w, t, start, r, h, etag, body)
  {
    hide PathOf, KeyFor, After, FreshBy, KeyString, Admissible, GateOf;
    all := FetchRun(w, start, steps, s, 1, 0, r);
    t := LookedUp(w, s, 1, 0, r, Fetching(Found(w, s, r)));
    assert t.flights.Keys == {0, 1};
  }

  lemma SecondRun(w: World, start: int, steps: seq<Step>, s: State, r: Request, body: string, etag: string,
                  first: Header, newer: Header) returns (all: seq<Step>, t: State)
    requires Admissible(r) && Canonical(newer) && w.bodyOf(etag) == body && TagHolds(w, KeyFor(r), newer, body)
    requires After(w, start, steps) == Some(s) && Seen(w, s, start, r, Stored(first), etag, body)
    requires !FreshBy(GateOf(w, KeyFor(r)), Stored(first), start, start)
    requires !UpstreamUnchanged(STATUS_OK, newer, Some(Stored(first)))
    ensures After(w, start, all) == Some(t) && t.clock == start && Holds(w, t, r, Stored(newer), start, etag, body)
    ensures 1 in t.flights && t.flights[1] == s.flights[1]
  {
    hide PathOf, KeyFor, After, FreshBy, TagHolds, Stored, UpstreamUnchanged, KeyString, Admissible, Canonical, GateOf;
    all, t := UploadRun(w, start, steps, s, 2, 1, r, newer, body, start, etag);
  }

  /** A run in which a touch rolls headers back. One instance sees the entry at Head; another
      uploads the same bytes anew, with newer headers; then the first one's touch lands, for
      the object ETag is as before. Of the newer headers nothing is left. */
  lemma TouchCanRollBack(w: World, start: int, r: Request, body: string, etag: string,
                         first: Header, newer: Header, reply: Header)
      returns (uploaded: seq<Step>, s: State, touched: seq<Step>, t: State)
    requires Race(w, start, r, body, etag, first, newer, reply)
    ensures After(w, start, uploaded) == Some(s) && Holds(w, s, r, Stored(newer), start, etag, body)
    ensures After(w, start, touched) == Some(t) && Holds(w, t, r, Stored(Merged(first, reply)), start, etag, body)
  {
    StoredFirst(first, reply);
    hide PathOf, KeyFor, After, FreshBy, TagHolds, Stored, Offer, UpstreamUnchanged, Merged, Admissible, Canonical;
    hide Joinable;
    var seen, s0 := FirstRun(w, start, r, body, etag, first);
    var entry := Found(w, s0, r).value;
    uploaded, s := SecondRun(w, start, seen, s0, r, body, etag, first, newer);
    touched, t := TouchRun(w, start, uploaded, s, 1, r, entry, reply, Merged(Stored(first), reply), start, etag);
  }

  /** So headers that forbid unvalidated use give way to ones that allow it, with the body
      and its ETag unchanged: an upload that declares nothing, one that forbids, and then the
      touch by a reply that on its own would be fresh. */
  lemma ForbiddingHeadersRolledBack(w: World, start: int, r: Request, body: string, etag: string,
                                    newer: Header, reply: Header)
      returns (uploaded: seq<Step>, s: State, touched: seq<Step>, t: State)
    requires w.Valid() && w.honorFreshness && Admissible(r) && w.bodyOf(etag) == body && |body| <= COPY_LIMIT
    requires Canonical(newer) && "Etag" !in newer && Forbids(newer, KeyHeaders(KeyFor(r)))
    requires Canonical(reply) && "Etag" !in reply && FreshBy(GateOf(w, KeyFor(r)), Merged(map[], reply), start, start)
    ensures After(w, start, uploaded) == Some(s) && After(w, start, touched) == Some(t)
    ensures Holds(w, s, r, Stored(newer), start, etag, body) && !GateAnswers(w, s, r, start)
    ensures Holds(w, t, r, Stored(Merged(map[], reply)), start, etag, body) && GateAnswers(w, t, r, start)
  {
    var first: Header, g := map[], GateOf(w, KeyFor(r));
    RaceOf(w, start, r, body, etag, newer, reply);
    StoredVerdict(w.parse, newer, start, start, w.cap, g.keyHeaders);
    StoredVerdict(w.parse, Merged(first, reply), start, start, w.cap, g.keyHeaders);
    ForbiddenIsNotFresh(g, newer, start, start);
    hide KeyFor, After, Verdict, Forbids, Merged, KeyHeaders, Admissible, PathOf, Race, Stored, Canonical;
    uploaded, s, touched, t := TouchCanRollBack(w, start, r, body, etag, first, newer, reply);
  }

  lemma RaceOf(w: World, start: int, r: Request, body: string, etag: string, newer: Header, reply: Header)
    requires w.Valid() && w.honorFreshness && Admissible(r) && w.bodyOf(etag) == body && |body| <= COPY_LIMIT
    requires Canonical(newer) && "Etag" !in newer
    requires Canonical(reply) && "Etag" !in reply && FreshBy(GateOf(w, KeyFor(r)), Merged(map[], reply), start, start)
    ensures Race(w, start, r, body, etag, map[], newer, reply)
  {
    hide KeyFor, Verdict, KeyHeaders, Merged, Stored, Admissible;
    NothingStored(GateOf(w, KeyFor(r)), start, start);
    assert !IsStrong("");
  }

  lemma NothingStored(g: Gate, storedAt: int, now: int)
    ensures Stored(map[]) == map[] && !FreshBy(g, map[], storedAt, now)
  {
  }

  // ---------------------------------------------------------------- answers are earned

  predicate Asks(e: Step, id: nat) {
    (e.NoAnswer? || e.Answer?) && e.id == id
  }

  /** The flight has asked upstream and heard, or failed to hear, an answer. */
  ghost predicate Asked(steps: seq<Step>, id: nat) {
    exists k :: 0 <= k < |steps| && Asks(steps[k], id)
  }

  /** The answer is the fresh hit of its flight. */
  ghost predicate Hit(s: State, r: Response) {
    exists v :: v in s.serves && v.request == r.request && v.flight == r.flight
  }

  predicate Heeding(phase: Phase) {
    phase.Confirmed? || phase.Touching? || phase.Uploading?
  }

  ghost predicate Earned(steps: seq<Step>, s: State) {
    && (forall id :: id in s.flights && Heeding(s.flights[id].phase) ==> Asked(steps, id))
    && (forall r :: r in s.responses ==> Asked(steps, r.flight) || Hit(s, r))
  }

  lemma AskedStill(steps: seq<Step>, e: Step, id: nat)
    ensures Asked(steps + [e], id) <==> Asked(steps, id) || Asks(e, id)
  {
    if Asked(steps, id) {
      var k :| 0 <= k < |steps| && Asks(steps[k], id);
      assert Asks((steps + [e])[k], id);
    }
    if Asks(e, id) {
      assert Asks((steps + [e])[|steps|], id);
    }
  }

  /** Earned answers stay earned while flights move without being told anything. */
  lemma EarnedStill(steps: seq<Step>, e: Step, s: State, t: State)
    requires Earned(steps, s) && t.responses == s.responses && s.serves <= t.serves
    requires forall id :: id in t.flights && Heeding(t.flights[id].phase) ==>
                            Asks(e, id) || (id in s.flights && Heeding(s.flights[id].phase))
    ensures Earned(steps + [e], t)
  {
    forall id | id in t.flights && Heeding(t.flights[id].phase) ensures Asked(steps + [e], id) {
      AskedStill(steps, e, id);
    }
    forall r | r in t.responses ensures Asked(steps + [e], r.flight) || Hit(t, r) {
      AskedStill(steps, e, r.flight);
      assert Asked(steps, r.flight) || Hit(s, r);
    }
  }

  /** A flight that ends has asked, or ends in a fresh hit. */
  lemma EarnedEnd(steps: seq<Step>, e: Step, s: State, id: nat, outcome: Outcome)
    requires Earned(steps + [e], s) && id in s.flights
    requires Asked(steps + [e], id) || outcome.Failed?
             || forall r :: r in s.flights[id].waiters + {s.flights[id].leader} ==>
                              Hit(s, Response(r, outcome.path, id))
    ensures Earned(steps + [e], Finish(s, id, outcome))
  {
    var t := Finish(s, id, outcome);
    forall r | r in t.responses ensures Asked(steps + [e], r.flight) || Hit(t, r) {
      assert r in s.responses ==> Asked(steps + [e], r.flight) || Hit(s, r);
    }
  }

  lemma DecideEarns(w: World, steps: seq<Step>, s: State, id: nat, now: int, signs: bool)
    requires Earned(steps, s) && Enabled(w, s, Decide(id, now, signs))
    ensures Earned(steps + [Decide(id, now, signs)], DecideStep(w, s, id, now, signs))
  {
    hide PathOf, Verdict, KeyHeaders, Asked;
    var e, f, t := Decide(id, now, signs), s.flights[id], DecideStep(w, s, id, now, signs);
    if t.flights[id].phase.Done? {
      var served := s.(serves := s.serves + if signs then ServesOf(s, id, f.phase.seen.value, now) else {});
      EarnedStill(steps, e, s, served);
      forall r | signs && r in f.waiters + {f.leader} ensures Hit(served, Response(r, PathOf(w, f.key), id)) {
        assert Serve(s.clock, now, r, f.phase.seen.value, id) in served.serves;
      }
      EarnedEnd(steps, e, served, id, Told(PathOf(w, f.key), signs));
    } else {
      EarnedStill(steps, e, s, t);
    }
  }

  /** A flight ends after asking. */
  lemma AskedEnds(steps: seq<Step>, e: Step, s: State, t: State, id: nat, outcome: Outcome)
    requires Earned(steps, s) && id in s.flights && (Heeding(s.flights[id].phase) || Asks(e, id))
    requires t.flights == s.flights && t.responses == s.responses && t.serves == s.serves
    ensures Earned(steps + [e], Finish(t, id, outcome))
  {
    AskedStill(steps, e, id);
    EarnedStill(steps, e, s, t);
    EarnedEnd(steps, e, t, id, outcome);
  }

  lemma StepEarns(w: World, steps: seq<Step>, s: State, e: Step)
    requires Earned(steps, s) && Enabled(w, s, e)
    ensures Earned(steps + [e], Apply(w, s, e))
  {
    hide Earned, PathOf, Verdict, KeyFor, Joinable, Offer, Current, CopyObject, Admissible, TagHolds, Canonical;
    match e
    case Decide(id, now, signs) => DecideEarns(w, steps, s, id, now, signs);
    case NoAnswer(id, netError, signs) =>
      AskedEnds(steps, e, s, s, id, NoAnswerStep(w, s, id, netError, signs).flights[id].phase.outcome);
    case Answer(id, status, headers, body, signs) =>
      var t := AnswerStep(w, s, id, status, headers, body, signs);
      var heard := s.(exchanges := t.exchanges);
      if t.flights[id].phase.Done? {
        AskedEnds(steps, e, s, heard, id, t.flights[id].phase.outcome);
      } else {
        EarnedStill(steps, e, s, t);
      }
    case ConsiderTouch(id, now, signs) =>
      var t := ConsiderTouchStep(w, s, id, now, signs);
      if t.flights[id].phase.Done? {
        AskedEnds(steps, e, s, s, id, t.flights[id].phase.outcome);
      } else {
        EarnedStill(steps, e, s, t);
      }
    case Copy(id, stamp, etag, ok, signs) =>
      var t := CopyStep(w, s, id, stamp, etag, ok, signs);
      AskedEnds(steps, e, s, s.(store := t.store, versions := t.versions), id, t.flights[id].phase.outcome);
    case Upload(id, stamp, etag, acknowledged) =>
      var t := UploadStep(w, s, id, stamp, etag, acknowledged);
      AskedEnds(steps, e, s, s.(store := t.store, versions := t.versions), id, t.flights[id].phase.outcome);
    case UploadFails(id) => AskedEnds(steps, e, s, s, id, Failed);
    case _ => EarnedStill(steps, e, s, Apply(w, s, e));
  }

  /** In every run each answer, to a leader or a waiter, belongs to a flight that asked
      upstream, or is its flight's fresh hit. */
  lemma {:induction false} AnswersAreEarned(w: World, start: int, steps: seq<Step>)
    requires After(w, start, steps).Some?
    ensures Earned(steps, After(w, start, steps).value)
  {
    hide Enabled, Apply;
    if steps != [] {
      var earlier, e := steps[..|steps| - 1], steps[|steps| - 1];
      AnswersAreEarned(w, start, earlier);
      StepEarns(w, earlier, After(w, start, earlier).value, e);
      assert earlier + [e] == steps;
    }
  }

  /** With the flag off, or a cap of zero, nothing is served on the word of the gate, and
      every answer belongs to a flight that asked upstream. */
  lemma KillSwitch(w: World, start: int, steps: seq<Step>)
    requires w.Valid() && After(w, start, steps).Some? && (!w.honorFreshness || w.cap <= 0)
    ensures After(w, start, steps).value.serves == {}
    ensures forall r :: r in After(w, start, steps).value.responses ==> Asked(steps, r.flight)
  {
    hide Inv, Verdict, Sound, Asked;
    RunsKeepInv(w, start, steps);
    AnswersAreEarned(w, start, steps);
    var s := After(w, start, steps).value;
    forall v | v in s.serves ensures false {
      ServedSoundly(w, s, v);
      FreshIsYoung(w.parse, v.entry.headers, v.entry.storedAt, v.now, w.cap, KeyHeaders(v.entry.key));
    }
  }
}

/** fetchAndCache and maybeTouch in the order of their statements, over a mutable object
    store, proved to take the steps of the protocol machine with none in between. */
module Server {
  import opened GoText
  import opened Headers
  import opened Freshness
  import opened Merging
  import opened Metadata
  import opened Revalidation
  import opened Touches
  import opened Keys
  import opened CacheProtocol
  import opened CacheAnswers
  import opened FreshnessLaws

  /** The S3 bucket: every write replaces the object at its path. */
  class Bucket {
    var objects: map<string, Version>

    constructor ()
      ensures objects == map[]
    {
      objects := map[];
    }

    method Head(path: string) returns (v: Option<Version>)
      ensures v == if path in objects then Some(objects[path]) else None
    {
      if path !in objects {
        return None;
      }
      return Some(objects[path]);
    }

    method Put(path: string, v: Version)
      modifies this
      ensures objects == old(objects)[path := v]
    {
      objects := objects[path := v];
    }

    /** The conditional self-copy: body and uploader stay; headers, Content-Type and stamp
        are replaced by those of the entry seen at Head, refreshed. */
    method Touch(path: string, entry: Version, headers: Header, refresh: Refresh, stamp: int, etag: string, clock: int)
      modifies this
      ensures var copied := CopyObject(old(objects), path, entry, headers, refresh, stamp, etag, clock);
              objects == if copied.Some? then old(objects)[path := copied.value] else old(objects)
    {
      if |entry.body| > COPY_LIMIT {
        return;
      }
      var contentType := None;
      if Get(headers, "Content-Type") != "" {
        contentType := Some(Get(headers, "Content-Type"));
      }
      if path !in objects || objects[path].etag != entry.etag {
        return;
      }
      var current := objects[path];
      var sources := current.sources + entry.sources + {refresh.reply.key};
      objects := objects[path := current.(headers := Stored(headers), contentType := contentType, storedAt := stamp,
                                          etag := etag, cause := refresh.reply, landedAt := clock, sources := sources,
                                          history := Refreshed(entry.history, refresh))];
    }
  }

  /** What upstream does with the one request sent. */
  datatype Upstream = Silent(netError: bool) | Replies(status: int, headers: Header, body: string)

  /** What S3 does: failures, of presigning too, and the stamp and object ETag of a write. */
  datatype Storage = Storage(headFails: bool, writeFails: bool, acknowledged: bool, signs: bool, stamp: int,
                             etag: string)

  // ---------------------------------------------------------------- the machine, uninterrupted

  /** One flight alone with a store. */
  function Alone(clock: int, store: map<string, Version>, leader: Request, key: CacheKey): State {
    State(clock, store, map[0 := Flight(0, leader, key, {}, Looking)], {}, {}, {}, {})
  }

  /** From the upstream answer to the end. */
  function Concluded(w: World, s: State, now: int, up: Upstream, s3: Storage): (t: State)
    requires 0 in s.flights && s.flights[0].phase.Fetching?
    ensures 0 in t.flights
  {
    if up.Silent? then NoAnswerStep(w, s, 0, up.netError, s3.signs)
    else
      var t := AnswerStep(w, s, 0, up.status, up.headers, up.body, s3.signs);
      match t.flights[0].phase
      case Confirmed(_, _) =>
        var u := ConsiderTouchStep(w, t, 0, now, s3.signs);
        if u.flights[0].phase.Touching? then CopyStep(w, u, 0, s3.stamp, s3.etag, !s3.writeFails, s3.signs) else u
      case Uploading(_) =>
        if s3.writeFails then Finish(t, 0, Failed)
        else UploadStep(w, t, 0, s3.stamp, s3.etag, s3.acknowledged && s3.signs)
      case _ => t
  }

  function Uninterrupted(w: World, s: State, now: int, up: Upstream, s3: Storage): (t: State)
    requires 0 in s.flights && s.flights[0].phase.Looking?
    ensures 0 in t.flights
  {
    var t := DecideStep(w, LookStep(w, s, 0, s3.headFails), 0, now, s3.signs);
    if t.flights[0].phase.Fetching? then Concluded(w, t, now, up, s3) else t
  }

  /** A flight of one request that waits for upstream. */
  predicate Waits(s: State, clock: int, store: map<string, Version>, leader: Request, key: CacheKey,
                  entry: Option<Version>) {
    s.clock == clock && s.store == store && s.flights == map[0 := Flight(0, leader, key, {}, Fetching(entry))]
  }

  predicate Ends(t: State, outcome: Outcome, store: map<string, Version>) {
    0 in t.flights && t.flights[0].phase == Done(outcome) && t.store == store
  }

  lemma Begins(w: World, clock: int, store: map<string, Version>, leader: Request, key: CacheKey, now: int,
               up: Upstream, s3: Storage)
    ensures var s, path := Alone(clock, store, leader, key), PathOf(w, key);
            var entry := if !s3.headFails && path in store then Some(store[path]) else None;
            if w.honorFreshness && entry.Some?
               && FreshBy(GateOf(w, key), entry.value.headers, entry.value.storedAt, now)
            then Ends(Uninterrupted(w, s, now, up, s3), Told(path, s3.signs), store)
            else exists t :: Waits(t, clock, store, leader, key, entry)
                             && Uninterrupted(w, s, now, up, s3) == Concluded(w, t, now, up, s3)
  {
    hide Verdict, PathOf, KeyHeaders, Concluded;
    var t := DecideStep(w, LookStep(w, Alone(clock, store, leader, key), 0, s3.headFails), 0, now, s3.signs);
    var entry := if !s3.headFails && PathOf(w, key) in store then Some(store[PathOf(w, key)]) else None;
    if t.flights[0].phase.Fetching? {
      assert t.flights == map[0 := Flight(0, leader, key, {}, Fetching(entry))];
      assert Waits(t, clock, store, leader, key, entry);
      assert Uninterrupted(w, Alone(clock, store, leader, key), now, up, s3) == Concluded(w, t, now, up, s3);
    }
  }

  lemma ConcludesSilent(w: World, s: State, clock: int, store: map<string, Version>, leader: Request, key: CacheKey,
                        entry: Option<Version>, now: int, up: Upstream, s3: Storage)
    requires Waits(s, clock, store, leader, key, entry) && up.Silent?
    ensures Ends(Concluded(w, s, now, up, s3),
                 if entry.Some? && FallbackOnError(w.fallback, up.netError) then Told(PathOf(w, key), s3.signs)
                 else Failed,
                 store)
  {
    hide PathOf;
  }

  /** The reply as history records it. */
  function ReplyOf(clock: int, key: CacheKey, entry: Option<Version>, up: Upstream): Exchange
    requires up.Replies?
  {
    Exchange(clock, key, up.status, up.headers, up.body,
             if Current(entry, up.status, up.headers) then Some(entry.value.body) else None)
  }

  /** What a touch leaves in the store. */
  function TouchedStore(w: World, store: map<string, Version>, key: CacheKey, entry: Version, reply: Exchange,
                        clock: int, now: int, s3: Storage): map<string, Version>
  {
    var headers := Offer(GateOf(w, key), entry.headers, Confirmation(now, reply.headers, true));
    var copied := if !w.honorFreshness || headers.None? || s3.writeFails then None
                  else CopyObject(store, PathOf(w, key), entry, headers.value, Refresh(reply, now),
                                  s3.stamp, s3.etag, clock);
    if copied.Some? then store[PathOf(w, key) := copied.value] else store
  }

  lemma ConcludesConfirmed(w: World, s: State, clock: int, store: map<string, Version>, leader: Request, key: CacheKey,
                           entry: Version, now: int, up: Upstream, s3: Storage)
    requires Waits(s, clock, store, leader, key, Some(entry)) && up.Replies?
    requires Current(Some(entry), up.status, up.headers)
    ensures Ends(Concluded(w, s, now, up, s3), Told(PathOf(w, key), s3.signs),
                 TouchedStore(w, store, key, entry, ReplyOf(clock, key, Some(entry), up), clock, now, s3))
  {
    hide PathOf, Current, Offer, CopyObject, KeyHeaders;
  }

  lemma ConcludesRefused(w: World, s: State, clock: int, store: map<string, Version>, leader: Request, key: CacheKey,
                         entry: Option<Version>, now: int, up: Upstream, s3: Storage)
    requires Waits(s, clock, store, leader, key, entry) && up.Replies?
    requires !Current(entry, up.status, up.headers) && up.status != STATUS_OK
    ensures Ends(Concluded(w, s, now, up, s3),
                 if entry.Some? && FallbackOnStatus(w.fallback, up.status) then Told(PathOf(w, key), s3.signs)
                 else Failed,
                 store)
  {
    hide PathOf, Current;
  }

  lemma ConcludesUploaded(w: World, s: State, clock: int, store: map<string, Version>, leader: Request, key: CacheKey,
                          entry: Option<Version>, now: int, up: Upstream, s3: Storage)
    requires Waits(s, clock, store, leader, key, entry) && up.Replies?
    requires !Current(entry, up.status, up.headers) && up.status == STATUS_OK
    ensures if s3.writeFails then Ends(Concluded(w, s, now, up, s3), Failed, store)
            else Ends(Concluded(w, s, now, up, s3), Told(PathOf(w, key), s3.acknowledged && s3.signs),
                      store[PathOf(w, key) := Uploaded(leader, key, ReplyOf(clock, key, entry, up),
                                                       s3.stamp, s3.etag, clock)])
  {
    hide PathOf, Current, Stored, ContentTypeOf;
  }

  /** The bodies in the store are the same, at the same paths. */
  predicate SameBodies(was: map<string, Version>, now: map<string, Version>) {
    was.Keys == now.Keys && forall p :: p in was ==> now[p].body == was[p].body && now[p].key == was[p].key
  }

  /** What the answer of upstream comes to, by its status and tags alone. Silence, or a status
      that is not 200 and confirms nothing, writes nothing and is served from what was seen if
      the policy says so; a confirmation keeps every body and is served; new content replaces
      the object. Nothing is served that cannot be presigned. */
  predicate Concludes(w: World, was: map<string, Version>, objects: map<string, Version>, key: CacheKey,
                      entry: Option<Version>, up: Upstream, s3: Storage, outcome: Outcome) {
    var path := PathOf(w, key);
    match up
    case Silent(netError) =>
      && objects == was
      && outcome == (if entry.Some? && (w.fallback.onAnyError || (w.fallback.onConnectionError && netError)) && s3.signs
                     then Redirected(path) else Failed)
    case Replies(status, headers, body) =>
      if SaysUnchanged(entry, status, headers) then
        SameBodies(was, objects) && outcome == if s3.signs then Redirected(path) else Failed
      else if status != 200 then
        && objects == was
        && outcome == (if entry.Some? && ServesStale(w.fallback, status) && s3.signs then Redirected(path) else Failed)
      else if s3.writeFails then objects == was && outcome == Failed
      else
        && path in objects && objects == was[path := objects[path]]
        && objects[path].body == body && objects[path].headers == Stored(headers) && objects[path].key == key
        && outcome == if s3.acknowledged && s3.signs then Redirected(path) else Failed
  }

  /** S3 works, and the object is there with the ETag seen at Head and small enough. */
  predicate Touchable(w: World, was: map<string, Version>, key: CacheKey, entry: Version, s3: Storage) {
    var path := PathOf(w, key);
    path in was && was[path].etag == entry.etag && |entry.body| <= 5_368_709_120 && !s3.writeFails
  }

  /** A touch is written exactly if the flag is on, the reply's tag, if it has one, is the
      entry's own and strong, the merged headers are fresh from now, and the object can be
      copied; it changes nothing but the object's headers, Content-Type, stamp and ETag. */
  ghost predicate TouchesExactly(w: World, was: map<string, Version>, objects: map<string, Version>, key: CacheKey,
                                 entry: Version, reply: Exchange, clock: int, now: int, s3: Storage) {
    var path, merged, tag := PathOf(w, key), Merged(entry.headers, reply.headers), Get(reply.headers, "Etag");
    if && w.honorFreshness && (tag == "" || SameQuoted(Get(entry.headers, "Etag"), tag))
       && Fresh(w.parse, merged, now, now, w.cap, KeyHeaders(key)) && Touchable(w, was, key, entry, s3)
    then
      && path in was && path in objects && objects == was[path := objects[path]]
      && objects[path] == was[path].(
           headers := Stored(merged), contentType := ContentTypeOf(merged), storedAt := s3.stamp, etag := s3.etag,
           cause := reply, landedAt := clock, sources := was[path].sources + entry.sources + {reply.key},
           history := Refreshed(entry.history, Refresh(reply, now)))
    else objects == was
  }

  lemma TouchedStoreIs(w: World, was: map<string, Version>, key: CacheKey, entry: Version, reply: Exchange,
                       clock: int, now: int, s3: Storage)
    requires w.cap <= SAFE_CAP
    ensures TouchesExactly(w, was, TouchedStore(w, was, key, entry, reply, clock, now, s3),
                           key, entry, reply, clock, now, s3)
  {
    hide PathOf, Stored, Verdict, Fresh, Merged, KeyHeaders, ContentTypeOf;
    VerdictIsFresh(w.parse, Merged(entry.headers, reply.headers), now, now, w.cap, KeyHeaders(key));
  }

  lemma SilentConcludes(w: World, was: map<string, Version>, key: CacheKey, entry: Option<Version>, up: Upstream,
                        s3: Storage)
    requires up.Silent?
    ensures Concludes(w, was, was, key, entry, up, s3,
                      if entry.Some? && FallbackOnError(w.fallback, up.netError) then Told(PathOf(w, key), s3.signs)
                      else Failed)
  {
    hide PathOf;
  }

  lemma ConfirmedConcludes(w: World, was: map<string, Version>, key: CacheKey, entry: Version, reply: Exchange,
                           clock: int, now: int, up: Upstream, s3: Storage)
    requires up.Replies? && Current(Some(entry), up.status, up.headers)
    ensures Concludes(w, was, TouchedStore(w, was, key, entry, reply, clock, now, s3), key, Some(entry), up, s3,
                      Told(PathOf(w, key), s3.signs))
  {
    CurrentMeans(Some(entry), up.status, up.headers);
    TouchKeepsBodies(w, was, key, entry, reply, clock, now, s3);
    hide PathOf, TouchedStore, SameBodies, Current, SaysUnchanged;
  }

  lemma TouchKeepsBodies(w: World, was: map<string, Version>, key: CacheKey, entry: Version, reply: Exchange,
                         clock: int, now: int, s3: Storage)
    ensures SameBodies(was, TouchedStore(w, was, key, entry, reply, clock, now, s3))
  {
    hide PathOf, Offer, Stored, ContentTypeOf;
  }

  lemma RefusedConcludes(w: World, was: map<string, Version>, key: CacheKey, entry: Option<Version>, up: Upstream,
                         s3: Storage)
    requires up.Replies? && !Current(entry, up.status, up.headers) && up.status != STATUS_OK
    ensures Concludes(w, was, was, key, entry, up, s3,
                      if entry.Some? && FallbackOnStatus(w.fallback, up.status) then Told(PathOf(w, key), s3.signs)
                      else Failed)
  {
    CurrentMeans(entry, up.status, up.headers);
    hide PathOf, Current;
  }

  lemma UploadedConcludes(w: World, was: map<string, Version>, key: CacheKey, entry: Option<Version>, up: Upstream,
                          s3: Storage, leader: Request, reply: Exchange, clock: int)
    requires up.Replies? && !Current(entry, up.status, up.headers) && up.status == STATUS_OK
    requires reply.headers == up.headers && reply.body == up.body && reply.key == key
    ensures s3.writeFails ==> Concludes(w, was, was, key, entry, up, s3, Failed)
    ensures !s3.writeFails ==>
              Concludes(w, was, was[PathOf(w, key) := Uploaded(leader, key, reply, s3.stamp, s3.etag, clock)],
                        key, entry, up, s3, Told(PathOf(w, key), s3.acknowledged && s3.signs))
  {
    CurrentMeans(entry, up.status, up.headers);
    hide PathOf, Current, SaysUnchanged, Stored, ContentTypeOf;
  }

  /** When maybeTouch stops short of the write. */
  predicate StopsShort(w: World, key: CacheKey, entry: Version, reply: Exchange, now: int, s3: Storage) {
    var vet, merged := Get(reply.headers, "Etag"), Merged(entry.headers, reply.headers);
    || !w.honorFreshness || s3.writeFails
    || (vet != "" && !EtagStrongMatch(Get(entry.headers, "Etag"), vet))
    || !Verdict(w.parse, merged, now, now, w.cap, KeyHeaders(key)).isFresh
  }

  lemma NothingTouched(w: World, was: map<string, Version>, key: CacheKey, entry: Version, reply: Exchange,
                       clock: int, now: int, s3: Storage)
    ensures StopsShort(w, key, entry, reply, now, s3) ==>
              TouchedStore(w, was, key, entry, reply, clock, now, s3) == was
    ensures !StopsShort(w, key, entry, reply, now, s3) ==>
              var copied := CopyObject(was, PathOf(w, key), entry, Merged(entry.headers, reply.headers),
                                       Refresh(reply, now), s3.stamp, s3.etag, clock);
              TouchedStore(w, was, key, entry, reply, clock, now, s3)
              == if copied.Some? then was[PathOf(w, key) := copied.value] else was
  {
    hide PathOf, CopyObject, Verdict, Merged, KeyHeaders, EtagStrongMatch, Get;
  }

  // ---------------------------------------------------------------- the code

  method MaybeTouch(w: World, bucket: Bucket, key: CacheKey, entry: Version, reply: Exchange, clock: int, now: int,
                    s3: Storage)
    requires Canonical(reply.headers)
    modifies bucket
    ensures bucket.objects == TouchedStore(w, old(bucket.objects), key, entry, reply, clock, now, s3)
    ensures w.cap <= SAFE_CAP ==>
              TouchesExactly(w, old(bucket.objects), bucket.objects, key, entry, reply, clock, now, s3)
  {
    if w.cap <= SAFE_CAP {
      TouchedStoreIs(w, bucket.objects, key, entry, reply, clock, now, s3);
    }
    NothingTouched(w, bucket.objects, key, entry, reply, clock, now, s3);
    hide PathOf, CopyObject, Stored, TouchesExactly, Verdict, IsMerge, KeyHeaders, Get, EtagStrongMatch, TouchedStore;
    if !w.honorFreshness {
      return;
    }
    var vet := Get(reply.headers, "Etag");
    if vet != "" && !EtagStrongMatch(Get(entry.headers, "Etag"), vet) {
      return;
    }
    var merged := Merge(entry.headers, reply.headers);
    OrderIrrelevant(entry.headers, reply.headers);
    var decision := Evaluate(w.parse, merged, now, now, w.cap, KeyHeaders(key));
    if !decision.isFresh || s3.writeFails {
      return;
    }
    bucket.Touch(PathOf(w, key), entry, merged, Refresh(reply, now), s3.stamp, s3.etag, clock);
  }

  /** `clock` is the time, `now` what the instance reads. */
  method FetchAndCache(w: World, bucket: Bucket, leader: Request, key: CacheKey, clock: int, now: int,
                       up: Upstream, s3: Storage)
      returns (outcome: Outcome)
    requires up.Replies? ==> Canonical(up.headers)
    modifies bucket
    ensures Ends(Uninterrupted(w, Alone(clock, old(bucket.objects), leader, key), now, up, s3), outcome, bucket.objects)
    ensures var path, was := PathOf(w, key), old(bucket.objects);
            var entry := if s3.headFails || path !in was then None else Some(was[path]);
            if w.honorFreshness && entry.Some?
               && Verdict(w.parse, entry.value.headers, entry.value.storedAt, now, w.cap, KeyHeaders(key)).isFresh
            then bucket.objects == was && outcome == if s3.signs then Redirected(path) else Failed
            else Concludes(w, was, bucket.objects, key, entry, up, s3, outcome)
  {
    Begins(w, clock, bucket.objects, leader, key, now, up, s3);
    hide Verdict, PathOf, Uninterrupted, Alone, Concluded, Ends, Waits, KeyHeaders;
    var path := PathOf(w, key);
    var entry: Option<Version> := None;
    if !s3.headFails {
      entry := bucket.Head(path);
    }
    if w.honorFreshness && entry.Some? {
      var decision := Evaluate(w.parse, entry.value.headers, entry.value.storedAt, now, w.cap, KeyHeaders(key));
      if decision.isFresh {
        return Told(path, s3.signs);
      }
    }
    outcome := AskUpstream(w, bucket, leader, key, entry, clock, now, up, s3);
  }

  /** The rest of fetchAndCache, once the freshness gate has not answered. */
  method AskUpstream(w: World, bucket: Bucket, leader: Request, key: CacheKey, entry: Option<Version>,
                     clock: int, now: int, up: Upstream, s3: Storage)
      returns (outcome: Outcome)
    requires up.Replies? ==> Canonical(up.headers)
    modifies bucket
    ensures forall s: State :: Waits(s, clock, old(bucket.objects), leader, key, entry)
                               ==> Ends(Concluded(w, s, now, up, s3), outcome, bucket.objects)
    ensures Concludes(w, old(bucket.objects), bucket.objects, key, entry, up, s3, outcome)
  {
    hide PathOf, Concluded, Concludes, Ends, Waits, TouchedStore, TouchesExactly, Stored, Current, ContentTypeOf;
    var path := PathOf(w, key);
    ghost var store := bucket.objects;
    if up.Silent? {
      SilentConcludes(w, store, key, entry, up, s3);
      forall s: State | Waits(s, clock, store, leader, key, entry) {
        ConcludesSilent(w, s, clock, store, leader, key, entry, now, up, s3);
      }
      if entry.Some? && FallbackOnError(w.fallback, up.netError) {
        return Told(path, s3.signs);
      }
      return Failed;
    }
    var current := Current(entry, up.status, up.headers);
    var reply := Exchange(clock, key, up.status, up.headers, up.body, if current then Some(entry.value.body) else None);
    if current {
      ConfirmedConcludes(w, store, key, entry.value, reply, clock, now, up, s3);
      forall s: State | Waits(s, clock, store, leader, key, entry) {
        ConcludesConfirmed(w, s, clock, store, leader, key, entry.value, now, up, s3);
      }
      MaybeTouch(w, bucket, key, entry.value, reply, clock, now, s3);
      return Told(path, s3.signs);
    }
    if up.status != STATUS_OK {
      RefusedConcludes(w, store, key, entry, up, s3);
      forall s: State | Waits(s, clock, store, leader, key, entry) {
        ConcludesRefused(w, s, clock, store, leader, key, entry, now, up, s3);
      }
      if entry.Some? && FallbackOnStatus(w.fallback, up.status) {
        return Told(path, s3.signs);
      }
      return Failed;
    }
    forall s: State | Waits(s, clock, store, leader, key, entry) {
      ConcludesUploaded(w, s, clock, store, leader, key, entry, now, up, s3);
    }
    UploadedConcludes(w, store, key, entry, up, s3, leader, reply, clock);
    if s3.writeFails {
      return Failed;
    }
    bucket.Put(path, Uploaded(leader, key, reply, s3.stamp, s3.etag, clock));
    return if s3.acknowledged then Told(path, s3.signs) else Failed;
  }
}

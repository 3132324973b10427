/** The cache protocol: any number of proxy instances over one object store, each
    request a small machine whose steps interleave freely with all the others. */
module CacheProtocol {
  import opened GoText
  import opened Commas
  import opened Headers
  import opened Freshness
  import opened Merging
  import opened Metadata
  import opened Revalidation
  import opened Touches
  import opened Percent
  import opened Keys

  // ---------------------------------------------------------------- requests

  datatype Request = Request(path: Bytes, query: Bytes, headers: Header)

  /** All Accept lines, joined. */
  function AcceptOf(r: Request): string {
    Join(Values(r.headers, "Accept"), ", ")
  }

  predicate IsBytes(s: string) {
    forall i :: 0 <= i < |s| ==> s[i] < '\U{0100}'
  }

  /** A request the proxy takes on. net/http refuses a query with a control byte. */
  predicate Admissible(r: Request) {
    "/" <= r.path && ParseTarget(r.path, r.query).Some? && '\0' !in r.query && IsBytes(AcceptOf(r))
  }

  function KeyFor(r: Request): CacheKey
    requires Admissible(r)
  {
    KeyOf(ParseTarget(r.path, r.query).value, AcceptOf(r))
  }

  /** The request headers a cache key answers for. */
  function KeyHeaders(key: CacheKey): seq<string> {
    if key.variant == "" then [] else ["Accept"]
  }

  /** The combined value of a request header, under any spelling of its name. */
  function FieldValue(r: Request, name: string): string {
    Join(Values(r.headers, CanonicalKey(name)), ", ")
  }

  // ---------------------------------------------------------------- state

  /** One upstream reply; `confirms` is the cached body it was accepted as confirming. */
  datatype Exchange = Exchange(
    at: int, key: CacheKey, status: int, headers: Header, body: string, confirms: Option<string>)

  /** A confirming reply, and the reading of the clock at which maybeTouch weighed it. */
  datatype Refresh = Refresh(reply: Exchange, at: int)

  /** Where stored headers come from: an upload, and the replies merged into it since. */
  datatype History = History(upload: Exchange, refreshes: seq<Refresh>)

  /** One version of a stored object: what S3 holds (`contentType` is its system metadata),
      and, for the statements below, who uploaded the body, which reply caused this write
      and when it landed, which exchanges it comes from and how its headers came about. */
  datatype Version = Version(
    key: CacheKey, body: string, headers: Header, contentType: Option<string>, storedAt: int, etag: string,
    uploader: Request, cause: Exchange, landedAt: int, sources: set<CacheKey>, history: History)

  /** The Content-Type given to S3 with a header set. */
  function ContentTypeOf(h: Header): Option<string> {
    if Get(h, "Content-Type") != "" then Some(Get(h, "Content-Type")) else None
  }

  datatype Outcome = Redirected(path: string) | Failed

  datatype Phase =
    | Looking
    | Deciding(seen: Option<Version>)
    | Fetching(seen: Option<Version>)
    | Confirmed(entry: Version, reply: Exchange)
    | Touching(entry: Version, headers: Header, refresh: Refresh)
    | Uploading(reply: Exchange)
    | Done(outcome: Outcome)

  /** One singleflight call: the request that leads it and those that wait for it. */
  datatype Flight = Flight(instance: nat, leader: Request, key: CacheKey, waiters: set<Request>, phase: Phase)

  /** A fresh hit at `at`, decided by an instance whose clock read `now`. */
  datatype Serve = Serve(at: int, now: int, request: Request, entry: Version, flight: nat)
  datatype Response = Response(request: Request, path: string, flight: nat)

  datatype State = State(
    clock: int, store: map<string, Version>, flights: map<nat, Flight>,
    exchanges: set<Exchange>, versions: set<Version>, serves: set<Serve>, responses: set<Response>)

  datatype FallbackPolicy = FallbackPolicy(onConnectionError: bool, on5xx: bool, onAnyError: bool)

  /** What a run is relative to: configuration, and what is assumed of S3 and upstream.
      An object ETag determines the body (`bodyOf`), upstream uses a strong tag for one
      body per URL and Accept (`tagBody`), S3 stamps at most `skew` ahead, and no instance's
      clock is ever off by more than `drift`. */
  datatype World = World(
    prefix: string, escapers: Escapers, honorFreshness: bool, cap: int, parse: DateParser, fallback: FallbackPolicy,
    bodyOf: string -> string, tagBody: (CacheKey, string) -> string, skew: nat, drift: nat)
  {
    predicate Valid() {
      escapers.Valid() && cap <= MAX_INT64
    }
  }

  const COPY_LIMIT: int := 5 * 1024 * 1024 * 1024

  function PathOf(w: World, key: CacheKey): string {
    S3PathFor(w.escapers, w.prefix, key)
  }

  /** What the freshness gate is asked with for a key. */
  function GateOf(w: World, key: CacheKey): Gate {
    Gate(w.parse, w.cap, KeyHeaders(key))
  }

  // ---------------------------------------------------------------- steps

  // `now` is what the instance reads on its own clock; `signs` is false when presigning fails.

  datatype Step =
    | Tick(now: int)
    | Arrive(id: nat, instance: nat, request: Request)
    | Look(id: nat, fails: bool)
    | Decide(id: nat, now: int, signs: bool)
    | NoAnswer(id: nat, netError: bool, signs: bool)
    | Answer(id: nat, status: int, headers: Header, body: string, signs: bool)
    | ConsiderTouch(id: nat, now: int, signs: bool)
    | Copy(id: nat, stamp: int, etag: string, ok: bool, signs: bool)
    | Upload(id: nat, stamp: int, etag: string, acknowledged: bool)
    | UploadFails(id: nat)

  /** A flight of the same instance that a caller with the same key would join. */
  predicate Joinable(w: World, f: Flight, instance: nat, key: CacheKey) {
    f.instance == instance && !f.phase.Done? && KeyString(w.escapers, f.key) == KeyString(w.escapers, key)
  }

  /** Upstream is consistent: a strong tag names one body per URL and Accept. */
  predicate TagHolds(w: World, key: CacheKey, headers: Header, body: string) {
    IsStrong(Get(headers, "Etag")) ==> body == w.tagBody(key, Get(headers, "Etag"))
  }

  /** What an instance may read on its clock at `clock`. */
  predicate Reads(w: World, clock: int, now: int) {
    clock - w.drift <= now <= clock + w.drift
  }

  ghost predicate Enabled(w: World, s: State, e: Step) {
    match e
    case Tick(now) => s.clock <= now
    case Arrive(id, instance, r) =>
      Admissible(r)
      && (if id in s.flights then Joinable(w, s.flights[id], instance, KeyFor(r))
          else forall other :: other in s.flights ==> !Joinable(w, s.flights[other], instance, KeyFor(r)))
    case Look(id, _) => id in s.flights && s.flights[id].phase.Looking?
    case Decide(id, now, _) => id in s.flights && s.flights[id].phase.Deciding? && Reads(w, s.clock, now)
    case NoAnswer(id, _, _) => id in s.flights && s.flights[id].phase.Fetching?
    case Answer(id, status, headers, body, _) =>
      id in s.flights && s.flights[id].phase.Fetching?
      && Canonical(headers)
      && (status == STATUS_OK ==> TagHolds(w, s.flights[id].key, headers, body))
    case ConsiderTouch(id, now, _) => id in s.flights && s.flights[id].phase.Confirmed? && Reads(w, s.clock, now)
    case Copy(id, stamp, etag, ok, _) =>
      id in s.flights && s.flights[id].phase.Touching?
      && stamp <= s.clock + w.skew
      && var path := PathOf(w, s.flights[id].key);
         (path in s.store ==> w.bodyOf(etag) == s.store[path].body)
    case Upload(id, stamp, etag, _) =>
      id in s.flights && s.flights[id].phase.Uploading?
      && stamp <= s.clock + w.skew && w.bodyOf(etag) == s.flights[id].phase.reply.body
    case UploadFails(id) => id in s.flights && s.flights[id].phase.Uploading?
  }

  function WithPhase(s: State, id: nat, phase: Phase): State
    requires id in s.flights
  {
    s.(flights := s.flights[id := s.flights[id].(phase := phase)])
  }

  /** Ends a flight: its leader and every waiter get the same answer. */
  function Finish(s: State, id: nat, outcome: Outcome): State
    requires id in s.flights
  {
    var f := s.flights[id];
    var told := if outcome.Failed? then {} else set r | r in f.waiters + {f.leader} :: Response(r, outcome.path, id);
    WithPhase(s, id, Done(outcome)).(responses := s.responses + told)
  }

  /** The answer with the object at `path`, if it can be presigned. */
  function Told(path: string, signs: bool): Outcome {
    if signs then Redirected(path) else Failed
  }

  function ArriveStep(s: State, id: nat, instance: nat, r: Request): State
    requires Admissible(r)
  {
    if id in s.flights
    then s.(flights := s.flights[id := s.flights[id].(waiters := s.flights[id].waiters + {r})])
    else s.(flights := s.flights[id := Flight(instance, r, KeyFor(r), {}, Looking)])
  }

  /** headEntry: a failed lookup counts as a miss. */
  function LookStep(w: World, s: State, id: nat, fails: bool): State
    requires id in s.flights
  {
    var path := PathOf(w, s.flights[id].key);
    WithPhase(s, id, Deciding(if !fails && path in s.store then Some(s.store[path]) else None))
  }

  /** A fresh hit serves the leader and every waiter. */
  function ServesOf(s: State, id: nat, entry: Version, now: int): set<Serve>
    requires id in s.flights
  {
    set r | r in s.flights[id].waiters + {s.flights[id].leader} :: Serve(s.clock, now, r, entry, id)
  }

  /** evaluateFreshness, and the fast path. */
  function DecideStep(w: World, s: State, id: nat, now: int, signs: bool): State
    requires id in s.flights && s.flights[id].phase.Deciding?
  {
    var f := s.flights[id];
    var seen := f.phase.seen;
    if w.honorFreshness && seen.Some?
       && Verdict(w.parse, seen.value.headers, seen.value.storedAt, now, w.cap, KeyHeaders(f.key)).isFresh
    then
      Finish(s.(serves := s.serves + if signs then ServesOf(s, id, seen.value, now) else {}), id,
             Told(PathOf(w, f.key), signs))
    else WithPhase(s, id, Fetching(seen))
  }

  /** FallbackPolicy.ShouldFallback for a transport error, and for a reply's status. */
  predicate FallbackOnError(p: FallbackPolicy, netError: bool) {
    p.onAnyError || (p.onConnectionError && netError)
  }

  predicate FallbackOnStatus(p: FallbackPolicy, status: int) {
    (p.onAnyError && status != STATUS_OK && status != STATUS_NOT_MODIFIED) || (p.on5xx && 500 <= status < 600)
  }

  function NoAnswerStep(w: World, s: State, id: nat, netError: bool, signs: bool): State
    requires id in s.flights && s.flights[id].phase.Fetching?
  {
    var f := s.flights[id];
    if f.phase.seen.Some? && FallbackOnError(w.fallback, netError)
    then Finish(s, id, Told(PathOf(w, f.key), signs))
    else Finish(s, id, Failed)
  }

  /** The reply confirms the entry seen at Head, if there was one. */
  predicate Current(seen: Option<Version>, status: int, headers: Header): (current: bool)
    ensures current ==> seen.Some?
  {
    UpstreamUnchanged(status, headers, if seen.Some? then Some(seen.value.headers) else None)
  }

  function ReplyTo(s: State, f: Flight, status: int, headers: Header, body: string): Exchange
    requires f.phase.Fetching?
  {
    Exchange(s.clock, f.key, status, headers, body,
             if Current(f.phase.seen, status, headers) then Some(f.phase.seen.value.body) else None)
  }

  function AnswerStep(w: World, s: State, id: nat, status: int, headers: Header, body: string, signs: bool): State
    requires id in s.flights && s.flights[id].phase.Fetching?
  {
    var f := s.flights[id];
    var seen := f.phase.seen;
    var reply := ReplyTo(s, f, status, headers, body);
    var heard := s.(exchanges := s.exchanges + {reply});
    if Current(seen, status, headers) then WithPhase(heard, id, Confirmed(seen.value, reply))
    else if status == STATUS_OK then WithPhase(heard, id, Uploading(reply))
    else if seen.Some? && FallbackOnStatus(w.fallback, status)
    then Finish(heard, id, Told(PathOf(w, f.key), signs))
    else Finish(heard, id, Failed)
  }

  /** maybeTouch up to the write; the redirect follows whatever it decides. */
  function ConsiderTouchStep(w: World, s: State, id: nat, now: int, signs: bool): State
    requires id in s.flights && s.flights[id].phase.Confirmed?
  {
    var f := s.flights[id];
    var Confirmed(entry, reply) := f.phase;
    BeginTouch(w, s, id, Offer(GateOf(w, f.key), entry.headers, Confirmation(now, reply.headers, true)), now, signs)
  }

  function BeginTouch(w: World, s: State, id: nat, headers: Option<Header>, now: int, signs: bool): State
    requires id in s.flights && s.flights[id].phase.Confirmed?
  {
    var f := s.flights[id];
    if w.honorFreshness && headers.Some?
    then WithPhase(s, id, Touching(f.phase.entry, headers.value, Refresh(f.phase.reply, now)))
    else Finish(s, id, Told(PathOf(w, f.key), signs))
  }

  /** CopyObject onto itself, conditional on the object ETag seen at Head. The headers are
      those of the entry seen at Head, refreshed, whatever the object's own are by now. */
  function CopyObject(store: map<string, Version>, path: string, entry: Version, headers: Header, refresh: Refresh,
                      stamp: int, etag: string, now: int): Option<Version>
  {
    if |entry.body| <= COPY_LIMIT && path in store && store[path].etag == entry.etag
    then Some(Copied(store[path], entry, headers, refresh, stamp, etag, now))
    else None
  }

  function Copied(current: Version, entry: Version, headers: Header, refresh: Refresh,
                  stamp: int, etag: string, now: int): Version
  {
    current.(headers := Stored(headers), contentType := ContentTypeOf(headers), storedAt := stamp, etag := etag,
             cause := refresh.reply, landedAt := now, sources := current.sources + entry.sources + {refresh.reply.key},
             history := Refreshed(entry.history, refresh))
  }

  function Refreshed(h: History, refresh: Refresh): History {
    h.(refreshes := h.refreshes + [refresh])
  }

  function CopyStep(w: World, s: State, id: nat, stamp: int, etag: string, ok: bool, signs: bool): State
    requires id in s.flights && s.flights[id].phase.Touching?
  {
    var f := s.flights[id];
    var Touching(entry, headers, refresh) := f.phase;
    var path := PathOf(w, f.key);
    var copied := CopyObject(s.store, path, entry, headers, refresh, stamp, etag, s.clock);
    var after := if ok && copied.Some?
                 then s.(store := s.store[path := copied.value], versions := s.versions + {copied.value})
                 else s;
    Finish(after, id, Told(path, signs))
  }

  /** The version a Put stores. */
  function Uploaded(leader: Request, key: CacheKey, reply: Exchange, stamp: int, etag: string, clock: int): Version {
    Version(key, reply.body, Stored(reply.headers), ContentTypeOf(reply.headers), stamp, etag,
            leader, reply, clock, {reply.key}, History(reply, []))
  }

  /** Put: unconditional. It may land and yet be reported as failed, or presigning fail after it. */
  function UploadStep(w: World, s: State, id: nat, stamp: int, etag: string, acknowledged: bool): State
    requires id in s.flights && s.flights[id].phase.Uploading?
  {
    var f := s.flights[id];
    var path, v := PathOf(w, f.key), Uploaded(f.leader, f.key, f.phase.reply, stamp, etag, s.clock);
    Finish(s.(store := s.store[path := v], versions := s.versions + {v}), id,
           if acknowledged then Redirected(path) else Failed)
  }

  ghost function Apply(w: World, s: State, e: Step): State
    requires Enabled(w, s, e)
  {
    match e
    case Tick(now) => s.(clock := now)
    case Arrive(id, instance, r) => ArriveStep(s, id, instance, r)
    case Look(id, fails) => LookStep(w, s, id, fails)
    case Decide(id, now, signs) => DecideStep(w, s, id, now, signs)
    case NoAnswer(id, netError, signs) => NoAnswerStep(w, s, id, netError, signs)
    case Answer(id, status, headers, body, signs) => AnswerStep(w, s, id, status, headers, body, signs)
    case ConsiderTouch(id, now, signs) => ConsiderTouchStep(w, s, id, now, signs)
    case Copy(id, stamp, etag, ok, signs) => CopyStep(w, s, id, stamp, etag, ok, signs)
    case Upload(id, stamp, etag, acknowledged) => UploadStep(w, s, id, stamp, etag, acknowledged)
    case UploadFails(id) => Finish(s, id, Failed)
  }

  /** The state a run of steps leads to, from an empty store; none if some step of it
      was not enabled. */
  ghost function After(w: World, start: int, steps: seq<Step>): Option<State> {
    if steps == [] then Some(State(start, map[], map[], {}, {}, {}, {}))
    else
      var before := After(w, start, steps[..|steps| - 1]);
      if before.Some? && Enabled(w, before.value, steps[|steps| - 1])
      then Some(Apply(w, before.value, steps[|steps| - 1])) else None
  }

  // ---------------------------------------------------------------- the invariant

  /** The reply carried `body`, or was accepted as confirming an entry that held it. */
  predicate Vouches(reply: Exchange, body: string) {
    (reply.status == STATUS_OK && reply.body == body) || reply.confirms == Some(body)
  }

  predicate Carried(exchanges: set<Exchange>, v: Version, upload: Exchange) {
    upload in exchanges && upload.key == v.key && upload.status == STATUS_OK && upload.body == v.body
  }

  predicate Confirming(exchanges: set<Exchange>, v: Version, reply: Exchange) {
    reply in exchanges && reply.key == v.key && reply.confirms == Some(v.body)
  }

  function Confirmations(refreshes: seq<Refresh>): seq<Confirmation> {
    seq(|refreshes|, i requires 0 <= i < |refreshes| => Confirmation(refreshes[i].at, refreshes[i].reply.headers, true))
  }

  function Replies(refreshes: seq<Refresh>): seq<Header> {
    seq(|refreshes|, i requires 0 <= i < |refreshes| => refreshes[i].reply.headers)
  }

  /** The headers are what the run of revalidations in the history makes of the upload's,
      every one of them having been written. */
  predicate HeadersHold(w: World, v: Version) {
    var g, uploaded, run := GateOf(w, v.key), Stored(v.history.upload.headers), Confirmations(v.history.refreshes);
    && v.headers == TouchedAll(g, uploaded, run)
    && Written(g, uploaded, run) == Replies(v.history.refreshes)
    && v.contentType == ContentTypeOf(v.headers) == ContentTypeOf(v.history.upload.headers)
  }

  /** The history is one of the body: uploaded with it and confirmed of it. */
  predicate HistoryHolds(w: World, exchanges: set<Exchange>, v: Version) {
    && Carried(exchanges, v, v.history.upload)
    && (forall i :: 0 <= i < |v.history.refreshes| ==> Confirming(exchanges, v, v.history.refreshes[i].reply))
    && HeadersHold(w, v)
  }

  /** Everything a stored version owes its readers. */
  ghost predicate Sound(w: World, exchanges: set<Exchange>, clock: int, v: Version) {
    && Owns(v.uploader, v.key)
    && v.sources == {v.key}
    && v.body == w.bodyOf(v.etag)
    && TagHolds(w, v.key, v.headers, v.body)
    && v.cause in exchanges && v.cause.key == v.key && Vouches(v.cause, v.body)
    && v.cause.at <= v.landedAt <= clock
    && v.storedAt <= v.landedAt + w.skew
    && HistoryHolds(w, exchanges, v)
  }

  /** An entry seen at Head by a flight for `key`. */
  predicate SeenBy(versions: set<Version>, key: CacheKey, v: Version) {
    v in versions && v.key == key
  }

  predicate Heard(exchanges: set<Exchange>, key: CacheKey, reply: Exchange) {
    reply in exchanges && reply.key == key
  }

  ghost predicate PhaseSound(w: World, exchanges: set<Exchange>, versions: set<Version>, key: CacheKey, phase: Phase) {
    match phase
    case Looking => true
    case Deciding(seen) => seen.Some? ==> SeenBy(versions, key, seen.value)
    case Fetching(seen) => seen.Some? ==> SeenBy(versions, key, seen.value)
    case Confirmed(entry, reply) =>
      SeenBy(versions, key, entry) && Heard(exchanges, key, reply) && reply.confirms == Some(entry.body)
    case Touching(entry, headers, refresh) =>
      SeenBy(versions, key, entry) && Heard(exchanges, key, refresh.reply) && refresh.reply.confirms == Some(entry.body)
      && Offer(GateOf(w, key), entry.headers, Confirmation(refresh.at, refresh.reply.headers, true)) == Some(headers)
    case Uploading(reply) =>
      Heard(exchanges, key, reply) && reply.status == STATUS_OK && TagHolds(w, key, reply.headers, reply.body)
    case Done(_) => true
  }

  /** `key` is the cache key of the request `r`. */
  predicate Owns(r: Request, key: CacheKey) {
    Admissible(r) && KeyFor(r) == key
  }

  ghost predicate FlightSound(w: World, exchanges: set<Exchange>, versions: set<Version>, f: Flight) {
    && Owns(f.leader, f.key)
    && (forall r :: r in f.waiters ==> Owns(r, f.key))
    && PhaseSound(w, exchanges, versions, f.key, f.phase)
  }

  ghost predicate ServeSound(w: World, versions: set<Version>, clock: int, v: Serve) {
    && w.honorFreshness && v.entry in versions && Owns(v.request, v.entry.key)
    && v.entry.landedAt <= v.at <= clock && Reads(w, v.at, v.now)
    && Verdict(w.parse, v.entry.headers, v.entry.storedAt, v.now, w.cap, KeyHeaders(v.entry.key)).isFresh
  }

  /** The answer names the object of the request's own key. */
  predicate Answered(w: World, r: Response) {
    Admissible(r.request) && r.path == PathOf(w, KeyFor(r.request))
  }

  /** A version is stored under the path of its key. */
  predicate Filed(w: World, versions: set<Version>, path: string, v: Version) {
    v in versions && path == PathOf(w, v.key)
  }

  ghost predicate Inv(w: World, s: State) {
    && (forall x :: x in s.exchanges ==> x.at <= s.clock)
    && (forall v :: v in s.versions ==> Sound(w, s.exchanges, s.clock, v))
    && (forall path :: path in s.store ==> Filed(w, s.versions, path, s.store[path]))
    && (forall id :: id in s.flights ==> FlightSound(w, s.exchanges, s.versions, s.flights[id]))
    && (forall v :: v in s.serves ==> ServeSound(w, s.versions, s.clock, v))
    && (forall r :: r in s.responses ==> Answered(w, r))
  }

  // Each part of the state may change on its own; the next lemmas say when the
  // invariant survives.

  lemma FlightKeeps(w: World, s: State, id: nat, f: Flight)
    requires Inv(w, s) && FlightSound(w, s.exchanges, s.versions, f)
    ensures Inv(w, s.(flights := s.flights[id := f]))
  {
    hide FlightSound, Sound, ServeSound, Filed, Answered;
  }

  lemma PhaseKeeps(w: World, s: State, id: nat, phase: Phase)
    requires Inv(w, s) && id in s.flights
    requires PhaseSound(w, s.exchanges, s.versions, s.flights[id].key, phase)
    ensures Inv(w, WithPhase(s, id, phase))
  {
    FlightIsSound(w, s, id);
    hide Inv, PhaseSound, Owns;
    FlightKeeps(w, s, id, s.flights[id].(phase := phase));
  }

  lemma FlightIsSound(w: World, s: State, id: nat)
    requires Inv(w, s) && id in s.flights
    ensures FlightSound(w, s.exchanges, s.versions, s.flights[id])
  {
    hide FlightSound, Sound, ServeSound, Filed, Answered;
  }

  lemma RespondingKeeps(w: World, s: State, more: set<Response>)
    requires Inv(w, s) && forall r :: r in more ==> Answered(w, r)
    ensures Inv(w, s.(responses := s.responses + more))
  {
    hide FlightSound, Sound, ServeSound, Filed, Answered;
  }

  lemma SoundGrows(w: World, exchanges: set<Exchange>, more: set<Exchange>, clock: int, later: int, v: Version)
    requires Sound(w, exchanges, clock, v) && exchanges <= more && clock <= later
    ensures Sound(w, more, later, v)
  {
    hide HeadersHold, TagHolds, Owns, Vouches;
  }

  lemma HearingKeeps(w: World, s: State, reply: Exchange)
    requires Inv(w, s) && reply.at <= s.clock
    ensures Inv(w, s.(exchanges := s.exchanges + {reply}))
  {
    hide Sound, ServeSound, Filed, Answered, Owns;
    var t := s.(exchanges := s.exchanges + {reply});
    forall v | v in t.versions ensures Sound(w, t.exchanges, t.clock, v) {
      SoundGrows(w, s.exchanges, t.exchanges, s.clock, s.clock, v);
    }
    forall id | id in t.flights ensures FlightSound(w, t.exchanges, t.versions, t.flights[id]) {
      assert FlightSound(w, s.exchanges, s.versions, s.flights[id]);
    }
  }

  lemma StoringKeeps(w: World, s: State, path: string, v: Version)
    requires Inv(w, s) && Sound(w, s.exchanges, s.clock, v) && path == PathOf(w, v.key)
    ensures Inv(w, s.(store := s.store[path := v], versions := s.versions + {v}))
  {
    hide Sound, PathOf, Owns, Answered, TagHolds, Heard;
    var t := s.(store := s.store[path := v], versions := s.versions + {v});
    forall p | p in t.store ensures Filed(w, t.versions, p, t.store[p]) {
      if p != path {
        assert Filed(w, s.versions, p, s.store[p]);
      }
    }
    forall id | id in t.flights ensures FlightSound(w, t.exchanges, t.versions, t.flights[id]) {
      assert FlightSound(w, s.exchanges, s.versions, s.flights[id]);
    }
    forall x | x in t.serves ensures ServeSound(w, t.versions, t.clock, x) {
      assert ServeSound(w, s.versions, s.clock, x);
    }
  }

  lemma ServingKeeps(w: World, s: State, more: set<Serve>)
    requires Inv(w, s) && forall v :: v in more ==> ServeSound(w, s.versions, s.clock, v)
    ensures Inv(w, s.(serves := s.serves + more))
  {
  }

  lemma TickKeeps(w: World, s: State, now: int)
    requires Inv(w, s) && s.clock <= now
    ensures Inv(w, s.(clock := now))
  {
    hide Sound, Filed, Answered, FlightSound, Owns, Verdict;
    var t := s.(clock := now);
    forall v | v in t.versions ensures Sound(w, t.exchanges, t.clock, v) {
      SoundGrows(w, s.exchanges, s.exchanges, s.clock, now, v);
    }
    forall v | v in t.serves ensures ServeSound(w, t.versions, t.clock, v) {
      assert ServeSound(w, s.versions, s.clock, v);
    }
  }

  /** The leader and every waiter are told of the right object. */
  lemma FinishKeeps(w: World, s: State, id: nat, outcome: Outcome)
    requires Inv(w, s) && id in s.flights
    requires outcome.Redirected? ==> outcome.path == PathOf(w, s.flights[id].key)
    ensures Inv(w, Finish(s, id, outcome))
  {
    hide Inv, PathOf, PhaseSound, KeyFor, Admissible;
    var f := s.flights[id];
    FlightIsSound(w, s, id);
    PhaseKeeps(w, s, id, Done(outcome)) by { DoneIsSound(w, s, f.key, outcome); }
    var told := if outcome.Failed? then {} else set r | r in f.waiters + {f.leader} :: Response(r, outcome.path, id);
    forall r | r in told ensures Answered(w, r) {
      assert Owns(r.request, f.key);
    }
    RespondingKeeps(w, WithPhase(s, id, Done(outcome)), told);
  }

  lemma DoneIsSound(w: World, s: State, key: CacheKey, outcome: Outcome)
    ensures PhaseSound(w, s.exchanges, s.versions, key, Done(outcome))
  {
  }

  lemma JoinersShareKey(w: World, f: Flight, instance: nat, r: Request)
    requires w.Valid() && Owns(f.leader, f.key) && Admissible(r) && Joinable(w, f, instance, KeyFor(r))
    ensures Owns(r, f.key)
  {
    SameFlightSameObject(w.escapers, w.prefix, f.key, KeyFor(r));
  }

  lemma ArriveKeeps(w: World, s: State, id: nat, instance: nat, r: Request)
    requires w.Valid() && Inv(w, s) && Enabled(w, s, Arrive(id, instance, r))
    ensures Inv(w, ArriveStep(s, id, instance, r))
  {
    assert Admissible(r);
    hide Inv, Enabled, FlightSound;
    ArrivalSound(w, s, id, instance, r);
    FlightKeeps(w, s, id, ArriveStep(s, id, instance, r).flights[id]);
  }

  lemma ArrivalSound(w: World, s: State, id: nat, instance: nat, r: Request)
    requires w.Valid() && Inv(w, s) && Enabled(w, s, Arrive(id, instance, r))
    ensures FlightSound(w, s.exchanges, s.versions, ArriveStep(s, id, instance, r).flights[id])
  {
    hide Sound, ServeSound, Filed, Answered;
    if id in s.flights {
      assert FlightSound(w, s.exchanges, s.versions, s.flights[id]);
      JoinersShareKey(w, s.flights[id], instance, r);
    }
  }

  /** What is stored where a flight looks is what was stored for its own key. */
  lemma StoredForKey(w: World, s: State, r: Request, key: CacheKey)
    requires w.Valid() && Inv(w, s) && Owns(r, key) && PathOf(w, key) in s.store
    ensures var v := s.store[PathOf(w, key)];
            SeenBy(s.versions, key, v) && Sound(w, s.exchanges, s.clock, v)
  {
    var v := s.store[PathOf(w, key)];
    assert Filed(w, s.versions, PathOf(w, key), v);
    assert Sound(w, s.exchanges, s.clock, v);
    S3PathInjective(w.escapers, w.prefix, v.key, key);
  }

  lemma LookKeeps(w: World, s: State, id: nat, fails: bool)
    requires w.Valid() && Inv(w, s) && Enabled(w, s, Look(id, fails))
    ensures Inv(w, LookStep(w, s, id, fails))
  {
    hide Inv, PathOf, Owns, Sound, KeyFor;
    var f := s.flights[id];
    var path := PathOf(w, f.key);
    FlightIsSound(w, s, id);
    if path in s.store {
      StoredForKey(w, s, f.leader, f.key);
    }
    PhaseKeeps(w, s, id, Deciding(if !fails && path in s.store then Some(s.store[path]) else None));
  }

  lemma DecideKeeps(w: World, s: State, id: nat, now: int, signs: bool)
    requires w.Valid() && Inv(w, s) && Enabled(w, s, Decide(id, now, signs))
    ensures Inv(w, DecideStep(w, s, id, now, signs))
  {
    hide PathOf, Owns, Answered, Filed, Sound, Verdict;
    var f := s.flights[id];
    FlightIsSound(w, s, id);
    var t := DecideStep(w, s, id, now, signs);
    if t.flights[id].phase.Done? {
      var entry := f.phase.seen.value;
      var served := if signs then ServesOf(s, id, entry, now) else {};
      EntryLanded(w, s, f.key, entry);
      forall v | v in served ensures ServeSound(w, s.versions, s.clock, v) {
        assert Owns(v.request, f.key);
      }
      ServingKeeps(w, s, served);
      FinishKeeps(w, s.(serves := s.serves + served), id, Told(PathOf(w, f.key), signs));
    } else {
      PhaseKeeps(w, s, id, Fetching(f.phase.seen));
    }
  }

  lemma EntryIsSound(w: World, s: State, key: CacheKey, entry: Version)
    requires Inv(w, s) && SeenBy(s.versions, key, entry)
    ensures Sound(w, s.exchanges, s.clock, entry)
  {
    hide Sound, Filed, FlightSound, ServeSound, Answered;
  }

  lemma EntryLanded(w: World, s: State, key: CacheKey, entry: Version)
    requires Inv(w, s) && SeenBy(s.versions, key, entry)
    ensures entry.landedAt <= s.clock
  {
    hide Inv;
    EntryIsSound(w, s, key, entry);
  }

  /** A 200 accepted by strong match has the very body seen at Head. */
  lemma StrongMatchSameBody(w: World, key: CacheKey, entry: Version, headers: Header, body: string)
    requires TagHolds(w, key, entry.headers, entry.body) && TagHolds(w, key, headers, body)
    requires UpstreamUnchanged(STATUS_OK, headers, Some(entry.headers))
    ensures body == entry.body
  {
  }

  lemma AnswerKeeps(w: World, s: State, id: nat, status: int, headers: Header, body: string, signs: bool)
    requires w.Valid() && Inv(w, s) && Enabled(w, s, Answer(id, status, headers, body, signs))
    ensures Inv(w, AnswerStep(w, s, id, status, headers, body, signs))
  {
    hide Inv, PathOf, Owns, TagHolds, Canonical, UpstreamUnchanged;
    var f := s.flights[id];
    FlightIsSound(w, s, id);
    var seen := f.phase.seen;
    var reply := ReplyTo(s, f, status, headers, body);
    var heard := s.(exchanges := s.exchanges + {reply});
    HearingKeeps(w, s, reply);
    if Current(seen, status, headers) {
      PhaseKeeps(w, heard, id, Confirmed(seen.value, reply));
    } else if status == STATUS_OK {
      PhaseKeeps(w, heard, id, Uploading(reply));
    } else if seen.Some? && FallbackOnStatus(w.fallback, status) {
      FinishKeeps(w, heard, id, Told(PathOf(w, f.key), signs));
    } else {
      FinishKeeps(w, heard, id, Failed);
    }
  }

  lemma TouchedTagHolds(w: World, entry: Version, c: Confirmation)
    requires TagHolds(w, entry.key, entry.headers, entry.body)
    ensures var headers := Offer(GateOf(w, entry.key), entry.headers, c);
            headers.Some? ==> TagHolds(w, entry.key, Stored(headers.value), entry.body)
  {
    if Offer(GateOf(w, entry.key), entry.headers, c).Some? {
      TouchKeepsTag(w.parse, entry.headers, c.headers, c.at, w.cap, KeyHeaders(entry.key));
    }
  }

  lemma ConsiderTouchKeeps(w: World, s: State, id: nat, now: int, signs: bool)
    requires Inv(w, s) && id in s.flights && s.flights[id].phase.Confirmed?
    ensures Inv(w, ConsiderTouchStep(w, s, id, now, signs))
  {
    hide Inv, PathOf, Owns, Offer;
    var f := s.flights[id];
    var Confirmed(entry, reply) := f.phase;
    FlightIsSound(w, s, id);
    var headers := Offer(GateOf(w, f.key), entry.headers, Confirmation(now, reply.headers, true));
    if w.honorFreshness && headers.Some? {
      PhaseKeeps(w, s, id, Touching(entry, headers.value, Refresh(reply, now)));
    } else {
      FinishKeeps(w, s, id, Told(PathOf(w, f.key), signs));
    }
  }

  lemma ContentTypeStored(h: Header)
    ensures ContentTypeOf(Stored(h)) == ContentTypeOf(h)
  {
    StoredValues(h, "Content-Type");
  }

  /** A touch gives S3 the very Content-Type that the entry's headers have. */
  lemma ContentTypeResupplied(w: World, entry: Version, c: Confirmation)
    requires Offer(GateOf(w, entry.key), entry.headers, c).Some?
    ensures ContentTypeOf(Offer(GateOf(w, entry.key), entry.headers, c).value) == ContentTypeOf(entry.headers)
  {
    MergedValues(entry.headers, c.headers, "Content-Type");
  }

  /** A copy's history is that of the entry seen at Head and one refresh more. */
  lemma HistoryExtends(w: World, exchanges: set<Exchange>, current: Version, entry: Version, headers: Header,
                       refresh: Refresh, stamp: int, etag: string, now: int)
    requires HistoryHolds(w, exchanges, entry) && current.key == entry.key && current.body == entry.body
    requires Confirming(exchanges, entry, refresh.reply)
    requires Offer(GateOf(w, entry.key), entry.headers, Confirmation(refresh.at, refresh.reply.headers, true))
             == Some(headers)
    ensures HistoryHolds(w, exchanges, Copied(current, entry, headers, refresh, stamp, etag, now))
  {
    hide Stored, TouchedAll, Written, Offer, ContentTypeOf;
    var c, rs := Confirmation(refresh.at, refresh.reply.headers, true), entry.history.refreshes;
    assert Confirmations(rs + [refresh]) == Confirmations(rs) + [c];
    assert Replies(rs + [refresh]) == Replies(rs) + [c.headers];
    TouchedOneMore(GateOf(w, entry.key), Stored(entry.history.upload.headers), Confirmations(rs), c);
    ContentTypeResupplied(w, entry, c);
    ContentTypeStored(headers);
  }

  /** A copy of a sound entry over an object of the same key and body is sound. */
  lemma CopiedSound(w: World, exchanges: set<Exchange>, clock: int, current: Version, entry: Version, headers: Header,
                    refresh: Refresh, stamp: int, etag: string)
    requires Sound(w, exchanges, clock, current) && Sound(w, exchanges, clock, entry)
    requires current.key == entry.key && current.body == entry.body == w.bodyOf(etag)
    requires Confirming(exchanges, entry, refresh.reply) && refresh.reply.at <= clock && stamp <= clock + w.skew
    requires Offer(GateOf(w, entry.key), entry.headers, Confirmation(refresh.at, refresh.reply.headers, true))
             == Some(headers)
    ensures Sound(w, exchanges, clock, Copied(current, entry, headers, refresh, stamp, etag, clock))
  {
    hide Stored, Offer, TagHolds, ContentTypeOf, HistoryHolds, Owns;
    HistoryExtends(w, exchanges, current, entry, headers, refresh, stamp, etag, clock) by {
      assert HistoryHolds(w, exchanges, entry);
    }
    TouchedTagHolds(w, entry, Confirmation(refresh.at, refresh.reply.headers, true));
    assert current.sources + entry.sources + {refresh.reply.key} == {entry.key};
  }

  /** What a touch that S3 accepts finds: an object of its key, with the body seen at Head. */
  lemma TouchMeets(w: World, s: State, id: nat)
    requires w.Valid() && Inv(w, s) && id in s.flights && s.flights[id].phase.Touching?
    requires PathOf(w, s.flights[id].key) in s.store
    requires s.store[PathOf(w, s.flights[id].key)].etag == s.flights[id].phase.entry.etag
    ensures var f, current := s.flights[id], s.store[PathOf(w, s.flights[id].key)];
            && Sound(w, s.exchanges, s.clock, current) && Sound(w, s.exchanges, s.clock, f.phase.entry)
            && current.key == f.key == f.phase.entry.key && current.body == f.phase.entry.body
  {
    hide Inv, PathOf, HistoryHolds, TagHolds, Admissible, KeyFor;
    var f := s.flights[id];
    FlightIsSound(w, s, id);
    EntryIsSound(w, s, f.key, f.phase.entry);
    StoredForKey(w, s, f.leader, f.key);
  }

  lemma HeardByNow(w: World, s: State, key: CacheKey, reply: Exchange)
    requires Inv(w, s) && Heard(s.exchanges, key, reply)
    ensures reply.at <= s.clock
  {
  }

  /** The copy, if S3 accepts it, stores a sound version with the body that was there. */
  ghost predicate CopyIsSound(w: World, s: State, f: Flight, stamp: int, etag: string)
    requires f.phase.Touching?
  {
    var path := PathOf(w, f.key);
    var Touching(entry, headers, refresh) := f.phase;
    var copied := CopyObject(s.store, path, entry, headers, refresh, stamp, etag, s.clock);
    copied.Some? ==>
      && Sound(w, s.exchanges, s.clock, copied.value)
      && copied.value.key == f.key
      && copied.value.body == s.store[path].body == entry.body
  }

  lemma CopySound(w: World, s: State, id: nat, stamp: int, etag: string, ok: bool, signs: bool)
    requires w.Valid() && Inv(w, s) && Enabled(w, s, Copy(id, stamp, etag, ok, signs))
    ensures id in s.flights && s.flights[id].phase.Touching? && CopyIsSound(w, s, s.flights[id], stamp, etag)
  {
    hide Inv, PathOf, Sound, Copied, Offer, Owns;
    var f, path := s.flights[id], PathOf(w, s.flights[id].key);
    if path in s.store && s.store[path].etag == f.phase.entry.etag {
      FlightIsSound(w, s, id);
      TouchMeets(w, s, id);
      HeardByNow(w, s, f.key, f.phase.refresh.reply);
      CopiedSound(w, s.exchanges, s.clock, s.store[path], f.phase.entry, f.phase.headers, f.phase.refresh, stamp, etag);
      CopiedKeeps(s.store[path], f.phase.entry, f.phase.headers, f.phase.refresh, stamp, etag, s.clock);
    }
  }

  lemma CopiedKeeps(current: Version, entry: Version, headers: Header, refresh: Refresh,
                    stamp: int, etag: string, now: int)
    ensures var v := Copied(current, entry, headers, refresh, stamp, etag, now);
            v.key == current.key && v.body == current.body
  {
  }

  lemma CopyKeeps(w: World, s: State, id: nat, stamp: int, etag: string, ok: bool, signs: bool)
    requires w.Valid() && Inv(w, s) && Enabled(w, s, Copy(id, stamp, etag, ok, signs))
    ensures Inv(w, Apply(w, s, Copy(id, stamp, etag, ok, signs)))
  {
    hide Inv, PathOf, Sound, CopyObject;
    CopySound(w, s, id, stamp, etag, ok, signs);
    var f := s.flights[id];
    var Touching(entry, headers, refresh) := f.phase;
    var path := PathOf(w, f.key);
    var copied := CopyObject(s.store, path, entry, headers, refresh, stamp, etag, s.clock);
    if ok && copied.Some? {
      var t := s.(store := s.store[path := copied.value], versions := s.versions + {copied.value});
      StoringKeeps(w, s, path, copied.value);
      FinishKeeps(w, t, id, Told(path, signs));
    } else {
      FinishKeeps(w, s, id, Told(path, signs));
    }
  }

  lemma UploadSound(w: World, s: State, f: Flight, stamp: int, etag: string)
    requires Inv(w, s) && FlightSound(w, s.exchanges, s.versions, f) && f.phase.Uploading?
    requires stamp <= s.clock + w.skew && w.bodyOf(etag) == f.phase.reply.body
    ensures Sound(w, s.exchanges, s.clock, Uploaded(f.leader, f.key, f.phase.reply, stamp, etag, s.clock))
  {
    hide ContentTypeOf, Owns;
    var h := f.phase.reply.headers;
    StoredTag(h);
    ContentTypeStored(h);
    assert Confirmations([]) == [] && Replies([]) == [];
  }

  lemma UploadKeeps(w: World, s: State, id: nat, stamp: int, etag: string, acknowledged: bool)
    requires Inv(w, s) && id in s.flights && s.flights[id].phase.Uploading?
    requires stamp <= s.clock + w.skew && w.bodyOf(etag) == s.flights[id].phase.reply.body
    ensures Inv(w, UploadStep(w, s, id, stamp, etag, acknowledged))
  {
    var f := s.flights[id];
    assert FlightSound(w, s.exchanges, s.versions, f);
    var path, v := PathOf(w, f.key), Uploaded(f.leader, f.key, f.phase.reply, stamp, etag, s.clock);
    UploadSound(w, s, f, stamp, etag);
    StoringKeeps(w, s, path, v);
    FinishKeeps(w, s.(store := s.store[path := v], versions := s.versions + {v}), id,
                if acknowledged then Redirected(path) else Failed);
  }

  lemma StoredTag(h: Header)
    ensures Get(Stored(h), "Etag") == Get(h, "Etag")
  {
    TagIsOrdinary();
    StoredValues(h, "Etag");
    StoredAt(h, "Etag");
  }

  lemma ApplyKeeps(w: World, s: State, e: Step)
    requires w.Valid() && Inv(w, s) && Enabled(w, s, e)
    ensures Inv(w, Apply(w, s, e))
  {
    hide Inv, PathOf, KeyFor;
    match e
    case Tick(now) => TickKeeps(w, s, now);
    case Arrive(id, instance, r) => ArriveKeeps(w, s, id, instance, r);
    case Look(id, fails) => LookKeeps(w, s, id, fails);
    case Decide(id, now, signs) => DecideKeeps(w, s, id, now, signs);
    case NoAnswer(id, netError, signs) =>
      FinishKeeps(w, s, id, NoAnswerStep(w, s, id, netError, signs).flights[id].phase.outcome);
    case Answer(id, status, headers, body, signs) => AnswerKeeps(w, s, id, status, headers, body, signs);
    case ConsiderTouch(id, now, signs) => ConsiderTouchKeeps(w, s, id, now, signs);
    case Copy(id, stamp, etag, ok, signs) => CopyKeeps(w, s, id, stamp, etag, ok, signs);
    case Upload(id, stamp, etag, acknowledged) => UploadKeeps(w, s, id, stamp, etag, acknowledged);
    case UploadFails(id) => FinishKeeps(w, s, id, Failed);
  }

  /** Every state of every run satisfies the invariant. */
  lemma {:induction false} RunsKeepInv(w: World, start: int, steps: seq<Step>)
    requires w.Valid() && After(w, start, steps).Some?
    ensures Inv(w, After(w, start, steps).value)
  {
    if steps != [] {
      RunsKeepInv(w, start, steps[..|steps| - 1]);
      ApplyKeeps(w, After(w, start, steps[..|steps| - 1]).value, steps[|steps| - 1]);
    }
  }

  // ---------------------------------------------------------------- what every run guarantees

  /** Labels are sound: whenever the stored ETag is a strong tag, the stored body is the
      one upstream issues with that tag for the URL and Accept the object stands for. */
  lemma LabelsAreSound(w: World, start: int, steps: seq<Step>, path: string)
    requires w.Valid() && After(w, start, steps).Some? && path in After(w, start, steps).value.store
    ensures var v := After(w, start, steps).value.store[path];
            && path == PathOf(w, v.key)
            && (IsStrong(Get(v.headers, "Etag")) ==> v.body == w.tagBody(v.key, Get(v.headers, "Etag")))
  {
    RunsKeepInv(w, start, steps);
    var s := After(w, start, steps).value;
    assert Filed(w, s.versions, path, s.store[path]);
    assert Sound(w, s.exchanges, s.clock, s.store[path]);
  }

  lemma AcceptedMatches(w: World, s: State, id: nat, headers: Header, body: string, signs: bool)
    requires w.Valid() && Inv(w, s) && Enabled(w, s, Answer(id, STATUS_OK, headers, body, signs))
    ensures var seen := s.flights[id].phase.seen;
            Current(seen, STATUS_OK, headers) ==> body == seen.value.body
  {
    hide PathOf, Owns, Answered, Filed, ServeSound, HistoryHolds;
    var f := s.flights[id];
    FlightIsSound(w, s, id);
    if Current(f.phase.seen, STATUS_OK, headers) {
      EntryIsSound(w, s, f.key, f.phase.seen.value);
      StrongMatchSameBody(w, f.key, f.phase.seen.value, headers, body);
    }
  }

  /** A 200 accepted as unchanged carries, byte for byte, the body seen at Head. */
  lemma AcceptedRepliesMatch(w: World, start: int, steps: seq<Step>, id: nat, headers: Header, body: string,
                             signs: bool)
    requires w.Valid() && After(w, start, steps).Some?
    requires Enabled(w, After(w, start, steps).value, Answer(id, STATUS_OK, headers, body, signs))
    ensures var seen := After(w, start, steps).value.flights[id].phase.seen;
            Current(seen, STATUS_OK, headers) ==> body == seen.value.body
  {
    RunsKeepInv(w, start, steps);
    AcceptedMatches(w, After(w, start, steps).value, id, headers, body, signs);
  }

  /** Staleness is bounded: if every write lands within `delay` of the reply that caused
      it, a body served fresh was carried or confirmed, for that very URL and Accept, by
      a reply at most cap + delay old, plus the clock errors of S3 and of the instance. */
  lemma StalenessIsBounded(w: World, start: int, steps: seq<Step>, delay: int, v: Serve)
    requires w.Valid() && After(w, start, steps).Some? && v in After(w, start, steps).value.serves
    requires forall x :: x in After(w, start, steps).value.versions ==> x.landedAt - x.cause.at <= delay
    ensures exists reply ::
              && reply in After(w, start, steps).value.exchanges
              && v.at - w.cap - delay - w.skew - w.drift < reply.at <= v.at
              && Vouches(reply, v.entry.body)
              && Admissible(v.request) && reply.key == KeyFor(v.request)
  {
    hide HistoryHolds, TagHolds;
    RunsKeepInv(w, start, steps);
    var s := After(w, start, steps).value;
    ServedSoundly(w, s, v);
    FreshIsYoung(w.parse, v.entry.headers, v.entry.storedAt, v.now, w.cap, KeyHeaders(v.entry.key));
    assert v.entry.cause in s.exchanges;
  }

  lemma ServedSoundly(w: World, s: State, v: Serve)
    requires Inv(w, s) && v in s.serves
    ensures ServeSound(w, s.versions, s.clock, v) && Sound(w, s.exchanges, s.clock, v.entry)
  {
    hide Sound, Filed, FlightSound, Answered, Verdict;
  }

  lemma FreshIsYoung(parse: DateParser, h: Header, storedAt: int, now: int, lifetimeCap: int, keyHeaders: seq<string>)
    requires lifetimeCap <= MAX_INT64
    requires Verdict(parse, h, storedAt, now, lifetimeCap, keyHeaders).isFresh
    ensures Max(now - storedAt, 0) < lifetimeCap
    ensures VaryOk(Values(h, "Vary"), keyHeaders)
  {
  }

  lemma Isolated(w: World, s: State, r: Response)
    requires w.Valid() && Inv(w, s) && r in s.responses
    ensures Answered(w, r)
    ensures r.path in s.store ==> s.store[r.path].sources == {KeyFor(r.request)}
  {
    assert Answered(w, r);
    if r.path in s.store {
      StoredForKey(w, s, r.request, KeyFor(r.request));
    }
  }

  /** Variants are isolated: every answer, to a leader or to a waiter, names the object of
      that request's own URL and joined Accept, and whatever is stored there, now or
      later, came only from exchanges with upstream for exactly those. */
  lemma VariantsAreIsolated(w: World, start: int, steps: seq<Step>, r: Response)
    requires w.Valid() && After(w, start, steps).Some? && r in After(w, start, steps).value.responses
    ensures var s := After(w, start, steps).value;
            && Answered(w, r)
            && (r.path in s.store ==> s.store[r.path].sources == {KeyFor(r.request)})
  {
    RunsKeepInv(w, start, steps);
    Isolated(w, After(w, start, steps).value, r);
  }

  /** A name that folds to Accept is looked up as Accept. */
  lemma AcceptSpelling(name: string)
    requires EqualFold("Accept", name)
    ensures CanonicalKey(name) == "Accept"
  {
    CanonicalOfLower(name, true);
    CanonicalOfLower("Accept", true);
    assert IsToken(name) by {
      forall i | 0 <= i < |name| ensures IsTokenChar(name[i]) {
        assert ToLower(name)[i] == LowerChar(name[i]) == ToLower("Accept")[i] == LowerChar("Accept"[i]);
      }
    }
    CanonicalKeeps("Accept", true);
  }

  /** Section 4.1 of RFC 9111: a request served fresh agrees with the request that stored
      the entry on every header its Vary names, except Accept-Encoding. */
  lemma VaryIsSound(w: World, start: int, steps: seq<Step>, v: Serve, i: nat, j: nat)
    requires w.Valid() && After(w, start, steps).Some? && v in After(w, start, steps).value.serves
    requires i < |Values(v.entry.headers, "Vary")|
    requires j < |Pieces(Plain, OUTSIDE, Values(v.entry.headers, "Vary")[i])|
    ensures var name := VaryName(Values(v.entry.headers, "Vary")[i], j);
            || name == "" || EqualFold(name, ACCEPT_ENCODING)
            || (name != "*" && FieldValue(v.request, name) == FieldValue(v.entry.uploader, name))
  {
    hide HistoryHolds, TagHolds;
    RunsKeepInv(w, start, steps);
    var s := After(w, start, steps).value;
    ServedSoundly(w, s, v);
    FreshIsYoung(w.parse, v.entry.headers, v.entry.storedAt, v.now, w.cap, KeyHeaders(v.entry.key));
    var line := Values(v.entry.headers, "Vary")[i];
    assert LineSatisfied(line, KeyHeaders(v.entry.key));
    var name := VaryName(line, j);
    assert NameSatisfied(name, KeyHeaders(v.entry.key));
    if name != "" && !EqualFold(name, ACCEPT_ENCODING) {
      AcceptSpelling(name);
      assert AcceptOf(v.request) == KeyFor(v.request).variant == AcceptOf(v.entry.uploader);
    }
  }

  predicate SameContent(v: Version, x: Version) {
    v.body == x.body && v.key == x.key
  }

  /** The bodies a copy leaves: those that were there, and nothing written at all when
      the object no longer holds the body seen at Head. */
  ghost predicate BodiesKept(w: World, s: State, id: nat, t: State) {
    && id in s.flights && s.flights[id].phase.Touching?
    && var path := PathOf(w, s.flights[id].key);
    && t.store.Keys == s.store.Keys
    && (forall p :: p in s.store ==> SameContent(t.store[p], s.store[p]))
    && (path in s.store && s.store[path].body != s.flights[id].phase.entry.body ==> t.store == s.store)
  }

  /** A touch never replaces a body, and one that raced an upload of another body writes
      nothing at all. */
  lemma CopiesKeepBodies(w: World, start: int, steps: seq<Step>, id: nat, stamp: int, etag: string, ok: bool,
                         signs: bool)
    requires w.Valid() && After(w, start, steps).Some?
    requires Enabled(w, After(w, start, steps).value, Copy(id, stamp, etag, ok, signs))
    ensures var s := After(w, start, steps).value;
            BodiesKept(w, s, id, Apply(w, s, Copy(id, stamp, etag, ok, signs)))
  {
    RunsKeepInv(w, start, steps);
    CopyKeepsBodies(w, After(w, start, steps).value, id, stamp, etag, ok, signs);
  }

  lemma CopyKeepsBodies(w: World, s: State, id: nat, stamp: int, etag: string, ok: bool, signs: bool)
    requires w.Valid() && Inv(w, s) && Enabled(w, s, Copy(id, stamp, etag, ok, signs))
    ensures BodiesKept(w, s, id, Apply(w, s, Copy(id, stamp, etag, ok, signs)))
  {
    hide Inv, PathOf, CopyIsSound, BodiesKept;
    FlightIsSound(w, s, id);
    CopySound(w, s, id, stamp, etag, ok, signs);
    var f := s.flights[id];
    if PathOf(w, f.key) in s.store {
      StoredKey(w, s, f.leader, f.key);
      BodiesDiffer(w, s, id);
    }
    CopyStepBodies(w, s, id, stamp, etag, ok, signs);
  }

  lemma CopyStepBodies(w: World, s: State, id: nat, stamp: int, etag: string, ok: bool, signs: bool)
    requires id in s.flights && s.flights[id].phase.Touching? && CopyIsSound(w, s, s.flights[id], stamp, etag)
    requires var f, path := s.flights[id], PathOf(w, s.flights[id].key);
             path in s.store ==>
               && s.store[path].key == f.key
               && (s.store[path].etag == f.phase.entry.etag ==> s.store[path].body == f.phase.entry.body)
    ensures BodiesKept(w, s, id, CopyStep(w, s, id, stamp, etag, ok, signs))
  {
    hide PathOf, Sound, Copied;
  }

  lemma StoredKey(w: World, s: State, r: Request, key: CacheKey)
    requires w.Valid() && Inv(w, s) && Owns(r, key) && PathOf(w, key) in s.store
    ensures s.store[PathOf(w, key)].key == key
  {
    hide Inv, Sound, PathOf, Owns;
    StoredForKey(w, s, r, key);
  }

  /** An object with another body than the one seen at Head has another ETag. */
  lemma BodiesDiffer(w: World, s: State, id: nat)
    requires w.Valid() && Inv(w, s) && id in s.flights && s.flights[id].phase.Touching?
    requires PathOf(w, s.flights[id].key) in s.store
    ensures var current, entry := s.store[PathOf(w, s.flights[id].key)], s.flights[id].phase.entry;
            current.etag == entry.etag ==> current.body == entry.body
  {
    if s.store[PathOf(w, s.flights[id].key)].etag == s.flights[id].phase.entry.etag {
      hide Inv, PathOf, Sound;
      TouchMeets(w, s, id);
    }
  }
}

/** What a revalidation may conclude and write: the strong comparison of entity tags,
    the touch decision, and how the gate fares across storage. */
module Revalidation {
  import opened GoText
  import opened Headers
  import opened Freshness
  import opened FreshnessLaws
  import opened Merging
  import opened Metadata

  const STATUS_OK := 200
  const STATUS_NOT_MODIFIED := 304

  /** Delimited by double quotes: a tag that promises byte identity. */
  predicate IsStrong(tag: string) {
    |tag| >= 2 && HasPrefix(tag, "\"") && HasSuffix(tag, "\"")
  }

  predicate EtagStrongMatch(cached: string, resp: string) {
    cached == resp && IsStrong(cached)
  }

  /** The reply says the cached content is current. Without a cached entry nothing does. */
  predicate UpstreamUnchanged(status: int, resp: Header, cached: Option<Header>) {
    || (status == STATUS_NOT_MODIFIED && cached.Some?)
    || (status == STATUS_OK
        && EtagStrongMatch(if cached.Some? then Get(cached.value, "Etag") else "", Get(resp, "Etag")))
  }

  /** The headers maybeTouch writes at `now`, if it writes at all. */
  function TouchHeaders(parse: DateParser, entry: Header, validating: Header, now: int, lifetimeCap: int,
                        keyHeaders: seq<string>): Option<Header> {
    var vet := Get(validating, "Etag");
    var merged := Merged(entry, validating);
    if vet != "" && !EtagStrongMatch(Get(entry, "Etag"), vet) then None
    else if !Verdict(parse, merged, now, now, lifetimeCap, keyHeaders).isFresh then None
    else Some(merged)
  }

  /** A touch never relabels: a strong tag it stores is the tag the entry already had. */
  lemma TouchKeepsTag(parse: DateParser, entry: Header, validating: Header, now: int, lifetimeCap: int,
                      keyHeaders: seq<string>)
    requires TouchHeaders(parse, entry, validating, now, lifetimeCap, keyHeaders).Some?
    ensures var tag := Get(Stored(TouchHeaders(parse, entry, validating, now, lifetimeCap, keyHeaders).value), "Etag");
            IsStrong(tag) ==> tag == Get(entry, "Etag")
  {
    TagIsOrdinary();
    MergedAt(entry, validating, "Etag");
    StoredAt(Merged(entry, validating), "Etag");
  }

  lemma TagIsOrdinary()
    ensures "Etag" !in BODY_FIELDS && "Etag" !in DELIVERY_FIELDS && "Etag" in ALLOWLIST
  {
  }

  /** Storage is transparent to the gate: headers written to S3 and read back get the
      same decision, at every time and under every cap. */
  lemma GateSeesThroughStorage(codec: Codec, prefixed: bool, h: Header, got: Metadata, back: Header, parse: DateParser,
                               storedAt: int, now: int, lifetimeCap: int, keyHeaders: seq<string>)
    requires codec.RoundTrips() && Canonical(h)
    requires ThroughS3(prefixed, ToMetadata(codec, h), got) && ReadsBack(codec, got, back)
    ensures Verdict(parse, back, storedAt, now, lifetimeCap, keyHeaders)
            == Verdict(parse, h, storedAt, now, lifetimeCap, keyHeaders)
  {
    StorageRoundTrip(codec, prefixed, h, got, back);
    StoredVerdict(parse, h, storedAt, now, lifetimeCap, keyHeaders);
  }

  lemma StoredVerdict(parse: DateParser, h: Header, storedAt: int, now: int, lifetimeCap: int, keyHeaders: seq<string>)
    ensures Verdict(parse, Stored(h), storedAt, now, lifetimeCap, keyHeaders)
            == Verdict(parse, h, storedAt, now, lifetimeCap, keyHeaders)
  {
    StoredValues(h, "Cache-Control");
    StoredValues(h, "Vary");
    StoredValues(h, "Expires");
    StoredValues(h, "Date");
    StoredValues(h, "Age");
    SameParse(parse, Stored(h), h, storedAt, now, lifetimeCap, keyHeaders);
  }

  lemma StoredValues(h: Header, name: string)
    requires name in ALLOWLIST
    ensures Values(Stored(h), name) == Values(h, name)
  {
    StoredAt(h, name);
  }
}

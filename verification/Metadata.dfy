/** Response headers as S3 object metadata: the allowlist, the value encoding, and the
    way back through S3's lower-cased keys. */
module Metadata {
  import opened GoText
  import opened Headers
  import opened Merging

  type Metadata = map<string, string>

  const ALLOWLIST: set<string> := {
    "Age", "Cache-Control", "Content-Encoding", "Content-Length", "Content-Type", "Date",
    "Docker-Content-Digest", "Etag", "Expires", "Last-Modified", "Vary"
  }

  const META_PREFIX := "x-amz-meta-"

  /** The JSON codec for lists of strings, of which only the round trip is used. */
  datatype Codec = Codec(encode: seq<string> -> string, decode: string -> Option<seq<string>>) {
    ghost predicate RoundTrips() {
      forall lines :: decode(encode(lines)) == Some(lines)
    }
  }

  /** What headerToMetadata computes. */
  function ToMetadata(codec: Codec, h: Header): Metadata {
    map k | k in h && CanonicalKey(k) in ALLOWLIST :: codec.encode(h[k])
  }

  method HeaderToMetadata(codec: Codec, h: Header) returns (metadata: Metadata)
    ensures metadata == ToMetadata(codec, h)
  {
    metadata := map[];
    var left := h.Keys;
    while left != {}
      invariant left <= h.Keys
      invariant metadata == map k | k in h && k !in left && CanonicalKey(k) in ALLOWLIST :: codec.encode(h[k])
    {
      var k :| k in left;
      left := left - {k};
      if CanonicalKey(k) in ALLOWLIST {
        metadata := metadata[k := codec.encode(h[k])];
      }
    }
  }

  /** The header name a metadata key is read back under. */
  function ReadName(key: string): string {
    CanonicalKey(TrimPrefix(key, META_PREFIX))
  }

  predicate DistinctNames(metadata: Metadata) {
    forall j, k :: j in metadata && k in metadata && ReadName(j) == ReadName(k) ==> j == k
  }

  ghost predicate Decodable(codec: Codec, metadata: Metadata) {
    forall k :: k in metadata ==> codec.decode(metadata[k]).Some?
  }

  /** `h` holds, under each name read back, the lines decoded for it; an empty list
      leaves no field behind. */
  ghost predicate ReadsBack(codec: Codec, metadata: Metadata, h: Header) {
    && (forall k :: k in metadata ==> codec.decode(metadata[k]).Some?
                                      && Values(h, ReadName(k)) == codec.decode(metadata[k]).value)
    && (forall name :: name in h ==> h[name] != [] && exists k :: k in metadata && ReadName(k) == name)
  }

  /** http.Header.Add. */
  function Add(h: Header, name: string, line: string): Header {
    h[name := Values(h, name) + [line]]
  }

  /** The inner loop: adds the lines decoded for one key. */
  method AddAll(before: Header, name: string, lines: seq<string>) returns (h: Header)
    ensures Values(h, name) == Values(before, name) + lines
    ensures h - {name} == before - {name}
    ensures name in h ==> lines != [] || name in before
    ensures name in h && (name in before ==> before[name] != []) ==> h[name] != []
  {
    h := before;
    for i := 0 to |lines|
      invariant Values(h, name) == Values(before, name) + lines[..i]
      invariant i == 0 ==> h == before
      invariant h - {name} == before - {name}
    {
      h := Add(h, name, lines[i]);
      assert lines[..i + 1] == lines[..i] + [lines[i]];
    }
    assert lines[..|lines|] == lines;
  }

  /** The lines that the keys of `order` read back under `name`. */
  function LinesRead(codec: Codec, metadata: Metadata, order: seq<string>, name: string): seq<string> {
    if order == [] then []
    else
      var k := order[|order| - 1];
      LinesRead(codec, metadata, order[..|order| - 1], name)
      + if k in metadata && ReadName(k) == name && codec.decode(metadata[k]).Some?
        then codec.decode(metadata[k]).value else []
  }

  /** `h` is what reading the keys in this order, each once, makes of the metadata. */
  ghost predicate ReadInOrder(codec: Codec, metadata: Metadata, order: seq<string>, h: Header) {
    && (forall i, j :: 0 <= i < j < |order| ==> order[i] != order[j])
    && (forall name :: Values(h, name) == LinesRead(codec, metadata, order, name))
    && (forall name :: name in h ==> h[name] != [])
  }

  lemma ReadNextInOrder(codec: Codec, metadata: Metadata, order: seq<string>, k: string, before: Header, after: Header)
    requires ReadInOrder(codec, metadata, order, before) && k !in order
    requires k in metadata && codec.decode(metadata[k]).Some?
    requires after - {ReadName(k)} == before - {ReadName(k)}
    requires Values(after, ReadName(k)) == Values(before, ReadName(k)) + codec.decode(metadata[k]).value
    requires ReadName(k) in after ==> after[ReadName(k)] != []
    ensures ReadInOrder(codec, metadata, order + [k], after)
  {
    var next := order + [k];
    assert next[..|next| - 1] == order;
    forall name
      ensures Values(after, name) == LinesRead(codec, metadata, next, name) && (name in after ==> after[name] != [])
    {
      if name != ReadName(k) {
        assert name in after <==> name in after - {ReadName(k)};
        assert name in before <==> name in before - {ReadName(k)};
        assert name in after ==> (after - {ReadName(k)})[name] == after[name] == before[name];
        assert LinesRead(codec, metadata, order, name) + [] == LinesRead(codec, metadata, order, name);
      }
    }
  }

  /** metadataToHeader fails exactly on a value that is not a JSON string list. Keys that read
      back under one name have their lines joined, in whatever order the map is walked. */
  method MetadataToHeader(codec: Codec, metadata: Metadata) returns (r: Option<Header>)
    ensures r.Some? <==> Decodable(codec, metadata)
    ensures r.Some? ==> exists order: seq<string> ::
                          (forall k :: k in order <==> k in metadata) && ReadInOrder(codec, metadata, order, r.value)
    ensures r.Some? && DistinctNames(metadata) ==> ReadsBack(codec, metadata, r.value)
  {
    var headers: Header := map[];
    var left := metadata.Keys;
    ghost var done: Metadata := map[];
    ghost var order: seq<string> := [];
    while left != {}
      invariant left <= metadata.Keys && done.Keys == metadata.Keys - left
      invariant forall k :: k in done ==> done[k] == metadata[k]
      invariant Decodable(codec, done)
      invariant DistinctNames(metadata) ==> ReadsBack(codec, done, headers)
      invariant (forall k :: k in order <==> k in done) && ReadInOrder(codec, metadata, order, headers)
    {
      var k :| k in left;
      left := left - {k};
      var lines := codec.decode(metadata[k]);
      if lines.None? {
        return None;
      }
      ghost var before := headers;
      headers := AddAll(headers, ReadName(k), lines.value);
      ReadNextInOrder(codec, metadata, order, k, before, headers);
      order := order + [k];
      if DistinctNames(metadata) {
        ReadOneMore(codec, done, k, metadata[k], before, headers);
      }
      done := done[k := metadata[k]];
    }
    assert done == metadata;
    return Some(headers);
  }

  lemma ReadOneMore(codec: Codec, done: Metadata, k: string, value: string, before: Header, after: Header)
    requires ReadsBack(codec, done, before) && k !in done && codec.decode(value).Some?
    requires forall j :: j in done ==> ReadName(j) != ReadName(k)
    requires after - {ReadName(k)} == before - {ReadName(k)}
    requires Values(after, ReadName(k)) == Values(before, ReadName(k)) + codec.decode(value).value
    requires ReadName(k) in after ==> after[ReadName(k)] != []
    ensures ReadsBack(codec, done[k := value], after)
  {
    var name, next := ReadName(k), done[k := value];
    assert name !in before;
    forall n | n != name ensures (n in after <==> n in before) && (n in after ==> after[n] == before[n]) {
      assert n in after <==> n in after - {name};
      assert n in before <==> n in before - {name};
      if n in after {
        assert (after - {name})[n] == after[n] && (before - {name})[n] == before[n];
      }
    }
    forall n | n in after ensures after[n] != [] && exists j :: j in next && ReadName(j) == n {
      if n == name {
        assert k in next && ReadName(k) == n;
      } else {
        var j :| j in done && ReadName(j) == n;
        assert j in next;
      }
    }
  }

  // ---------------------------------------------------------------- the round trip

  /** The header set that comes back: allowlisted, non-empty fields. */
  function Stored(h: Header): Header {
    map name | name in h && name in ALLOWLIST && h[name] != [] :: h[name]
  }

  /** The fields that survive storage, one by one. */
  lemma WhatSurvives(h: Header, name: string)
    ensures name in Stored(h) <==>
            && name in h && h[name] != []
            && (|| name == "Age" || name == "Cache-Control" || name == "Content-Encoding" || name == "Content-Length"
                || name == "Content-Type" || name == "Date" || name == "Docker-Content-Digest" || name == "Etag"
                || name == "Expires" || name == "Last-Modified" || name == "Vary")
    ensures name in Stored(h) ==> Stored(h)[name] == h[name]
  {
  }

  /** S3 lower-cases metadata keys, and hands them back with or without its own prefix. */
  function S3Key(prefixed: bool, key: string): string {
    (if prefixed then META_PREFIX else "") + ToLower(key)
  }

  ghost predicate ThroughS3(prefixed: bool, put: Metadata, got: Metadata) {
    && (forall k :: k in put ==> S3Key(prefixed, k) in got && got[S3Key(prefixed, k)] == put[k])
    && (forall g :: g in got ==> exists k :: k in put && S3Key(prefixed, k) == g)
  }

  lemma AllowedIsToken(name: string)
    requires name in ALLOWLIST
    ensures IsToken(name)
  {
  }

  lemma AllowedInitial(name: string)
    requires name in ALLOWLIST
    ensures name != "" && LowerChar(name[0]) != 'x'
  {
  }

  lemma ReadNameOf(prefixed: bool, name: string)
    requires IsToken(name) && name != "" && LowerChar(name[0]) != 'x' && CanonicalKey(name) == name
    ensures ReadName(S3Key(prefixed, name)) == name
  {
    CanonicalUndoesLower(name);
    var lower := ToLower(name);
    assert lower[0] == LowerChar(name[0]);
    assert "" + lower == lower;
    assert !(META_PREFIX <= lower) by {
      assert META_PREFIX[0] == 'x';
    }
    assert (META_PREFIX + lower)[|META_PREFIX|..] == lower;
  }

  /** Each field written comes back under its own name. */
  lemma KeysReadBack(codec: Codec, prefixed: bool, h: Header, k: string)
    requires Canonical(h) && k in ToMetadata(codec, h)
    ensures k in h && k in ALLOWLIST && ReadName(S3Key(prefixed, k)) == k
  {
    assert CanonicalKey(k) == k;
    AllowedIsToken(k);
    AllowedInitial(k);
    ReadNameOf(prefixed, k);
  }

  /** Whatever is read back from S3 is `Stored` of what was written, field by field. */
  lemma StorageRoundTrip(codec: Codec, prefixed: bool, h: Header, got: Metadata, back: Header)
    requires codec.RoundTrips() && Canonical(h)
    requires ThroughS3(prefixed, ToMetadata(codec, h), got)
    ensures Decodable(codec, got) && DistinctNames(got)
    ensures ReadsBack(codec, got, back) ==> back == Stored(h)
  {
    var put := ToMetadata(codec, h);
    forall k | k in put ensures ReadName(S3Key(prefixed, k)) == k {
      KeysReadBack(codec, prefixed, h, k);
    }
    forall j, k | j in got && k in got && ReadName(j) == ReadName(k) ensures j == k {
      var a :| a in put && S3Key(prefixed, a) == j;
      var b :| b in put && S3Key(prefixed, b) == k;
    }
    forall g | g in got ensures codec.decode(got[g]).Some? {
      var k :| k in put && S3Key(prefixed, k) == g;
      assert put[k] == codec.encode(h[k]);
    }
    if ReadsBack(codec, got, back) {
      forall name ensures Lookup(back, name) == Lookup(Stored(h), name) {
        ReadFieldBack(codec, prefixed, h, got, back, name);
      }
      SameHeader(back, Stored(h));
    }
  }

  lemma ReadFieldBack(codec: Codec, prefixed: bool, h: Header, got: Metadata, back: Header, name: string)
    requires codec.RoundTrips() && Canonical(h)
    requires ThroughS3(prefixed, ToMetadata(codec, h), got)
    requires ReadsBack(codec, got, back)
    ensures Lookup(back, name) == Lookup(Stored(h), name)
  {
    var put := ToMetadata(codec, h);
    if name in h && name in ALLOWLIST {
      assert CanonicalKey(name) == name;
      assert name in put;
      KeysReadBack(codec, prefixed, h, name);
      var g := S3Key(prefixed, name);
      assert g in got && got[g] == codec.encode(h[name]);
      assert Values(back, name) == h[name];
    } else if name in back {
      var g :| g in got && ReadName(g) == name;
      var k :| k in put && S3Key(prefixed, k) == g;
      KeysReadBack(codec, prefixed, h, k);
    }
  }

  /** A validating reply blanks a stored field by naming it with no lines at all. */
  ghost predicate Blanks(stored: Header, validating: Header) {
    exists name :: name in Stored(stored) && name in validating && validating[name] == []
                   && name !in BODY_FIELDS && name !in DELIVERY_FIELDS
  }

  /** Filtering by the allowlist commutes with the merge, unless a field is blanked. */
  lemma StoredCommutes(stored: Header, validating: Header)
    ensures Stored(Merged(stored, validating)) == Merged(Stored(stored), Stored(validating))
            <==> !Blanks(stored, validating)
  {
    var l, r := Stored(Merged(stored, validating)), Merged(Stored(stored), Stored(validating));
    forall name
      ensures Lookup(l, name) == Lookup(r, name) <==>
              !(name in Stored(stored) && name in validating && validating[name] == []
                && name !in BODY_FIELDS && name !in DELIVERY_FIELDS)
    {
      BodyNotDelivery(name);
      MergedAt(stored, validating, name);
      MergedAt(Stored(stored), Stored(validating), name);
      StoredAt(stored, name);
      StoredAt(validating, name);
      StoredAt(Merged(stored, validating), name);
    }
    if !Blanks(stored, validating) {
      SameHeader(l, r);
    }
  }

  lemma StoredAt(h: Header, name: string)
    ensures Lookup(Stored(h), name) == if name in h && name in ALLOWLIST && h[name] != [] then Some(h[name]) else None
  {
  }
}

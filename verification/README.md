# Verified model of the caching proxy

A Dafny model of an HTTP caching proxy that runs as any number of instances over one S3
bucket, with proofs of what its cache protocol, freshness gate, object keys and OCI
authentication transport guarantee. `dafny verify dfyconfig.toml` checks all of it.

## What is modelled

**The cache protocol** (`Protocol.dfy`, `CacheRuns.dfy`, `CacheAnswers.dfy`, `Server.dfy`). `CacheProtocol` is a transition
system. Its state holds a clock, the shared bucket, every request in flight on every
instance, and a history of upstream exchanges, stored versions, fresh serves and answers.
One step is one thing that happens without interruption: a request arrives or joins a
flight, a Head, the freshness decision, an upstream answer or failure, the touch decision,
a conditional copy, an upload. Each instance reads its own clock, and presigning may fail
wherever an answer is given. Any interleaving of these steps, from an empty bucket, is a
run (`After`). The only guards between instances are the ones in the code: the ETag
condition on the copy and the strong comparison before a touch. Every stored version carries
the history of its headers: the upload they began with and the replies merged since.
`CacheRuns` proves more of what every run guarantees, and gives runs that show what a race
can do; `CacheAnswers` says what each answer and each confirmation leads to, in terms of
statuses and header lines, and that concurrent callers share a flight. `Server` writes
`fetchAndCache` and `maybeTouch` in the order of their statements over a mutable bucket and
proves that they take the machine's steps.

**The freshness gate** (`Freshness.dfy`, `FreshnessLaws.dfy`, `Spelling.dfy`). The comma and quote splitter,
the Cache-Control and Vary loops, the digit loop, saturating subtraction and wrapping int64
sums as written; and beside them a predicate `Fresh` over unbounded integers that says when
an entry is fresh without following the code. `Spelling` prints Cache-Control and Vary lines
in every spelling, byte by byte, and says what the gate makes of them.

**Merging, storing and revalidating** (`Merging.dfy`, `Metadata.dfy`, `Revalidation.dfy`,
`Touches.dfy`). The in-place merge of section 4.3.4 of RFC 9111, object metadata, the touch
decision, and runs of revalidations as `maybeTouch` makes them: a reply is written only when
the merged headers pass the gate, and what is written passes through storage.

**Keys** (`Keys.dfy`). The singleflight key, the S3 path with an explicit decoder, and the
copy-source escaper with an S3-style decoder.

**OCI authentication** (`OciChallenge.dfy`, `OciPrinting.dfy`, `OciTokens.dfy`,
`OciTransport.dfy`, `OciSharing.dfy`, `OciSweeps.dfy`, `OciSession.dfy`). The challenge parser
and printed challenges in every spelling, the token cache and its expiry
arithmetic, repository extraction, and a second transition system: concurrent `RoundTrip`
calls over the two expiring maps and the deduplicated fetches, with background sweeps.
`OciSession` writes `RoundTrip`, `discoveryPath` and `getOrFetch` in the order of their
statements and proves that they take that machine's steps.

`GoText.dfy` and `Headers.dfy` hold the string and header functions the code relies on.

## Conventions and assumptions

- Strings are sequences of bytes; case folding and trimming are ASCII. Instants and
  durations are integers of nanoseconds, instants counted from Go's zero time, so that a
  `storedAt` of zero is the zero time. `int64` wrap-around and the saturation of
  `time.Time.Sub` are written out.
- `http.ParseTime` is an arbitrary partial function and the JSON string-list codec an
  arbitrary pair with a round trip. The `net/url` escapers are per-byte escapers with
  keep-sets; every key theorem holds for all keep-sets that satisfy `Escapers.Valid`, and
  `GoEscapersValid` shows that Go's do.
- `singleflight` follows its contract: one execution per key and instance at a time, its
  result shared by all who joined.
- An object ETag determines the body. Upstream uses a strong tag for one body per URL and
  Accept. Clocks err: an instance reads its own up to `drift` off, either way, and S3 stamps
  objects at most `skew` ahead; nothing bounds how late it stamps. A failed Put or copy may or
  may not have been stored.
- Queries contain no NUL in the protocol runs (`net/url` and the HTTP server refuse them),
  and challenges contain none in the transport runs.
- S3 returns metadata keys in lower case, either all with the `x-amz-meta-` prefix or all without.

## Results that are conditional

- **Cap.** The machine verdict equals the ideal one for every entry exactly when the cap is
  at most MaxInt64 − 4611686018 s (`SafeCapIsExact`). Above it the sum of residence time and
  Age wraps, and an entry may be refused too early or, one nanosecond further up, served
  although stale.
- **NUL.** The singleflight key separates the variant by a NUL, and so does the fetch key of
  the token transport. With a NUL inside a query or a challenge two different keys coincide
  (`NulQueryCollides`, `NulCollides`); without, never.
- **Challenges.** The comment at oci_auth.go:27-30 calls realm, service and scope required; the
  code requires the realm alone, and the model follows the code. The parser reads `\"` as a quote but leaves other backslashes as they are.
  A value rendered as a quoted string comes back with each backslash doubled, hence
  unchanged exactly when it has none (`ChallengeRoundTrip`).
- **Token lifetimes.** A cached token can outlive its declared expiry exactly when
  `expires_in` is below 5 and not zero (negative included); it can be handed out with under
  30 seconds left exactly when it is below 31 and not zero (zero stands for 60).
- **Skipped writes.** `maybeTouch` does not write a reply whose merged headers fail the gate,
  on the ground that this changes no future decision (server.go:302-306). It changes none until
  the next write (`SkipIsSilentAtFirst`). From then on the skipped reply is forgotten: what is
  stored is the merge of all replies exactly when every stored field of the skipped one was
  held already or said again (`SkipForgets`), and the decisions are the same exactly when both
  merges grant the same time (`SkipDecides`). A 304 with `Vary: *` or `no-cache` followed by a
  silent one re-arms an entry that it had forbidden to use (`SkipRearms`).
- **Racing touches.** The ETag condition on the copy is a condition on the body
  (s3_cache.go:93-97 speaks of old validators too). If another instance uploaded the same
  bytes meanwhile, or touched the object without changing its ETag, the copy is accepted and
  writes the headers seen at Head, refreshed. It amounts to a refresh of the object's own
  headers exactly when the two agree on every field the reply leaves alone
  (`CopiesExtendWhatTheySaw`); `TouchCanRollBack` is a run in which nothing of the newer
  headers is left. Bodies and strong tags stay right throughout.
- **Joining lines.** Splitting two lines joined by a comma gives the pieces of both exactly
  when no quote is left open in the first; then the decision is unchanged. With an open quote
  the joined line can be fresh where the two lines forbid it (`OpenQuoteFreshens`).
- **Merge.** If a validating reply spells one field in two ways, the merge result depends on
  map order; it is determined exactly when all spellings carry the same lines. Canonical
  headers are never ambiguous.
- **Filtering.** Filtering to the stored fields commutes with merging unless the reply brings
  a stored field with an empty list of lines (`StoredCommutes`); no parsed reply does.
- **Copy source.** An escaper that kept `+` would name another object for every key with a
  `+` in it (`KeepingPlusMisnames`); the one in use does not keep it.

## Model

| member | source | states |
|---|---|---|
| CacheProtocol.RunsKeepInv | server.go:106-210 | In every state of every run of any number of instances, every stored version is sound, every flight holds only entries and replies of its own key, and every serve and answer is right |
| CacheProtocol.LabelsAreSound | server.go:222-246 | Whenever a stored object's ETag is a strong tag, its body is the one upstream issues with that tag for the URL and Accept the object stands for |
| CacheProtocol.AcceptedRepliesMatch | server.go:177-185 | A 200 accepted as unchanged carries, byte for byte, the body seen at Head, whatever other instances did in between |
| CacheProtocol.StalenessIsBounded | server.go:119-137 | If writes land within `delay` of the reply that caused them, a body served fresh at t was carried or confirmed, for that request's own URL and Accept, by a reply later than t − cap − delay − skew − drift, whichever instance served it and whatever its clock read within the drift |
| CacheProtocol.VariantsAreIsolated | server.go:71-101 | Every redirect, a singleflight waiter's included, names the object of that request's own URL and joined Accept, and what is stored there came only from exchanges for exactly those |
| CacheProtocol.VaryIsSound | internal/freshness/freshness.go:201-216 | Section 4.1 of RFC 9111: a request served fresh agrees with the request that stored the entry on every header its Vary names, Accept-Encoding excepted |
| CacheProtocol.CopiesKeepBodies | s3_cache.go:98-139 | A touch never replaces any body, and one that raced an upload of another body writes nothing |
| CacheRuns.HeadersHaveHistory | s3_cache.go:93-139 | Every version ever stored has the headers of one upload of its own body for its own key, merged with replies that confirmed this very body and each passed the gate, and the Content-Type of that upload |
| CacheRuns.CopiesExtendWhatTheySaw | s3_cache.go:93-139 | An accepted copy refreshes the headers of the object it replaces iff these agree with the ones seen at Head on every field the reply leaves alone, and extends the object's history iff it is still the one seen |
| CacheRuns.TouchCanRollBack | s3_cache.go:93-139 | A run, for any headers of the three replies that do not match by tag: after a re-upload of the same bytes with newer headers an older touch lands and nothing of the newer headers is left |
| CacheRuns.ForbiddingHeadersRolledBack | server.go:307-334 | In such a run headers that forbid unvalidated use, to which the gate does not answer, give way to ones to which it does |
| CacheRuns.ServedBeforeExpires | internal/freshness/freshness.go:237-255 | In every run an entry whose lifetime came from its upload's Expires alone is served only while the instance reads a time before Expires less the Age of the last reply merged |
| CacheRuns.AnswersAreEarned | server.go:106-210 | In every run each answer, a waiter's included, belongs to a flight that asked upstream, or is its flight's fresh hit |
| CacheAnswers.AnswerDecides | server.go:171-210 | Every answer writes nothing at first and leads to a confirmation iff something was seen and it is a 304 or a 200 with the same double-quoted tag, else to an upload iff it is a 200, else to the end, served iff the policy tolerates the status |
| CacheAnswers.NotModifiedRedirects | server.go:177-185 | In every run a 304 to a flight that saw an entry leads to nothing but a redirect to the request's own path, whatever tags it carries and whatever else happens, if presigning works |
| CacheAnswers.ConfirmationDecides | server.go:307-331 | A confirmation goes on to a copy iff the flag is on, the reply has no tag or the entry's own strong one, and the merged headers are ideally fresh; else the flight ends with its redirect |
| CacheAnswers.TouchedExactly | server.go:307-334 | A landed confirmation stores the merged headers iff those two conditions hold, after any run of confirmations; otherwise the headers stay as they were |
| CacheAnswers.SameTagRearms | server.go:320-331 | A run in which a 304 with the entry's own strong tag makes the gate answer again for an entry that was not fresh |
| CacheAnswers.CallersShare | server.go:71-81 | In every run an instance never has two unfinished flights with one key, and when a flight ends with a redirect its leader and every waiter have been given it |
| CacheAnswers.VaryOfKey | server.go:369-375 | The gate tolerates a Vary line for a key iff it names nothing but Accept-Encoding and, when the key has a variant, Accept, in any letter case and with any blanks |
| CacheRuns.KillSwitch | server.go:119-137 | With the flag off, or a cap of zero or less, nothing is served on the word of the gate and every answer belongs to a flight that asked upstream |
| CacheRuns.FreshHitIsServed | server.go:119-137 | From any reachable state a stored object that the gate finds fresh can be served at once, with no upstream exchange and no write |
| CacheProtocol.StrongMatchSameBody | server.go:236-246 | Under tag consistency a strong match of two tags means equal bodies |
| CacheProtocol.JoinersShareKey | server.go:71-81 | A request that singleflight lets join a flight has the very cache key of its leader |
| CacheProtocol.CopySound | s3_cache.go:98-139 | A copy that S3 accepts under the ETag condition stores a sound version with the body that was there, which is the one seen at Head |
| CacheProtocol.HistoryExtends | server.go:324-331 | Its history is that of the entry seen at Head and one confirming reply more, and it keeps the upload's Content-Type |
| CacheProtocol.ContentTypeResupplied | s3_cache.go:113-121 | A touch gives S3 the Content-Type that the entry's headers have |
| CacheProtocol.TouchedTagHolds | server.go:307-334 | The headers a touch writes label the entry's body correctly, if the entry's own did |
| CacheProtocol.UploadSound | s3_cache.go:186-216 | What Put stores is sound: own key, body of the reply, tag and stamp |
| CacheProtocol.StoredForKey | server.go:338-347 | What a Head finds was stored for the very key asked for |
| Server.FetchAndCache | server.go:106-210 | The statements of fetchAndCache take the machine's steps with none in between; and outright: a fresh entry is served with nothing written, otherwise the call concludes by the answer's status and tags as below |
| Server.AskUpstream | server.go:142-210 | By status and Etag lines alone: silence or a failure is served from what was seen iff the policy says so; a 304 to what was seen, or a 200 with its very strong tag, keeps every body and is served; any other 200 replaces the object; nothing is served that cannot be presigned |
| Server.MaybeTouch | server.go:307-334 | A touch is written iff the flag is on, the reply has no tag or the entry's own strong one, the merged headers are ideally fresh from now, S3 works and the object has the ETag seen at Head and is small enough; it changes headers, Content-Type, stamp and ETag of that object alone |
| Server.Bucket.Head | s3_cache.go:49-83 | The stored object, none if there is none |
| Server.Bucket.Put | s3_cache.go:186-216 | Replaces the object at its path and no other |
| Server.Bucket.Touch | s3_cache.go:98-139 | Replaces headers, Content-Type and stamp iff the object still has the ETag seen at Head and is within the copy limit; keeps body and all other objects |
| Freshness.Evaluate | internal/freshness/freshness.go:63-113 | The branches return the specified verdict, reason included |
| Freshness.ParseCacheControl | internal/freshness/freshness.go:133-170 | The occurrence map yields the directives of all lines in order; Spelling.LineMeans says what these are |
| Spelling.PieceMeans | internal/freshness/freshness.go:137-146 | A piece yields the one directive it spells: the name with its letters folded, the value exactly, no blanks around either, and an empty value without an equals sign |
| Spelling.LineMeans | internal/freshness/freshness.go:133-147 | A line yields the directives it spells, in order |
| Spelling.SpellingIrrelevant | internal/freshness/freshness.go:133-147 | Changing the case of directive names, or blanks on either side of names and values, among any other lines, leaves the whole decision as it was |
| Spelling.AnyNoCacheRefuses | internal/freshness/freshness.go:133-170 | A line with any spelling of no-cache, with or without a value, among any others, refuses for that reason |
| Spelling.MaxAgeWindow | internal/freshness/freshness.go:92-110 | An entry whose one Cache-Control line spells max-age=N is fresh for exactly N seconds, or the cap if less |
| Spelling.VarySpelled | internal/freshness/freshness.go:201-216 | A Vary line is satisfied iff each name on it, whatever its case and blanks, is empty, Accept-Encoding, or a key header and not an asterisk |
| Freshness.SplitQuoted | internal/freshness/freshness.go:174-192 | The byte loop cuts at exactly the commas outside quotes |
| Freshness.VarySatisfied | internal/freshness/freshness.go:201-216 | True iff every name on every line is empty, Accept-Encoding or a key header, and none is `*` |
| Freshness.ParseDeltaSeconds | internal/freshness/freshness.go:276-301 | The digit loop accepts exactly the digit strings worth at most the limit and never overflows |
| Freshness.ParsedDelta | internal/freshness/freshness.go:276-301 | Accepted iff some in-range number is what the digits denote, which is then the value |
| FreshnessLaws.VerdictIsFresh | internal/freshness/freshness.go:63-113 | For every header, stamp and clock, and any cap up to the exact bound: fresh iff stored, not no-cache, Vary satisfied, a lifetime declared, a valid Age, and both inequalities hold over unbounded integers |
| FreshnessLaws.SafeCapIsExact | internal/freshness/freshness.go:92-110 | A cap is safe for all entries iff it is at most MaxInt64 minus the largest accepted Age |
| FreshnessLaws.UnsafeCapServes | internal/freshness/freshness.go:92-110 | For any larger cap (by more than one nanosecond) a concrete stale entry is served |
| FreshnessLaws.UnsafeCapRefuses | internal/freshness/freshness.go:92-110 | For any larger cap a concrete fresh entry is refused |
| FreshnessLaws.FreshWindow | internal/freshness/freshness.go:92-110 | An eligible entry is fresh exactly on [storedAt, storedAt + min(lifetime − Age, cap)), with earlier clocks read as storedAt |
| FreshnessLaws.VerdictExplained | internal/freshness/freshness.go:63-113 | The reason is that of the first ideal condition that fails, in order, and the figures are the resident time, the age with the time on arrival, and the lifetime cut off at the ends of int64 |
| FreshnessLaws.WeighExact | internal/freshness/freshness.go:92-110 | The saturating and wrapping comparison equals the two unbounded inequalities |
| FreshnessLaws.LifetimeDeclared | internal/freshness/freshness.go:224-256 | Section 5.2.2.10 of RFC 9111: the machine lifetime is the declared one, s-maxage before max-age before Expires, with no fall-through on duplicates or garbage; at most one is declared |
| FreshnessLaws.AgeArrived | internal/freshness/freshness.go:260-271 | The Age is accepted iff absent or a single valid delta, and is its value |
| FreshnessLaws.OnceDeltaParsed | internal/freshness/freshness.go:133-170 | A directive is usable iff it occurs once with a valid argument, and counts as present iff it occurs at all |
| FreshnessLaws.RepeatNeverFreshens | internal/freshness/freshness.go:133-170 | Repeating a directive already present, anywhere, leaves the decision as it was or makes it not fresh |
| FreshnessLaws.JoiningCacheControl | internal/freshness/freshness.go:133-147 | Section 5.3 of RFC 9110: joining two Cache-Control lines leaves the whole decision unchanged if the first has balanced quotes |
| FreshnessLaws.OpenQuoteHides | internal/freshness/freshness.go:174-192 | If the first ends in an open quote and the second has none, the two lines get the decision of both and the joined line that of the first without the second |
| FreshnessLaws.OpenQuoteFreshens | internal/freshness/freshness.go:174-192 | An input: of any entry fresh by its Expires, two lines that forbid the use, and joined allow it |
| FreshnessLaws.JoiningVary | internal/freshness/freshness.go:201-216 | Joining two Vary lines never changes the decision |
| Commas.SplitAtComma | internal/freshness/freshness.go:174-192 | Splitting a, comma, b gives the pieces of a then those of b iff a leaves no quote open |
| Commas.PiecesJoin | internal/freshness/freshness.go:174-192 | The pieces joined by commas are the input: nothing is lost or invented |
| Commas.OpenAfterOdd | internal/freshness/freshness.go:174-192 | A quote is open exactly after an odd number of marks: backslashes protect nothing here |
| Commas.EscapesIrrelevant | oci_auth.go:124-170 | Without backslashes the two quote-aware splitters cut alike |
| Merging.Merge | internal/freshness/merge.go:20-39 | Whatever the map order, each field ends with lines of a spelling the reply brought, else the stored ones; body fields never change; Age and Date never survive from the entry |
| Merging.OrderIrrelevant | internal/freshness/merge.go:20-39 | The result is unique iff all spellings of a field agree; on canonical headers it is the merge function |
| Merging.MergeAssociative | internal/freshness/merge.go:20-46 | Merging is associative and idempotent |
| Touches.RunIsMerges | server.go:307-334 | A run of revalidations, each written or not as maybeTouch decides, stores the merge of the uploaded headers with exactly the replies that were written |
| Touches.RunIsOneReply | server.go:307-334 | Which is one merge with one combined reply |
| Touches.FieldsAfterRun | internal/freshness/merge.go:41-46 | After such a run body fields are those of the upload, Age and Date those of the last reply written |
| Touches.OtherFieldAfterRun | internal/freshness/merge.go:20-39 | Every other stored field is that of the last written reply that had it, else of the upload |
| Touches.SkipForgets | server.go:326-329 | After a later write, what is stored is the merge of all replies, a skipped one included, iff every stored field of that one was held already or said again |
| Touches.SkipDecides | server.go:302-306 | The decisions are then the same at all times iff merging the skipped reply too would grant the same time |
| Touches.SameDecisionAfterSkip | server.go:302-306 | The whole decision is the same if the fields of the skipped reply that the gate reads were held already or said again |
| Touches.SkipIsSilentAtFirst | server.go:302-306 | Until something is written, neither the entry nor what was not written is fresh |
| Touches.SkipRearms | server.go:302-306 | A reply that forbids unvalidated use is skipped and a silent one re-arms the entry, which is fresh; with both merged it never would be |
| Touches.MergedAlike | internal/freshness/merge.go:20-39 | One reply merged into two entries stores the same iff they agree on every field it retains |
| Metadata.HeaderToMetadata | s3_metadata.go:13-30 | The loop keeps exactly the allowed fields, encoded |
| Metadata.MetadataToHeader | s3_metadata.go:59-75 | Fails iff some value does not decode; otherwise every field holds the decoded lines of all keys read back under its name, in the order the map was walked, and of its one key where names are distinct |
| Metadata.AddAll | s3_metadata.go:59-75 | Appends the lines to one field and touches no other |
| Metadata.StorageRoundTrip | s3_metadata.go:13-75 | Through S3's key lowercasing and prefixing, reading back gives exactly the allowed, non-blank fields of the header |
| Metadata.StoredCommutes | s3_metadata.go:42-54 | Filtering commutes with merging iff the reply blanks no allowed field |
| Metadata.WhatSurvives | s3_metadata.go:42-54 | The fields that survive storage, one by one, and that they do so unchanged |
| Headers.CanonicalUndoesLower | s3_metadata.go:59-75 | Canonicalising a lowercased field name gives what canonicalising the name itself does |
| Revalidation.GateSeesThroughStorage | internal/freshness/freshness.go:63-113 | The gate decides on headers read back from S3 exactly as on the originals |
| Revalidation.TouchKeepsTag | server.go:307-334 | If the headers a touch stores carry a strong tag, it is the entry's own |
| Touches.ExpiresIsDeadline | internal/freshness/freshness.go:224-256 | After any run in which the replies written brought no Date and no lifetime, an Expires-only entry is fresh iff eligible, within the cap, and now + Age is before Expires, whatever storedAt is |
| Touches.LifetimeDirectivesStayAway | internal/freshness/merge.go:20-39 | Replies without lifetime directives never give a run of merges one |
| Percent.EscapeRoundTrip | s3_cache.go:218-249 | Unescaping inverts escaping for every escaper that keeps no percent sign and treats plus as the decoder does |
| Percent.EscapeExcludes | s3_cache.go:218-249 | A byte not kept never occurs in escaped output, the escaper's own signs aside |
| Percent.EscapeCopySource | s3_cache.go:148-163 | The byte loop builds the escaped string |
| Percent.CopySourceIsExact | s3_cache.go:123-163 | S3's query-style decoding of the copy source returns the same bytes: a touch copies the object onto itself |
| Percent.CopySourceBytes | s3_cache.go:141-163 | Exactly the unreserved bytes and the slash stay literal; any other is a percent sign and its two hexadecimal digits |
| Percent.KeepingPlusMisnames | s3_cache.go:148-163 | An escaper that kept plus would decode to the same bytes iff there is no plus in them |
| Keys.DecodeInverts | s3_cache.go:218-249 | The decoder, which insists on the prefix and a slash, recovers host, path, query and variant from every S3 path |
| Keys.S3PathReadable | s3_cache.go:229-232 | On plain traffic a key reads exactly like the URL it caches, under the prefix |
| Keys.S3PathInjective | s3_cache.go:218-249 | Equal S3 paths mean equal keys |
| Keys.KeyStringInverts | cache.go:23-30 | The singleflight key of a NUL-free query gives back target and variant, and the target host, path and query |
| Keys.SameFlightSameObject | cache.go:23-30 | For NUL-free queries: same singleflight key iff same cache key iff same S3 path |
| Keys.NulQueryCollides | cache.go:23-30 | Moving the variant behind a NUL into the query keeps the singleflight key and changes the S3 path |
| Keys.GoEscapersValid | s3_cache.go:218-249 | Go's four escapers satisfy what the key theorems need |
| Keys.ParseTarget | server.go:391-407 | Accepted targets have a slash-free host and a rooted path that together are the request path; refused ones have no second slash or start with two |
| Keys.RequestsHaveOwnKeys | server.go:369-407 | Two accepted requests get one S3 path iff path, query and joined Accept are all equal |
| OciChallenge.SplitAuthParams | oci_auth.go:124-170 | The byte loop with its quote and escape flags cuts at exactly the commas outside quotes, dropping one empty tail |
| OciChallenge.SplittersAgree | oci_auth.go:124-170 | Without backslashes it agrees with the Cache-Control splitter up to one empty last piece |
| OciChallenge.ParseAuthChallengeParams | oci_auth.go:88-121 | The loop yields the parameters, later ones winning |
| OciChallenge.ParseOCIAuthChallenge | oci_auth.go:31-83 | The loop over the lines is the specified parse; OciPrinting.ChallengeParsed says what that yields |
| OciPrinting.ParamReadBack | oci_auth.go:88-121 | A printed parameter, with any blanks and letter case, quoted or bare, is read back under its folded name with backslashes doubled if quoted; a name without equals sign is ignored |
| OciPrinting.SchemeDecides | oci_auth.go:45-65 | A line is a Bearer line iff its scheme is Bearer in any letter case, followed by a blank, a tab or nothing |
| OciPrinting.ChallengeParsed | oci_auth.go:31-121 | Whatever the selection, order, spelling and quoting of the parameters of the first Bearer line of a 401, the challenge has the last value given for each and is empty where none was; without a realm there is none, whatever follows |
| OciPrinting.NoChallenge | oci_auth.go:31-83 | No other status is a challenge and no line of another scheme is one |
| OciPrinting.ChallengeRoundTrip | oci_auth.go:31-170 | Printing any realm, service and scope and parsing returns them with backslashes doubled, among any lines of other schemes before and any lines after; the same three values iff none has a backslash |
| OciTokens.Sweep | oci_auth.go:226-236 | Exactly the entries whose expiry is not past stay, unchanged |
| OciTokens.TokenCache.Get | oci_auth.go:197-211 | A hit up to and including the expiry, else nothing |
| OciTokens.TokenCache.Set | oci_auth.go:215-223 | Replaces one entry and keeps the others |
| OciTokens.TokenCache.SweepExpired | oci_auth.go:226-236 | Drops the expired entries and no others |
| OciTokens.TokenCache.Evict | oci_auth.go:239-244 | Drops one entry and no other |
| OciTokens.NeverAfterExpiry | oci_auth.go:325-336 | For every int64 `expires_in`, wrap-around included: no hit after the declared expiry iff it is at least 5 s |
| OciTokens.AlwaysThirtySecondsLeft | oci_auth.go:325-336 | No hit with under 30 s left iff the declared lifetime is at least 31 s |
| OciTokens.BufferedBounds | oci_auth.go:325-336 | The buffer is positive and never over the lifetime less 30 s when that is positive, even where the product wraps |
| OciTokens.AvailableExactly | oci_auth.go:325-336 | Where no product wraps, a cached token is handed out for exactly 30 s without a declared lifetime, the lifetime less 30 s if that leaves any, and 5 s otherwise |
| OciTokens.ExtractOCIRepository | oci_auth.go:346-387 | The repository is everything between the prefix and the last action marker; none iff there is no such name |
| OciTokens.OneRepository | oci_auth.go:346-387 | A path addresses at most one repository |
| OciTokens.RepositoryOf | oci_auth.go:346-387 | In the registry's manifests, blobs and tags paths the repository is all between the prefix and that segment, slashes included |
| OciTransport.RunsKeepInv | oci_auth.go:513-649 | In every state of every interleaving both maps, all fetches and all calls hold only challenges and tokens of their own, and every call is within its budget |
| OciTransport.TokensAreDeserved | oci_auth.go:525-571 | Every token attached for a (host, repository) was issued for a challenge that this same pair returned earlier |
| OciTransport.CallsAreBounded | oci_auth.go:513-649 | A call sends at most three requests and makes at most two lookups, never one for a challenge that just failed in it; a non-idempotent or pre-authorised one sends exactly once |
| OciTransport.ChallengeKeyInjective | oci_auth.go:390-392 | For slash-free hosts equal challenge keys mean equal host and repository |
| OciTransport.FlightKeyInjective | oci_auth.go:411-436 | NUL-free challenges share a fetch iff they are equal |
| OciTransport.NulCollides | oci_auth.go:411-436 | A NUL moved across a field boundary makes two different challenges share a fetch |
| OciTransport.JoinedFetch | oci_auth.go:411-436 | The running fetch a call joins is one for the call's own challenge |
| OciSharing.OneFetchInProgress | oci_auth.go:411-436 | In every run two fetches in progress have different keys and are for different challenges |
| OciSharing.WaitersShare | oci_auth.go:411-436 | Calls waiting at once for one challenge wait for the same fetch while it is in progress, one for that challenge |
| OciSharing.JoinersWait | oci_auth.go:411-436 | A call that joins while a fetch for its challenge is in progress starts none and waits for that one; otherwise it starts one of its own |
| OciSharing.SameResult | oci_auth.go:411-436 | Two calls that waited for one fetch are given the same token, or the same failure, whenever their results reach them |
| OciSweeps.SweepsAreUnobservable | oci_auth.go:497-507 | Erasing all sweeps from any run leaves a run with the same clock, fetches and history, in which every call has sent, looked up and been given the same |
| OciSweeps.StepSimulates | oci_auth.go:513-649 | Every other step can be taken without the sweeps too and keeps the two sides alike |
| OciSession.AuthTransport.RoundTrip | oci_auth.go:513-575 | Takes the machine's steps with none in between; and outright: a bystander is sent once as it is; a remembered challenge that is alive is used at once; a 401 to a GET or HEAD drops challenge and token and starts discovery; a failed lookup starts discovery with nothing dropped |
| OciSession.AuthTransport.DiscoveryPath | oci_auth.go:581-649 | The bare request; a challenge in the answer is remembered for an hour; unless it just failed, its token is looked up and, if there is one, the request is sent with it |
| OciSession.AuthTransport.GetOrFetch | oci_auth.go:411-436 | A live cached token, else the fetched one, which then is in the cache; else nothing changes |
| OciSession.AuthTransport.SweepChallengeMap | oci_auth.go:497-507 | Drops the expired challenges and no others |

## Left out

- AWS SDK calls, TLS, egress proxy, listeners, signals and flags: I/O and configuration; a failing Head, Put, copy or presign is a step, or a parameter of one.
- Redirect following inside the upstream client: one exchange stands for the whole chain.
- Logging, request IDs and error wrapping: no state that matters.
- `injectCacheHeadersIntoRequest`: which conditional headers are sent; upstream may answer anything here, a superset.
- `FallbackPolicy` appears as a guard of the steps; nothing is claimed of it by itself.
- The internals of `singleflight`, `encoding/json`, `http.ParseTime` and `net/url`: taken by contract.
- Unicode case folding and whitespace, and invalid UTF-8 in metadata values.
- The 2 KB limit on object metadata: exceeding it is an upload that fails.
- Streaming of bodies, `Content-Length` and range handling: a body is one value.
- What a client downloads after the redirect, since the object may be replaced in between; object deletion; entries older than Accept variants.
- Progress: no claim that any request ever ends.
- The HTTP exchange with the token endpoint: a fetch yields a token and an expiry, or fails. URL checks and JSON decoding are not part of this model.
- The responses `RoundTrip` returns: the model records the requests sent and the tokens attached.
- Server.FetchAndCache: one flight with nobody beside it, while no time passes; what concurrency does is proved of `CacheProtocol`, whose steps it takes.
- OciSession.AuthTransport.RoundTrip: one call with the clock standing still; what concurrency does is proved of `OciTransport`.
- CacheProtocol.StalenessIsBounded: relative to the errors of the clocks of S3 and of the instances, which the code cannot bound.

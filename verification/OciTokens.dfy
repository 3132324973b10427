/** Expiring maps, the token cache, token lifetimes and repository names. */
module OciTokens {
  import opened GoText
  import opened Freshness
  import opened OciChallenge

  /** A map value with the instant after which it is dead. */
  datatype Expiring<V> = Expiring(value: V, expiry: int)

  /** What a sweep at `now` leaves. */
  function Swept<K, V>(m: map<K, Expiring<V>>, now: int): map<K, Expiring<V>> {
    map k | k in m && !(now > m[k].expiry) :: m[k]
  }

  method Sweep<K(==), V>(m: map<K, Expiring<V>>, now: int) returns (r: map<K, Expiring<V>>)
    ensures forall k :: k in r <==> k in m && now <= m[k].expiry
    ensures forall k :: k in r ==> r[k] == m[k]
    ensures r == Swept(m, now)
  {
    r := m;
    var left := m.Keys;
    while left != {}
      invariant left <= m.Keys
      invariant r == map k | k in m && (k in left || !(now > m[k].expiry)) :: m[k]
    {
      var k :| k in left;
      left := left - {k};
      if now > m[k].expiry {
        r := r - {k};
      }
    }
  }

  type Tokens = map<Challenge, Expiring<string>>

  /** tokenCache.get: a hit up to and including the expiry. */
  function GetToken(entries: Tokens, challenge: Challenge, now: int): Option<string> {
    if challenge !in entries || now > entries[challenge].expiry then None else Some(entries[challenge].value)
  }

  class TokenCache {
    var entries: Tokens

    constructor ()
      ensures entries == map[]
    {
      entries := map[];
    }

    method Get(challenge: Challenge, now: int) returns (token: Option<string>)
      ensures token == GetToken(entries, challenge, now)
    {
      if challenge !in entries {
        return None;
      }
      if now > entries[challenge].expiry {
        return None;
      }
      return Some(entries[challenge].value);
    }

    method Set(challenge: Challenge, token: string, expiry: int)
      modifies this
      ensures entries == old(entries)[challenge := Expiring(token, expiry)]
    {
      entries := entries[challenge := Expiring(token, expiry)];
    }

    method SweepExpired(now: int)
      modifies this
      ensures entries == Swept(old(entries), now)
    {
      entries := Sweep(entries, now);
    }

    method Evict(challenge: Challenge)
      modifies this
      ensures entries == old(entries) - {challenge}
    {
      entries := entries - {challenge};
    }
  }

  // ---------------------------------------------------------------- token lifetimes

  /** The lifetime in seconds that the token response declares; zero means it left it out. */
  function Declared(expiresIn: int): int {
    if expiresIn == 0 then 60 else expiresIn
  }

  /** How long fetchToken lets the cache keep a token, in int64 nanoseconds. */
  function Buffered(expiresIn: int): int {
    var d := Wrap64(Wrap64(Declared(expiresIn) * SECOND) - 30 * SECOND);
    if d <= 0 then 5 * SECOND else d
  }

  predicate IsInt64(n: int) {
    MIN_INT64 <= n <= MAX_INT64
  }

  /** The cache can hand out, at `now`, a token fetched at `fetchedAt`. */
  ghost predicate Available(expiresIn: int, fetchedAt: int, now: int) {
    fetchedAt <= now && exists entries: Tokens, c, token ::
      GetToken(Caching(entries, c, token, expiresIn, fetchedAt), c, now) == Some(token)
  }

  /** The cache once a token fetched at `fetchedAt` is in it. */
  function Caching(entries: Tokens, c: Challenge, token: string, expiresIn: int, fetchedAt: int): Tokens {
    entries[c := Expiring(token, fetchedAt + Buffered(expiresIn))]
  }

  lemma AvailableUntil(expiresIn: int, fetchedAt: int, now: int)
    ensures Available(expiresIn, fetchedAt, now) <==> fetchedAt <= now <= fetchedAt + Buffered(expiresIn)
  {
    var c, none: Tokens := Challenge("", "", ""), map[];
    assert GetToken(Caching(none, c, "", expiresIn, fetchedAt), c, now) == Some("")
           <==> now <= fetchedAt + Buffered(expiresIn);
  }

  /** The buffer on its own, the wrap-around included. */
  lemma BufferedBounds(expiresIn: int)
    requires IsInt64(expiresIn)
    ensures Buffered(expiresIn) >= 1
    ensures Declared(expiresIn) >= 31 ==> Buffered(expiresIn) <= (Declared(expiresIn) - 30) * SECOND
    ensures 0 < Declared(expiresIn) <= 30 ==> Buffered(expiresIn) == 5 * SECOND
  {
    var x := Declared(expiresIn) * SECOND;
    WrapIsCongruent(x);
    WrapIsCongruent(Wrap64(x) - 30 * SECOND);
  }

  /** Wrapping subtracts a multiple of two to the sixty-fourth, and none in range. */
  lemma WrapIsCongruent(x: int)
    ensures MIN_INT64 <= Wrap64(x) <= MAX_INT64
    ensures exists n :: Wrap64(x) == x - n * TWO_64 && (0 <= x ==> n >= 0) && (MIN_INT64 <= x <= MAX_INT64 ==> n == 0)
  {
    var n := (x - MIN_INT64) / TWO_64;
    assert Wrap64(x) == x - n * TWO_64;
  }

  /** A cached token is never handed out after its declared expiry exactly when the
      declared lifetime is at least five seconds. */
  lemma NeverAfterExpiry(expiresIn: int)
    requires IsInt64(expiresIn)
    ensures Declared(expiresIn) >= 5 <==>
            forall fetchedAt, now ::
              Available(expiresIn, fetchedAt, now) ==> now <= fetchedAt + Declared(expiresIn) * SECOND
  {
    BufferedBounds(expiresIn);
    if Declared(expiresIn) >= 5 {
      forall fetchedAt, now | Available(expiresIn, fetchedAt, now)
        ensures now <= fetchedAt + Declared(expiresIn) * SECOND
      {
        AvailableUntil(expiresIn, fetchedAt, now);
      }
    } else {
      AvailableUntil(expiresIn, 0, Buffered(expiresIn));
    }
  }

  /** It is never handed out with less than thirty seconds left exactly when the declared
      lifetime is at least thirty-one. */
  lemma AlwaysThirtySecondsLeft(expiresIn: int)
    requires IsInt64(expiresIn)
    ensures Declared(expiresIn) >= 31 <==>
            forall fetchedAt, now :: Available(expiresIn, fetchedAt, now)
                                     ==> now + 30 * SECOND <= fetchedAt + Declared(expiresIn) * SECOND
  {
    BufferedBounds(expiresIn);
    if Declared(expiresIn) >= 31 {
      forall fetchedAt, now | Available(expiresIn, fetchedAt, now)
        ensures now + 30 * SECOND <= fetchedAt + Declared(expiresIn) * SECOND
      {
        AvailableUntil(expiresIn, fetchedAt, now);
      }
    } else {
      AvailableUntil(expiresIn, 0, Buffered(expiresIn));
    }
  }

  /** How long a cached token is handed out, to the nanosecond, wherever no product wraps: for
      30 seconds if no lifetime was declared, for the lifetime less 30 seconds if that leaves
      any, and for 5 seconds otherwise. */
  lemma AvailableExactly(expiresIn: int, fetchedAt: int, now: int)
    requires -9_223_372_006 <= expiresIn <= 9_223_372_036
    ensures Available(expiresIn, fetchedAt, now) <==>
            fetchedAt <= now <= fetchedAt + (if expiresIn == 0 then 30_000_000_000
                                             else if expiresIn >= 31 then (expiresIn - 30) * 1_000_000_000
                                             else 5_000_000_000)
  {
    AvailableUntil(expiresIn, fetchedAt, now);
    var x := Declared(expiresIn) * SECOND;
    assert MIN_INT64 <= x <= MAX_INT64 && MIN_INT64 <= x - 30 * SECOND <= MAX_INT64;
    InRange(x);
    InRange(x - 30 * SECOND);
  }

  lemma InRange(x: int)
    requires MIN_INT64 <= x <= MAX_INT64
    ensures Wrap64(x) == x
  {
    WrapIsCongruent(x);
  }

  // ---------------------------------------------------------------- repository names

  const V2 := "/v2/"
  const ACTIONS := ["/manifests/", "/blobs/", "/tags/"]

  predicate OccursAt(s: string, sub: string, j: int) {
    0 <= j && j + |sub| <= |s| && s[j..j + |sub|] == sub
  }

  /** strings.LastIndex, looking no further right than `i`. */
  function LastIndexUpTo(s: string, sub: string, i: nat): (r: int)
    requires i <= |s|
    ensures -1 <= r <= i
    ensures r >= 0 ==> OccursAt(s, sub, r)
    ensures forall j :: r < j <= i ==> !OccursAt(s, sub, j)
  {
    if OccursAt(s, sub, i) then i else if i == 0 then -1 else LastIndexUpTo(s, sub, i - 1)
  }

  predicate ActionAt(rest: string, j: int) {
    exists a :: 0 <= a < |ACTIONS| && OccursAt(rest, ACTIONS[a], j)
  }

  /** `path` addresses the repository `repo`: everything between "/v2/" and the last action. */
  predicate IsRepository(path: string, repo: string) {
    && V2 <= path && repo != "" && repo <= path[|V2|..]
    && ActionAt(path[|V2|..], |repo|)
    && forall j :: |repo| < j <= |path| ==> !ActionAt(path[|V2|..], j)
  }

  method ExtractOCIRepository(path: string) returns (repo: Option<string>)
    ensures repo.Some? ==> IsRepository(path, repo.value)
    ensures repo.None? ==> forall name :: !IsRepository(path, name)
  {
    if !HasPrefix(path, V2) {
      return None;
    }
    var remainder := path[|V2|..];
    if remainder == "" {
      return None;
    }
    var lastActionIdx := -1;
    for a := 0 to |ACTIONS|
      invariant -1 <= lastActionIdx <= |remainder|
      invariant lastActionIdx >= 0 ==> ActionAt(remainder, lastActionIdx)
      invariant forall b, j :: 0 <= b < a && lastActionIdx < j ==> !OccursAt(remainder, ACTIONS[b], j)
    {
      var idx := LastIndexUpTo(remainder, ACTIONS[a], |remainder|);
      if idx > lastActionIdx {
        assert OccursAt(remainder, ACTIONS[a], idx);
        lastActionIdx := idx;
      }
    }
    assert forall j :: lastActionIdx < j ==> !ActionAt(remainder, j);
    if lastActionIdx < 0 {
      return None;
    }
    if lastActionIdx == 0 {
      return None;
    }
    return Some(remainder[..lastActionIdx]);
  }

  /** The registry's paths: everything between "/v2/" and the manifests, blobs or tags segment
      is the repository, slashes included. */
  lemma RepositoryOf(name: string, marker: string, rest: string)
    requires name != "" && '/' !in rest
    requires marker == "/manifests/" || marker == "/blobs/" || marker == "/tags/"
    ensures IsRepository("/v2/" + name + marker + rest, name)
  {
    var path, remainder := "/v2/" + name + marker + rest, name + marker + rest;
    assert path == "/v2/" + remainder && path[|V2|..] == remainder;
    assert remainder[|name|..|name| + |marker|] == marker;
    assert exists a :: 0 <= a < |ACTIONS| && ACTIONS[a] == marker by {
      assert ACTIONS[0] == "/manifests/" && ACTIONS[1] == "/blobs/" && ACTIONS[2] == "/tags/";
    }
    forall j, a | |name| < j && 0 <= a < |ACTIONS| ensures !OccursAt(remainder, ACTIONS[a], j) {
      if OccursAt(remainder, ACTIONS[a], j) {
        NoLaterMarker(name, marker, rest, ACTIONS[a], j);
      }
    }
  }

  /** Past the start of the last marker there are no two slashes to hold another. */
  lemma NoLaterMarker(name: string, marker: string, rest: string, action: string, j: int)
    requires '/' !in rest && |name| < j && |action| >= 2 && action[0] == '/' && action[|action| - 1] == '/'
    requires marker == "/manifests/" || marker == "/blobs/" || marker == "/tags/"
    ensures !OccursAt(name + marker + rest, action, j)
  {
    var s, last := name + marker + rest, j + |action| - 1;
    if OccursAt(s, action, j) {
      assert s[j] == action[0] && s[last] == s[j..j + |action|][|action| - 1];
      SlashPlaces(name, marker, rest, j);
      SlashPlaces(name, marker, rest, last);
    }
  }

  lemma SlashPlaces(name: string, marker: string, rest: string, j: int)
    requires '/' !in rest && |name| < j < |name + marker + rest| && (name + marker + rest)[j] == '/'
    requires marker == "/manifests/" || marker == "/blobs/" || marker == "/tags/"
    ensures j == |name| + |marker| - 1
  {
    ByteAt(name, marker, rest, j - |name|);
  }

  lemma ByteAt(a: string, b: string, c: string, k: nat)
    requires k < |b| + |c|
    ensures (a + b + c)[|a| + k] == if k < |b| then b[k] else c[k - |b|]
  {
  }

  /** A path addresses at most one repository. */
  lemma OneRepository(path: string, a: string, b: string)
    requires IsRepository(path, a) && IsRepository(path, b)
    ensures a == b
  {
    assert |a| == |b|;
  }
}

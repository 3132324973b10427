/** RoundTrip, discoveryPath and getOrFetch in the order of their statements, over the two
    mutable maps, proved to take the steps of the transport machine with none in between. */
module OciSession {
  import opened GoText
  import opened OciChallenge
  import opened OciTokens
  import opened OciTransport

  /** What the outside does in one call: how upstream answers the request with the remembered
      token, the bare one and the retry, and what the token endpoint gives to the first
      lookup and to the one after discovery. */
  datatype Outside = Outside(early: Answer, bare: Answer, late: Answer,
                             firstToken: Option<Expiring<string>>, lateToken: Option<Expiring<string>>)

  // ---------------------------------------------------------------- the machine, uninterrupted

  /** One call alone with the two maps. */
  function Alone(now: int, challenges: map<string, ChallengeEntry>, tokens: Tokens, req: Req,
                 repo: Option<string>): State {
    State(now, challenges, tokens, map[0 := Call(req, repo, Begin, [], [])], map[], map[], {}, {})
  }

  /** The call is alone and at a place to go on from. */
  predicate Lone(s: State) {
    0 in s.calls && s.calls[0].repo.Some? && s.running == map[]
  }

  /** A fetch of its own, up to its end. */
  function FetchEnded(s: State, fetch: nat, fetched: Option<Expiring<string>>): (t: State)
    requires Lone(s) && s.calls[0].pc.Joining?
    ensures t.running == map[] && t.clock == s.clock && t.challenges == s.challenges
    ensures t.tokens == if fetched.Some? then s.tokens[s.calls[0].pc.challenge := fetched.value] else s.tokens
    ensures var Joining(challenge, proactive) := s.calls[0].pc;
            && t.calls == s.calls[0 := s.calls[0].(pc := Waiting(challenge, proactive, fetch))]
            && fetch in t.fetches && t.fetches[fetch].token == if fetched.Some? then Some(fetched.value.value) else None
  {
    hide FlightKey;
    var u := JoinStep(s, 0, s.calls[0], fetch);
    assert u.running.Keys == {FlightKey(s.calls[0].pc.challenge)};
    var v := if fetched.Some? then IssueStep(u, fetch, fetched.value.value, fetched.value.expiry) else u;
    EndFetchStep(v, fetch)
  }

  /** A fetch that nobody else waits for. */
  function Fetched(s: State, fetch: nat, fetched: Option<Expiring<string>>): (t: State)
    requires Lone(s) && s.calls[0].pc.Joining? && s.calls[0].lookups != []
    ensures Lone(t)
    ensures var Joining(challenge, proactive) := s.calls[0].pc;
            t.calls[0].pc == if fetched.Some? then Sending(challenge, fetched.value.value, proactive)
                             else if proactive then Discovering(Some(challenge)) else Finished
    ensures t.clock == s.clock && t.challenges == s.challenges
    ensures t.tokens == if fetched.Some? then s.tokens[s.calls[0].pc.challenge := fetched.value] else s.tokens
    ensures t.calls[0].req == s.calls[0].req && t.calls[0].repo == s.calls[0].repo
    ensures t.calls[0].sends == s.calls[0].sends
  {
    var ended := FetchEnded(s, fetch, fetched);
    DeliverStep(ended, 0, ended.calls[0])
  }

  /** One getOrFetch: the cache, else a fetch of its own. */
  function Looked(s: State, fetch: nat, fetched: Option<Expiring<string>>): (t: State)
    requires Lone(s) && s.calls[0].pc.Checking?
    ensures Lone(t)
    ensures t.calls[0].pc.Sending? || t.calls[0].pc.Finished? || (t.calls[0].pc.Discovering? && s.calls[0].pc.proactive)
  {
    hide GetToken, Fetched;
    var t := CheckStep(s, 0, s.calls[0]);
    if t.calls[0].pc.Sending? then t else Fetched(t, fetch, fetched)
  }

  /** The lookup after discovery, and the retry. */
  function Retried(s: State, out: Outside): (t: State)
    requires Lone(s) && s.calls[0].pc.Checking?
    ensures 0 in t.calls
  {
    hide Looked;
    var t := Looked(s, 1, out.lateToken);
    if t.calls[0].pc.Sending? then SendTokenStep(t, 0, t.calls[0], out.late) else t
  }

  /** discoveryPath. */
  function Discovered(s: State, out: Outside): (t: State)
    requires Lone(s) && s.calls[0].pc.Discovering?
    ensures 0 in t.calls
  {
    hide Retried, ParseChallenge, ChallengeKey;
    var t := SendBareStep(s, 0, s.calls[0], out.bare);
    if t.calls[0].pc.Finished? then t
    else
      var u := RememberStep(t, 0, t.calls[0]);
      if u.calls[0].pc.Finished? then u else Retried(u, out)
  }

  /** The proactive branch of RoundTrip. */
  function Proactive(s: State, out: Outside): (t: State)
    requires Lone(s) && s.calls[0].pc.Checking?
    ensures 0 in t.calls
  {
    var t := Looked(s, 0, out.firstToken);
    match t.calls[0].pc
    case Discovering(_) => Discovered(t, out)
    case Sending(_, _, _) =>
      var u := SendTokenStep(t, 0, t.calls[0], out.early);
      if u.calls[0].pc.Forgetting? then
        var v := ForgetStep(u, 0, u.calls[0]);
        Discovered(EvictStep(v, 0, v.calls[0]), out)
      else u
    case _ => t
  }

  function Uninterrupted(s: State, out: Outside): (t: State)
    requires 0 in s.calls && s.calls[0].pc.Begin? && s.running == map[]
    ensures 0 in t.calls
  {
    var t := ReadStep(s, 0, s.calls[0]);
    if t.calls[0].pc.Passing? then PassStep(t, 0, t.calls[0])
    else
      var u := ChooseStep(t, 0, t.calls[0]);
      if u.calls[0].pc.Checking? then Proactive(u, out) else Discovered(u, out)
  }

  /** The two maps a call leaves, and the token attached to each request it sent, if any. */
  datatype Left = Left(challenges: map<string, ChallengeEntry>, tokens: Tokens, sends: seq<Option<string>>)

  predicate Ends(t: State, left: Left) {
    0 in t.calls && t.calls[0].pc.Finished? && Left(t.challenges, t.tokens, t.calls[0].sends) == left
  }

  /** What a lookup obtains, and the cache it leaves. */
  function Obtained(tokens: Tokens, challenge: Challenge, now: int, fetched: Option<Expiring<string>>): Option<string> {
    var hit := GetToken(tokens, challenge, now);
    if hit.Some? then hit else if fetched.Some? then Some(fetched.value.value) else None
  }

  function Cached(tokens: Tokens, challenge: Challenge, now: int, fetched: Option<Expiring<string>>): Tokens {
    if GetToken(tokens, challenge, now).None? && fetched.Some? then tokens[challenge := fetched.value] else tokens
  }

  lemma LookedIs(s: State, fetch: nat, fetched: Option<Expiring<string>>)
    requires Lone(s) && s.calls[0].pc.Checking?
    ensures var Checking(challenge, proactive) := s.calls[0].pc;
            var token := Obtained(s.tokens, challenge, s.clock, fetched);
            var t, c := Looked(s, fetch, fetched), s.calls[0];
            && t.clock == s.clock && t.challenges == s.challenges
            && t.tokens == Cached(s.tokens, challenge, s.clock, fetched)
            && t.calls[0].req == c.req && t.calls[0].repo == c.repo && t.calls[0].sends == c.sends
            && t.calls[0].pc == if token.Some? then Sending(challenge, token.value, proactive)
                                else if proactive then Discovering(Some(challenge)) else Finished
  {
    hide GetToken, Fetched, FlightKey;
  }

  /** The call is about to enter discoveryPath. */
  predicate Poised(s: State, req: Req, repo: string, failed: Option<Challenge>, now: int, before: Left) {
    && Lone(s) && s.clock == now && s.challenges == before.challenges && s.tokens == before.tokens
    && s.calls[0].req == req && s.calls[0].repo == Some(repo) && s.calls[0].pc == Discovering(failed)
    && s.calls[0].sends == before.sends
  }

  /** Discovery ends with the bare answer. */
  lemma DiscoveryStops(s: State, out: Outside, req: Req, repo: string, failed: Option<Challenge>, now: int,
                       before: Left)
    requires Poised(s, req, repo, failed, now, before)
    requires !req.idempotent || out.bare.Broken? || ParseChallenge(out.bare.status, out.bare.lines).None?
    ensures Ends(Discovered(s, out), before.(sends := before.sends + [None]))
  {
    hide ParseChallenge, Looked, RememberStep, SendTokenStep;
  }

  /** Discovery learns a challenge, and looks its token up unless that just failed. */
  lemma DiscoveryLearns(s: State, out: Outside, req: Req, repo: string, failed: Option<Challenge>, now: int,
                        before: Left, challenge: Challenge)
    requires Poised(s, req, repo, failed, now, before) && req.idempotent
    requires out.bare.Replied? && ParseChallenge(out.bare.status, out.bare.lines) == Some(challenge)
    ensures var learnt := before.challenges[ChallengeKey(req.host, repo) := Expiring(challenge, now + CHALLENGE_TTL)];
            var token := Obtained(before.tokens, challenge, now, out.lateToken);
            Ends(Discovered(s, out),
                 if failed == Some(challenge) then Left(learnt, before.tokens, before.sends + [None])
                 else Left(learnt, Cached(before.tokens, challenge, now, out.lateToken),
                           before.sends + [None] + if token.Some? then [token] else []))
  {
    hide ParseChallenge, Looked, Obtained, Cached, ChallengeKey;
    var t := SendBareStep(s, 0, s.calls[0], out.bare);
    var u := RememberStep(t, 0, t.calls[0]);
    if u.calls[0].pc.Checking? {
      LookedIs(u, 1, out.lateToken);
    }
  }

  /** `t` is where discovery leads from such a state. */
  ghost predicate Continues(t: State, out: Outside, req: Req, repo: string, failed: Option<Challenge>, now: int,
                            before: Left) {
    exists s: State :: Poised(s, req, repo, failed, now, before) && t == Discovered(s, out)
  }

  predicate Live(challenges: map<string, ChallengeEntry>, key: string, now: int) {
    key in challenges && now < challenges[key].expiry
  }

  /** Without a remembered challenge that is alive, discovery begins at once. */
  lemma StartsCold(now: int, start: Left, req: Req, repo: string, out: Outside)
    requires !req.authorized && !Live(start.challenges, ChallengeKey(req.host, repo), now) && start.sends == []
    ensures Continues(Uninterrupted(Alone(now, start.challenges, start.tokens, req, Some(repo)), out), out,
                      req, repo, None, now, start)
  {
    hide Discovered, Proactive, ChallengeKey;
    var s := Alone(now, start.challenges, start.tokens, req, Some(repo));
    var t := ReadStep(s, 0, s.calls[0]);
    assert Poised(ChooseStep(t, 0, t.calls[0]), req, repo, None, now, start);
  }

  /** The state after the remembered challenge's token was looked up. */
  lemma StartsWarm(now: int, start: Left, req: Req, repo: string, out: Outside, challenge: Challenge) returns (u: State)
    requires !req.authorized && Live(start.challenges, ChallengeKey(req.host, repo), now) && start.sends == []
    requires challenge == start.challenges[ChallengeKey(req.host, repo)].value
    ensures Lone(u) && u.calls[0].pc == Checking(challenge, true)
    ensures u.clock == now && Left(u.challenges, u.tokens, u.calls[0].sends) == start
    ensures u.calls[0].req == req && u.calls[0].repo == Some(repo)
    ensures Uninterrupted(Alone(now, start.challenges, start.tokens, req, Some(repo)), out) == Proactive(u, out)
  {
    hide Discovered, Proactive, ChallengeKey;
    var s := Alone(now, start.challenges, start.tokens, req, Some(repo));
    var t := ReadStep(s, 0, s.calls[0]);
    u := ChooseStep(t, 0, t.calls[0]);
  }

  predicate Refused(answer: Answer) {
    answer.Replied? && answer.status == STATUS_UNAUTHORIZED
  }

  /** Discovery after a refused token starts without the token and its challenge. */
  lemma AfterRefusal(t: State, out: Outside, req: Req, repo: string, now: int, challenge: Challenge, token: string,
                     before: Left)
    requires Lone(t) && t.calls[0].pc == Sending(challenge, token, true) && Refused(out.early) && req.idempotent
    requires t.clock == now && Left(t.challenges, t.tokens, t.calls[0].sends) == before
    requires t.calls[0].req == req && t.calls[0].repo == Some(repo)
    ensures var v := SendTokenStep(t, 0, t.calls[0], out.early);
            v.calls[0].pc.Forgetting?
            && var x := ForgetStep(v, 0, v.calls[0]);
               Poised(EvictStep(x, 0, x.calls[0]), req, repo, None, now,
                      Left(before.challenges - {ChallengeKey(req.host, repo)}, before.tokens - {challenge},
                           before.sends + [Some(token)]))
  {
    hide ChallengeKey;
  }

  /** Otherwise the answer to the request with the token is final. */
  lemma AfterAcceptance(t: State, out: Outside, challenge: Challenge, token: string, before: Left)
    requires Lone(t) && t.calls[0].pc == Sending(challenge, token, true)
    requires !Refused(out.early) || !t.calls[0].req.idempotent
    requires Left(t.challenges, t.tokens, t.calls[0].sends) == before
    ensures var v := SendTokenStep(t, 0, t.calls[0], out.early);
            v.calls[0].pc.Finished? && Ends(v, before.(sends := before.sends + [Some(token)]))
  {
  }

  /** What the proactive branch comes to, from the state in which its lookup begins. */
  lemma ProactiveLeads(u: State, out: Outside, req: Req, repo: string, challenge: Challenge, now: int, start: Left)
    requires Lone(u) && u.calls[0].pc == Checking(challenge, true) && start.sends == []
    requires u.clock == now && Left(u.challenges, u.tokens, u.calls[0].sends) == start
    requires u.calls[0].req == req && u.calls[0].repo == Some(repo)
    ensures var token := Obtained(start.tokens, challenge, now, out.firstToken);
            var tokens := Cached(start.tokens, challenge, now, out.firstToken);
            var t := Proactive(u, out);
            if token.None? then Continues(t, out, req, repo, Some(challenge), now, Left(start.challenges, tokens, []))
            else if Refused(out.early) && req.idempotent
            then Continues(t, out, req, repo, None, now,
                           Left(start.challenges - {ChallengeKey(req.host, repo)}, tokens - {challenge}, [] + [token]))
            else Ends(t, Left(start.challenges, tokens, [] + [token]))
  {
    hide Discovered, Looked, Obtained, Cached, ChallengeKey, ForgetStep, EvictStep, SendTokenStep, Refused;
    LookedIs(u, 0, out.firstToken);
    var t := Looked(u, 0, out.firstToken);
    var left := Left(t.challenges, t.tokens, []);
    if t.calls[0].pc.Discovering? {
      assert Poised(t, req, repo, Some(challenge), now, left);
    } else if Refused(out.early) && req.idempotent {
      hide Poised;
      AfterRefusal(t, out, req, repo, now, challenge, t.calls[0].pc.token, left);
    } else {
      AfterAcceptance(t, out, challenge, t.calls[0].pc.token, left);
    }
  }

  /** A call that takes no part in OCI authentication. */
  lemma BystanderEnds(now: int, start: Left, req: Req, repo: Option<string>, out: Outside)
    requires req.authorized || repo.None?
    ensures Ends(Uninterrupted(Alone(now, start.challenges, start.tokens, req, repo), out), start.(sends := [None]))
  {
  }

  // ---------------------------------------------------------------- what a call comes to

  /** The cache holds a token for the challenge, alive up to and including its expiry. */
  predicate Held(tokens: Tokens, c: Challenge, now: int) {
    c in tokens && now <= tokens[c].expiry
  }

  /** A lookup gives this token and leaves this cache: the one held, else the one fetched. */
  predicate Gives(was: Tokens, c: Challenge, now: int, fetched: Option<Expiring<string>>,
                  token: string, tokens: Tokens) {
    if Held(was, c, now) then token == was[c].value && tokens == was
    else fetched.Some? && token == fetched.value.value && tokens == was[c := fetched.value]
  }

  predicate Fails(was: Tokens, c: Challenge, now: int, fetched: Option<Expiring<string>>) {
    !Held(was, c, now) && fetched.None?
  }

  /** What discovery comes to: the bare request; if a GET or HEAD is answered by a challenge,
      that is remembered for an hour under the host and repository; unless it is the one that
      just failed its token is looked up, and if there is one the request is sent with it. */
  ghost predicate Discovery(req: Req, repo: string, failed: Option<Challenge>, now: int, out: Outside,
                            was: Left, left: Left) {
    var learnt := if req.idempotent && out.bare.Replied? then ParseChallenge(out.bare.status, out.bare.lines) else None;
    && (learnt.None? ==> left == was.(sends := was.sends + [None]))
    && (learnt.Some? ==>
          var challenges := was.challenges[req.host + "/" + repo := Expiring(learnt.value, now + 3_600_000_000_000)];
          && (failed == learnt || Fails(was.tokens, learnt.value, now, out.lateToken) ==>
                left == Left(challenges, was.tokens, was.sends + [None]))
          && (failed != learnt ==> forall token, tokens ::
                Gives(was.tokens, learnt.value, now, out.lateToken, token, tokens) ==>
                  left == Left(challenges, tokens, was.sends + [None] + [Some(token)])))
  }

  /** What a call for a repository comes to. A challenge remembered and alive is used at once:
      its token is looked up and sent. A 401 to that, if the method is GET or HEAD, drops the
      challenge and the token and starts discovery; any other answer is final. If the lookup
      fails, or there is no such challenge, discovery starts with nothing dropped. */
  ghost predicate Authenticates(req: Req, repo: string, now: int, out: Outside, was: Left, left: Left) {
    var key := req.host + "/" + repo;
    if !(key in was.challenges && now < was.challenges[key].expiry) then Discovery(req, repo, None, now, out, was, left)
    else
      var c := was.challenges[key].value;
      && (Fails(was.tokens, c, now, out.firstToken) ==> Discovery(req, repo, Some(c), now, out, was, left))
      && (forall token, tokens :: Gives(was.tokens, c, now, out.firstToken, token, tokens) ==>
            if out.early.Replied? && out.early.status == 401 && req.idempotent
            then Discovery(req, repo, None, now, out, Left(was.challenges - {key}, tokens - {c}, [Some(token)]), left)
            else left == Left(was.challenges, tokens, [Some(token)]))
  }

  // ---------------------------------------------------------------- the code

  class AuthTransport {
    var challenges: map<string, ChallengeEntry>
    const cache: TokenCache

    constructor ()
      ensures challenges == map[] && fresh(cache) && cache.entries == map[]
    {
      challenges := map[];
      cache := new TokenCache();
    }

    method SweepChallengeMap(now: int)
      modifies this
      ensures challenges == Swept(old(challenges), now)
    {
      challenges := Sweep(challenges, now);
    }

    /** The cached token if there is one alive, else what the token endpoint gives. */
    method GetOrFetch(challenge: Challenge, now: int, fetched: Option<Expiring<string>>) returns (token: Option<string>)
      modifies cache
      ensures if Fails(old(cache.entries), challenge, now, fetched)
              then token == None && cache.entries == old(cache.entries)
              else token.Some? && Gives(old(cache.entries), challenge, now, fetched, token.value, cache.entries)
      ensures token == Obtained(old(cache.entries), challenge, now, fetched)
      ensures cache.entries == Cached(old(cache.entries), challenge, now, fetched)
    {
      token := cache.Get(challenge, now);
      if token.Some? || fetched.None? {
        return;
      }
      cache.Set(challenge, fetched.value.value, fetched.value.expiry);
      token := Some(fetched.value.value);
    }

    /** `sends` is `sent` and what discovery sends after it. */
    method DiscoveryPath(req: Req, repo: string, failed: Option<Challenge>, now: int, out: Outside,
                         sent: seq<Option<string>>)
        returns (sends: seq<Option<string>>)
      modifies this, cache
      ensures var before := Left(old(challenges), old(cache.entries), sent);
              forall s: State :: Poised(s, req, repo, failed, now, before)
                                 ==> Ends(Discovered(s, out), Left(challenges, cache.entries, sends))
      ensures Discovery(req, repo, failed, now, out, Left(old(challenges), old(cache.entries), sent),
                        Left(challenges, cache.entries, sends))
    {
      hide Discovered, Ends, ParseChallenge, Obtained, Cached, Held;
      ghost var before := Left(challenges, cache.entries, sent);
      sends := sent + [None];
      var challenge := None;
      if req.idempotent && out.bare.Replied? {
        challenge := ParseOCIAuthChallenge(out.bare.status, out.bare.lines);
      }
      if challenge.None? {
        forall s: State | Poised(s, req, repo, failed, now, before)
          ensures Ends(Discovered(s, out), Left(challenges, cache.entries, sends))
        {
          DiscoveryStops(s, out, req, repo, failed, now, before);
        }
        return;
      }
      challenges := challenges[ChallengeKey(req.host, repo) := Expiring(challenge.value, now + CHALLENGE_TTL)];
      if failed != challenge {
        var token := GetOrFetch(challenge.value, now, out.lateToken);
        sends := sends + if token.Some? then [token] else [];
      }
      forall s: State | Poised(s, req, repo, failed, now, before)
        ensures Ends(Discovered(s, out), Left(challenges, cache.entries, sends))
      {
        DiscoveryLearns(s, out, req, repo, failed, now, before, challenge.value);
      }
    }

    method RoundTrip(req: Req, now: int, out: Outside) returns (sends: seq<Option<string>>)
      modifies this, cache
      ensures forall repo :: RepoOf(req.path, repo) ==>
                Ends(Uninterrupted(Alone(now, old(challenges), old(cache.entries), req, repo), out),
                     Left(challenges, cache.entries, sends))
      ensures req.authorized || (forall repo :: !IsRepository(req.path, repo)) ==>
                sends == [None] && challenges == old(challenges) && cache.entries == old(cache.entries)
      ensures forall repo :: IsRepository(req.path, repo) && !req.authorized ==>
                Authenticates(req, repo, now, out, Left(old(challenges), old(cache.entries), []),
                              Left(challenges, cache.entries, sends))
    {
      hide Discovered, Uninterrupted, Alone, Ends, Obtained, Cached, RepoOf, Poised, Discovery, Held, IsRepository;
      ghost var start := Left(challenges, cache.entries, []);
      if req.authorized {
        forall repo { BystanderEnds(now, start, req, repo, out); }
        return [None];
      }
      var repo := ExtractOCIRepository(req.path);
      RepoIsUnique(req.path, repo);
      if repo.None? {
        BystanderEnds(now, start, req, repo, out);
        return [None];
      }
      var key := ChallengeKey(req.host, repo.value);
      var failed: Option<Challenge> := None;
      sends := [];
      if key in challenges && now < challenges[key].expiry {
        var challenge := challenges[key].value;
        ghost var u := StartsWarm(now, start, req, repo.value, out, challenge);
        ProactiveLeads(u, out, req, repo.value, challenge, now, start);
        assert forall token: Option<string> :: [] + [token] == [token];
        var token := GetOrFetch(challenge, now, out.firstToken);
        if token.Some? {
          sends := [token];
          if !Refused(out.early) || !req.idempotent {
            return;
          }
          challenges := challenges - {key};
          cache.Evict(challenge);
        } else {
          failed := Some(challenge);
        }
      } else {
        StartsCold(now, start, req, repo.value, out);
      }
      sends := DiscoveryPath(req, repo.value, failed, now, out, sends);
    }
  }

  lemma RepoIsUnique(path: string, repo: Option<string>)
    requires RepoOf(path, repo)
    ensures forall other :: RepoOf(path, other) ==> other == repo
    ensures forall name :: IsRepository(path, name) ==> repo == Some(name)
  {
    forall name | IsRepository(path, name) ensures repo == Some(name) {
      assert repo.Some?;
      OneRepository(path, repo.value, name);
    }
    forall other | RepoOf(path, other) ensures other == repo {
      if repo.Some? && other.Some? {
        OneRepository(path, repo.value, other.value);
      }
    }
  }
}

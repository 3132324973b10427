/** Background sweeps are unobservable: a run with its sweeps erased does the same. */
module OciSweeps {
  import opened GoText
  import opened OciChallenge
  import opened OciTokens
  import opened OciTransport

  predicate IsSweep(e: Step) {
    e.SweepChallenges? || e.SweepTokens?
  }

  function Erased(steps: seq<Step>): seq<Step> {
    if steps == [] then []
    else Erased(steps[..|steps| - 1]) + (if IsSweep(steps[|steps| - 1]) then [] else [steps[|steps| - 1]])
  }

  /** `big` is `small` with some dead entries more. */
  ghost predicate Shadows<K, V>(small: map<K, Expiring<V>>, big: map<K, Expiring<V>>, now: int) {
    && (forall k :: k in small ==> k in big && big[k] == small[k])
    && (forall k :: k in big && k !in small ==> big[k].expiry < now)
  }

  /** The two calls are the same, but that one which has read the challenge map and not
      yet looked at the clock may hold a dead entry. */
  predicate SameCall(c: Call, d: Call, now: int) {
    d == c
    || (c.pc == Read(None) && d.pc.Read? && d == c.(pc := d.pc) && d.pc.entry.Some? && d.pc.entry.value.expiry < now)
  }

  ghost predicate SameCalls(calls: map<nat, Call>, others: map<nat, Call>, now: int) {
    calls.Keys == others.Keys && forall id :: id in calls ==> SameCall(calls[id], others[id], now)
  }

  /** Nothing a call has done, been given or sent tells `s` from `t`. */
  ghost predicate Indistinguishable(s: State, t: State) {
    && s.clock == t.clock && s.fetches == t.fetches && s.running == t.running
    && s.returned == t.returned && s.issued == t.issued
    && Shadows(s.challenges, t.challenges, s.clock)
    && Shadows(s.tokens, t.tokens, s.clock)
    && SameCalls(s.calls, t.calls, s.clock)
  }

  /** A sweep only drops dead entries. */
  lemma SweepShadows<K, V>(small: map<K, Expiring<V>>, big: map<K, Expiring<V>>, now: int, at: int)
    requires Shadows(small, big, now) && at <= now
    ensures Shadows(Swept(small, at), big, now)
  {
  }

  lemma SweepSimulates(s: State, t: State, e: Step)
    requires Indistinguishable(s, t) && Enabled(s, e) && IsSweep(e)
    ensures Indistinguishable(Apply(s, e), t)
  {
    hide SameCalls;
    match e
    case SweepChallenges(at) => SweepShadows(s.challenges, t.challenges, s.clock, at);
    case SweepTokens(at) => SweepShadows(s.tokens, t.tokens, s.clock, at);
    case _ =>
  }

  /** The same call put in the same place keeps the two sides alike. */
  lemma SamePut(calls: map<nat, Call>, others: map<nat, Call>, now: int, id: nat, c: Call, d: Call)
    requires SameCalls(calls, others, now) && SameCall(c, d, now)
    ensures SameCalls(calls[id := c], others[id := d], now)
  {
  }

  lemma SameTokens(s: State, t: State, challenge: Challenge)
    requires Indistinguishable(s, t)
    ensures GetToken(s.tokens, challenge, s.clock) == GetToken(t.tokens, challenge, t.clock)
  {
    hide SameCalls;
  }

  lemma ReadSimulates(s: State, t: State, id: nat)
    requires Indistinguishable(s, t) && Enabled(s, ReadChallenge(id))
    ensures Enabled(t, ReadChallenge(id))
    ensures Indistinguishable(ReadStep(s, id, s.calls[id]), ReadStep(t, id, t.calls[id]))
  {
    hide SameCalls, Shadows, ChallengeKey;
    SameCallAt(s, t, id);
    var c, d := ReadStep(s, id, s.calls[id]).calls[id], ReadStep(t, id, t.calls[id]).calls[id];
    if !(s.calls[id].req.authorized || s.calls[id].repo.None?) {
      ShadowAt(s.challenges, t.challenges, s.clock, ChallengeKey(s.calls[id].req.host, s.calls[id].repo.value));
    }
    SamePut(s.calls, t.calls, s.clock, id, c, d);
  }

  lemma ShadowAt<K, V>(small: map<K, Expiring<V>>, big: map<K, Expiring<V>>, now: int, key: K)
    requires Shadows(small, big, now)
    ensures key in small ==> key in big && big[key] == small[key]
    ensures key in big && key !in small ==> big[key].expiry < now
  {
  }

  lemma ChooseSimulates(s: State, t: State, id: nat)
    requires Indistinguishable(s, t) && Enabled(s, Choose(id))
    ensures Enabled(t, Choose(id)) && Indistinguishable(ChooseStep(s, id, s.calls[id]), ChooseStep(t, id, t.calls[id]))
  {
    SameCallAt(s, t, id);
    hide Indistinguishable, IsRepository, ParseChallenge;
    var c := ChooseStep(s, id, s.calls[id]).calls[id];
    assert c == ChooseStep(t, id, t.calls[id]).calls[id];
    CallMoves(s, t, id, c);
  }

  lemma SameCallAt(s: State, t: State, id: nat)
    requires Indistinguishable(s, t) && id in s.calls
    ensures id in t.calls && s.clock == t.clock && SameCall(s.calls[id], t.calls[id], s.clock)
  {
    hide Shadows;
  }

  // ---------------------------------------------------------------- the same change on both sides

  lemma CallMoves(s: State, t: State, id: nat, c: Call)
    requires Indistinguishable(s, t)
    ensures Indistinguishable(s.(calls := s.calls[id := c]), t.(calls := t.calls[id := c]))
  {
    hide Shadows;
  }

  lemma ChallengesMove(s: State, t: State, key: string, entry: Option<ChallengeEntry>)
    requires Indistinguishable(s, t)
    ensures Indistinguishable(s.(challenges := Put(s.challenges, key, entry)),
                              t.(challenges := Put(t.challenges, key, entry)))
  {
    hide SameCalls;
  }

  lemma TokensMove(s: State, t: State, challenge: Challenge, entry: Option<Expiring<string>>)
    requires Indistinguishable(s, t)
    ensures Indistinguishable(s.(tokens := Put(s.tokens, challenge, entry)),
                              t.(tokens := Put(t.tokens, challenge, entry)))
  {
    hide SameCalls;
  }

  /** The map with this entry at `key`, or with none. */
  function Put<K, V>(m: map<K, V>, key: K, entry: Option<V>): map<K, V> {
    if entry.Some? then m[key := entry.value] else m - {key}
  }

  lemma FetchesMove(s: State, t: State, fetches: map<nat, Fetch>, running: map<string, nat>, issued: set<Issued>)
    requires Indistinguishable(s, t)
    ensures Indistinguishable(s.(fetches := fetches, running := running, issued := issued),
                              t.(fetches := fetches, running := running, issued := issued))
  {
    hide SameCalls, Shadows;
  }

  lemma ReturnedMoves(s: State, t: State, returned: set<Returned>)
    requires Indistinguishable(s, t)
    ensures Indistinguishable(s.(returned := returned), t.(returned := returned))
  {
    hide SameCalls, Shadows;
  }

  // ---------------------------------------------------------------- steps

  /** The call a step is about, if it moves one. */
  function Subject(e: Step): Option<nat> {
    match e
    case Enter(id, _, _) => Some(id)
    case ReadChallenge(id) => Some(id)
    case Choose(id) => Some(id)
    case Pass(id) => Some(id)
    case Check(id) => Some(id)
    case JoinFetch(id, _) => Some(id)
    case Deliver(id) => Some(id)
    case SendToken(id, _) => Some(id)
    case Forget(id) => Some(id)
    case Evict(id) => Some(id)
    case SendBare(id, _) => Some(id)
    case Remember(id) => Some(id)
    case _ => None
  }

  /** A call past its reading of the challenge map is the same on both sides. */
  lemma SameSubject(s: State, t: State, e: Step)
    requires Indistinguishable(s, t) && Enabled(s, e) && Subject(e).Some? && !e.Enter? && !e.Choose?
    ensures Subject(e).value in s.calls && Subject(e).value in t.calls
    ensures t.calls[Subject(e).value] == s.calls[Subject(e).value]
  {
    hide IsRepository, ParseChallenge;
    assert SameCall(s.calls[Subject(e).value], t.calls[Subject(e).value], s.clock);
  }

  lemma ClockSimulates(s: State, t: State, now: int)
    requires Indistinguishable(s, t) && s.clock <= now
    ensures Indistinguishable(s.(clock := now), t.(clock := now))
  {
    forall id | id in s.calls ensures SameCall(s.calls[id], t.calls[id], now) {
      assert SameCall(s.calls[id], t.calls[id], s.clock);
    }
  }

  lemma CheckSimulates(s: State, t: State, id: nat, c: Call)
    requires Indistinguishable(s, t) && c.pc.Checking?
    ensures Indistinguishable(CheckStep(s, id, c), CheckStep(t, id, c))
  {
    hide Indistinguishable, GetToken;
    SameTokens(s, t, c.pc.challenge);
    CallMoves(s, t, id, CheckStep(s, id, c).calls[id]);
  }

  lemma JoinSimulates(s: State, t: State, id: nat, c: Call, fetch: nat)
    requires Indistinguishable(s, t) && c.pc.Joining?
    ensures Indistinguishable(JoinStep(s, id, c, fetch), JoinStep(t, id, c, fetch))
  {
    hide SameCalls, Shadows, FlightKey;
    var u := JoinStep(s, id, c, fetch);
    FetchesMove(s, t, u.fetches, u.running, s.issued);
    CallMoves(s.(fetches := u.fetches, running := u.running), t.(fetches := u.fetches, running := u.running), id,
              u.calls[id]);
  }

  lemma IssueSimulates(s: State, t: State, fetch: nat, token: string, expiry: int)
    requires Indistinguishable(s, t) && fetch in s.fetches
    ensures fetch in t.fetches
    ensures Indistinguishable(IssueStep(s, fetch, token, expiry), IssueStep(t, fetch, token, expiry))
  {
    hide SameCalls, Shadows;
    var u := IssueStep(s, fetch, token, expiry);
    FetchesMove(s, t, u.fetches, s.running, u.issued);
    TokensMove(s.(fetches := u.fetches, issued := u.issued), t.(fetches := u.fetches, issued := u.issued),
               s.fetches[fetch].challenge, Some(Expiring(token, expiry)));
  }

  lemma EndFetchSimulates(s: State, t: State, fetch: nat)
    requires Indistinguishable(s, t) && fetch in s.fetches
    ensures fetch in t.fetches && Indistinguishable(EndFetchStep(s, fetch), EndFetchStep(t, fetch))
  {
    hide SameCalls, Shadows, FlightKey;
    var u := EndFetchStep(s, fetch);
    FetchesMove(s, t, u.fetches, u.running, s.issued);
  }

  lemma DeliverSimulates(s: State, t: State, id: nat, c: Call)
    requires Indistinguishable(s, t) && c.pc.Waiting? && c.pc.flight in s.fetches && c.lookups != []
    ensures c.pc.flight in t.fetches && Indistinguishable(DeliverStep(s, id, c), DeliverStep(t, id, c))
  {
    hide SameCalls, Shadows, Resolved;
    CallMoves(s, t, id, DeliverStep(s, id, c).calls[id]);
  }

  lemma SendTokenSimulates(s: State, t: State, id: nat, c: Call, answer: Answer)
    requires Indistinguishable(s, t) && c.pc.Sending?
    ensures Indistinguishable(SendTokenStep(s, id, c, answer), SendTokenStep(t, id, c, answer))
  {
    hide Indistinguishable;
    CallMoves(s, t, id, SendTokenStep(s, id, c, answer).calls[id]);
  }

  lemma SendBareSimulates(s: State, t: State, id: nat, c: Call, answer: Answer)
    requires Indistinguishable(s, t) && c.pc.Discovering? && c.repo.Some?
    ensures Indistinguishable(SendBareStep(s, id, c, answer), SendBareStep(t, id, c, answer))
  {
    hide SameCalls, Shadows, ParseChallenge;
    var u := SendBareStep(s, id, c, answer);
    ReturnedMoves(s, t, u.returned);
    CallMoves(s.(returned := u.returned), t.(returned := u.returned), id, u.calls[id]);
  }

  lemma RememberSimulates(s: State, t: State, id: nat, c: Call)
    requires Indistinguishable(s, t) && c.pc.Learning? && c.repo.Some?
    ensures Indistinguishable(RememberStep(s, id, c), RememberStep(t, id, c))
  {
    hide SameCalls, Shadows, ChallengeKey;
    var key, entry := ChallengeKey(c.req.host, c.repo.value), Some(Expiring(c.pc.challenge, s.clock + CHALLENGE_TTL));
    ChallengesMove(s, t, key, entry);
    CallMoves(s.(challenges := Put(s.challenges, key, entry)), t.(challenges := Put(t.challenges, key, entry)), id,
              RememberStep(s, id, c).calls[id]);
  }

  lemma DropSimulates(s: State, t: State, id: nat, c: Call, key: string, challenge: Challenge)
    requires Indistinguishable(s, t)
    ensures Indistinguishable(To(s.(challenges := s.challenges - {key}), id, c, Evicting(challenge)),
                              To(t.(challenges := t.challenges - {key}), id, c, Evicting(challenge)))
    ensures Indistinguishable(To(s.(tokens := s.tokens - {challenge}), id, c, Discovering(None)),
                              To(t.(tokens := t.tokens - {challenge}), id, c, Discovering(None)))
  {
    hide Indistinguishable;
    ChallengesMove(s, t, key, None);
    CallMoves(s.(challenges := s.challenges - {key}), t.(challenges := t.challenges - {key}), id,
              c.(pc := Evicting(challenge)));
    TokensMove(s, t, challenge, None);
    CallMoves(s.(tokens := s.tokens - {challenge}), t.(tokens := t.tokens - {challenge}), id,
              c.(pc := Discovering(None)));
  }

  lemma StillEnabled(s: State, t: State, e: Step)
    requires Indistinguishable(s, t) && Enabled(s, e)
    ensures Enabled(t, e)
  {
    hide IsRepository, ParseChallenge, Shadows, SameCalls, NulFree, RepoOf;
    SameDomain(s, t);
    if Subject(e).Some? && !e.Enter? {
      SameCallAt(s, t, Subject(e).value);
    }
  }

  /** A step of one call past its reading of the challenge map. */
  lemma SubjectSimulates(s: State, t: State, e: Step)
    requires Indistinguishable(s, t) && Enabled(s, e) && Enabled(t, e)
    requires Subject(e).Some? && !e.Enter? && !e.Choose? && !e.ReadChallenge?
    ensures Indistinguishable(Apply(s, e), Apply(t, e))
  {
    SameSubject(s, t, e);
    var id := Subject(e).value;
    var c := s.calls[id];
    hide Indistinguishable, IsRepository, ParseChallenge, GetToken, FlightKey, ChallengeKey, NulFree, RepoOf, Subject;
    hide Resolved, CheckStep, JoinStep, DeliverStep, SendTokenStep, SendBareStep, RememberStep, SlashFree;
    match e
    case Pass(_) => CallMoves(s, t, id, c.(sends := c.sends + [None], pc := Finished));
    case Check(_) => CheckSimulates(s, t, id, c);
    case JoinFetch(_, fetch) => JoinSimulates(s, t, id, c, fetch);
    case Deliver(_) => DeliverSimulates(s, t, id, c);
    case SendToken(_, answer) => SendTokenSimulates(s, t, id, c, answer);
    case Forget(_) => DropSimulates(s, t, id, c, ChallengeKey(c.req.host, c.repo.value), c.pc.challenge);
    case Evict(_) => DropSimulates(s, t, id, c, "", c.pc.challenge);
    case SendBare(_, answer) => SendBareSimulates(s, t, id, c, answer);
    case Remember(_) => RememberSimulates(s, t, id, c);
    case _ =>
  }

  /** Every step but a sweep can be taken on the unswept side too, and leads to the same. */
  lemma StepSimulates(s: State, t: State, e: Step)
    requires Indistinguishable(s, t) && Enabled(s, e) && !IsSweep(e)
    ensures Enabled(t, e) && Indistinguishable(Apply(s, e), Apply(t, e))
  {
    StillEnabled(s, t, e);
    hide Indistinguishable, IsRepository, ParseChallenge, NulFree, RepoOf, IssueStep, EndFetchStep, CheckStep, JoinStep;
    hide DeliverStep, SendTokenStep, SendBareStep, RememberStep, ForgetStep, EvictStep, PassStep, ReadStep, ChooseStep;
    hide SlashFree, FlightKey, ChallengeKey;
    match e
    case Tick(now) => ClockSimulates(s, t, now);
    case ReadChallenge(id) => ReadSimulates(s, t, id);
    case Choose(id) => ChooseSimulates(s, t, id);
    case Enter(id, req, repo) => CallMoves(s, t, id, Call(req, repo, Begin, [], []));
    case Issue(fetch, token, expiry) => IssueSimulates(s, t, fetch, token, expiry);
    case EndFetch(fetch) => EndFetchSimulates(s, t, fetch);
    case _ => SubjectSimulates(s, t, e);
  }

  lemma SameDomain(s: State, t: State)
    requires Indistinguishable(s, t)
    ensures s.calls.Keys == t.calls.Keys && s.fetches == t.fetches && s.clock == t.clock
  {
    hide Shadows;
  }

  /** Erasing every sweep from a run leaves a run, and at its end every call has sent the
      same requests with the same tokens, made the same lookups with the same results and
      stands where it stood: no token get or proactive lookup ever notices a sweep. */
  lemma {:induction false} SweepsAreUnobservable(steps: seq<Step>)
    requires After(steps).Some?
    ensures After(Erased(steps)).Some? && Indistinguishable(After(steps).value, After(Erased(steps)).value)
  {
    hide Enabled, Indistinguishable, Apply;
    if steps == [] {
      StartAlike();
    } else {
      var earlier, e := steps[..|steps| - 1], steps[|steps| - 1];
      SweepsAreUnobservable(earlier);
      var s, t := After(earlier).value, After(Erased(earlier)).value;
      if IsSweep(e) {
        SweepSimulates(s, t, e);
        assert Erased(steps) == Erased(earlier);
      } else {
        StepSimulates(s, t, e);
        assert Erased(steps)[..|Erased(steps)| - 1] == Erased(earlier);
      }
    }
  }

  lemma StartAlike()
    ensures Indistinguishable(START, START)
  {
  }
}

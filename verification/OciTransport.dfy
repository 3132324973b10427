/** The OCI auth transport: concurrent RoundTrip calls over two shared expiring maps and a
    group of deduplicated token fetches, with sweeps in the background. */
module OciTransport {
  import opened GoText
  import opened OciChallenge
  import opened OciTokens

  // ---------------------------------------------------------------- keys

  predicate SlashFree(host: string) {
    '/' !in host
  }

  function ChallengeKey(host: string, repo: string): string {
    host + "/" + repo
  }

  lemma ChallengeKeyInjective(h1: string, r1: string, h2: string, r2: string)
    requires SlashFree(h1) && SlashFree(h2)
    ensures ChallengeKey(h1, r1) == ChallengeKey(h2, r2) <==> h1 == h2 && r1 == r2
  {
    CutAt(h1, '/', r1);
    CutAt(h2, '/', r2);
  }

  function FlightKey(c: Challenge): string {
    c.realm + "\0" + c.service + "\0" + c.scope
  }

  predicate NulFree(c: Challenge) {
    '\0' !in c.realm && '\0' !in c.service && '\0' !in c.scope
  }

  /** Only a NUL inside a field can make two challenges share a fetch. */
  lemma FlightKeyInjective(a: Challenge, b: Challenge)
    requires NulFree(a) && NulFree(b)
    ensures FlightKey(a) == FlightKey(b) <==> a == b
  {
    FlightKeyCuts(a);
    FlightKeyCuts(b);
  }

  lemma FlightKeyCuts(c: Challenge)
    requires NulFree(c)
    ensures Cut(FlightKey(c), '\0') == (c.realm, c.service + "\0" + c.scope, true)
    ensures Cut(c.service + "\0" + c.scope, '\0') == (c.service, c.scope, true)
  {
    assert FlightKey(c) == c.realm + ['\0'] + (c.service + "\0" + c.scope);
    CutAt(c.realm, '\0', c.service + "\0" + c.scope);
    CutAt(c.service, '\0', c.scope);
  }

  /** And a NUL does: moved across a field boundary it leaves the key as it was. */
  lemma NulCollides(realm: string, x: string, y: string, scope: string)
    ensures FlightKey(Challenge(realm + "\0" + x, y, scope)) == FlightKey(Challenge(realm, x + "\0" + y, scope))
    ensures Challenge(realm + "\0" + x, y, scope) != Challenge(realm, x + "\0" + y, scope)
  {
    var s := realm + "\0" + x + "\0" + y + "\0" + scope;
    assert FlightKey(Challenge(realm + "\0" + x, y, scope)) == s;
    assert FlightKey(Challenge(realm, x + "\0" + y, scope)) == s;
    assert |realm + "\0" + x| > |realm|;
  }

  // ---------------------------------------------------------------- state

  /** A request, reduced to what RoundTrip looks at; `idempotent` is GET or HEAD. */
  datatype Req = Req(host: string, path: string, idempotent: bool, authorized: bool)

  datatype Found = Pending | Got(token: string) | FetchFailed

  /** One call of getOrFetch, and how it ended. */
  datatype Lookup = Lookup(challenge: Challenge, found: Found)

  type ChallengeEntry = Expiring<Challenge>

  /** Where a RoundTrip call is. `proactive` tells the first getOrFetch from the second. */
  datatype Pc =
    | Begin
    | Passing
    | Read(entry: Option<ChallengeEntry>)
    | Checking(challenge: Challenge, proactive: bool)
    | Joining(challenge: Challenge, proactive: bool)
    | Waiting(challenge: Challenge, proactive: bool, flight: nat)
    | Sending(challenge: Challenge, token: string, proactive: bool)
    | Forgetting(challenge: Challenge)
    | Evicting(challenge: Challenge)
    | Discovering(failed: Option<Challenge>)
    | Learning(challenge: Challenge, failed: Option<Challenge>)
    | Finished

  /** A call: its request, its repository if its path has one, the requests it has sent
      (with the token attached, if any) and its token lookups. */
  datatype Call = Call(req: Req, repo: Option<string>, pc: Pc, sends: seq<Option<string>>, lookups: seq<Lookup>)

  /** One fetch: whose challenge it runs for, the token obtained, whether it is over. */
  datatype Fetch = Fetch(challenge: Challenge, token: Option<string>, over: bool)

  /** History: a challenge a (host, repository) returned, a token issued for a challenge. */
  datatype Returned = Returned(host: string, repo: string, challenge: Challenge)
  datatype Issued = Issued(challenge: Challenge, token: string)

  datatype State = State(
    clock: int, challenges: map<string, ChallengeEntry>, tokens: Tokens, calls: map<nat, Call>,
    fetches: map<nat, Fetch>, running: map<string, nat>, returned: set<Returned>, issued: set<Issued>)

  const CHALLENGE_TTL: int := 3_600_000_000_000

  /** How upstream answers one request. */
  datatype Answer = Broken | Replied(status: int, lines: seq<string>)

  datatype Step =
    | Tick(now: int)
    | Enter(id: nat, req: Req, repo: Option<string>)
    | ReadChallenge(id: nat)
    | Choose(id: nat)
    | Pass(id: nat)
    | Check(id: nat)
    | JoinFetch(id: nat, fetch: nat)
    | Issue(fetch: nat, token: string, expiry: int)
    | EndFetch(fetch: nat)
    | Deliver(id: nat)
    | SendToken(id: nat, answer: Answer)
    | Forget(id: nat)
    | Evict(id: nat)
    | SendBare(id: nat, answer: Answer)
    | Remember(id: nat)
    | SweepChallenges(at: int)
    | SweepTokens(at: int)

  function To(s: State, id: nat, c: Call, pc: Pc): State {
    s.(calls := s.calls[id := c.(pc := pc)])
  }

  // ---------------------------------------------------------------- steps

  function ReadStep(s: State, id: nat, c: Call): State {
    if c.req.authorized || c.repo.None? then To(s, id, c, Passing)
    else
      var key := ChallengeKey(c.req.host, c.repo.value);
      To(s, id, c, Read(if key in s.challenges then Some(s.challenges[key]) else None))
  }

  /** A request with its own authorization, or for no repository, is just sent. */
  function PassStep(s: State, id: nat, c: Call): State {
    To(s, id, c.(sends := c.sends + [None]), Finished)
  }

  function ChooseStep(s: State, id: nat, c: Call): State
    requires c.pc.Read?
  {
    if c.pc.entry.Some? && s.clock < c.pc.entry.value.expiry
    then To(s, id, c, Checking(c.pc.entry.value.value, true))
    else To(s, id, c, Discovering(None))
  }

  /** The cache check of getOrFetch. */
  function CheckStep(s: State, id: nat, c: Call): State
    requires c.pc.Checking?
  {
    var Checking(challenge, proactive) := c.pc;
    var hit := GetToken(s.tokens, challenge, s.clock);
    if hit.Some?
    then To(s, id, c.(lookups := c.lookups + [Lookup(challenge, Got(hit.value))]),
            Sending(challenge, hit.value, proactive))
    else To(s, id, c.(lookups := c.lookups + [Lookup(challenge, Pending)]), Joining(challenge, proactive))
  }

  /** Group.Do: joins the fetch running under this key, or starts one. */
  function JoinStep(s: State, id: nat, c: Call, fetch: nat): State
    requires c.pc.Joining?
  {
    var Joining(challenge, proactive) := c.pc;
    var key := FlightKey(challenge);
    if key in s.running then To(s, id, c, Waiting(challenge, proactive, s.running[key]))
    else To(s.(fetches := s.fetches[fetch := Fetch(challenge, None, false)], running := s.running[key := fetch]),
            id, c, Waiting(challenge, proactive, fetch))
  }

  /** The token endpoint answers: the token enters the cache under the leader's challenge. */
  function IssueStep(s: State, fetch: nat, token: string, expiry: int): State
    requires fetch in s.fetches
  {
    var f := s.fetches[fetch];
    s.(fetches := s.fetches[fetch := f.(token := Some(token))],
       tokens := s.tokens[f.challenge := Expiring(token, expiry)],
       issued := s.issued + {Issued(f.challenge, token)})
  }

  /** The fetch is over, with its token or, if it has none, with an error. */
  function EndFetchStep(s: State, fetch: nat): State
    requires fetch in s.fetches
  {
    var f := s.fetches[fetch];
    s.(fetches := s.fetches[fetch := f.(over := true)], running := s.running - {FlightKey(f.challenge)})
  }

  function Resolved(c: Call, found: Found): Call
    requires c.lookups != []
  {
    var n := |c.lookups| - 1;
    c.(lookups := c.lookups[n := c.lookups[n].(found := found)])
  }

  /** Every waiter gets the result of the fetch it waits for. */
  function DeliverStep(s: State, id: nat, c: Call): State
    requires c.pc.Waiting? && c.pc.flight in s.fetches && c.lookups != []
  {
    var Waiting(challenge, proactive, flight) := c.pc;
    var token := s.fetches[flight].token;
    if token.Some? then To(s, id, Resolved(c, Got(token.value)), Sending(challenge, token.value, proactive))
    else To(s, id, Resolved(c, FetchFailed), if proactive then Discovering(Some(challenge)) else Finished)
  }

  function SendTokenStep(s: State, id: nat, c: Call, answer: Answer): State
    requires c.pc.Sending?
  {
    var Sending(challenge, token, proactive) := c.pc;
    var sent := c.(sends := c.sends + [Some(token)]);
    if proactive && answer.Replied? && answer.status == STATUS_UNAUTHORIZED && c.req.idempotent
    then To(s, id, sent, Forgetting(challenge)) else To(s, id, sent, Finished)
  }

  /** A token that was refused is dropped, first with the challenge, then from the cache. */
  function ForgetStep(s: State, id: nat, c: Call): State
    requires c.pc.Forgetting? && c.repo.Some?
  {
    To(s.(challenges := s.challenges - {ChallengeKey(c.req.host, c.repo.value)}), id, c, Evicting(c.pc.challenge))
  }

  function EvictStep(s: State, id: nat, c: Call): State
    requires c.pc.Evicting?
  {
    To(s.(tokens := s.tokens - {c.pc.challenge}), id, c, Discovering(None))
  }

  function SendBareStep(s: State, id: nat, c: Call, answer: Answer): State
    requires c.pc.Discovering? && c.repo.Some?
  {
    var sent := c.(sends := c.sends + [None]);
    var challenge := if answer.Broken? then None else ParseChallenge(answer.status, answer.lines);
    if !c.req.idempotent || challenge.None? then To(s, id, sent, Finished)
    else To(s.(returned := s.returned + {Returned(c.req.host, c.repo.value, challenge.value)}), id, sent,
            Learning(challenge.value, c.pc.failed))
  }

  /** Stores the challenge; fetches a token unless this very challenge just failed. */
  function RememberStep(s: State, id: nat, c: Call): State
    requires c.pc.Learning? && c.repo.Some?
  {
    var Learning(challenge, failed) := c.pc;
    var key := ChallengeKey(c.req.host, c.repo.value);
    To(s.(challenges := s.challenges[key := Expiring(challenge, s.clock + CHALLENGE_TTL)]), id, c,
       if failed == Some(challenge) then Finished else Checking(challenge, false))
  }


  /** The repository the path addresses, none if it addresses none. */
  ghost predicate RepoOf(path: string, repo: Option<string>) {
    (repo.Some? ==> IsRepository(path, repo.value)) && (repo.None? ==> forall name :: !IsRepository(path, name))
  }

  ghost predicate Enabled(s: State, e: Step) {
    match e
    case Tick(now) => s.clock <= now
    case Enter(id, req, repo) => id !in s.calls && SlashFree(req.host) && RepoOf(req.path, repo)
    case ReadChallenge(id) => id in s.calls && s.calls[id].pc.Begin?
    case Choose(id) => id in s.calls && s.calls[id].pc.Read?
    case Pass(id) => id in s.calls && s.calls[id].pc.Passing?
    case Check(id) => id in s.calls && s.calls[id].pc.Checking?
    case JoinFetch(id, fetch) => id in s.calls && s.calls[id].pc.Joining? && fetch !in s.fetches
    case Issue(fetch, _, _) => fetch in s.fetches && !s.fetches[fetch].over && s.fetches[fetch].token.None?
    case EndFetch(fetch) => fetch in s.fetches && !s.fetches[fetch].over
    case Deliver(id) =>
      id in s.calls && s.calls[id].pc.Waiting? && s.calls[id].lookups != []
      && s.calls[id].pc.flight in s.fetches && s.fetches[s.calls[id].pc.flight].over
    case SendToken(id, _) => id in s.calls && s.calls[id].pc.Sending?
    case Forget(id) => id in s.calls && s.calls[id].pc.Forgetting? && s.calls[id].repo.Some?
    case Evict(id) => id in s.calls && s.calls[id].pc.Evicting?
    case SendBare(id, answer) =>
      id in s.calls && s.calls[id].pc.Discovering? && s.calls[id].repo.Some?
      && (answer.Replied? && ParseChallenge(answer.status, answer.lines).Some? ==>
            NulFree(ParseChallenge(answer.status, answer.lines).value))
    case Remember(id) => id in s.calls && s.calls[id].pc.Learning? && s.calls[id].repo.Some?
    case SweepChallenges(at) => at <= s.clock
    case SweepTokens(at) => at <= s.clock
  }

  ghost function Apply(s: State, e: Step): State
    requires Enabled(s, e)
  {
    match e
    case Tick(now) => s.(clock := now)
    case Enter(id, req, repo) => s.(calls := s.calls[id := Call(req, repo, Begin, [], [])])
    case ReadChallenge(id) => ReadStep(s, id, s.calls[id])
    case Choose(id) => ChooseStep(s, id, s.calls[id])
    case Pass(id) => PassStep(s, id, s.calls[id])
    case Check(id) => CheckStep(s, id, s.calls[id])
    case JoinFetch(id, fetch) => JoinStep(s, id, s.calls[id], fetch)
    case Issue(fetch, token, expiry) => IssueStep(s, fetch, token, expiry)
    case EndFetch(fetch) => EndFetchStep(s, fetch)
    case Deliver(id) => DeliverStep(s, id, s.calls[id])
    case SendToken(id, answer) => SendTokenStep(s, id, s.calls[id], answer)
    case Forget(id) => ForgetStep(s, id, s.calls[id])
    case Evict(id) => EvictStep(s, id, s.calls[id])
    case SendBare(id, answer) => SendBareStep(s, id, s.calls[id], answer)
    case Remember(id) => RememberStep(s, id, s.calls[id])
    case SweepChallenges(at) => s.(challenges := Swept(s.challenges, at))
    case SweepTokens(at) => s.(tokens := Swept(s.tokens, at))
  }

  const START := State(0, map[], map[], map[], map[], map[], {}, {})

  /** The state after a run, none if some step of it was not enabled. */
  ghost function After(steps: seq<Step>): Option<State> {
    if steps == [] then Some(START)
    else
      var before := After(steps[..|steps| - 1]);
      if before.Some? && Enabled(before.value, steps[|steps| - 1])
      then Some(Apply(before.value, steps[|steps| - 1])) else None
  }

  // ---------------------------------------------------------------- the invariant

  /** The call's own (host, repository) has returned this challenge. */
  predicate Heard(s: State, c: Call, challenge: Challenge) {
    c.repo.Some? && Returned(c.req.host, c.repo.value, challenge) in s.returned
  }

  /** `token` was issued for a challenge that the call's own (host, repository) returned. */
  ghost predicate Deserved(s: State, c: Call, token: string) {
    exists challenge :: Heard(s, c, challenge) && Issued(challenge, token) in s.issued
  }

  ghost predicate SendsDeserved(s: State, c: Call) {
    forall i :: 0 <= i < |c.sends| && c.sends[i].Some? ==> Deserved(s, c, c.sends[i].value)
  }

  /** What the call is about to use is what it is entitled to. */
  predicate PcSound(s: State, c: Call) {
    match c.pc
    case Read(entry) => entry.Some? ==> Heard(s, c, entry.value.value)
    case Checking(challenge, _) => Heard(s, c, challenge)
    case Joining(challenge, _) => Heard(s, c, challenge)
    case Waiting(challenge, _, flight) =>
      Heard(s, c, challenge) && flight in s.fetches && s.fetches[flight].challenge == challenge
    case Sending(challenge, token, _) => Heard(s, c, challenge) && Issued(challenge, token) in s.issued
    case Learning(challenge, _) => Heard(s, c, challenge)
    case _ => true
  }

  /** No lookup repeats the challenge of an earlier one that failed. */
  predicate NeverRetriesFailure(lookups: seq<Lookup>) {
    forall i, j :: 0 <= i < j < |lookups| && lookups[i].found.FetchFailed? ==>
      lookups[j].challenge != lookups[i].challenge
  }

  /** The lookups and requests already made when a lookup of `challenge` begins. */
  predicate BeforeLookup(c: Call, challenge: Challenge, proactive: bool, lookups: seq<Lookup>) {
    if proactive then c.sends == [] && lookups == []
    else c.req.idempotent && 1 <= |c.sends| <= 2 && |lookups| <= 1
         && forall l :: l in lookups && l.found.FetchFailed? ==> l.challenge != challenge
  }

  predicate DuringLookup(c: Call, challenge: Challenge, proactive: bool, found: Found) {
    var n := |c.lookups|;
    n > 0 && c.lookups[n - 1] == Lookup(challenge, found) && BeforeLookup(c, challenge, proactive, c.lookups[..n - 1])
  }

  /** A call that takes no part in OCI authentication. */
  predicate Bystander(c: Call) {
    c.req.authorized || c.repo.None?
  }

  /** How many requests and lookups a call can have made, by where it is. */
  predicate Budget(c: Call) {
    match c.pc
    case Begin => c.sends == [] && c.lookups == []
    case Passing => c.sends == [] && c.lookups == [] && Bystander(c)
    case Read(_) => !Bystander(c) && c.sends == [] && c.lookups == []
    case Checking(challenge, proactive) => !Bystander(c) && BeforeLookup(c, challenge, proactive, c.lookups)
    case Joining(challenge, proactive) => !Bystander(c) && DuringLookup(c, challenge, proactive, Pending)
    case Waiting(challenge, proactive, _) => !Bystander(c) && DuringLookup(c, challenge, proactive, Pending)
    case Sending(challenge, token, proactive) => !Bystander(c) && DuringLookup(c, challenge, proactive, Got(token))
    case Forgetting(_) => !Bystander(c) && StaleToken(c)
    case Evicting(_) => !Bystander(c) && StaleToken(c)
    case Discovering(failed) => !Bystander(c) && BeforeDiscovery(c, failed)
    case Learning(_, failed) => !Bystander(c) && AfterDiscovery(c, failed)
    case Finished => Over(c)
  }

  predicate BeforeDiscovery(c: Call, failed: Option<Challenge>) {
    if failed.Some? then c.sends == [] && c.lookups == [Lookup(failed.value, FetchFailed)]
    else (c.sends == [] && c.lookups == []) || StaleToken(c)
  }

  predicate AfterDiscovery(c: Call, failed: Option<Challenge>) {
    c.req.idempotent && 1 <= |c.sends| <= 2
    && (if failed.Some? then c.lookups == [Lookup(failed.value, FetchFailed)]
        else |c.lookups| <= 1 && forall l :: l in c.lookups ==> !l.found.FetchFailed?)
  }

  predicate Over(c: Call) {
    1 <= |c.sends| <= 3 && |c.lookups| <= 2 && NeverRetriesFailure(c.lookups)
    && (!c.req.idempotent ==> |c.sends| == 1)
    && (Bystander(c) ==> c.sends == [None] && c.lookups == [])
  }

  predicate StaleToken(c: Call) {
    c.req.idempotent && |c.sends| == 1 && |c.lookups| == 1 && c.lookups[0].found.Got?
  }

  ghost predicate CallSound(s: State, c: Call) {
    SlashFree(c.req.host) && RepoOf(c.req.path, c.repo) && PcSound(s, c) && SendsDeserved(s, c) && Budget(c)
  }

  /** A remembered challenge was returned by the (host, repository) of its map key. */
  ghost predicate Remembered(returned: set<Returned>, key: string, challenge: Challenge) {
    exists x :: x in returned && x.challenge == challenge && key == ChallengeKey(x.host, x.repo)
  }

  predicate FetchSound(issued: set<Issued>, f: Fetch) {
    NulFree(f.challenge) && (f.token.Some? ==> Issued(f.challenge, f.token.value) in issued)
  }

  predicate Running(fetches: map<nat, Fetch>, key: string, fetch: nat) {
    fetch in fetches && FlightKey(fetches[fetch].challenge) == key
  }

  ghost predicate Inv(s: State) {
    && (forall x :: x in s.returned ==> NulFree(x.challenge) && SlashFree(x.host))
    && (forall key :: key in s.challenges ==> Remembered(s.returned, key, s.challenges[key].value))
    && (forall c :: c in s.tokens ==> Issued(c, s.tokens[c].value) in s.issued)
    && (forall f :: f in s.fetches ==> FetchSound(s.issued, s.fetches[f]))
    && (forall key :: key in s.running ==> Running(s.fetches, key, s.running[key]))
    && (forall id :: id in s.calls ==> CallSound(s, s.calls[id]))
  }

  // ---------------------------------------------------------------- every step keeps it

  /** History only grows, and a fetch keeps its challenge. */
  ghost predicate Grows(s: State, t: State) {
    && s.returned <= t.returned && s.issued <= t.issued
    && (forall f :: f in s.fetches ==> f in t.fetches && t.fetches[f].challenge == s.fetches[f].challenge)
  }

  lemma CallSoundGrows(s: State, t: State, c: Call)
    requires CallSound(s, c) && Grows(s, t)
    ensures CallSound(t, c)
  {
    hide Budget, RepoOf;
    forall i | 0 <= i < |c.sends| && c.sends[i].Some? ensures Deserved(t, c, c.sends[i].value) {
      var challenge :| Heard(s, c, challenge) && Issued(challenge, c.sends[i].value) in s.issued;
      assert Heard(t, c, challenge);
    }
  }

  lemma CallKeeps(s: State, id: nat, c: Call)
    requires Inv(s) && CallSound(s, c)
    ensures Inv(s.(calls := s.calls[id := c]))
  {
    hide Budget, RepoOf;
    var t := s.(calls := s.calls[id := c]);
    forall other | other in t.calls ensures CallSound(t, t.calls[other]) {
      CallSoundGrows(s, t, t.calls[other]);
    }
  }

  /** A call moves on: same request, sound place, deserved tokens, budget kept. */
  lemma Moves(s: State, id: nat, c: Call, d: Call)
    requires Inv(s) && CallSound(s, c) && d.req == c.req && d.repo == c.repo
    requires PcSound(s, d) && SendsDeserved(s, d) && Budget(d)
    ensures Inv(s.(calls := s.calls[id := d]))
  {
    hide Inv, PcSound, SendsDeserved, Budget, RepoOf;
    CallKeeps(s, id, d);
  }

  lemma CallsKeep(s: State, t: State)
    requires Inv(s) && Grows(s, t) && t.calls == s.calls
    ensures forall id :: id in t.calls ==> CallSound(t, t.calls[id])
  {
    hide CallSound;
    forall id | id in t.calls ensures CallSound(t, t.calls[id]) {
      CallSoundGrows(s, t, s.calls[id]);
    }
  }

  lemma HearingKeeps(s: State, x: Returned)
    requires Inv(s) && NulFree(x.challenge) && SlashFree(x.host)
    ensures Inv(s.(returned := s.returned + {x}))
  {
    var t := s.(returned := s.returned + {x});
    CallsKeep(s, t);
    forall key | key in t.challenges ensures Remembered(t.returned, key, t.challenges[key].value) {
      assert Remembered(s.returned, key, s.challenges[key].value);
    }
  }

  lemma RememberingKeeps(s: State, x: Returned, expiry: int)
    requires Inv(s) && x in s.returned
    ensures Inv(s.(challenges := s.challenges[ChallengeKey(x.host, x.repo) := Expiring(x.challenge, expiry)]))
  {
    hide CallSound;
    var t := s.(challenges := s.challenges[ChallengeKey(x.host, x.repo) := Expiring(x.challenge, expiry)]);
    CallsKeep(s, t);
    assert Remembered(t.returned, ChallengeKey(x.host, x.repo), x.challenge);
  }

  /** Dropping entries from the two maps is always safe. */
  lemma DroppingKeeps(s: State, challenges: map<string, ChallengeEntry>, tokens: Tokens)
    requires Inv(s)
    requires forall k :: k in challenges ==> k in s.challenges && challenges[k] == s.challenges[k]
    requires forall k :: k in tokens ==> k in s.tokens && tokens[k] == s.tokens[k]
    ensures Inv(s.(challenges := challenges, tokens := tokens))
  {
    hide CallSound;
    CallsKeep(s, s.(challenges := challenges, tokens := tokens));
  }

  lemma TickKeeps(s: State, now: int)
    requires Inv(s)
    ensures Inv(s.(clock := now))
  {
    hide CallSound;
    CallsKeep(s, s.(clock := now));
  }

  lemma StartFetchKeeps(s: State, challenge: Challenge, fetch: nat)
    requires Inv(s) && NulFree(challenge) && fetch !in s.fetches
    ensures Inv(s.(fetches := s.fetches[fetch := Fetch(challenge, None, false)],
                   running := s.running[FlightKey(challenge) := fetch]))
  {
    hide CallSound;
    var t := s.(fetches := s.fetches[fetch := Fetch(challenge, None, false)],
                running := s.running[FlightKey(challenge) := fetch]);
    CallsKeep(s, t);
    forall key | key in t.running ensures Running(t.fetches, key, t.running[key]) {
      if key != FlightKey(challenge) {
        assert Running(s.fetches, key, s.running[key]);
      }
    }
  }

  lemma IssueKeeps(s: State, fetch: nat, token: string, expiry: int)
    requires Inv(s) && fetch in s.fetches
    ensures Inv(IssueStep(s, fetch, token, expiry))
  {
    hide CallSound;
    var t := IssueStep(s, fetch, token, expiry);
    CallsKeep(s, t);
    assert FetchSound(s.issued, s.fetches[fetch]);
    forall key | key in t.running ensures Running(t.fetches, key, t.running[key]) {
      assert Running(s.fetches, key, s.running[key]);
    }
    forall f | f in t.fetches ensures FetchSound(t.issued, t.fetches[f]) {
      assert f in s.fetches && FetchSound(s.issued, s.fetches[f]);
    }
  }

  lemma EndFetchKeeps(s: State, fetch: nat)
    requires Inv(s) && fetch in s.fetches
    ensures Inv(EndFetchStep(s, fetch))
  {
    hide CallSound;
    var t := EndFetchStep(s, fetch);
    CallsKeep(s, t);
    forall key | key in t.running ensures Running(t.fetches, key, t.running[key]) {
      assert Running(s.fetches, key, s.running[key]);
    }
    forall f | f in t.fetches ensures FetchSound(t.issued, t.fetches[f]) {
      assert f in s.fetches && FetchSound(s.issued, s.fetches[f]);
    }
  }

  lemma CallIsSound(s: State, id: nat)
    requires Inv(s) && id in s.calls
    ensures CallSound(s, s.calls[id])
  {
    hide CallSound;
  }

  /** A cached token was issued for the challenge it is cached under. */
  lemma CachedIsIssued(s: State, challenge: Challenge)
    requires Inv(s)
    ensures var hit := GetToken(s.tokens, challenge, s.clock);
            hit.Some? ==> Issued(challenge, hit.value) in s.issued
  {
    hide CallSound;
  }

  lemma ReadKeeps(s: State, id: nat)
    requires Inv(s) && Enabled(s, ReadChallenge(id))
    ensures Inv(ReadStep(s, id, s.calls[id]))
  {
    var c := s.calls[id];
    assert CallSound(s, c);
    if !Bystander(c) {
      var key := ChallengeKey(c.req.host, c.repo.value);
      if key in s.challenges {
        assert Remembered(s.returned, key, s.challenges[key].value);
        var x :| x in s.returned && x.challenge == s.challenges[key].value && key == ChallengeKey(x.host, x.repo);
        ChallengeKeyInjective(x.host, x.repo, c.req.host, c.repo.value);
        assert Heard(s, c, s.challenges[key].value);
      }
    }
    CallKeeps(s, id, ReadStep(s, id, c).calls[id]);
  }

  lemma ChooseKeeps(s: State, id: nat)
    requires Inv(s) && Enabled(s, Choose(id))
    ensures Inv(ChooseStep(s, id, s.calls[id]))
  {
    hide Inv, RepoOf, SendsDeserved;
    var c := s.calls[id];
    CallIsSound(s, id);
    var d := ChooseStep(s, id, c).calls[id];
    SameSends(s, c, d);
    Moves(s, id, c, d);
  }

  lemma PassKeeps(s: State, id: nat)
    requires Inv(s) && Enabled(s, Pass(id))
    ensures Inv(Apply(s, Pass(id)))
  {
    assert CallSound(s, s.calls[id]);
    CallKeeps(s, id, s.calls[id].(sends := s.calls[id].sends + [None], pc := Finished));
  }

  /** Appending a lookup keeps the earlier ones where they were. */
  lemma LookedUp(c: Call, challenge: Challenge, proactive: bool, found: Found)
    requires BeforeLookup(c, challenge, proactive, c.lookups)
    ensures DuringLookup(c.(lookups := c.lookups + [Lookup(challenge, found)]), challenge, proactive, found)
  {
    var d := c.(lookups := c.lookups + [Lookup(challenge, found)]);
    assert d.lookups[..|d.lookups| - 1] == c.lookups;
  }

  lemma CheckKeeps(s: State, id: nat)
    requires Inv(s) && Enabled(s, Check(id))
    ensures Inv(CheckStep(s, id, s.calls[id]))
  {
    hide Inv, PcSound, Budget, RepoOf, SendsDeserved, GetToken, SlashFree;
    var c := s.calls[id];
    CallIsSound(s, id);
    var d := CheckStep(s, id, c).calls[id];
    CheckedPc(s, id, c);
    CheckedBudget(s, id, c);
    SameSends(s, c, d);
    Moves(s, id, c, d);
  }

  lemma BystanderSame(c: Call, d: Call)
    requires d.req == c.req && d.repo == c.repo
    ensures Bystander(d) == Bystander(c)
  {
  }

  lemma CheckedPc(s: State, id: nat, c: Call)
    requires Inv(s) && c.pc.Checking? && PcSound(s, c)
    ensures PcSound(s, CheckStep(s, id, c).calls[id])
  {
    hide Inv, GetToken;
    CachedIsIssued(s, c.pc.challenge);
  }

  lemma CheckedBudget(s: State, id: nat, c: Call)
    requires c.pc.Checking? && Budget(c)
    ensures Budget(CheckStep(s, id, c).calls[id])
  {
    var Checking(challenge, proactive) := c.pc;
    var hit := GetToken(s.tokens, challenge, s.clock);
    LookupBegins(c);
    hide Budget, GetToken, BeforeLookup, DuringLookup, Bystander;
    if hit.Some? {
      LookupMade(c, challenge, proactive, Got(hit.value), Sending(challenge, hit.value, proactive));
    } else {
      LookupMade(c, challenge, proactive, Pending, Joining(challenge, proactive));
    }
  }

  lemma LookupMade(c: Call, challenge: Challenge, proactive: bool, found: Found, pc: Pc)
    requires !Bystander(c) && BeforeLookup(c, challenge, proactive, c.lookups)
    requires (found.Pending? && pc == Joining(challenge, proactive))
             || (found.Got? && pc == Sending(challenge, found.token, proactive))
    ensures Budget(c.(lookups := c.lookups + [Lookup(challenge, found)], pc := pc))
  {
    hide Budget, BeforeLookup, DuringLookup, Bystander;
    var e := c.(lookups := c.lookups + [Lookup(challenge, found)]);
    var d := e.(pc := pc);
    LookedUp(c, challenge, proactive, found);
    DuringSame(e, d, challenge, proactive, found);
    BystanderSame(c, d);
    LookupGoesOn(d, challenge, proactive, found);
  }

  lemma LookupBegins(c: Call)
    requires c.pc.Checking? && Budget(c)
    ensures !Bystander(c) && BeforeLookup(c, c.pc.challenge, c.pc.proactive, c.lookups)
  {
    hide BeforeLookup, Bystander;
  }

  lemma LookupGoesOn(c: Call, challenge: Challenge, proactive: bool, found: Found)
    requires !Bystander(c) && DuringLookup(c, challenge, proactive, found)
    ensures found.Pending? && c.pc == Joining(challenge, proactive) ==> Budget(c)
    ensures found.Got? && c.pc == Sending(challenge, found.token, proactive) ==> Budget(c)
  {
    hide DuringLookup, Bystander;
  }

  /** Being in a lookup does not depend on the program counter. */
  lemma DuringSame(c: Call, d: Call, challenge: Challenge, proactive: bool, found: Found)
    requires DuringLookup(c, challenge, proactive, found)
    requires d.req == c.req && d.sends == c.sends && d.lookups == c.lookups
    ensures DuringLookup(d, challenge, proactive, found)
  {
  }

  /** The fetch a call joins runs for the call's own challenge. */
  lemma JoinedFetch(s: State, c: Call)
    requires Inv(s) && CallSound(s, c) && c.pc.Joining? && FlightKey(c.pc.challenge) in s.running
    ensures var f := s.running[FlightKey(c.pc.challenge)];
            f in s.fetches && s.fetches[f].challenge == c.pc.challenge
  {
    hide CallSound, Budget;
    var key := FlightKey(c.pc.challenge);
    HeardNow(s, c);
    assert Running(s.fetches, key, s.running[key]) && FetchSound(s.issued, s.fetches[s.running[key]]);
    FlightKeyInjective(c.pc.challenge, s.fetches[s.running[key]].challenge);
  }

  lemma HeardNow(s: State, c: Call)
    requires Inv(s) && CallSound(s, c)
    ensures PcSound(s, c) && SendsDeserved(s, c) && Budget(c)
    ensures c.pc.Joining? ==> NulFree(c.pc.challenge)
  {
    hide RepoOf, SendsDeserved, Budget;
  }

  lemma JoinKeeps(s: State, id: nat, fetch: nat)
    requires Inv(s) && Enabled(s, JoinFetch(id, fetch))
    ensures Inv(JoinStep(s, id, s.calls[id], fetch))
  {
    hide Inv, RepoOf, SendsDeserved, BeforeLookup, DuringLookup, NulFree, FlightKey;
    var c := s.calls[id];
    CallIsSound(s, id);
    HeardNow(s, c);
    var Joining(challenge, proactive) := c.pc;
    var key := FlightKey(challenge);
    var d := JoinStep(s, id, c, fetch).calls[id];
    DuringSame(c, d, challenge, proactive, Pending);
    if key in s.running {
      JoinedFetch(s, c);
      SameSends(s, c, d);
      Moves(s, id, c, d);
    } else {
      StartFetchKeeps(s, challenge, fetch);
      var t := s.(fetches := s.fetches[fetch := Fetch(challenge, None, false)], running := s.running[key := fetch]);
      CallSoundGrows(s, t, c);
      SameSends(t, c, d);
      Moves(t, id, c, d);
    }
  }

  /** Filling in how the last lookup ended. */
  lemma ResolvedLookup(c: Call, challenge: Challenge, proactive: bool, found: Found)
    requires DuringLookup(c, challenge, proactive, Pending)
    ensures DuringLookup(Resolved(c, found), challenge, proactive, found)
    ensures NeverRetriesFailure(Resolved(c, found).lookups)
    ensures Resolved(c, found).sends == c.sends && |Resolved(c, found).lookups| == |c.lookups|
    ensures proactive ==> Resolved(c, found).lookups == [Lookup(challenge, found)]
  {
    var d, n := Resolved(c, found), |c.lookups| - 1;
    assert d.lookups[..n] == c.lookups[..n];
    assert forall i :: 0 <= i < n ==> c.lookups[i] in c.lookups[..n] && d.lookups[i] == c.lookups[i];
    assert d.lookups == d.lookups[..n] + [Lookup(challenge, found)];
  }

  /** How a delivered result fits the budget. */
  lemma DeliverBudget(c: Call, challenge: Challenge, proactive: bool, token: Option<string>)
    requires !Bystander(c) && DuringLookup(c, challenge, proactive, Pending)
    ensures token.Some? ==> Budget(Resolved(c, Got(token.value)).(pc := Sending(challenge, token.value, proactive)))
    ensures token.None? && proactive ==> Budget(Resolved(c, FetchFailed).(pc := Discovering(Some(challenge))))
    ensures token.None? && !proactive ==> Budget(Resolved(c, FetchFailed).(pc := Finished))
  {
    var found := if token.Some? then Got(token.value) else FetchFailed;
    ResolvedLookup(c, challenge, proactive, found);
    DuringNeverRetries(Resolved(c, found), challenge, proactive, found);
  }

  lemma WaitedFetch(s: State, fetch: nat)
    requires Inv(s) && fetch in s.fetches
    ensures FetchSound(s.issued, s.fetches[fetch])
  {
    hide CallSound;
  }

  lemma DeliverKeeps(s: State, id: nat)
    requires Inv(s) && Enabled(s, Deliver(id))
    ensures Inv(DeliverStep(s, id, s.calls[id]))
  {
    hide Inv, RepoOf, SendsDeserved, BeforeLookup, DuringLookup, Over, BeforeDiscovery;
    var c := s.calls[id];
    CallIsSound(s, id);
    var Waiting(challenge, proactive, flight) := c.pc;
    var token := s.fetches[flight].token;
    WaitedFetch(s, flight);
    DeliverBudget(c, challenge, proactive, token);
    var d := DeliverStep(s, id, c).calls[id];
    SameSends(s, c, d);
    Moves(s, id, c, d);
  }

  lemma SentOne(s: State, c: Call, sent: Option<string>)
    requires SendsDeserved(s, c) && (sent.Some? ==> Deserved(s, c, sent.value))
    ensures SendsDeserved(s, c.(sends := c.sends + [sent]))
  {
    var d := c.(sends := c.sends + [sent]);
    forall i | 0 <= i < |d.sends| && d.sends[i].Some? ensures Deserved(s, d, d.sends[i].value) {
      assert i < |c.sends| ==> d.sends[i] == c.sends[i];
      var token := d.sends[i].value;
      assert Deserved(s, c, token);
      var challenge :| Heard(s, c, challenge) && Issued(challenge, token) in s.issued;
      assert Heard(s, d, challenge);
    }
  }

  /** A completed lookup leaves no failure to retry. */
  lemma DuringNeverRetries(c: Call, challenge: Challenge, proactive: bool, found: Found)
    requires DuringLookup(c, challenge, proactive, found)
    ensures NeverRetriesFailure(c.lookups) && |c.lookups| <= 2 && (proactive ==> |c.lookups| == 1)
  {
    var n := |c.lookups| - 1;
    assert forall i :: 0 <= i < n ==> c.lookups[i] in c.lookups[..n];
    assert proactive ==> |c.lookups[..n]| == 0;
  }

  lemma SendTokenBudget(c: Call, challenge: Challenge, token: string, proactive: bool)
    requires !Bystander(c) && DuringLookup(c, challenge, proactive, Got(token))
    ensures Budget(c.(sends := c.sends + [Some(token)], pc := Finished))
    ensures proactive && c.req.idempotent ==> Budget(c.(sends := c.sends + [Some(token)], pc := Forgetting(challenge)))
  {
    DuringNeverRetries(c, challenge, proactive, Got(token));
  }

  lemma SendTokenKeeps(s: State, id: nat, answer: Answer)
    requires Inv(s) && Enabled(s, SendToken(id, answer))
    ensures Inv(SendTokenStep(s, id, s.calls[id], answer))
  {
    hide RepoOf, SendsDeserved, BeforeLookup, DuringLookup, Over, StaleToken;
    var c := s.calls[id];
    assert CallSound(s, c);
    var Sending(challenge, token, proactive) := c.pc;
    assert Deserved(s, c, token);
    SentOne(s, c, Some(token));
    SendTokenBudget(c, challenge, token, proactive);
    var d := SendTokenStep(s, id, c, answer).calls[id];
    SameSends(s, c.(sends := c.sends + [Some(token)]), d);
    Moves(s, id, c, d);
  }

  lemma SameSends(s: State, c: Call, d: Call)
    requires SendsDeserved(s, c) && d.sends == c.sends && d.req == c.req && d.repo == c.repo
    ensures SendsDeserved(s, d)
  {
    forall i | 0 <= i < |d.sends| && d.sends[i].Some? ensures Deserved(s, d, d.sends[i].value) {
      var challenge :| Heard(s, c, challenge) && Issued(challenge, c.sends[i].value) in s.issued;
      assert Heard(s, d, challenge);
    }
  }

  lemma SendBareKeeps(s: State, id: nat, answer: Answer)
    requires Inv(s) && Enabled(s, SendBare(id, answer))
    ensures Inv(SendBareStep(s, id, s.calls[id], answer))
  {
    hide Inv, RepoOf, ParseChallenge, SendsDeserved;
    var c := s.calls[id];
    CallIsSound(s, id);
    SentOne(s, c, None);
    var sent := c.(sends := c.sends + [None]);
    var challenge := if answer.Broken? then None else ParseChallenge(answer.status, answer.lines);
    if !c.req.idempotent || challenge.None? {
      SameSends(s, sent, sent.(pc := Finished));
      CallKeeps(s, id, sent.(pc := Finished));
    } else {
      var x := Returned(c.req.host, c.repo.value, challenge.value);
      HearingKeeps(s, x);
      var t := s.(returned := s.returned + {x});
      CallSoundGrows(s, t, c);
      SentOne(t, c, None);
      SameSends(t, sent, sent.(pc := Learning(challenge.value, c.pc.failed)));
      CallKeeps(t, id, sent.(pc := Learning(challenge.value, c.pc.failed)));
    }
  }

  lemma RememberBudget(c: Call, challenge: Challenge, failed: Option<Challenge>)
    requires !Bystander(c) && AfterDiscovery(c, failed)
    ensures Budget(c.(pc := if failed == Some(challenge) then Finished else Checking(challenge, false)))
  {
  }

  lemma RememberKeeps(s: State, id: nat)
    requires Inv(s) && Enabled(s, Remember(id))
    ensures Inv(RememberStep(s, id, s.calls[id]))
  {
    hide Inv, RepoOf, SendsDeserved, BeforeLookup, Over, AfterDiscovery;
    var c := s.calls[id];
    CallIsSound(s, id);
    var Learning(challenge, failed) := c.pc;
    var x := Returned(c.req.host, c.repo.value, challenge);
    RememberingKeeps(s, x, s.clock + CHALLENGE_TTL);
    var key := ChallengeKey(x.host, x.repo);
    var t := s.(challenges := s.challenges[key := Expiring(challenge, s.clock + CHALLENGE_TTL)]);
    CallSoundGrows(s, t, c);
    RememberBudget(c, challenge, failed);
    var d := c.(pc := if failed == Some(challenge) then Finished else Checking(challenge, false));
    SameSends(t, c, d);
    Moves(t, id, c, d);
  }

  lemma ForgetKeeps(s: State, id: nat)
    requires Inv(s) && Enabled(s, Forget(id))
    ensures Inv(Apply(s, Forget(id)))
  {
    var c := s.calls[id];
    assert CallSound(s, c);
    var t := s.(challenges := s.challenges - {ChallengeKey(c.req.host, c.repo.value)});
    DroppingKeeps(s, t.challenges, s.tokens);
    CallSoundGrows(s, t, c);
    SameSends(t, c, c.(pc := Evicting(c.pc.challenge)));
    CallKeeps(t, id, c.(pc := Evicting(c.pc.challenge)));
  }

  lemma EvictKeeps(s: State, id: nat)
    requires Inv(s) && Enabled(s, Evict(id))
    ensures Inv(Apply(s, Evict(id)))
  {
    var c := s.calls[id];
    assert CallSound(s, c);
    var t := s.(tokens := s.tokens - {c.pc.challenge});
    DroppingKeeps(s, s.challenges, t.tokens);
    CallSoundGrows(s, t, c);
    SameSends(t, c, c.(pc := Discovering(None)));
    CallKeeps(t, id, c.(pc := Discovering(None)));
  }

  lemma ApplyKeeps(s: State, e: Step)
    requires Inv(s) && Enabled(s, e)
    ensures Inv(Apply(s, e))
  {
    hide Inv, RepoOf;
    match e
    case Tick(now) => TickKeeps(s, now);
    case Enter(id, req, repo) => CallStarts(s, id, req, repo);
    case ReadChallenge(id) => ReadKeeps(s, id);
    case Choose(id) => ChooseKeeps(s, id);
    case Pass(id) => PassKeeps(s, id);
    case Check(id) => CheckKeeps(s, id);
    case JoinFetch(id, fetch) => JoinKeeps(s, id, fetch);
    case Issue(fetch, token, expiry) => IssueKeeps(s, fetch, token, expiry);
    case EndFetch(fetch) => EndFetchKeeps(s, fetch);
    case Deliver(id) => DeliverKeeps(s, id);
    case SendToken(id, answer) => SendTokenKeeps(s, id, answer);
    case Forget(id) => ForgetKeeps(s, id);
    case Evict(id) => EvictKeeps(s, id);
    case SendBare(id, answer) => SendBareKeeps(s, id, answer);
    case Remember(id) => RememberKeeps(s, id);
    case SweepChallenges(at) => DroppingKeeps(s, Swept(s.challenges, at), s.tokens);
    case SweepTokens(at) => DroppingKeeps(s, s.challenges, Swept(s.tokens, at));
  }

  lemma CallStarts(s: State, id: nat, req: Req, repo: Option<string>)
    requires Inv(s) && Enabled(s, Enter(id, req, repo))
    ensures Inv(Apply(s, Enter(id, req, repo)))
  {
    CallKeeps(s, id, Call(req, repo, Begin, [], []));
  }

  /** Every state of every run satisfies the invariant. */
  lemma {:induction false} RunsKeepInv(steps: seq<Step>)
    requires After(steps).Some?
    ensures Inv(After(steps).value)
  {
    if steps != [] {
      RunsKeepInv(steps[..|steps| - 1]);
      ApplyKeeps(After(steps[..|steps| - 1]).value, steps[|steps| - 1]);
    }
  }

  // ---------------------------------------------------------------- what every run guarantees

  /** Every token a call has attached was issued for a challenge that the call's own
      (host, repository) had returned. */
  lemma TokensAreDeserved(steps: seq<Step>, id: nat, i: nat)
    requires After(steps).Some? && id in After(steps).value.calls
    requires i < |After(steps).value.calls[id].sends| && After(steps).value.calls[id].sends[i].Some?
    ensures var s := After(steps).value;
            var c := s.calls[id];
            c.repo.Some? && IsRepository(c.req.path, c.repo.value)
            && exists challenge :: Returned(c.req.host, c.repo.value, challenge) in s.returned
                                   && Issued(challenge, c.sends[i].value) in s.issued
  {
    RunsKeepInv(steps);
    var s := After(steps).value;
    var c := s.calls[id];
    assert CallSound(s, c);
    assert Deserved(s, c, c.sends[i].value);
  }

  /** One call sends at most three requests and makes at most two lookups, never one for a
      challenge whose fetch just failed in it; once over it has sent at least one, and just
      one if it is not a GET or HEAD, or brought its own authorization, or is not OCI. */
  lemma CallsAreBounded(steps: seq<Step>, id: nat)
    requires After(steps).Some? && id in After(steps).value.calls
    ensures var c := After(steps).value.calls[id];
            && |c.sends| <= 3 && |c.lookups| <= 2 && NeverRetriesFailure(c.lookups)
            && (c.pc.Finished? ==> |c.sends| >= 1)
            && (!c.req.idempotent ==> |c.sends| <= 1)
            && (Bystander(c) ==> c.lookups == [] && (c.sends == [] || c.sends == [None]))
  {
    RunsKeepInv(steps);
    var s := After(steps).value;
    assert CallSound(s, s.calls[id]);
    BudgetBounds(s.calls[id]);
  }

  lemma BudgetBounds(c: Call)
    requires Budget(c)
    ensures |c.sends| <= 3 && |c.lookups| <= 2 && NeverRetriesFailure(c.lookups)
    ensures c.pc.Finished? ==> |c.sends| >= 1
    ensures !c.req.idempotent ==> |c.sends| <= 1
    ensures Bystander(c) ==> c.lookups == [] && (c.sends == [] || c.sends == [None])
  {
    match c.pc
    case Joining(challenge, proactive) => DuringNeverRetries(c, challenge, proactive, Pending);
    case Waiting(challenge, proactive, _) => DuringNeverRetries(c, challenge, proactive, Pending);
    case Sending(challenge, token, proactive) => DuringNeverRetries(c, challenge, proactive, Got(token));
    case _ =>
  }
}

/** Concurrent token lookups share one fetch. */
module OciSharing {
  import opened GoText
  import opened OciChallenge
  import opened OciTokens
  import opened OciTransport

  /** A fetch in progress is the one its key is running. */
  predicate InProgress(s: State, f: nat) {
    f in s.fetches && !s.fetches[f].over
  }

  predicate Registered(s: State, f: nat)
    requires f in s.fetches
  {
    var key := FlightKey(s.fetches[f].challenge);
    key in s.running && s.running[key] == f
  }

  ghost predicate AllRegistered(s: State) {
    && (forall f :: InProgress(s, f) ==> Registered(s, f))
    && (forall key :: key in s.running ==> InProgress(s, s.running[key]) && RunsUnder(s, key))
  }

  predicate RunsUnder(s: State, key: string)
    requires key in s.running
  {
    s.running[key] in s.fetches && FlightKey(s.fetches[s.running[key]].challenge) == key
  }

  /** The fetches and the keys they run under are left alone by every other step. */
  lemma OtherSteps(s: State, e: Step)
    requires Enabled(s, e) && !e.JoinFetch? && !e.Issue? && !e.EndFetch?
    ensures Apply(s, e).fetches == s.fetches && Apply(s, e).running == s.running
  {
    hide FlightKey, ChallengeKey, ParseChallenge, GetToken, Swept, Resolved, RepoOf, NulFree;
  }

  lemma FetchSteps(s: State, e: Step)
    requires Inv(s) && AllRegistered(s) && Enabled(s, e) && (e.JoinFetch? || e.Issue? || e.EndFetch?)
    ensures AllRegistered(Apply(s, e))
  {
    hide Inv, FlightKey, ChallengeKey, ParseChallenge, GetToken, RepoOf, NulFree;
    var t := Apply(s, e);
    forall f | InProgress(t, f) ensures Registered(t, f) {
      assert f in s.fetches ==> InProgress(s, f) && Registered(s, f);
      if e.EndFetch? {
        assert Registered(s, e.fetch);
      }
    }
    forall key | key in t.running ensures InProgress(t, t.running[key]) && RunsUnder(t, key) {
      assert key in s.running ==> InProgress(s, s.running[key]) && RunsUnder(s, key);
      if e.EndFetch? {
        assert Registered(s, e.fetch);
      }
    }
  }

  lemma SameRegistry(s: State, t: State)
    requires AllRegistered(s) && t.fetches == s.fetches && t.running == s.running
    ensures AllRegistered(t)
  {
    forall f | InProgress(t, f) ensures Registered(t, f) {
      assert InProgress(s, f) && Registered(s, f);
    }
    forall key | key in t.running ensures InProgress(t, t.running[key]) && RunsUnder(t, key) {
      assert InProgress(s, s.running[key]) && RunsUnder(s, key);
    }
  }

  lemma {:induction false} RunsRegister(steps: seq<Step>)
    requires After(steps).Some?
    ensures AllRegistered(After(steps).value)
  {
    hide Enabled, Apply, Inv;
    if steps != [] {
      var earlier, e := steps[..|steps| - 1], steps[|steps| - 1];
      RunsRegister(earlier);
      RunsKeepInv(earlier);
      var s := After(earlier).value;
      if e.JoinFetch? || e.Issue? || e.EndFetch? {
        FetchSteps(s, e);
      } else {
        OtherSteps(s, e);
        SameRegistry(s, Apply(s, e));
      }
    }
  }

  /** In every run two fetches in progress have different keys: at most one for a challenge. */
  lemma OneFetchInProgress(steps: seq<Step>, f: nat, g: nat)
    requires After(steps).Some? && InProgress(After(steps).value, f) && InProgress(After(steps).value, g) && f != g
    ensures var fetches := After(steps).value.fetches;
            && FlightKey(fetches[f].challenge) != FlightKey(fetches[g].challenge)
            && fetches[f].challenge != fetches[g].challenge
  {
    RunsRegister(steps);
    var s := After(steps).value;
    hide After, FlightKey;
    assert Registered(s, f) && Registered(s, g);
  }

  /** The fetch a call waits for. */
  predicate WaitsFor(s: State, id: nat, f: nat) {
    id in s.calls && s.calls[id].pc.Waiting? && s.calls[id].pc.flight == f
  }

  /** Calls waiting at once for one challenge wait for the same fetch while it is in progress,
      and it is a fetch for that challenge. */
  lemma WaitersShare(steps: seq<Step>, a: nat, f: nat, b: nat, g: nat)
    requires After(steps).Some? && WaitsFor(After(steps).value, a, f) && WaitsFor(After(steps).value, b, g)
    requires After(steps).value.calls[a].pc.challenge == After(steps).value.calls[b].pc.challenge
    requires InProgress(After(steps).value, f) && InProgress(After(steps).value, g)
    ensures f == g && After(steps).value.fetches[f].challenge == After(steps).value.calls[a].pc.challenge
  {
    RunsKeepInv(steps);
    var s := After(steps).value;
    CallIsSound(s, a);
    CallIsSound(s, b);
    if f != g {
      OneFetchInProgress(steps, f, g);
    }
  }

  /** A call that joins while a fetch for its challenge is in progress starts none and waits
      for that one; otherwise it starts one of its own. */
  lemma JoinersWait(steps: seq<Step>, id: nat, newFetch: nat)
    requires After(steps).Some? && Enabled(After(steps).value, JoinFetch(id, newFetch))
    ensures var s, t := After(steps).value, Apply(After(steps).value, JoinFetch(id, newFetch));
            var challenge := s.calls[id].pc.challenge;
            && (forall f :: InProgress(s, f) && s.fetches[f].challenge == challenge ==>
                  t.fetches == s.fetches && WaitsFor(t, id, f))
            && ((forall f :: InProgress(s, f) ==> s.fetches[f].challenge != challenge) ==>
                  t.fetches == s.fetches[newFetch := Fetch(challenge, None, false)] && WaitsFor(t, id, newFetch))
  {
    RunsKeepInv(steps);
    RunsRegister(steps);
    Joins(After(steps).value, id, newFetch);
  }

  lemma Joins(s: State, id: nat, newFetch: nat)
    requires Inv(s) && AllRegistered(s) && Enabled(s, JoinFetch(id, newFetch))
    ensures var t := Apply(s, JoinFetch(id, newFetch));
            var challenge := s.calls[id].pc.challenge;
            && (forall f :: InProgress(s, f) && s.fetches[f].challenge == challenge ==>
                  t.fetches == s.fetches && WaitsFor(t, id, f))
            && ((forall f :: InProgress(s, f) ==> s.fetches[f].challenge != challenge) ==>
                  t.fetches == s.fetches[newFetch := Fetch(challenge, None, false)] && WaitsFor(t, id, newFetch))
  {
    var c := s.calls[id];
    CallIsSound(s, id);
    hide Inv, FlightKey, CallSound;
    var key := FlightKey(c.pc.challenge);
    if key in s.running {
      assert InProgress(s, s.running[key]) && RunsUnder(s, key);
      JoinedFetch(s, c);
    }
    forall f | InProgress(s, f) && s.fetches[f].challenge == c.pc.challenge
      ensures key in s.running && s.running[key] == f
    {
      assert Registered(s, f);
    }
  }

  // ---------------------------------------------------------------- one result for all

  lemma OverStays(s: State, e: Step, f: nat)
    requires Enabled(s, e) && f in s.fetches && s.fetches[f].over
    ensures f in Apply(s, e).fetches && Apply(s, e).fetches[f] == s.fetches[f]
  {
    if e.JoinFetch? || e.Issue? || e.EndFetch? {
      hide FlightKey;
    } else {
      OtherSteps(s, e);
    }
  }

  /** A fetch that is over stays as it ended, whatever follows. */
  lemma {:induction false} ResultStays(steps: seq<Step>, rest: seq<Step>, f: nat)
    requires After(steps).Some? && After(steps + rest).Some?
    requires f in After(steps).value.fetches && After(steps).value.fetches[f].over
    ensures f in After(steps + rest).value.fetches
            && After(steps + rest).value.fetches[f] == After(steps).value.fetches[f]
  {
    hide Enabled, Apply;
    if rest == [] {
      assert steps + rest == steps;
    } else {
      var n := |rest| - 1;
      var all := steps + rest;
      assert all[..|all| - 1] == steps + rest[..n] && all[|all| - 1] == rest[n];
      ResultStays(steps, rest[..n], f);
      OverStays(After(steps + rest[..n]).value, rest[n], f);
    }
  }

  /** How the call's latest lookup ended. */
  function Outcome(s: State, id: nat): Option<Found> {
    if id in s.calls && s.calls[id].lookups != [] then Some(s.calls[id].lookups[|s.calls[id].lookups| - 1].found)
    else None
  }

  lemma DeliverGives(s: State, id: nat)
    requires Enabled(s, Deliver(id))
    ensures var token := s.fetches[s.calls[id].pc.flight].token;
            Outcome(Apply(s, Deliver(id)), id) == Some(if token.Some? then Got(token.value) else FetchFailed)
  {
  }

  /** Two calls that waited for one fetch are given the same token, or the same failure, at
      whatever times their results reach them. */
  lemma SameResult(steps: seq<Step>, a: nat, rest: seq<Step>, b: nat)
    requires After(steps).Some? && Enabled(After(steps).value, Deliver(a))
    requires After(steps + rest).Some? && Enabled(After(steps + rest).value, Deliver(b))
    requires After(steps + rest).value.calls[b].pc.flight == After(steps).value.calls[a].pc.flight
    ensures Outcome(Apply(After(steps + rest).value, Deliver(b)), b)
            == Outcome(Apply(After(steps).value, Deliver(a)), a)
  {
    ResultStays(steps, rest, After(steps).value.calls[a].pc.flight);
    DeliverGives(After(steps).value, a);
    DeliverGives(After(steps + rest).value, b);
  }
}

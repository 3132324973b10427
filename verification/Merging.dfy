/** The header merge of section 4.3.4 of RFC 9111, applied when a revalidation
    confirms a stored entry. */
module Merging {
  import opened GoText
  import opened Headers

  /** Fields that describe the stored body: never updated by a validating response. */
  const BODY_FIELDS: set<string> := {"Content-Length", "Content-Encoding", "Content-Range", "Content-Type"}

  /** Fields that describe one delivery: never inherited from the stored entry. */
  const DELIVERY_FIELDS: set<string> := {"Age", "Date"}

  /** Some field of `validating`, under any spelling, may replace the stored `name`. */
  ghost predicate Provides(validating: Header, name: string) {
    name !in BODY_FIELDS && exists k :: k in validating && CanonicalKey(k) == name
  }

  /** `merged` is a possible outcome of the merge. When several spellings of one name
      are present, the map iteration order picks the winner. */
  ghost predicate IsMerge(stored: Header, validating: Header, merged: Header) {
    && (forall name :: name in merged <==>
          Provides(validating, name) || (name in stored && name !in DELIVERY_FIELDS))
    && (forall name :: name in merged && Provides(validating, name) ==>
          exists k :: k in validating && CanonicalKey(k) == name && merged[name] == validating[k])
    && (forall name :: name in merged && !Provides(validating, name) ==> merged[name] == stored[name])
  }

  /** The merge of canonical header sets. */
  function Merged(stored: Header, validating: Header): Header {
    map name | name in stored.Keys + validating.Keys
               && (if name in BODY_FIELDS then name in stored
                   else name in validating || name !in DELIVERY_FIELDS)
      :: if name !in BODY_FIELDS && name in validating then validating[name] else stored[name]
  }

  method Merge(stored: Header, validating: Header) returns (merged: Header)
    ensures IsMerge(stored, validating, merged)
    ensures forall name :: name == "Content-Length" || name == "Content-Encoding" || name == "Content-Range"
                           || name == "Content-Type" ==>
              (name in merged <==> name in stored) && (name in merged ==> merged[name] == stored[name])
    ensures forall name :: (name == "Age" || name == "Date") && name in merged ==>
              exists k :: k in validating && CanonicalKey(k) == name && merged[name] == validating[k]
  {
    merged := stored - DELIVERY_FIELDS;
    var left := validating.Keys;
    ghost var done: Header := map[];
    while left != {}
      invariant left <= validating.Keys && done.Keys == validating.Keys - left
      invariant forall k :: k in done ==> done[k] == validating[k]
      invariant IsMerge(stored, done, merged)
    {
      var name :| name in left;
      left := left - {name};
      var canonical := CanonicalKey(name);
      ghost var next := done[name := validating[name]];
      if canonical !in BODY_FIELDS {
        ghost var before := merged;
        merged := merged[canonical := validating[name]];
        MergeStep(stored, done, name, validating[name], before);
      } else {
        FrozenStep(stored, done, name, validating[name], merged);
      }
      done := next;
    }
    assert done == validating;
  }

  /** One more field to merge provides its own name and no other. */
  lemma ProvidesMore(done: Header, name: string, lines: seq<string>, n: string)
    requires name !in done
    ensures Provides(done[name := lines], n)
            <==> Provides(done, n) || (n == CanonicalKey(name) && n !in BODY_FIELDS)
  {
    var next := done[name := lines];
    if Provides(done, n) {
      var k :| k in done && CanonicalKey(k) == n;
      assert k in next;
    }
    assert name in next;
  }

  lemma MergeStep(stored: Header, done: Header, name: string, lines: seq<string>, merged: Header)
    requires IsMerge(stored, done, merged) && name !in done
    requires CanonicalKey(name) !in BODY_FIELDS
    ensures IsMerge(stored, done[name := lines], merged[CanonicalKey(name) := lines])
  {
    var next, after, canonical := done[name := lines], merged[CanonicalKey(name) := lines], CanonicalKey(name);
    forall n ensures Provides(next, n) <==> Provides(done, n) || n == canonical {
      ProvidesMore(done, name, lines, n);
    }
    forall n | n in after && Provides(next, n)
      ensures exists k :: k in next && CanonicalKey(k) == n && after[n] == next[k]
    {
      MergeWitness(done, name, lines, merged, n);
    }
  }

  lemma MergeWitness(done: Header, name: string, lines: seq<string>, merged: Header, n: string)
    requires name !in done
    requires n == CanonicalKey(name)
             || (n in merged && exists k :: k in done && CanonicalKey(k) == n && merged[n] == done[k])
    ensures var next, after := done[name := lines], merged[CanonicalKey(name) := lines];
            exists k :: k in next && CanonicalKey(k) == n && after[n] == next[k]
  {
    var next := done[name := lines];
    if n == CanonicalKey(name) {
      assert name in next && next[name] == lines;
    } else {
      var k :| k in done && CanonicalKey(k) == n && merged[n] == done[k];
      assert k in next && next[k] == done[k];
    }
  }

  lemma FrozenStep(stored: Header, done: Header, name: string, lines: seq<string>, merged: Header)
    requires IsMerge(stored, done, merged) && name !in done
    requires CanonicalKey(name) in BODY_FIELDS
    ensures IsMerge(stored, done[name := lines], merged)
  {
    var next := done[name := lines];
    forall n ensures Provides(next, n) <==> Provides(done, n) {
      ProvidesMore(done, name, lines, n);
    }
    forall n | n in merged && Provides(next, n)
      ensures exists k :: k in next && CanonicalKey(k) == n && merged[n] == next[k]
    {
      var k :| k in done && CanonicalKey(k) == n && merged[n] == done[k];
      assert k in next && next[k] == done[k];
    }
  }

  // ---------------------------------------------------------------- order of iteration

  /** No two spellings of one mergeable name carry different lines. */
  ghost predicate Unambiguous(validating: Header) {
    forall j, k ::
      j in validating && k in validating && CanonicalKey(j) == CanonicalKey(k) && CanonicalKey(k) !in BODY_FIELDS
      ==> validating[j] == validating[k]
  }

  /** The iteration order is invisible exactly when no name is spelt in two ways that
      disagree; for canonical responses the one outcome is `Merged`. */
  lemma OrderIrrelevant(stored: Header, validating: Header)
    ensures Unambiguous(validating) <==>
            forall m1, m2 :: IsMerge(stored, validating, m1) && IsMerge(stored, validating, m2) ==> m1 == m2
    ensures Canonical(validating) ==>
            forall m :: IsMerge(stored, validating, m) <==> m == Merged(stored, validating)
  {
    if Unambiguous(validating) {
      forall m1, m2 | IsMerge(stored, validating, m1) && IsMerge(stored, validating, m2) ensures m1 == m2 {
        OneOutcome(stored, validating, m1, m2);
      }
    } else {
      TwoOutcomes(stored, validating);
    }
    if Canonical(validating) {
      MergedIsMerge(stored, validating);
      assert Unambiguous(validating);
      forall m | IsMerge(stored, validating, m) ensures m == Merged(stored, validating) {
        OneOutcome(stored, validating, m, Merged(stored, validating));
      }
    }
  }

  lemma OneOutcome(stored: Header, validating: Header, m1: Header, m2: Header)
    requires Unambiguous(validating)
    requires IsMerge(stored, validating, m1) && IsMerge(stored, validating, m2)
    ensures m1 == m2
  {
    assert forall n :: n in m1 <==> n in m2;
    forall n | n in m1 ensures m1[n] == m2[n] {
      if Provides(validating, n) {
        var j :| j in validating && CanonicalKey(j) == n && m1[n] == validating[j];
        var k :| k in validating && CanonicalKey(k) == n && m2[n] == validating[k];
      }
    }
  }

  /** The outcome when the spelling `last` of its name comes up last. */
  lemma OutcomeWith(stored: Header, validating: Header, last: string) returns (m: Header)
    requires last in validating && CanonicalKey(last) !in BODY_FIELDS
    ensures IsMerge(stored, validating, m)
    ensures m[CanonicalKey(last)] == validating[last]
  {
    var some := AnOutcome(stored, validating);
    var n := CanonicalKey(last);
    assert Provides(validating, n);
    m := some[n := validating[last]];
    forall name | name in m && Provides(validating, name)
      ensures exists k :: k in validating && CanonicalKey(k) == name && m[name] == validating[k]
    {
      if name != n {
        assert name in some;
      }
    }
  }

  lemma AnOutcome(stored: Header, validating: Header) returns (m: Header)
    ensures IsMerge(stored, validating, m)
  {
    var names := set k | k in validating && CanonicalKey(k) !in BODY_FIELDS :: CanonicalKey(k);
    m := map n | n in names + (stored.Keys - DELIVERY_FIELDS) ::
           if Provides(validating, n) then (var k :| k in validating && CanonicalKey(k) == n; validating[k])
           else stored[n];
    assert forall n :: Provides(validating, n) <==> n in names;
  }

  lemma TwoOutcomes(stored: Header, validating: Header)
    requires !Unambiguous(validating)
    ensures exists m1, m2 :: IsMerge(stored, validating, m1) && IsMerge(stored, validating, m2) && m1 != m2
  {
    var j, k :| j in validating && k in validating && CanonicalKey(j) == CanonicalKey(k)
                && CanonicalKey(k) !in BODY_FIELDS && validating[j] != validating[k];
    var m1 := OutcomeWith(stored, validating, j);
    var m2 := OutcomeWith(stored, validating, k);
    assert m1 != m2;
  }

  lemma MergedIsMerge(stored: Header, validating: Header)
    requires Canonical(validating)
    ensures IsMerge(stored, validating, Merged(stored, validating))
  {
    forall n ensures Provides(validating, n) <==> n !in BODY_FIELDS && n in validating {
      if n in validating && n !in BODY_FIELDS {
        assert CanonicalKey(n) == n;
      }
    }
  }

  // ---------------------------------------------------------------- runs of revalidations

  function Lookup(h: Header, name: string): Option<seq<string>> {
    if name in h then Some(h[name]) else None
  }

  /** Where one field of a merge comes from, given the kind of field it is. */
  function Source(body: bool, delivery: bool, stored: Option<seq<string>>,
                  validating: Option<seq<string>>): Option<seq<string>> {
    if body then stored else if validating.Some? || delivery then validating else stored
  }

  lemma MergedAt(stored: Header, validating: Header, name: string)
    ensures Lookup(Merged(stored, validating), name)
            == Source(name in BODY_FIELDS, name in DELIVERY_FIELDS, Lookup(stored, name), Lookup(validating, name))
  {
  }

  lemma SameHeader(a: Header, b: Header)
    requires forall name :: Lookup(a, name) == Lookup(b, name)
    ensures a == b
  {
    assert forall name :: name in a <==> Lookup(a, name).Some?;
    assert forall name :: name in b <==> Lookup(b, name).Some?;
    assert forall name :: name in a ==> a[name] == Lookup(a, name).value && b[name] == Lookup(b, name).value;
  }

  /** Merging is associative, and merging the same reply again changes nothing. */
  lemma MergeAssociative(stored: Header, first: Header, second: Header)
    ensures Merged(Merged(stored, first), second) == Merged(stored, Merged(first, second))
    ensures Merged(Merged(stored, first), first) == Merged(stored, first)
  {
    var once := Merged(stored, first);
    forall name
      ensures Lookup(Merged(once, second), name) == Lookup(Merged(stored, Merged(first, second)), name)
      ensures Lookup(Merged(once, first), name) == Lookup(once, name)
    {
      MergedAt(stored, first, name);
      MergedAt(once, second, name);
      MergedAt(first, second, name);
      MergedAt(stored, Merged(first, second), name);
      MergedAt(once, first, name);
    }
    SameHeader(Merged(once, second), Merged(stored, Merged(first, second)));
    SameHeader(Merged(once, first), once);
  }

  /** The stored headers after a run of revalidations. */
  function MergedAll(stored: Header, replies: seq<Header>): Header {
    if replies == [] then stored
    else Merged(MergedAll(stored, replies[..|replies| - 1]), replies[|replies| - 1])
  }

  /** The one reply a run of replies amounts to. */
  function Combined(replies: seq<Header>): Header
    requires replies != []
  {
    MergedAll(replies[0], replies[1..])
  }

  /** Any number of successive revalidations equal one merge with the combined reply. */
  lemma {:induction false} RunIsOneMerge(stored: Header, replies: seq<Header>)
    requires replies != []
    ensures MergedAll(stored, replies) == Merged(stored, Combined(replies))
  {
    var n := |replies|;
    if n == 1 {
      assert replies[..0] == [] && replies[1..] == [];
    } else {
      RunIsOneMerge(stored, replies[..n - 1]);
      assert replies[..n - 1][1..] == replies[1..][..n - 2];
      assert replies[1..][n - 2] == replies[n - 1];
      MergeAssociative(stored, Combined(replies[..n - 1]), replies[n - 1]);
    }
  }

  /** Body-describing fields stay those of the last upload through any run, and Age and
      Date come from the last reply alone. */
  lemma {:induction false} RunFields(stored: Header, replies: seq<Header>, name: string)
    requires replies != []
    ensures name in BODY_FIELDS ==> Lookup(MergedAll(stored, replies), name) == Lookup(stored, name)
    ensures name in DELIVERY_FIELDS ==> Lookup(MergedAll(stored, replies), name) == Lookup(replies[|replies| - 1], name)
  {
    var n := |replies|;
    BodyNotDelivery(name);
    MergedAt(MergedAll(stored, replies[..n - 1]), replies[n - 1], name);
    if n > 1 {
      RunFields(stored, replies[..n - 1], name);
    } else {
      assert replies[..0] == [];
    }
  }

  /** Any other field holds what the last reply to provide it said, and what the upload
      said when none did. */
  lemma {:induction false} RunOtherField(stored: Header, replies: seq<Header>, name: string, last: nat)
    requires name !in BODY_FIELDS && name !in DELIVERY_FIELDS
    requires last <= |replies| && (last > 0 ==> name in replies[last - 1])
    requires forall i :: last <= i < |replies| ==> name !in replies[i]
    ensures Lookup(MergedAll(stored, replies), name)
            == if last == 0 then Lookup(stored, name) else Some(replies[last - 1][name])
  {
    var n := |replies|;
    if n > 0 {
      MergedAt(MergedAll(stored, replies[..n - 1]), replies[n - 1], name);
      if last < n {
        RunOtherField(stored, replies[..n - 1], name, last);
      }
    }
  }

  lemma BodyNotDelivery(name: string)
    ensures name in BODY_FIELDS ==> name !in DELIVERY_FIELDS
  {
  }
}

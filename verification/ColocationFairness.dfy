/** Who gets the card next, and how long anybody can be passed over. */
module ColocationFairness {
  import opened Wrappers
  import opened ColocationRing
  import opened RequestLedger
  import opened ColocationView

  ghost predicate ViewWellPosted(ring: Ring, view: View) {
    forall id :: id in view.records ==>
      WellPosted(ring, view.records[id].handle.request) && view.records[id].Id() == id
  }

  /** `service` has an open on-demand request the owner knows of. */
  ghost predicate Asks(view: View, owner: string, service: string) {
    exists id :: IsCandidate(view, owner, id) && view.records[id].handle.request.service == service
      && view.records[id].handle.request.kind == OnDemandRequest
  }

  function TargetOf(view: View, id: string): string
    requires id in view.records
  {
    view.records[id].handle.request.service
  }

  function Hops(ring: Ring, from: string, to: string): (hops: nat)
    requires ring.Valid() && ring.Member(from) && ring.Member(to)
    ensures hops < |ring.nodes|
  {
    ring.Distance(ring.IndexOf(from), ring.IndexOf(to))
  }

  lemma HopsSeparate(ring: Ring, from: string, a: string, b: string)
    requires ring.Valid() && ring.Member(from) && ring.Member(a) && ring.Member(b)
    ensures Hops(ring, from, a) == Hops(ring, from, b) ==> a == b
    ensures a != from ==> Hops(ring, from, a) > 0
  {
    DistanceForm(ring, ring.IndexOf(from), ring.IndexOf(a));
    DistanceForm(ring, ring.IndexOf(from), ring.IndexOf(b));
  }

  /** While R asks, the selector picks R or an on-demand member strictly between
      the owner and R, which leaves R strictly fewer hops away. */
  lemma OvertakerIsBetween(ring: Ring, owner: string, view: View, id: string, r: string)
    requires ring.Valid() && ring.Member(owner) && ViewWellPosted(ring, view)
    requires Selected(ring, owner, view, id) && Asks(view, owner, r)
    ensures ring.Member(r) && ring.Member(TargetOf(view, id))
    ensures view.records[id].handle.request.kind == OnDemandRequest
    ensures TargetOf(view, id) == r
            || (0 < Hops(ring, owner, TargetOf(view, id)) < Hops(ring, owner, r)
                && Hops(ring, TargetOf(view, id), r) == Hops(ring, owner, r) - Hops(ring, owner, TargetOf(view, id)))
  {
    var asked :| IsCandidate(view, owner, asked) && TargetOf(view, asked) == r
      && view.records[asked].handle.request.kind == OnDemandRequest;
    var target := TargetOf(view, id);
    assert id != asked ==>
      KeyBelow(CandidateKey(ring, owner, view.records[id]), CandidateKey(ring, owner, view.records[asked]));
    HopsSeparate(ring, owner, target, r);
    DistanceSplits(ring, ring.IndexOf(owner), ring.IndexOf(target), ring.IndexOf(r));
  }

  /** The immediately downstream member, once it asks, is always next. */
  lemma NextMemberWins(ring: Ring, owner: string, view: View, id: string)
    requires ring.Valid() && ring.Member(owner) && ViewWellPosted(ring, view)
    requires Selected(ring, owner, view, id) && Asks(view, owner, ring.NextMember(owner))
    ensures TargetOf(view, id) == ring.NextMember(owner)
  {
    var next := ring.NextMember(owner);
    OvertakerIsBetween(ring, owner, view, id, next);
    NextIsOneHop(ring, owner);
  }

  lemma NextIsOneHop(ring: Ring, owner: string)
    requires ring.Valid() && ring.Member(owner)
    ensures Hops(ring, owner, ring.NextMember(owner)) == 1
  {
    var i := ring.IndexOf(owner);
    var n := |ring.nodes|;
    Wrap(i, n);
    IndexIsUnique(ring, ring.nodes[(i + 1) % n].service, (i + 1) % n);
    DistanceForm(ring, i, (i + 1) % n);
  }

  lemma Wrap(i: nat, n: nat)
    requires i < n
    ensures (i + 1) % n == if i + 1 == n then 0 else i + 1
  {
  }

  /** Among the open requests of one service and kind the oldest is selected, and of two
      equally old ones the one whose id comes first in the dictionary. */
  lemma OldestFirst(ring: Ring, owner: string, view: View, id: string, other: string)
    requires ring.Valid() && ring.Member(owner) && ViewWellPosted(ring, view)
    requires Selected(ring, owner, view, id) && IsCandidate(view, owner, other)
    requires TargetOf(view, other) == TargetOf(view, id)
    requires view.records[other].handle.request.kind == view.records[id].handle.request.kind
    ensures view.records[id].handle.request.createdAt <= view.records[other].handle.request.createdAt
    ensures view.records[id].handle.request.createdAt == view.records[other].handle.request.createdAt && id != other ==>
      TextBelow(id, other)
  {
    if other != id {
      assert KeyBelow(CandidateKey(ring, owner, view.records[id]), CandidateKey(ring, owner, view.records[other]));
      assert WellPosted(ring, view.records[id].handle.request) && WellPosted(ring, view.records[other].handle.request);
    }
  }

  /** A fallback request never beats an on-demand one. */
  lemma FallbackYields(ring: Ring, owner: string, view: View, id: string, r: string)
    requires ring.Valid() && ring.Member(owner) && ViewWellPosted(ring, view)
    requires Selected(ring, owner, view, id)
    requires view.records[id].handle.request.kind == FallbackRequest
    ensures !Asks(view, owner, r)
  {
    if Asks(view, owner, r) {
      OvertakerIsBetween(ring, owner, view, id, r);
    }
  }

  lemma SelectedIsThere(ring: Ring, owner: string, view: View, id: string)
    requires ring.Valid() && ring.Member(owner) && Selected(ring, owner, view, id)
    ensures id in view.records
  {
  }

  lemma AskerIsElsewhere(ring: Ring, owner: string, view: View, r: string)
    requires ring.Valid() && ring.Member(owner) && ViewWellPosted(ring, view) && Asks(view, owner, r)
    ensures ring.Member(r) && Hops(ring, owner, r) > 0
  {
    var asked :| IsCandidate(view, owner, asked) && TargetOf(view, asked) == r;
    HopsSeparate(ring, owner, r, r);
  }

  // ---- what a release can come to ----------------------------------------------

  /** Whenever somebody is a candidate, somebody is selected. */
  lemma {:induction false} SomeoneIsFirst(keys: set<Key>) returns (first: Key)
    requires keys != {} && forall a, b :: a in keys && b in keys && a.id == b.id ==> a == b
    ensures first in keys && forall other :: other in keys && other != first ==> KeyBelow(first, other)
    decreases |keys|
  {
    first :| first in keys;
    var rest := keys - {first};
    if rest != {} {
      var winner := SomeoneIsFirst(rest);
      TextBelowIsTotal(winner.id, first.id);
      if KeyBelow(winner, first) {
        first := winner;
      } else {
        forall other | other in keys && other != first ensures KeyBelow(first, other) {
          if other != winner { KeyBelowTransitive(first, winner, other); }
        }
      }
    }
  }

  /** With a candidate in sight the selector succeeds. */
  lemma CandidateMeansSuccess(ring: Ring, owner: string, view: View)
    requires ring.Valid() && ring.Member(owner) && ViewWellPosted(ring, view) && HasCandidate(view, owner)
    ensures exists id :: Selected(ring, owner, view, id)
  {
    var keys := set id | id in view.records && IsCandidate(view, owner, id) :: CandidateKey(ring, owner, view.records[id]);
    var some :| some in view.records && IsCandidate(view, owner, some);
    assert CandidateKey(ring, owner, view.records[some]) in keys;
    assert forall id :: id in view.records ==> CandidateKey(ring, owner, view.records[id]).id == id;
    var first := SomeoneIsFirst(keys);
    assert Selected(ring, owner, view, first.id) by {
      forall other | IsCandidate(view, owner, other) ensures CandidateKey(ring, owner, view.records[other]) in keys {
        assert other in view.records;
      }
    }
  }

  /** With nobody in sight and a member as the grant's source, one request is
      posted on that member's behalf and the retry selects exactly it: the
      selector never retries twice, and the card goes back where it came from. */
  lemma SynthesisReturnsToSource(
    ring: Ring, owner: string, view: View, rows: seq<Row>, now: int)
    requires ring.Valid() && ring.Member(owner) && ViewWellPosted(ring, view) && view.lastSequence >= -1
    requires forall id :: id in view.records && view.records[id].state == Open ==> view.records[id].grant.None?
    requires Synthesises(view, owner) && ring.Member(view.grant.value.source)
    ensures
      var ensured := EnsureFallback(ring, view, rows, view.grant.value.source, now);
      && ensured.Ok?
      && |ensured.value.1| == |rows| + 1
      && HasCandidate(ensured.value.0, owner)
      && forall id :: IsCandidate(ensured.value.0, owner, id) ==>
           && TargetOf(ensured.value.0, id) == view.grant.value.source
           && Selected(ring, owner, ensured.value.0, id)
  {
    var source := view.grant.value.source;
    assert forall id :: id in view.records && OpenFallbackFrom(view.records[id], source) ==> IsCandidate(view, owner, id);
    var request := FallbackRequestFor(ring, source, view.lastSequence + 1, now);
    var after := EnsureFallback(ring, view, rows, source, now).value.0;
    assert IsCandidate(after, owner, request.id);
    forall id | IsCandidate(after, owner, id) ensures id == request.id {
      if id != request.id { assert IsCandidate(view, owner, id); }
    }
  }

  /** The whole outcome of a release, exactly: it fails with an unknown service
      if and only if nobody asked and the card came from outside the ring, it
      keeps the card if and only if nobody asked and the card came from the
      owner itself, and otherwise somebody is selected. */
  lemma ReleaseOutcome(ring: Ring, owner: string, view: View, rows: seq<Row>, now: int)
    requires ring.Valid() && ring.Member(owner) && ViewWellPosted(ring, view) && view.lastSequence >= -1
    requires forall id :: id in view.records && view.records[id].state == Open ==> view.records[id].grant.None?
    requires view.grant.Some?
    ensures
      var source := view.grant.value.source;
      var base := SelectionFrom(ring, owner, view, rows, now);
      && (base.Err? <==> !HasCandidate(view, owner) && source != owner && !ring.Member(source))
      && (base.Ok? ==>
            ((exists id :: Selected(ring, owner, base.value.0, id)) <==> HasCandidate(view, owner) || source != owner))
  {
    var source := view.grant.value.source;
    if HasCandidate(view, owner) {
      CandidateMeansSuccess(ring, owner, view);
    } else if source != owner {
      if ring.Member(source) {
        SynthesisReturnsToSource(ring, owner, view, rows, now);
        var after := EnsureFallback(ring, view, rows, source, now).value.0;
        var id :| id in after.records && IsCandidate(after, owner, id);
        assert Selected(ring, owner, after, id);
      } else {
        forall id | id in view.records ensures !OpenFallbackFrom(view.records[id], source) {
          assert WellPosted(ring, view.records[id].handle.request);
        }
      }
    } else {
      forall id ensures !Selected(ring, owner, view, id) {
        assert IsCandidate(view, owner, id) ==> id in view.records;
      }
    }
  }
}

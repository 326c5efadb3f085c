/** One manager's lagging view of the ledger and the decisions it takes on it,
    as functions of values (meshy/service/colocation.py:309-437). */
module ColocationView {
  import opened Wrappers
  import opened ColocationRing
  import opened RequestLedger

  datatype View = View(
    lastSequence: int,
    grant: Option<Grant>,
    owner: Option<string>,
    records: map<string, Record>,
    handles: map<string, Handle>,
    acquired: set<int>)

  const EMPTY_VIEW := View(-1, None, None, map[], map[], {})

  predicate Owns(view: View, me: string) {
    view.owner == Some(me)
  }

  // ---- applying a grant -------------------------------------------------

  datatype Applied =
    | Ignored
    | Advanced(view: View, acquire: bool)
    | InvalidGenesis
    | NonContiguous

  function ApplyGrant(ring: Ring, me: string, view: View, grant: Grant): Applied
    requires ring.Valid()
  {
    if grant.sequence <= view.lastSequence then Ignored
    else if view.lastSequence < 0 then
      if grant.sequence != 0 || grant.source != AUTHORITY || grant.target != ring.InitialOwner()
      then InvalidGenesis
      else Advance(me, view, grant)
    else if grant.sequence != view.lastSequence + 1 || view.grant.None? || grant.source != view.grant.value.target
    then NonContiguous
    else Advance(me, view, grant)
  }

  function Advance(me: string, view: View, grant: Grant): Applied {
    var acquire := grant.target == me && grant.sequence !in view.acquired;
    Advanced(
      view.(lastSequence := grant.sequence, grant := Some(grant), owner := Some(grant.target),
            acquired := if acquire then view.acquired + {grant.sequence} else view.acquired),
      acquire)
  }

  // ---- the fallback request --------------------------------------------

  function Decimal(n: nat): string {
    if n < 10 then ["0123456789"[n]] else Decimal(n / 10) + ["0123456789"[n % 10]]
  }

  function ValueOf(digits: string): nat {
    if digits == "" then 0
    else
      var last := digits[|digits| - 1];
      10 * ValueOf(digits[..|digits| - 1]) + if '0' <= last <= '9' then last as int - '0' as int else 0
  }

  /** The decimal numeral reads as the number it was made of, so the request ids of one
      service differ whenever the positions they were posted at differ. */
  lemma {:induction false} DecimalReads(n: nat)
    ensures ValueOf(Decimal(n)) == n && Decimal(n) != ""
    ensures n >= 10 ==> Decimal(n)[0] != '0'
  {
    if n >= 10 {
      DecimalReads(n / 10);
      assert Decimal(n)[..|Decimal(n)| - 1] == Decimal(n / 10);
      if n / 10 < 10 { assert Decimal(n / 10)[0] == "0123456789"[n / 10]; }
    } else {
      assert Decimal(n)[..0] == "";
    }
  }

  function FallbackRequestFor(ring: Ring, service: string, sequence: nat, now: int): Request
    requires ring.Member(service)
  {
    Request(service, service + ":fallback:" + Decimal(sequence), now,
            ring.IndexOf(service), 1, FallbackRequest)
  }

  predicate OpenFallbackFrom(record: Record, service: string) {
    && record.handle.request.service == service
    && record.handle.request.kind == FallbackRequest
    && record.state == Open
  }

  predicate HasFallbackFrom(view: View, service: string) {
    exists id :: id in view.records && OpenFallbackFrom(view.records[id], service)
  }

  /** The view and the ledger after `_ensure_fallback_request`; an Err is the
      KeyError of asking for a service that is not on the ring. */
  function EnsureFallback(ring: Ring, view: View, rows: seq<Row>, service: string, now: int)
    : (r: Result<(View, seq<Row>), string>)
    requires view.lastSequence >= -1
  {
    if HasFallbackFrom(view, service) then Ok((view, rows))
    else if !ring.Member(service) then Err(service)
    else
      var request := FallbackRequestFor(ring, service, view.lastSequence + 1, now);
      var handle := CreatedHandle(rows, request);
      Ok((view.(handles := view.handles[request.id := handle],
                records := view.records[request.id := Record(handle, Open, None)]),
          Create(rows, request)))
  }

  /** Whoever is asked for has a fallback request in the view afterwards. */
  lemma EnsuredStands(ring: Ring, view: View, rows: seq<Row>, service: string, now: int)
    requires view.lastSequence >= -1 && EnsureFallback(ring, view, rows, service, now).Ok?
    ensures HasFallbackFrom(EnsureFallback(ring, view, rows, service, now).value.0, service)
  {
    if !HasFallbackFrom(view, service) {
      var request := FallbackRequestFor(ring, service, view.lastSequence + 1, now);
      var after := EnsureFallback(ring, view, rows, service, now).value.0;
      assert request.id in after.records && OpenFallbackFrom(after.records[request.id], service);
    }
  }

  /** How every request on the ledger is filled in by its poster. */
  predicate WellPosted(ring: Ring, request: Request) {
    && ring.Member(request.service)
    && request.ringIndex == ring.IndexOf(request.service)
    && request.priority == (if request.kind == OnDemandRequest then 0 else 1)
  }

  // ---- choosing the next owner -----------------------------------------

  predicate IsCandidate(view: View, me: string, id: string) {
    && id in view.records
    && view.records[id].state == Open
    && view.records[id].grant.None?
    && view.records[id].handle.request.service != me
  }

  predicate HasCandidate(view: View, me: string) {
    exists id :: id in view.records && IsCandidate(view, me, id)
  }

  /** The tuple the candidates are sorted by. */
  datatype Key = Key(priority: nat, distance: nat, createdAt: int, id: string)

  function CandidateKey(ring: Ring, me: string, record: Record): Key
    requires ring.Valid() && ring.Member(me)
  {
    var request := record.handle.request;
    Key(request.priority, ring.Distance(ring.IndexOf(me), request.ringIndex), request.createdAt, request.id)
  }

  predicate TextBelow(a: string, b: string) {
    if b == "" then false
    else if a == "" then true
    else a[0] < b[0] || (a[0] == b[0] && TextBelow(a[1..], b[1..]))
  }

  predicate KeyBelow(a: Key, b: Key) {
    || a.priority < b.priority
    || (a.priority == b.priority
        && (|| a.distance < b.distance
            || (a.distance == b.distance
                && (|| a.createdAt < b.createdAt
                    || (a.createdAt == b.createdAt && TextBelow(a.id, b.id))))))
  }

  /** `id` is the first entry of the sorted candidate list. */
  ghost predicate Selected(ring: Ring, me: string, view: View, id: string)
    requires ring.Valid() && ring.Member(me)
  {
    && IsCandidate(view, me, id)
    && forall other :: IsCandidate(view, me, other) && other != id ==>
         KeyBelow(CandidateKey(ring, me, view.records[id]), CandidateKey(ring, me, view.records[other]))
  }

  /** What the selector works on when nobody has asked: the service the owner
      got the card from is given a request of its own. */
  ghost predicate Synthesises(view: View, me: string) {
    !HasCandidate(view, me) && view.grant.Some? && view.grant.value.source != me
  }

  /** The view and ledger the selector finally sorts, after it may have posted
      a request for the service the owner got the card from. */
  ghost function SelectionFrom(ring: Ring, me: string, view: View, rows: seq<Row>, now: int): Result<(View, seq<Row>), string>
    requires view.lastSequence >= -1
  {
    if Synthesises(view, me) then EnsureFallback(ring, view, rows, view.grant.value.source, now) else Ok((view, rows))
  }

  predicate HasOpenFrom(view: View, service: string) {
    exists id :: id in view.records
      && view.records[id].handle.request.service == service
      && view.records[id].state == Open && view.records[id].grant.None?
  }

  lemma {:induction false} TextBelowIsTotal(a: string, b: string)
    ensures a == b || TextBelow(a, b) || TextBelow(b, a)
    ensures !(TextBelow(a, b) && TextBelow(b, a))
    ensures TextBelow(a, b) ==> a != b
  {
    if a != "" && b != "" && a[0] == b[0] {
      TextBelowIsTotal(a[1..], b[1..]);
      assert a == [a[0]] + a[1..] && b == [b[0]] + b[1..];
    }
  }

  lemma {:induction false} TextBelowTransitive(a: string, b: string, c: string)
    requires TextBelow(a, b) && TextBelow(b, c)
    ensures TextBelow(a, c)
  {
    if a != "" && a[0] == b[0] && b[0] == c[0] {
      TextBelowTransitive(a[1..], b[1..], c[1..]);
    }
  }

  /** `TextBelow` is dictionary order: at the first place where the texts part, one of
      them ends or has the smaller letter. */
  lemma {:induction false} TextBelowIsDictionary(a: string, b: string) returns (k: nat)
    requires a != b
    ensures k <= |a| && k <= |b| && a[..k] == b[..k] && (k < |a| || k < |b|)
    ensures k < |a| && k < |b| ==> a[k] != b[k]
    ensures TextBelow(a, b) <==> k < |b| && (k == |a| || a[k] < b[k])
  {
    if a == "" || b == "" || a[0] != b[0] {
      k := 0;
    } else {
      assert a == [a[0]] + a[1..] && b == [b[0]] + b[1..];
      var rest := TextBelowIsDictionary(a[1..], b[1..]);
      k := rest + 1;
      assert a[..k] == [a[0]] + a[1..][..rest] && b[..k] == [b[0]] + b[1..][..rest];
    }
  }

  lemma KeyBelowTransitive(a: Key, b: Key, c: Key)
    requires KeyBelow(a, b) && KeyBelow(b, c)
    ensures KeyBelow(a, c)
  {
    if a.priority == b.priority == c.priority && a.distance == b.distance == c.distance
       && a.createdAt == b.createdAt == c.createdAt {
      TextBelowTransitive(a.id, b.id, c.id);
    }
  }

  /** The selector is deterministic: at most one record can come first. */
  lemma SelectedIsUnique(ring: Ring, me: string, view: View, a: string, b: string)
    requires ring.Valid() && ring.Member(me)
    requires Selected(ring, me, view, a) && Selected(ring, me, view, b)
    ensures a == b
  {
    if a != b {
      var ka, kb := CandidateKey(ring, me, view.records[a]), CandidateKey(ring, me, view.records[b]);
      assert KeyBelow(ka, kb) && KeyBelow(kb, ka);
      TextBelowIsTotal(ka.id, kb.id);
    }
  }
}

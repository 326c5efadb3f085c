/** The manager object itself: its fields, its loops and its two mutually recursive
    methods, proved to take exactly the steps of the protocol. Other managers
    interleave between those steps in the protocol, not here. */
module ColocationManager {
  import opened Wrappers
  import opened ColocationRing
  import opened RequestLedger
  import opened ColocationView
  import opened ColocationProtocol
  import Safety = ColocationSafety

  /** A row still open carries no grant, and every handle points at a row. */
  predicate Sane(record: Record, rows: nat) {
    record.handle.row < rows && (record.state == Open ==> record.grant.None?)
  }

  predicate SaneRows(rows: seq<Row>) {
    forall i :: 0 <= i < |rows| ==> (rows[i].state == Open ==> rows[i].grant.None?)
  }

  /** The shared request ledger: rows are created, granted and closed in place. */
  class Ledger {
    var rows: seq<Row>

    constructor ()
      ensures rows == []
    {
      rows := [];
    }

    /** A new row behind all others, which a scan finds open and ungranted. */
    method CreateRequest(request: Request) returns (handle: Handle)
      modifies this
      ensures |rows| == |old(rows)| + 1 && rows[..|old(rows)|] == old(rows)
      ensures handle.row == |old(rows)| && handle.request == request
      ensures Decode(rows, handle.row) == Record(handle, Open, None)
    {
      handle := Handle(|rows|, request, None);
      rows := rows + [Row(request, Open, None)];
    }

    /** The row, and no other, is granted; a scan finds the request with its grant. */
    method GrantRequest(handle: Handle, grant: Grant)
      requires handle.row < |rows|
      modifies this
      ensures |rows| == |old(rows)| && forall i :: 0 <= i < |rows| && i != handle.row ==> rows[i] == old(rows)[i]
      ensures Decode(rows, handle.row) == Record(handle.(grant := Some(grant)), RowState.Granted, Some(grant))
    {
      rows := rows[handle.row := Row(handle.request, Granted, Some(grant))];
    }

    /** The row, and no other, is closed; its grant survives exactly as far as the
        handle remembers it. */
    method CloseRequest(handle: Handle)
      requires handle.row < |rows|
      modifies this
      ensures |rows| == |old(rows)| && forall i :: 0 <= i < |rows| && i != handle.row ==> rows[i] == old(rows)[i]
      ensures Decode(rows, handle.row) == Record(handle, Closed, handle.grant)
    {
      rows := rows[handle.row := Row(handle.request, Closed, handle.grant)];
    }

    /** `scan_requests`: the decoded rows in ledger order. */
    method Scan() returns (records: seq<Record>)
      ensures records == ScanRows(rows)
    {
      records := [];
      for i := 0 to |rows|
        invariant |records| == i && forall k :: 0 <= k < i ==> records[k] == Decode(rows, k)
      {
        records := records + [Decode(rows, i)];
      }
    }
  }

  /** The ledger's operations leave what the protocol's own definitions say. */
  lemma RowWasAdded(before: seq<Row>, after: seq<Row>, request: Request, handle: Handle)
    requires |after| == |before| + 1 && after[..|before|] == before
    requires handle.row == |before| && handle.request == request && Decode(after, handle.row) == Record(handle, Open, None)
    ensures after == Create(before, request) && handle == CreatedHandle(before, request)
  {
  }

  lemma RowWasRewritten(before: seq<Row>, after: seq<Row>, row: nat, written: Row)
    requires |after| == |before| && forall i :: 0 <= i < |after| && i != row ==> after[i] == before[i]
    requires row < |after| && after[row] == written
    ensures after == before[row := written]
  {
  }

  /** The row this service holds a handle on for the grant it lives on, if any, is closed
      with the grant that handle remembers, and no other row changes. */
  ghost predicate OwnRowClosed(before: seq<Row>, after: seq<Row>, view: View) {
    && |after| == |before|
    && (forall i :: 0 <= i < |after| && !OwnHandle(view, i) ==> after[i] == before[i])
    && (forall i :: 0 <= i < |after| && OwnHandle(view, i) ==>
          after[i] == Row(view.handles[view.grant.value.requestId].request, Closed, view.handles[view.grant.value.requestId].grant))
  }

  ghost predicate RowGranted(before: seq<Row>, after: seq<Row>, handle: Handle, grant: Grant) {
    && |after| == |before| && handle.row < |after|
    && after[handle.row] == Row(handle.request, Granted, Some(grant))
    && (forall i :: 0 <= i < |after| && i != handle.row ==> after[i] == before[i])
  }

  /** What a hand-over leaves on the ledger. */
  ghost predicate RowsHandedOn(before: seq<Row>, after: seq<Row>, view: View, handle: Handle, grant: Grant) {
    && |after| == |before| && handle.row < |after|
    && after[handle.row] == Row(handle.request, Granted, Some(grant))
    && (forall i :: 0 <= i < |after| && i != handle.row && OwnHandle(view, i) ==> after[i].state == Closed)
    && (forall i :: 0 <= i < |after| && i != handle.row && !OwnHandle(view, i) ==> after[i] == before[i])
  }

  lemma ClosedThenGranted(before: seq<Row>, closed: seq<Row>, after: seq<Row>, view: View, handle: Handle, grant: Grant)
    requires OwnRowClosed(before, closed, view) && RowGranted(closed, after, handle, grant)
    ensures RowsHandedOn(before, after, view, handle, grant)
  {
  }

  /** One open fallback request of the service stands behind the old rows. */
  ghost predicate OneMoreFallback(before: seq<Row>, after: seq<Row>, service: string) {
    && |after| == |before| + 1 && after[..|before|] == before
    && after[|before|].request.service == service && after[|before|].request.kind == FallbackRequest
    && after[|before|].state == Open && after[|before|].grant.None?
  }

  /** The record carries a grant that the copy it replaces does not know. */
  predicate IsNews(view: View, record: Record) {
    && record.grant.Some?
    && (record.Id() in view.records && view.records[record.Id()].grant.Some? ==>
          view.records[record.Id()].grant.value.sequence < record.grant.value.sequence)
  }

  /** Some sequence of protocol steps leads from one state to the other. */
  ghost predicate Reaches(ring: Ring, s: State, t: State)
    requires ring.Valid()
  {
    exists actions :: Run(ring, s, actions, t)
  }

  /** One scan of the first phase: taken because the next member has not asked, and
      worked off to its end. */
  ghost predicate OneRescan(ring: Ring, me: string, s: State, t: State)
    requires ring.Valid()
  {
    && Enabled(ring, s, By(me, Step.Rescan)) && Reaches(ring, Apply(ring, s, By(me, Step.Rescan)), t)
    && me in t.managers && t.managers[me].stack == s.managers[me].stack
  }

  ghost predicate Rescans(ring: Ring, me: string, s: State, n: nat, t: State)
    requires ring.Valid()
  {
    if n == 0 then s == t else exists mid :: Rescans(ring, me, s, n - 1, mid) && OneRescan(ring, me, mid, t)
  }

  lemma ReachesSelf(ring: Ring, s: State)
    requires ring.Valid()
    ensures Reaches(ring, s, s)
  {
    assert Run(ring, s, [], s);
  }

  lemma ReachesNext(ring: Ring, s: State, mid: State, a: Action)
    requires ring.Valid() && Reaches(ring, s, mid) && Enabled(ring, mid, a)
    ensures Reaches(ring, s, Apply(ring, mid, a))
  {
    var actions :| Run(ring, s, actions, mid);
    var longer := actions + [a];
    assert longer[..|longer| - 1] == actions && longer[|longer| - 1] == a;
    assert Run(ring, s, longer[..|longer| - 1], mid);
    assert Run(ring, s, longer, Apply(ring, mid, a));
  }

  class Manager {
    const ring: Ring
    const me: string
    var records: map<string, Record>
    var handles: map<string, Handle>
    var lastSequence: int
    var grant: Option<Grant>
    var owner: Option<string>
    var acquired: set<int>
    var transferring: bool
    /** What the acquire and release callbacks last did to the card. */
    var resident: bool

    ghost predicate Valid()
      reads this
    {
      ring.Valid() && ring.Member(me) && lastSequence >= -1
    }

    ghost predicate Linked(ledger: Ledger)
      reads this, ledger
    {
      && SaneRows(ledger.rows)
      && (forall id :: id in records ==> Sane(records[id], |ledger.rows|) && records[id].Id() == id)
      && (forall id :: id in handles ==> handles[id].row < |ledger.rows|)
    }

    ghost function Seen(): View
      reads this
    {
      View(lastSequence, grant, owner, records, handles, acquired)
    }

    /** This object and the ledger are where the protocol state `s` says. */
    ghost predicate At(s: State, ledger: Ledger, stack: seq<Frame>)
      reads this, ledger
    {
      && me in s.managers && s.rows == ledger.rows
      && s.managers[me] == ColocationProtocol.Manager(Seen(), stack, transferring, resident, NoFailure)
    }

    constructor (ring: Ring, me: string)
      requires ring.Valid() && ring.Member(me)
      ensures Valid() && this.ring == ring && this.me == me
      ensures ColocationProtocol.Manager(Seen(), [], transferring, resident, NoFailure) == IDLE
    {
      this.ring, this.me := ring, me;
      records, handles, lastSequence, grant, owner, acquired := map[], map[], -1, None, None, {};
      transferring, resident := false, false;
    }

    /** `_drain_commands`, action "request". */
    method RequestGpu(ledger: Ledger, request: Request, ghost s: State)
      requires Valid() && At(s, ledger, []) && CanStep(ring, s, me, Post(request))
      modifies this`handles, ledger
      ensures Valid() && At(DoStep(ring, s, me, Post(request)), ledger, [])
    {
      ghost var before := ledger.rows;
      var handle := ledger.CreateRequest(request);
      RowWasAdded(before, ledger.rows, request, handle);
      handles := handles[request.id := handle];
    }

    /** `_apply_grant`: the acquire callback runs before the waiters are told. */
    method ApplyGrant(next: Grant) returns (res: Result<bool, Failure>)
      requires Valid()
      modifies this`lastSequence, this`grant, this`owner, this`acquired, this`resident
      ensures Valid()
      ensures res.Err? <==>
        (next.sequence > old(lastSequence)
          && if old(lastSequence) < 0 then next.sequence != 0 || next.source != AUTHORITY || next.target != ring.InitialOwner()
             else next.sequence != old(lastSequence) + 1 || old(grant).None? || next.source != old(grant).value.target)
      ensures res.Ok? && next.sequence > old(lastSequence) ==> lastSequence == next.sequence && grant == Some(next) && owner == Some(next.target)
      ensures res == Ok(true) <==> res.Ok? && next.sequence > old(lastSequence) && next.target == me && next.sequence !in old(acquired)
      ensures resident == (old(resident) || res == Ok(true))
      ensures match ColocationView.ApplyGrant(ring, me, old(Seen()), next)
        case Ignored => res == Ok(false) && Seen() == old(Seen()) && resident == old(resident)
        case Advanced(view, acquire) => res == Ok(acquire) && Seen() == view && resident == (old(resident) || acquire)
        case _ => res == Err(ProtocolError) && Seen() == old(Seen()) && resident == old(resident)
    {
      if next.sequence <= lastSequence { return Ok(false); }
      if lastSequence < 0 {
        if next.sequence != 0 || next.source != AUTHORITY || next.target != ring.InitialOwner() { return Err(ProtocolError); }
      } else if next.sequence != lastSequence + 1 || grant.None? || next.source != grant.value.target {
        return Err(ProtocolError);
      }
      lastSequence, grant, owner := next.sequence, Some(next), Some(next.target);
      if next.target == me && next.sequence !in acquired {
        resident := true;
        acquired := acquired + {next.sequence};
        return Ok(true);
      }
      return Ok(false);
    }

    /** `_ensure_fallback_request`, for this service or the one it names. */
    method EnsureFallbackRequest(ledger: Ledger, service: string, now: int) returns (res: Result<bool, string>)
      requires Valid()
      modifies this`records, this`handles, ledger
      ensures Valid()
      ensures res == Ok(false) <==>
        (exists id :: id in old(records) && old(records)[id].state == Open
          && old(records)[id].handle.request.service == service && old(records)[id].handle.request.kind == FallbackRequest)
      ensures res == Ok(true) ==> ring.Member(service) && |ledger.rows| == |old(ledger.rows)| + 1
      ensures res == Ok(true) ==> ledger.rows[..|old(ledger.rows)|] == old(ledger.rows) && ledger.rows[|old(ledger.rows)|] == Row(Request(
        service, service + ":fallback:" + Decimal(lastSequence + 1), now, ring.IndexOf(service), 1, FallbackRequest), Open, None)
      ensures res != Ok(true) ==> ledger.rows == old(ledger.rows)
      ensures match EnsureFallback(ring, old(Seen()), old(ledger.rows), service, now)
        case Ok(pair) => res.Ok? && Seen() == pair.0 && ledger.rows == pair.1
        case Err(stranger) => res == Err(stranger) && Seen() == old(Seen()) && ledger.rows == old(ledger.rows)
    {
      var rest := records.Keys;
      while rest != {}
        invariant rest <= records.Keys && Seen() == old(Seen()) && ledger.rows == old(ledger.rows)
        invariant forall id :: id in records && id !in rest ==> !OpenFallbackFrom(records[id], service)
        decreases |rest|
      {
        var id :| id in rest;
        if OpenFallbackFrom(records[id], service) { return Ok(false); }
        rest := rest - {id};
      }
      if ring.IndexFor(service).None? { return Err(service); }
      var request := FallbackRequestFor(ring, service, lastSequence + 1, now);
      ghost var before := ledger.rows;
      var handle := ledger.CreateRequest(request);
      RowWasAdded(before, ledger.rows, request, handle);
      handles := handles[request.id := handle];
      records := records[request.id := Record(handle, Open, None)];
      return Ok(true);
    }

    /** `_has_open_request_from`. */
    method HasOpenRequestFrom(service: string) returns (has: bool)
      ensures has <==>
        (exists id :: id in records && records[id].state == Open && records[id].grant.None? && records[id].handle.request.service == service)
      ensures has == HasOpenFrom(Seen(), service)
    {
      var rest := records.Keys;
      while rest != {}
        invariant rest <= records.Keys
        invariant forall id :: id in records && id !in rest ==>
          !(records[id].handle.request.service == service && records[id].state == Open && records[id].grant.None?)
        decreases |rest|
      {
        var id :| id in rest;
        if records[id].handle.request.service == service && records[id].state == Open && records[id].grant.None? { return true; }
        rest := rest - {id};
      }
      return false;
    }

    /** The candidate with the smallest key: the first of the sorted list. */
    method BestCandidate() returns (best: Option<string>)
      requires Valid() && forall id :: id in records ==> records[id].Id() == id
      ensures best.None? <==> forall id :: id in records ==>
        records[id].state != Open || records[id].grant.Some? || records[id].handle.request.service == me
      ensures best.None? <==> !HasCandidate(Seen(), me)
      ensures best.Some? ==> best.value in records && records[best.value].state == Open
      ensures best.Some? ==> records[best.value].grant.None? && records[best.value].handle.request.service != me
      ensures best.Some? ==> Selected(ring, me, Seen(), best.value)
    {
      best := None;
      var rest := records.Keys;
      while rest != {}
        invariant rest <= records.Keys
        invariant best.None? ==> forall id :: id in records && id !in rest ==> !IsCandidate(Seen(), me, id)
        invariant best.Some? ==> IsCandidate(Seen(), me, best.value) && best.value !in rest
        invariant best.Some? ==> forall id :: id !in rest && IsCandidate(Seen(), me, id) && id != best.value ==>
          KeyBelow(CandidateKey(ring, me, records[best.value]), CandidateKey(ring, me, records[id]))
        decreases |rest|
      {
        var id :| id in rest;
        rest := rest - {id};
        if records[id].state == Open && records[id].grant.None? && records[id].handle.request.service != me {
          if best.None? {
            best := Some(id);
          } else {
            KeysAreOrdered(ring, me, records[id], records[best.value]);
            if KeyBelow(CandidateKey(ring, me, records[id]), CandidateKey(ring, me, records[best.value])) {
              BetterThanAll(ring, me, Seen(), rest, best.value, id);
              best := Some(id);
            }
          }
        }
      }
    }

    /** `_select_next`: the first candidate, if need be after asking on behalf of the
        service the card came from; the search is repeated at most once. */
    method SelectNext(ledger: Ledger, now: int) returns (selected: Result<Option<string>, string>)
      requires Valid() && Linked(ledger)
      modifies this`records, this`handles, ledger
      ensures Valid() && Linked(ledger)
      ensures !Owns(old(Seen()), me) ==> selected == Ok(None) && Seen() == old(Seen()) && ledger.rows == old(ledger.rows)
      ensures Owns(old(Seen()), me) ==>
        match SelectionFrom(ring, me, old(Seen()), old(ledger.rows), now)
        case Err(stranger) => selected == Err(stranger) && Seen() == old(Seen()) && ledger.rows == old(ledger.rows)
        case Ok(base) =>
          && Seen() == base.0 && ledger.rows == base.1 && selected.Ok?
          && (selected.value.None? <==> !HasCandidate(base.0, me))
          && (selected.value.Some? ==> Selected(ring, me, base.0, selected.value.value))
      decreases if HasCandidate(Seen(), me) then 0 else 1
    {
      if owner != Some(me) { return Ok(None); }
      var best := BestCandidate();
      if best.Some? { return Ok(best); }
      if grant.None? || grant.value.source == me { return Ok(None); }
      ghost var view, rows := Seen(), ledger.rows;
      var posted := EnsureFallbackRequest(ledger, grant.value.source, now);
      if posted.Err? { return Err(posted.error); }
      FallbackIsACandidate(ring, me, view, rows, now);
      selected := SelectNext(ledger, now);
    }

    // ---- the hand-over ---------------------------------------------------------------

    /** The release callback: the card is empty before anyone is told. */
    method Vacate(ledger: Ledger, selected: Record, ghost s: State, ghost below: seq<Frame>) returns (ghost next: State)
      requires Valid() && Linked(ledger) && At(s, ledger, below + [Transferring(Phase.Chosen(selected))])
      modifies this`resident
      ensures Enabled(ring, s, By(me, Step.Vacate)) && next == Apply(ring, s, By(me, Step.Vacate))
      ensures Valid() && Linked(ledger) && At(next, ledger, below + [Transferring(Vacated(selected))]) && !resident
    {
      resident := false;
      next := Apply(ring, s, By(me, Step.Vacate));
    }

    /** The row this service was granted is closed. */
    method CloseOwn(ledger: Ledger, selected: Record, ghost s: State, ghost below: seq<Frame>) returns (ghost next: State)
      requires Valid() && Linked(ledger) && At(s, ledger, below + [Transferring(Vacated(selected))])
      modifies ledger
      ensures Enabled(ring, s, By(me, Step.CloseOwn)) && next == Apply(ring, s, By(me, Step.CloseOwn))
      ensures Linked(ledger) && At(next, ledger, below + [Transferring(SelfClosed(selected))]) && |ledger.rows| == old(|ledger.rows|)
      ensures OwnRowClosed(old(ledger.rows), ledger.rows, Seen())
    {
      next := Apply(ring, s, By(me, Step.CloseOwn));
      if grant.Some? && grant.value.requestId in handles {
        ghost var before, handle := ledger.rows, handles[grant.value.requestId];
        ledger.CloseRequest(handles[grant.value.requestId]);
        RowWasRewritten(before, ledger.rows, handle.row, Row(handle.request, Closed, handle.grant));
      }
    }

    /** The grant is written to the chosen row; from here the target may take the card. */
    method Publish(ledger: Ledger, selected: Record, ghost s: State, ghost below: seq<Frame>) returns (next: Grant, ghost end: State)
      requires Valid() && Linked(ledger) && Sane(selected, |ledger.rows|)
      requires At(s, ledger, below + [Transferring(SelfClosed(selected))])
      modifies this`records, this`handles, ledger
      ensures Enabled(ring, s, By(me, Step.Publish)) && end == Apply(ring, s, By(me, Step.Publish))
      ensures next == NextGrant(me, old(Seen()), selected) && end.chain == s.chain + [next]
      ensures Valid() && Linked(ledger) && At(end, ledger, below + [Transferring(Published(selected, next))])
      ensures |ledger.rows| == old(|ledger.rows|)
      ensures next.sequence == lastSequence + 1 && next.source == me
      ensures next.target == selected.handle.request.service && next.requestId == selected.handle.request.id
      ensures RowGranted(old(ledger.rows), ledger.rows, selected.handle, next)
    {
      end := Apply(ring, s, By(me, Step.Publish));
      next := Grant(lastSequence + 1, me, selected.handle.request.service, selected.Id());
      ghost var before := ledger.rows;
      ledger.GrantRequest(selected.handle, next);
      RowWasRewritten(before, ledger.rows, selected.handle.row, Row(selected.handle.request, RowState.Granted, Some(next)));
      var handle := selected.handle.(grant := Some(next));
      records := records[selected.Id() := Record(handle, Granted, Some(next))];
      if selected.Id() in handles && handles[selected.Id()].row == handle.row {
        handles := handles[selected.Id() := handle];
      }
    }

    /** The owner applies its own grant and leaves the transfer. */
    method Adopt(ledger: Ledger, selected: Record, next: Grant, ghost s: State, ghost below: seq<Frame>)
      returns (res: Result<bool, Failure>, ghost end: State)
      requires Valid() && Linked(ledger) && At(s, ledger, below + [Transferring(Published(selected, next))])
      modifies this`lastSequence, this`grant, this`owner, this`acquired, this`resident
      ensures Enabled(ring, s, By(me, Step.Adopt)) && end == Apply(ring, s, By(me, Step.Adopt))
      ensures Valid() && Linked(ledger) && end.rows == ledger.rows && me in end.managers && end.chain == s.chain
      ensures res.Ok? ==> end.managers[me] == ColocationProtocol.Manager(Seen(), AfterTransfer(below), false, resident, NoFailure)
      ensures res.Err? ==> end.managers[me].failure == res.error == ProtocolError
      ensures res.Ok? && next.sequence > old(lastSequence) ==> lastSequence == next.sequence && grant == Some(next) && owner == Some(next.target)
      ensures next.target != me ==> resident == old(resident)
    {
      end := Apply(ring, s, By(me, Step.Adopt));
      res := ApplyGrant(next);
    }

    /** The grant just issued is the newest link, from here to its target, the card is
        empty, and this service knows it no longer owns it. */
    ghost predicate HandedOn(given: Grant, end: State)
      reads this
    {
      && end.chain != [] && end.chain[|end.chain| - 1] == given
      && given.source == me && given.target != me
      && lastSequence == given.sequence && grant == Some(given) && owner == Some(given.target) && !resident
    }

    /** The rest of `_transfer_locked` after the choice, in the order that keeps the
        card exclusive. */
    method HandOver(ledger: Ledger, selected: Record, ghost s: State, ghost below: seq<Frame>)
      returns (res: Result<Grant, Failure>, ghost end: State)
      requires Valid() && Linked(ledger) && Sane(selected, |ledger.rows|)
      requires At(s, ledger, below + [Transferring(Phase.Chosen(selected))]) && selected.handle.request.service != me
      modifies this, ledger
      ensures Valid() && Linked(ledger) && transferring == old(transferring) && |ledger.rows| == old(|ledger.rows|)
      ensures res.Ok? ==> HandedOn(res.value, end) && res.value.sequence == old(lastSequence) + 1
      ensures res.Ok? ==> res.value.target == selected.handle.request.service && res.value.requestId == selected.handle.request.id
      ensures res.Ok? ==> RowsHandedOn(old(ledger.rows), ledger.rows, old(Seen()), selected.handle, res.value)
      ensures Reaches(ring, s, end) && end.rows == ledger.rows && me in end.managers
      ensures res.Ok? ==> res.value == NextGrant(me, old(Seen()), selected) && end.chain == s.chain + [res.value]
      ensures res.Ok? ==> end.managers[me] == ColocationProtocol.Manager(Seen(), AfterTransfer(below), false, resident, NoFailure)
      ensures res.Err? ==> end.managers[me].failure == res.error == ProtocolError
    {
      hide Enabled, Apply, Linked, Sane, CanStep, DoStep, OwnRowClosed, RowGranted, RowsHandedOn;
      ghost var before, seen := ledger.rows, Seen();
      ReachesSelf(ring, s);
      ghost var vacated := Vacate(ledger, selected, s, below);
      ReachesNext(ring, s, s, By(me, Step.Vacate));
      ghost var closed := CloseOwn(ledger, selected, vacated, below);
      ReachesNext(ring, s, vacated, By(me, Step.CloseOwn));
      ghost var own := ledger.rows;
      var next;
      ghost var published;
      next, published := Publish(ledger, selected, closed, below);
      ReachesNext(ring, s, closed, By(me, Step.Publish));
      ClosedThenGranted(before, own, ledger.rows, seen, selected.handle, next);
      var applied;
      applied, end := Adopt(ledger, selected, next, published, below);
      ReachesNext(ring, s, published, By(me, Step.Adopt));
      SameChain(ring, s, vacated, closed, me);
      if applied.Err? { return Err(applied.error), end; }
      return Ok(next), end;
    }

    // ---- the loop over a scan --------------------------------------------------------

    /** A FALLBACK member that does not own the card keeps a request posted; it posts
        one exactly when its view holds none. */
    method KeepFallback(ledger: Ledger, now: int, ghost s: State, ghost stack: seq<Frame>) returns (ghost end: State)
      requires Valid() && Linked(ledger) && At(s, ledger, stack)
      modifies this`records, this`handles, ledger
      ensures end == KeepFallbackPosted(ring, s, me, now)
      ensures Valid() && Linked(ledger) && At(end, ledger, stack) && |ledger.rows| >= old(|ledger.rows|)
      ensures ring.ModeFor(me) == Fallback && owner != Some(me) ==> HasFallbackFrom(Seen(), me)
      ensures ring.ModeFor(me) == Fallback && owner != Some(me) && !old(HasFallbackFrom(Seen(), me)) ==>
        OneMoreFallback(old(ledger.rows), ledger.rows, me)
      ensures ring.ModeFor(me) != Fallback || owner == Some(me) || old(HasFallbackFrom(Seen(), me)) ==> ledger.rows == old(ledger.rows)
    {
      end := KeepFallbackPosted(ring, s, me, now);
      if ring.ModeFor(me) == Fallback && owner != Some(me) {
        FallbackOfOwnIsPosted(ring, me);
        EnsuredStands(ring, Seen(), ledger.rows, me, now);
        var posted := EnsureFallbackRequest(ledger, me, now);
      }
    }

    /** The end of the turn: the record's grant is applied, and a FALLBACK member that
        the card did not come to has asked for it back. */
    method TakeGrant(ledger: Ledger, next: Grant, now: int, ghost s: State, ghost stack: seq<Frame>)
      returns (res: Result<bool, Failure>, ghost end: State)
      requires Valid() && Linked(ledger) && At(s, ledger, stack)
      modifies this, ledger
      ensures end == GrantTaken(ring, s, me, next, now)
      ensures Valid() && Linked(ledger) && transferring == old(transferring) && |ledger.rows| >= old(|ledger.rows|)
      ensures res.Ok? ==> res.value == false && At(end, ledger, stack)
      ensures res.Err? ==> end.rows == ledger.rows && me in end.managers && end.managers[me].failure == res.error == ProtocolError
      ensures res.Ok? && ring.ModeFor(me) == Fallback && owner != Some(me) ==> HasFallbackFrom(Seen(), me)
      ensures res.Ok? && ring.ModeFor(me) == Fallback && owner != Some(me) && !old(HasFallbackFrom(Seen(), me)) ==>
        OneMoreFallback(old(ledger.rows), ledger.rows, me)
      ensures res.Err? || ring.ModeFor(me) != Fallback || owner == Some(me) || old(HasFallbackFrom(Seen(), me)) ==>
        ledger.rows == old(ledger.rows)
    {
      var applied := ApplyGrant(next);
      if applied.Err? { return Err(applied.error), GrantTaken(ring, s, me, next, now); }
      ghost var mid := GrantApplied(ring, s, me, next);
      end := KeepFallback(ledger, now, mid, stack);
      return Ok(false), end;
    }

    /** This manager the moment `_transfer` has set its flag. */
    ghost function Entering(stack: seq<Frame>): ColocationProtocol.Manager
      reads this
    {
      ColocationProtocol.Manager(Seen(), stack + [Transferring(Waiting)], true, resident, NoFailure)
    }

    /** The record is remembered; true when its grant is no news to the copy it replaces. */
    method Store(ledger: Ledger, record: Record) returns (stale: bool)
      requires Valid() && Linked(ledger) && Sane(record, |ledger.rows|)
      modifies this`records, this`handles
      ensures Valid() && Linked(ledger) && Seen() == TakeRecord(old(Seen()), record)
      ensures stale <==>
        && record.grant.Some? && record.Id() in old(records) && old(records)[record.Id()].grant.Some?
        && old(records)[record.Id()].grant.value.sequence >= record.grant.value.sequence
    {
      var id := record.Id();
      stale := record.grant.Some? && id in records && records[id].grant.Some?
        && records[id].grant.value.sequence >= record.grant.value.sequence;
      records := records[id := record];
      handles := handles[id := record.handle];
    }

    /** One turn of `_reconcile`'s loop; true when it is about to call `_transfer`. */
    method TakeOne(ledger: Ledger, record: Record, now: int, ghost s: State, ghost rest: seq<Record>, ghost below: seq<Frame>, ghost asOf: int)
      returns (res: Result<bool, Failure>, ghost end: State)
      requires Valid() && Linked(ledger) && Sane(record, |ledger.rows|)
      requires At(s, ledger, below + [Reconciling([record] + rest, asOf)])
      modifies this, ledger
      ensures Enabled(ring, s, By(me, Process(now))) && end == Apply(ring, s, By(me, Process(now)))
      ensures Valid() && Linked(ledger) && transferring == old(transferring) && |ledger.rows| >= old(|ledger.rows|)
      ensures end.rows == ledger.rows && me in end.managers
      ensures res == Ok(true) ==> owner == Some(me) && !transferring
      ensures res == Ok(true) <==> record.state == Open && old(owner) == Some(me) && ring.ModeFor(me) == Fallback && !old(transferring)
      ensures res == Ok(true) ==> end.managers[me] == Entering(below + [Reconciling(rest, asOf)])
      ensures res == Ok(false) ==> At(end, ledger, below + [Reconciling(rest, asOf)])
      ensures res.Err? ==> end.managers[me].failure == res.error == ProtocolError
      ensures res == Ok(false) && IsNews(old(Seen()), record) && ring.ModeFor(me) == Fallback && owner != Some(me) ==>
        HasFallbackFrom(Seen(), me)
      ensures if res == Ok(false) && IsNews(old(Seen()), record) && ring.ModeFor(me) == Fallback && owner != Some(me)
                 && !HasFallbackFrom(old(Seen()).(records := old(records)[record.Id() := record]), me)
              then OneMoreFallback(old(ledger.rows), ledger.rows, me) else ledger.rows == old(ledger.rows)
    {
      hide GrantTaken, Apply, Enabled, DoStep, CanStep, ProcessRecord, TakeRecord, Linked, Sane;
      ghost var stack := below + [Reconciling(rest, asOf)];
      ghost var taken := Put(s, me, ColocationProtocol.Manager(TakeRecord(Seen(), record), stack, transferring, resident, NoFailure));
      ProcessCases(ring, s, me, now, record, rest, below, asOf);
      end := Apply(ring, s, By(me, Process(now)));
      var stale := Store(ledger, record);
      assert At(taken, ledger, stack);
      if record.state == Open && owner == Some(me) && ring.ModeFor(me) == Fallback && !transferring {
        return Ok(true), end;
      }
      if record.grant.None? { return Ok(false), end; }
      if stale { return Ok(false), end; }
      TakenFallbacks(old(Seen()), record, me);
      res, end := TakeGrant(ledger, record.grant.value, now, taken, stack);
    }

    // ---- the two recursive methods ------------------------------------------------------

    /** The thread has died; inside a release command never of a selection. */
    ghost predicate Failed(end: State, below: seq<Frame>)
      reads this
    {
      && me in end.managers && end.managers[me].failure != NoFailure
      && (below != [] && below[0] == ReleaseCommand ==> end.managers[me].failure != UnknownService)
    }

    /** Nobody asks for the card, and it came from outside the ring. */
    ghost predicate Stuck()
      reads this
    {
      owner == Some(me) && !HasCandidate(Seen(), me) && grant.Some? && grant.value.source != me && !ring.Member(grant.value.source)
    }

    /** Nobody asks for the card, and nobody can be asked to. */
    ghost predicate NobodyToTakeIt()
      reads this
    {
      !HasCandidate(Seen(), me) && (grant.None? || grant.value.source == me)
    }

    /** A release command whose selection failed: the thread goes on with an empty
        stack, the card is where it was. */
    ghost predicate Abandoned(end: State, ledger: Ledger, below: seq<Frame>)
      reads this, ledger
    {
      && below != [] && below[0] == ReleaseCommand && me in end.managers && end.rows == ledger.rows
      && end.managers[me] == ColocationProtocol.Manager(Seen(), [], false, resident, NoFailure) && Stuck()
    }

    /** `_reconcile` over one scan. It may start one transfer per record; inside a
        transfer it starts none, which bounds the recursion. */
    method Reconcile(ledger: Ledger, scan: seq<Record>, now: int, patience: nat, ghost s: State, ghost below: seq<Frame>, ghost asOf: int)
      returns (res: Result<bool, Failure>, ghost end: State)
      requires Valid() && Linked(ledger) && forall i :: 0 <= i < |scan| ==> Sane(scan[i], |ledger.rows|)
      requires At(s, ledger, below + [Reconciling(scan, asOf)])
      modifies this, ledger
      ensures Valid() && Linked(ledger) && transferring == old(transferring) && |ledger.rows| >= old(|ledger.rows|)
      ensures Reaches(ring, s, end)
      ensures res.Ok? ==> At(end, ledger, below + [Reconciling([], asOf)])
      ensures res.Err? ==> Failed(end, below) || Abandoned(end, ledger, below)
      decreases if transferring then 0 else 2, 0
    {
      hide Enabled, Apply;
      ReachesSelf(ring, s);
      end := s;
      for i := 0 to |scan|
        invariant Valid() && Linked(ledger) && transferring == old(transferring) && |ledger.rows| >= old(|ledger.rows|)
        invariant Reaches(ring, s, end) && At(end, ledger, below + [Reconciling(scan[i..], asOf)])
      {
        assert scan[i..] == [scan[i]] + scan[i + 1..];
        ghost var here := end;
        var turn;
        turn, end := TakeOne(ledger, scan[i], now, here, scan[i + 1..], below, asOf);
        ReachesNext(ring, s, here, By(me, Process(now)));
        if turn.Err? { return Err(turn.error), end; }
        if turn.value {
          ghost var started := end;
          var moved;
          moved, end := Transfer(ledger, now, patience, started, below + [Reconciling(scan[i + 1..], asOf)]);
          ReachesAll(ring, s, started, end);
          if moved.Err? { return Err(moved.error), end; }
          NotARelease(below, Reconciling(scan[i + 1..], asOf));
        }
      }
      return Ok(true), end;
    }

    /** Phase 2: the choice as a protocol step, with its two ways to fail. */
    method Choose(ledger: Ledger, now: int, ghost s: State, ghost below: seq<Frame>)
      returns (selected: Result<Option<string>, Failure>, ghost end: State)
      requires Valid() && Linked(ledger) && transferring && At(s, ledger, below + [Transferring(Waiting)])
      modifies this`records, this`handles, ledger
      ensures Valid() && Linked(ledger) && |ledger.rows| >= old(|ledger.rows|) && Reaches(ring, s, end)
      ensures end.rows == ledger.rows && me in end.managers
      ensures selected.Err? ==> Failed(end, below) || Abandoned(end, ledger, below)
      ensures selected.Ok? && selected.value.None? ==>
        end.managers[me] == ColocationProtocol.Manager(Seen(), AfterTransfer(below), false, resident, NoFailure)
      ensures selected == Ok(None) ==> Enabled(ring, s, By(me, GiveUp)) && end == Apply(ring, s, By(me, GiveUp))
      ensures selected.Ok? && selected.value.Some? ==>
        Enabled(ring, s, By(me, Step.Choose(selected.value.value, now))) && end == Apply(ring, s, By(me, Step.Choose(selected.value.value, now)))
      ensures selected == Ok(None) ==> ledger.rows == old(ledger.rows) && Seen() == old(Seen()) && (owner == Some(me) ==> NobodyToTakeIt())
      ensures selected.Ok? && selected.value.Some? ==>
        selected.value.value in records && At(end, ledger, below + [Transferring(Phase.Chosen(records[selected.value.value]))])
      ensures selected.Ok? && selected.value.Some? ==> records[selected.value.value].handle.request.service != me
    {
      hide Selected, SelectionFrom, IsCandidate, Reaches, Enabled, Apply;
      ReachesSelf(ring, s);
      ghost var view, rows := Seen(), ledger.rows;
      StrangersOnly(ring, me, view, rows, now);
      var found := SelectNext(ledger, now);
      NoCandidateMeansNone(ring, me, view, rows, now);
      WaitingSteps(ring, s, me, below, now);
      if found.Err? {
        end := Apply(ring, s, By(me, SelectionFails));
        ReachesNext(ring, s, s, By(me, SelectionFails));
        return Err(UnknownService), end;
      }
      if found.value.None? {
        end := Apply(ring, s, By(me, GiveUp));
        ReachesNext(ring, s, s, By(me, GiveUp));
        return Ok(None), end;
      }
      var id := found.value.value;
      ChosenIsAnother(ring, me, Seen(), id);
      ChooseStep(ring, s, me, below, now, Seen(), ledger.rows, id);
      end := Apply(ring, s, By(me, Step.Choose(id, now)));
      ReachesNext(ring, s, s, By(me, Step.Choose(id, now)));
      return Ok(Some(id)), end;
    }

    /** One rescan of phase 1. */
    method Rescan(ledger: Ledger, now: int, patience: nat, ghost s: State, ghost below: seq<Frame>)
      returns (res: Result<bool, Failure>, ghost end: State)
      requires Valid() && Linked(ledger) && transferring && At(s, ledger, below + [Transferring(Waiting)])
      requires !HasOpenFrom(Seen(), ring.NextMember(me))
      modifies this, ledger
      ensures Valid() && Linked(ledger) && transferring && |ledger.rows| >= old(|ledger.rows|) && Reaches(ring, s, end)
      ensures res.Ok? ==> At(end, ledger, below + [Transferring(Waiting)]) && OneRescan(ring, me, s, end)
      ensures res.Err? ==> Failed(end, below) || Abandoned(end, ledger, below)
      decreases 0, 1
    {
      var scan := ledger.Scan();
      var sorted := SortRecords(scan);
      assert sorted == Snapshot(ledger.rows);
      SnapshotIsSane(ledger.rows);
      ghost var stack := below + [Transferring(Waiting)];
      ghost var rescanned := RescanEffect(ring, s, me, stack);
      ghost var reconciled;
      res, reconciled := Reconcile(ledger, sorted, now, patience, rescanned, stack, |s.chain| - 1);
      FirstStep(ring, s, By(me, Step.Rescan));
      end := reconciled;
      if res.Ok? {
        end := EndEffect(ring, reconciled, me, stack, |s.chain| - 1);
        ReachesNext(ring, rescanned, reconciled, By(me, EndReconcile));
      }
      ReachesAll(ring, s, rescanned, end);
    }

    /** `_transfer_locked`: wait a bounded time for the next ring member, then choose
        and hand over. The wait ends early exactly when that member asks; `ready` is
        the state it ends in. */
    method TransferLocked(ledger: Ledger, now: int, patience: nat, ghost s: State, ghost below: seq<Frame>)
      returns (res: Result<Option<Grant>, Failure>, ghost end: State, ghost rescans: nat, ghost ready: State)
      requires Valid() && Linked(ledger) && transferring && At(s, ledger, below + [Transferring(Waiting)])
      modifies this, ledger
      ensures Valid() && Linked(ledger) && transferring && |ledger.rows| >= old(|ledger.rows|) && Reaches(ring, s, end)
      ensures Rescans(ring, me, s, rescans, ready) && rescans <= patience
      ensures res.Ok? ==> me in ready.managers && (rescans == patience || HasOpenFrom(ready.managers[me].view, ring.NextMember(me)))
      ensures res == Ok(None) ==> Enabled(ring, ready, By(me, GiveUp)) && end == Apply(ring, ready, By(me, GiveUp))
      ensures res.Ok? && res.value.Some? ==> ChosenFrom(ready, now, res.value.value, end)
      ensures res.Ok? ==> end.rows == ledger.rows && me in end.managers
      ensures res.Ok? ==> end.managers[me] == ColocationProtocol.Manager(Seen(), AfterTransfer(below), false, resident, NoFailure)
      ensures res == Ok(None) && owner == Some(me) ==> NobodyToTakeIt()
      ensures res == Ok(None) && Reachable(ring, s) ==> owner == Some(me)
      ensures res.Ok? && res.value.Some? ==> HandedOn(res.value.value, end)
      ensures res.Err? ==> Failed(end, below) || Abandoned(end, ledger, below)
      decreases 1, 0
    {
      hide Enabled, Apply, Reachable, Failed, Abandoned, Stuck, NobodyToTakeIt, HandedOn, OneRescan, Reaches, ChosenFrom;
      ReachesSelf(ring, s);
      end, rescans, ready := s, 0, s;
      var waited := 0;
      var asked := HasOpenRequestFrom(ring.NextMember(me));
      while !asked && waited < patience
        invariant Valid() && Linked(ledger) && transferring && |ledger.rows| >= old(|ledger.rows|)
        invariant Reaches(ring, s, ready) && At(ready, ledger, below + [Transferring(Waiting)])
        invariant asked == HasOpenFrom(Seen(), ring.NextMember(me))
        invariant rescans == waited <= patience && Rescans(ring, me, s, rescans, ready)
        decreases patience - waited
      {
        ghost var here := ready;
        var scanned;
        scanned, end := Rescan(ledger, now, patience, here, below);
        ReachesAll(ring, s, here, end);
        if scanned.Err? { return Err(scanned.error), end, rescans, ready; }
        waited := waited + 1;
        rescans, ready := rescans + 1, end;
        asked := HasOpenRequestFrom(ring.NextMember(me));
      }
      res, end := ChooseAndHandOver(ledger, now, ready, below);
      WaitingOwns(ring, s, ready, me);
      ReachesAll(ring, s, ready, end);
    }

    /** The issued grant answers the request the selector picks in `ready`. */
    ghost predicate ChosenFrom(ready: State, now: int, given: Grant, end: State)
      requires ring.Valid()
      reads this
    {
      && Enabled(ring, ready, By(me, Step.Choose(given.requestId, now)))
      && Reaches(ring, Apply(ring, ready, By(me, Step.Choose(given.requestId, now))), end)
    }

    /** Everything after the wait. */
    method ChooseAndHandOver(ledger: Ledger, now: int, ghost s: State, ghost below: seq<Frame>)
      returns (res: Result<Option<Grant>, Failure>, ghost end: State)
      requires Valid() && Linked(ledger) && transferring && At(s, ledger, below + [Transferring(Waiting)])
      modifies this, ledger
      ensures Valid() && Linked(ledger) && transferring && |ledger.rows| >= old(|ledger.rows|) && Reaches(ring, s, end)
      ensures res == Ok(None) ==> Enabled(ring, s, By(me, GiveUp)) && end == Apply(ring, s, By(me, GiveUp))
      ensures res.Ok? && res.value.Some? ==> ChosenFrom(s, now, res.value.value, end)
      ensures res.Ok? ==> end.rows == ledger.rows && me in end.managers
      ensures res.Ok? ==> end.managers[me] == ColocationProtocol.Manager(Seen(), AfterTransfer(below), false, resident, NoFailure)
      ensures res == Ok(None) ==> owner == old(owner) && (owner == Some(me) ==> NobodyToTakeIt())
      ensures res.Ok? && res.value.Some? ==> HandedOn(res.value.value, end)
      ensures res.Err? ==> Failed(end, below) || Abandoned(end, ledger, below)
    {
      hide Enabled, Apply, Reaches, Run, HandedOn, Failed, Abandoned, RowsHandedOn, NobodyToTakeIt;
      var selected;
      selected, end := Choose(ledger, now, s, below);
      if selected.Err? { return Err(selected.error), end; }
      if selected.value.None? { return Ok(None), end; }
      ghost var chosen := end;
      var handed;
      handed, end := HandOver(ledger, records[selected.value.value], chosen, below);
      ReachesAll(ring, s, chosen, end);
      if handed.Err? { FailedOfProtocol(end, below); return Err(handed.error), end; }
      return Ok(Some(handed.value)), end;
    }

    lemma FailedOfProtocol(end: State, below: seq<Frame>)
      requires me in end.managers && end.managers[me].failure == ProtocolError
      ensures Failed(end, below)
    {
    }

    /** `_transfer`: an error at once for a service that does not own the card, or
        that is transferring already; otherwise the flag is set for the duration. */
    method Transfer(ledger: Ledger, now: int, patience: nat, ghost s: State, ghost below: seq<Frame>)
      returns (res: Result<Option<Grant>, Failure>, ghost end: State)
      requires Valid() && Linked(ledger)
      requires owner == Some(me) && !transferring ==> me in s.managers && s.managers[me] == Entering(below) && s.rows == ledger.rows
      modifies this, ledger
      ensures Valid() && Linked(ledger) && transferring == old(transferring) && |ledger.rows| >= old(|ledger.rows|)
      ensures Reaches(ring, s, end)
      ensures old(owner) != Some(me) ==> res == Err(NotOwner) && Unchanged(old(Seen()), old(resident), s, end) && ledger.rows == old(ledger.rows)
      ensures old(owner) == Some(me) && old(transferring) ==>
        res == Err(ReentryError) && Unchanged(old(Seen()), old(resident), s, end) && ledger.rows == old(ledger.rows)
      ensures res.Ok? ==> At(end, ledger, AfterTransfer(below))
      ensures res == Ok(None) && owner == Some(me) ==> NobodyToTakeIt()
      ensures res == Ok(None) && Reachable(ring, s) ==> owner == Some(me)
      ensures res.Ok? && res.value.Some? ==> HandedOn(res.value.value, end)
      ensures old(owner) == Some(me) && !old(transferring) && res.Err? ==> Failed(end, below) || Abandoned(end, ledger, below)
      decreases 1, 1
    {
      ReachesSelf(ring, s);
      if owner != Some(me) { return Err(NotOwner), s; }
      if transferring { return Err(ReentryError), s; }
      transferring := true;
      ghost var rescans, ready;
      res, end, rescans, ready := TransferLocked(ledger, now, patience, s, below);
      transferring := false;
    }

    ghost predicate Unchanged(seen: View, was: bool, s: State, end: State)
      reads this
    {
      Seen() == seen && resident == was && end == s
    }

    /** One idle turn of the manager's thread. */
    method Poll(ledger: Ledger, now: int, patience: nat, ghost s: State) returns (res: Result<bool, Failure>, ghost end: State)
      requires Valid() && Linked(ledger) && !transferring && At(s, ledger, [])
      modifies this, ledger
      ensures Valid() && Linked(ledger) && !transferring
      ensures Enabled(ring, s, By(me, Step.Poll)) && Reaches(ring, Apply(ring, s, By(me, Step.Poll)), end)
      ensures res.Ok? ==> At(end, ledger, [])
      ensures res.Err? ==> Failed(end, [])
    {
      var scan := ledger.Scan();
      var sorted := SortRecords(scan);
      assert sorted == Snapshot(ledger.rows);
      SnapshotIsSane(ledger.rows);
      ghost var polled := PollEffect(ring, s, me);
      ghost var reconciled;
      res, reconciled := Reconcile(ledger, sorted, now, patience, polled, [], |s.chain| - 1);
      end := reconciled;
      if res.Ok? {
        end := EndEffect(ring, reconciled, me, [], |s.chain| - 1);
        ReachesNext(ring, polled, reconciled, By(me, EndReconcile));
      }
    }

    /** `_drain_commands`, action "release": reconcile, then transfer the card. A
        service that does not own it, or for which nobody can take it, gets an error
        and its thread goes on with an empty stack. */
    method Release(ledger: Ledger, now: int, patience: nat, ghost s: State) returns (res: Result<Option<Grant>, Failure>, ghost end: State)
      requires Valid() && Linked(ledger) && !transferring && At(s, ledger, [])
      modifies this, ledger
      ensures Valid() && Linked(ledger) && !transferring
      ensures Enabled(ring, s, By(me, Step.Release)) && Reaches(ring, Apply(ring, s, By(me, Step.Release)), end)
      ensures res.Ok? ==> At(end, ledger, [])
      ensures res.Ok? && res.value.Some? ==> HandedOn(res.value.value, end)
      ensures res == Ok(None) && owner == Some(me) ==> NobodyToTakeIt()
      ensures res == Ok(None) && Reachable(ring, s) ==> owner == Some(me)
      ensures res.Err? ==> Failed(end, [ReleaseCommand]) || (At(end, ledger, []) && (Stuck() || (owner != Some(me) && res.error == NotOwner)))
      ensures Reachable(ring, s) ==> At(end, ledger, [])
    {
      hide Enabled, Apply, Reaches;
      var scan := ledger.Scan();
      var sorted := SortRecords(scan);
      assert sorted == Snapshot(ledger.rows);
      SnapshotIsSane(ledger.rows);
      ghost var released := ReleaseEffect(ring, s, me);
      FirstStep(ring, s, By(me, Step.Release));
      if Reachable(ring, s) { StaysReachable(ring, s, released); }
      res, end := ReleaseScanned(ledger, sorted, now, patience, released, |s.chain| - 1);
      if Failed(end, [ReleaseCommand]) { ReleaseSurvives(ring, s, released, end, me); }
    }

    /** The release command once it has taken its scan. */
    method ReleaseScanned(ledger: Ledger, scan: seq<Record>, now: int, patience: nat, ghost s: State, ghost asOf: int)
      returns (res: Result<Option<Grant>, Failure>, ghost end: State)
      requires Valid() && Linked(ledger) && !transferring && forall i :: 0 <= i < |scan| ==> Sane(scan[i], |ledger.rows|)
      requires At(s, ledger, [ReleaseCommand] + [Reconciling(scan, asOf)])
      modifies this, ledger
      ensures Valid() && Linked(ledger) && !transferring && Reaches(ring, s, end)
      ensures res.Ok? ==> At(end, ledger, [])
      ensures res.Ok? && res.value.Some? ==> HandedOn(res.value.value, end)
      ensures res == Ok(None) && owner == Some(me) ==> NobodyToTakeIt()
      ensures res == Ok(None) && Reachable(ring, s) ==> owner == Some(me)
      ensures res.Err? ==> Failed(end, [ReleaseCommand]) || (At(end, ledger, []) && (Stuck() || (owner != Some(me) && res.error == NotOwner)))
    {
      hide Enabled, Apply, Reaches, Reachable;
      var reconciled;
      reconciled, end := Reconcile(ledger, scan, now, patience, s, [ReleaseCommand], asOf);
      if reconciled.Err? { return Err(reconciled.error), end; }
      ghost var scanned := end;
      end := EndEffect(ring, scanned, me, [ReleaseCommand], asOf);
      ReachesNext(ring, s, scanned, By(me, EndReconcile));
      ghost var ended := end;
      end := BeginEffect(ring, ended, me);
      ReachesNext(ring, s, ended, By(me, BeginRelease));
      ghost var begun := end;
      if Reachable(ring, s) { StaysReachable(ring, s, begun); }
      res, end := Transfer(ledger, now, patience, begun, [ReleaseCommand]);
      ReachesAll(ring, s, begun, end);
    }
  }

  /** The protocol state after a grant from a scan has been applied, before and
      after the fallback request is renewed. */
  ghost function GrantApplied(ring: Ring, s: State, me: string, next: Grant): State
    requires ring.Valid() && me in s.managers
  {
    match ColocationView.ApplyGrant(ring, me, s.managers[me].view, next)
    case Ignored => s
    case Advanced(view, acquire) => ColocationProtocol.Acquire(Put(s, me, s.managers[me].(view := view)), me, acquire)
    case _ => Put(s, me, s.managers[me].(failure := ProtocolError))
  }

  ghost function GrantTaken(ring: Ring, s: State, me: string, next: Grant, now: int): State
    requires ring.Valid() && ring.Member(me) && me in s.managers && s.managers[me].view.lastSequence >= -1
  {
    if GrantApplied(ring, s, me, next).managers[me].failure == ProtocolError then GrantApplied(ring, s, me, next)
    else KeepFallbackPosted(ring, GrantApplied(ring, s, me, next), me, now)
  }

  /** The cases of one turn of the protocol's loop. */
  lemma ProcessCases(ring: Ring, s: State, me: string, now: int, record: Record, rest: seq<Record>, below: seq<Frame>, asOf: int)
    requires ring.Valid() && ring.Member(me) && me in s.managers && s.managers[me].view.lastSequence >= -1
    requires s.managers[me].stack == below + [Reconciling([record] + rest, asOf)] && s.managers[me].failure == NoFailure
    ensures Enabled(ring, s, By(me, Process(now)))
    ensures var m := s.managers[me];
      var known := TakeRecord(m.view, record);
      var stack := below + [Reconciling(rest, asOf)];
      var taken := Put(s, me, ColocationProtocol.Manager(known, stack, m.transferring, m.resident, NoFailure));
      var after := Apply(ring, s, By(me, Process(now)));
      if record.state == Open && Owns(known, me) && ring.ModeFor(me) == Fallback && !m.transferring then
        after == Put(s, me, ColocationProtocol.Manager(known, stack + [Transferring(Waiting)], true, m.resident, NoFailure))
      else if record.grant.None? || (record.Id() in m.view.records && m.view.records[record.Id()].grant.Some?
                                     && m.view.records[record.Id()].grant.value.sequence >= record.grant.value.sequence) then after == taken
      else after == GrantTaken(ring, taken, me, record.grant.value, now)
  {
    var m := s.managers[me];
    assert ([record] + rest)[1..] == rest;
    assert Below(m) == below;
    var stack := below + [Reconciling(rest, asOf)];
    var known := TakeRecord(m.view, record);
    var taken := Put(s, me, ColocationProtocol.Manager(known, stack, m.transferring, m.resident, NoFailure));
    var m2 := SetTop(m, Reconciling(rest, asOf)).(view := known);
    assert m2 == taken.managers[me];
    forall other ensures Put(taken, me, other) == Put(s, me, other) {
      assert taken.managers[me := other] == s.managers[me := other];
    }
    FallbackOfOwnIsPosted(ring, me);
  }

  lemma {:induction false} ReachesAll(ring: Ring, s: State, mid: State, end: State)
    requires ring.Valid() && Reaches(ring, s, mid) && Reaches(ring, mid, end)
    ensures Reaches(ring, s, end)
  {
    var actions :| Run(ring, mid, actions, end);
    RunContinues(ring, s, mid, actions, end);
  }

  lemma {:induction false} RunContinues(ring: Ring, s: State, mid: State, actions: seq<Action>, end: State)
    requires ring.Valid() && Reaches(ring, s, mid) && Run(ring, mid, actions, end)
    ensures Reaches(ring, s, end)
    decreases |actions|
  {
    hide Enabled, Apply;
    if actions != [] {
      var last := actions[|actions| - 1];
      var before :| Run(ring, mid, actions[..|actions| - 1], before) && Enabled(ring, before, last) && Apply(ring, before, last) == end;
      RunContinues(ring, s, mid, actions[..|actions| - 1], before);
      ReachesNext(ring, s, before, last);
    }
  }

  lemma {:induction false} StaysReachable(ring: Ring, s: State, t: State)
    requires ring.Valid() && Reachable(ring, s) && Reaches(ring, s, t)
    ensures Reachable(ring, t)
  {
    hide Run, Init;
    assert Reaches(ring, Init(ring), s);
    ReachesAll(ring, Init(ring), s, t);
    assert Reachable(ring, t);
  }

  lemma FirstStep(ring: Ring, s: State, a: Action)
    requires ring.Valid() && Enabled(ring, s, a)
    ensures Reaches(ring, s, Apply(ring, s, a))
  {
    ReachesSelf(ring, s);
    ReachesNext(ring, s, s, a);
  }

  /** No protocol error is reachable, so a release never kills the thread. */
  lemma ReleaseSurvives(ring: Ring, s: State, released: State, end: State, me: string)
    requires ring.Valid() && Reaches(ring, s, released) && Reaches(ring, released, end)
    requires me in end.managers && end.managers[me].failure != NoFailure && end.managers[me].failure != UnknownService
    ensures !Reachable(ring, s)
  {
    hide Reachable, Reaches;
    if Reachable(ring, s) {
      StaysReachable(ring, s, released);
      StaysReachable(ring, released, end);
      Safety.ViewsArePrefixes(ring, end, me);
    }
  }

  /** In a reachable state whoever waits inside a transfer owns the card. */
  lemma WaitingOwns(ring: Ring, s: State, t: State, me: string)
    requires ring.Valid() && Reaches(ring, s, t) && me in t.managers && PhaseOf(t.managers[me]) == Some(Waiting)
    ensures Reachable(ring, s) ==> Owns(t.managers[me].view, me)
  {
    hide Reachable, Reaches;
    if Reachable(ring, s) {
      StaysReachable(ring, s, t);
      Safety.TransferringOwns(ring, t, me);
    }
  }

  /** A scan inside a call is never the release command itself. */
  lemma NotARelease(below: seq<Frame>, frame: Frame)
    requires frame.Reconciling?
    ensures AfterTransfer(below + [frame]) == below + [frame]
  {
    assert (below + [frame])[|below|] == frame;
  }

  lemma SnapshotIsSane(rows: seq<Row>)
    requires SaneRows(rows)
    ensures forall i :: 0 <= i < |Snapshot(rows)| ==> Sane(Snapshot(rows)[i], |rows|)
  {
    forall i | 0 <= i < |Snapshot(rows)| ensures Sane(Snapshot(rows)[i], |rows|) {
      SnapshotIsExact(rows, Snapshot(rows)[i]);
    }
  }

  lemma PollEffect(ring: Ring, s: State, me: string) returns (next: State)
    requires ring.Valid() && ring.Member(me) && me in s.managers && s.managers[me].failure == NoFailure
    requires s.managers[me].view.lastSequence >= -1 && s.managers[me].stack == []
    ensures Enabled(ring, s, By(me, Step.Poll)) && next == Apply(ring, s, By(me, Step.Poll))
    ensures next == Put(s, me, s.managers[me].(stack := [Reconciling(Snapshot(s.rows), |s.chain| - 1)]))
  {
    next := Apply(ring, s, By(me, Step.Poll));
  }

  lemma ReleaseEffect(ring: Ring, s: State, me: string) returns (next: State)
    requires ring.Valid() && ring.Member(me) && me in s.managers && s.managers[me].failure == NoFailure
    requires s.managers[me].view.lastSequence >= -1 && s.managers[me].stack == []
    ensures Enabled(ring, s, By(me, Step.Release)) && next == Apply(ring, s, By(me, Step.Release))
    ensures next == Put(s, me, s.managers[me].(stack := [ReleaseCommand] + [Reconciling(Snapshot(s.rows), |s.chain| - 1)]))
  {
    next := Apply(ring, s, By(me, Step.Release));
    assert [ReleaseCommand, NewScan(s)] == [ReleaseCommand] + [NewScan(s)];
  }

  lemma BeginEffect(ring: Ring, s: State, me: string) returns (next: State)
    requires ring.Valid() && ring.Member(me) && me in s.managers && s.managers[me].failure == NoFailure
    requires s.managers[me].view.lastSequence >= -1 && s.managers[me].stack == [ReleaseCommand] && !s.managers[me].transferring
    ensures Enabled(ring, s, By(me, BeginRelease)) && next == Apply(ring, s, By(me, BeginRelease))
    ensures Owns(s.managers[me].view, me) ==>
      next == Put(s, me, s.managers[me].(stack := [ReleaseCommand] + [Transferring(Waiting)], transferring := true))
    ensures !Owns(s.managers[me].view, me) ==> next == Put(s, me, s.managers[me].(stack := []))
  {
    next := Apply(ring, s, By(me, BeginRelease));
  }

  lemma RescanEffect(ring: Ring, s: State, me: string, stack: seq<Frame>) returns (next: State)
    requires ring.Valid() && ring.Member(me) && me in s.managers && s.managers[me].failure == NoFailure
    requires s.managers[me].view.lastSequence >= -1 && s.managers[me].stack == stack && stack != [] && stack[|stack| - 1] == Transferring(Waiting)
    requires !HasOpenFrom(s.managers[me].view, ring.NextMember(me))
    ensures Enabled(ring, s, By(me, Step.Rescan)) && next == Apply(ring, s, By(me, Step.Rescan))
    ensures next == Put(s, me, s.managers[me].(stack := stack + [Reconciling(Snapshot(s.rows), |s.chain| - 1)]))
  {
    next := Apply(ring, s, By(me, Step.Rescan));
  }

  lemma EndEffect(ring: Ring, s: State, me: string, stack: seq<Frame>, asOf: int) returns (next: State)
    requires ring.Valid() && ring.Member(me) && me in s.managers && s.managers[me].failure == NoFailure
    requires s.managers[me].view.lastSequence >= -1 && s.managers[me].stack == stack + [Reconciling([], asOf)]
    ensures Enabled(ring, s, By(me, EndReconcile)) && next == Apply(ring, s, By(me, EndReconcile))
    ensures next == Put(s, me, s.managers[me].(stack := stack))
  {
    next := Apply(ring, s, By(me, EndReconcile));
    assert Below(s.managers[me]) == stack;
  }

  /** The three ways out of the first phase, as the protocol has them. */
  lemma WaitingSteps(ring: Ring, s: State, me: string, below: seq<Frame>, now: int)
    requires ring.Valid() && ring.Member(me) && me in s.managers && s.managers[me].view.lastSequence >= -1
    requires s.managers[me].stack == below + [Transferring(Waiting)] && s.managers[me].failure == NoFailure
    ensures var m := s.managers[me];
      && (Owns(m.view, me) && SelectionFrom(ring, me, m.view, s.rows, 0).Err? ==>
            && Enabled(ring, s, By(me, SelectionFails))
            && Apply(ring, s, By(me, SelectionFails)).rows == s.rows
            && me in Apply(ring, s, By(me, SelectionFails)).managers
            && (|| (Apply(ring, s, By(me, SelectionFails)).managers[me].failure == UnknownService
                    && (below == [] || below[0] != ReleaseCommand))
                || (below != [] && below[0] == ReleaseCommand
                    && Apply(ring, s, By(me, SelectionFails)).managers[me]
                       == m.(stack := [], transferring := false, failure := NoFailure))))
      && ((Owns(m.view, me) ==> !HasCandidate(m.view, me) && !Synthesises(m.view, me)) ==>
            && Enabled(ring, s, By(me, GiveUp))
            && Apply(ring, s, By(me, GiveUp)) == Put(s, me, m.(stack := AfterTransfer(below), transferring := false)))
  {
    assert Below(s.managers[me]) == below;
  }

  lemma ChooseStep(ring: Ring, s: State, me: string, below: seq<Frame>, now: int, view: View, rows: seq<Row>, id: string)
    requires ring.Valid() && ring.Member(me) && me in s.managers && s.managers[me].view.lastSequence >= -1
    requires s.managers[me].stack == below + [Transferring(Waiting)] && s.managers[me].failure == NoFailure
    requires Owns(s.managers[me].view, me) && SelectionFrom(ring, me, s.managers[me].view, s.rows, now) == Ok((view, rows))
    requires Selected(ring, me, view, id)
    ensures id in view.records && Enabled(ring, s, By(me, Step.Choose(id, now)))
    ensures Apply(ring, s, By(me, Step.Choose(id, now)))
         == Put(s, me, s.managers[me].(view := view, stack := below + [Transferring(Phase.Chosen(view.records[id]))])).(rows := rows)
  {
    assert Below(s.managers[me]) == below;
    hide SelectionFrom, KeyBelow;
  }

  /** The selector comes back empty-handed only when nobody asked and there is
      nobody to ask on behalf of. */
  lemma NoCandidateMeansNone(ring: Ring, me: string, view: View, rows: seq<Row>, now: int)
    requires ring.Valid() && ring.Member(me) && view.lastSequence >= -1 && LinkedView(view, rows)
    ensures var base := SelectionFrom(ring, me, view, rows, now);
      && (base.Ok? && !HasCandidate(base.value.0, me) ==> !HasCandidate(view, me) && !Synthesises(view, me))
      && (base.Err? <==> SelectionFrom(ring, me, view, rows, 0).Err?)
      && (!Synthesises(view, me) ==> base == Ok((view, rows)))
      && (base.Ok? ==> |base.value.1| >= |rows|)
  {
    if Synthesises(view, me) && EnsureFallback(ring, view, rows, view.grant.value.source, now).Ok? {
      FallbackIsACandidate(ring, me, view, rows, now);
    }
  }

  lemma TakenFallbacks(view: View, record: Record, service: string)
    ensures HasFallbackFrom(TakeRecord(view, record), service)
       <==> HasFallbackFrom(view.(records := view.records[record.Id() := record]), service)
  {
    hide OpenFallbackFrom;
  }

  /** The selection fails for one reason alone. */
  lemma StrangersOnly(ring: Ring, me: string, view: View, rows: seq<Row>, now: int)
    requires ring.Valid() && view.lastSequence >= -1
    ensures SelectionFrom(ring, me, view, rows, now).Err? ==>
              !HasCandidate(view, me) && view.grant.Some? && view.grant.value.source != me && !ring.Member(view.grant.value.source)
    ensures !HasCandidate(view, me) && !Synthesises(view, me) ==> view.grant.None? || view.grant.value.source == me
  {
  }

  lemma ChosenIsAnother(ring: Ring, me: string, view: View, id: string)
    requires ring.Valid() && ring.Member(me) && Selected(ring, me, view, id)
    ensures id in view.records && view.records[id].handle.request.service != me
  {
  }

  lemma FallbackOfOwnIsPosted(ring: Ring, me: string)
    requires ring.Member(me)
    ensures forall view: View, rows, now :: view.lastSequence >= -1 ==> EnsureFallback(ring, view, rows, me, now).Ok?
  {
  }

  lemma SameChain(ring: Ring, s: State, vacated: State, closed: State, me: string)
    requires ring.Valid()
    requires Enabled(ring, s, By(me, Vacate)) && vacated == Apply(ring, s, By(me, Vacate))
    requires Enabled(ring, vacated, By(me, CloseOwn)) && closed == Apply(ring, vacated, By(me, CloseOwn))
    ensures closed.chain == s.chain
  {
  }

  /** Leaving `_transfer` also ends the release command that called it. */
  ghost function AfterTransfer(below: seq<Frame>): seq<Frame> {
    if below == [ReleaseCommand] then [] else below
  }

  ghost predicate LinkedView(view: View, rows: seq<Row>) {
    && SaneRows(rows)
    && (forall id :: id in view.records ==> Sane(view.records[id], |rows|) && view.records[id].Id() == id)
    && (forall id :: id in view.handles ==> view.handles[id].row < |rows|)
  }

  /** Once the return request exists there is a candidate, and nothing is synthesised again. */
  lemma FallbackIsACandidate(ring: Ring, me: string, view: View, rows: seq<Row>, now: int)
    requires ring.Valid() && ring.Member(me) && view.lastSequence >= -1 && LinkedView(view, rows) && Synthesises(view, me)
    requires EnsureFallback(ring, view, rows, view.grant.value.source, now).Ok?
    ensures var base := EnsureFallback(ring, view, rows, view.grant.value.source, now).value;
      HasCandidate(base.0, me) && LinkedView(base.0, base.1) && base.0.owner == view.owner
  {
    var source := view.grant.value.source;
    var base := EnsureFallback(ring, view, rows, source, now).value;
    assert forall id :: id in view.records && OpenFallbackFrom(view.records[id], source) ==> IsCandidate(view, me, id);
    if !HasFallbackFrom(view, source) {
      var request := FallbackRequestFor(ring, source, view.lastSequence + 1, now);
      assert IsCandidate(base.0, me, request.id);
    }
  }

  /** Records under different ids have different keys. */
  lemma KeysAreOrdered(ring: Ring, me: string, a: Record, b: Record)
    requires ring.Valid() && ring.Member(me)
    ensures var ka, kb := CandidateKey(ring, me, a), CandidateKey(ring, me, b);
      a.handle.request.id != b.handle.request.id ==> KeyBelow(ka, kb) || KeyBelow(kb, ka)
  {
    TextBelowIsTotal(a.handle.request.id, b.handle.request.id);
  }

  lemma BetterThanAll(ring: Ring, me: string, view: View, rest: set<string>, best: string, id: string)
    requires ring.Valid() && ring.Member(me) && best in view.records && id in view.records
    requires KeyBelow(CandidateKey(ring, me, view.records[id]), CandidateKey(ring, me, view.records[best]))
    requires forall other :: other !in rest && other != id && IsCandidate(view, me, other) && other != best ==>
      KeyBelow(CandidateKey(ring, me, view.records[best]), CandidateKey(ring, me, view.records[other]))
    ensures forall other :: other !in rest && other != id && IsCandidate(view, me, other) && other != best ==>
      KeyBelow(CandidateKey(ring, me, view.records[id]), CandidateKey(ring, me, view.records[other]))
  {
    forall other | other !in rest && other != id && IsCandidate(view, me, other) && other != best
      ensures KeyBelow(CandidateKey(ring, me, view.records[id]), CandidateKey(ring, me, view.records[other]))
    {
      KeyBelowTransitive(CandidateKey(ring, me, view.records[id]), CandidateKey(ring, me, view.records[best]),
                         CandidateKey(ring, me, view.records[other]));
    }
  }
}

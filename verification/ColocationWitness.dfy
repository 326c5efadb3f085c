/** Runs of the protocol that end where the documentation and the code disagree: the
    return that misses the fallback member, and the release of the genesis grant. */
module ColocationWitness {
  import opened Wrappers
  import opened ColocationRing
  import opened RequestLedger
  import opened ColocationView
  import opened ColocationProtocol
  import opened ColocationInvariant
  import opened ColocationFrames
  import opened ColocationSteps
  import opened ColocationSafety
  import opened ColocationFairness
  import opened ColocationOvertaking
  import CM = ColocationManager
  import Standing = ColocationStanding

  lemma Go(ring: Ring, s: State, a: Action)
    requires ring.Valid() && Reachable(ring, s) && Enabled(ring, s, a)
    ensures Reachable(ring, Apply(ring, s, a)) && Inv(ring, Apply(ring, s, a))
  {
    hide Inv, Enabled, Apply, Run;
    assert CM.Reaches(ring, Init(ring), s);
    CM.ReachesNext(ring, Init(ring), s, a);
    assert Reachable(ring, Apply(ring, s, a));
    ReachableKeeps(ring, Apply(ring, s, a));
  }

  // ---- the holder of the genesis grant --------------------------------------------------

  function GenesisLink(ring: Ring): Grant
    requires ring.Valid()
  {
    Grant(0, AUTHORITY, ring.InitialOwner(), "genesis")
  }

  function GenesisRows(ring: Ring): seq<Row>
    requires ring.Valid()
  {
    [Row(GenesisRequest(ring), RowState.Granted, Some(GenesisLink(ring)))]
  }

  /** The initial owner when it has polled once. */
  function FirstHolder(ring: Ring): Manager
    requires ring.Valid()
  {
    var record := Decode(GenesisRows(ring), 0);
    Manager(View(0, Some(GenesisLink(ring)), Some(ring.InitialOwner()), map["genesis" := record], map["genesis" := record.handle], {0}),
            [], false, true, NoFailure)
  }

  ghost function Held(ring: Ring): State
    requires ring.Valid()
  {
    State(GenesisRows(ring), Init(ring).managers[ring.InitialOwner() := FirstHolder(ring)], Some(0),
          [GenesisLink(ring)], [0], [AcquiredBy(ring.InitialOwner())])
  }

  lemma OwnerIsMember(ring: Ring)
    requires ring.Valid()
    ensures ring.Member(ring.InitialOwner()) && forall service :: service in Init(ring).managers <==> ring.Member(service)
  {
    InitKeeps(ring);
    assert ring.nodes[0].service == ring.InitialOwner();
  }

  lemma OneRecord(record: Record)
    ensures SortRecords([record]) == [record]
  {
    assert [record][..0] == [];
    assert SortRecords([]) == [];
  }

  lemma GenesisSnapshot(ring: Ring)
    requires ring.Valid()
    ensures Snapshot(GenesisRows(ring)) == [Decode(GenesisRows(ring), 0)]
  {
    assert ScanRows(GenesisRows(ring)) == [Decode(GenesisRows(ring), 0)];
    OneRecord(Decode(GenesisRows(ring), 0));
  }

  lemma GenesisIsGranted(ring: Ring) returns (s: State)
    requires ring.Valid()
    ensures Reachable(ring, s)
    ensures s == Init(ring).(rows := GenesisRows(ring), genesis := Some(0), chain := [GenesisLink(ring)], chainRows := [0])
  {
    hide Inv;
    assert Run(ring, Init(ring), [], Init(ring));
    Go(ring, Init(ring), GenesisCreate);
    var created := Apply(ring, Init(ring), GenesisCreate);
    Go(ring, created, GenesisGrant);
    s := Apply(ring, created, GenesisGrant);
    assert s.rows == GenesisRows(ring);
  }

  lemma GenesisIsHeld(ring: Ring)
    requires ring.Valid()
    ensures Reachable(ring, Held(ring)) && Inv(ring, Held(ring))
  {
    hide Inv, Reachable, Enabled, Apply;
    var owner, record := ring.InitialOwner(), Decode(GenesisRows(ring), 0);
    OwnerIsMember(ring);
    GenesisSnapshot(ring);
    var granted := GenesisIsGranted(ring);
    var polled := Poll1(ring, granted, owner);
    Go(ring, granted, By(owner, Poll));
    var taken := FirstTurn(ring, polled);
    Go(ring, polled, By(owner, Process(0)));
    EndTurn(ring, taken, owner, [], 0);
    Go(ring, taken, By(owner, EndReconcile));
    assert taken.managers[owner := taken.managers[owner].(stack := [])] == Held(ring).managers;
  }

  lemma Poll1(ring: Ring, s: State, me: string) returns (next: State)
    requires ring.Valid() && ring.Member(me) && me in s.managers && s.managers[me].failure == NoFailure
    requires s.managers[me].view.lastSequence >= -1 && s.managers[me].stack == []
    ensures Enabled(ring, s, By(me, Step.Poll)) && next == Apply(ring, s, By(me, Step.Poll))
    ensures next == Put(s, me, s.managers[me].(stack := [Reconciling(Snapshot(s.rows), |s.chain| - 1)]))
  {
    next := Apply(ring, s, By(me, Step.Poll));
  }

  lemma EndTurn(ring: Ring, s: State, me: string, stack: seq<Frame>, asOf: int)
    requires ring.Valid() && ring.Member(me) && me in s.managers && s.managers[me].failure == NoFailure
    requires s.managers[me].view.lastSequence >= -1 && s.managers[me].stack == stack + [Reconciling([], asOf)]
    ensures Enabled(ring, s, By(me, EndReconcile))
    ensures Apply(ring, s, By(me, EndReconcile)) == Put(s, me, s.managers[me].(stack := stack))
  {
    var next := CM.EndEffect(ring, s, me, stack, asOf);
  }

  /** The initial owner meets its own grant. */
  lemma FirstTurn(ring: Ring, s: State) returns (next: State)
    requires ring.Valid() && ring.Member(ring.InitialOwner()) && ring.InitialOwner() in s.managers
    requires s.managers[ring.InitialOwner()] == IDLE.(stack := [Reconciling([Decode(GenesisRows(ring), 0)], 0)])
    requires s.log == []
    ensures Enabled(ring, s, By(ring.InitialOwner(), Process(0))) && next == Apply(ring, s, By(ring.InitialOwner(), Process(0)))
    ensures next == Put(s, ring.InitialOwner(), FirstHolder(ring).(stack := [Reconciling([], 0)])).(log := [AcquiredBy(ring.InitialOwner())])
  {
    var owner, record := ring.InitialOwner(), Decode(GenesisRows(ring), 0);
    assert [record] + [] == [record] && [] + [Reconciling([record], 0)] == [Reconciling([record], 0)];
    CM.ProcessCases(ring, s, owner, 0, record, [], [], 0);
    next := Apply(ring, s, By(owner, Process(0)));
    var known := TakeRecord(EMPTY_VIEW, record);
    assert record.Id() == "genesis" && known.records == map["genesis" := record] && known.handles == map["genesis" := record.handle];
    var stack := [] + [Reconciling([], 0)];
    var taken := Put(s, owner, Manager(known, stack, false, false, NoFailure));
    FirstGrant(ring, known, record);
    var held := FirstHolder(ring).(stack := [Reconciling([], 0)]);
    assert CM.GrantApplied(ring, taken, owner, GenesisLink(ring)) == Put(s, owner, held).(log := [AcquiredBy(owner)]) by {
      assert stack == [Reconciling([], 0)] && s.log + [AcquiredBy(owner)] == [AcquiredBy(owner)];
      assert taken.managers[owner].(view := held.view) == held.(resident := false);
      assert s.managers[owner := taken.managers[owner]][owner := held.(resident := false)][owner := held] == s.managers[owner := held];
    }
  }

  lemma FirstGrant(ring: Ring, known: View, record: Record)
    requires ring.Valid() && known == EMPTY_VIEW.(records := map["genesis" := record], handles := map["genesis" := record.handle])
    requires record == Decode(GenesisRows(ring), 0)
    ensures ApplyGrant(ring, ring.InitialOwner(), known, GenesisLink(ring)) == Advanced(FirstHolder(ring).view, true)
  {
  }

  // ---- the genesis owner cannot give the card back ------------------------------------------

  lemma ReleaseTurn(ring: Ring, s: State, me: string) returns (next: State)
    requires ring.Valid() && ring.Member(me) && me in s.managers && s.managers[me].failure == NoFailure
    requires s.managers[me].view.lastSequence >= -1 && s.managers[me].stack == []
    ensures Enabled(ring, s, By(me, Step.Release)) && next == Apply(ring, s, By(me, Step.Release))
    ensures next == Put(s, me, s.managers[me].(stack := [ReleaseCommand] + [Reconciling(Snapshot(s.rows), |s.chain| - 1)]))
  {
    next := Apply(ring, s, By(me, Step.Release));
    assert [ReleaseCommand, NewScan(s)] == [ReleaseCommand] + [NewScan(s)];
  }

  /** An owner still on the genesis grant that releases with nobody asking fails, in
      every ring: the return request would be made for the authority, which is no
      member. The thread survives, and the service keeps the card. */
  lemma GenesisOwnerCannotRelease(ring: Ring) returns (s: State)
    requires ring.Valid() && !ring.Member(AUTHORITY)
    ensures Reachable(ring, s) && ring.InitialOwner() in s.managers && |s.chain| == 1
    ensures Enabled(ring, s, By(ring.InitialOwner(), SelectionFails))
    ensures Apply(ring, s, By(ring.InitialOwner(), SelectionFails)).managers == Held(ring).managers
    ensures Apply(ring, s, By(ring.InitialOwner(), SelectionFails)).rows == s.rows
    ensures FirstHolder(ring).resident && Owns(FirstHolder(ring).view, ring.InitialOwner())
  {
    hide Inv, Reachable, Enabled, Apply;
    var owner, record, m := ring.InitialOwner(), Decode(GenesisRows(ring), 0), FirstHolder(ring);
    OwnerIsMember(ring);
    GenesisIsHeld(ring);
    GenesisSnapshot(ring);
    var held := Held(ring);
    var scanned := ReleaseTurn(ring, held, owner);
    Go(ring, held, By(owner, Step.Release));
    assert [record] + [] == [record];
    CM.ProcessCases(ring, scanned, owner, 0, record, [], [ReleaseCommand], 0);
    var taken := Apply(ring, scanned, By(owner, Process(0)));
    assert TakeRecord(m.view, record) == m.view;
    Go(ring, scanned, By(owner, Process(0)));
    EndTurn(ring, taken, owner, [ReleaseCommand], 0);
    var ended := Apply(ring, taken, By(owner, EndReconcile));
    Go(ring, taken, By(owner, EndReconcile));
    s := CM.BeginEffect(ring, ended, owner);
    Go(ring, ended, By(owner, BeginRelease));
    NobodyToAskFor(ring, m.view, s.rows);
    CM.WaitingSteps(ring, s, owner, [ReleaseCommand], 0);
    FailedRelease(ring, s, owner);
    assert s.managers[owner := m] == held.managers;
  }

  lemma FailedRelease(ring: Ring, s: State, me: string)
    requires ring.Valid() && Enabled(ring, s, By(me, SelectionFails)) && me in s.managers
    requires s.managers[me].stack == [ReleaseCommand] + [Transferring(Waiting)]
    ensures Apply(ring, s, By(me, SelectionFails))
         == Put(s, me, s.managers[me].(stack := [], transferring := false, failure := NoFailure))
  {
  }

  lemma NobodyToAskFor(ring: Ring, view: View, rows: seq<Row>)
    requires ring.Valid() && !ring.Member(AUTHORITY) && view == FirstHolder(ring).view
    ensures SelectionFrom(ring, ring.InitialOwner(), view, rows, 0).Err?
  {
    assert forall id :: id in view.records ==> id == "genesis";
    assert ring.nodes[0].service == ring.InitialOwner();
    assert !HasCandidate(view, ring.InitialOwner());
    assert !HasFallbackFrom(view, AUTHORITY);
  }

  // ---- an on-demand member takes the card and passes it on ------------------------------------

  /** No manager but this one differs. */
  ghost predicate OnlyMoves(s: State, next: State, me: string) {
    me in s.managers && me in next.managers && next.managers == s.managers[me := next.managers[me]]
  }

  lemma MovesTwice(s: State, mid: State, next: State, me: string)
    requires OnlyMoves(s, mid, me) && OnlyMoves(mid, next, me)
    ensures OnlyMoves(s, next, me)
  {
    assert s.managers[me := mid.managers[me]][me := next.managers[me]] == s.managers[me := next.managers[me]];
  }

  /** Requests stay as they are, and a granted row stays granted. */
  ghost predicate GrantsKept(rows: seq<Row>, rows': seq<Row>) {
    |rows'| == |rows| && forall i :: 0 <= i < |rows| ==>
      rows'[i].request == rows[i].request && (rows[i].grant.Some? ==> rows'[i].grant.Some?)
  }

  lemma GrantsKeptTwice(rows: seq<Row>, rows': seq<Row>, rows'': seq<Row>)
    requires GrantsKept(rows, rows') && GrantsKept(rows', rows'')
    ensures GrantsKept(rows, rows'') && |rows| == |rows'| == |rows''|
  {
  }

  /** The view holds this very copy. */
  predicate Holds(view: View, record: Record) {
    record.Id() in view.records && view.records[record.Id()] == record
  }

  lemma OneTurn(ring: Ring, s: State, me: string, head: Record, rest: seq<Record>, below: seq<Frame>, asOf: int) returns (next: State)
    requires ring.Valid() && Reachable(ring, s) && ring.Member(me) && ring.ModeFor(me) == OnDemand && me in s.managers
    requires s.managers[me].stack == below + [Reconciling([head] + rest, asOf)] && s.managers[me].failure == NoFailure
    ensures Reachable(ring, next) && Inv(ring, next)
    ensures next.rows == s.rows && next.chain == s.chain && OnlyMoves(s, next, me)
    ensures var m, m' := s.managers[me], next.managers[me];
      && m'.stack == below + [Reconciling(rest, asOf)] && m'.failure == NoFailure && m'.transferring == m.transferring
      && m'.view.records == TakeRecord(m.view, head).records
  {
    hide Inv, Reachable, Enabled, Apply, LedgerInv, ManagerInv;
    ReachableKeeps(ring, s);
    ManagerOf(ring, s, me);
    CM.ProcessCases(ring, s, me, 0, head, rest, below, asOf);
    next := Apply(ring, s, By(me, Process(0)));
    Go(ring, s, By(me, Process(0)));
    var m := s.managers[me];
    var taken := Put(s, me, Manager(TakeRecord(m.view, head), below + [Reconciling(rest, asOf)], m.transferring, m.resident, NoFailure));
    if next != taken {
      NoProtocolError(ring, next, me);
      GrantTurn(ring, taken, me, head.grant.value);
      MovesTwice(s, taken, next, me);
    }
  }

  lemma NoProtocolError(ring: Ring, s: State, me: string)
    requires ring.Valid() && Inv(ring, s)
    ensures me in s.managers ==> s.managers[me].failure != ProtocolError
  {
    hide Inv, LedgerInv, ManagerInv;
    if me in s.managers {
      ManagerOf(ring, s, me);
      ManagerBasics(ring, s.rows, s.chain, me, s.managers[me]);
    }
  }

  lemma GrantTurn(ring: Ring, s: State, me: string, grant: Grant)
    requires ring.Valid() && ring.Member(me) && me in s.managers && ring.ModeFor(me) == OnDemand
    requires s.managers[me].view.lastSequence >= -1 && s.managers[me].failure == NoFailure
    ensures var next := CM.GrantTaken(ring, s, me, grant, 0);
      && me in next.managers
      && (next.managers[me].failure != ProtocolError ==>
          && next.rows == s.rows && next.chain == s.chain && next.managers == s.managers[me := next.managers[me]]
          && next.managers[me].stack == s.managers[me].stack && next.managers[me].failure == NoFailure
          && next.managers[me].transferring == s.managers[me].transferring
          && next.managers[me].view.records == s.managers[me].view.records)
  {
    assert s.managers[me := s.managers[me]] == s.managers;
  }

  /** The whole scan is worked off. */
  lemma {:induction false} Absorb(ring: Ring, s: State, me: string, below: seq<Frame>, pending: seq<Record>, asOf: int, x: Record)
    returns (next: State)
    requires ring.Valid() && Reachable(ring, s) && Inv(ring, s) && ring.Member(me) && ring.ModeFor(me) == OnDemand && me in s.managers
    requires s.managers[me].stack == below + [Reconciling(pending, asOf)] && s.managers[me].failure == NoFailure
    requires forall other :: other in pending && other.Id() == x.Id() ==> other == x
    ensures Reachable(ring, next) && Inv(ring, next)
    ensures next.rows == s.rows && next.chain == s.chain && OnlyMoves(s, next, me)
    ensures var m := next.managers[me];
      && m.stack == below + [Reconciling([], asOf)] && m.failure == NoFailure && m.transferring == s.managers[me].transferring
      && (x in pending || Holds(s.managers[me].view, x) ==> Holds(m.view, x))
    decreases |pending|
  {
    hide Inv, Reachable;
    if pending == [] {
      next := s;
      assert s.managers == s.managers[me := s.managers[me]];
    } else {
      assert pending == [pending[0]] + pending[1..];
      var turn := OneTurn(ring, s, me, pending[0], pending[1..], below, asOf);
      next := Absorb(ring, turn, me, below, pending[1..], asOf, x);
      MovesTwice(s, turn, next, me);
    }
  }

  /** Whoever has worked off a scan of the present ledger is up to date. */
  lemma CaughtUp(ring: Ring, s: State, me: string, below: seq<Frame>)
    requires ring.Valid() && Inv(ring, s) && me in s.managers && s.chain != []
    requires s.managers[me].stack == below + [Reconciling([], |s.chain| - 1)]
    ensures s.managers[me].view.lastSequence == |s.chain| - 1
    ensures Owns(s.managers[me].view, me) <==> s.chain[|s.chain| - 1].target == me
  {
    hide Inv, LedgerInv, ManagerInv;
    ManagerOf(ring, s, me);
    PositionAfterScan(ring, s.rows, s.chain, me, s.managers[me]);
  }

  lemma PositionAfterScan(ring: Ring, rows: seq<Row>, chain: seq<Grant>, me: string, m: Manager)
    requires ManagerInv(ring, rows, chain, me, m) && m.stack != [] && chain != []
    requires m.stack[|m.stack| - 1] == Reconciling([], |chain| - 1)
    ensures m.view.lastSequence == |chain| - 1
    ensures Owns(m.view, me) <==> chain[|chain| - 1].target == me
  {
    hide CopiesOk, Fresh, OwnerOk, RecordsUpTo, IssuedOk, Missing;
    var k := m.view.lastSequence + 1;
    assert LoopOk(rows, chain, m.view, [], |chain| - 1);
    if k < |chain| { NothingIsDelivered(chain[k]); }
  }

  lemma NothingIsDelivered(grant: Grant)
    ensures !Delivers([], grant)
  {
  }

  /** A scan read to its end, outside and inside a release command. */
  lemma Scans(ring: Ring, s: State, me: string, below: seq<Frame>, x: Record) returns (next: State)
    requires ring.Valid() && Reachable(ring, s) && Inv(ring, s) && ring.Member(me) && ring.ModeFor(me) == OnDemand && me in s.managers
    requires s.managers[me].stack == below + [Reconciling(Snapshot(s.rows), |s.chain| - 1)] && s.managers[me].failure == NoFailure
    requires s.chain != [] && x.handle.row < |s.rows| && x == Decode(s.rows, x.handle.row)
    requires forall i :: 0 <= i < |s.rows| && s.rows[i].request.id == x.Id() ==> i == x.handle.row
    ensures Reachable(ring, next) && Inv(ring, next)
    ensures next.rows == s.rows && next.chain == s.chain && OnlyMoves(s, next, me)
    ensures var m := next.managers[me];
      && m.stack == below && m.failure == NoFailure && m.transferring == s.managers[me].transferring && Holds(m.view, x)
      && m.view.lastSequence >= -1 && (Owns(m.view, me) <==> s.chain[|s.chain| - 1].target == me)
  {
    hide Inv, Reachable, Enabled, Apply, Snapshot;
    forall other | other in Snapshot(s.rows) && other.Id() == x.Id() ensures other == x {
      SnapshotIsExact(s.rows, other);
    }
    SnapshotIsExact(s.rows, x);
    var read := Absorb(ring, s, me, below, Snapshot(s.rows), |s.chain| - 1, x);
    CaughtUp(ring, read, me, below);
    EndTurn(ring, read, me, below, |s.chain| - 1);
    Go(ring, read, By(me, EndReconcile));
    next := Apply(ring, read, By(me, EndReconcile));
    MovesTwice(s, read, next, me);
  }

  /** The holder of the newest link polls, takes the card and starts to release it. */
  lemma Arrives(ring: Ring, s: State, me: string, x: Record) returns (next: State)
    requires ring.Valid() && Reachable(ring, s) && Inv(ring, s) && ring.Member(me) && ring.ModeFor(me) == OnDemand && me in s.managers
    requires s.managers[me].stack == [] && s.managers[me].failure == NoFailure && !s.managers[me].transferring
    requires s.chain != [] && Holder(s) == me && x.handle.row < |s.rows| && x == Decode(s.rows, x.handle.row)
    requires forall i :: 0 <= i < |s.rows| && s.rows[i].request.id == x.Id() ==> i == x.handle.row
    ensures Reachable(ring, next) && Inv(ring, next)
    ensures next.rows == s.rows && next.chain == s.chain && OnlyMoves(s, next, me)
    ensures var m := next.managers[me];
      && m.stack == [ReleaseCommand] + [Transferring(Waiting)] && m.failure == NoFailure && Owns(m.view, me) && Holds(m.view, x)
  {
    hide Inv, Reachable, Enabled, Apply, Snapshot, LedgerInv, ManagerInv;
    ManagerOf(ring, s, me);
    var polling := Poll1(ring, s, me);
    Go(ring, s, By(me, Poll));
    assert [] + [Reconciling(Snapshot(s.rows), |s.chain| - 1)] == [Reconciling(Snapshot(s.rows), |s.chain| - 1)];
    var polled := Scans(ring, polling, me, [], x);
    var releasing := ReleaseTurn(ring, polled, me);
    Go(ring, polled, By(me, Step.Release));
    var scanned := Scans(ring, releasing, me, [ReleaseCommand], x);
    next := CM.BeginEffect(ring, scanned, me);
    Go(ring, scanned, By(me, BeginRelease));
    MovesTwice(s, polling, polled, me);
    MovesTwice(s, polled, releasing, me);
    MovesTwice(s, releasing, scanned, me);
    MovesTwice(s, scanned, next, me);
  }

  /** In the eyes of an up-to-date owner the one ungranted row is the only candidate. */
  lemma OnlyCandidate(ring: Ring, s: State, me: string, x: Record)
    requires ring.Valid() && Inv(ring, s) && me in s.managers && PhaseOf(s.managers[me]) == Some(Waiting)
    requires x.handle.row < |s.rows| && x == Decode(s.rows, x.handle.row)
    requires forall i :: 0 <= i < |s.rows| && i != x.handle.row ==> s.rows[i].grant.Some?
    ensures forall id :: IsCandidate(s.managers[me].view, me, id) ==> id == x.Id()
    ensures x.state == Open && x.handle.request.service != me && Holds(s.managers[me].view, x) && ring.Member(me) ==>
      Selected(ring, me, s.managers[me].view, x.Id())
  {
    hide Inv, LedgerInv, ManagerInv;
    ManagerOf(ring, s, me);
    HoldsCurrent(ring, s.rows, s.chain, me, s.managers[me]);
    UngrantedCopies(ring, s.rows, s.chain, s.chainRows, s.managers[me].view);
    hide CopiesOk, Fresh;
  }

  /** A fresh copy without a grant is a copy of a row without one. */
  lemma UngrantedCopies(ring: Ring, rows: seq<Row>, chain: seq<Grant>, chainRows: seq<nat>, view: View)
    requires ring.Valid() && LedgerInv(ring, rows, chain, chainRows) && CopiesOk(rows, view) && Fresh(rows, view, |chain| - 1)
    ensures forall id :: id in view.records && view.records[id].grant.None? ==>
      && view.records[id].handle.row < |rows| && rows[view.records[id].handle.row].grant.None?
      && rows[view.records[id].handle.row].request.id == id
      && rows[view.records[id].handle.row].request.service == view.records[id].handle.request.service
  {
    hide Linked, WellPosted, GrantedAt;
    forall id | id in view.records && view.records[id].grant.None?
      ensures rows[view.records[id].handle.row].grant.None?
    {
      assert RecordOk(rows, view.records[id]) && !Missing(rows, view.records[id].handle, |chain| - 1);
    }
  }

  /** Choice, release callback, closing, publication, adoption. */
  lemma PassesOn(ring: Ring, s: State, me: string, below: seq<Frame>, id: string) returns (next: State)
    requires ring.Valid() && Reachable(ring, s) && Inv(ring, s) && ring.Member(me) && me in s.managers
    requires s.managers[me].stack == below + [Transferring(Waiting)] && s.managers[me].failure == NoFailure
    requires Owns(s.managers[me].view, me) && Selected(ring, me, s.managers[me].view, id)
    ensures Reachable(ring, next) && Inv(ring, next)
    ensures id in s.managers[me].view.records && s.managers[me].view.records[id].handle.row < |s.rows|
    ensures OnlyMoves(s, next, me) && !IsPublished(next.managers[me])
    ensures |next.chain| == |s.chain| + 1 && s.chain <= next.chain
    ensures next.chain[|s.chain|].source == me && Holder(next) == TargetOf(s.managers[me].view, id)
    ensures GrantsKept(s.rows, next.rows) && next.rows[s.managers[me].view.records[id].handle.row].grant.Some?
  {
    hide Inv, Reachable, Enabled, Apply, Selected, SelectionFrom, LedgerInv, ManagerInv, GrantsKept;
    ManagerOf(ring, s, me);
    var m := s.managers[me];
    SelectedIsThere(ring, me, m.view, id);
    NoNeedToAsk(ring, me, m.view, s.rows, id);
    CM.ChooseStep(ring, s, me, below, 0, m.view, s.rows, id);
    var record := m.view.records[id];
    var chosen := Apply(ring, s, By(me, Choose(id, 0)));
    Go(ring, s, By(me, Choose(id, 0)));
    var vacated := VacateTurn(ring, chosen, me, below, record);
    var closed := CloseTurn(ring, vacated, me, below, record);
    var published := PublishTurn(ring, closed, me, below, record);
    next := AdoptTurn(ring, published, me, below);
    MovesTwice(s, chosen, vacated, me);
    MovesTwice(s, vacated, closed, me);
    MovesTwice(s, closed, published, me);
    MovesTwice(s, published, next, me);
    GrantsKeptTwice(s.rows, closed.rows, published.rows);
  }

  lemma NoNeedToAsk(ring: Ring, me: string, view: View, rows: seq<Row>, id: string)
    requires ring.Valid() && ring.Member(me) && view.lastSequence >= -1 && Selected(ring, me, view, id)
    ensures SelectionFrom(ring, me, view, rows, 0) == Ok((view, rows))
  {
    assert IsCandidate(view, me, id);
  }

  lemma VacateTurn(ring: Ring, s: State, me: string, below: seq<Frame>, record: Record) returns (next: State)
    requires ring.Valid() && Reachable(ring, s) && Inv(ring, s) && ring.Member(me) && me in s.managers
    requires s.managers[me].stack == below + [Transferring(Chosen(record))] && s.managers[me].failure == NoFailure
    ensures Reachable(ring, next) && Inv(ring, next) && next.rows == s.rows && next.chain == s.chain && me in next.managers
    ensures next.managers == s.managers[me := s.managers[me].(stack := below + [Transferring(Vacated(record))], resident := false)]
  {
    hide Inv, Reachable, LedgerInv, ManagerInv;
    ManagerOf(ring, s, me);
    assert Below(s.managers[me]) == below;
    next := Apply(ring, s, By(me, Vacate));
    Go(ring, s, By(me, Vacate));
  }

  lemma CloseTurn(ring: Ring, s: State, me: string, below: seq<Frame>, record: Record) returns (next: State)
    requires ring.Valid() && Reachable(ring, s) && Inv(ring, s) && ring.Member(me) && me in s.managers
    requires s.managers[me].stack == below + [Transferring(Vacated(record))] && s.managers[me].failure == NoFailure
    ensures Reachable(ring, next) && Inv(ring, next) && next.chain == s.chain && me in next.managers
    ensures next.managers == s.managers[me := s.managers[me].(stack := below + [Transferring(SelfClosed(record))])]
    ensures GrantsKept(s.rows, next.rows)
  {
    hide Inv, Reachable, LedgerInv, ManagerInv, LogOk;
    ManagerOf(ring, s, me);
    ManagerBasics(ring, s.rows, s.chain, me, s.managers[me]);
    assert Below(s.managers[me]) == below;
    next := Apply(ring, s, By(me, CloseOwn));
    Go(ring, s, By(me, CloseOwn));
    HoldsCurrent(ring, s.rows, s.chain, me, s.managers[me]);
    CloseIsWorldStep(ring, s, s.managers[me].view);
  }

  lemma PublishTurn(ring: Ring, s: State, me: string, below: seq<Frame>, record: Record) returns (next: State)
    requires ring.Valid() && Reachable(ring, s) && Inv(ring, s) && ring.Member(me) && me in s.managers
    requires s.managers[me].stack == below + [Transferring(SelfClosed(record))] && s.managers[me].failure == NoFailure
    ensures Reachable(ring, next) && Inv(ring, next) && OnlyMoves(s, next, me)
    ensures IsPublished(next.managers[me]) && next.managers[me].failure == NoFailure
    ensures |next.chain| == |s.chain| + 1 && s.chain <= next.chain
    ensures next.chain[|s.chain|].source == me && Holder(next) == record.handle.request.service
    ensures record.handle.row < |s.rows|
    ensures GrantsKept(s.rows, next.rows) && next.rows[record.handle.row].grant.Some?
  {
    hide Inv, Reachable, Enabled, Apply, LedgerInv, ManagerInv, LogOk, MarkGranted;
    ManagerOf(ring, s, me);
    HoldsCurrent(ring, s.rows, s.chain, me, s.managers[me]);
    PublishIsEnabled(ring, s, me, record);
    var same := PublishApplies(ring, s, me);
    PublishParts(ring, s, me, record);
    next := Apply(ring, s, By(me, Publish));
    Go(ring, s, By(me, Publish));
  }

  lemma PublishIsEnabled(ring: Ring, s: State, me: string, record: Record)
    requires ring.Valid() && ring.Member(me) && me in s.managers && PhaseOf(s.managers[me]) == Some(SelfClosed(record))
    requires s.managers[me].failure == NoFailure && s.managers[me].view.lastSequence >= -1 && record.handle.row < |s.rows|
    ensures Enabled(ring, s, By(me, Publish))
  {
  }

  lemma AdoptTurn(ring: Ring, s: State, me: string, below: seq<Frame>) returns (next: State)
    requires ring.Valid() && Reachable(ring, s) && Inv(ring, s) && ring.Member(me) && me in s.managers
    requires IsPublished(s.managers[me]) && s.managers[me].failure == NoFailure
    ensures Reachable(ring, next) && Inv(ring, next) && next.rows == s.rows && next.chain == s.chain
    ensures OnlyMoves(s, next, me) && !IsPublished(next.managers[me])
  {
    hide Inv, Reachable, Apply, LedgerInv, ManagerInv, LogOk, ApplyGrant;
    ManagerOf(ring, s, me);
    assert Enabled(ring, s, By(me, Adopt));
    AdoptApplies(ring, s, me);
    AdoptManager(ring, s.rows, s.chain, me, s.managers[me]);
    NothingPublished(ring, s, me);
    next := Apply(ring, s, By(me, Adopt));
    Go(ring, s, By(me, Adopt));
  }

  lemma NothingPublished(ring: Ring, s: State, me: string)
    requires ring.Valid() && Inv(ring, s) && me in s.managers && IsPublished(s.managers[me])
    ensures forall view :: !IsPublished(EndTransfer(s.managers[me].(view := view)))
  {
    hide Inv, ManagerInv, LedgerInv, PhaseOk, LoopOk, CopiesOk, Fresh;
    ManagerOf(ring, s, me);
    StackFacts(ring, s, me);
  }

  // ---- where a synthesised return goes ---------------------------------------------------

  /** In every reachable state: an owner that chooses with no candidate in sight gives
      the card back to the service it came from. So the return reaches a fallback
      member if and only if a fallback member had handed the card over. */
  lemma ReturnReachesFallbackIff(ring: Ring, s: State, me: string, id: string, now: int)
    requires ring.Valid() && Reachable(ring, s) && Enabled(ring, s, By(me, Choose(id, now)))
    requires !HasCandidate(s.managers[me].view, me)
    ensures s.chain != [] && Holder(s) == me
    ensures var giver, next := s.chain[|s.chain| - 1].source, Apply(ring, s, By(me, Choose(id, now)));
      && ring.Member(giver) && giver != me
      && me in next.managers && Decided(next.managers[me]) == Some(giver)
      && (ring.ModeFor(Decided(next.managers[me]).value) == Fallback <==> ring.ModeFor(giver) == Fallback)
  {
    hide Inv, Reachable, Enabled, Apply, Selected, SelectionBase, LedgerInv, ManagerInv;
    ReachableKeeps(ring, s);
    MemberChooses(ring, s, me, id, now);
    ManagerOf(ring, s, me);
    ChooserIsNewest(ring, s, me, id, now);
    ChooseSettles(ring, s, me, id, now);
    ViewIsWellPosted(ring, s, me);
    GrantIsTheLink(ring, s, me);
    var view := s.managers[me].view;
    var base := SelectionBase(ring, s, me, now).value.0;
    OpenIsUngranted(ring, s, me);
    SynthesisedBase(ring, s, me, id, now);
    SynthesisReturnsToSource(ring, me, view, s.rows, now);
    SettledOn(s.managers[me].(view := base), base.records[id]);
  }

  lemma GrantIsTheLink(ring: Ring, s: State, me: string)
    requires ring.Valid() && Inv(ring, s) && me in s.managers && PhaseOf(s.managers[me]) == Some(Waiting)
    ensures s.chain != [] && s.managers[me].view.grant == Some(s.chain[|s.chain| - 1])
  {
    hide Inv, LedgerInv, StackOk, CopiesOk, Fresh, OwnerOk, RecordsUpTo, IssuedOk;
    ManagerOf(ring, s, me);
    HoldsCurrent(ring, s.rows, s.chain, me, s.managers[me]);
  }

  lemma OpenIsUngranted(ring: Ring, s: State, me: string)
    requires ring.Valid() && Inv(ring, s) && me in s.managers
    ensures forall id :: id in s.managers[me].view.records && s.managers[me].view.records[id].state == Open ==>
      s.managers[me].view.records[id].grant.None?
  {
    hide Inv, LedgerInv, StackOk, Fresh, OwnerOk, RecordsUpTo, IssuedOk, PositionOk, HandleOk;
    ManagerOf(ring, s, me);
  }

  lemma SynthesisedBase(ring: Ring, s: State, me: string, id: string, now: int)
    requires ring.Valid() && Enabled(ring, s, By(me, Choose(id, now))) && !HasCandidate(s.managers[me].view, me)
    ensures ring.Member(me) && me in s.managers && s.managers[me].view.lastSequence >= -1
    ensures var view := s.managers[me].view;
      && Synthesises(view, me)
      && SelectionBase(ring, s, me, now) == EnsureFallback(ring, view, s.rows, view.grant.value.source, now)
    ensures IsCandidate(SelectionBase(ring, s, me, now).value.0, me, id)
    ensures ViewWellPosted(ring, s.managers[me].view) ==> ring.Member(s.managers[me].view.grant.value.source)
  {
    var view := s.managers[me].view;
    assert forall other :: other in view.records ==> !IsCandidate(view, me, other);
    if view.grant.Some? && view.grant.value.source != me && ViewWellPosted(ring, view) {
      PostsForMembersOnly(ring, view, view.grant.value.source, s.rows, now);
    }
  }

  lemma PostsForMembersOnly(ring: Ring, view: View, service: string, rows: seq<Row>, now: int)
    requires ring.Valid() && ViewWellPosted(ring, view) && view.lastSequence >= -1
    requires EnsureFallback(ring, view, rows, service, now).Ok?
    ensures ring.Member(service)
  {
    if HasFallbackFrom(view, service) {
      var id :| id in view.records && OpenFallbackFrom(view.records[id], service);
      assert WellPosted(ring, view.records[id].handle.request);
    }
  }

  lemma NobodyAsks(ring: Ring, s: State, me: string)
    requires ring.Valid() && Inv(ring, s) && me in s.managers && PhaseOf(s.managers[me]) == Some(Waiting)
    requires forall i :: 0 <= i < |s.rows| ==> s.rows[i].grant.Some?
    ensures !HasCandidate(s.managers[me].view, me)
  {
    hide Inv, LedgerInv, ManagerInv;
    ManagerOf(ring, s, me);
    HoldsCurrent(ring, s.rows, s.chain, me, s.managers[me]);
    UngrantedCopies(ring, s.rows, s.chain, s.chainRows, s.managers[me].view);
    hide CopiesOk, Fresh;
  }

  function Ask(ring: Ring, service: string, id: string): Request
    requires ring.Member(service)
  {
    Request(service, id, 0, ring.IndexOf(service), 0, OnDemandRequest)
  }

  lemma PostTurn(ring: Ring, s: State, me: string, id: string) returns (next: State)
    requires ring.Valid() && Reachable(ring, s) && Inv(ring, s) && ring.Member(me) && me in s.managers
    requires s.managers[me].stack == [] && s.managers[me].failure == NoFailure
    ensures Reachable(ring, next) && Inv(ring, next) && next.chain == s.chain && next.rows == Create(s.rows, Ask(ring, me, id))
    ensures OnlyMoves(s, next, me)
    ensures next.managers[me] == s.managers[me].(view := next.managers[me].view)
  {
    hide Inv, Reachable;
    ManagerOf(ring, s, me);
    next := Apply(ring, s, By(me, Post(Ask(ring, me, id))));
    Go(ring, s, By(me, Post(Ask(ring, me, id))));
  }

  /** The open row comes first in the scan of the genesis row and one request. */
  lemma OpenComesFirst(rows: seq<Row>)
    requires |rows| == 2 && rows[0].grant.Some? && rows[0].grant.value.sequence == 0 && rows[1].grant.None?
    ensures Snapshot(rows) != [] && Snapshot(rows)[0] == Decode(rows, 1)
  {
    hide Snapshot;
    var x := Decode(rows, 1);
    SnapshotIsExact(rows, x);
    var i :| 0 <= i < |Snapshot(rows)| && Snapshot(rows)[i] == x;
    SnapshotIsExact(rows, Snapshot(rows)[0]);
    assert Snapshot(rows)[0].SortKey() <= Snapshot(rows)[i].SortKey();
  }

  /** The fallback member hands the card to the first service that asks. */
  lemma FallbackHandsOver(ring: Ring, c: string) returns (s: State)
    requires ring.Valid() && ring.Member(c) && ring.ModeFor(ring.InitialOwner()) == Fallback && ring.ModeFor(c) == OnDemand
    ensures Reachable(ring, s) && Inv(ring, s) && |s.chain| == 2 && Holder(s) == c
    ensures |s.rows| == 2 && s.rows[0].request.id == "genesis" && s.rows[1].request.id == "c"
    ensures s.rows[0].grant.Some? && s.rows[1].grant.Some?
    ensures s.rows[1].request.service == c && s.chain[1].source == ring.InitialOwner()
    ensures ring.InitialOwner() in s.managers && !IsPublished(s.managers[ring.InitialOwner()])
    ensures forall other :: other in s.managers && other != ring.InitialOwner() ==>
      s.managers[other] == IDLE.(view := s.managers[other].view)
  {
    hide Inv, Reachable, Enabled, Apply, Snapshot, Selected;
    var owner := ring.InitialOwner();
    OwnerIsMember(ring);
    GenesisIsHeld(ring);
    var asked := PostTurn(ring, Held(ring), c, "c");
    var polled := Poll1(ring, asked, owner);
    Go(ring, asked, By(owner, Step.Poll));
    OpenComesFirst(asked.rows);
    var x, rest := Snapshot(asked.rows)[0], Snapshot(asked.rows)[1..];
    assert Snapshot(asked.rows) == [x] + rest && [] + [Reconciling([x] + rest, 0)] == [Reconciling(Snapshot(asked.rows), 0)];
    CM.ProcessCases(ring, polled, owner, 0, x, rest, [], 0);
    var waiting := Apply(ring, polled, By(owner, Process(0)));
    Go(ring, polled, By(owner, Process(0)));
    OnlyCandidate(ring, waiting, owner, x);
    s := PassesOn(ring, waiting, owner, [] + [Reconciling(rest, 0)], "c");
  }

  /** The one exception to the standing request: a fallback member that has just handed
      the card over itself has applied the grant without asking for the card back, for
      `_transfer` applies its own grant outside the loop that posts. */
  lemma HandOverPostsNothing(ring: Ring, c: string) returns (s: State)
    requires ring.Valid() && ring.Member(c) && ring.ModeFor(ring.InitialOwner()) == Fallback && ring.ModeFor(c) == OnDemand
    ensures Reachable(ring, s) && ring.InitialOwner() in s.managers
    ensures var view := s.managers[ring.InitialOwner()].view;
      && view.owner == Some(c) && c != ring.InitialOwner() && view.grant.Some? && view.grant.value.source == ring.InitialOwner()
      && forall id :: id in view.records && view.records[id].handle.request.service == ring.InitialOwner() ==>
           view.records[id].state != Open
    ensures forall i, j :: 0 <= i < j < |s.rows| ==> s.rows[i].request.id != s.rows[j].request.id
  {
    hide Inv, Reachable;
    s := FallbackHandsOver(ring, c);
    assert |"genesis"| == 7;
    Standing.ReachableStands(ring, s);
    IssuerIsCurrent(ring, s, ring.InitialOwner());
    NothingOfItsOwn(ring, s, ring.InitialOwner());
  }

  lemma IssuerIsCurrent(ring: Ring, s: State, me: string)
    requires ring.Valid() && Inv(ring, s) && me in s.managers && !IsPublished(s.managers[me])
    requires |s.chain| == 2 && s.chain[1].source == me
    ensures var view := s.managers[me].view;
      view.lastSequence == 1 && view.grant == Some(s.chain[1]) && view.owner == Some(Holder(s))
  {
    hide Inv, LedgerInv, StackOk, CopiesOk, Fresh, OwnerOk, RecordsUpTo;
    ManagerOf(ring, s, me);
  }

  /** All rows are granted, and a manager misses no grant of its own. */
  lemma NothingOfItsOwn(ring: Ring, s: State, me: string)
    requires ring.Valid() && Inv(ring, s) && Standing.Standing(ring, s) && me in s.managers
    requires s.managers[me].view.lastSequence == |s.chain| - 1
    requires forall i :: 0 <= i < |s.rows| ==> s.rows[i].grant.Some?
    ensures forall id :: id in s.managers[me].view.records && s.managers[me].view.records[id].handle.request.service == me ==>
      s.managers[me].view.records[id].state != Open
  {
    hide Inv, ManagerInv, Linked, WellPosted, GrantedAt, LogOk, Standing.LoopFollows, Standing.CopyOk;
    Standing.LedgerOf(ring, s);
    Standing.StandingOf(ring, s, me);
    forall id | id in s.managers[me].view.records && s.managers[me].view.records[id].handle.request.service == me
      ensures s.managers[me].view.records[id].state != Open
    {
      assert RecordOk(s.rows, s.managers[me].view.records[id]);
    }
  }

  /** The card reaches a second on-demand member, which starts to give it up while
      nobody asks. */
  lemma SecondHolderReleases(ring: Ring, c: string, t: string) returns (s: State)
    requires ring.Valid() && ring.Member(c) && ring.Member(t) && c != t
    requires ring.ModeFor(ring.InitialOwner()) == Fallback && ring.ModeFor(c) == ring.ModeFor(t) == OnDemand
    ensures Reachable(ring, s) && Inv(ring, s) && |s.chain| == 3 && Holder(s) == t && s.chain[2].source == c
    ensures forall i :: 0 <= i < |s.rows| ==> s.rows[i].grant.Some?
    ensures t in s.managers && s.managers[t].stack == [ReleaseCommand] + [Transferring(Waiting)]
    ensures s.managers[t].failure == NoFailure && Owns(s.managers[t].view, t)
  {
    hide Inv, Reachable, Enabled, Apply, Snapshot, Selected;
    var handed := FallbackHandsOver(ring, c);
    TargetIsManaged(ring, handed, c);
    TargetIsManaged(ring, handed, t);
    var asked := PostTurn(ring, handed, t, "t");
    assert "c"[0] == 'c' && "t"[0] == 't' && |"genesis"| == 7;
    var x := Decode(asked.rows, 2);
    var taken := Arrives(ring, asked, c, x);
    OnlyCandidate(ring, taken, c, x);
    var passed := PassesOn(ring, taken, c, [ReleaseCommand], "t");
    s := Arrives(ring, passed, t, Decode(passed.rows, 0));
  }

  /** "The token goes back to the fallback owner" is not what the code does. In every
      ring with a fallback member at the start and two on-demand members, a run leads
      to a release with nobody asking whose return goes to the other on-demand member,
      which never asked for it. */
  lemma ReturnCanMissTheFallback(ring: Ring, c: string, t: string) returns (s: State, id: string)
    requires ring.Valid() && ring.Member(c) && ring.Member(t) && c != t
    requires ring.ModeFor(ring.InitialOwner()) == Fallback && ring.ModeFor(c) == ring.ModeFor(t) == OnDemand
    ensures Reachable(ring, s) && t in s.managers && Enabled(ring, s, By(t, Choose(id, 0)))
    ensures forall i :: 0 <= i < |s.rows| ==> s.rows[i].grant.Some? && s.rows[i].state != Open
    ensures !HasCandidate(s.managers[t].view, t)
    ensures var next := Apply(ring, s, By(t, Choose(id, 0)));
      t in next.managers && Decided(next.managers[t]) == Some(c)
  {
    hide Inv, Reachable, Enabled, Apply, Selected;
    s := SecondHolderReleases(ring, c, t);
    ManagerOf(ring, s, t);
    GrantedIsNotOpen(ring, s);
    NobodyAsks(ring, s, t);
    GrantIsTheLink(ring, s, t);
    ViewIsWellPosted(ring, s, t);
    OpenIsUngranted(ring, s, t);
    var view := s.managers[t].view;
    SynthesisReturnsToSource(ring, t, view, s.rows, 0);
    var ensured := EnsureFallback(ring, view, s.rows, c, 0).value;
    id :| id in ensured.0.records && IsCandidate(ensured.0, t, id);
    CM.ChooseStep(ring, s, t, [ReleaseCommand], 0, ensured.0, ensured.1, id);
    ReturnReachesFallbackIff(ring, s, t, id, 0);
  }

  lemma GrantedIsNotOpen(ring: Ring, s: State)
    requires ring.Valid() && Inv(ring, s)
    ensures forall i :: 0 <= i < |s.rows| && s.rows[i].grant.Some? ==> s.rows[i].state != Open
  {
    hide ManagerInv, LogOk, Linked, GrantedAt, WellPosted;
  }
}

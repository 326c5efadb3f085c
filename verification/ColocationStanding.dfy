/** A fallback member that the card has passed by keeps a request posted, in every
    reachable state, and what an owner leaves behind on the ledger when it goes.

    A second invariant on top of the ring's own: which copies of its own requests a
    manager holds, and how far behind its own position a scan can be. */
module ColocationStanding {
  import opened Wrappers
  import opened ColocationRing
  import opened RequestLedger
  import opened ColocationView
  import opened ColocationProtocol
  import opened ColocationInvariant
  import opened ColocationFrames
  import opened ColocationSteps
  import opened ColocationSafety
  import CM = ColocationManager

  // ---- the second invariant --------------------------------------------------------

  /** Another row bears the same request id. */
  ghost predicate SharedId(rows: seq<Row>, i: nat) {
    i < |rows| && exists j :: 0 <= j < |rows| && j != i && rows[j].request.id == rows[i].request.id
  }

  /** A row that is neither open nor granted was closed in place of a namesake. */
  ghost predicate ClosedOk(rows: seq<Row>) {
    forall i :: 0 <= i < |rows| && rows[i].state != Open && rows[i].grant.None? ==> SharedId(rows, i)
  }

  ghost predicate CopyOk(rows: seq<Row>, record: Record) {
    record.state != Open && record.grant.None? ==> SharedId(rows, record.handle.row)
  }

  /** Nobody hands the card to itself. */
  ghost predicate NoSelfLinks(chain: seq<Grant>) {
    forall k :: 1 <= k < |chain| ==> chain[k].source != chain[k].target
  }

  /** A scan is at most one link behind, and then that link is the manager's own. */
  ghost predicate LoopFollows(rows: seq<Row>, chain: seq<Grant>, me: string, last: int, frame: Frame) {
    frame.Reconciling? ==>
      && (forall i :: 0 <= i < |frame.pending| ==> CopyOk(rows, frame.pending[i]))
      && (last <= frame.asOf || (1 <= last == frame.asOf + 1 && last < |chain| && chain[last].source == me))
  }

  /** A manager misses no grant of its own requests, and can always name the row it
      lives on. */
  ghost predicate Follows(rows: seq<Row>, chain: seq<Grant>, me: string, m: Manager)
    requires CopiesOk(rows, m.view)
  {
    && (forall id :: id in m.view.records ==> CopyOk(rows, m.view.records[id]))
    && (forall id :: id in m.view.records && m.view.records[id].handle.request.service == me ==>
          !Missing(rows, m.view.records[id].handle, m.view.lastSequence))
    && (forall frame :: frame in m.stack ==> LoopFollows(rows, chain, me, m.view.lastSequence, frame))
    && (Owns(m.view, me) && m.view.grant.Some? ==> m.view.grant.value.requestId in m.view.handles)
  }

  predicate IsOwnFallback(request: Request, me: string) {
    request.service == me && request.kind == FallbackRequest
  }

  /** No other row bears the id of a fallback request of this service. */
  ghost predicate OwnIdsUnique(rows: seq<Row>, me: string) {
    forall i, j :: 0 <= i < |rows| && 0 <= j < |rows| && IsOwnFallback(rows[i].request, me) ==>
      (rows[j].request.id == rows[i].request.id ==> i == j)
  }

  /** The card has passed this service by: the newest grant it knows of is from one
      other service to another. */
  predicate PassedBy(view: View, me: string) {
    view.owner.Some? && view.owner != Some(me) && view.grant.Some? && view.grant.value.source != me
  }

  ghost predicate Stands(ring: Ring, rows: seq<Row>, me: string, view: View) {
    ring.Member(me) && ring.ModeFor(me) == Fallback && OwnIdsUnique(rows, me) && PassedBy(view, me) ==> HasFallbackFrom(view, me)
  }

  ghost predicate ManagerStands(ring: Ring, rows: seq<Row>, chain: seq<Grant>, me: string, m: Manager) {
    CopiesOk(rows, m.view) && Follows(rows, chain, me, m) && Stands(ring, rows, me, m.view)
  }

  /** Everybody stands, this one service perhaps excepted. */
  ghost predicate StandingBut(ring: Ring, s: State, who: string) {
    && ClosedOk(s.rows) && NoSelfLinks(s.chain)
    && (forall service :: service in s.managers ==>
          && CopiesOk(s.rows, s.managers[service].view) && Follows(s.rows, s.chain, service, s.managers[service])
          && (service != who ==> Stands(ring, s.rows, service, s.managers[service].view)))
  }

  ghost predicate Standing(ring: Ring, s: State) {
    && ClosedOk(s.rows) && NoSelfLinks(s.chain)
    && (forall service :: service in s.managers ==> ManagerStands(ring, s.rows, s.chain, service, s.managers[service]))
  }

  // ---- what it survives --------------------------------------------------------------

  lemma SharedSurvives(rows: seq<Row>, chain: seq<Grant>, rows': seq<Row>, chain': seq<Grant>)
    requires WorldStep(rows, chain, rows', chain')
    ensures forall i: nat :: SharedId(rows, i) ==> SharedId(rows', i)
    ensures forall record :: CopyOk(rows, record) ==> CopyOk(rows', record)
    ensures forall me :: OwnIdsUnique(rows', me) ==> OwnIdsUnique(rows, me)
  {
    forall i: nat | SharedId(rows, i) ensures SharedId(rows', i) {
      var j :| 0 <= j < |rows| && j != i && rows[j].request.id == rows[i].request.id;
      assert rows'[j].request.id == rows'[i].request.id;
    }
    forall me | OwnIdsUnique(rows', me) ensures OwnIdsUnique(rows, me) {
      forall i, j | 0 <= i < |rows| && 0 <= j < |rows| && IsOwnFallback(rows[i].request, me) && rows[j].request.id == rows[i].request.id
        ensures i == j
      {
        assert IsOwnFallback(rows'[i].request, me) && rows'[j].request.id == rows'[i].request.id;
      }
    }
  }

  lemma LoopsSurvive(rows: seq<Row>, chain: seq<Grant>, rows': seq<Row>, chain': seq<Grant>, me: string, last: int, frame: Frame)
    requires WorldStep(rows, chain, rows', chain') && LoopFollows(rows, chain, me, last, frame)
    ensures LoopFollows(rows', chain', me, last, frame)
  {
    hide CopyOk;
    SharedSurvives(rows, chain, rows', chain');
  }

  lemma FollowsSurvives(rows: seq<Row>, chain: seq<Grant>, rows': seq<Row>, chain': seq<Grant>, me: string, m: Manager)
    requires WorldStep(rows, chain, rows', chain') && m.view.lastSequence < |chain|
    requires CopiesOk(rows, m.view) && CopiesOk(rows', m.view) && Follows(rows, chain, me, m)
    ensures Follows(rows', chain', me, m)
  {
    hide LoopFollows, CopyOk, SharedId;
    SharedSurvives(rows, chain, rows', chain');
    CopiesSurvive(rows, chain, rows', chain', m.view);
    forall frame | frame in m.stack ensures LoopFollows(rows', chain', me, m.view.lastSequence, frame) {
      LoopsSurvive(rows, chain, rows', chain', me, m.view.lastSequence, frame);
    }
  }

  /** Whatever anybody does to the ledger, the other managers still stand. */
  lemma OthersStand(ring: Ring, rows: seq<Row>, chain: seq<Grant>, rows': seq<Row>, chain': seq<Grant>, me: string, m: Manager)
    requires WorldStep(rows, chain, rows', chain') && m.view.lastSequence < |chain|
    requires ManagerStands(ring, rows, chain, me, m)
    ensures ManagerStands(ring, rows', chain', me, m)
  {
    hide Follows, HasFallbackFrom, OwnIdsUnique, PassedBy, SharedId, CopyOk;
    SharedSurvives(rows, chain, rows', chain');
    CopiesSurvive(rows, chain, rows', chain', m.view);
    FollowsSurvives(rows, chain, rows', chain', me, m);
  }

  /** A manager's own move at its old position. */
  lemma MoveFollows(rows: seq<Row>, chain: seq<Grant>, me: string, m: Manager, m': Manager)
    requires CopiesOk(rows, m.view) && CopiesOk(rows, m'.view) && Follows(rows, chain, me, m)
    requires m'.view.lastSequence == m.view.lastSequence && m'.view.owner == m.view.owner && m'.view.grant == m.view.grant
    requires forall id :: id in m.view.handles ==> id in m'.view.handles
    requires forall id :: id in m'.view.records ==>
      || (id in m.view.records && m'.view.records[id] == m.view.records[id])
      || (CopyOk(rows, m'.view.records[id])
          && (m'.view.records[id].handle.request.service == me ==> !Missing(rows, m'.view.records[id].handle, m.view.lastSequence)))
    requires forall frame :: frame in m'.stack ==> frame in m.stack || LoopFollows(rows, chain, me, m.view.lastSequence, frame)
    ensures Follows(rows, chain, me, m')
  {
    hide LoopFollows, CopyOk, CopiesOk, Missing;
  }

  /** Every loop on the new stack was there before. */
  predicate OldLoops(m: Manager, m': Manager) {
    forall frame :: frame in m'.stack && frame.Reconciling? ==> frame in m.stack
  }

  lemma CallsMove(ring: Ring, rows: seq<Row>, chain: seq<Grant>, me: string, m: Manager, m': Manager)
    requires ManagerStands(ring, rows, chain, me, m) && OldLoops(m, m')
    requires m'.view == m.view.(handles := m'.view.handles) && CopiesOk(rows, m'.view)
    requires forall id :: id in m.view.handles ==> id in m'.view.handles
    ensures ManagerStands(ring, rows, chain, me, m')
  {
    hide CopyOk, CopiesOk, Missing, OwnIdsUnique;
    MoveFollows(rows, chain, me, m, m');
  }

  // ---- putting a step together ---------------------------------------------------------

  lemma StandAssemble(ring: Ring, s: State, me: string, s': State)
    requires ring.Valid() && Inv(ring, s) && Standing(ring, s) && me in s.managers && me in s'.managers
    requires s'.managers == s.managers[me := s'.managers[me]]
    requires WorldStep(s.rows, s.chain, s'.rows, s'.chain) && ClosedOk(s'.rows) && NoSelfLinks(s'.chain)
    requires ManagerStands(ring, s'.rows, s'.chain, me, s'.managers[me])
    ensures Standing(ring, s')
  {
    hide Inv, ManagerStands, WorldStep, ClosedOk, NoSelfLinks, LedgerInv, ManagerInv;
    forall other | other in s'.managers
      ensures ManagerStands(ring, s'.rows, s'.chain, other, s'.managers[other])
    {
      if other != me {
        assert s'.managers[other] == s.managers[other];
        BelowChain(ring, s, other);
        OthersStand(ring, s.rows, s.chain, s'.rows, s'.chain, other, s.managers[other]);
      }
    }
  }

  lemma BelowChain(ring: Ring, s: State, me: string)
    requires ring.Valid() && Inv(ring, s) && me in s.managers
    ensures CopiesOk(s.rows, s.managers[me].view) && -1 <= s.managers[me].view.lastSequence < |s.chain|
  {
    hide Inv, ManagerInv, LedgerInv, CopiesOk;
    ManagerOf(ring, s, me);
    ManagerBasics(ring, s.rows, s.chain, me, s.managers[me]);
  }

  /** The ledger only moved. */
  lemma RowsStand(ring: Ring, s: State, s': State)
    requires ring.Valid() && Inv(ring, s) && Standing(ring, s) && s'.managers == s.managers
    requires WorldStep(s.rows, s.chain, s'.rows, s'.chain) && ClosedOk(s'.rows) && NoSelfLinks(s'.chain)
    ensures Standing(ring, s')
  {
    hide Inv, ManagerStands, WorldStep, ClosedOk, NoSelfLinks, LedgerInv, ManagerInv;
    forall other | other in s'.managers
      ensures ManagerStands(ring, s'.rows, s'.chain, other, s'.managers[other])
    {
      BelowChain(ring, s, other);
      OthersStand(ring, s.rows, s.chain, s'.rows, s'.chain, other, s.managers[other]);
    }
  }

  /** A step inside the manager's own calls. */
  lemma CallStands(ring: Ring, s: State, me: string, s': State)
    requires ring.Valid() && Inv(ring, s) && Standing(ring, s) && me in s.managers && me in s'.managers
    requires s'.managers == s.managers[me := s'.managers[me]] && s'.rows == s.rows && s'.chain == s.chain
    requires s'.managers[me].view == s.managers[me].view && OldLoops(s.managers[me], s'.managers[me])
    ensures Standing(ring, s')
  {
    hide Inv, ManagerStands, ClosedOk, NoSelfLinks, LedgerInv, ManagerInv, CopiesOk;
    BelowChain(ring, s, me);
    NothingWritten(s.rows, s.chain);
    CallsMove(ring, s.rows, s.chain, me, s.managers[me], s'.managers[me]);
    StandAssemble(ring, s, me, s');
  }

  // ---- the ledger -------------------------------------------------------------------------

  lemma CreateKeepsClosed(rows: seq<Row>, request: Request)
    requires ClosedOk(rows)
    ensures ClosedOk(Create(rows, request))
  {
    var rows' := Create(rows, request);
    forall i | 0 <= i < |rows'| && rows'[i].state != Open && rows'[i].grant.None? ensures SharedId(rows', i) {
      assert rows'[i] == rows[i];
      var j :| 0 <= j < |rows| && j != i && rows[j].request.id == rows[i].request.id;
      assert rows'[j].request.id == rows'[i].request.id;
    }
  }

  lemma WriteKeepsClosed(rows: seq<Row>, row: nat, written: Row)
    requires ClosedOk(rows) && row < |rows| && written.request == rows[row].request
    requires written.grant.None? ==> SharedId(rows, row)
    ensures ClosedOk(rows[row := written])
  {
    var rows' := rows[row := written];
    forall i: nat | SharedId(rows, i) ensures SharedId(rows', i) {
      var j :| 0 <= j < |rows| && j != i && rows[j].request.id == rows[i].request.id;
      assert rows'[j].request.id == rows'[i].request.id;
    }
  }

  /** Whoever closes its row without a grant closes a namesake of the row it was granted. */
  lemma CloseKeepsClosed(ring: Ring, s: State, view: View)
    requires ring.Valid() && LedgerInv(ring, s.rows, s.chain, s.chainRows) && ClosedOk(s.rows)
    requires CopiesOk(s.rows, view) && PositionOk(ring, s.chain, view) && Fresh(s.rows, view, |s.chain| - 1)
    requires forall row: nat :: OwnHandle(view, row) ==> row < |s.rows|
    ensures ClosedOk(CloseGranted(s.rows, view))
  {
    hide ClosedOk, WellPosted;
    if view.grant.Some? && view.grant.value.requestId in view.handles {
      var handle := view.handles[view.grant.value.requestId];
      var granted := s.chainRows[view.lastSequence];
      assert GrantedAt(s.rows, granted, s.chain[view.lastSequence]);
      assert s.rows[granted].request.id == s.rows[handle.row].request.id;
      assert !Missing(s.rows, handle, |s.chain| - 1);
      if handle.grant.None? { assert granted != handle.row; }
      WriteKeepsClosed(s.rows, handle.row, Row(handle.request, Closed, handle.grant));
    }
  }

  lemma GrantKeepsClosed(rows: seq<Row>, handle: Handle, grant: Grant)
    requires ClosedOk(rows) && handle.row < |rows| && rows[handle.row].request == handle.request
    ensures ClosedOk(GrantRow(rows, handle, grant))
  {
    hide ClosedOk;
    WriteKeepsClosed(rows, handle.row, Row(handle.request, Granted, Some(grant)));
  }

  lemma SnapshotIsOk(rows: seq<Row>)
    requires ClosedOk(rows)
    ensures forall i :: 0 <= i < |Snapshot(rows)| ==> CopyOk(rows, Snapshot(rows)[i])
  {
    hide Snapshot, SharedId;
    forall i | 0 <= i < |Snapshot(rows)| ensures CopyOk(rows, Snapshot(rows)[i]) {
      SnapshotIsExact(rows, Snapshot(rows)[i]);
    }
  }

  // ---- the steps that do not change a view's copies --------------------------------------------

  lemma GenesisStands(ring: Ring, s: State, a: Action)
    requires ring.Valid() && Inv(ring, s) && Standing(ring, s) && Enabled(ring, s, a) && !a.By?
    ensures Standing(ring, Apply(ring, s, a))
  {
    hide Inv, ManagerInv, LogOk, Standing;
    LedgerOf(ring, s);
    if a == GenesisCreate {
      GenesisIsPosted(ring);
      AppendIsWorldStep(ring, s, GenesisRequest(ring));
      StandingParts(ring, s);
      CreateKeepsClosed(s.rows, GenesisRequest(ring));
    } else {
      StandingParts(ring, s);
      GenesisGranted(ring, s);
    }
    hide WorldStep, ClosedOk, NoSelfLinks, Enabled;
    RowsStand(ring, s, Apply(ring, s, a));
  }

  lemma LedgerOf(ring: Ring, s: State)
    requires ring.Valid() && Inv(ring, s)
    ensures LedgerInv(ring, s.rows, s.chain, s.chainRows) && GenesisOk(ring, s.rows, s.genesis)
    ensures forall service :: service in s.managers <==> ring.Member(service)
  {
    hide ManagerInv, LedgerInv, LogOk, GenesisOk;
  }

  lemma StandingParts(ring: Ring, s: State)
    requires Standing(ring, s)
    ensures ClosedOk(s.rows) && NoSelfLinks(s.chain)
  {
  }

  lemma GenesisGranted(ring: Ring, s: State)
    requires ring.Valid() && LedgerInv(ring, s.rows, s.chain, s.chainRows) && GenesisOk(ring, s.rows, s.genesis) && ClosedOk(s.rows)
    requires Enabled(ring, s, GenesisGrant)
    ensures var s' := Apply(ring, s, GenesisGrant);
      WorldStep(s.rows, s.chain, s'.rows, s'.chain) && ClosedOk(s'.rows) && NoSelfLinks(s'.chain) && s'.managers == s.managers
  {
    hide ClosedOk, WellPosted;
    var grant := Grant(0, AUTHORITY, ring.InitialOwner(), "genesis");
    GrantKeepsClosed(s.rows, Handle(s.genesis.value, GenesisRequest(ring), None), grant);
  }

  lemma PostStands(ring: Ring, s: State, me: string, request: Request)
    requires ring.Valid() && Inv(ring, s) && Standing(ring, s) && Enabled(ring, s, By(me, Post(request)))
    ensures Standing(ring, Apply(ring, s, By(me, Post(request))))
  {
    hide ManagerInv, LedgerInv, WorldStep, LogOk, ClosedOk, NoSelfLinks, Standing, Inv;
    var s' := Apply(ring, s, By(me, Post(request)));
    LedgerOf(ring, s);
    AppendIsWorldStep(ring, s, request);
    PostKeeps(ring, s, me, request);
    BelowChain(ring, s, me);
    BelowChain(ring, s', me);
    StandingOf(ring, s, me);
    hide ManagerStands, CopiesOk;
    CreateKeepsClosed(s.rows, request);
    OthersStand(ring, s.rows, s.chain, s'.rows, s.chain, me, s.managers[me]);
    CallsMove(ring, s'.rows, s.chain, me, s.managers[me], s'.managers[me]);
    StandAssemble(ring, s, me, s');
  }

  lemma StandingOf(ring: Ring, s: State, me: string)
    requires Standing(ring, s) && me in s.managers
    ensures ManagerStands(ring, s.rows, s.chain, me, s.managers[me]) && ClosedOk(s.rows) && NoSelfLinks(s.chain)
  {
    hide ManagerStands, ClosedOk, NoSelfLinks;
  }

  lemma PushStands(ring: Ring, s: State, me: string, step: Step)
    requires ring.Valid() && Inv(ring, s) && Standing(ring, s) && Enabled(ring, s, By(me, step))
    requires step == Poll || step == Release || step == Rescan
    ensures Standing(ring, Apply(ring, s, By(me, step)))
  {
    hide Apply, Enabled, Inv, ManagerInv, LedgerInv, Standing, ClosedOk, NoSelfLinks;
    var stack' := PushApplies(ring, s, me, step);
    var m := s.managers[me];
    BelowChain(ring, s, me);
    StandingOf(ring, s, me);
    PushedFollows(ring, s.rows, s.chain, me, m, stack');
    hide ManagerStands, CopiesOk;
    NothingWritten(s.rows, s.chain);
    StandAssemble(ring, s, me, Put(s, me, m.(stack := stack')));
  }

  lemma PushedFollows(ring: Ring, rows: seq<Row>, chain: seq<Grant>, me: string, m: Manager, stack': seq<Frame>)
    requires ManagerStands(ring, rows, chain, me, m) && ClosedOk(rows) && m.view.lastSequence < |chain|
    requires PushesLoop(m, stack', Reconciling(Snapshot(rows), |chain| - 1))
    ensures ManagerStands(ring, rows, chain, me, m.(stack := stack'))
  {
    hide CopyOk, CopiesOk, Missing, OwnIdsUnique, Snapshot, ClosedOk;
    SnapshotIsOk(rows);
    var loop := Reconciling(Snapshot(rows), |chain| - 1);
    assert LoopFollows(rows, chain, me, m.view.lastSequence, loop);
    MoveFollows(rows, chain, me, m, m.(stack := stack'));
  }

  /** What the steps inside a call do to their manager. */
  ghost predicate OnlyCalls(s: State, s': State, me: string) {
    && me in s.managers && me in s'.managers && s'.managers == s.managers[me := s'.managers[me]]
    && s'.chain == s.chain && s'.managers[me].view == s.managers[me].view && OldLoops(s.managers[me], s'.managers[me])
  }

  lemma InnerStep(ring: Ring, s: State, me: string, step: Step)
    requires ring.Valid() && Enabled(ring, s, By(me, step))
    requires step == EndReconcile || step == BeginRelease || step == GiveUp || step == SelectionFails || step == Vacate || step == CloseOwn
    ensures OnlyCalls(s, Apply(ring, s, By(me, step)), me)
    ensures step != CloseOwn ==> Apply(ring, s, By(me, step)).rows == s.rows
    ensures step == CloseOwn ==> Apply(ring, s, By(me, step)).rows == CloseGranted(s.rows, s.managers[me].view)
  {
    hide CloseGranted, HasCandidate, Synthesises, SelectionBase, HasOpenFrom;
  }

  lemma InnerStands(ring: Ring, s: State, me: string, step: Step)
    requires ring.Valid() && Inv(ring, s) && Standing(ring, s) && Enabled(ring, s, By(me, step))
    requires step == EndReconcile || step == BeginRelease || step == GiveUp || step == SelectionFails || step == Vacate
    ensures Standing(ring, Apply(ring, s, By(me, step)))
  {
    hide Apply, Enabled, Inv, Standing;
    InnerStep(ring, s, me, step);
    CallStands(ring, s, me, Apply(ring, s, By(me, step)));
  }

  // ---- the hand-over ---------------------------------------------------------------------------

  lemma CloseStands(ring: Ring, s: State, me: string)
    requires ring.Valid() && Inv(ring, s) && Standing(ring, s) && Enabled(ring, s, By(me, CloseOwn))
    ensures Standing(ring, Apply(ring, s, By(me, CloseOwn)))
  {
    hide Apply, Inv, Standing, ManagerInv, LogOk, PhaseOk;
    InnerStep(ring, s, me, CloseOwn);
    var s', m := Apply(ring, s, By(me, CloseOwn)), s.managers[me];
    ManagerOf(ring, s, me);
    StandingOf(ring, s, me);
    HoldsCurrent(ring, s.rows, s.chain, me, m);
    PositionOf(ring, s, me);
    CloseIsWorldStep(ring, s, m.view);
    CloseKeepsClosed(ring, s, m.view);
    hide LedgerInv, WorldStep, ClosedOk, NoSelfLinks, Fresh, ManagerStands, Enabled;
    OthersStand(ring, s.rows, s.chain, s'.rows, s.chain, me, m);
    CopiesSurvive(s.rows, s.chain, s'.rows, s.chain, m.view);
    hide CopiesOk;
    CallsMove(ring, s'.rows, s.chain, me, m, s'.managers[me]);
    StandAssemble(ring, s, me, s');
  }

  lemma PositionOf(ring: Ring, s: State, me: string)
    requires ring.Valid() && Inv(ring, s) && me in s.managers
    ensures PositionOk(ring, s.chain, s.managers[me].view)
  {
    hide Inv, LedgerInv, PositionOk, StackOk, CopiesOk, OwnerOk, RecordsUpTo, IssuedOk;
    ManagerOf(ring, s, me);
  }

  /** A manager that owns the card has nothing to prove about its standing request. */
  lemma OwnerStands(ring: Ring, rows: seq<Row>, chain: seq<Grant>, me: string, m: Manager)
    requires CopiesOk(rows, m.view) && Follows(rows, chain, me, m) && Owns(m.view, me)
    ensures ManagerStands(ring, rows, chain, me, m)
  {
  }

  /** The new copy, if any, is one of a row nobody has granted. */
  lemma EnsuredFollows(
    ring: Ring, rows: seq<Row>, chain: seq<Grant>, me: string, m: Manager, service: string, now: int, rows': seq<Row>, m': Manager)
    requires m.view.lastSequence >= -1 && CopiesOk(rows, m.view) && Follows(rows, chain, me, m)
    requires EnsureFallback(ring, m.view, rows, service, now) == Ok((m'.view, rows'))
    requires OldLoops(m, m') && CopiesOk(rows', m'.view) && CopiesOk(rows', m.view)
    requires WorldStep(rows, chain, rows', chain) && m.view.lastSequence < |chain|
    ensures Follows(rows', chain, me, m')
  {
    hide LoopFollows, CopyOk, HasFallbackFrom;
    FollowsSurvives(rows, chain, rows', chain, me, m);
    if !HasFallbackFrom(m.view, service) {
      var request := FallbackRequestFor(ring, service, m.view.lastSequence + 1, now);
      PlainCopy(rows', m'.view.records[request.id]);
      assert !Missing(rows', m'.view.records[request.id].handle, m.view.lastSequence);
    }
    NonLoopsFollow(rows', chain, me, m.view.lastSequence);
    hide CopiesOk, Missing, Follows;
    MoveFollows(rows', chain, me, m, m');
  }

  lemma PlainCopy(rows: seq<Row>, record: Record)
    requires record.state == Open || record.grant.Some?
    ensures CopyOk(rows, record)
  {
  }

  lemma NonLoopsFollow(rows: seq<Row>, chain: seq<Grant>, me: string, last: int)
    ensures forall frame: Frame :: !frame.Reconciling? ==> LoopFollows(rows, chain, me, last, frame)
  {
  }

  lemma ChooseStands(ring: Ring, s: State, me: string, id: string, now: int)
    requires ring.Valid() && Inv(ring, s) && Standing(ring, s) && Enabled(ring, s, By(me, Choose(id, now)))
    ensures Standing(ring, Apply(ring, s, By(me, Choose(id, now))))
  {
    hide Apply, Inv, Standing, ManagerInv, LedgerInv, LogOk, SelectionBase, IsCandidate, WorldStep, ClosedOk, NoSelfLinks, CopiesOk;
    ChooseSettles(ring, s, me, id, now);
    BelowChain(ring, s, me);
    StandingOf(ring, s, me);
    BaseKeeps(ring, s, me, now);
    var m := s.managers[me];
    var (view, rows) := SelectionBase(ring, s, me, now).value;
    CandidateIsThere(view, me, id);
    var m' := SetTop(m.(view := view), Transferring(Chosen(view.records[id])));
    ManagerBasics(ring, rows, s.chain, me, m.(view := view));
    CopiesSurvive(s.rows, s.chain, rows, s.chain, m.view);
    BaseFollows(ring, s, me, now, m');
    OwnerStands(ring, rows, s.chain, me, m');
    hide Enabled, ManagerStands;
    StandAssemble(ring, s, me, Put(s, me, m').(rows := rows));
  }

  lemma CandidateIsThere(view: View, me: string, id: string)
    requires IsCandidate(view, me, id)
    ensures id in view.records
  {
  }

  lemma BaseFollows(ring: Ring, s: State, me: string, now: int, m': Manager)
    requires ring.Valid() && me in s.managers && -1 <= s.managers[me].view.lastSequence < |s.chain|
    requires ManagerStands(ring, s.rows, s.chain, me, s.managers[me]) && ClosedOk(s.rows)
    requires SelectionBase(ring, s, me, now).Ok?
    requires var (view, rows) := SelectionBase(ring, s, me, now).value;
      && m'.view == view && OldLoops(s.managers[me], m')
      && CopiesOk(rows, view) && CopiesOk(rows, s.managers[me].view) && WorldStep(s.rows, s.chain, rows, s.chain)
    ensures var rows := SelectionBase(ring, s, me, now).value.1;
      Follows(rows, s.chain, me, m') && ClosedOk(rows)
  {
    var m := s.managers[me];
    var (view, rows) := SelectionBase(ring, s, me, now).value;
    hide CopiesOk, Follows, ClosedOk, WorldStep, EnsureFallback, OldLoops;
    if Synthesises(m.view, me) {
      EnsuredFollows(ring, s.rows, s.chain, me, m, m.view.grant.value.source, now, rows, m');
      EnsuredClosed(ring, m.view, s.rows, m.view.grant.value.source, now);
    } else {
      SameCopies(s.rows, s.chain, me, m, m');
    }
  }

  lemma SameCopies(rows: seq<Row>, chain: seq<Grant>, me: string, m: Manager, m': Manager)
    requires CopiesOk(rows, m.view) && Follows(rows, chain, me, m) && m'.view == m.view && OldLoops(m, m')
    ensures Follows(rows, chain, me, m')
  {
    hide CopyOk, CopiesOk, Missing;
  }

  lemma EnsuredClosed(ring: Ring, view: View, rows: seq<Row>, service: string, now: int)
    requires view.lastSequence >= -1 && EnsureFallback(ring, view, rows, service, now).Ok? && ClosedOk(rows)
    ensures ClosedOk(EnsureFallback(ring, view, rows, service, now).value.1)
  {
    hide ClosedOk;
    if !HasFallbackFrom(view, service) {
      CreateKeepsClosed(rows, FallbackRequestFor(ring, service, view.lastSequence + 1, now));
    }
  }

  lemma PublishStands(ring: Ring, s: State, me: string)
    requires ring.Valid() && Inv(ring, s) && Standing(ring, s) && Enabled(ring, s, By(me, Publish))
    ensures Standing(ring, Apply(ring, s, By(me, Publish)))
  {
    hide Inv, Standing, ManagerInv, LedgerInv, WorldStep, MarkGranted, Enabled, Apply, ClosedOk, NoSelfLinks, CopiesOk;
    var record := PublishApplies(ring, s, me);
    PublishParts(ring, s, me, record);
    BelowChain(ring, s, me);
    StandingOf(ring, s, me);
    PublishKeeps(ring, s, me);
    var m, grant := s.managers[me], NextGrant(me, s.managers[me].view, record);
    var s' := Apply(ring, s, By(me, Publish));
    BelowChain(ring, s', me);
    SettledRow(ring, s, me, record);
    GrantKeepsClosed(s.rows, record.handle, grant);
    LinkAppended(s.chain, grant);
    CopiesSurvive(s.rows, s.chain, s'.rows, s'.chain, m.view);
    MarkedFollows(s.rows, s.chain, s'.rows, s'.chain, me, m, s'.managers[me], record, grant);
    MarkedHandles(m.view, record, grant);
    OwnerStands(ring, s'.rows, s'.chain, me, s'.managers[me]);
    hide ManagerStands;
    StandAssemble(ring, s, me, s');
  }

  /** What a transfer has settled on is its row of the ledger, and the card is its own. */
  lemma SettledRow(ring: Ring, s: State, me: string, record: Record)
    requires ring.Valid() && Inv(ring, s) && me in s.managers && PhaseOf(s.managers[me]) == Some(SelfClosed(record))
    ensures Owns(s.managers[me].view, me)
    ensures record.handle.row < |s.rows| && s.rows[record.handle.row].request == record.handle.request
  {
    hide Inv, ManagerInv, LedgerInv, Fresh, CopiesOk;
    ManagerOf(ring, s, me);
    HoldsCurrent(ring, s.rows, s.chain, me, s.managers[me]);
  }

  lemma LinkAppended(chain: seq<Grant>, grant: Grant)
    requires NoSelfLinks(chain) && grant.source != grant.target
    ensures NoSelfLinks(chain + [grant])
  {
  }

  lemma MarkedFollows(
    rows: seq<Row>, chain: seq<Grant>, rows': seq<Row>, chain': seq<Grant>, me: string, m: Manager, m': Manager, record: Record, grant: Grant)
    requires WorldStep(rows, chain, rows', chain') && m.view.lastSequence < |chain|
    requires CopiesOk(rows, m.view) && CopiesOk(rows', m.view) && Follows(rows, chain, me, m)
    requires m'.view == MarkGranted(m.view, record, grant) && CopiesOk(rows', m'.view) && OldLoops(m, m')
    ensures Follows(rows', chain', me, m')
  {
    hide WorldStep, CopiesOk, Follows, LoopFollows, CopyOk;
    FollowsSurvives(rows, chain, rows', chain', me, m);
    PlainCopy(rows', Record(record.handle.(grant := Some(grant)), Granted, Some(grant)));
    MarkedHandles(m.view, record, grant);
    NonLoopsFollow(rows', chain', me, m.view.lastSequence);
    GrantedMissesNothing(rows', chain', me, m, m', record, grant);
  }

  lemma MarkedHandles(view: View, record: Record, grant: Grant)
    ensures MarkGranted(view, record, grant).owner == view.owner
    ensures forall id :: id in view.handles ==> id in MarkGranted(view, record, grant).handles
  {
  }

  lemma GrantedMissesNothing(rows: seq<Row>, chain: seq<Grant>, me: string, m: Manager, m': Manager, record: Record, grant: Grant)
    requires CopiesOk(rows, m.view) && CopiesOk(rows, m'.view) && Follows(rows, chain, me, m)
    requires m'.view == MarkGranted(m.view, record, grant) && OldLoops(m, m')
    requires CopyOk(rows, Record(record.handle.(grant := Some(grant)), Granted, Some(grant)))
    requires forall frame: Frame :: !frame.Reconciling? ==> LoopFollows(rows, chain, me, m.view.lastSequence, frame)
    requires forall id :: id in m.view.handles ==> id in m'.view.handles
    ensures Follows(rows, chain, me, m')
  {
    hide LoopFollows, CopyOk, CopiesOk, Follows;
    MoveFollows(rows, chain, me, m, m');
  }

  lemma AdoptStands(ring: Ring, s: State, me: string)
    requires ring.Valid() && Inv(ring, s) && Standing(ring, s) && Enabled(ring, s, By(me, Adopt))
    ensures Standing(ring, Apply(ring, s, By(me, Adopt)))
  {
    hide Apply, Enabled, Inv, Standing, ManagerInv, LedgerInv, ApplyGrant, LogOk, ClosedOk, NoSelfLinks, CopiesOk;
    AdoptApplies(ring, s, me);
    ManagerOf(ring, s, me);
    BelowChain(ring, s, me);
    StandingOf(ring, s, me);
    var m := s.managers[me];
    AdoptManager(ring, s.rows, s.chain, me, m);
    AdoptKeeps(ring, s, me);
    var s' := Apply(ring, s, By(me, Adopt));
    BelowChain(ring, s', me);
    PublishedOwns(ring, s, me);
    AdoptedView(ring, s, me);
    AdoptedFollows(ring, s, me, s'.managers[me]);
    hide ManagerStands;
    NothingWritten(s.rows, s.chain);
    StandAssemble(ring, s, me, s');
  }

  lemma PublishedOwns(ring: Ring, s: State, me: string)
    requires ring.Valid() && Inv(ring, s) && me in s.managers && IsPublished(s.managers[me])
    ensures var m := s.managers[me];
      && Owns(m.view, me) && 0 <= m.view.lastSequence && m.view.lastSequence + 1 < |s.chain|
      && s.chain[m.view.lastSequence].target == me && s.chain[m.view.lastSequence + 1].source == me
      && PhaseOf(m).value.next == s.chain[m.view.lastSequence + 1]
  {
    hide Inv, ManagerInv, LedgerInv;
    ManagerOf(ring, s, me);
    PositionOf(ring, s, me);
    TransferHolder(ring, s.rows, s.chain, me, s.managers[me]);
    PublishedPhase(ring, s.rows, s.chain, me, s.managers[me]);
    LinkFollows(ring, s.chain, s.managers[me].view.lastSequence + 1);
  }

  lemma PublishedPhase(ring: Ring, rows: seq<Row>, chain: seq<Grant>, me: string, m: Manager)
    requires ManagerInv(ring, rows, chain, me, m) && IsPublished(m)
    ensures PhaseOk(ring, rows, chain, me, m.view, PhaseOf(m).value)
  {
    hide StackOk, CopiesOk, OwnerOk, RecordsUpTo, IssuedOk, PositionOk, PhaseOk;
    TopPhase(ring, rows, chain, me, m);
  }

  lemma AdoptedView(ring: Ring, s: State, me: string)
    requires ring.Valid() && me in s.managers && IsPublished(s.managers[me])
    requires ApplyGrant(ring, me, s.managers[me].view, PhaseOf(s.managers[me]).value.next).Advanced?
    ensures var m := s.managers[me];
      var next := PhaseOf(m).value.next;
      var view := ApplyGrant(ring, me, m.view, next).view;
      && view.records == m.view.records && view.handles == m.view.handles && view.grant == Some(next) && view.owner == Some(next.target)
      && OldLoops(m, EndTransfer(m.(view := view))) && EndTransfer(m.(view := view)).view == view
  {
  }

  /** The manager's own next link: none of its requests is granted by it, and its scans
      fall behind by this link alone. */
  lemma AdoptedFollows(ring: Ring, s: State, me: string, m': Manager)
    requires ring.Valid() && LedgerInv(ring, s.rows, s.chain, s.chainRows) && NoSelfLinks(s.chain)
    requires me in s.managers && ManagerStands(ring, s.rows, s.chain, me, s.managers[me]) && CopiesOk(s.rows, m'.view)
    requires var m := s.managers[me];
      var last := m.view.lastSequence;
      && 0 <= last && last + 1 < |s.chain| && s.chain[last].target == me && s.chain[last + 1].source == me && s.chain[last + 1].target != me
      && m'.view.records == m.view.records && m'.view.handles == m.view.handles && m'.view.lastSequence == last + 1
      && m'.view.grant == Some(s.chain[last + 1]) && m'.view.owner == Some(s.chain[last + 1].target) && OldLoops(m, m')
    ensures ManagerStands(ring, s.rows, s.chain, me, m')
  {
    hide CopyOk, OwnIdsUnique, Linked, WellPosted, GrantedAt;
    var m := s.managers[me];
    forall id | id in m'.view.records && m'.view.records[id].handle.request.service == me
      ensures !Missing(s.rows, m'.view.records[id].handle, m'.view.lastSequence)
    {
      assert HandleOk(s.rows, m.view.records[id].handle);
    }
  }

  // ---- one record of a scan ---------------------------------------------------------------------

  lemma TakeStands(ring: Ring, s: State, me: string)
    requires ring.Valid() && Inv(ring, s) && Standing(ring, s) && me in s.managers
    requires RecordWaiting(s.managers[me]) && !BringsNews(s.managers[me])
    ensures Standing(ring, Put(s, me, Taken(s.managers[me])))
  {
    hide Inv, Standing, ManagerInv, LedgerInv, ClosedOk, NoSelfLinks, CopiesOk, BringsNews, RecordOk, StackOk, PositionOk, RecordsUpTo;
    var m, s' := s.managers[me], Put(s, me, Taken(s.managers[me]));
    var frame := m.stack[|m.stack| - 1];
    ManagerOf(ring, s, me);
    StandingOf(ring, s, me);
    TakeKeeps(ring, s, me);
    BelowChain(ring, s, me);
    BelowChain(ring, s', me);
    HeadIsOk(ring, s.rows, s.chain, me, m);
    TopLoop(ring, s.rows, s.chain, me, m);
    LoopHead(s.rows, s.chain, m.view, frame.pending, frame.asOf);
    OwnHeadMissesNothing(ring, s, me, frame);
    TakenFollows(s.rows, s.chain, me, m);
    TakenStands(ring, s.rows, s.chain, me, m);
    hide ManagerStands;
    NothingWritten(s.rows, s.chain);
    StandAssemble(ring, s, me, s');
  }

  /** The head of a scan has missed no grant of this service's own requests. */
  lemma OwnHeadMissesNothing(ring: Ring, s: State, me: string, frame: Frame)
    requires ring.Valid() && LedgerInv(ring, s.rows, s.chain, s.chainRows) && NoSelfLinks(s.chain) && me in s.managers
    requires frame.Reconciling? && LoopFollows(s.rows, s.chain, me, s.managers[me].view.lastSequence, frame)
    requires frame.pending != [] && RecordOk(s.rows, frame.pending[0]) && !Missing(s.rows, frame.pending[0].handle, frame.asOf)
    ensures frame.pending[0].handle.request.service == me ==>
      !Missing(s.rows, frame.pending[0].handle, s.managers[me].view.lastSequence)
  {
    hide CopyOk, Linked, WellPosted, GrantedAt;
  }

  lemma TakenFollows(rows: seq<Row>, chain: seq<Grant>, me: string, m: Manager)
    requires RecordWaiting(m) && CopiesOk(rows, m.view) && CopiesOk(rows, Taken(m).view) && Follows(rows, chain, me, m)
    requires RecordOk(rows, m.stack[|m.stack| - 1].pending[0])
    requires m.stack[|m.stack| - 1].pending[0].handle.request.service == me ==>
      !Missing(rows, m.stack[|m.stack| - 1].pending[0].handle, m.view.lastSequence)
    ensures Follows(rows, chain, me, Taken(m))
  {
    hide CopyOk, CopiesOk, Missing;
    var frame := m.stack[|m.stack| - 1];
    assert LoopFollows(rows, chain, me, m.view.lastSequence, frame);
    RestFollows(rows, chain, me, m.view.lastSequence, frame);
    hide LoopFollows;
    MoveFollows(rows, chain, me, m, Taken(m));
  }

  lemma RestFollows(rows: seq<Row>, chain: seq<Grant>, me: string, last: int, frame: Frame)
    requires frame.Reconciling? && frame.pending != [] && LoopFollows(rows, chain, me, last, frame)
    ensures LoopFollows(rows, chain, me, last, frame.(pending := frame.pending[1..])) && CopyOk(rows, frame.pending[0])
  {
    hide CopyOk;
    assert forall i :: 0 <= i < |frame.pending| - 1 ==> frame.pending[1..][i] == frame.pending[i + 1];
  }

  /** A scan never takes the standing request out of the view: a newer copy of it would
      be news, or carry a grant the old copy cannot have missed. */
  lemma TakenStands(ring: Ring, rows: seq<Row>, chain: seq<Grant>, me: string, m: Manager)
    requires RecordWaiting(m) && !BringsNews(m) && ManagerStands(ring, rows, chain, me, m)
    requires RecordOk(rows, m.stack[|m.stack| - 1].pending[0]) && CopiesOk(rows, Taken(m).view)
    requires Follows(rows, chain, me, Taken(m))
    ensures ManagerStands(ring, rows, chain, me, Taken(m))
  {
    var head := m.stack[|m.stack| - 1].pending[0];
    assert LoopFollows(rows, chain, me, m.view.lastSequence, m.stack[|m.stack| - 1]);
    assert CopyOk(rows, head);
    if ring.Member(me) && ring.ModeFor(me) == Fallback && OwnIdsUnique(rows, me) && PassedBy(m.view, me) {
      var id :| id in m.view.records && OpenFallbackFrom(m.view.records[id], me);
      StillStanding(rows, me, m.view, id, head);
      assert OpenFallbackFrom(TakeRecord(m.view, head).records[id], me);
    }
    hide LoopFollows, CopyOk, CopiesOk, Follows, OwnIdsUnique, OpenFallbackFrom;
  }

  lemma StillStanding(rows: seq<Row>, me: string, view: View, id: string, head: Record)
    requires CopiesOk(rows, view) && id in view.records && OpenFallbackFrom(view.records[id], me) && OwnIdsUnique(rows, me)
    requires RecordOk(rows, head) && CopyOk(rows, head) && !Missing(rows, view.records[id].handle, view.lastSequence)
    requires head.grant.Some? ==> head.grant.value.sequence <= view.lastSequence
    ensures id == head.Id() ==> OpenFallbackFrom(head, me)
  {
    if id == head.Id() {
      var row := view.records[id].handle.row;
      assert IsOwnFallback(rows[row].request, me) && rows[head.handle.row].request.id == rows[row].request.id;
      assert head.handle.row == row;
    }
  }

  /** News moves the position by one link, and the head of the scan is that link's row. */
  lemma NewsStands(ring: Ring, s: State, me: string)
    requires ring.Valid() && Inv(ring, s) && Standing(ring, s) && me in s.managers
    requires RecordWaiting(s.managers[me]) && BringsNews(s.managers[me])
    ensures StandingBut(ring, AfterNews(ring, s, me), me)
  {
    hide Inv, Standing, ManagerInv, LedgerInv, ClosedOk, NoSelfLinks, CopiesOk, BringsNews, RecordOk, StackOk, PositionOk, RecordsUpTo,
         ApplyGrant, TakeRecord, Taken;
    var m, s' := s.managers[me], AfterNews(ring, s, me);
    var head := m.stack[|m.stack| - 1].pending[0];
    ManagerOf(ring, s, me);
    StandingOf(ring, s, me);
    NewsKeeps(ring, s, me);
    BelowChain(ring, s, me);
    BelowChain(ring, s', me);
    HeadIsOk(ring, s.rows, s.chain, me, m);
    HeadIsNews(m);
    NewsIsNext(ring, s.rows, s.chain, s.chainRows, me, m);
    LedgerIsLinked(ring, s.rows, s.chain, s.chainRows);
    NewsPosition(ring, s.chain, me, m.view, head);
    StackShape(ring, s.rows, s.chain, me, m);
    OnlyLoop(m, m.stack[|m.stack| - 1].asOf);
    NewsMoves(ring, s, me);
    NewsFollows(ring, s, me, s'.managers[me]);
    hide ManagerStands, Follows;
    OthersStandToo(ring, s, s', me);
  }

  lemma HeadIsNews(m: Manager)
    requires RecordWaiting(m) && BringsNews(m)
    ensures var head := m.stack[|m.stack| - 1].pending[0];
      head.grant.Some? && head.grant.value.sequence > m.view.lastSequence
  {
  }

  lemma NewsMoves(ring: Ring, s: State, me: string)
    requires ring.Valid() && me in s.managers && RecordWaiting(s.managers[me]) && BringsNews(s.managers[me])
    requires News(ring, me, s.managers[me]).Advanced?
    ensures var m, s' := s.managers[me], AfterNews(ring, s, me);
      var head := m.stack[|m.stack| - 1].pending[0];
      && me in s'.managers && s'.managers == s.managers[me := s'.managers[me]] && s'.rows == s.rows && s'.chain == s.chain
      && s'.managers[me].view == News(ring, me, m).view && s'.managers[me].view.grant == head.grant
      && s'.managers[me].view.records == m.view.records[head.Id() := head]
      && s'.managers[me].view.handles == m.view.handles[head.Id() := head.handle]
      && s'.managers[me].stack == Below(m) + [m.stack[|m.stack| - 1].(pending := m.stack[|m.stack| - 1].pending[1..])]
  {
  }

  lemma NewsFollows(ring: Ring, s: State, me: string, m': Manager)
    requires ring.Valid() && LedgerInv(ring, s.rows, s.chain, s.chainRows) && me in s.managers && RecordWaiting(s.managers[me])
    requires CopiesOk(s.rows, s.managers[me].view) && Follows(s.rows, s.chain, me, s.managers[me]) && CopiesOk(s.rows, m'.view)
    requires var m := s.managers[me];
      var frame := m.stack[|m.stack| - 1];
      var head, k := frame.pending[0], m.view.lastSequence + 1;
      && RecordOk(s.rows, head) && 0 <= k <= frame.asOf < |s.chain| && head.grant == Some(s.chain[k]) && head.handle.row == s.chainRows[k]
      && (forall i :: 0 <= i < |m.stack| && m.stack[i].Reconciling? ==> i == |m.stack| - 1)
      && m'.view.lastSequence == k && m'.view.grant == head.grant
      && m'.view.records == m.view.records[head.Id() := head] && m'.view.handles == m.view.handles[head.Id() := head.handle]
      && m'.stack == Below(m) + [frame.(pending := frame.pending[1..])]
    ensures Follows(s.rows, s.chain, me, m')
  {
    hide Linked, WellPosted, GrantedAt, CopyOk;
    var m := s.managers[me];
    var frame := m.stack[|m.stack| - 1];
    var head := frame.pending[0];
    assert LoopFollows(s.rows, s.chain, me, m.view.lastSequence, frame);
    RestFollows(s.rows, s.chain, me, m.view.lastSequence, frame);
    forall id | id in m'.view.records && m'.view.records[id].handle.request.service == me
      ensures !Missing(s.rows, m'.view.records[id].handle, m'.view.lastSequence)
    {
      if id != head.Id() { assert HandleOk(s.rows, m.view.records[id].handle); }
    }
    forall other | other in m'.stack ensures LoopFollows(s.rows, s.chain, me, m'.view.lastSequence, other) {
      if other.Reconciling? { assert other == frame.(pending := frame.pending[1..]); }
    }
  }

  lemma OthersStandToo(ring: Ring, s: State, s': State, me: string)
    requires Standing(ring, s) && me in s.managers && me in s'.managers && s'.managers == s.managers[me := s'.managers[me]]
    requires s'.rows == s.rows && s'.chain == s.chain
    requires CopiesOk(s.rows, s'.managers[me].view) && Follows(s.rows, s.chain, me, s'.managers[me])
    ensures StandingBut(ring, s', me)
  {
    hide Follows, Stands, CopiesOk, ClosedOk, NoSelfLinks;
    forall other | other in s'.managers && other != me ensures ManagerStands(ring, s.rows, s.chain, other, s'.managers[other]) {
      assert s'.managers[other] == s.managers[other];
    }
  }

  /** The end of a turn that applied a grant: whoever the card has passed by asks for it. */
  lemma KeepStands(ring: Ring, s: State, me: string, now: int)
    requires ring.Valid() && Inv(ring, s) && StandingBut(ring, s, me) && me in s.managers && ring.Member(me)
    requires s.managers[me].view.lastSequence >= -1
    ensures Standing(ring, KeepFallbackPosted(ring, s, me, now))
  {
    hide Inv, CopiesOk, Follows, StandingBut, KeepFallbackPosted;
    BelowChain(ring, s, me);
    StandingButParts(ring, s, me);
    if ring.ModeFor(me) == Fallback && !Owns(s.managers[me].view, me) {
      KeptFacts(ring, s, me, now);
      hide ManagerStands, WorldStep, ClosedOk, NoSelfLinks;
      OthersStandOn(ring, s, KeepFallbackPosted(ring, s, me, now), me);
    } else {
      NothingToKeep(ring, s, me, now);
    }
  }

  lemma StandingButParts(ring: Ring, s: State, me: string)
    requires StandingBut(ring, s, me) && me in s.managers
    ensures ClosedOk(s.rows) && NoSelfLinks(s.chain)
    ensures CopiesOk(s.rows, s.managers[me].view) && Follows(s.rows, s.chain, me, s.managers[me])
  {
    hide Follows, Stands, CopiesOk, ClosedOk, NoSelfLinks;
  }

  lemma NothingToKeep(ring: Ring, s: State, me: string, now: int)
    requires ring.Valid() && StandingBut(ring, s, me) && me in s.managers && ring.Member(me) && s.managers[me].view.lastSequence >= -1
    requires ring.ModeFor(me) != Fallback || Owns(s.managers[me].view, me)
    ensures KeepFallbackPosted(ring, s, me, now) == s && Standing(ring, s)
  {
    hide Follows, CopiesOk, ClosedOk, NoSelfLinks, OwnIdsUnique, HasFallbackFrom;
    forall other | other in s.managers ensures ManagerStands(ring, s.rows, s.chain, other, s.managers[other]) {
      if other != me { hide Stands; }
    }
  }

  lemma OthersStandOn(ring: Ring, s: State, s': State, me: string)
    requires ring.Valid() && Inv(ring, s) && StandingBut(ring, s, me) && me in s.managers && me in s'.managers
    requires s'.managers == s.managers[me := s'.managers[me]] && ManagerStands(ring, s'.rows, s'.chain, me, s'.managers[me])
    requires WorldStep(s.rows, s.chain, s'.rows, s'.chain) && ClosedOk(s'.rows) && NoSelfLinks(s'.chain)
    ensures Standing(ring, s')
  {
    hide Inv, Follows, Stands, CopiesOk, ClosedOk, NoSelfLinks, WorldStep;
    forall other | other in s'.managers ensures ManagerStands(ring, s'.rows, s'.chain, other, s'.managers[other]) {
      if other != me {
        assert s'.managers[other] == s.managers[other];
        BelowChain(ring, s, other);
        OthersStand(ring, s.rows, s.chain, s'.rows, s'.chain, other, s.managers[other]);
      }
    }
  }

  lemma KeptFacts(ring: Ring, s: State, me: string, now: int)
    requires ring.Valid() && Inv(ring, s) && me in s.managers && ring.Member(me) && -1 <= s.managers[me].view.lastSequence < |s.chain|
    requires CopiesOk(s.rows, s.managers[me].view) && Follows(s.rows, s.chain, me, s.managers[me]) && ClosedOk(s.rows)
    requires ring.ModeFor(me) == Fallback && !Owns(s.managers[me].view, me)
    ensures var s' := KeepFallbackPosted(ring, s, me, now);
      && me in s'.managers && s'.managers == s.managers[me := s'.managers[me]] && s'.chain == s.chain
      && WorldStep(s.rows, s.chain, s'.rows, s'.chain) && ClosedOk(s'.rows)
      && ManagerStands(ring, s'.rows, s'.chain, me, s'.managers[me])
  {
    hide Inv, ManagerInv, LedgerInv, LogOk, ClosedOk, CopiesOk, Follows, WorldStep, EnsureFallback;
    CM.FallbackOfOwnIsPosted(ring, me);
    var m := s.managers[me];
    var (view, rows) := EnsureFallback(ring, m.view, s.rows, me, now).value;
    var m' := m.(view := view);
    FallbackMove(ring, s, me, now);
    ManagerBasics(ring, rows, s.chain, me, m');
    CopiesSurvive(s.rows, s.chain, rows, s.chain, m.view);
    EnsuredFollows(ring, s.rows, s.chain, me, m, me, now, rows, m');
    EnsuredClosed(ring, m.view, s.rows, me, now);
    EnsuredStands(ring, m.view, s.rows, me, now);
  }

  lemma ProcessStands(ring: Ring, s: State, me: string, now: int)
    requires ring.Valid() && Inv(ring, s) && Standing(ring, s) && ring.Member(me) && me in s.managers
    requires RecordWaiting(s.managers[me]) && s.managers[me].view.lastSequence >= -1
    ensures Standing(ring, ProcessRecord(ring, s, me, now))
  {
    hide Inv, Standing, StandingBut, ManagerInv, LedgerInv, RecordOk, Missing, StackOk, LoopOk, CopiesOk, PositionOk;
    var m := s.managers[me];
    ProcessFacts(ring, s, me);
    if BringsNews(m) {
      NewsKeeps(ring, s, me);
      NewsStands(ring, s, me);
      KeepStands(ring, AfterNews(ring, s, me), me, now);
    } else {
      var taken := Put(s, me, Taken(m));
      TakeKeeps(ring, s, me);
      TakeStands(ring, s, me);
      StandingIsEnough(ring, taken, me);
      KeepStands(ring, taken, me, now);
      if Owns(m.view, me) && !m.transferring {
        CallStands(ring, taken, me, Put(taken, me, StartTransfer(Taken(m), me)));
        assert taken.managers[me := StartTransfer(Taken(m), me)] == s.managers[me := StartTransfer(Taken(m), me)];
      }
    }
  }

  lemma StandingIsEnough(ring: Ring, s: State, me: string)
    requires Standing(ring, s)
    ensures StandingBut(ring, s, me)
  {
    hide Follows, Stands, CopiesOk, ClosedOk, NoSelfLinks;
  }

  // ---- all steps, all runs ------------------------------------------------------------------------

  lemma StepStands(ring: Ring, s: State, a: Action)
    requires ring.Valid() && Inv(ring, s) && Standing(ring, s) && Enabled(ring, s, a)
    ensures Standing(ring, Apply(ring, s, a))
  {
    hide Inv, Standing, Enabled, Apply;
    match a
    case GenesisCreate => GenesisStands(ring, s, a);
    case GenesisGrant => GenesisStands(ring, s, a);
    case By(me, step) =>
      match step {
        case Post(request) => PostStands(ring, s, me, request);
        case Poll => PushStands(ring, s, me, step);
        case Release => PushStands(ring, s, me, step);
        case Rescan => PushStands(ring, s, me, step);
        case Process(now) => ProcessStepStands(ring, s, me, now);
        case EndReconcile => InnerStands(ring, s, me, step);
        case BeginRelease => InnerStands(ring, s, me, step);
        case Choose(id, now) => ChooseStands(ring, s, me, id, now);
        case GiveUp => InnerStands(ring, s, me, step);
        case SelectionFails => InnerStands(ring, s, me, step);
        case Vacate => InnerStands(ring, s, me, step);
        case CloseOwn => CloseStands(ring, s, me);
        case Publish => PublishStands(ring, s, me);
        case Adopt => AdoptStands(ring, s, me);
      }
  }

  lemma ProcessStepStands(ring: Ring, s: State, me: string, now: int)
    requires ring.Valid() && Inv(ring, s) && Standing(ring, s) && Enabled(ring, s, By(me, Process(now)))
    ensures Standing(ring, Apply(ring, s, By(me, Process(now))))
  {
    hide Inv, Standing, ProcessRecord;
    ProcessStands(ring, s, me, now);
  }

  lemma {:induction false} RunStands(ring: Ring, start: State, actions: seq<Action>, end: State)
    requires ring.Valid() && Inv(ring, start) && Standing(ring, start) && Run(ring, start, actions, end)
    ensures Inv(ring, end) && Standing(ring, end)
    decreases |actions|
  {
    hide Inv, Enabled, Apply, Standing;
    if actions != [] {
      var last := actions[|actions| - 1];
      var mid :| && Run(ring, start, actions[..|actions| - 1], mid)
                 && Enabled(ring, mid, last) && Apply(ring, mid, last) == end;
      RunStands(ring, start, actions[..|actions| - 1], mid);
      StepKeeps(ring, mid, last);
      StepStands(ring, mid, last);
    }
  }

  lemma ReachableStands(ring: Ring, s: State)
    requires ring.Valid() && Reachable(ring, s)
    ensures Inv(ring, s) && Standing(ring, s)
  {
    hide Inv, Run;
    InitKeeps(ring);
    assert Standing(ring, Init(ring));
    hide Init, Standing;
    var actions :| Run(ring, Init(ring), actions, s);
    RunStands(ring, Init(ring), actions, s);
  }

  // ---- the results -----------------------------------------------------------------------------------

  /** In every reachable state: once a FALLBACK member has applied a grant from one other
      service to another, its view holds an open fallback request of its own, and on the
      true ledger that request's row carries no grant this member could know of. Its
      request ids have to be its own, for a view keeps one record for each id. */
  lemma PassedByStillAsks(ring: Ring, s: State, me: string) returns (id: string)
    requires ring.Valid() && Reachable(ring, s) && me in s.managers && ring.Member(me) && ring.ModeFor(me) == Fallback
    requires forall i, j :: 0 <= i < |s.rows| && 0 <= j < |s.rows| && IsOwnFallback(s.rows[i].request, me) ==>
      (s.rows[j].request.id == s.rows[i].request.id ==> i == j)
    requires var view := s.managers[me].view;
      view.owner.Some? && view.owner != Some(me) && view.grant.Some? && view.grant.value.source != me
    ensures id in s.managers[me].view.records
    ensures var record := s.managers[me].view.records[id];
      && record.handle.request.service == me && record.handle.request.kind == FallbackRequest && record.state == Open
      && record.handle.row < |s.rows| && s.rows[record.handle.row].request == record.handle.request
      && (s.rows[record.handle.row].grant.Some? ==>
            s.rows[record.handle.row].grant.value.sequence > s.managers[me].view.lastSequence)
  {
    hide Inv, Reachable, Standing, Missing, LoopFollows;
    ReachableStands(ring, s);
    StandingOf(ring, s, me);
    assert OwnIdsUnique(s.rows, me);
    id :| id in s.managers[me].view.records && OpenFallbackFrom(s.managers[me].view.records[id], me);
    NotMissed(s.rows, s.managers[me].view, id);
  }

  lemma NotMissed(rows: seq<Row>, view: View, id: string)
    requires CopiesOk(rows, view) && id in view.records && view.records[id].state == Open
    requires !Missing(rows, view.records[id].handle, view.lastSequence)
    ensures var record := view.records[id];
      && record.handle.row < |rows| && rows[record.handle.row].request == record.handle.request
      && (rows[record.handle.row].grant.Some? ==> rows[record.handle.row].grant.value.sequence > view.lastSequence)
  {
    assert RecordOk(rows, view.records[id]);
  }

  /** One turn of the loop: when a FALLBACK member's position moves and the card is not
      its own afterwards, it asks. It posts exactly one open request, and only if the
      view it had, with the record it just read, held none. */
  lemma TurnPosts(ring: Ring, s: State, me: string, now: int)
    requires ring.Valid() && Enabled(ring, s, By(me, Process(now))) && ring.ModeFor(me) == Fallback
    requires var s' := Apply(ring, s, By(me, Process(now)));
      && me in s'.managers && s'.managers[me].view.lastSequence > s.managers[me].view.lastSequence
      && s'.managers[me].view.owner != Some(me)
    ensures var head := s.managers[me].stack[|s.managers[me].stack| - 1].pending[0];
      var known := s.managers[me].view.records[head.Id() := head];
      var s' := Apply(ring, s, By(me, Process(now)));
      && (exists id :: id in s'.managers[me].view.records && OpenFallbackFrom(s'.managers[me].view.records[id], me))
      && (if exists id :: id in known && OpenFallbackFrom(known[id], me) then s'.rows == s.rows
          else CM.OneMoreFallback(s.rows, s'.rows, me))
  {
    hide OpenFallbackFrom, CM.OneMoreFallback, KeepFallbackPosted, StartTransfer, ApplyGrant, SetTop, Acquire, HasFallbackFrom;
    var m := s.managers[me];
    var head := m.stack[|m.stack| - 1].pending[0];
    var view := TakeRecord(m.view, head);
    SetTopKeepsView(m, m.stack[|m.stack| - 1].(pending := m.stack[|m.stack| - 1].pending[1..]));
    var m2 := SetTop(m, m.stack[|m.stack| - 1].(pending := m.stack[|m.stack| - 1].pending[1..])).(view := view);
    StartKeepsView(m2, me);
    if head.grant.Some? {
      AppliedKeepsCopies(ring, me, view, head.grant.value);
      var applied := ApplyGrant(ring, me, view, head.grant.value);
      KeptPosts(ring, Put(s, me, m2), me, now);
      if applied.Advanced? {
        AcquireKeepsView(Put(s, me, m2.(view := applied.view)), me, applied.acquire);
        KeptPosts(ring, Acquire(Put(s, me, m2.(view := applied.view)), me, applied.acquire), me, now);
      }
    }
    KnownFallbacks(m.view.records[head.Id() := head], me);
    KnownFallbacks(Apply(ring, s, By(me, Process(now))).managers[me].view.records, me);
  }

  lemma StartKeepsView(m: Manager, me: string)
    ensures StartTransfer(m, me).view == m.view
  {
  }

  lemma AppliedKeepsCopies(ring: Ring, me: string, view: View, grant: Grant)
    requires ring.Valid() && view.lastSequence >= -1
    ensures var applied := ApplyGrant(ring, me, view, grant);
      applied.Advanced? ==> applied.view.records == view.records && applied.view.lastSequence >= -1
  {
  }

  lemma AcquireKeepsView(s: State, me: string, acquire: bool)
    requires me in s.managers
    ensures me in Acquire(s, me, acquire).managers
    ensures Acquire(s, me, acquire).managers[me].view == s.managers[me].view && Acquire(s, me, acquire).rows == s.rows
  {
  }

  lemma KnownFallbacks(records: map<string, Record>, me: string)
    ensures forall view: View :: view.records == records ==>
      (HasFallbackFrom(view, me) <==> exists id :: id in records && OpenFallbackFrom(records[id], me))
  {
  }

  lemma KeptPosts(ring: Ring, s: State, me: string, now: int)
    requires ring.Valid() && ring.Member(me) && ring.ModeFor(me) == Fallback && me in s.managers
    requires s.managers[me].view.lastSequence >= -1
    ensures var s', view := KeepFallbackPosted(ring, s, me, now), s.managers[me].view;
      && me in s'.managers && s'.managers[me].view.owner == view.owner && s'.managers[me].view.lastSequence == view.lastSequence
      && (view.owner != Some(me) ==>
            && HasFallbackFrom(s'.managers[me].view, me)
            && (if HasFallbackFrom(view, me) then s'.rows == s.rows else CM.OneMoreFallback(s.rows, s'.rows, me)))
  {
    hide HasFallbackFrom, OpenFallbackFrom, CM.OneMoreFallback;
    CM.FallbackOfOwnIsPosted(ring, me);
    if !Owns(s.managers[me].view, me) {
      EnsuredStands(ring, s.managers[me].view, s.rows, me, now);
      PostedOnce(ring, s.managers[me].view, s.rows, me, now);
    }
  }

  lemma PostedOnce(ring: Ring, view: View, rows: seq<Row>, service: string, now: int)
    requires view.lastSequence >= -1 && EnsureFallback(ring, view, rows, service, now).Ok?
    ensures var after := EnsureFallback(ring, view, rows, service, now).value.1;
      if HasFallbackFrom(view, service) then after == rows else CM.OneMoreFallback(rows, after, service)
  {
  }

  /** Closing before a hand-over: exactly one row changes, it bears the id of the request
      the owner was granted, it reads closed and keeps its grant. If no other row bears
      that id it is the very row of the link the owner holds the card by. */
  lemma OwnRowIsClosed(ring: Ring, s: State, me: string) returns (row: nat)
    requires ring.Valid() && Reachable(ring, s) && Enabled(ring, s, By(me, CloseOwn))
    ensures s.chain != [] && row < |s.rows| && s.rows[row].request.id == s.chain[|s.chain| - 1].requestId
    ensures var after := Apply(ring, s, By(me, CloseOwn)).rows;
      && |after| == |s.rows| && after[row] == s.rows[row].(state := Closed)
      && forall i :: 0 <= i < |after| && i != row ==> after[i] == s.rows[i]
    ensures (forall i :: 0 <= i < |s.rows| && s.rows[i].request.id == s.rows[row].request.id ==> i == row) ==>
      s.rows[row].grant == Some(s.chain[|s.chain| - 1])
  {
    hide Inv, Reachable, Standing, Apply, ManagerInv, LedgerInv, LogOk, PhaseOk, LoopFollows, CopiesOk, Fresh, CloseGranted, PositionOk;
    ReachableStands(ring, s);
    InnerStep(ring, s, me, CloseOwn);
    var m := s.managers[me];
    ManagerOf(ring, s, me);
    StandingOf(ring, s, me);
    HoldsCurrent(ring, s.rows, s.chain, me, m);
    PositionOf(ring, s, me);
    LivesOnARow(ring, s, me, m);
    row := ClosedRow(ring, s, m.view);
  }

  lemma LivesOnARow(ring: Ring, s: State, me: string, m: Manager)
    requires PositionOk(ring, s.chain, m.view) && m.view.lastSequence == |s.chain| - 1 >= 0 && Owns(m.view, me)
    requires CopiesOk(s.rows, m.view) && Follows(s.rows, s.chain, me, m)
    ensures m.view.grant == Some(s.chain[|s.chain| - 1]) && m.view.grant.value.requestId in m.view.handles
  {
    hide CopiesOk, LoopFollows, CopyOk, Missing;
  }

  lemma ClosedRow(ring: Ring, s: State, view: View) returns (row: nat)
    requires ring.Valid() && LedgerInv(ring, s.rows, s.chain, s.chainRows) && s.chain != []
    requires CopiesOk(s.rows, view) && Fresh(s.rows, view, |s.chain| - 1)
    requires view.grant == Some(s.chain[|s.chain| - 1]) && view.grant.value.requestId in view.handles
    requires forall other: nat :: OwnHandle(view, other) ==> other < |s.rows|
    ensures row < |s.rows| && s.rows[row].request.id == s.chain[|s.chain| - 1].requestId
    ensures CloseGranted(s.rows, view) == s.rows[row := s.rows[row].(state := Closed)]
    ensures (forall i :: 0 <= i < |s.rows| && s.rows[i].request.id == s.rows[row].request.id ==> i == row) ==>
      s.rows[row].grant == Some(s.chain[|s.chain| - 1])
  {
    hide Linked, WellPosted;
    var handle := view.handles[view.grant.value.requestId];
    row := handle.row;
    assert !Missing(s.rows, handle, |s.chain| - 1);
    assert GrantedAt(s.rows, s.chainRows[|s.chain| - 1], s.chain[|s.chain| - 1]);
  }
}

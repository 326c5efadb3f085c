/** Every step of the composed ring keeps the invariant. */
module ColocationSteps {
  import opened Wrappers
  import opened ColocationRing
  import opened RequestLedger
  import opened ColocationView
  import opened ColocationProtocol
  import opened ColocationInvariant
  import opened ColocationFrames

  /** One manager moved, the ledger moved as the rules allow: the rest follows. */
  lemma Assemble(ring: Ring, s: State, me: string, s': State)
    requires ring.Valid() && Inv(ring, s) && me in s.managers && me in s'.managers
    requires s'.managers == s.managers[me := s'.managers[me]]
    requires WorldStep(s.rows, s.chain, s'.rows, s'.chain)
    requires forall k :: |s.chain| <= k < |s'.chain| ==> k >= 1 && s'.chain[k].source == me && ring.Member(s'.chain[k].target)
    requires LedgerInv(ring, s'.rows, s'.chain, s'.chainRows)
    requires s'.genesis == s.genesis && GenesisOk(ring, s'.rows, s'.genesis)
    requires ManagerInv(ring, s'.rows, s'.chain, me, s'.managers[me])
    requires s'.chain != [] ==> s'.chain[|s'.chain| - 1].target in s'.managers
    requires LogOk(s')
    ensures Inv(ring, s')
  {
    hide ManagerInv, LedgerInv, LogOk, WorldStep;
    forall other | other in s'.managers
      ensures ManagerInv(ring, s'.rows, s'.chain, other, s'.managers[other])
    {
      if other != me {
        assert s'.managers[other] == s.managers[other];
        OthersKeep(ring, s.rows, s.chain, s'.rows, s'.chain, other, s.managers[other]);
      }
    }
  }

  lemma ManagerOf(ring: Ring, s: State, me: string)
    requires ring.Valid() && Inv(ring, s) && me in s.managers
    ensures LedgerInv(ring, s.rows, s.chain, s.chainRows) && Linked(ring, s.chain)
    ensures ManagerInv(ring, s.rows, s.chain, me, s.managers[me])
    ensures s.managers[me].view.lastSequence >= -1
  {
    hide LogOk, StackOk, OwnerOk, CopiesOk, RecordsUpTo, Linked, WellPosted, GrantedAt;
  }

  /** Steps that issue no link, run no callback and apply nothing. */
  lemma QuietLog(s: State, me: string, s': State)
    requires me in s.managers && me in s'.managers && s'.managers == s.managers[me := s'.managers[me]]
    requires s'.chain == s.chain && s'.log == s.log
    requires s.chain != [] ==> s.chain[|s.chain| - 1].target in s.managers
    requires s'.managers[me].view.lastSequence == s.managers[me].view.lastSequence
    requires HasLeft(s'.managers[me]) <==> HasLeft(s.managers[me])
    requires LogOk(s)
    ensures LogOk(s')
  {
  }

  lemma AppendIsWorldStep(ring: Ring, s: State, request: Request)
    requires ring.Valid() && LedgerInv(ring, s.rows, s.chain, s.chainRows) && WellPosted(ring, request)
    ensures WorldStep(s.rows, s.chain, Create(s.rows, request), s.chain)
    ensures LedgerInv(ring, Create(s.rows, request), s.chain, s.chainRows)
  {
  }

  lemma GenesisIsPosted(ring: Ring)
    requires ring.Valid()
    ensures WellPosted(ring, GenesisRequest(ring))
  {
    IndexIsUnique(ring, ring.InitialOwner(), 0);
  }

  lemma GenesisCreateKeeps(ring: Ring, s: State)
    requires ring.Valid() && Inv(ring, s) && Enabled(ring, s, GenesisCreate)
    ensures Inv(ring, Apply(ring, s, GenesisCreate))
  {
    hide ManagerInv, LedgerInv, WorldStep, WellPosted;
    GenesisIsPosted(ring);
    AppendIsWorldStep(ring, s, GenesisRequest(ring));
    var s' := Apply(ring, s, GenesisCreate);
    forall other | other in s'.managers
      ensures ManagerInv(ring, s'.rows, s'.chain, other, s'.managers[other])
    {
      OthersKeep(ring, s.rows, s.chain, s'.rows, s'.chain, other, s.managers[other]);
    }
  }

  lemma GenesisGrantKeeps(ring: Ring, s: State)
    requires ring.Valid() && Inv(ring, s) && Enabled(ring, s, GenesisGrant)
    ensures Inv(ring, Apply(ring, s, GenesisGrant))
  {
    hide ManagerInv;
    var s' := Apply(ring, s, GenesisGrant);
    GenesisIsPosted(ring);
    ManagerBasics(ring, s.rows, s.chain, ring.InitialOwner(), s.managers[ring.InitialOwner()]);
    assert GrantedAt(s'.rows, s'.chainRows[0], s'.chain[0]);
    forall other | other in s'.managers
      ensures ManagerInv(ring, s'.rows, s'.chain, other, s'.managers[other])
    {
      OthersKeep(ring, s.rows, s.chain, s'.rows, s'.chain, other, s.managers[other]);
    }
  }

  lemma PostManager(ring: Ring, rows: seq<Row>, chain: seq<Grant>, me: string, m: Manager, request: Request)
    requires ring.Valid() && ManagerInv(ring, rows, chain, me, m) && m.stack == []
    requires WorldStep(rows, chain, Create(rows, request), chain)
    ensures ManagerInv(ring, Create(rows, request), chain, me,
              m.(view := m.view.(handles := m.view.handles[request.id := CreatedHandle(rows, request)])))
  {
    var rows' := Create(rows, request);
    OthersKeep(ring, rows, chain, rows', chain, me, m);
    var view' := m.view.(handles := m.view.handles[request.id := CreatedHandle(rows, request)]);
    assert Updates(rows', m.view, view', m.view.lastSequence);
    if Owns(m.view, me) { UpdateKeepsFresh(rows', m.view, view', m.view.lastSequence); }
  }

  lemma PostKeeps(ring: Ring, s: State, me: string, request: Request)
    requires ring.Valid() && Inv(ring, s) && Enabled(ring, s, By(me, Post(request)))
    ensures Inv(ring, Apply(ring, s, By(me, Post(request))))
  {
    hide ManagerInv, LedgerInv, WorldStep, LogOk;
    var s' := Apply(ring, s, By(me, Post(request)));
    AppendIsWorldStep(ring, s, request);
    PostManager(ring, s.rows, s.chain, me, s.managers[me], request);
    QuietLog(s, me, s');
    Assemble(ring, s, me, s');
  }

  /** Starting a loop over a new scan, at any of the three places that do. */
  predicate PushesLoop(m: Manager, stack': seq<Frame>, loop: Frame) {
    || (m.stack == [] && (stack' == [loop] || stack' == [ReleaseCommand, loop]))
    || (PhaseOf(m) == Some(Waiting) && stack' == m.stack + [loop])
  }

  lemma PushKeepsStack(
    ring: Ring, rows: seq<Row>, chain: seq<Grant>, me: string, m: Manager, stack': seq<Frame>, loop: Frame)
    requires CopiesOk(rows, m.view) && StackOk(ring, rows, chain, me, m)
    requires PushesLoop(m, stack', loop) && loop.Reconciling? && LoopOk(rows, chain, m.view, loop.pending, loop.asOf)
    ensures StackOk(ring, rows, chain, me, m.(stack := stack'))
  {
    hide LoopOk, PhaseOk, CopiesOk;
    if m.stack == [] {
      assert forall i :: 0 <= i < |stack'| ==> !IsTransfer(stack'[i]);
    } else {
      var t := |m.stack| - 1;
      assert IsTransfer(stack'[t]) && IsTransfer(m.stack[t]);
      assert forall i :: 0 <= i <= t ==> stack'[i] == m.stack[i];
    }
  }

  lemma PushKeepsOwner(rows: seq<Row>, m: Manager, stack': seq<Frame>, loop: Frame)
    requires CopiesOk(rows, m.view) && OwnerOk(rows, m)
    requires PushesLoop(m, stack', loop) && loop.Reconciling? && loop.asOf >= m.view.lastSequence
    ensures OwnerOk(rows, m.(stack := stack'))
  {
    hide Fresh, CopiesOk;
    assert forall i :: 0 <= i < |m.stack| && m.stack != [] ==> stack'[i] == m.stack[i];
  }

  lemma PushScanManager(
    ring: Ring, rows: seq<Row>, chain: seq<Grant>, chainRows: seq<nat>, me: string, m: Manager, stack': seq<Frame>)
    requires ring.Valid() && LedgerInv(ring, rows, chain, chainRows) && ManagerInv(ring, rows, chain, me, m)
    requires PushesLoop(m, stack', Reconciling(Snapshot(rows), |chain| - 1))
    ensures ManagerInv(ring, rows, chain, me, m.(stack := stack'))
    ensures !HasLeft(m) && !HasLeft(m.(stack := stack'))
  {
    var loop := Reconciling(Snapshot(rows), |chain| - 1);
    hide LoopOk, LedgerInv, StackOk, OwnerOk, CopiesOk, PositionOk, RecordsUpTo;
    ScanStartsLoop(ring, rows, chain, chainRows, m.view);
    PushKeepsStack(ring, rows, chain, me, m, stack', loop);
    ManagerBasics(ring, rows, chain, me, m);
    PushLeavesNothing(m, stack', loop);
    if Owns(m.view, me) { PushKeepsOwner(rows, m, stack', loop); }
  }

  lemma PushLeavesNothing(m: Manager, stack': seq<Frame>, loop: Frame)
    requires PushesLoop(m, stack', loop) && loop.Reconciling?
    ensures !HasLeft(m) && !IsPublished(m) && !HasLeft(m.(stack := stack')) && !IsPublished(m.(stack := stack'))
  {
  }

  lemma PushApplies(ring: Ring, s: State, me: string, step: Step) returns (stack': seq<Frame>)
    requires ring.Valid() && Enabled(ring, s, By(me, step)) && (step == Poll || step == Release || step == Rescan)
    ensures me in s.managers && PushesLoop(s.managers[me], stack', NewScan(s))
    ensures Apply(ring, s, By(me, step)) == Put(s, me, s.managers[me].(stack := stack'))
  {
    stack' := Apply(ring, s, By(me, step)).managers[me].stack;
  }

  lemma PushScanKeeps(ring: Ring, s: State, me: string, step: Step)
    requires ring.Valid() && Inv(ring, s) && Enabled(ring, s, By(me, step))
    requires step == Poll || step == Release || step == Rescan
    ensures Inv(ring, Apply(ring, s, By(me, step)))
  {
    hide Apply, Enabled, Inv, ManagerInv, LedgerInv, PushesLoop, HasLeft;
    var stack' := PushApplies(ring, s, me, step);
    ManagerOf(ring, s, me);
    PushScanManager(ring, s.rows, s.chain, s.chainRows, me, s.managers[me], stack');
    LocalStep(ring, s, me, s.managers[me].(stack := stack'));
  }

  lemma EndReconcileManager(ring: Ring, rows: seq<Row>, chain: seq<Grant>, me: string, m: Manager)
    requires ring.Valid() && ManagerInv(ring, rows, chain, me, m) && RecordsDone(m)
    ensures ManagerInv(ring, rows, chain, me, m.(stack := Below(m)))
    ensures HasLeft(m.(stack := Below(m))) <==> HasLeft(m)
  {
    hide LoopOk;
    PopKeepsTransfer(m);
  }

  lemma PopKeepsTransfer(m: Manager)
    requires m.stack != [] && m.stack[|m.stack| - 1].Reconciling? && Shape(m.stack)
    ensures HasTransfer(Below(m)) <==> HasTransfer(m.stack)
    ensures Shape(Below(m))
    ensures PhaseOf(m.(stack := Below(m))).Some? ==> PhaseOf(m.(stack := Below(m))).value == Waiting
  {
    if HasTransfer(m.stack) {
      var i :| 0 <= i < |m.stack| && IsTransfer(m.stack[i]);
      assert Below(m)[i] == m.stack[i];
    }
    if HasTransfer(Below(m)) {
      var i :| 0 <= i < |Below(m)| && IsTransfer(Below(m)[i]);
      assert m.stack[i] == Below(m)[i];
    }
  }

  lemma EndReconcileKeeps(ring: Ring, s: State, me: string)
    requires ring.Valid() && Inv(ring, s) && Enabled(ring, s, By(me, EndReconcile))
    ensures Inv(ring, Apply(ring, s, By(me, EndReconcile)))
  {
    hide ManagerInv, LedgerInv, LogOk;
    EndReconcileManager(ring, s.rows, s.chain, me, s.managers[me]);
    LocalStep(ring, s, me, s.managers[me].(stack := Below(s.managers[me])));
  }

  /** Entering `_transfer`: the guard is down whenever this point is reached,
      so the re-entry error is out of the question. */
  lemma StartManager(ring: Ring, rows: seq<Row>, chain: seq<Grant>, me: string, m: Manager)
    requires ring.Valid() && ManagerInv(ring, rows, chain, me, m)
    requires Owns(m.view, me) && !m.transferring
    requires m.stack == [ReleaseCommand] || (m.stack != [] && m.stack[|m.stack| - 1].Reconciling?)
    ensures ManagerInv(ring, rows, chain, me, StartTransfer(m, me))
    ensures !HasLeft(m) && !HasLeft(StartTransfer(m, me))
  {
    hide LoopOk;
    var m' := StartTransfer(m, me);
    assert IsTransfer(m'.stack[|m'.stack| - 1]);
    assert forall i :: 0 <= i < |m.stack| ==> !IsTransfer(m.stack[i]);
    assert forall i :: 0 <= i < |m.stack| ==> m'.stack[i] == m.stack[i];
  }

  lemma DropStackManager(ring: Ring, rows: seq<Row>, chain: seq<Grant>, me: string, m: Manager, failure: Failure)
    requires ring.Valid() && ManagerInv(ring, rows, chain, me, m) && !HasLeft(m)
    requires failure == NoFailure || failure == UnknownService
    ensures ManagerInv(ring, rows, chain, me, m.(stack := [], transferring := false, failure := failure))
    ensures !HasLeft(m.(stack := [], transferring := false, failure := failure))
  {
  }

  lemma ManagerBasics(ring: Ring, rows: seq<Row>, chain: seq<Grant>, me: string, m: Manager)
    requires ManagerInv(ring, rows, chain, me, m)
    ensures CopiesOk(rows, m.view) && -1 <= m.view.lastSequence < |chain|
    ensures m.failure != ProtocolError && m.failure != ReentryError
    ensures m.stack == [ReleaseCommand] ==> !m.transferring && !HasLeft(m)
  {
    if m.stack == [ReleaseCommand] {
      assert forall i :: 0 <= i < |m.stack| ==> !IsTransfer(m.stack[i]);
    }
  }

  /** A step that leaves the ledger alone and keeps the manager's position. */
  lemma LocalStep(ring: Ring, s: State, me: string, m': Manager)
    requires ring.Valid() && Inv(ring, s) && me in s.managers
    requires ManagerInv(ring, s.rows, s.chain, me, m')
    requires m'.view.lastSequence == s.managers[me].view.lastSequence
    requires HasLeft(m') <==> HasLeft(s.managers[me])
    ensures Inv(ring, Put(s, me, m'))
  {
    hide ManagerInv, LedgerInv, LogOk;
    QuietLog(s, me, Put(s, me, m'));
    Assemble(ring, s, me, Put(s, me, m'));
  }

  lemma BeginReleaseApplies(ring: Ring, s: State, me: string)
    requires ring.Valid() && Enabled(ring, s, By(me, BeginRelease))
    ensures me in s.managers && s.managers[me].stack == [ReleaseCommand] && s.managers[me].failure == NoFailure
    ensures
      var m := s.managers[me];
      Apply(ring, s, By(me, BeginRelease))
        == Put(s, me, if Owns(m.view, me) then StartTransfer(m, me) else m.(stack := []))
  {
  }

  lemma BeginReleaseKeeps(ring: Ring, s: State, me: string)
    requires ring.Valid() && Inv(ring, s) && Enabled(ring, s, By(me, BeginRelease))
    ensures Inv(ring, Apply(ring, s, By(me, BeginRelease)))
  {
    hide Apply, Enabled, Inv, ManagerInv, LedgerInv, HasLeft;
    BeginReleaseApplies(ring, s, me);
    var m := s.managers[me];
    ManagerOf(ring, s, me);
    ManagerBasics(ring, s.rows, s.chain, me, m);
    if Owns(m.view, me) {
      StartManager(ring, s.rows, s.chain, me, m);
      LocalStep(ring, s, me, StartTransfer(m, me));
    } else {
      DropStackManager(ring, s.rows, s.chain, me, m, NoFailure);
      assert m.(stack := [], transferring := false, failure := NoFailure) == m.(stack := []);
      LocalStep(ring, s, me, m.(stack := []));
    }
  }

  /** Leaving `_transfer` lowers the guard; nothing else is on the way out. */
  lemma EndManager(ring: Ring, rows: seq<Row>, chain: seq<Grant>, me: string, m: Manager)
    requires ring.Valid() && ManagerInv(ring, rows, chain, me, m)
    requires PhaseOf(m) == Some(Waiting)
    ensures ManagerInv(ring, rows, chain, me, EndTransfer(m))
    ensures !HasLeft(EndTransfer(m))
  {
    hide LoopOk;
    EndKeepsStack(ring, rows, chain, me, m);
    var m' := EndTransfer(m);
    assert forall i :: 0 <= i < |m'.stack| ==> m'.stack[i] == m.stack[i];
  }

  lemma EndKeepsStack(ring: Ring, rows: seq<Row>, chain: seq<Grant>, me: string, m: Manager)
    requires CopiesOk(rows, m.view) && StackOk(ring, rows, chain, me, m)
    requires PhaseOf(m).Some?
    ensures StackOk(ring, rows, chain, me, EndTransfer(m))
    ensures !HasTransfer(EndTransfer(m).stack) && PhaseOf(EndTransfer(m)).None?
  {
    hide LoopOk;
    var m' := EndTransfer(m);
    assert forall i :: 0 <= i < |m'.stack| ==> m'.stack[i] == m.stack[i] && !IsTransfer(m'.stack[i]);
  }

  lemma GiveUpKeeps(ring: Ring, s: State, me: string)
    requires ring.Valid() && Inv(ring, s) && Enabled(ring, s, By(me, GiveUp))
    ensures Inv(ring, Apply(ring, s, By(me, GiveUp)))
  {
    hide ManagerInv, LedgerInv, LogOk;
    EndManager(ring, s.rows, s.chain, me, s.managers[me]);
    LocalStep(ring, s, me, EndTransfer(s.managers[me]));
  }

  lemma SelectionFailsKeeps(ring: Ring, s: State, me: string)
    requires ring.Valid() && Inv(ring, s) && Enabled(ring, s, By(me, SelectionFails))
    ensures Inv(ring, Apply(ring, s, By(me, SelectionFails)))
  {
    hide ManagerInv, LedgerInv, LogOk;
    var s' := Apply(ring, s, By(me, SelectionFails));
    DropStackManager(ring, s.rows, s.chain, me, s.managers[me], s'.managers[me].failure);
    LocalStep(ring, s, me, s'.managers[me]);
  }

  // ---- selection ------------------------------------------------------------

  /** A copy of a row nobody has granted yet. */
  lemma AddedCopy(rows: seq<Row>, view: View, handle: Handle)
    requires CopiesOk(rows, view) && handle.row < |rows| && rows[handle.row] == Row(handle.request, Open, None)
    requires handle.grant.None?
    ensures
      var id := handle.request.id;
      var view' := view.(handles := view.handles[id := handle], records := view.records[id := Record(handle, Open, None)]);
      && CopiesOk(rows, view')
      && (forall bound :: Updates(rows, view, view', bound))
      && (forall bound :: RecordsUpTo(view, bound) ==> RecordsUpTo(view', bound))
  {
  }

  /** Posting a fallback request on a member's behalf. */
  lemma EnsureKeeps(ring: Ring, s: State, view: View, service: string, now: int)
    requires ring.Valid() && LedgerInv(ring, s.rows, s.chain, s.chainRows)
    requires CopiesOk(s.rows, view) && view.lastSequence >= -1
    requires EnsureFallback(ring, view, s.rows, service, now).Ok?
    ensures
      var (view', rows') := EnsureFallback(ring, view, s.rows, service, now).value;
      && WorldStep(s.rows, s.chain, rows', s.chain) && LedgerInv(ring, rows', s.chain, s.chainRows)
      && CopiesOk(rows', view) && CopiesOk(rows', view')
      && (forall bound :: Updates(rows', view, view', bound))
      && view' == view.(records := view'.records, handles := view'.handles)
      && (forall bound :: RecordsUpTo(view, bound) ==> RecordsUpTo(view', bound))
  {
    if !HasFallbackFrom(view, service) {
      var request := FallbackRequestFor(ring, service, view.lastSequence + 1, now);
      AppendIsWorldStep(ring, s, request);
      CopiesSurvive(s.rows, s.chain, Create(s.rows, request), s.chain, view);
      AddedCopy(Create(s.rows, request), view, CreatedHandle(s.rows, request));
      hide LedgerInv, WorldStep, CopiesOk, Updates, RecordsUpTo, HasFallbackFrom;
    } else {
      NothingMoves(ring, s.rows, s.chain, view);
      hide LedgerInv, WorldStep, CopiesOk, Updates, RecordsUpTo, HasFallbackFrom;
    }
  }

  /** A new view that keeps the position, after the ledger moved. */
  lemma UpdateManager(ring: Ring, rows: seq<Row>, chain: seq<Grant>, me: string, m: Manager, view': View)
    requires ring.Valid() && ManagerInv(ring, rows, chain, me, m)
    requires CopiesOk(rows, view') && (forall bound :: Updates(rows, m.view, view', bound))
    requires view' == m.view.(records := view'.records, handles := view'.handles)
    requires forall bound :: RecordsUpTo(m.view, bound) ==> RecordsUpTo(view', bound)
    ensures ManagerInv(ring, rows, chain, me, m.(view := view'))
  {
    hide StackOk, LoopOk, Fresh, CopiesOk, Updates, RecordsUpTo, HasTransfer;
    LoopsAreBounded(ring, rows, chain, me, m);
    assert Updates(rows, m.view, view', |chain|);
    UpdateKeepsStack(ring, rows, chain, me, m, view', |chain|);
    if Owns(m.view, me) && !IsPublished(m) {
      assert Updates(rows, m.view, view', m.view.lastSequence);
      UpdateKeepsFresh(rows, m.view, view', m.view.lastSequence);
    }
  }

  /** Moving the innermost transfer on to its next phase. */
  lemma SettleManager(
    ring: Ring, rows: seq<Row>, chain: seq<Grant>, me: string, m: Manager, phase: Phase, resident: bool)
    requires ring.Valid() && ManagerInv(ring, rows, chain, me, m)
    requires PhaseOf(m).Some? && !IsPublished(m) && !phase.Published?
    requires PhaseOk(ring, rows, chain, me, m.view, phase)
    requires resident <==> phase.Waiting? || phase.Chosen?
    ensures ManagerInv(ring, rows, chain, me, SetTop(m, Transferring(phase)).(resident := resident))
    ensures PhaseOf(SetTop(m, Transferring(phase)).(resident := resident)) == Some(phase)
  {
    hide StackOk, LoopOk, CopiesOk, Fresh, PhaseOk, RecordsUpTo, HasTransfer;
    var m' := SetTop(m, Transferring(phase)).(resident := resident);
    var t := |m.stack| - 1;
    SettleKeepsStack(ring, rows, chain, me, m, phase);
    NewsStack(ring, rows, chain, me, SetTop(m, Transferring(phase)), resident);
    HoldsItsTransfer(ring, rows, chain, me, m);
    assert forall i :: 0 <= i < t ==> m'.stack[i] == m.stack[i];
  }

  lemma HoldsItsTransfer(ring: Ring, rows: seq<Row>, chain: seq<Grant>, me: string, m: Manager)
    requires CopiesOk(rows, m.view) && StackOk(ring, rows, chain, me, m) && PhaseOf(m).Some?
    ensures Owns(m.view, me)
  {
    hide LoopOk, PhaseOk, CopiesOk;
    assert IsTransfer(m.stack[|m.stack| - 1]);
  }

  lemma ChooseManager(ring: Ring, rows: seq<Row>, chain: seq<Grant>, me: string, m: Manager, id: string)
    requires ring.Valid() && ManagerInv(ring, rows, chain, me, m)
    requires PhaseOf(m) == Some(Waiting) && Owns(m.view, me) && IsCandidate(m.view, me, id)
    ensures ManagerInv(ring, rows, chain, me, SetTop(m, Transferring(Chosen(m.view.records[id]))))
    ensures !HasLeft(SetTop(m, Transferring(Chosen(m.view.records[id]))))
  {
    assert m.resident;
    assert PhaseOk(ring, rows, chain, me, m.view, Chosen(m.view.records[id]));
    SettleManager(ring, rows, chain, me, m, Chosen(m.view.records[id]), true);
    assert SetTop(m, Transferring(Chosen(m.view.records[id]))).(resident := true)
        == SetTop(m, Transferring(Chosen(m.view.records[id])));
  }

  lemma NothingMoves(ring: Ring, rows: seq<Row>, chain: seq<Grant>, view: View)
    requires CopiesOk(rows, view)
    ensures WorldStep(rows, chain, rows, chain)
    ensures forall bound :: Updates(rows, view, view, bound)
  {
  }

  /** The view and ledger the selector ends up with are consistent. */
  lemma BaseKeeps(ring: Ring, s: State, me: string, now: int)
    requires ring.Valid() && Inv(ring, s) && me in s.managers && s.managers[me].view.lastSequence >= -1
    requires SelectionBase(ring, s, me, now).Ok?
    ensures
      var (view, rows) := SelectionBase(ring, s, me, now).value;
      && WorldStep(s.rows, s.chain, rows, s.chain) && LedgerInv(ring, rows, s.chain, s.chainRows)
      && ManagerInv(ring, rows, s.chain, me, s.managers[me].(view := view))
      && view == s.managers[me].view.(records := view.records, handles := view.handles)
  {
    var m := s.managers[me];
    var (view, rows) := SelectionBase(ring, s, me, now).value;
    hide ManagerInv, LedgerInv, LogOk;
    ManagerBasics(ring, s.rows, s.chain, me, m);
    hide CopiesOk, Updates, RecordsUpTo;
    if Synthesises(m.view, me) {
      EnsureKeeps(ring, s, m.view, m.view.grant.value.source, now);
    } else {
      NothingMoves(ring, s.rows, s.chain, m.view);
    }
    hide WorldStep;
    OthersKeep(ring, s.rows, s.chain, rows, s.chain, me, m);
    UpdateManager(ring, rows, s.chain, me, m, view);
  }

  lemma ChooseSettles(ring: Ring, s: State, me: string, id: string, now: int)
    requires ring.Valid() && Enabled(ring, s, By(me, Choose(id, now)))
    ensures SelectionBase(ring, s, me, now).Ok?
    ensures
      var m := s.managers[me];
      var (view, rows) := SelectionBase(ring, s, me, now).value;
      && IsCandidate(view, me, id)
      && PhaseOf(m) == Some(Waiting) && Owns(m.view, me)
      && Apply(ring, s, By(me, Choose(id, now)))
         == Put(s, me, SetTop(m.(view := view), Transferring(Chosen(view.records[id])))).(rows := rows)
  {
    hide IsCandidate, SelectionBase;
  }

  lemma ChooseKeeps(ring: Ring, s: State, me: string, id: string, now: int)
    requires ring.Valid() && Inv(ring, s) && Enabled(ring, s, By(me, Choose(id, now)))
    ensures Inv(ring, Apply(ring, s, By(me, Choose(id, now))))
  {
    ChooseSettles(ring, s, me, id, now);
    var m := s.managers[me];
    var (view, rows) := SelectionBase(ring, s, me, now).value;
    hide Apply, CanStep, Inv, SelectionBase, IsCandidate, ManagerInv, LedgerInv, LogOk, WorldStep;
    BaseKeeps(ring, s, me, now);
    var m1 := m.(view := view);
    ChooseManager(ring, rows, s.chain, me, m1, id);
    MoveStep(ring, s, me, SetTop(m1, Transferring(Chosen(view.records[id]))), rows);
  }

  /** A step that also moves the ledger, but issues no link. */
  lemma MoveStep(ring: Ring, s: State, me: string, m': Manager, rows': seq<Row>)
    requires ring.Valid() && Inv(ring, s) && me in s.managers
    requires WorldStep(s.rows, s.chain, rows', s.chain) && LedgerInv(ring, rows', s.chain, s.chainRows)
    requires ManagerInv(ring, rows', s.chain, me, m')
    requires m'.view.lastSequence == s.managers[me].view.lastSequence
    requires HasLeft(m') <==> HasLeft(s.managers[me])
    ensures Inv(ring, Put(s, me, m').(rows := rows'))
  {
    hide ManagerInv, LedgerInv, LogOk, WorldStep;
    var s' := Put(s, me, m').(rows := rows');
    GenesisSurvives(ring, s.rows, s.chain, rows', s.chain, s.genesis);
    QuietLog(s, me, s');
    Assemble(ring, s, me, s');
  }

  lemma GenesisSurvives(
    ring: Ring, rows: seq<Row>, chain: seq<Grant>, rows': seq<Row>, chain': seq<Grant>, genesis: Option<nat>)
    requires ring.Valid() && GenesisOk(ring, rows, genesis) && WorldStep(rows, chain, rows', chain')
    ensures GenesisOk(ring, rows', genesis)
  {
  }

  // ---- the hand-over -----------------------------------------------------------

  /** In the phases that follow selection the card is the manager's own. */
  lemma HoldsCurrent(ring: Ring, rows: seq<Row>, chain: seq<Grant>, me: string, m: Manager)
    requires ring.Valid() && Linked(ring, chain) && ManagerInv(ring, rows, chain, me, m)
    requires PhaseOf(m).Some? && !PhaseOf(m).value.Published?
    ensures Owns(m.view, me) && m.view.lastSequence == |chain| - 1 >= 0
    ensures chain[|chain| - 1].target == me
    ensures CopiesOk(rows, m.view) && Fresh(rows, m.view, |chain| - 1)
    ensures PhaseOk(ring, rows, chain, me, m.view, PhaseOf(m).value)
    ensures m.resident <==> !HasLeft(m)
  {
    assert IsTransfer(m.stack[|m.stack| - 1]);
    OwnerIsCurrent(ring, rows, chain, me, m);
  }

  lemma VacateApplies(ring: Ring, s: State, me: string) returns (record: Record)
    requires ring.Valid() && Enabled(ring, s, By(me, Vacate))
    ensures me in s.managers && PhaseOf(s.managers[me]) == Some(Chosen(record))
    ensures Apply(ring, s, By(me, Vacate))
         == Put(s, me, SetTop(s.managers[me], Transferring(Vacated(record))).(resident := false))
            .(log := s.log + [ReleasedBy(me)])
  {
    record := PhaseOf(s.managers[me]).value.record;
  }

  /** Leaving the card adds the release that answers the newest acquire. */
  lemma VacateLog(s: State, me: string, m': Manager)
    requires s.chain != [] && s.chain[|s.chain| - 1].target == me && me in s.managers && LogOk(s)
    requires !HasLeft(s.managers[me]) && HasLeft(m')
    requires m'.view.lastSequence == s.managers[me].view.lastSequence == |s.chain| - 1
    ensures LogOk(Put(s, me, m').(log := s.log + [ReleasedBy(me)]))
  {
    var k := |s.chain| - 1;
    assert |s.log| == 2 * k + 1;
  }

  lemma VacateKeeps(ring: Ring, s: State, me: string)
    requires ring.Valid() && Inv(ring, s) && Enabled(ring, s, By(me, Vacate))
    ensures Inv(ring, Apply(ring, s, By(me, Vacate)))
    ensures s.managers[me].resident
  {
    hide Apply, Enabled, ManagerInv, LedgerInv, PhaseOk, LogOk, SetTop;
    var record := VacateApplies(ring, s, me);
    ManagerOf(ring, s, me);
    var m := s.managers[me];
    HoldsCurrent(ring, s.rows, s.chain, me, m);
    PhaseCarries(ring, s.rows, s.chain, me, m.view, Chosen(record), Vacated(record));
    SettleManager(ring, s.rows, s.chain, me, m, Vacated(record), false);
    hide CopiesOk, Fresh;
    var m' := SetTop(m, Transferring(Vacated(record))).(resident := false);
    SetTopKeepsView(m, Transferring(Vacated(record)));
    VacateLog(s, me, m');
    NothingMoves(ring, s.rows, s.chain, m.view);
    Assemble(ring, s, me, Put(s, me, m').(log := s.log + [ReleasedBy(me)]));
  }

  lemma SetTopKeepsView(m: Manager, frame: Frame)
    requires m.stack != []
    ensures SetTop(m, frame).view == m.view
  {
  }

  /** The phases between selection and publication ask for the same things. */
  lemma PhaseCarries(
    ring: Ring, rows: seq<Row>, chain: seq<Grant>, me: string, view: View, before: Phase, after: Phase)
    requires !before.Waiting? && !before.Published? && !after.Waiting? && !after.Published?
    requires before.record == after.record && PhaseOk(ring, rows, chain, me, view, before)
    ensures PhaseOk(ring, rows, chain, me, view, after)
  {
  }

  lemma CloseOwnKeeps(ring: Ring, s: State, me: string)
    requires ring.Valid() && Inv(ring, s) && Enabled(ring, s, By(me, CloseOwn))
    ensures Inv(ring, Apply(ring, s, By(me, CloseOwn)))
  {
    hide ManagerInv, PhaseOk;
    var s' := Apply(ring, s, By(me, CloseOwn));
    var m := s.managers[me];
    var phase := SelfClosed(PhaseOf(m).value.record);
    HoldsCurrent(ring, s.rows, s.chain, me, m);
    CloseIsWorldStep(ring, s, m.view);
    assert GenesisOk(ring, s'.rows, s'.genesis);
    OthersKeep(ring, s.rows, s.chain, s'.rows, s.chain, me, m);
    hide LedgerInv, CopiesOk, Fresh, WorldStep;
    HoldsCurrent(ring, s'.rows, s.chain, me, m);
    PhaseCarries(ring, s'.rows, s.chain, me, m.view, PhaseOf(m).value, phase);
    SettleManager(ring, s'.rows, s.chain, me, m, phase, false);
    assert !m.resident;
    QuietLog(s, me, s');
    Assemble(ring, s, me, s');
  }

  /** The owner's handles have missed nothing, so closing through one writes
      back exactly the grant the row already carries. */
  lemma CloseIsWorldStep(ring: Ring, s: State, view: View)
    requires ring.Valid() && LedgerInv(ring, s.rows, s.chain, s.chainRows)
    requires CopiesOk(s.rows, view) && Fresh(s.rows, view, |s.chain| - 1)
    requires forall row: nat :: OwnHandle(view, row) ==> row < |s.rows|
    ensures WorldStep(s.rows, s.chain, CloseGranted(s.rows, view), s.chain)
    ensures LedgerInv(ring, CloseGranted(s.rows, view), s.chain, s.chainRows)
  {
    if view.grant.Some? && view.grant.value.requestId in view.handles {
      var handle := view.handles[view.grant.value.requestId];
      assert !Missing(s.rows, handle, |s.chain| - 1);
      assert handle.grant == s.rows[handle.row].grant;
      forall k | 0 <= k < |s.chain| ensures GrantedAt(CloseGranted(s.rows, view), s.chainRows[k], s.chain[k]) {
        assert GrantedAt(s.rows, s.chainRows[k], s.chain[k]);
      }
    }
  }

  lemma PublishWorld(ring: Ring, s: State, me: string, record: Record, grant: Grant)
    requires ring.Valid() && LedgerInv(ring, s.rows, s.chain, s.chainRows)
    requires RecordOk(s.rows, record) && record.grant.None? && !Missing(s.rows, record.handle, |s.chain| - 1)
    requires |s.chain| > 0 && s.chain[|s.chain| - 1].target == me
    requires grant == Grant(|s.chain|, me, record.handle.request.service, record.Id())
    ensures s.rows[record.handle.row].grant.None?
    ensures WorldStep(s.rows, s.chain, GrantRow(s.rows, record.handle, grant), s.chain + [grant])
    ensures LedgerInv(ring, GrantRow(s.rows, record.handle, grant), s.chain + [grant], s.chainRows + [record.handle.row])
    ensures ring.Member(grant.target)
  {
    hide WellPosted;
    var rows', chain', chainRows' :=
      GrantRow(s.rows, record.handle, grant), s.chain + [grant], s.chainRows + [record.handle.row];
    assert forall i :: 0 <= i < |s.rows| && i != record.handle.row ==> rows'[i] == s.rows[i];
    assert forall k :: 0 <= k < |s.chain| ==> chain'[k] == s.chain[k] && chainRows'[k] == s.chainRows[k];
    forall k | 0 <= k < |chain'| ensures GrantedAt(rows', chainRows'[k], chain'[k]) {
      if k < |s.chain| {
        assert GrantedAt(s.rows, s.chainRows[k], s.chain[k]);
      }
    }
    assert WellPosted(ring, record.handle.request);
    IsOnTheRing(ring, record.handle.request);
  }

  lemma IsOnTheRing(ring: Ring, request: Request)
    requires WellPosted(ring, request)
    ensures ring.Member(request.service)
  {
  }

  /** The owner's copy of the row it grants changes with the row. */
  lemma MarkKeepsView(rows: seq<Row>, rows': seq<Row>, view: View, record: Record, grant: Grant)
    requires CopiesOk(rows', view) && RecordOk(rows', record) && record.handle.row < |rows|
    requires rows' == GrantRow(rows, record.handle, grant)
    ensures CopiesOk(rows', MarkGranted(view, record, grant))
    ensures forall bound :: Updates(rows', view, MarkGranted(view, record, grant), bound)
    ensures forall bound :: RecordsUpTo(view, bound) && grant.sequence <= bound + 1
              ==> RecordsUpTo(MarkGranted(view, record, grant), bound + 1)
  {
  }

  lemma SettleKeepsStack(ring: Ring, rows: seq<Row>, chain: seq<Grant>, me: string, m: Manager, phase: Phase)
    requires CopiesOk(rows, m.view) && StackOk(ring, rows, chain, me, m) && PhaseOf(m).Some?
    requires PhaseOk(ring, rows, chain, me, m.view, phase)
    ensures StackOk(ring, rows, chain, me, SetTop(m, Transferring(phase)))
    ensures PhaseOf(SetTop(m, Transferring(phase))) == Some(phase)
  {
    hide LoopOk;
    var m' := SetTop(m, Transferring(phase));
    var t := |m.stack| - 1;
    assert IsTransfer(m.stack[t]) && IsTransfer(m'.stack[t]);
    assert forall i :: 0 <= i < t ==> m'.stack[i] == m.stack[i];
  }

  lemma PublishStack(
    ring: Ring, rows: seq<Row>, chain: seq<Grant>, rows': seq<Row>, chain': seq<Grant>,
    me: string, m: Manager, record: Record, grant: Grant)
    requires CopiesOk(rows, m.view) && StackOk(ring, rows, chain, me, m)
    requires PhaseOf(m) == Some(SelfClosed(record)) && m.view.lastSequence == |chain| - 1 >= 0
    requires chain' == chain + [grant] && grant == NextGrant(me, m.view, record)
    requires record.handle.row < |rows| && rows' == GrantRow(rows, record.handle, grant)
    requires WorldStep(rows, chain, rows', chain')
    ensures CopiesOk(rows', MarkGranted(m.view, record, grant))
    ensures forall bound :: RecordsUpTo(m.view, bound) && grant.sequence <= bound + 1
              ==> RecordsUpTo(MarkGranted(m.view, record, grant), bound + 1)
    ensures StackOk(ring, rows', chain', me,
              SetTop(m.(view := MarkGranted(m.view, record, grant)), Transferring(Published(record, grant))))
  {
    hide StackOk, LoopOk, WorldStep, CopiesOk, Updates, RecordsUpTo, HasTransfer, RecordOk;
    var view' := MarkGranted(m.view, record, grant);
    StackSurvives(ring, rows, chain, rows', chain', me, m);
    TopPhase(ring, rows', chain', me, m);
    MarkKeepsView(rows, rows', m.view, record, grant);
    LoopsAreBounded(ring, rows', chain', me, m);
    assert Updates(rows', m.view, view', |chain'|);
    UpdateKeepsStack(ring, rows', chain', me, m, view', |chain'|);
    SettleKeepsStack(ring, rows', chain', me, m.(view := view'), Published(record, grant));
  }

  lemma TopPhase(ring: Ring, rows: seq<Row>, chain: seq<Grant>, me: string, m: Manager)
    requires CopiesOk(rows, m.view) && StackOk(ring, rows, chain, me, m) && PhaseOf(m).Some?
    ensures PhaseOk(ring, rows, chain, me, m.view, PhaseOf(m).value)
  {
    hide LoopOk, PhaseOk, CopiesOk;
  }

  lemma LoopsAreBounded(ring: Ring, rows: seq<Row>, chain: seq<Grant>, me: string, m: Manager)
    requires CopiesOk(rows, m.view) && StackOk(ring, rows, chain, me, m)
    ensures forall i :: 0 <= i < |m.stack| && m.stack[i].Reconciling? ==> m.stack[i].asOf <= |chain|
  {
    forall i | 0 <= i < |m.stack| && m.stack[i].Reconciling? ensures m.stack[i].asOf <= |chain| {
      assert LoopOk(rows, chain, m.view, m.stack[i].pending, m.stack[i].asOf);
    }
  }

  lemma PublishManager(
    ring: Ring, rows: seq<Row>, chain: seq<Grant>, rows': seq<Row>, chain': seq<Grant>,
    me: string, m: Manager, record: Record, grant: Grant)
    requires ring.Valid() && ManagerInv(ring, rows, chain, me, m)
    requires PhaseOf(m) == Some(SelfClosed(record)) && m.view.lastSequence == |chain| - 1 >= 0
    requires Owns(m.view, me) && !m.resident
    requires chain' == chain + [grant] && grant == NextGrant(me, m.view, record)
    requires record.handle.row < |rows| && rows' == GrantRow(rows, record.handle, grant)
    requires WorldStep(rows, chain, rows', chain')
    ensures ManagerInv(ring, rows', chain', me,
              SetTop(m.(view := MarkGranted(m.view, record, grant)), Transferring(Published(record, grant))))
  {
    var m' := SetTop(m.(view := MarkGranted(m.view, record, grant)), Transferring(Published(record, grant)));
    PublishStack(ring, rows, chain, rows', chain', me, m, record, grant);
    hide StackOk, CopiesOk, RecordsUpTo, WorldStep;
    assert IsPublished(m') && HasLeft(m');
  }

  /** When a link is published every earlier one has been acquired and released. */
  lemma LogBeforePublish(ring: Ring, s: State, me: string)
    requires ring.Valid() && Inv(ring, s) && me in s.managers && PhaseOf(s.managers[me]).Some?
    requires PhaseOf(s.managers[me]).value.SelfClosed?
    ensures |s.log| == 2 * |s.chain|
  {
    hide ManagerInv;
    HoldsCurrent(ring, s.rows, s.chain, me, s.managers[me]);
  }

  lemma LogAfterPublish(s: State, s': State, me: string, grant: Grant)
    requires s.chain != [] ==> s.chain[|s.chain| - 1].target in s.managers
    requires LogOk(s) && |s.log| == 2 * |s.chain| && s'.log == s.log && s'.chain == s.chain + [grant]
    requires grant.target in s.managers && grant.target != me && me in s'.managers
    requires s'.managers == s.managers[me := s'.managers[me]]
    requires s.managers[grant.target].view.lastSequence < |s.chain|
    ensures grant.target in s'.managers && LogOk(s')
  {
  }

  lemma PublishApplies(ring: Ring, s: State, me: string) returns (record: Record)
    requires ring.Valid() && Enabled(ring, s, By(me, Publish))
    ensures me in s.managers && PhaseOf(s.managers[me]) == Some(SelfClosed(record)) && record.handle.row < |s.rows|
    ensures
      var m := s.managers[me];
      var grant := NextGrant(me, m.view, record);
      && Apply(ring, s, By(me, Publish))
         == Put(s, me, SetTop(m.(view := MarkGranted(m.view, record, grant)), Transferring(Published(record, grant))))
            .(rows := GrantRow(s.rows, record.handle, grant),
              chain := s.chain + [grant], chainRows := s.chainRows + [record.handle.row])
  {
    record := PhaseOf(s.managers[me]).value.record;
  }

  /** Everything the published link relies on. */
  lemma PublishParts(ring: Ring, s: State, me: string, record: Record)
    requires ring.Valid() && Inv(ring, s) && me in s.managers
    requires PhaseOf(s.managers[me]) == Some(SelfClosed(record)) && record.handle.row < |s.rows|
    ensures
      var m := s.managers[me];
      var grant := NextGrant(me, m.view, record);
      var rows' := GrantRow(s.rows, record.handle, grant);
      && WorldStep(s.rows, s.chain, rows', s.chain + [grant])
      && LedgerInv(ring, rows', s.chain + [grant], s.chainRows + [record.handle.row])
      && ManagerInv(ring, rows', s.chain + [grant], me,
           SetTop(m.(view := MarkGranted(m.view, record, grant)), Transferring(Published(record, grant))))
      && |s.chain| > 0 && grant.source == me && ring.Member(grant.target) && grant.target != me
      && s.managers[grant.target].view.lastSequence < |s.chain|
  {
    var m := s.managers[me];
    var grant := NextGrant(me, m.view, record);
    hide ManagerInv, LogOk, MarkGranted;
    HoldsCurrent(ring, s.rows, s.chain, me, m);
    assert RecordOk(s.rows, record) && record.grant.None? && !Missing(s.rows, record.handle, |s.chain| - 1)
        && grant.target != me;
    hide PhaseOk, CopiesOk, Fresh, RecordOk;
    PublishWorld(ring, s, me, record, grant);
    hide LedgerInv, WorldStep;
    PublishManager(ring, s.rows, s.chain, GrantRow(s.rows, record.handle, grant), s.chain + [grant],
                   me, m, record, grant);
    ManagerBasics(ring, s.rows, s.chain, grant.target, s.managers[grant.target]);
  }

  /** A step that issues one link. */
  lemma LinkStep(ring: Ring, s: State, me: string, m': Manager, rows': seq<Row>, grant: Grant, row: nat)
    requires ring.Valid() && Inv(ring, s) && me in s.managers && |s.log| == 2 * |s.chain| > 0
    requires WorldStep(s.rows, s.chain, rows', s.chain + [grant])
    requires LedgerInv(ring, rows', s.chain + [grant], s.chainRows + [row])
    requires ManagerInv(ring, rows', s.chain + [grant], me, m')
    requires grant.source == me && ring.Member(grant.target) && grant.target != me
    requires s.managers[grant.target].view.lastSequence < |s.chain|
    ensures Inv(ring, Put(s, me, m').(rows := rows', chain := s.chain + [grant], chainRows := s.chainRows + [row]))
  {
    hide ManagerInv, LedgerInv, WorldStep, LogOk;
    var s' := Put(s, me, m').(rows := rows', chain := s.chain + [grant], chainRows := s.chainRows + [row]);
    GenesisSurvives(ring, s.rows, s.chain, rows', s'.chain, s.genesis);
    LogAfterPublish(s, s', me, grant);
    Assemble(ring, s, me, s');
  }

  lemma PublishKeeps(ring: Ring, s: State, me: string)
    requires ring.Valid() && Inv(ring, s) && Enabled(ring, s, By(me, Publish))
    ensures Inv(ring, Apply(ring, s, By(me, Publish)))
  {
    hide Inv, ManagerInv, LedgerInv, WorldStep, MarkGranted, Enabled, Apply, NextGrant;
    var record := PublishApplies(ring, s, me);
    var m := s.managers[me];
    var grant := NextGrant(me, m.view, record);
    LogBeforePublish(ring, s, me);
    PublishParts(ring, s, me, record);
    LinkStep(ring, s, me,
             SetTop(m.(view := MarkGranted(m.view, record, grant)), Transferring(Published(record, grant))),
             GrantRow(s.rows, record.handle, grant), grant, record.handle.row);
  }

  lemma AdoptManager(ring: Ring, rows: seq<Row>, chain: seq<Grant>, me: string, m: Manager)
    requires ring.Valid() && Linked(ring, chain) && ManagerInv(ring, rows, chain, me, m) && IsPublished(m)
    ensures -1 <= m.view.lastSequence && m.view.lastSequence + 1 < |chain|
    ensures chain[m.view.lastSequence + 1].target != me
    ensures
      var applied := ApplyGrant(ring, me, m.view, PhaseOf(m).value.next);
      && applied.Advanced? && !applied.acquire
      && applied.view.lastSequence == m.view.lastSequence + 1
      && ManagerInv(ring, rows, chain, me, EndTransfer(m.(view := applied.view)))
  {
    var t := |m.stack| - 1;
    assert IsTransfer(m.stack[t]);
    assert PhaseOk(ring, rows, chain, me, m.view, m.stack[t].phase);
    var applied := ApplyGrant(ring, me, m.view, PhaseOf(m).value.next);
    var m' := EndTransfer(m.(view := applied.view));
    EndKeepsStack(ring, rows, chain, me, m);
    assert EndTransfer(m).(view := applied.view) == m';
    UpdateKeepsStack(ring, rows, chain, me, EndTransfer(m), applied.view, |chain|);
    hide LoopOk, StackOk;
  }

  lemma AdoptApplies(ring: Ring, s: State, me: string)
    requires ring.Valid() && Enabled(ring, s, By(me, Adopt))
    ensures me in s.managers && IsPublished(s.managers[me])
    ensures
      var m := s.managers[me];
      var applied := ApplyGrant(ring, me, m.view, PhaseOf(m).value.next);
      applied.Advanced? && !applied.acquire ==>
        Apply(ring, s, By(me, Adopt)) == Put(s, me, EndTransfer(m.(view := applied.view)))
  {
    hide ApplyGrant;
  }

  /** Applying somebody else's link moves no callback. */
  lemma AdoptLog(s: State, me: string, m': Manager)
    requires me in s.managers && (s.chain != [] ==> s.chain[|s.chain| - 1].target in s.managers) && LogOk(s)
    requires 0 <= m'.view.lastSequence == s.managers[me].view.lastSequence + 1 < |s.chain|
    requires s.chain[m'.view.lastSequence].target != me
    ensures LogOk(Put(s, me, m'))
  {
    assert Progress(Put(s, me, m')) == Progress(s);
  }

  lemma AdoptKeeps(ring: Ring, s: State, me: string)
    requires ring.Valid() && Inv(ring, s) && Enabled(ring, s, By(me, Adopt))
    ensures Inv(ring, Apply(ring, s, By(me, Adopt)))
  {
    hide Apply, Enabled, ManagerInv, LedgerInv, ApplyGrant, LogOk;
    AdoptApplies(ring, s, me);
    ManagerOf(ring, s, me);
    var m := s.managers[me];
    AdoptManager(ring, s.rows, s.chain, me, m);
    var m' := EndTransfer(m.(view := ApplyGrant(ring, me, m.view, PhaseOf(m).value.next).view));
    AdoptLog(s, me, m');
    QuietStep(ring, s, me, m');
  }

  /** A step of one manager that leaves the ledger and the log alone. */
  lemma QuietStep(ring: Ring, s: State, me: string, m': Manager)
    requires me in s.managers && (s.chain != [] ==> s.chain[|s.chain| - 1].target in s.managers)
    requires LogOk(Put(s, me, m')) && ManagerInv(ring, s.rows, s.chain, me, m')
    requires ring.Valid() && Inv(ring, s)
    ensures Inv(ring, Put(s, me, m'))
  {
    hide ManagerInv, LedgerInv, LogOk;
    Assemble(ring, s, me, Put(s, me, m'));
  }

  // ---- one record of a scan ----------------------------------------------------

  /** A record that brings no news is simply stored. */
  lemma TakeManager(ring: Ring, rows: seq<Row>, chain: seq<Grant>, me: string, m: Manager)
    requires ring.Valid() && Linked(ring, chain) && ManagerInv(ring, rows, chain, me, m) && RecordWaiting(m)
    requires
      var head := m.stack[|m.stack| - 1].pending[0];
      head.grant.Some? ==> head.grant.value.sequence <= m.view.lastSequence
    ensures ManagerInv(ring, rows, chain, me, Taken(m))
    ensures !HasLeft(m) && !HasLeft(Taken(m))
  {
    hide StackOk, CopiesOk, Fresh, Updates, LoopOk, RecordsUpTo, OwnerOk, Linked, IssuedOk, HasTransfer;
    var view' := TakeRecord(m.view, m.stack[|m.stack| - 1].pending[0]);
    LowerLoops(ring, rows, chain, me, m);
    TakeStack(ring, rows, chain, me, m, view');
    assert Taken(m).(view := view') == Taken(m);
    if Owns(m.view, me) && !IsPublished(m) { TakenOwner(rows, m, view'); }
    PositionMatters(chain, me, m, Taken(m));
  }

  lemma PositionMatters(chain: seq<Grant>, me: string, m: Manager, m': Manager)
    requires IssuedOk(chain, me, m) && IsPublished(m) == IsPublished(m') && m.view.lastSequence == m'.view.lastSequence
    ensures IssuedOk(chain, me, m')
  {
  }

  lemma TakenOwner(rows: seq<Row>, m: Manager, view': View)
    requires CopiesOk(rows, m.view) && OwnerOk(rows, m) && RecordWaiting(m)
    requires view' == TakeRecord(m.view, m.stack[|m.stack| - 1].pending[0]) && CopiesOk(rows, view')
    requires forall bound :: bound <= m.stack[|m.stack| - 1].asOf ==> Updates(rows, m.view, view', bound)
    ensures OwnerOk(rows, Taken(m))
  {
    hide CopiesOk, Fresh, Updates;
    assert Updates(rows, m.view, view', m.view.lastSequence);
    UpdateKeepsFresh(rows, m.view, view', m.view.lastSequence);
    assert forall i :: 0 <= i < |m.stack| - 1 ==> Taken(m).stack[i] == m.stack[i];
  }

  /** Storing one record, with the position `view'` has. */
  lemma TakeView(rows: seq<Row>, view: View, record: Record, asOf: int, view': View)
    requires CopiesOk(rows, view) && RecordOk(rows, record) && !Missing(rows, record.handle, asOf)
    requires view'.records == TakeRecord(view, record).records && view'.handles == TakeRecord(view, record).handles
    requires view.lastSequence <= view'.lastSequence
    requires record.grant.Some? ==> record.grant.value.sequence <= view'.lastSequence
    ensures CopiesOk(rows, view')
    ensures forall bound :: bound <= asOf ==> Updates(rows, view, view', bound)
    ensures RecordsUpTo(view, view.lastSequence) ==> RecordsUpTo(view', view'.lastSequence)
  {
  }

  lemma TakeStack(ring: Ring, rows: seq<Row>, chain: seq<Grant>, me: string, m: Manager, view': View)
    requires ring.Valid() && Linked(ring, chain)
    requires CopiesOk(rows, m.view) && StackOk(ring, rows, chain, me, m) && RecordWaiting(m)
    requires forall i :: 0 <= i < |m.stack| && m.stack[i].Reconciling? ==> m.stack[i].asOf <= m.stack[|m.stack| - 1].asOf
    requires
      var frame := m.stack[|m.stack| - 1];
      var took := TakeRecord(m.view, frame.pending[0]);
      && view'.records == took.records && view'.handles == took.handles
      && m.view.lastSequence <= view'.lastSequence
      && (frame.pending[0].grant.Some? ==> frame.pending[0].grant.value.sequence <= view'.lastSequence)
    requires HasTransfer(m.stack) ==> view'.lastSequence == m.view.lastSequence && view'.owner == m.view.owner
    ensures CopiesOk(rows, view')
    ensures forall bound :: bound <= m.stack[|m.stack| - 1].asOf ==> Updates(rows, m.view, view', bound)
    ensures RecordsUpTo(m.view, m.view.lastSequence) ==> RecordsUpTo(view', view'.lastSequence)
    ensures
      var frame := m.stack[|m.stack| - 1];
      && LoopOk(rows, chain, view', frame.pending[1..], frame.asOf)
      && StackOk(ring, rows, chain, me, Taken(m).(view := view'))
  {
    hide StackOk, LoopOk, CopiesOk, Updates, RecordsUpTo, Linked, RecordOk, Missing;
    var frame := m.stack[|m.stack| - 1];
    TopLoop(ring, rows, chain, me, m);
    LoopHead(rows, chain, m.view, frame.pending, frame.asOf);
    TakeView(rows, m.view, frame.pending[0], frame.asOf, view');
    UpdateKeepsStack(ring, rows, chain, me, m, view', frame.asOf);
    UpdateKeepsLoop(rows, chain, m.view, view', frame.pending, frame.asOf, frame.asOf);
    PopKeepsLoop(ring, rows, chain, view', frame.pending, frame.asOf);
    RestKeepsStack(ring, rows, chain, me, m.(view := view'));
    assert SetTop(m.(view := view'), frame.(pending := frame.pending[1..])) == Taken(m).(view := view');
  }

  lemma TopLoop(ring: Ring, rows: seq<Row>, chain: seq<Grant>, me: string, m: Manager)
    requires CopiesOk(rows, m.view) && StackOk(ring, rows, chain, me, m) && RecordWaiting(m)
    ensures
      var frame := m.stack[|m.stack| - 1];
      LoopOk(rows, chain, m.view, frame.pending, frame.asOf)
  {
    hide LoopOk, PhaseOk, CopiesOk;
  }

  lemma LoopHead(rows: seq<Row>, chain: seq<Grant>, view: View, pending: seq<Record>, asOf: int)
    requires CopiesOk(rows, view) && LoopOk(rows, chain, view, pending, asOf) && pending != []
    ensures RecordOk(rows, pending[0]) && !Missing(rows, pending[0].handle, asOf)
    ensures SortedBySequence(pending) && asOf < |chain|
  {
  }

  /** The manager after the head of its innermost loop has been stored. */
  function Taken(m: Manager): Manager
    requires RecordWaiting(m)
  {
    var frame := m.stack[|m.stack| - 1];
    SetTop(m, frame.(pending := frame.pending[1..])).(view := TakeRecord(m.view, frame.pending[0]))
  }

  /** An outer loop never works from a newer scan than the inner one. */
  lemma LowerLoops(ring: Ring, rows: seq<Row>, chain: seq<Grant>, me: string, m: Manager)
    requires ring.Valid() && Linked(ring, chain) && ManagerInv(ring, rows, chain, me, m) && RecordWaiting(m)
    ensures forall i :: 0 <= i < |m.stack| && m.stack[i].Reconciling? ==> m.stack[i].asOf <= m.stack[|m.stack| - 1].asOf
  {
    var t := |m.stack| - 1;
    if i :| 0 <= i < t && m.stack[i].Reconciling? {
      assert IsTransfer(m.stack[t - 1]);
      OwnerIsCurrent(ring, rows, chain, me, m);
      assert LoopOk(rows, chain, m.view, m.stack[t].pending, m.stack[t].asOf);
      forall j | 0 <= j < |m.stack| && m.stack[j].Reconciling? ensures m.stack[j].asOf <= m.stack[t].asOf {
        assert LoopOk(rows, chain, m.view, m.stack[j].pending, m.stack[j].asOf);
      }
    }
  }

  lemma RestKeepsStack(ring: Ring, rows: seq<Row>, chain: seq<Grant>, me: string, m: Manager)
    requires CopiesOk(rows, m.view) && StackOk(ring, rows, chain, me, m) && RecordWaiting(m)
    requires
      var frame := m.stack[|m.stack| - 1];
      LoopOk(rows, chain, m.view, frame.pending[1..], frame.asOf)
    ensures
      var frame := m.stack[|m.stack| - 1];
      StackOk(ring, rows, chain, me, SetTop(m, frame.(pending := frame.pending[1..])))
  {
    var t := |m.stack| - 1;
    var frame := m.stack[t];
    var m' := SetTop(m, frame.(pending := frame.pending[1..]));
    hide LoopOk;
    assert forall i :: 0 <= i < t ==> m'.stack[i] == m.stack[i];
    assert !IsTransfer(m.stack[t]) && !IsTransfer(m'.stack[t]);
    if HasTransfer(m.stack) {
      var i :| 0 <= i < |m.stack| && IsTransfer(m.stack[i]);
      assert IsTransfer(m'.stack[i]);
    }
    if HasTransfer(m'.stack) {
      var i :| 0 <= i < |m'.stack| && IsTransfer(m'.stack[i]);
      assert IsTransfer(m.stack[i]);
    }
  }

  /** A grant the view has not applied yet is the very next link, and only a
      manager outside any transfer can meet one. */
  lemma NewsIsNext(ring: Ring, rows: seq<Row>, chain: seq<Grant>, chainRows: seq<nat>, me: string, m: Manager)
    requires ring.Valid() && LedgerInv(ring, rows, chain, chainRows)
    requires ManagerInv(ring, rows, chain, me, m) && RecordWaiting(m)
    requires
      var head := m.stack[|m.stack| - 1].pending[0];
      head.grant.Some? && head.grant.value.sequence > m.view.lastSequence
    ensures
      var head := m.stack[|m.stack| - 1].pending[0];
      var k := m.view.lastSequence + 1;
      && 0 <= k < |chain| && k <= m.stack[|m.stack| - 1].asOf < |chain|
      && head.grant == Some(chain[k]) && head.handle.row == chainRows[k]
    ensures !Owns(m.view, me) && !HasTransfer(m.stack)
    ensures m.stack[|m.stack| - 1].pending[0].Id() in m.view.records
            && m.view.records[m.stack[|m.stack| - 1].pending[0].Id()].grant.Some?
            ==> m.view.records[m.stack[|m.stack| - 1].pending[0].Id()].grant.value.sequence <= m.view.lastSequence
  {
    hide LedgerInv, StackOk, LoopOk, CopiesOk, OwnerOk, RecordOk, Linked, HasTransfer, PositionOk;
    var frame := m.stack[|m.stack| - 1];
    TopLoop(ring, rows, chain, me, m);
    ManagerBasics(ring, rows, chain, me, m);
    FirstIsNext(ring, rows, chain, chainRows, m.view, frame.pending, frame.asOf);
    LedgerIsLinked(ring, rows, chain, chainRows);
    if Owns(m.view, me) { OwnerIsCurrent(ring, rows, chain, me, m); }
    OwnTransfer(ring, rows, chain, me, m);
  }

  lemma OwnTransfer(ring: Ring, rows: seq<Row>, chain: seq<Grant>, me: string, m: Manager)
    requires CopiesOk(rows, m.view) && StackOk(ring, rows, chain, me, m)
    ensures HasTransfer(m.stack) ==> Owns(m.view, me)
  {
    hide LoopOk, PhaseOk, CopiesOk, HasTransfer;
  }

  /** The scan is sorted, so the first link it brings is the one that follows. */
  lemma FirstIsNext(
    ring: Ring, rows: seq<Row>, chain: seq<Grant>, chainRows: seq<nat>, view: View, pending: seq<Record>, asOf: int)
    requires ring.Valid() && LedgerInv(ring, rows, chain, chainRows) && CopiesOk(rows, view)
    requires LoopOk(rows, chain, view, pending, asOf) && pending != []
    requires pending[0].grant.Some? && pending[0].grant.value.sequence > view.lastSequence
    ensures
      var k := view.lastSequence + 1;
      && 0 <= k <= asOf < |chain| && k < |chainRows|
      && pending[0].grant == Some(chain[k]) && pending[0].handle.row == chainRows[k]
  {
    hide CopiesOk, WellPosted;
    var k := view.lastSequence + 1;
    assert RecordOk(rows, pending[0]);
    assert Delivers(pending, chain[k]);
    var i :| 0 <= i < |pending| && pending[i].grant == Some(chain[k]);
    assert pending[0].SortKey() <= pending[i].SortKey();
  }

  /** Applying news: the position moves to the next link. */
  lemma NewsPosition(ring: Ring, chain: seq<Grant>, me: string, view: View, head: Record)
    requires ring.Valid() && Linked(ring, chain) && PositionOk(ring, chain, view)
    requires view.lastSequence + 1 < |chain| && head.grant == Some(chain[view.lastSequence + 1])
    ensures
      var applied := ApplyGrant(ring, me, TakeRecord(view, head), head.grant.value);
      && applied.Advanced?
      && PositionOk(ring, chain, applied.view)
      && applied.view.lastSequence == view.lastSequence + 1 == head.grant.value.sequence
      && applied.view.records == TakeRecord(view, head).records
      && applied.view.handles == TakeRecord(view, head).handles
      && (applied.acquire <==> chain[view.lastSequence + 1].target == me)
      && (Owns(applied.view, me) <==> applied.acquire)
  {
  }

  lemma NewsManager(ring: Ring, rows: seq<Row>, chain: seq<Grant>, chainRows: seq<nat>, me: string, m: Manager)
    requires ring.Valid() && LedgerInv(ring, rows, chain, chainRows)
    requires ManagerInv(ring, rows, chain, me, m) && RecordWaiting(m)
    requires
      var head := m.stack[|m.stack| - 1].pending[0];
      head.grant.Some? && head.grant.value.sequence > m.view.lastSequence
    ensures
      var head := m.stack[|m.stack| - 1].pending[0];
      var applied := ApplyGrant(ring, me, TakeRecord(m.view, head), head.grant.value);
      && applied.Advanced?
      && applied.view.lastSequence == m.view.lastSequence + 1 < |chain|
      && (applied.acquire <==> chain[m.view.lastSequence + 1].target == me)
      && (applied.acquire ==> m.view.lastSequence + 1 == |chain| - 1)
      && !m.resident
      && ManagerInv(ring, rows, chain, me, Taken(m).(view := applied.view, resident := applied.acquire))
      && !HasLeft(Taken(m).(view := applied.view, resident := applied.acquire))
  {
    hide LoopOk, Fresh, Updates, CopiesOk, PositionOk, StackOk, RecordsUpTo, ApplyGrant, OwnerOk, LedgerInv, RecordOk,
         Missing, Linked, TakeRecord;
    LedgerIsLinked(ring, rows, chain, chainRows);
    NewsIsNext(ring, rows, chain, chainRows, me, m);
    LowerLoops(ring, rows, chain, me, m);
    HeadIsOk(ring, rows, chain, me, m);
    var frame := m.stack[|m.stack| - 1];
    var head := frame.pending[0];
    var k := m.view.lastSequence + 1;
    NewsPosition(ring, chain, me, m.view, head);
    var applied := ApplyGrant(ring, me, TakeRecord(m.view, head), head.grant.value);
    var view' := applied.view;
    TakeStack(ring, rows, chain, me, m, view');
    if chain[k].target == me {
      NewestNamesMe(ring, chain, me, m, k);
      NewsOwner(ring, rows, chain, chainRows, me, m, view', applied.acquire);
    }
    NewsStack(ring, rows, chain, me, Taken(m).(view := view'), applied.acquire);
  }

  lemma LedgerIsLinked(ring: Ring, rows: seq<Row>, chain: seq<Grant>, chainRows: seq<nat>)
    requires ring.Valid() && LedgerInv(ring, rows, chain, chainRows)
    ensures Linked(ring, chain)
  {
    hide WellPosted, GrantedAt;
  }

  /** A manager that has issued nothing past its position can only be named by
      the newest link: it would itself have issued the one after. */
  lemma NewestNamesMe(ring: Ring, chain: seq<Grant>, me: string, m: Manager, k: int)
    requires ring.Valid() && Linked(ring, chain) && IssuedOk(chain, me, m) && !IsPublished(m)
    requires k == m.view.lastSequence + 1 && 0 <= k < |chain| && chain[k].target == me
    ensures k == |chain| - 1
  {
    if k + 1 < |chain| { LinkFollows(ring, chain, k + 1); }
  }

  lemma NewsOwner(
    ring: Ring, rows: seq<Row>, chain: seq<Grant>, chainRows: seq<nat>,
    me: string, m: Manager, view': View, resident: bool)
    requires ring.Valid() && LedgerInv(ring, rows, chain, chainRows)
    requires CopiesOk(rows, m.view) && StackOk(ring, rows, chain, me, m) && RecordWaiting(m) && !HasTransfer(m.stack)
    requires CopiesOk(rows, view') && view'.lastSequence == |chain| - 1 >= 0
    requires
      var frame := m.stack[|m.stack| - 1];
      && frame.asOf == |chain| - 1 && SortedBySequence(frame.pending) && RecordOk(rows, frame.pending[0])
      && frame.pending[0].grant == Some(chain[|chain| - 1])
      && view'.records == TakeRecord(m.view, frame.pending[0]).records
      && view'.handles == TakeRecord(m.view, frame.pending[0]).handles
      && LoopOk(rows, chain, view', frame.pending[1..], frame.asOf)
    ensures OwnerOk(rows, Taken(m).(view := view', resident := resident))
  {
    var frame := m.stack[|m.stack| - 1];
    var m' := Taken(m).(view := view', resident := resident);
    StackShape(ring, rows, chain, me, m);
    hide LoopOk, StackOk, CopiesOk, RecordOk;
    NewOwnerIsFresh(ring, rows, chain, chainRows, view', frame.pending, frame.asOf, |chain| - 1);
    OnlyLoop(m, frame.asOf);
    assert forall i :: 0 <= i < |m.stack| - 1 ==> m'.stack[i] == m.stack[i];
    SingleLoopOwner(rows, m', frame.asOf);
  }

  lemma StackShape(ring: Ring, rows: seq<Row>, chain: seq<Grant>, me: string, m: Manager)
    requires CopiesOk(rows, m.view) && StackOk(ring, rows, chain, me, m)
    ensures Shape(m.stack)
  {
  }

  lemma NewsStack(ring: Ring, rows: seq<Row>, chain: seq<Grant>, me: string, m: Manager, resident: bool)
    requires CopiesOk(rows, m.view) && StackOk(ring, rows, chain, me, m)
    ensures StackOk(ring, rows, chain, me, m.(resident := resident))
  {
  }

  lemma SingleLoopOwner(rows: seq<Row>, m: Manager, asOf: int)
    requires CopiesOk(rows, m.view) && Fresh(rows, m.view, m.view.lastSequence)
    requires forall i :: 0 <= i < |m.stack| && m.stack[i].Reconciling? ==> i == |m.stack| - 1 && m.stack[i].asOf == asOf
    requires asOf >= m.view.lastSequence
    ensures OwnerOk(rows, m)
  {
  }

  lemma HeadIsOk(ring: Ring, rows: seq<Row>, chain: seq<Grant>, me: string, m: Manager)
    requires ManagerInv(ring, rows, chain, me, m) && RecordWaiting(m)
    ensures RecordOk(rows, m.stack[|m.stack| - 1].pending[0])
    ensures SortedBySequence(m.stack[|m.stack| - 1].pending)
    ensures m.stack[|m.stack| - 1].asOf < |chain|
    ensures PositionOk(ring, chain, m.view) && CopiesOk(rows, m.view)
    ensures StackOk(ring, rows, chain, me, m) && RecordsUpTo(m.view, m.view.lastSequence)
    ensures !Owns(m.view, me) ==> !m.resident
  {
    var frame := m.stack[|m.stack| - 1];
    assert LoopOk(rows, chain, m.view, frame.pending, frame.asOf);
  }

  /** Outside a transfer there is a single loop on the stack. */
  lemma OnlyLoop(m: Manager, asOf: int)
    requires Shape(m.stack) && !HasTransfer(m.stack) && RecordWaiting(m) && m.stack[|m.stack| - 1].asOf == asOf
    ensures forall i :: 0 <= i < |m.stack| && m.stack[i].Reconciling? ==> i == |m.stack| - 1
  {
    forall i | 0 <= i < |m.stack| ensures !IsTransfer(m.stack[i]) {}
  }

  /** The newest link is the last thing a scan delivers, so whoever it names
      starts its ownership having missed nothing. */
  lemma NewOwnerIsFresh(
    ring: Ring, rows: seq<Row>, chain: seq<Grant>, chainRows: seq<nat>,
    view: View, pending: seq<Record>, asOf: int, k: int)
    requires ring.Valid() && LedgerInv(ring, rows, chain, chainRows) && k == |chain| - 1 >= 0 && asOf == k
    requires CopiesOk(rows, view) && pending != [] && LoopOk(rows, chain, view, pending[1..], asOf)
    requires SortedBySequence(pending) && pending[0].grant == Some(chain[k]) && RecordOk(rows, pending[0])
    requires pending[0].Id() in view.records && view.records[pending[0].Id()] == pending[0]
    requires pending[0].Id() in view.handles && view.handles[pending[0].Id()] == pending[0].handle
    ensures Fresh(rows, view, k)
  {
    var rest := pending[1..];
    forall id | Waits(rest, id) ensures id == pending[0].Id() {
      var i :| 0 <= i < |rest| && rest[i].Id() == id;
      assert rest[i] == pending[i + 1] && RecordOk(rows, rest[i]);
      assert pending[0].SortKey() <= pending[i + 1].SortKey();
    }
  }

  /** The fallback member re-posts its standing request after a grant. */
  lemma FallbackKeeps(ring: Ring, s: State, me: string, now: int)
    requires ring.Valid() && Inv(ring, s) && me in s.managers && ring.Member(me)
    requires s.managers[me].view.lastSequence >= -1
    ensures Inv(ring, KeepFallbackPosted(ring, s, me, now))
  {
    hide ManagerInv, LedgerInv, LogOk, WorldStep;
    var m := s.managers[me];
    if ring.ModeFor(me) == Fallback && !Owns(m.view, me) {
      var ensured := EnsureFallback(ring, m.view, s.rows, me, now);
      assert ensured.Ok?;
      ManagerBasics(ring, s.rows, s.chain, me, m);
      hide CopiesOk, Updates, RecordsUpTo, Inv;
      FallbackMove(ring, s, me, now);
      MoveStep(ring, s, me, m.(view := ensured.value.0), ensured.value.1);
    }
  }

  lemma FallbackMove(ring: Ring, s: State, me: string, now: int)
    requires ring.Valid() && Inv(ring, s) && me in s.managers && s.managers[me].view.lastSequence >= -1
    requires EnsureFallback(ring, s.managers[me].view, s.rows, me, now).Ok?
    ensures
      var (view, rows) := EnsureFallback(ring, s.managers[me].view, s.rows, me, now).value;
      && WorldStep(s.rows, s.chain, rows, s.chain) && LedgerInv(ring, rows, s.chain, s.chainRows)
      && ManagerInv(ring, rows, s.chain, me, s.managers[me].(view := view))
      && view.lastSequence == s.managers[me].view.lastSequence
  {
    hide ManagerInv, LedgerInv, LogOk;
    var m := s.managers[me];
    var (view, rows) := EnsureFallback(ring, m.view, s.rows, me, now).value;
    ManagerBasics(ring, s.rows, s.chain, me, m);
    hide CopiesOk, Updates, RecordsUpTo;
    EnsureKeeps(ring, s, m.view, me, now);
    hide WorldStep;
    OthersKeep(ring, s.rows, s.chain, rows, s.chain, me, m);
    UpdateManager(ring, rows, s.chain, me, m, view);
  }
}

/** What the ring guarantees in every reachable state of every interleaving. */
module ColocationSafety {
  import opened Wrappers
  import opened ColocationRing
  import opened RequestLedger
  import opened ColocationView
  import opened ColocationProtocol
  import opened ColocationInvariant
  import opened ColocationFrames
  import opened ColocationSteps

  // ---- the loop body of `_reconcile` ------------------------------------------

  predicate BringsNews(m: Manager)
    requires RecordWaiting(m)
  {
    var head := m.stack[|m.stack| - 1].pending[0];
    head.grant.Some? && head.grant.value.sequence > m.view.lastSequence
  }

  function News(ring: Ring, me: string, m: Manager): Applied
    requires ring.Valid() && RecordWaiting(m) && BringsNews(m)
  {
    var head := m.stack[|m.stack| - 1].pending[0];
    ApplyGrant(ring, me, TakeRecord(m.view, head), head.grant.value)
  }

  function AfterNews(ring: Ring, s: State, me: string): State
    requires ring.Valid() && me in s.managers && RecordWaiting(s.managers[me]) && BringsNews(s.managers[me])
  {
    var m := s.managers[me];
    match News(ring, me, m)
    case Advanced(view, acquire) => Acquire(Put(s, me, Taken(m).(view := view)), me, acquire)
    case _ => s
  }

  lemma NewsKeeps(ring: Ring, s: State, me: string)
    requires ring.Valid() && Inv(ring, s) && me in s.managers
    requires RecordWaiting(s.managers[me]) && BringsNews(s.managers[me])
    ensures News(ring, me, s.managers[me]).Advanced?
    ensures Inv(ring, AfterNews(ring, s, me))
    ensures AfterNews(ring, s, me).managers.Keys == s.managers.Keys
    ensures AfterNews(ring, s, me).managers[me].view.lastSequence >= -1
  {
    hide ManagerInv, LedgerInv, WorldStep, ApplyGrant, LogOk, Taken, HasLeft, TakeRecord, Inv;
    var m := s.managers[me];
    ManagerOf(ring, s, me);
    NewsManager(ring, s.rows, s.chain, s.chainRows, me, m);
    NotLeft(m);
    var Advanced(view, acquire) := News(ring, me, m);
    TakenResides(m, view, acquire);
    ApplyNewsStep(ring, s, me, Taken(m).(view := view, resident := acquire), acquire);
    var took := Taken(m).(view := view);
    assert s.managers[me := took][me := took.(resident := true)] == s.managers[me := took.(resident := true)];
  }

  lemma ApplyNewsStep(ring: Ring, s: State, me: string, m': Manager, acquire: bool)
    requires ring.Valid() && Inv(ring, s) && me in s.managers
    requires ManagerInv(ring, s.rows, s.chain, me, m')
    requires 0 <= m'.view.lastSequence == s.managers[me].view.lastSequence + 1 < |s.chain|
    requires !HasLeft(m') && !HasLeft(s.managers[me])
    requires acquire <==> s.chain[m'.view.lastSequence].target == me
    requires acquire ==> m'.view.lastSequence == |s.chain| - 1
    ensures Inv(ring, Put(s, me, m').(log := if acquire then s.log + [AcquiredBy(me)] else s.log))
  {
    hide ManagerInv, LedgerInv, WorldStep, LogOk, HasLeft;
    NewsLog(s, me, m', acquire);
    NothingWritten(s.rows, s.chain);
    Assemble(ring, s, me, Put(s, me, m').(log := if acquire then s.log + [AcquiredBy(me)] else s.log));
  }

  lemma NotLeft(m: Manager)
    requires RecordWaiting(m)
    ensures !HasLeft(m)
  {
  }

  lemma TakenResides(m: Manager, view: View, acquire: bool)
    requires RecordWaiting(m) && !m.resident
    ensures Taken(m).(view := view, resident := acquire)
         == if acquire then Taken(m).(view := view).(resident := true) else Taken(m).(view := view)
  {
  }

  /** Applying a link adds exactly the acquire it stands for, if it is one's own. */
  lemma NewsLog(s: State, me: string, m': Manager, acquire: bool)
    requires s.chain != [] ==> s.chain[|s.chain| - 1].target in s.managers
    requires me in s.managers && LogOk(s)
    requires 0 <= m'.view.lastSequence == s.managers[me].view.lastSequence + 1 < |s.chain|
    requires !HasLeft(m') && !HasLeft(s.managers[me])
    requires acquire <==> s.chain[m'.view.lastSequence].target == me
    requires acquire ==> m'.view.lastSequence == |s.chain| - 1
    ensures LogOk(Put(s, me, m').(log := if acquire then s.log + [AcquiredBy(me)] else s.log))
  {
  }

  lemma NothingWritten(rows: seq<Row>, chain: seq<Grant>)
    ensures WorldStep(rows, chain, rows, chain)
  {
  }

  lemma TakeKeeps(ring: Ring, s: State, me: string)
    requires ring.Valid() && Inv(ring, s) && me in s.managers
    requires RecordWaiting(s.managers[me]) && !BringsNews(s.managers[me])
    ensures Inv(ring, Put(s, me, Taken(s.managers[me])))
  {
    hide ManagerInv, LogOk;
    TakeManager(ring, s.rows, s.chain, me, s.managers[me]);
    LocalStep(ring, s, me, Taken(s.managers[me]));
  }

  lemma PreemptKeeps(ring: Ring, s: State, me: string)
    requires ring.Valid() && Inv(ring, s) && me in s.managers && RecordWaiting(s.managers[me])
    requires
      var m := s.managers[me];
      && !BringsNews(m) && Owns(m.view, me) && !m.transferring
    ensures Inv(ring, Put(s, me, StartTransfer(Taken(s.managers[me]), me)))
  {
    hide ManagerInv, LogOk;
    var m := s.managers[me];
    TakeManager(ring, s.rows, s.chain, me, m);
    StartManager(ring, s.rows, s.chain, me, Taken(m));
    LocalStep(ring, s, me, StartTransfer(Taken(m), me));
  }

  lemma ProcessKeeps(ring: Ring, s: State, me: string, now: int)
    requires ring.Valid() && Inv(ring, s) && ring.Member(me) && me in s.managers
    requires RecordWaiting(s.managers[me]) && s.managers[me].view.lastSequence >= -1
    ensures Inv(ring, ProcessRecord(ring, s, me, now))
  {
    hide Inv, ManagerInv, LedgerInv, RecordOk, Missing, StackOk, LoopOk, CopiesOk, PositionOk;
    var m := s.managers[me];
    ProcessFacts(ring, s, me);
    if BringsNews(m) {
      NewsKeeps(ring, s, me);
      FallbackKeeps(ring, AfterNews(ring, s, me), me, now);
    } else {
      TakeKeeps(ring, s, me);
      FallbackKeeps(ring, Put(s, me, Taken(m)), me, now);
      if Owns(m.view, me) && !m.transferring {
        PreemptKeeps(ring, s, me);
      }
    }
  }

  /** An open record carries no grant, and a link the view has not reached is
      not hidden behind an older copy of the same request. */
  predicate HeadIsSound(m: Manager)
    requires RecordWaiting(m)
  {
    var head := m.stack[|m.stack| - 1].pending[0];
    && (head.state == Open ==> head.grant.None?)
    && (BringsNews(m) && head.Id() in m.view.records && m.view.records[head.Id()].grant.Some? ==>
          m.view.records[head.Id()].grant.value.sequence < head.grant.value.sequence)
  }

  lemma ProcessFacts(ring: Ring, s: State, me: string)
    requires me in s.managers && RecordWaiting(s.managers[me])
    requires ring.Valid() && Inv(ring, s)
    ensures HeadIsSound(s.managers[me])
  {
    hide Inv, ManagerInv, LedgerInv, StackOk, PositionOk, CopiesOk, Missing, RecordsUpTo;
    var m := s.managers[me];
    ManagerOf(ring, s, me);
    HeadIsOk(ring, s.rows, s.chain, me, m);
    if BringsNews(m) {
      NewsIsNext(ring, s.rows, s.chain, s.chainRows, me, m);
    }
  }

  // ---- all steps, all runs -------------------------------------------------------

  lemma ProcessStepKeeps(ring: Ring, s: State, me: string, now: int)
    requires ring.Valid() && Inv(ring, s) && Enabled(ring, s, By(me, Process(now)))
    ensures Inv(ring, Apply(ring, s, By(me, Process(now))))
  {
    hide Inv, ProcessRecord;
    ProcessKeeps(ring, s, me, now);
  }

  lemma StepKeeps(ring: Ring, s: State, a: Action)
    requires ring.Valid() && Inv(ring, s) && Enabled(ring, s, a)
    ensures Inv(ring, Apply(ring, s, a))
  {
    hide Inv, Enabled, Apply;
    match a
    case GenesisCreate => GenesisCreateKeeps(ring, s);
    case GenesisGrant => GenesisGrantKeeps(ring, s);
    case By(me, step) =>
      match step {
        case Post(request) => PostKeeps(ring, s, me, request);
        case Poll => PushScanKeeps(ring, s, me, step);
        case Release => PushScanKeeps(ring, s, me, step);
        case Rescan => PushScanKeeps(ring, s, me, step);
        case Process(now) => ProcessStepKeeps(ring, s, me, now);
        case EndReconcile => EndReconcileKeeps(ring, s, me);
        case BeginRelease => BeginReleaseKeeps(ring, s, me);
        case Choose(id, now) => ChooseKeeps(ring, s, me, id, now);
        case GiveUp => GiveUpKeeps(ring, s, me);
        case SelectionFails => SelectionFailsKeeps(ring, s, me);
        case Vacate => VacateKeeps(ring, s, me);
        case CloseOwn => CloseOwnKeeps(ring, s, me);
        case Publish => PublishKeeps(ring, s, me);
        case Adopt => AdoptKeeps(ring, s, me);
      }
  }

  lemma InitKeeps(ring: Ring)
    requires ring.Valid()
    ensures Inv(ring, Init(ring))
  {
    forall service ensures service in Init(ring).managers <==> ring.Member(service) {
      if ring.Member(service) {
        var i :| 0 <= i < |ring.nodes| && ring.nodes[i].service == service;
        assert ring.nodes[i].service in Names(ring);
      }
    }
    assert IDLE.stack == [];
  }

  lemma {:induction false} RunKeeps(ring: Ring, start: State, actions: seq<Action>, end: State)
    requires ring.Valid() && Inv(ring, start) && Run(ring, start, actions, end)
    ensures Inv(ring, end)
    decreases |actions|
  {
    hide Inv, Enabled, Apply;
    if actions != [] {
      var last := actions[|actions| - 1];
      var mid :| && Run(ring, start, actions[..|actions| - 1], mid)
                 && Enabled(ring, mid, last) && Apply(ring, mid, last) == end;
      RunKeeps(ring, start, actions[..|actions| - 1], mid);
      StepKeeps(ring, mid, last);
    }
  }

  lemma ReachableKeeps(ring: Ring, s: State)
    requires ring.Valid() && Reachable(ring, s)
    ensures Inv(ring, s)
  {
    hide Inv, Run, Init;
    InitKeeps(ring);
    var actions :| Run(ring, Init(ring), actions, s);
    RunKeeps(ring, Init(ring), actions, s);
  }

  // ---- the guarantees ---------------------------------------------------------------

  /** At most one service is resident on the card. */
  lemma MutualExclusion(ring: Ring, s: State, a: string, b: string)
    requires ring.Valid() && Reachable(ring, s)
    requires a in s.managers && b in s.managers && s.managers[a].resident && s.managers[b].resident
    ensures a == b
    ensures s.chain != [] && a == s.chain[|s.chain| - 1].target
  {
    hide Inv, Reachable;
    ReachableKeeps(ring, s);
    ResidentIsNewest(ring, s, a);
    ResidentIsNewest(ring, s, b);
  }

  lemma ResidentIsNewest(ring: Ring, s: State, me: string)
    requires ring.Valid() && Inv(ring, s) && me in s.managers && s.managers[me].resident
    ensures s.chain != [] && me == s.chain[|s.chain| - 1].target
  {
    hide Inv, LedgerInv, StackOk, CopiesOk, OwnerOk, RecordsUpTo, IssuedOk;
    ManagerOf(ring, s, me);
    OwnerIsCurrent(ring, s.rows, s.chain, me, s.managers[me]);
  }

  /** The callbacks of all services together form one word: acquire, release,
      acquire, release, ..., the i-th pair belonging to the target of link i. */
  lemma CallbacksAlternate(ring: Ring, s: State, i: nat)
    requires ring.Valid() && Reachable(ring, s) && i < |s.log|
    ensures i / 2 < |s.chain|
    ensures s.log[i] ==
      if i % 2 == 0 then AcquiredBy(s.chain[i / 2].target) else ReleasedBy(s.chain[i / 2].target)
    ensures |s.log| >= 2 * (|s.chain| - 1)
  {
    ReachableKeeps(ring, s);
    hide ManagerInv, LedgerInv;
  }

  /** A new link is only ever published once its predecessor has left the card. */
  lemma VacatedBeforePublished(ring: Ring, s: State, me: string)
    requires ring.Valid() && Reachable(ring, s) && Enabled(ring, s, By(me, Publish))
    ensures s.log != [] && s.log[|s.log| - 1] == ReleasedBy(me)
    ensures forall other :: other in s.managers ==> !s.managers[other].resident
  {
    hide Apply, Enabled, Inv, ManagerInv, Reachable;
    ReachableKeeps(ring, s);
    var _ := PublishApplies(ring, s, me);
    LogBeforePublish(ring, s, me);
    PublishHolder(ring, s, me);
    CallbacksAlternate(ring, s, |s.log| - 1);
    forall other | other in s.managers ensures !s.managers[other].resident {
      if s.managers[other].resident {
        MutualExclusion(ring, s, other, other);
      }
    }
  }

  lemma PublishHolder(ring: Ring, s: State, me: string)
    requires ring.Valid() && Inv(ring, s) && me in s.managers && PhaseOf(s.managers[me]).Some?
    requires PhaseOf(s.managers[me]).value.SelfClosed?
    ensures s.chain != [] && s.chain[|s.chain| - 1].target == me && !s.managers[me].resident
  {
    hide ManagerInv;
    HoldsCurrent(ring, s.rows, s.chain, me, s.managers[me]);
  }

  /** The granted rows are one chain 0..k: each sequence sits in exactly one row,
      each link starts where the previous one ended, and closing loses nothing. */
  lemma GrantsFormOneChain(ring: Ring, s: State)
    requires ring.Valid() && Reachable(ring, s)
    ensures Linked(ring, s.chain)
    ensures forall i :: 0 <= i < |s.rows| && s.rows[i].grant.Some? ==>
              && 0 <= s.rows[i].grant.value.sequence < |s.chain|
              && s.rows[i].grant.value == s.chain[s.rows[i].grant.value.sequence]
              && s.rows[i].grant.value.target == s.rows[i].request.service
    ensures forall i, j :: 0 <= i < |s.rows| && 0 <= j < |s.rows| && s.rows[i].grant.Some? && s.rows[i].grant == s.rows[j].grant
              ==> i == j
    ensures forall k :: 0 <= k < |s.chain| ==> exists i :: 0 <= i < |s.rows| && s.rows[i].grant == Some(s.chain[k])
  {
    ReachableKeeps(ring, s);
    hide ManagerInv, LogOk;
    forall k | 0 <= k < |s.chain| ensures exists i :: 0 <= i < |s.rows| && s.rows[i].grant == Some(s.chain[k]) {
      assert GrantedAt(s.rows, s.chainRows[k], s.chain[k]);
    }
  }

  /** Every manager stands on the chain: it has applied a prefix and names that
      prefix's last target as the owner. None of the protocol errors can fire. */
  lemma ViewsArePrefixes(ring: Ring, s: State, me: string)
    requires ring.Valid() && Reachable(ring, s) && me in s.managers
    ensures
      var view := s.managers[me].view;
      && -1 <= view.lastSequence < |s.chain|
      && view.grant == (if view.lastSequence < 0 then None else Some(s.chain[view.lastSequence]))
      && view.owner == (if view.lastSequence < 0 then None else Some(s.chain[view.lastSequence].target))
    ensures s.managers[me].failure == NoFailure || s.managers[me].failure == UnknownService
  {
    ReachableKeeps(ring, s);
    hide StackOk, CopiesOk, OwnerOk, LogOk, LedgerInv;
  }

  /** Nobody loses the card while inside a transfer that has not been published. */
  lemma TransferringOwns(ring: Ring, s: State, me: string)
    requires ring.Valid() && Reachable(ring, s) && me in s.managers && PhaseOf(s.managers[me]).Some?
    ensures Owns(s.managers[me].view, me)
  {
    hide Inv, ManagerInv, LedgerInv, Reachable, StackOk;
    ReachableKeeps(ring, s);
    ManagerOf(ring, s, me);
    TransferHolder(ring, s.rows, s.chain, me, s.managers[me]);
  }

  lemma TransferHolder(ring: Ring, rows: seq<Row>, chain: seq<Grant>, me: string, m: Manager)
    requires ring.Valid() && ManagerInv(ring, rows, chain, me, m) && PhaseOf(m).Some?
    ensures Owns(m.view, me)
  {
    hide StackOk, CopiesOk, OwnerOk, RecordsUpTo, IssuedOk, PositionOk;
    HoldsItsTransfer(ring, rows, chain, me, m);
  }

  /** `_reconcile` and `_transfer` nest at most as loop, transfer, loop, with a
      single transfer among the calls, and the guard is up exactly during it. */
  lemma RecursionIsBounded(ring: Ring, s: State, me: string)
    requires ring.Valid() && Reachable(ring, s) && me in s.managers
    ensures |s.managers[me].stack| <= 4
    ensures s.managers[me].transferring <==> HasTransfer(s.managers[me].stack)
    ensures forall i, j :: 0 <= i < j < |s.managers[me].stack| ==>
              !(s.managers[me].stack[i].Transferring? && s.managers[me].stack[j].Transferring?)
  {
    hide Inv, ManagerInv, Reachable;
    ReachableKeeps(ring, s);
    StackFacts(ring, s, me);
    OneTransfer(s.managers[me].stack);
  }

  lemma StackFacts(ring: Ring, s: State, me: string)
    requires ring.Valid() && Inv(ring, s) && me in s.managers
    ensures Shape(s.managers[me].stack)
    ensures s.managers[me].transferring <==> HasTransfer(s.managers[me].stack)
  {
    hide LoopOk, CopiesOk, OwnerOk, LogOk, LedgerInv, PhaseOk;
  }

  lemma OneTransfer(stack: seq<Frame>)
    requires Shape(stack)
    ensures |stack| <= 4
    ensures forall i, j :: 0 <= i < j < |stack| ==> !(stack[i].Transferring? && stack[j].Transferring?)
  {
  }

  /** A manager that believes it owns the card and has not just handed it on
      holds the newest link of the whole ledger. */
  lemma OwnersHoldTheNewestLink(ring: Ring, s: State, me: string)
    requires ring.Valid() && Reachable(ring, s) && me in s.managers
    requires Owns(s.managers[me].view, me) && !IsPublished(s.managers[me])
    ensures s.chain != [] && s.managers[me].view.lastSequence == |s.chain| - 1
  {
    ReachableKeeps(ring, s);
    hide StackOk, CopiesOk, OwnerOk, LogOk, LedgerInv;
    OwnerIsCurrent(ring, s.rows, s.chain, me, s.managers[me]);
  }

  /** Whatever an owner selects is a row of the true ledger that has never been
      granted, however old the owner's copy of it is. */
  lemma SelectionIsUngranted(ring: Ring, s: State, me: string, id: string, now: int)
    requires ring.Valid() && Reachable(ring, s) && Enabled(ring, s, By(me, Choose(id, now)))
    ensures
      var s' := Apply(ring, s, By(me, Choose(id, now)));
      && PhaseOf(s'.managers[me]).Some? && PhaseOf(s'.managers[me]).value.Chosen?
      && var record := PhaseOf(s'.managers[me]).value.record;
      && record.handle.row < |s'.rows|
      && s'.rows[record.handle.row].request == record.handle.request
      && s'.rows[record.handle.row].grant.None?
      && record.handle.request.service != me
  {
    hide Inv, ManagerInv, LedgerInv;
    ReachableKeeps(ring, s);
    ChooseKeeps(ring, s, me, id, now);
    ChooseSettles(ring, s, me, id, now);
    var s' := Apply(ring, s, By(me, Choose(id, now)));
    ChosenIsUngranted(ring, s', me);
  }

  lemma ChosenIsUngranted(ring: Ring, s: State, me: string)
    requires ring.Valid() && Inv(ring, s) && me in s.managers
    requires PhaseOf(s.managers[me]).Some? && PhaseOf(s.managers[me]).value.Chosen?
    ensures
      var record := PhaseOf(s.managers[me]).value.record;
      && record.handle.row < |s.rows|
      && s.rows[record.handle.row].request == record.handle.request
      && s.rows[record.handle.row].grant.None?
      && record.handle.request.service != me
  {
    hide ManagerInv, LogOk;
    HoldsCurrent(ring, s.rows, s.chain, me, s.managers[me]);
  }

  /** Grants are for ever: a step only appends to the chain. */
  predicate Extends(s: State, s': State) {
    s.chain <= s'.chain && s.chainRows <= s'.chainRows && s.log <= s'.log
  }

  lemma ChainOnlyGrows(ring: Ring, s: State, a: Action)
    requires ring.Valid() && Enabled(ring, s, a) && Inv(ring, s)
    ensures Extends(s, Apply(ring, s, a))
  {
    hide DoStep, CanStep, ManagerInv, LogOk, Linked, GrantedAt, WellPosted;
    if a.By? {
      if a.step.Process? {
        ProcessWritesNoLink(ring, s, a.me, a.step.now);
      } else {
        StepExtends(ring, s, a.me, a.step);
      }
    }
  }

  lemma StepExtends(ring: Ring, s: State, me: string, step: Step)
    requires ring.Valid() && ring.Member(me) && me in s.managers && s.managers[me].view.lastSequence >= -1
    requires CanStep(ring, s, me, step) && !step.Process?
    ensures Extends(s, DoStep(ring, s, me, step))
  {
    hide SelectionBase, Selected, CloseGranted, ApplyGrant, SetTop, EndTransfer, StartTransfer, MarkGranted, HasCandidate,
         HasOpenFrom, Synthesises, Create, GrantRow;
  }

  lemma ProcessWritesNoLink(ring: Ring, s: State, me: string, now: int)
    requires ring.Valid() && ring.Member(me) && me in s.managers && s.managers[me].view.lastSequence >= -1
    requires CanStep(ring, s, me, Process(now))
    ensures Extends(s, DoStep(ring, s, me, Process(now)))
  {
    hide EnsureFallback, ApplyGrant, StartTransfer, SetTop, TakeRecord;
  }

  /** The hand-overs of a run are exactly the links of its chain: the chooser is
      the newest target, what it chose is the minimum of a well-posted view, and
      the link it publishes runs from itself to the service it chose. */
  lemma ChoiceIsHandover(ring: Ring, s: State, me: string, id: string, now: int)
    requires ring.Valid() && Reachable(ring, s) && Enabled(ring, s, By(me, Choose(id, now)))
    ensures s.chain != [] && s.chain[|s.chain| - 1].target == me
    ensures SelectionBase(ring, s, me, now).Ok?
    ensures
      var view := SelectionBase(ring, s, me, now).value.0;
      && (forall other :: other in view.records ==>
            WellPosted(ring, view.records[other].handle.request) && view.records[other].Id() == other)
      && Selected(ring, me, view, id)
  {
    hide Apply, Inv, ManagerInv, LedgerInv, Reachable, WellPosted;
    ReachableKeeps(ring, s);
    ChooserIsNewest(ring, s, me, id, now);
    BaseIsWellPosted(ring, s, me, now);
  }

  lemma ChooserIsNewest(ring: Ring, s: State, me: string, id: string, now: int)
    requires ring.Valid() && Inv(ring, s) && Enabled(ring, s, By(me, Choose(id, now)))
    ensures s.chain != [] && s.chain[|s.chain| - 1].target == me
    ensures SelectionBase(ring, s, me, now).Ok? && s.managers[me].view.lastSequence >= -1
  {
    hide ManagerInv, LedgerInv, Selected, SelectionBase, Apply;
    LedgerIsLinked(ring, s.rows, s.chain, s.chainRows);
    HoldsCurrent(ring, s.rows, s.chain, me, s.managers[me]);
  }

  lemma BaseIsWellPosted(ring: Ring, s: State, me: string, now: int)
    requires ring.Valid() && Inv(ring, s) && me in s.managers && s.managers[me].view.lastSequence >= -1
    requires SelectionBase(ring, s, me, now).Ok?
    ensures
      var view := SelectionBase(ring, s, me, now).value.0;
      forall other :: other in view.records ==>
        WellPosted(ring, view.records[other].handle.request) && view.records[other].Id() == other
  {
    hide ManagerInv, LedgerInv, WorldStep, SelectionBase, Inv, WellPosted;
    BaseKeeps(ring, s, me, now);
    var (view, rows) := SelectionBase(ring, s, me, now).value;
    ManagerBasics(ring, rows, s.chain, me, s.managers[me].(view := view));
    CopiesAreWellPosted(ring, rows, s.chain, s.chainRows, view);
  }

  lemma CopiesAreWellPosted(ring: Ring, rows: seq<Row>, chain: seq<Grant>, chainRows: seq<nat>, view: View)
    requires ring.Valid() && LedgerInv(ring, rows, chain, chainRows) && CopiesOk(rows, view)
    ensures forall other :: other in view.records ==>
              WellPosted(ring, view.records[other].handle.request) && view.records[other].Id() == other
  {
    hide WellPosted, Linked, GrantedAt;
  }

  lemma PublishNamesTheChoice(ring: Ring, s: State, me: string)
    requires ring.Valid() && Enabled(ring, s, By(me, Publish))
    ensures me in s.managers && PhaseOf(s.managers[me]).Some? && PhaseOf(s.managers[me]).value.SelfClosed?
    ensures
      var s' := Apply(ring, s, By(me, Publish));
      var record := PhaseOf(s.managers[me]).value.record;
      && |s'.chain| == |s.chain| + 1
      && s'.chain[|s.chain|].source == me
      && s'.chain[|s.chain|].target == record.handle.request.service
      && s'.chain[|s.chain|].requestId == record.Id()
      && s'.rows[record.handle.row].grant == Some(s'.chain[|s.chain|])
  {
    hide Apply, Enabled;
    var _ := PublishApplies(ring, s, me);
  }
}

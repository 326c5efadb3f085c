/** Bounded overtaking over the runs of the protocol: while a member asks, every link
    that is published brings its turn nearer. */
module ColocationOvertaking {
  import opened Wrappers
  import opened ColocationRing
  import opened RequestLedger
  import opened ColocationView
  import opened ColocationProtocol
  import opened ColocationInvariant
  import opened ColocationFrames
  import opened ColocationSteps
  import opened ColocationSafety
  import opened ColocationFairness

  /** The service a transfer has settled on but not published yet. */
  function Decided(m: Manager): Option<string> {
    if PhaseOf(m).None? then None
    else
      match PhaseOf(m).value
      case Waiting => None
      case Published(_, _) => None
      case Chosen(record) => Some(record.handle.request.service)
      case Vacated(record) => Some(record.handle.request.service)
      case SelfClosed(record) => Some(record.handle.request.service)
  }

  /** Who holds the newest link. */
  function Holder(s: State): string
    requires s.chain != []
  {
    s.chain[|s.chain| - 1].target
  }

  function HopsTo(ring: Ring, from: string, to: string): nat
    requires ring.Valid()
  {
    if ring.Member(from) && ring.Member(to) then Hops(ring, from, to) else 0
  }

  /** How many links `r` may still have to wait for: the hops from the holder, or one
      more than the hops from the service the holder has settled on. */
  function Remaining(ring: Ring, s: State, r: string): nat
    requires ring.Valid()
  {
    if s.chain == [] || Holder(s) !in s.managers then 0
    else
      match Decided(s.managers[Holder(s)])
      case None => HopsTo(ring, Holder(s), r)
      case Some(next) => 1 + HopsTo(ring, next, r)
  }

  /** A link to `r` is among the first `bound` that follow the first `from`. */
  ghost predicate Served(chain: seq<Grant>, from: nat, bound: int, r: string) {
    exists k :: from <= k < |chain| && k - from < bound && chain[k].target == r
  }

  /** Whoever chooses before `r` is served knows of an open on-demand request of `r`. */
  ghost predicate AsksUntilServed(ring: Ring, start: State, actions: seq<Action>, r: string)
    requires ring.Valid()
  {
    forall i, mid ::
      && 0 <= i < |actions| && Run(ring, start, actions[..i], mid) && Enabled(ring, mid, actions[i])
      && actions[i].By? && actions[i].step.Choose? && !Served(mid.chain, |start.chain|, |mid.chain|, r)
      ==> Asks(mid.managers[actions[i].me].view, actions[i].me, r)
  }

  // ---- single steps ---------------------------------------------------------------------

  lemma OnlyTheHolderDecides(ring: Ring, s: State, me: string)
    requires ring.Valid() && Inv(ring, s) && me in s.managers && Decided(s.managers[me]).Some?
    ensures s.chain != [] && Holder(s) == me
  {
    hide Inv, ManagerInv, LedgerInv;
    ManagerOf(ring, s, me);
    HoldsCurrent(ring, s.rows, s.chain, me, s.managers[me]);
  }

  /** The choice brings `r` at least one hop nearer. */
  lemma ChoiceIsNearer(ring: Ring, s: State, me: string, id: string, now: int, r: string)
    requires ring.Valid() && Inv(ring, s) && ring.Member(r) && Enabled(ring, s, By(me, Choose(id, now)))
    requires Asks(s.managers[me].view, me, r)
    ensures s.chain != [] && Holder(s) == me && Decided(s.managers[me]).None?
    ensures var next := Apply(ring, s, By(me, Choose(id, now)));
      next.chain == s.chain && Remaining(ring, next, r) <= Remaining(ring, s, r)
  {
    hide Inv, Enabled, Apply, ManagerInv, LedgerInv, Selected, SelectionBase, Asks, HopsTo, IsCandidate;
    MemberChooses(ring, s, me, id, now);
    ChooserIsNewest(ring, s, me, id, now);
    ChooseSettles(ring, s, me, id, now);
    AskedBase(ring, s, me, id, now, r);
    var view := s.managers[me].view;
    ViewIsWellPosted(ring, s, me);
    SelectedIsThere(ring, me, view, id);
    Nearer(ring, me, view, id, r);
    SettledOn(s.managers[me].(view := SelectionBase(ring, s, me, now).value.0), view.records[id]);
  }

  lemma MemberChooses(ring: Ring, s: State, me: string, id: string, now: int)
    requires ring.Valid() && Enabled(ring, s, By(me, Choose(id, now)))
    ensures ring.Member(me) && me in s.managers
  {
  }

  lemma SettledOn(m: Manager, record: Record)
    requires m.stack != []
    ensures Decided(SetTop(m, Transferring(Chosen(record)))) == Some(record.handle.request.service)
  {
  }

  /** With a request of `r` in sight nothing is synthesised. */
  lemma AskedBase(ring: Ring, s: State, me: string, id: string, now: int, r: string)
    requires ring.Valid() && Enabled(ring, s, By(me, Choose(id, now))) && Asks(s.managers[me].view, me, r)
    ensures SelectionBase(ring, s, me, now) == Ok((s.managers[me].view, s.rows))
    ensures Selected(ring, me, s.managers[me].view, id)
  {
    hide Selected;
    var view := s.managers[me].view;
    var asked :| IsCandidate(view, me, asked) && view.records[asked].handle.request.service == r;
    assert HasCandidate(view, me);
  }

  lemma ViewIsWellPosted(ring: Ring, s: State, me: string)
    requires ring.Valid() && Inv(ring, s) && me in s.managers
    ensures ViewWellPosted(ring, s.managers[me].view)
  {
    hide Inv, ManagerInv, LedgerInv, WellPosted;
    ManagerOf(ring, s, me);
    ManagerBasics(ring, s.rows, s.chain, me, s.managers[me]);
    CopiesAreWellPosted(ring, s.rows, s.chain, s.chainRows, s.managers[me].view);
  }

  lemma Nearer(ring: Ring, me: string, view: View, id: string, r: string)
    requires ring.Valid() && ring.Member(me) && ring.Member(r) && ViewWellPosted(ring, view)
    requires Selected(ring, me, view, id) && Asks(view, me, r) && id in view.records
    ensures 1 + HopsTo(ring, TargetOf(view, id), r) <= HopsTo(ring, me, r)
  {
    hide Selected, Asks, ViewWellPosted, Hops;
    AskerIsElsewhere(ring, me, view, r);
    OvertakerIsBetween(ring, me, view, id, r);
    HopsSeparate(ring, r, r, r);
    if TargetOf(view, id) == r { NoHops(ring, r); }
  }

  lemma NoHops(ring: Ring, r: string)
    requires ring.Valid() && ring.Member(r)
    ensures Hops(ring, r, r) == 0
  {
    DistanceForm(ring, ring.IndexOf(r), ring.IndexOf(r));
  }

  /** Publishing uses up exactly the link that was settled on. */
  lemma PublishKeepsCount(ring: Ring, s: State, me: string, r: string)
    requires ring.Valid() && Inv(ring, s) && Enabled(ring, s, By(me, Publish))
    ensures s.chain != [] && Holder(s) == me
    ensures var next := Apply(ring, s, By(me, Publish));
      |next.chain| == |s.chain| + 1 && s.chain <= next.chain && Remaining(ring, next, r) + 1 == Remaining(ring, s, r)
  {
    hide Inv, Enabled, Apply, ManagerInv, LedgerInv, MarkGranted, HopsTo, WorldStep;
    var record := PublishApplies(ring, s, me);
    OnlyTheHolderDecides(ring, s, me);
    PublishParts(ring, s, me, record);
    var target := record.handle.request.service;
    TargetIsManaged(ring, s, target);
    if Decided(s.managers[target]).Some? { OnlyTheHolderDecides(ring, s, target); }
  }

  lemma TargetIsManaged(ring: Ring, s: State, service: string)
    requires ring.Valid() && Inv(ring, s)
    ensures service in s.managers <==> ring.Member(service)
  {
    hide ManagerInv, LedgerInv, LogOk;
  }

  /** One manager moved, no link was issued, and what it has settled on is the same. */
  ghost predicate SameDecision(s: State, next: State, me: string) {
    && me in s.managers && me in next.managers && next.chain == s.chain
    && next.managers == s.managers[me := next.managers[me]]
    && Decided(next.managers[me]) == Decided(s.managers[me])
  }

  /** One manager moved to the given call stack, and no link was issued. */
  ghost predicate MovedTo(s: State, next: State, me: string, stack: seq<Frame>) {
    && me in s.managers && me in next.managers && next.chain == s.chain
    && next.managers == s.managers[me := next.managers[me]] && next.managers[me].stack == stack
  }

  lemma MovedTwice(s: State, mid: State, next: State, me: string, here: seq<Frame>, there: seq<Frame>)
    requires MovedTo(s, mid, me, here) && MovedTo(mid, next, me, there)
    ensures MovedTo(s, next, me, there)
  {
    assert s.managers[me := mid.managers[me]][me := next.managers[me]] == s.managers[me := next.managers[me]];
  }

  lemma FallbackMoves(ring: Ring, s: State, me: string, now: int)
    requires ring.Valid() && ring.Member(me) && me in s.managers && s.managers[me].view.lastSequence >= -1
    ensures MovedTo(s, KeepFallbackPosted(ring, s, me, now), me, s.managers[me].stack)
  {
    hide EnsureFallback;
    assert s.managers == s.managers[me := s.managers[me]];
  }

  lemma AcquireMoves(s: State, me: string, acquire: bool)
    requires me in s.managers
    ensures MovedTo(s, Acquire(s, me, acquire), me, s.managers[me].stack)
  {
    assert s.managers == s.managers[me := s.managers[me]];
  }

  /** No other step changes what a transfer has settled on. */
  lemma DecisionIsKept(ring: Ring, s: State, me: string, step: Step)
    requires ring.Valid() && Inv(ring, s) && Enabled(ring, s, By(me, step)) && !step.Choose? && !step.Publish?
    ensures SameDecision(s, Apply(ring, s, By(me, step)), me)
  {
    hide Inv, Enabled, Apply, ManagerInv, LedgerInv, LogOk, Decided, PushesLoop, NewScan, StartTransfer;
    match step
    case Post(request) => PostDecides(ring, s, me, request);
    case Poll => PushStepDecides(ring, s, me, step);
    case Release => PushStepDecides(ring, s, me, step);
    case Rescan => PushStepDecides(ring, s, me, step);
    case Process(now) => ProcessDecides(ring, s, me, now);
    case EndReconcile => EndDecides(ring, s, me);
    case BeginRelease => BeginDecides(ring, s, me);
    case GiveUp => GiveUpDecides(ring, s, me);
    case SelectionFails => FailDecides(ring, s, me);
    case Vacate => VacateDecides(ring, s, me);
    case CloseOwn => CloseDecides(ring, s, me);
    case Adopt => AdoptDecides(ring, s, me);
  }

  lemma PostDecides(ring: Ring, s: State, me: string, request: Request)
    requires ring.Valid() && Enabled(ring, s, By(me, Post(request)))
    ensures SameDecision(s, Apply(ring, s, By(me, Post(request))), me)
  {
  }

  lemma PushStepDecides(ring: Ring, s: State, me: string, step: Step)
    requires ring.Valid() && Enabled(ring, s, By(me, step)) && (step == Poll || step == Release || step == Rescan)
    ensures SameDecision(s, Apply(ring, s, By(me, step)), me)
  {
    hide Enabled, Apply, PushesLoop, Decided;
    var stack := PushApplies(ring, s, me, step);
    PushDecides(s.managers[me], stack, NewScan(s));
  }

  lemma BeginDecides(ring: Ring, s: State, me: string)
    requires ring.Valid() && Enabled(ring, s, By(me, BeginRelease))
    ensures SameDecision(s, Apply(ring, s, By(me, BeginRelease)), me)
  {
    hide Enabled, Apply;
    BeginReleaseApplies(ring, s, me);
  }

  lemma VacateDecides(ring: Ring, s: State, me: string)
    requires ring.Valid() && Enabled(ring, s, By(me, Vacate))
    ensures SameDecision(s, Apply(ring, s, By(me, Vacate)), me)
  {
    hide Enabled, Apply;
    var record := VacateApplies(ring, s, me);
  }

  lemma PushDecides(m: Manager, stack': seq<Frame>, loop: Frame)
    requires PushesLoop(m, stack', loop) && loop.Reconciling?
    ensures Decided(m.(stack := stack')).None? && Decided(m).None?
  {
  }

  lemma PutMoves(s: State, me: string, m: Manager)
    requires me in s.managers
    ensures MovedTo(s, Put(s, me, m), me, m.stack)
  {
  }

  /** A turn of the loop leaves the rest of the loop, or a transfer just begun, on top. */
  lemma ProcessMoves(ring: Ring, s: State, me: string, now: int)
    requires ring.Valid() && ring.Member(me) && me in s.managers && s.managers[me].view.lastSequence >= -1
    requires RecordWaiting(s.managers[me])
    ensures var m := s.managers[me];
      var popped := SetTop(m, m.stack[|m.stack| - 1].(pending := m.stack[|m.stack| - 1].pending[1..]));
      || MovedTo(s, ProcessRecord(ring, s, me, now), me, popped.stack)
      || (!m.transferring && MovedTo(s, ProcessRecord(ring, s, me, now), me, popped.stack + [Transferring(Waiting)]))
  {
    hide KeepFallbackPosted, Acquire, MovedTo, TakeRecord, SetTop, Ring.ModeFor, ApplyGrant;
    var m := s.managers[me];
    var frame := m.stack[|m.stack| - 1];
    var record := frame.pending[0];
    var popped := SetTop(m, frame.(pending := frame.pending[1..]));
    SetTopKeepsFields(m, frame.(pending := frame.pending[1..]));
    var view := TakeRecord(m.view, record);
    TakenSequence(m.view, record);
    var taken := popped.(view := view);
    PutMoves(s, me, taken);
    PutMoves(s, me, taken.(failure := ProtocolError));
    PutMoves(s, me, StartTransfer(taken, me));
    FallbackMoves(ring, Put(s, me, taken), me, now);
    MovedTwice(s, Put(s, me, taken), KeepFallbackPosted(ring, Put(s, me, taken), me, now), me, popped.stack, popped.stack);
    if record.grant.Some? && ApplyGrant(ring, me, view, record.grant.value).Advanced? {
      var Advanced(after, acquire) := ApplyGrant(ring, me, view, record.grant.value);
      AdvancedSequence(ring, me, view, record.grant.value);
      GrantMoves(ring, s, me, taken.(view := after), acquire, now);
    }
  }

  lemma GrantMoves(ring: Ring, s: State, me: string, m: Manager, acquire: bool, now: int)
    requires ring.Valid() && ring.Member(me) && me in s.managers && m.view.lastSequence >= -1
    ensures Acquire(Put(s, me, m), me, acquire).managers[me].view == m.view
    ensures MovedTo(s, KeepFallbackPosted(ring, Acquire(Put(s, me, m), me, acquire), me, now), me, m.stack)
  {
    hide KeepFallbackPosted, MovedTo;
    var moved := Put(s, me, m);
    var acquired := Acquire(moved, me, acquire);
    PutMoves(s, me, m);
    AcquireMoves(moved, me, acquire);
    MovedTwice(s, moved, acquired, me, m.stack, m.stack);
    FallbackMoves(ring, acquired, me, now);
    AcquireKeepsStack(moved, me, acquire);
    MovedTwice(s, acquired, KeepFallbackPosted(ring, acquired, me, now), me, m.stack, m.stack);
  }

  lemma AcquireKeepsStack(s: State, me: string, acquire: bool)
    requires me in s.managers
    ensures me in Acquire(s, me, acquire).managers && Acquire(s, me, acquire).managers[me].stack == s.managers[me].stack
  {
  }

  lemma SetTopKeepsFields(m: Manager, frame: Frame)
    requires m.stack != []
    ensures SetTop(m, frame) == m.(stack := SetTop(m, frame).stack)
  {
  }

  lemma TakenSequence(view: View, record: Record)
    ensures TakeRecord(view, record).lastSequence == view.lastSequence
  {
  }

  lemma AdvancedSequence(ring: Ring, me: string, view: View, grant: Grant)
    requires ring.Valid() && ApplyGrant(ring, me, view, grant).Advanced? && view.lastSequence >= -1
    ensures ApplyGrant(ring, me, view, grant).view.lastSequence >= -1
  {
  }

  lemma ProcessDecides(ring: Ring, s: State, me: string, now: int)
    requires ring.Valid() && Enabled(ring, s, By(me, Process(now)))
    ensures SameDecision(s, Apply(ring, s, By(me, Process(now))), me)
  {
    hide ProcessRecord;
    ProcessMoves(ring, s, me, now);
  }

  lemma EndDecides(ring: Ring, s: State, me: string)
    requires ring.Valid() && Inv(ring, s) && Enabled(ring, s, By(me, EndReconcile))
    ensures SameDecision(s, Apply(ring, s, By(me, EndReconcile)), me)
  {
    hide Inv, LedgerInv, LogOk;
    TargetIsManaged(ring, s, me);
    StackFacts(ring, s, me);
    PopKeepsTransfer(s.managers[me]);
  }

  lemma GiveUpDecides(ring: Ring, s: State, me: string)
    requires ring.Valid() && Inv(ring, s) && Enabled(ring, s, By(me, GiveUp))
    ensures SameDecision(s, Apply(ring, s, By(me, GiveUp)), me)
  {
    hide Inv, LedgerInv, LogOk, LoopOk, PhaseOk, CopiesOk, OwnerOk, HasCandidate, Synthesises;
    TargetIsManaged(ring, s, me);
    ManagerOf(ring, s, me);
    EndKeepsStack(ring, s.rows, s.chain, me, s.managers[me]);
  }

  lemma FailDecides(ring: Ring, s: State, me: string)
    requires ring.Valid() && Enabled(ring, s, By(me, SelectionFails))
    ensures SameDecision(s, Apply(ring, s, By(me, SelectionFails)), me)
  {
    hide SelectionBase;
  }

  lemma CloseDecides(ring: Ring, s: State, me: string)
    requires ring.Valid() && Enabled(ring, s, By(me, CloseOwn))
    ensures SameDecision(s, Apply(ring, s, By(me, CloseOwn)), me)
  {
    hide CloseGranted;
  }

  lemma AdoptDecides(ring: Ring, s: State, me: string)
    requires ring.Valid() && Inv(ring, s) && Enabled(ring, s, By(me, Adopt))
    ensures SameDecision(s, Apply(ring, s, By(me, Adopt)), me)
  {
    hide Apply, Enabled, Inv, LedgerInv, LogOk, StackOk, CopiesOk, OwnerOk, ApplyGrant, IssuedOk, PositionOk, RecordsUpTo, EndTransfer;
    AdoptApplies(ring, s, me);
    ManagerOf(ring, s, me);
    var m := s.managers[me];
    AdoptManager(ring, s.rows, s.chain, me, m);
    EndKeepsStack(ring, s.rows, s.chain, me, m);
    var view := ApplyGrant(ring, me, m.view, PhaseOf(m).value.next).view;
    EndOfStack(m, view);
    PutMoves(s, me, EndTransfer(m.(view := view)));
  }

  lemma EndOfStack(m: Manager, view: View)
    requires m.stack != []
    ensures Decided(EndTransfer(m.(view := view))) == Decided(EndTransfer(m))
  {
  }

  /** The count of links so far and links to come never grows before `r` is served. */
  lemma StepComesNearer(ring: Ring, s: State, a: Action, r: string)
    requires ring.Valid() && Inv(ring, s) && ring.Member(r) && Enabled(ring, s, a) && s.chain != []
    requires a.By? && a.step.Choose? ==> Asks(s.managers[a.me].view, a.me, r)
    ensures var next := Apply(ring, s, a);
      s.chain <= next.chain && |next.chain| + Remaining(ring, next, r) <= |s.chain| + Remaining(ring, s, r)
  {
    hide Inv, Enabled, Apply, HopsTo;
    match a
    case GenesisCreate => CreateDecides(ring, s);
    case GenesisGrant => GrantComesFirst(ring, s);
    case By(me, step) =>
      if step.Choose? {
        ChoiceIsNearer(ring, s, me, step.id, step.now, r);
      } else if step.Publish? {
        PublishKeepsCount(ring, s, me, r);
      } else {
        DecisionIsKept(ring, s, me, step);
      }
  }

  lemma CreateDecides(ring: Ring, s: State)
    requires ring.Valid() && Enabled(ring, s, GenesisCreate)
    ensures Apply(ring, s, GenesisCreate).chain == s.chain && Apply(ring, s, GenesisCreate).managers == s.managers
  {
  }

  lemma GrantComesFirst(ring: Ring, s: State)
    requires ring.Valid() && Enabled(ring, s, GenesisGrant)
    ensures s.chain == []
  {
  }

  // ---- whole runs ------------------------------------------------------------------------

  lemma AsksBefore(ring: Ring, s: State, actions: seq<Action>, r: string)
    requires ring.Valid() && actions != [] && AsksUntilServed(ring, s, actions, r)
    ensures AsksUntilServed(ring, s, actions[..|actions| - 1], r)
  {
    hide Run, Served, Asks, Apply;
    var front := actions[..|actions| - 1];
    forall i, mid |
      && 0 <= i < |front| && Run(ring, s, front[..i], mid) && Enabled(ring, mid, front[i])
      && front[i].By? && front[i].step.Choose? && !Served(mid.chain, |s.chain|, |mid.chain|, r)
      ensures Asks(mid.managers[front[i].me].view, front[i].me, r)
    {
      assert front[..i] == actions[..i] && front[i] == actions[i];
    }
  }

  lemma StaysServed(chain: seq<Grant>, chain': seq<Grant>, from: nat, bound: int, wider: int, r: string)
    requires chain <= chain' && bound <= wider && Served(chain, from, bound, r)
    ensures Served(chain', from, wider, r)
  {
    var k :| from <= k < |chain| && k - from < bound && chain[k].target == r;
    assert chain'[k] == chain[k];
  }

  lemma {:induction false} RunComesNearer(ring: Ring, s: State, actions: seq<Action>, end: State, r: string)
    requires ring.Valid() && Inv(ring, s) && ring.Member(r) && s.chain != []
    requires Run(ring, s, actions, end) && AsksUntilServed(ring, s, actions, r)
    ensures Inv(ring, end) && s.chain <= end.chain
    ensures Served(end.chain, |s.chain|, Remaining(ring, s, r), r)
            || |end.chain| + Remaining(ring, end, r) <= |s.chain| + Remaining(ring, s, r)
    decreases |actions|
  {
    hide Inv, Enabled, Apply, Remaining, Served, Asks;
    if actions != [] {
      var front, last := actions[..|actions| - 1], actions[|actions| - 1];
      var mid :| Run(ring, s, front, mid) && Enabled(ring, mid, last) && Apply(ring, mid, last) == end;
      AsksBefore(ring, s, actions, r);
      RunComesNearer(ring, s, front, mid, r);
      StepKeeps(ring, mid, last);
      ChainOnlyGrows(ring, mid, last);
      if Served(mid.chain, |s.chain|, Remaining(ring, s, r), r) {
        StaysServed(mid.chain, end.chain, |s.chain|, Remaining(ring, s, r), Remaining(ring, s, r), r);
      } else {
        NotServedYet(mid.chain, |s.chain|, Remaining(ring, s, r), r);
        StepComesNearer(ring, mid, last, r);
      }
    }
  }

  /** So few links that all of them are within the bound. */
  lemma NotServedYet(chain: seq<Grant>, from: nat, bound: int, r: string)
    requires |chain| <= from + bound
    ensures Served(chain, from, |chain|, r) ==> Served(chain, from, bound, r)
  {
    if Served(chain, from, |chain|, r) {
      var k :| from <= k < |chain| && chain[k].target == r;
      assert k - from < bound;
    }
  }

  /** A member that has an open on-demand request in the view of whoever chooses is
      served within `Remaining` links of any reachable state: within its ring distance
      from the holder, or, when the holder had already settled on somebody, one link
      more than the distance from there. */
  lemma BoundedOvertaking(ring: Ring, s: State, actions: seq<Action>, end: State, r: string) returns (k: nat)
    requires ring.Valid() && Reachable(ring, s) && ring.Member(r) && s.chain != []
    requires Run(ring, s, actions, end) && AsksUntilServed(ring, s, actions, r)
    requires |end.chain| > |s.chain| && |end.chain| - |s.chain| >= Remaining(ring, s, r)
    ensures |s.chain| <= k < |end.chain| && k - |s.chain| < Remaining(ring, s, r)
    ensures end.chain[k].target == r
    ensures Remaining(ring, s, r) <= |ring.nodes|
    ensures Holder(s) in s.managers && Decided(s.managers[Holder(s)]).None? ==>
      Remaining(ring, s, r) == Hops(ring, Holder(s), r) <= |ring.nodes| - 1
  {
    hide Inv, Reachable, Run, AsksUntilServed, Hops;
    ReachableKeeps(ring, s);
    RunComesNearer(ring, s, actions, end, r);
    HolderIsManaged(ring, s);
    HolderIsManaged(ring, end);
    if |end.chain| + Remaining(ring, end, r) <= |s.chain| + Remaining(ring, s, r) {
      HopsSeparate(ring, Holder(end), r, r);
      assert Holder(end) == r;
      k := |end.chain| - 1;
    } else {
      k :| |s.chain| <= k < |end.chain| && k - |s.chain| < Remaining(ring, s, r) && end.chain[k].target == r;
    }
  }

  lemma HolderIsManaged(ring: Ring, s: State)
    requires ring.Valid() && Inv(ring, s) && s.chain != []
    ensures ring.Member(Holder(s)) && Holder(s) in s.managers
  {
    hide ManagerInv, LedgerInv, LogOk;
  }
}

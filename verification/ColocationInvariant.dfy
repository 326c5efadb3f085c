/** The inductive invariant of the composed ring. It ties every manager's
    stale view to the true ledger through one notion: a copy of a row is
    `Missing` a grant up to some sequence, or it is not. */
module ColocationInvariant {
  import opened Wrappers
  import opened ColocationRing
  import opened RequestLedger
  import opened ColocationView
  import opened ColocationProtocol

  // ---- the ledger -----------------------------------------------------------

  ghost predicate GrantedAt(rows: seq<Row>, row: nat, grant: Grant) {
    row < |rows| && rows[row].grant == Some(grant)
  }

  ghost predicate Linked(ring: Ring, chain: seq<Grant>)
    requires ring.Valid()
  {
    && (forall k :: 0 <= k < |chain| ==> chain[k].sequence == k)
    && (|chain| > 0 ==> chain[0].source == AUTHORITY && chain[0].target == ring.InitialOwner())
    && (forall k :: 0 < k < |chain| ==> chain[k].source == chain[k - 1].target)
  }

  /** The granted rows of the ledger are exactly the links of the chain. */
  ghost predicate LedgerInv(ring: Ring, rows: seq<Row>, chain: seq<Grant>, chainRows: seq<nat>)
    requires ring.Valid()
  {
    && Linked(ring, chain)
    && |chainRows| == |chain|
    && (forall k :: 0 <= k < |chain| ==> GrantedAt(rows, chainRows[k], chain[k]))
    && (forall i :: 0 <= i < |rows| && rows[i].grant.Some? ==>
          && 0 <= rows[i].grant.value.sequence < |chain|
          && chainRows[rows[i].grant.value.sequence] == i
          && rows[i].grant == Some(chain[rows[i].grant.value.sequence])
          && rows[i].grant.value.target == rows[i].request.service
          && rows[i].grant.value.requestId == rows[i].request.id)
    && (forall i :: 0 <= i < |rows| ==> WellPosted(ring, rows[i].request))
    && (forall i :: 0 <= i < |rows| && rows[i].state == Open ==> rows[i].grant.None?)
  }

  // ---- copies of rows ---------------------------------------------------------

  /** A copy never disagrees with its row; it can only have missed its grant. */
  ghost predicate HandleOk(rows: seq<Row>, handle: Handle) {
    && handle.row < |rows|
    && rows[handle.row].request == handle.request
    && (handle.grant.Some? ==> rows[handle.row].grant == handle.grant)
  }

  ghost predicate RecordOk(rows: seq<Row>, record: Record) {
    && HandleOk(rows, record.handle)
    && record.grant == record.handle.grant
    && (record.state == Open ==> record.grant.None?)
  }

  /** The copy was taken before its row was granted with a sequence up to `bound`. */
  ghost predicate Missing(rows: seq<Row>, handle: Handle, bound: int)
    requires HandleOk(rows, handle)
  {
    && handle.grant.None?
    && rows[handle.row].grant.Some?
    && rows[handle.row].grant.value.sequence <= bound
  }

  // ---- a manager's view ---------------------------------------------------------

  ghost predicate PositionOk(ring: Ring, chain: seq<Grant>, view: View) {
    && -1 <= view.lastSequence < |chain|
    && (view.lastSequence < 0 ==> view.grant.None? && view.owner.None?)
    && (view.lastSequence >= 0 ==>
          && view.grant == Some(chain[view.lastSequence])
          && view.owner == Some(chain[view.lastSequence].target))
    && (forall k :: k in view.acquired ==> 0 <= k <= view.lastSequence)
  }

  ghost predicate CopiesOk(rows: seq<Row>, view: View) {
    && (forall id :: id in view.records ==> RecordOk(rows, view.records[id]) && view.records[id].Id() == id)
    && (forall id :: id in view.handles ==> HandleOk(rows, view.handles[id]) && view.handles[id].request.id == id)
  }

  ghost predicate RecordsUpTo(view: View, bound: int) {
    forall id :: id in view.records && view.records[id].grant.Some? ==>
      view.records[id].grant.value.sequence <= bound
  }

  /** Nothing in the view has missed a grant up to `bound`. */
  ghost predicate Fresh(rows: seq<Row>, view: View, bound: int)
    requires CopiesOk(rows, view)
  {
    && (forall id :: id in view.records ==> !Missing(rows, view.records[id].handle, bound))
    && (forall id :: id in view.handles ==> !Missing(rows, view.handles[id], bound))
  }

  ghost predicate Waits(pending: seq<Record>, id: string) {
    exists i :: 0 <= i < |pending| && pending[i].Id() == id
  }

  ghost predicate Delivers(pending: seq<Record>, grant: Grant) {
    exists i :: 0 <= i < |pending| && pending[i].grant == Some(grant)
  }

  /** A loop over a scan: what is still to come covers everything the view does
      not know yet, as of the moment of the scan. */
  ghost predicate LoopOk(rows: seq<Row>, chain: seq<Grant>, view: View, pending: seq<Record>, asOf: int)
    requires CopiesOk(rows, view)
  {
    && -1 <= asOf < |chain| && -1 <= view.lastSequence
    && SortedBySequence(pending)
    && (forall i :: 0 <= i < |pending| ==>
          && RecordOk(rows, pending[i])
          && !Missing(rows, pending[i].handle, asOf)
          && (pending[i].grant.Some? ==> pending[i].grant.value.sequence <= asOf))
    && (forall k :: view.lastSequence < k <= asOf ==> Delivers(pending, chain[k]))
    && (forall id :: id in view.records && Missing(rows, view.records[id].handle, asOf) ==> Waits(pending, id))
    && (forall id :: id in view.handles && Missing(rows, view.handles[id], asOf) ==> Waits(pending, id))
  }

  // ---- the call stack ---------------------------------------------------------

  predicate IsTransfer(frame: Frame) { frame.Transferring? }

  ghost predicate HasTransfer(stack: seq<Frame>) {
    exists i :: 0 <= i < |stack| && IsTransfer(stack[i])
  }

  /** Loop, transfer, loop: the mutual recursion is at most two calls deep, and
      a transfer with a loop above it is still in its first phase. */
  predicate Calls(stack: seq<Frame>) {
    && |stack| <= 3
    && (|stack| >= 1 ==> stack[0].Reconciling?)
    && (|stack| >= 2 ==> stack[1].Transferring?)
    && (|stack| >= 3 ==> stack[1] == Transferring(Waiting) && stack[2].Reconciling?)
  }

  predicate Shape(stack: seq<Frame>) {
    if stack != [] && stack[0].ReleaseCommand? then
      || Calls(stack[1..])
      || (|stack| == 2 && stack[1].Transferring?)
      || (|stack| == 3 && stack[1] == Transferring(Waiting) && stack[2].Reconciling?)
    else Calls(stack)
  }

  predicate IsPublished(m: Manager) {
    PhaseOf(m).Some? && PhaseOf(m).value.Published?
  }

  predicate HasLeft(m: Manager) {
    PhaseOf(m).Some? && (PhaseOf(m).value.Vacated? || PhaseOf(m).value.SelfClosed? || PhaseOf(m).value.Published?)
  }

  /** The record a transfer has settled on. */
  ghost predicate PhaseOk(ring: Ring, rows: seq<Row>, chain: seq<Grant>, me: string, view: View, phase: Phase) {
    match phase
    case Waiting => true
    case Published(record, next) =>
      && 0 <= view.lastSequence && view.lastSequence + 1 < |chain|
      && next == chain[view.lastSequence + 1] && next.target != me
    case _ =>
      && RecordOk(rows, phase.record)
      && phase.record.grant.None?
      && !Missing(rows, phase.record.handle, view.lastSequence)
      && phase.record.handle.request.service != me
  }

  /** A manager that owns the card has missed nothing. */
  ghost predicate OwnerOk(rows: seq<Row>, m: Manager)
    requires CopiesOk(rows, m.view)
  {
    && Fresh(rows, m.view, m.view.lastSequence)
    && (forall i :: 0 <= i < |m.stack| && m.stack[i].Reconciling? ==> m.stack[i].asOf >= m.view.lastSequence)
  }

  /** Every link a manager issued, it has applied, save one it just published. */
  ghost predicate IssuedOk(chain: seq<Grant>, me: string, m: Manager) {
    forall k :: 1 <= k < |chain| && chain[k].source == me ==>
      k <= m.view.lastSequence + (if IsPublished(m) then 1 else 0)
  }

  ghost predicate StackOk(ring: Ring, rows: seq<Row>, chain: seq<Grant>, me: string, m: Manager)
    requires CopiesOk(rows, m.view)
  {
    && Shape(m.stack)
    && (m.transferring <==> HasTransfer(m.stack))
    && (HasTransfer(m.stack) ==> Owns(m.view, me))
    && (forall i :: 0 <= i < |m.stack| && m.stack[i].Reconciling? ==>
          LoopOk(rows, chain, m.view, m.stack[i].pending, m.stack[i].asOf))
    && (forall i :: 0 <= i < |m.stack| && m.stack[i].Transferring? ==>
          PhaseOk(ring, rows, chain, me, m.view, m.stack[i].phase))
  }

  ghost predicate ManagerInv(ring: Ring, rows: seq<Row>, chain: seq<Grant>, me: string, m: Manager) {
    && PositionOk(ring, chain, m.view)
    && CopiesOk(rows, m.view)
    && RecordsUpTo(m.view, m.view.lastSequence + (if IsPublished(m) then 1 else 0))
    && StackOk(ring, rows, chain, me, m)
    && (Owns(m.view, me) && !IsPublished(m) ==> OwnerOk(rows, m))
    && IssuedOk(chain, me, m)
    && (m.resident <==> Owns(m.view, me) && !HasLeft(m))
    && (m.failure == NoFailure || m.failure == UnknownService)
  }

  // ---- the residency log ---------------------------------------------------------

  /** How many acquire and release callbacks the newest link accounts for. */
  ghost function Progress(s: State): int
    requires |s.chain| > 0 ==> s.chain[|s.chain| - 1].target in s.managers
  {
    if s.chain == [] then 0
    else
      var k := |s.chain| - 1;
      var m := s.managers[s.chain[k].target];
      2 * k + (if m.view.lastSequence < k then 0 else if !HasLeft(m) then 1 else 2)
  }

  ghost predicate LogOk(s: State)
    requires |s.chain| > 0 ==> s.chain[|s.chain| - 1].target in s.managers
  {
    && |s.log| == Progress(s)
    && forall i :: 0 <= i < |s.log| ==>
         s.log[i] == if i % 2 == 0 then AcquiredBy(s.chain[i / 2].target) else ReleasedBy(s.chain[i / 2].target)
  }

  ghost predicate GenesisOk(ring: Ring, rows: seq<Row>, genesis: Option<nat>)
    requires ring.Valid()
  {
    genesis.Some? ==> genesis.value < |rows| && rows[genesis.value].request == GenesisRequest(ring)
  }

  ghost predicate Inv(ring: Ring, s: State)
    requires ring.Valid()
  {
    && (forall service :: service in s.managers <==> ring.Member(service))
    && LedgerInv(ring, s.rows, s.chain, s.chainRows)
    && GenesisOk(ring, s.rows, s.genesis)
    && (s.chain != [] ==> ring.Member(s.chain[|s.chain| - 1].target))
    && (forall service :: service in s.managers ==>
          ManagerInv(ring, s.rows, s.chain, service, s.managers[service]))
    && LogOk(s)
  }

  // ---- elementary facts ---------------------------------------------------------

  /** A manager that believes it owns the card, and has not just handed it on,
      is looking at the newest link. */
  lemma OwnerIsCurrent(ring: Ring, rows: seq<Row>, chain: seq<Grant>, me: string, m: Manager)
    requires ring.Valid() && Linked(ring, chain)
    requires ManagerInv(ring, rows, chain, me, m)
    requires Owns(m.view, me) && !IsPublished(m)
    ensures m.view.lastSequence == |chain| - 1 >= 0
  {
    hide CopiesOk, StackOk, OwnerOk, RecordsUpTo, Owns;
    var k := OwnerPosition(ring, chain, me, m.view);
    if k + 1 < |chain| { LinkFollows(ring, chain, k + 1); }
  }

  lemma OwnerPosition(ring: Ring, chain: seq<Grant>, me: string, view: View) returns (k: nat)
    requires PositionOk(ring, chain, view) && Owns(view, me)
    ensures k == view.lastSequence < |chain| && chain[k].target == me
  {
    k := view.lastSequence;
  }

  lemma LinkFollows(ring: Ring, chain: seq<Grant>, k: nat)
    requires ring.Valid() && Linked(ring, chain) && 0 < k < |chain|
    ensures chain[k].source == chain[k - 1].target
  {
  }
}

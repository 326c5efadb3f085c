/** The composed ring: every member's manager runs against one shared ledger,
    and any two steps of different managers may interleave.

    A manager's control state is the stack of calls its thread is inside.
    `_reconcile` and `_transfer` call each other, so the stack is explicit
    here, one frame per active call, and the four observable moments of a
    hand-over (release callback, closing the own row, publishing the grant,
    applying it locally) are separate steps. */
module ColocationProtocol {
  import opened Wrappers
  import opened ColocationRing
  import opened RequestLedger
  import opened ColocationView

  datatype Phase =
    | Waiting                                // phase 1: for the next ring member
    | Chosen(record: Record)                 // selected, card still resident
    | Vacated(record: Record)                // release callback has run
    | SelfClosed(record: Record)             // own request row is closed
    | Published(record: Record, next: Grant) // grant row written, not yet applied here

  datatype Frame =
    | Reconciling(pending: seq<Record>, asOf: int)
    | Transferring(phase: Phase)
    | ReleaseCommand

  datatype Failure = NoFailure | UnknownService | ProtocolError | ReentryError | NotOwner

  datatype Manager = Manager(
    view: View, stack: seq<Frame>, transferring: bool, resident: bool, failure: Failure)

  /** What the owner callbacks of all services did, in order. */
  datatype Event = AcquiredBy(service: string) | ReleasedBy(service: string)

  /** `chain`, `chainRows` and `log` are history: no step reads them, except
      that a scan notes in its frame how many grants existed when it was taken. */
  datatype State = State(
    rows: seq<Row>, managers: map<string, Manager>, genesis: Option<nat>,
    chain: seq<Grant>, chainRows: seq<nat>, log: seq<Event>)

  /** What one manager's thread can do next. */
  datatype Step =
    | Post(request: Request)
    | Poll
    | Release
    | Process(now: int)
    | EndReconcile
    | BeginRelease
    | Rescan
    | Choose(id: string, now: int)
    | GiveUp
    | SelectionFails
    | Vacate
    | CloseOwn
    | Publish
    | Adopt

  datatype Action = GenesisCreate | GenesisGrant | By(me: string, step: Step)

  const IDLE := Manager(EMPTY_VIEW, [], false, false, NoFailure)

  ghost function Init(ring: Ring): State {
    State([], map service: string | service in Names(ring) :: IDLE, None, [], [], [])
  }

  function Names(ring: Ring): set<string> {
    set i | 0 <= i < |ring.nodes| :: ring.nodes[i].service
  }

  function Below(m: Manager): seq<Frame>
    requires m.stack != []
  {
    m.stack[..|m.stack| - 1]
  }

  /** The phase of the transfer the manager is executing right now. */
  function PhaseOf(m: Manager): Option<Phase> {
    if m.stack != [] && m.stack[|m.stack| - 1].Transferring? then Some(m.stack[|m.stack| - 1].phase) else None
  }

  function Put(s: State, me: string, m: Manager): State {
    s.(managers := s.managers[me := m])
  }

  function NewScan(s: State): Frame {
    Reconciling(Snapshot(s.rows), |s.chain| - 1)
  }

  function SetTop(m: Manager, frame: Frame): Manager
    requires m.stack != []
  {
    m.(stack := Below(m) + [frame])
  }

  /** Leaving `_transfer`: a release command that made the call ends with it. */
  function EndTransfer(m: Manager): Manager
    requires m.stack != []
  {
    m.(stack := if Below(m) == [ReleaseCommand] then [] else Below(m), transferring := false)
  }

  predicate RecordWaiting(m: Manager) {
    m.stack != [] && m.stack[|m.stack| - 1].Reconciling? && m.stack[|m.stack| - 1].pending != []
  }

  // ---- processing one record of a scan -----------------------------------

  function TakeRecord(view: View, record: Record): View {
    view.(records := view.records[record.Id() := record],
          handles := view.handles[record.Id() := record.handle])
  }

  /** The effect of one turn of `_reconcile`'s loop on the manager, the ledger
      and the residency log. */
  function ProcessRecord(ring: Ring, s: State, me: string, now: int): State
    requires ring.Valid() && ring.Member(me) && me in s.managers
    requires s.managers[me].view.lastSequence >= -1
    requires RecordWaiting(s.managers[me])
  {
    var m := s.managers[me];
    var frame := m.stack[|m.stack| - 1];
    var record := frame.pending[0];
    var m1 := SetTop(m, frame.(pending := frame.pending[1..]));
    var view := TakeRecord(m.view, record);
    var m2 := m1.(view := view);
    if record.state == Open && Owns(view, me) && ring.ModeFor(me) == Fallback && !m.transferring then
      Put(s, me, StartTransfer(m2, me))
    else if record.grant.None? then Put(s, me, m2)
    else if record.Id() in m.view.records && m.view.records[record.Id()].grant.Some?
            && m.view.records[record.Id()].grant.value.sequence >= record.grant.value.sequence then
      Put(s, me, m2)
    else
      match ApplyGrant(ring, me, view, record.grant.value)
      case InvalidGenesis => Put(s, me, m2.(failure := ProtocolError))
      case NonContiguous => Put(s, me, m2.(failure := ProtocolError))
      case Ignored => KeepFallbackPosted(ring, Put(s, me, m2), me, now)
      case Advanced(after, acquire) =>
        KeepFallbackPosted(ring, Acquire(Put(s, me, m2.(view := after)), me, acquire), me, now)
  }

  function StartTransfer(m: Manager, me: string): Manager {
    if m.transferring then m.(failure := ReentryError)
    else m.(stack := m.stack + [Transferring(Waiting)], transferring := true)
  }

  function Acquire(s: State, me: string, acquire: bool): State
    requires me in s.managers
  {
    if acquire then Put(s, me, s.managers[me].(resident := true)).(log := s.log + [AcquiredBy(me)]) else s
  }

  function KeepFallbackPosted(ring: Ring, s: State, me: string, now: int): State
    requires ring.Valid() && ring.Member(me) && me in s.managers
    requires s.managers[me].view.lastSequence >= -1
  {
    var m := s.managers[me];
    if ring.ModeFor(me) == Fallback && !Owns(m.view, me) then
      match EnsureFallback(ring, m.view, s.rows, me, now)
      case Ok(pair) => Put(s, me, m.(view := pair.0)).(rows := pair.1)
      case Err(_) => Put(s, me, m.(failure := UnknownService))
    else s
  }

  // ---- selection ----------------------------------------------------------

  ghost function SelectionBase(ring: Ring, s: State, me: string, now: int)
    : Result<(View, seq<Row>), string>
    requires me in s.managers && s.managers[me].view.lastSequence >= -1
  {
    SelectionFrom(ring, me, s.managers[me].view, s.rows, now)
  }

  // ---- steps --------------------------------------------------------------

  predicate RecordsDone(m: Manager) {
    m.stack != [] && m.stack[|m.stack| - 1].Reconciling? && m.stack[|m.stack| - 1].pending == []
  }

  /** The row `_transfer` closes: that of the request the owner was granted. */
  predicate OwnHandle(view: View, row: nat) {
    && view.grant.Some? && view.grant.value.requestId in view.handles
    && view.handles[view.grant.value.requestId].row == row
  }

  ghost predicate CanStep(ring: Ring, s: State, me: string, step: Step)
    requires ring.Valid() && ring.Member(me) && me in s.managers
    requires s.managers[me].view.lastSequence >= -1
  {
    var m := s.managers[me];
    match step
    case Post(request) =>
      && m.stack == [] && request.service == me && request.ringIndex == ring.IndexOf(me)
      && request.priority == (if request.kind == OnDemandRequest then 0 else 1)
    case Poll => m.stack == []
    case Release => m.stack == []
    case Process(_) => RecordWaiting(m)
    case EndReconcile => RecordsDone(m)
    case BeginRelease => m.stack == [ReleaseCommand]
    case Rescan => PhaseOf(m) == Some(Waiting) && !HasOpenFrom(m.view, ring.NextMember(me))
    case Choose(id, now) =>
      && PhaseOf(m) == Some(Waiting) && Owns(m.view, me)
      && var base := SelectionBase(ring, s, me, now);
      && base.Ok? && Selected(ring, me, base.value.0, id)
    case GiveUp =>
      && PhaseOf(m) == Some(Waiting)
      && (Owns(m.view, me) ==> !HasCandidate(m.view, me) && !Synthesises(m.view, me))
    case SelectionFails =>
      PhaseOf(m) == Some(Waiting) && Owns(m.view, me) && SelectionBase(ring, s, me, 0).Err?
    case Vacate => PhaseOf(m).Some? && PhaseOf(m).value.Chosen?
    case CloseOwn =>
      && PhaseOf(m).Some? && PhaseOf(m).value.Vacated?
      && forall row: nat :: OwnHandle(m.view, row) ==> row < |s.rows|
    case Publish =>
      PhaseOf(m).Some? && PhaseOf(m).value.SelfClosed? && PhaseOf(m).value.record.handle.row < |s.rows|
    case Adopt => PhaseOf(m).Some? && PhaseOf(m).value.Published?
  }

  ghost predicate Enabled(ring: Ring, s: State, a: Action)
    requires ring.Valid()
  {
    match a
    case GenesisCreate => s.genesis.None?
    case GenesisGrant => s.genesis.Some? && s.chain == [] && s.genesis.value < |s.rows|
    case By(me, step) =>
      && ring.Member(me) && me in s.managers
      && s.managers[me].failure == NoFailure
      && s.managers[me].view.lastSequence >= -1
      && CanStep(ring, s, me, step)
  }

  function GenesisRequest(ring: Ring): Request
    requires ring.Valid()
  {
    Request(ring.InitialOwner(), "genesis", 0, 0, 1, FallbackRequest)
  }

  ghost function Apply(ring: Ring, s: State, a: Action): State
    requires ring.Valid() && Enabled(ring, s, a)
  {
    match a
    case GenesisCreate => s.(genesis := Some(|s.rows|), rows := Create(s.rows, GenesisRequest(ring)))
    case GenesisGrant =>
      var request := GenesisRequest(ring);
      var grant := Grant(0, AUTHORITY, ring.InitialOwner(), request.id);
      s.(rows := GrantRow(s.rows, Handle(s.genesis.value, request, None), grant),
         chain := [grant], chainRows := [s.genesis.value])
    case By(me, step) => DoStep(ring, s, me, step)
  }

  ghost function DoStep(ring: Ring, s: State, me: string, step: Step): State
    requires ring.Valid() && ring.Member(me) && me in s.managers
    requires s.managers[me].view.lastSequence >= -1
    requires CanStep(ring, s, me, step)
  {
    var m := s.managers[me];
    match step
    case Post(request) =>
      Put(s, me, m.(view := m.view.(handles := m.view.handles[request.id := CreatedHandle(s.rows, request)])))
      .(rows := Create(s.rows, request))
    case Poll => Put(s, me, m.(stack := [NewScan(s)]))
    case Release => Put(s, me, m.(stack := [ReleaseCommand, NewScan(s)]))
    case Process(now) => ProcessRecord(ring, s, me, now)
    case EndReconcile => Put(s, me, m.(stack := Below(m)))
    case BeginRelease =>
      if !Owns(m.view, me) then Put(s, me, m.(stack := [])) else Put(s, me, StartTransfer(m, me))
    case Rescan => Put(s, me, m.(stack := m.stack + [NewScan(s)]))
    case Choose(id, now) =>
      var (view, rows) := SelectionBase(ring, s, me, now).value;
      Put(s, me, SetTop(m.(view := view), Transferring(Chosen(view.records[id])))).(rows := rows)
    case GiveUp => Put(s, me, EndTransfer(m))
    case SelectionFails =>
      Put(s, me, m.(stack := [], transferring := false,
                    failure := if m.stack[0] == ReleaseCommand then NoFailure else UnknownService))
    case Vacate =>
      Put(s, me, SetTop(m, Transferring(Vacated(PhaseOf(m).value.record))).(resident := false))
      .(log := s.log + [ReleasedBy(me)])
    case CloseOwn =>
      Put(s, me, SetTop(m, Transferring(SelfClosed(PhaseOf(m).value.record))))
      .(rows := CloseGranted(s.rows, m.view))
    case Publish =>
      var record := PhaseOf(m).value.record;
      var grant := NextGrant(me, m.view, record);
      Put(s, me, SetTop(m.(view := MarkGranted(m.view, record, grant)), Transferring(Published(record, grant))))
      .(rows := GrantRow(s.rows, record.handle, grant),
        chain := s.chain + [grant], chainRows := s.chainRows + [record.handle.row])
    case Adopt =>
      match ApplyGrant(ring, me, m.view, PhaseOf(m).value.next)
      case Ignored => Put(s, me, EndTransfer(m))
      case Advanced(view, acquire) => Acquire(Put(s, me, EndTransfer(m.(view := view))), me, acquire)
      case _ => Put(s, me, m.(stack := [], transferring := false, failure := ProtocolError))
  }

  function CloseGranted(rows: seq<Row>, view: View): seq<Row>
    requires forall row: nat :: OwnHandle(view, row) ==> row < |rows|
  {
    if view.grant.Some? && view.grant.value.requestId in view.handles then
      assert OwnHandle(view, view.handles[view.grant.value.requestId].row);
      CloseRow(rows, view.handles[view.grant.value.requestId])
    else rows
  }

  function NextGrant(me: string, view: View, record: Record): Grant {
    Grant(view.lastSequence + 1, me, record.handle.request.service, record.Id())
  }

  /** The record and handle objects the owner just granted change in place. */
  function MarkGranted(view: View, record: Record, grant: Grant): View {
    var handle := record.handle.(grant := Some(grant));
    view.(records := view.records[record.Id() := Record(handle, Granted, Some(grant))],
          handles := if record.Id() in view.handles && view.handles[record.Id()].row == handle.row
                     then view.handles[record.Id() := handle] else view.handles)
  }

  /** A run: any finite sequence of enabled steps from the initial state. */
  ghost predicate Run(ring: Ring, start: State, actions: seq<Action>, end: State)
    requires ring.Valid()
    decreases |actions|
  {
    if actions == [] then start == end
    else
      var last := actions[|actions| - 1];
      exists mid ::
        && Run(ring, start, actions[..|actions| - 1], mid)
        && Enabled(ring, mid, last) && Apply(ring, mid, last) == end
  }

  ghost predicate Reachable(ring: Ring, s: State)
    requires ring.Valid()
  {
    exists actions :: Run(ring, Init(ring), actions, s)
  }
}

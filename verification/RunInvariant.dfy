/** What every reachable state of the run keeps. Each part is a predicate over the
    few values it concerns, so that a step that leaves those alone keeps it. */
module RunInvariant {
  import opened RunModel

  // ---- clocks ----------------------------------------------------------------------

  /** The windows a consumer has fetched, marked and published so far. */
  function CriticFetched(c: Critic): int { c.windows + if c.stage.Taken? then 1 else 0 }

  function CriticMarked(c: Critic): int { c.windows - if c.stage.Committing? then 1 else 0 }

  function CriticPublished(c: Critic): int {
    c.windows - if c.stage.Committing? || c.stage.Pruning? || c.stage.Releasing? then 1 else 0
  }

  function TrainerMarked(p: Params, t: Trainer): int { GlobalStep(p, t) - if t.stage.Committing? then 1 else 0 }

  function TrainerPublished(p: Params, t: Trainer): int {
    GlobalStep(p, t) - if t.stage.Committing? || t.stage.Pruning? || t.stage.Releasing? then 1 else 0
  }

  /** The gate clock: the last gate published. */
  function Published(p: Params, c: Critic, t: Trainer): int {
    if TrainerPublished(p, t) > p.cold then TrainerPublished(p, t)
    else if CriticPublished(c) < p.cold then CriticPublished(c) else p.cold
  }

  ghost predicate ClocksOk(p: Params, resume: nat, c: Critic, t: Trainer)
    requires p.Valid()
  {
    && CriticPublished(c) >= resume
    && (c.windows <= p.cold ==> c.gatesRaised == c.windows)
    && (!p.hasCritic ==> c.windows == resume && c.stage == Idle)
    && t.version == t.stepIndex
    && TrainerPublished(p, t) >= Later(p.cold, resume)
    && t.trained < p.batch && t.trained % p.fetch == 0
    && (t.stage.Committing? || t.stage.Pruning? || t.stage.Releasing? ==> t.trained == 0)
    && (!t.up ==> t.stage == Idle && GlobalStep(p, t) == Later(p.cold, resume) && t.trained == 0)
  }

  /** The gate stream: the queue holds exactly the published gates not yet read. */
  ghost predicate GatesOk(p: Params, resume: nat, up: bool, queue: seq<Gate>, r: Rollout, published: int) {
    && resume <= r.gatesSeen
    && (!up ==> queue == [] && r.gatesSeen == resume && published == resume)
    && (up ==> |queue| == published + 1 - r.gatesSeen)
    && (forall i :: 0 <= i < |queue| ==> queue[i] == Gate(r.gatesSeen + i, VersionAt(p, r.gatesSeen + i)))
    && (r.gatesSeen > 0 ==> r.version == VersionAt(p, Later(r.gatesSeen - 1, resume)))
  }

  // ---- pacing ------------------------------------------------------------------------

  ghost predicate BudgetOk(p: Params, resume: nat, base: nat, r: Rollout)
    requires p.Valid()
  {
    && (if r.gatesSeen == 0 then r.started == 0 else r.started <= Samples(p, r.gatesSeen - 1 + p.window))
    && (r.gatesSeen > 1 ==> r.started >= Samples(p, r.gatesSeen - 2 + p.window))
    && r.started % p.group == 0
    && base == (if resume == 0 then 0 else Samples(p, resume - 1 + p.window))
    && base <= r.started
    && (r.gatesSeen == resume ==> r.started == base)
    && (r.stage.Snapshotting? ==>
      && r.gatesSeen == r.stage.step + 1 && Due(p, r.stage.step) && r.stage.step > resume && r.cursor.pending > 0
      && r.started == Samples(p, r.stage.step - 1 + p.window))
  }

  // ---- rows ----------------------------------------------------------------------------

  function Held(stage: Stage): set<nat> { if stage.Idle? then {} else stage.rows }

  /** The critic's rows that carry no column of its own yet, or never will. */
  function Unpublished(p: Params, c: Critic): set<nat> {
    if c.stage.Idle? || (c.stage.Clearing? && c.windows > p.cold) then {} else c.stage.rows
  }

  predicate Placed(rows: Rows, id: nat) {
    id in rows.inflight || id in rows.stored || id in rows.criticCleared || id in rows.trainerCleared
  }

  /** Every started row is in exactly one place, and has exactly one owner. */
  ghost predicate RowsOk(p: Params, base: nat, started: nat, rows: Rows, unpublished: set<nat>, training: set<nat>) {
    && base <= started
    && (forall id: nat :: Placed(rows, id) <==> base <= id < started)
    && rows.inflight !! rows.stored && rows.inflight !! rows.criticCleared && rows.inflight !! rows.trainerCleared
    && rows.stored !! rows.criticCleared && rows.stored !! rows.trainerCleared && rows.criticCleared !! rows.trainerCleared
    && rows.criticTook == rows.criticCleared + rows.valued + unpublished
    && rows.criticCleared !! rows.valued && unpublished !! rows.valued && unpublished <= rows.stored
    && rows.valued <= rows.stored + rows.trainerCleared
    && rows.trainerTook == rows.trainerCleared + training && training <= rows.stored
    && (p.hasCritic ==> rows.trainerTook <= rows.valued)
    && (!p.hasCritic ==> rows.criticTook == {})
  }

  ghost predicate CountsOk(p: Params, resume: nat, rows: Rows, c: Critic, t: Trainer) {
    && |rows.criticTook| == Samples(p, CriticFetched(c) - resume)
    && |rows.valued| == Samples(p, Above(CriticPublished(c), Later(p.cold, resume)))
    && |rows.trainerTook| == Samples(p, GlobalStep(p, t) - Later(p.cold, resume)) + t.trained + (if t.stage.Taken? then p.fetch else 0)
    && (!c.stage.Idle? ==> |c.stage.rows| == p.batch)
    && (c.stage.Clearing? && c.windows > p.cold ==> c.stage.rows <= rows.valued)
  }

  /** By how much `x` exceeds `y`, if at all. */
  function Above(x: int, y: int): int { if x > y then x - y else 0 }

  // ---- shards -----------------------------------------------------------------------------

  ghost function Newest(shards: set<nat>): (newest: nat)
    ensures shards == {} ==> newest == 0
    ensures shards != {} ==> newest in shards
    ensures forall step :: step in shards ==> step <= newest
  {
    if shards == {} then 0
    else
      var step :| step in shards;
      var rest := Newest(shards - {step});
      assert forall other :: other in shards ==> other == step || other in shards - {step};
      if rest > step then rest else step
  }

  ghost predicate Seen(dispatched: set<(nat, nat)>, epoch: nat, index: int) {
    forall prompt :: prompt in dispatched ==> prompt.0 < epoch || (prompt.0 == epoch && prompt.1 < index)
  }

  ghost predicate SnapshotOk(p: Params, step: nat, snap: Snapshot) {
    && Due(p, step)
    && snap.gatesSeen == step + 1 && snap.version == VersionAt(p, step)
    && snap.started == Samples(p, step - 1 + p.window)
    && Seen(snap.dispatched, snap.epoch, snap.index)
  }

  /** What the shards on disk say, whether the run is up or down. */
  ghost predicate ContentsOk(p: Params, rollout: map<nat, Snapshot>, critic: set<nat>, trainer: map<nat, TrainerShard>) {
    && (forall step :: step in rollout ==> SnapshotOk(p, step, rollout[step]))
    && (forall step :: step in critic ==> Due(p, step) && p.hasCritic)
    && (forall step :: step in trainer ==>
      Due(p, step) && step > p.cold && trainer[step] == TrainerShard(step - p.cold, step - p.cold))
  }

  function Span(p: Params): nat { p.keep * p.interval }

  /** Up to `marked`, the newest `keep` boundaries from `floor` on are on disk. */
  ghost predicate Retained(p: Params, shards: set<nat>, floor: nat, from: nat, marked: int) {
    && (forall step :: step in shards ==> step <= marked)
    && (forall step: nat :: Due(p, step) && floor <= step && from < step <= marked && step + Span(p) > marked ==> step in shards)
  }

  /** The rollout committed every boundary it has read, up to the one in progress. */
  ghost predicate RolloutShardsOk(p: Params, resume: nat, r: Rollout, newest: nat) {
    && (forall step :: step in r.shards ==> step < r.gatesSeen || step <= resume)
    && (r.stage.Snapshotting? ==> newest < r.stage.step)
    && newest >= resume
    && forall step: nat :: Due(p, step) && newest < step < r.gatesSeen ==> r.stage == Snapshotting(step)
  }

  ghost predicate ShardsOk(p: Params, resume: nat, r: Rollout, c: Critic, t: Trainer) {
    && RolloutShardsOk(p, resume, r, Newest(r.shards.Keys))
    && (p.hasCritic ==> Retained(p, c.shards, Newest(r.shards.Keys), 0, CriticMarked(c)))
    && Retained(p, t.shards.Keys, Newest(r.shards.Keys), p.cold, TrainerMarked(p, t))
    && (c.stage.Committing? ==> Due(p, c.windows))
    && (t.stage.Committing? ==> Due(p, GlobalStep(p, t)))
  }

  ghost predicate CursorOk(c: Cursor) {
    c.pending <= c.index && Seen(c.dispatched, c.epoch, c.index - c.pending)
  }

  // ---- one-window pacing ---------------------------------------------------------------------

  /** With W = 1 windows do not mix: each consumer has taken exactly the rows of the
      windows before its own, and every row is tagged with its window's version. */
  ghost predicate OneWindowOk(p: Params, s: State) {
    && |s.tags| == s.rollout.started - s.base
    && (forall i :: 0 <= i < |s.tags| ==> TagOk(p, s.base + i, s.tags[i]))
    && (p.hasCritic ==>
      && Exactly(p, s.rows.criticTook, s.resume, CriticFetched(s.critic))
      && Exactly(p, s.rows.valued, Later(p.cold, s.resume), CriticPublished(s.critic))
      && (!s.critic.stage.Idle? ==> Exactly(p, s.critic.stage.rows, CriticFetched(s.critic) - 1, CriticFetched(s.critic))))
    && Covers(p, s.rows.trainerTook, Later(p.cold, s.resume), GlobalStep(p, s.trainer))
    && Within(p, s.rows.trainerTook, Later(p.cold, s.resume), GlobalStep(p, s.trainer) + 1)
    && (s.trainer.stage.Taken? ==> Within(p, s.trainer.stage.rows, GlobalStep(p, s.trainer), GlobalStep(p, s.trainer) + 1))
  }

  ghost predicate TagOk(p: Params, id: nat, tag: nat) {
    forall window: nat :: Samples(p, window) <= id < Samples(p, window + 1) ==> tag == VersionAt(p, window)
  }

  ghost predicate Exactly(p: Params, ids: set<nat>, from: int, to: int) {
    forall id: nat :: id in ids <==> Samples(p, from) <= id < Samples(p, to)
  }

  ghost predicate Within(p: Params, ids: set<nat>, from: int, to: int) {
    forall id: nat :: id in ids ==> Samples(p, from) <= id < Samples(p, to)
  }

  ghost predicate Covers(p: Params, ids: set<nat>, from: int, to: int) {
    forall id: nat :: Samples(p, from) <= id < Samples(p, to) ==> id in ids
  }

  // ---- the invariant -----------------------------------------------------------------------

  ghost predicate UpOk(p: Params, s: State)
    requires p.Valid()
  {
    && ClocksOk(p, s.resume, s.critic, s.trainer)
    && GatesOk(p, s.resume, s.trainer.up, s.queue, s.rollout, Published(p, s.critic, s.trainer))
    && BudgetOk(p, s.resume, s.base, s.rollout)
    && RowsOk(p, s.base, s.rollout.started, s.rows, Unpublished(p, s.critic), Held(s.trainer.stage))
    && CountsOk(p, s.resume, s.rows, s.critic, s.trainer)
    && ShardsOk(p, s.resume, s.rollout, s.critic, s.trainer)
    && CursorOk(s.rollout.cursor)
    && (p.window == 1 ==> OneWindowOk(p, s))
  }

  ghost predicate Inv(p: Params, s: State) {
    && p.Valid()
    && ContentsOk(p, s.rollout.shards, s.critic.shards, s.trainer.shards)
    && (s.up ==> UpOk(p, s))
  }
}

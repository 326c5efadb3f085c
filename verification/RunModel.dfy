/** The whole run as a transition system: rollout, critic and trainer on one clock
    of gate steps, coupled only by the row store, the gate queue and the shards on
    disk; a crash may fall between any two steps (meshy/worker/rollout.py,
    meshy/worker/critic.py, meshy/worker/titan.py, meshy/worker/tq.py,
    meshy/engine/titan.py, meshy/service/checkpoint.py, meshy/service/ignite.py). */
module RunModel {
  import opened Retention

  /** `window` is the pacing window, `batch` the rows per training window, `group`
      the rows per prompt, `fetch` the rows per trainer fetch, `cold` the critic's
      cold-start windows; `enabled`, `interval`, `keep` the checkpoint policy. */
  datatype Params = Params(window: nat, batch: nat, group: nat, fetch: nat, cold: nat, hasCritic: bool,
                           enabled: bool, interval: nat, keep: nat) {
    predicate Valid() {
      && window >= 1 && interval >= 1 && keep >= 2
      && group >= 1 && batch >= 1 && batch % group == 0
      && fetch >= 1 && fetch <= batch && batch % fetch == 0
      && (!hasCritic ==> cold == 0)
    }
  }

  function Samples(p: Params, windows: int): int { windows * p.batch }

  /** The checkpoint policy's `due`. */
  predicate Due(p: Params, step: int) {
    p.enabled && step > 0 && p.interval > 0 && step % p.interval == 0
  }

  function Later(a: nat, b: nat): nat { if a > b then a else b }

  /** The weight version a gate announces: cold-start gates announce the base model. */
  function VersionAt(p: Params, step: nat): nat { if step > p.cold then step - p.cold else 0 }

  // ---- the parts of the state -----------------------------------------------------

  datatype Gate = Gate(step: nat, version: nat)

  /** The position in the prompt stream; `dispatched` is the history of prompts sent. */
  datatype Cursor = Cursor(epoch: nat, index: nat, pending: nat, dispatched: set<(nat, nat)>)

  datatype Snapshot = Snapshot(gatesSeen: nat, started: nat, version: nat, epoch: nat, index: nat, dispatched: set<(nat, nat)>)

  datatype RolloutStage = Generating | Snapshotting(step: nat) | Trimming

  datatype Rollout = Rollout(gatesSeen: nat, version: nat, started: nat, cursor: Cursor, stage: RolloutStage,
                             shards: map<nat, Snapshot>)

  /** The phases of one batch in a consumer: fetched, marker not yet written, marker
      written and old shards not yet pruned, outputs not yet written, not yet cleared. */
  datatype Stage = Idle | Taken(rows: set<nat>) | Committing(rows: set<nat>) | Pruning(rows: set<nat>)
    | Releasing(rows: set<nat>) | Clearing(rows: set<nat>)

  datatype Critic = Critic(windows: nat, gatesRaised: nat, stage: Stage, shards: set<nat>)

  datatype TrainerShard = TrainerShard(stepIndex: nat, version: nat)

  datatype Trainer = Trainer(up: bool, stepIndex: nat, version: nat, trained: nat, stage: Stage,
                             shards: map<nat, TrainerShard>)

  /** Row numbers by what happened to them; the `took` sets are the store's
      per-consumer cursors, the `cleared` sets and `valued` are histories. */
  datatype Rows = Rows(inflight: set<nat>, stored: set<nat>, valued: set<nat>, criticTook: set<nat>, trainerTook: set<nat>,
                       criticCleared: set<nat>, trainerCleared: set<nat>)

  /** `resume` is the step the incarnation restored, `base` the sample count it
      restored; `tags` gives each row from `base` on the weight version it was
      generated with. */
  datatype State = State(up: bool, resume: nat, base: nat, queue: seq<Gate>, rollout: Rollout, critic: Critic,
                         trainer: Trainer, rows: Rows, tags: seq<nat>)

  const NO_ROWS := Rows({}, {}, {}, {}, {}, {}, {})

  // ---- rollout -----------------------------------------------------------------------

  function Budget(p: Params, gatesSeen: nat): int {
    if gatesSeen == 0 then 0 else Samples(p, gatesSeen - 1 + p.window)
  }

  /** The acquire loop reads a gate only when it has no budget left. */
  predicate MustRead(p: Params, r: Rollout) {
    r.gatesSeen == 0 || r.started + p.group > Budget(p, r.gatesSeen)
  }

  function Advance(p: Params, r: Rollout, gate: Gate, resume: nat): Rollout {
    r.(gatesSeen := r.gatesSeen + 1, version := gate.version,
       stage := if Due(p, gate.step) && gate.step > resume then Snapshotting(gate.step) else Generating)
  }

  function SnapshotOf(r: Rollout): Snapshot {
    Snapshot(r.gatesSeen, r.started, r.version, r.cursor.epoch, r.cursor.index, r.cursor.dispatched)
  }

  function Commit(r: Rollout): Rollout
    requires r.stage.Snapshotting?
  {
    r.(shards := r.shards[r.stage.step := SnapshotOf(r)], stage := Trimming)
  }

  /** The prompt the next group is built from. */
  function NextPrompt(c: Cursor): (nat, nat)
    requires 0 < c.pending <= c.index
  {
    (c.epoch, c.index - c.pending)
  }

  function StartGroup(p: Params, r: Rollout): Rollout
    requires 0 < r.cursor.pending <= r.cursor.index
  {
    r.(started := r.started + p.group,
       cursor := r.cursor.(pending := r.cursor.pending - 1, dispatched := r.cursor.dispatched + {NextPrompt(r.cursor)}))
  }

  /** `_restore`: the shard's counters, with the gate counter one lower so that the
      re-published pulse is the one expected. */
  function Restore(r: Rollout, step: nat): Rollout {
    if step in r.shards then
      var snap := r.shards[step];
      Rollout(step, snap.version, snap.started, Cursor(snap.epoch, snap.index, 0, snap.dispatched), Generating, r.shards)
    else Rollout(0, 0, 0, Cursor(0, 0, 0, {}), Generating, r.shards)
  }

  // ---- critic ------------------------------------------------------------------------

  predicate InColdStart(p: Params, c: Critic) { c.windows < p.cold }

  predicate ShouldClear(p: Params, c: Critic) { c.windows <= p.cold }

  function Scored(p: Params, c: Critic): Critic
    requires c.stage.Taken?
  {
    c.(windows := c.windows + 1,
       gatesRaised := if InColdStart(p, c) then c.gatesRaised + 1 else c.gatesRaised,
       stage := if Due(p, c.windows + 1) then Committing(c.stage.rows) else Releasing(c.stage.rows))
  }

  // ---- trainer -----------------------------------------------------------------------

  /** `global_step`: the trainer's own counter on the run's clock. */
  function GlobalStep(p: Params, t: Trainer): nat { t.stepIndex + p.cold }

  function Trained(p: Params, t: Trainer): Trainer
    requires t.stage.Taken?
  {
    if t.trained + p.fetch >= p.batch then
      t.(stepIndex := t.stepIndex + 1, version := t.stepIndex + 1, trained := 0,
         stage := if Due(p, GlobalStep(p, t) + 1) then Committing(t.stage.rows) else Releasing(t.stage.rows))
    else t.(trained := t.trained + p.fetch, stage := Clearing(t.stage.rows))
  }

  function RestoredTrainer(t: Trainer, step: nat): Trainer {
    if step in t.shards then Trainer(false, t.shards[step].stepIndex, t.shards[step].version, 0, Idle, t.shards)
    else Trainer(false, 0, 0, 0, Idle, t.shards)
  }

  // ---- shards --------------------------------------------------------------------------

  datatype RoleName = RolloutRole | CriticRole | TrainerRole

  predicate Participates(p: Params, role: RoleName, step: nat) {
    match role
    case RolloutRole => true
    case CriticRole => p.hasCritic
    case TrainerRole => step > p.cold
  }

  function Shards(s: State, role: RoleName): set<nat> {
    match role
    case RolloutRole => s.rollout.shards.Keys
    case CriticRole => s.critic.shards
    case TrainerRole => s.trainer.shards.Keys
  }

  /** Every participant at `step` has committed it. */
  ghost predicate Complete(p: Params, s: State, step: nat) {
    step > 0 && forall role :: Participates(p, role, step) ==> step in Shards(s, role)
  }

  /** `resolve_resume_step`: the newest complete step, 0 when there is none. */
  ghost predicate Resolves(p: Params, s: State, step: nat) {
    (step == 0 || Complete(p, s, step)) && forall later :: later > step ==> !Complete(p, s, later)
  }

  ghost predicate NoShards(s: State) { forall role :: Shards(s, role) == {} }

  function WithoutShard(s: State, role: RoleName, step: nat): State {
    match role
    case RolloutRole => s.(rollout := s.rollout.(shards := s.rollout.shards - {step}))
    case CriticRole => s.(critic := s.critic.(shards := s.critic.shards - {step}))
    case TrainerRole => s.(trainer := s.trainer.(shards := s.trainer.shards - {step}))
  }

  // ---- the steps -------------------------------------------------------------------------

  datatype Step =
    | Crash | DropNewer(role: RoleName, dropped: nat, resolved: nat) | Boot(resolved: nat)
    | Genesis
    | TakePrompts(count: nat) | NextEpoch | StartPrompt | WriteRows(written: set<nat>)
    | ReadGate | CommitRollout | PruneRollout(oldest: nat)
    | CriticFetch(fetched: set<nat>) | CriticScore | CriticCommit | CriticPrune(oldest: nat) | CriticWrite | CriticClear
    | TrainerFetch(fetched: set<nat>) | TrainerTrain | TrainerCommit | TrainerPrune(oldest: nat) | TrainerPublish | TrainerClear

  /** What a trainer fetch may return: written rows it has not taken, with every
      column it asks for. */
  function Eligible(p: Params, rows: Rows): set<nat> {
    if p.hasCritic then (rows.stored * rows.valued) - rows.trainerTook else rows.stored - rows.trainerTook
  }

  ghost predicate Enabled(p: Params, s: State, step: Step) {
    match step
    case Crash => s.up
    case DropNewer(role, dropped, resolved) =>
      !s.up && resolved > 0 && Resolves(p, s, resolved) && dropped > resolved && dropped in Shards(s, role)
    case Boot(resolved) =>
      && !s.up && Resolves(p, s, resolved) && (resolved == 0 ==> NoShards(s))
      && forall role, step :: step in Shards(s, role) ==> step <= resolved
    case Genesis => s.up && !s.trainer.up
    case TakePrompts(count) => s.up && s.rollout.stage == Generating && s.rollout.cursor.pending == 0 && count > 0
    case NextEpoch => s.up && s.rollout.stage == Generating && s.rollout.cursor.pending == 0
    case StartPrompt =>
      s.up && s.rollout.stage == Generating && !MustRead(p, s.rollout) && 0 < s.rollout.cursor.pending <= s.rollout.cursor.index
    case WriteRows(written) => s.up && s.rollout.stage == Generating && written <= s.rows.inflight
    case ReadGate =>
      // Gates are read inside the acquire loop, so a fetched prompt is waiting for its slot.
      && s.up && s.rollout.stage == Generating && MustRead(p, s.rollout) && s.queue != []
      && 0 < s.rollout.cursor.pending <= s.rollout.cursor.index
    case CommitRollout => s.up && s.rollout.stage.Snapshotting?
    case PruneRollout(oldest) =>
      s.up && s.rollout.stage == Trimming && (|s.rollout.shards| > p.keep ==> Oldest(s.rollout.shards.Keys, oldest))
    case CriticFetch(fetched) =>
      && s.up && p.hasCritic && s.critic.stage == Idle
      && fetched <= s.rows.stored - s.rows.criticTook && |fetched| == p.batch
    case CriticScore => s.up && s.critic.stage.Taken?
    case CriticCommit => s.up && s.critic.stage.Committing?
    case CriticPrune(oldest) => s.up && s.critic.stage.Pruning? && (|s.critic.shards| > p.keep ==> Oldest(s.critic.shards, oldest))
    case CriticWrite => s.up && s.critic.stage.Releasing?
    case CriticClear => s.up && s.critic.stage.Clearing?
    case TrainerFetch(fetched) =>
      s.up && s.trainer.up && s.trainer.stage == Idle && fetched <= Eligible(p, s.rows) && |fetched| == p.fetch
    case TrainerTrain => s.up && s.trainer.stage.Taken?
    case TrainerCommit => s.up && s.trainer.stage.Committing?
    case TrainerPrune(oldest) =>
      s.up && s.trainer.stage.Pruning? && (|s.trainer.shards| > p.keep ==> Oldest(s.trainer.shards.Keys, oldest))
    case TrainerPublish => s.up && s.trainer.stage.Releasing?
    case TrainerClear => s.up && s.trainer.stage.Clearing?
  }

  /** The genesis pulse: gate 0, or the resumed step. */
  function GenesisGate(s: State): Gate {
    Gate(if s.resume > 0 then s.resume else s.trainer.version, s.trainer.version)
  }

  function NewIds(from: nat, count: nat): (ids: set<nat>)
    ensures |ids| == count && forall id :: id in ids <==> from <= id < from + count
  {
    if count == 0 then {} else NewIds(from, count - 1) + {from + count - 1}
  }

  function Booted(p: Params, s: State, step: nat): State {
    State(true, step, Restore(s.rollout, step).started, [], Restore(s.rollout, step),
          Critic(step, step, Idle, s.critic.shards), RestoredTrainer(s.trainer, step), NO_ROWS, [])
  }

  ghost function Apply(p: Params, s: State, step: Step): State
    requires Enabled(p, s, step)
  {
    match step
    case Crash => s.(up := false)
    case DropNewer(role, dropped, resolved) => WithoutShard(s, role, dropped)
    case Boot(resolved) => Booted(p, s, resolved)
    case Genesis => s.(trainer := s.trainer.(up := true), queue := s.queue + [GenesisGate(s)])
    case TakePrompts(count) =>
      s.(rollout := s.rollout.(cursor := s.rollout.cursor.(index := s.rollout.cursor.index + count, pending := count)))
    case NextEpoch =>
      s.(rollout := s.rollout.(cursor := s.rollout.cursor.(epoch := s.rollout.cursor.epoch + 1, index := 0)))
    case StartPrompt =>
      s.(rollout := StartGroup(p, s.rollout),
         rows := s.rows.(inflight := s.rows.inflight + NewIds(s.rollout.started, p.group)),
         tags := s.tags + seq(p.group, _ => s.rollout.version))
    case WriteRows(written) =>
      s.(rows := s.rows.(inflight := s.rows.inflight - written, stored := s.rows.stored + written))
    case ReadGate => s.(rollout := Advance(p, s.rollout, s.queue[0], s.resume), queue := s.queue[1..])
    case CommitRollout => s.(rollout := Commit(s.rollout))
    case PruneRollout(oldest) =>
      if |s.rollout.shards| > p.keep then WithoutShard(s, RolloutRole, oldest)
      else s.(rollout := s.rollout.(stage := Generating))
    case CriticFetch(fetched) =>
      s.(critic := s.critic.(stage := Taken(fetched)), rows := s.rows.(criticTook := s.rows.criticTook + fetched))
    case CriticScore => s.(critic := Scored(p, s.critic))
    case CriticCommit =>
      s.(critic := s.critic.(shards := s.critic.shards + {s.critic.windows}, stage := Pruning(s.critic.stage.rows)))
    case CriticPrune(oldest) =>
      if |s.critic.shards| > p.keep then WithoutShard(s, CriticRole, oldest)
      else s.(critic := s.critic.(stage := Releasing(s.critic.stage.rows)))
    case CriticWrite =>
      if s.critic.windows <= p.cold then
        s.(queue := s.queue + [Gate(s.critic.gatesRaised, 0)], critic := s.critic.(stage := Clearing(s.critic.stage.rows)))
      else
        s.(rows := s.rows.(valued := s.rows.valued + s.critic.stage.rows), critic := s.critic.(stage := Clearing(s.critic.stage.rows)))
    case CriticClear =>
      if ShouldClear(p, s.critic) then
        s.(rows := s.rows.(stored := s.rows.stored - s.critic.stage.rows, criticCleared := s.rows.criticCleared + s.critic.stage.rows),
           critic := s.critic.(stage := Idle))
      else s.(critic := s.critic.(stage := Idle))
    case TrainerFetch(fetched) =>
      s.(trainer := s.trainer.(stage := Taken(fetched)), rows := s.rows.(trainerTook := s.rows.trainerTook + fetched))
    case TrainerTrain => s.(trainer := Trained(p, s.trainer))
    case TrainerCommit =>
      s.(trainer := s.trainer.(shards := s.trainer.shards[GlobalStep(p, s.trainer) := TrainerShard(s.trainer.stepIndex, s.trainer.version)],
                               stage := Pruning(s.trainer.stage.rows)))
    case TrainerPrune(oldest) =>
      if |s.trainer.shards| > p.keep then WithoutShard(s, TrainerRole, oldest)
      else s.(trainer := s.trainer.(stage := Releasing(s.trainer.stage.rows)))
    case TrainerPublish =>
      s.(queue := s.queue + [Gate(GlobalStep(p, s.trainer), s.trainer.version)],
         trainer := s.trainer.(stage := Clearing(s.trainer.stage.rows)))
    case TrainerClear =>
      s.(rows := s.rows.(stored := s.rows.stored - s.trainer.stage.rows, trainerCleared := s.rows.trainerCleared + s.trainer.stage.rows),
         trainer := s.trainer.(stage := Idle))
  }

  function Initial(): State {
    State(true, 0, 0, [], Rollout(0, 0, 0, Cursor(0, 0, 0, {}), Generating, map[]), Critic(0, 0, Idle, {}),
          Trainer(false, 0, 0, 0, Idle, map[]), NO_ROWS, [])
  }

  /** A run: every step is taken where it is enabled. */
  ghost predicate Run(p: Params, s: State, steps: seq<Step>, end: State)
    decreases |steps|
  {
    if steps == [] then end == s
    else Enabled(p, s, steps[0]) && Run(p, Apply(p, s, steps[0]), steps[1..], end)
  }

  ghost predicate Reachable(p: Params, s: State) {
    exists steps :: Run(p, Initial(), steps, s)
  }
}

/** The critic's and the trainer's counters as their worker and engine objects
    update them (meshy/worker/critic.py, meshy/worker/titan.py, meshy/engine/titan.py,
    meshy/config.py). */
module ConsumerWorkers {
  import opened Retention
  import opened Wrappers
  import opened RunModel
  import opened RunInvariant
  import opened RunLemmas
  import opened RunTheorems
  import opened RunResults

  // ---- the checkpoint policy --------------------------------------------------------------

  datatype PolicyError = BadInterval | BadKeep

  datatype CheckpointPolicy = CheckpointPolicy(enabled: bool, interval: int, keep: int)

  /** The policy's own validation. */
  method MakePolicy(enabled: bool, interval: int, keep: int) returns (res: Result<CheckpointPolicy, PolicyError>)
    ensures res.Ok? <==> interval > 0 && keep >= 2
    ensures res.Ok? ==> forall p: Params, step: nat :: Follows(p, res.value) ==>
      (Due(p, step) <==> enabled && step > 0 && step % interval == 0) && Span(p) >= 2 * interval
  {
    if interval <= 0 { return Err(BadInterval); }
    if keep < 2 { return Err(BadKeep); }
    forall p: Params | Follows(p, CheckpointPolicy(enabled, interval, keep)) ensures Span(p) >= 2 * interval {
      assert p.keep * p.interval == (p.keep - 2) * p.interval + 2 * p.interval;
    }
    return Ok(CheckpointPolicy(enabled, interval, keep));
  }

  ghost predicate Follows(p: Params, policy: CheckpointPolicy) {
    p.enabled == policy.enabled && p.interval == policy.interval && p.keep == policy.keep
  }

  // ---- critic ------------------------------------------------------------------------------

  datatype CriticError = NoResult | WrongCount(scored: nat, rows: nat)

  datatype CriticOutput = GateOut(gate: Gate) | ColumnOut(rows: nat)

  class CriticWorker {
    const coldStartWindows: int
    var windows: nat
    var gatesRaised: nat

    constructor (coldStartWindows: int, resumeStep: nat)
      requires coldStartWindows >= -1
      ensures windows == resumeStep && gatesRaised == resumeStep && this.coldStartWindows == coldStartWindows
    {
      this.coldStartWindows := coldStartWindows;
      windows, gatesRaised := resumeStep, resumeStep;
    }

    predicate InColdStart()
      reads this
    {
      coldStartWindows < 0 || windows < coldStartWindows
    }

    predicate ShouldClearBatch()
      reads this
    {
      coldStartWindows < 0 || windows <= coldStartWindows
    }

    /** The worker as the run model's critic holding the window `rows`. */
    ghost function View(stage: Stage, shards: set<nat>): Critic
      reads this
    {
      Critic(windows, gatesRaised, stage, shards)
    }

    /** `process_tq_batch`: `scored` is the number of rows the engine returned, if any.
        The window is cleared exactly when its output is a gate, not a column. */
    method ProcessBatch(rows: nat, scored: Option<nat>, ghost p: Params, ghost held: set<nat>, ghost shards: set<nat>)
      returns (res: Result<CriticOutput, CriticError>)
      modifies this
      ensures windows == old(windows) + 1
      ensures scored.None? ==> res == Err(NoResult) && gatesRaised == old(gatesRaised)
      ensures scored.Some? && old(InColdStart()) ==> res == Ok(GateOut(Gate(gatesRaised, 0))) && gatesRaised == old(gatesRaised) + 1
      ensures !old(InColdStart()) ==> gatesRaised == old(gatesRaised)
      ensures scored.Some? && !old(InColdStart()) ==> res == if scored.value == rows then Ok(ColumnOut(rows)) else Err(WrongCount(scored.value, rows))
      ensures res.Ok? ==> (ShouldClearBatch() <==> res.value.GateOut?)
      ensures scored.Some? && p.cold == coldStartWindows ==>
        var after := Scored(p, old(View(Taken(held), shards)));
        View(after.stage, shards) == after && (ShouldClearBatch() <==> ShouldClear(p, after))
    {
      var cold := InColdStart();
      windows := windows + 1;
      if scored.None? { return Err(NoResult); }
      if cold {
        gatesRaised := gatesRaised + 1;
        return Ok(GateOut(Gate(gatesRaised, 0)));
      }
      if scored.value != rows { return Err(WrongCount(scored.value, rows)); }
      return Ok(ColumnOut(rows));
    }
  }

  // ---- trainer -------------------------------------------------------------------------------

  datatype RestoreError = ShardMissing(step: nat) | StepMismatch(loaded: int, recorded: int)

  /** Engine and worker of the trainer; `exported` are the weight versions on disk. */
  class TitanTrainer {
    const params: Params
    const stream: bool
    const resumeStep: nat
    const weightsKeep: nat
    var stepIndex: nat
    var weightVersion: nat
    var trainedSinceSync: nat
    var shards: map<nat, TrainerShard>
    var exported: set<nat>

    ghost predicate Valid()
      reads this
    {
      params.Valid() && WeightsKept()
    }

    /** Every retained shard's weights are still there for a resumed run to serve. */
    ghost predicate WeightsKept()
      reads this
    {
      forall step :: step in shards ==> shards[step].version in exported
    }

    constructor (params: Params, stream: bool, resumeStep: nat, weightsKeep: nat, shards: map<nat, TrainerShard>, exported: set<nat>)
      requires params.Valid() && forall step :: step in shards ==> shards[step].version in exported
      ensures Valid() && stepIndex == weightVersion == trainedSinceSync == 0 && this.shards == shards && this.exported == exported
      ensures this.params == params && this.stream == stream && this.resumeStep == resumeStep && this.weightsKeep == weightsKeep
    {
      this.params, this.stream, this.resumeStep, this.weightsKeep := params, stream, resumeStep, weightsKeep;
      stepIndex, weightVersion, trainedSinceSync := 0, 0, 0;
      this.shards, this.exported := shards, exported;
    }

    ghost function View(stage: Stage): Trainer
      reads this
    {
      Trainer(true, stepIndex, weightVersion, trainedSinceSync, stage, shards)
    }

    function GlobalStep(): nat
      reads this
    {
      stepIndex + params.cold
    }

    /** `_restore_counters`: `loaded` is the step the trainer restored from its
        directory, `recorded` the one each shard's metadata names. The counters are
        taken over before the two are compared. */
    method RestoreCounters(loaded: int, recorded: map<nat, int>) returns (res: Result<nat, RestoreError>)
      requires Valid() && stepIndex == weightVersion == trainedSinceSync == 0
      requires forall step :: step in shards ==> step in recorded
      modifies this`stepIndex, this`weightVersion
      ensures Valid()
      ensures resumeStep > params.cold && resumeStep !in shards ==> res == Err(ShardMissing(resumeStep)) && stepIndex == weightVersion == 0
      ensures resumeStep > 0 && resumeStep in shards && loaded != recorded[resumeStep] ==> res == Err(StepMismatch(loaded, recorded[resumeStep]))
      ensures res.Ok? <==> resumeStep == 0 || (if resumeStep in shards then loaded == recorded[resumeStep] else resumeStep <= params.cold)
      ensures res.Ok? && resumeStep > 0 ==> View(Idle).(up := false) == RestoredTrainer(old(View(Idle)), resumeStep)
      ensures resumeStep == 0 ==> stepIndex == weightVersion == 0
    {
      if resumeStep == 0 { return Ok(0); }
      if resumeStep !in shards {
        if params.cold > 0 && resumeStep <= params.cold { return Ok(0); }
        return Err(ShardMissing(resumeStep));
      }
      stepIndex, weightVersion := shards[resumeStep].stepIndex, shards[resumeStep].version;
      if loaded != recorded[resumeStep] { return Err(StepMismatch(loaded, recorded[resumeStep])); }
      return Ok(stepIndex);
    }

    /** `startup_tq_outputs`: the pulse that opens the gate stream. In every run whose
        trainer it stands for, it is the gate the restored rollout expects, with the
        version the rollout will be told. */
    method StartupGate() returns (gate: Gate)
      ensures forall p: Params, s: State ::
        p.Valid() && Reachable(p, s) && Enabled(p, s, Genesis) && s.resume == resumeStep && s.trainer.version == weightVersion ==>
          gate == Gate(s.rollout.gatesSeen, VersionAt(p, s.rollout.gatesSeen)) && [gate] == Apply(p, s, Genesis).queue
    {
      hide Reachable, Enabled, Apply;
      forall p: Params, s: State |
        p.Valid() && Reachable(p, s) && Enabled(p, s, Genesis) && s.resume == resumeStep && s.trainer.version == weightVersion
        ensures Gate(if resumeStep > 0 then resumeStep else weightVersion, weightVersion) == Gate(s.rollout.gatesSeen, VersionAt(p, s.rollout.gatesSeen))
        ensures [Gate(s.rollout.gatesSeen, VersionAt(p, s.rollout.gatesSeen))] == Apply(p, s, Genesis).queue
      {
        PulseIsExpected(p, s);
      }
      var step := if resumeStep > 0 then resumeStep else weightVersion;
      return Gate(step, weightVersion);
    }

    /** `_prune_weights`: the newest few, the current one, and whatever a shard names. */
    method PruneWeights(current: nat)
      requires Valid()
      modifies this`exported
      ensures Valid() && exported <= old(exported)
      ensures weightsKeep == 0 ==> exported == old(exported)
      ensures weightsKeep > 0 ==> forall version :: version in old(exported) ==>
        (version in exported <==> version == current || Named(version) || |NewerThan(old(exported), version)| < weightsKeep)
    {
      if weightsKeep == 0 { return; }
      var all, protected := exported, set step | step in shards :: shards[step].version;
      exported := set version | version in all &&
        (version == current || version in protected || |NewerThan(all, version)| < weightsKeep);
    }

    /** Whether a retained shard names this weight version. */
    ghost predicate Named(version: nat)
      reads this
    {
      exists step :: step in shards && shards[step].version == version
    }

    /** `process_tq_batch` around the engine's step: a gate, and on a boundary a shard,
        only when a window is complete. */
    method ProcessBatch(rows: nat, ghost held: set<nat>) returns (gate: Option<Gate>)
      requires Valid()
      modifies this
      ensures Valid()
      ensures gate.Some? <==> !stream || old(trainedSinceSync) + rows >= params.batch
      ensures gate.Some? ==> gate.value == Gate(GlobalStep(), weightVersion) && weightVersion == stepIndex && weightVersion in exported
      ensures shards == if gate.Some? && Due(params, GlobalStep())
        then Trim(old(shards)[GlobalStep() := TrainerShard(stepIndex, weightVersion)], params.keep) else old(shards)
      ensures gate.None? ==> exported == old(exported)
      ensures gate.None? ==> stepIndex == old(stepIndex) && weightVersion == old(weightVersion)
      ensures trainedSinceSync == if gate.Some? then 0 else old(trainedSinceSync) + rows
      ensures gate.Some? ==> stepIndex == old(stepIndex) + 1
      ensures gate.Some? ==> forall version ::
        version in exported <==>
          && version in old(exported) + {stepIndex}
          && (weightsKeep == 0 || version == stepIndex || Named(version) || |NewerThan(old(exported) + {stepIndex}, version)| < weightsKeep)
      ensures rows == params.fetch && (!stream ==> params.fetch == params.batch) ==>
        var after := Trained(params, old(View(Taken(held))));
        && (gate.Some? <==> !after.stage.Clearing?)
        && stepIndex == after.stepIndex && weightVersion == after.version && trainedSinceSync == after.trained
    {
      hide Trim, NewerThan, Named, Due;
      trainedSinceSync := trainedSinceSync + rows;
      var sync := !stream || trainedSinceSync >= params.batch;
      if sync { trainedSinceSync := 0; }
      if !sync { return None; }
      exported := exported + {stepIndex + 1};
      stepIndex, weightVersion := stepIndex + 1, stepIndex + 1;
      if Due(params, GlobalStep()) { SaveCheckpoint(); }
      PruneWeights(stepIndex);
      return Some(Gate(GlobalStep(), weightVersion));
    }

    /** `_save_global_checkpoint`: the shard of this step, the oldest ones making room. */
    method SaveCheckpoint()
      requires Valid() && weightVersion in exported
      modifies this`shards
      ensures Valid()
      ensures shards == Trim(old(shards)[GlobalStep() := TrainerShard(stepIndex, weightVersion)], params.keep)
    {
      var all := shards[GlobalStep() := TrainerShard(stepIndex, weightVersion)];
      TrimKeepsTheNewest(all, params.keep);
      shards := TrimLoop(all, params.keep);
    }
  }

  lemma PulseIsExpected(p: Params, s: State)
    requires p.Valid() && Reachable(p, s) && Enabled(p, s, Genesis)
    ensures s.rollout.gatesSeen == s.resume && VersionAt(p, s.resume) == s.trainer.version
    ensures s.resume == 0 ==> s.trainer.version == 0
    ensures Apply(p, s, Genesis).queue == [Gate(s.resume, VersionAt(p, s.resume))]
  {
    hide Inv, Reachable, RowsOk, CountsOk, ShardsOk, BudgetOk, OneWindowOk, ContentsOk, CursorOk;
    ReachableOk(p, s);
    Parts(p, s);
    GenesisOpens(p, s);
  }

  function NewerThan(versions: set<nat>, version: nat): set<nat> {
    set newer | newer in versions && newer > version
  }
}

/** Whole-run results: the invariant holds in every reachable state, and what
    follows from it. */
module RunTheorems {
  import opened RunModel
  import opened RunInvariant
  import opened RunLemmas
  import opened RunRolloutSteps
  import opened RunConsumerSteps

  // ---- starting, crashing, resuming ----------------------------------------------------

  lemma CrashKeeps(p: Params, s: State)
    requires Inv(p, s) && Enabled(p, s, Crash)
    ensures Inv(p, Apply(p, s, Crash))
  {
    hide UpOk, ContentsOk;
  }

  lemma DropNewerKeeps(p: Params, s: State, role: RoleName, dropped: nat, resolved: nat)
    requires Inv(p, s) && Enabled(p, s, DropNewer(role, dropped, resolved))
    ensures Inv(p, Apply(p, s, DropNewer(role, dropped, resolved)))
  {
    hide UpOk, SnapshotOk, Resolves;
  }

  lemma GenesisKeeps(p: Params, s: State)
    requires Inv(p, s) && Enabled(p, s, Genesis)
    ensures Inv(p, Apply(p, s, Genesis))
  {
    hide Samples, RowsOk, BudgetOk, OneWindowOk, CursorOk, ContentsOk, ShardsOk;
    var next := Apply(p, s, Genesis);
    ShardsFrame(p, s, next);
    OneWindowTrainer(p, s, next);
  }

  /** A resumed run finds every shard it needs. */
  lemma BootFindsItsShards(p: Params, s: State, resolved: nat)
    requires Inv(p, s) && Enabled(p, s, Boot(resolved)) && resolved > 0
    ensures resolved in s.rollout.shards
    ensures p.hasCritic ==> resolved in s.critic.shards
    ensures resolved > p.cold <==> resolved in s.trainer.shards
  {
    hide SnapshotOk, UpOk;
    assert Complete(p, s, resolved);
    assert Participates(p, RolloutRole, resolved);
    assert resolved in Shards(s, RolloutRole);
    if p.hasCritic { assert Participates(p, CriticRole, resolved); assert resolved in Shards(s, CriticRole); }
    if resolved > p.cold { assert Participates(p, TrainerRole, resolved); assert resolved in Shards(s, TrainerRole); }
  }

  lemma BootRestores(p: Params, s: State, resolved: nat)
    requires Inv(p, s) && Enabled(p, s, Boot(resolved))
    ensures var next := Booted(p, s, resolved);
      && next.rollout.gatesSeen == resolved && next.rollout.stage == Generating && next.rollout.cursor.pending == 0
      && next.rollout.shards == s.rollout.shards
      && next.base == next.rollout.started == (if resolved == 0 then 0 else Samples(p, resolved - 1 + p.window))
      && (resolved > 0 ==> next.rollout.version == VersionAt(p, resolved))
      && Seen(next.rollout.cursor.dispatched, next.rollout.cursor.epoch, next.rollout.cursor.index)
      && GlobalStep(p, next.trainer) == Later(p.cold, resolved) && next.trainer.version == next.trainer.stepIndex
  {
    hide UpOk, Samples;
    if resolved > 0 {
      BootFindsItsShards(p, s, resolved);
      assert SnapshotOk(p, resolved, s.rollout.shards[resolved]);
    } else {
      assert Shards(s, RolloutRole) == {} && Shards(s, TrainerRole) == {};
    }
  }

  lemma NewestIs(shards: set<nat>, step: nat)
    requires (step in shards || (step == 0 && shards == {})) && forall other :: other in shards ==> other <= step
    ensures Newest(shards) == step
  {
  }

  lemma BootShards(p: Params, s: State, resolved: nat)
    requires Inv(p, s) && Enabled(p, s, Boot(resolved))
    ensures var next := Booted(p, s, resolved); ShardsOk(p, next.resume, next.rollout, next.critic, next.trainer)
  {
    hide UpOk, Samples, Newest, SnapshotOk, Booted;
    BootRestores(p, s, resolved);
    var next := Booted(p, s, resolved);
    BootKeepsShards(p, s, resolved);
    assert Shards(s, RolloutRole) == s.rollout.shards.Keys && Shards(s, CriticRole) == s.critic.shards && Shards(s, TrainerRole) == s.trainer.shards.Keys;
    assert forall step :: step in Shards(s, RolloutRole) ==> step <= resolved;
    assert forall step :: step in Shards(s, CriticRole) ==> step <= resolved;
    assert forall step :: step in Shards(s, TrainerRole) ==> step <= resolved;
    if resolved > 0 { BootFindsItsShards(p, s, resolved); } else { assert Shards(s, RolloutRole) == {}; }
    NewestIs(s.rollout.shards.Keys, resolved);
  }

  lemma BootKeepsShards(p: Params, s: State, resolved: nat)
    ensures var next := Booted(p, s, resolved);
      && next.rollout.shards == s.rollout.shards && next.critic == Critic(resolved, resolved, Idle, s.critic.shards)
      && next.trainer.shards == s.trainer.shards && next.trainer.stage == Idle && next.resume == resolved
  {
  }

  lemma BootKeeps(p: Params, s: State, resolved: nat)
    requires Inv(p, s) && Enabled(p, s, Boot(resolved))
    ensures Inv(p, Apply(p, s, Boot(resolved)))
  {
    hide UpOk, Samples, SnapshotOk, Newest, Resolves, ShardsOk;
    var next := Booted(p, s, resolved);
    BootRestores(p, s, resolved);
    BootShards(p, s, resolved);
    BootPacing(p, s, resolved);
    BootRows(p, s, resolved);
    if p.window == 1 { BootOneWindow(p, s, resolved); }
    UpFromParts(p, next);
  }

  lemma BootPacing(p: Params, s: State, resolved: nat)
    requires Inv(p, s) && Enabled(p, s, Boot(resolved))
    ensures var next := Booted(p, s, resolved);
      && ClocksOk(p, next.resume, next.critic, next.trainer)
      && GatesOk(p, next.resume, next.trainer.up, next.queue, next.rollout, Published(p, next.critic, next.trainer))
      && BudgetOk(p, next.resume, next.base, next.rollout)
      && CursorOk(next.rollout.cursor)
  {
    hide UpOk, Samples, SnapshotOk, Newest, Resolves, ContentsOk;
    BootRestores(p, s, resolved);
    BootKeepsShards(p, s, resolved);
    if resolved > 0 {
      SamplesAreGroups(p, resolved - 1 + p.window);
      SamplesMonotone(p, resolved - 2 + p.window, resolved - 1 + p.window);
    }
  }

  lemma BootRows(p: Params, s: State, resolved: nat)
    requires Inv(p, s) && Enabled(p, s, Boot(resolved))
    ensures var next := Booted(p, s, resolved);
      && RowsOk(p, next.base, next.rollout.started, next.rows, Unpublished(p, next.critic), Held(next.trainer.stage))
      && CountsOk(p, next.resume, next.rows, next.critic, next.trainer)
  {
    hide UpOk, Samples, SnapshotOk, Newest, Resolves, ContentsOk;
    BootRestores(p, s, resolved);
    BootKeepsShards(p, s, resolved);
    SamplesOne(p);
  }

  lemma BootOneWindow(p: Params, s: State, resolved: nat)
    requires Inv(p, s) && Enabled(p, s, Boot(resolved)) && p.window == 1
    ensures OneWindowOk(p, Booted(p, s, resolved))
  {
    hide UpOk, Samples, SnapshotOk, Newest, Resolves, ContentsOk;
    BootRestores(p, s, resolved);
    var next := Booted(p, s, resolved);
    SamplesMonotone(p, resolved, Later(p.cold, resolved));
  }

  // ---- every step, every run ---------------------------------------------------------------

  lemma StepKeeps(p: Params, s: State, step: Step)
    requires Inv(p, s) && Enabled(p, s, step)
    ensures Inv(p, Apply(p, s, step))
  {
    hide Inv, Enabled, Apply;
    match step
    case Crash => CrashKeeps(p, s);
    case DropNewer(role, dropped, resolved) => DropNewerKeeps(p, s, role, dropped, resolved);
    case Boot(resolved) => BootKeeps(p, s, resolved);
    case Genesis => GenesisKeeps(p, s);
    case TakePrompts(count) => TakePromptsKeeps(p, s, count);
    case NextEpoch => NextEpochKeeps(p, s);
    case StartPrompt => StartPromptKeeps(p, s);
    case WriteRows(written) => WriteRowsKeeps(p, s, written);
    case ReadGate => ReadGateKeeps(p, s);
    case CommitRollout => CommitRolloutKeeps(p, s);
    case PruneRollout(oldest) => PruneRolloutKeeps(p, s, oldest);
    case CriticFetch(fetched) => CriticFetchKeeps(p, s, fetched);
    case CriticScore => CriticScoreKeeps(p, s);
    case CriticCommit => CriticCommitKeeps(p, s);
    case CriticPrune(oldest) => CriticPruneKeeps(p, s, oldest);
    case CriticWrite => CriticWriteKeeps(p, s);
    case CriticClear => CriticClearKeeps(p, s);
    case TrainerFetch(fetched) => TrainerFetchKeeps(p, s, fetched);
    case TrainerTrain => TrainerTrainKeeps(p, s);
    case TrainerCommit => TrainerCommitKeeps(p, s);
    case TrainerPrune(oldest) => TrainerPruneKeeps(p, s, oldest);
    case TrainerPublish => TrainerPublishKeeps(p, s);
    case TrainerClear => TrainerClearKeeps(p, s);
  }

  lemma InitialOk(p: Params)
    requires p.Valid()
    ensures Inv(p, Initial())
  {
    hide Samples, Newest;
    SamplesOne(p);
    SamplesMonotone(p, 0, p.cold);
    NewestIs({}, 0);
    var s := Initial();
    assert s.rollout.shards.Keys == {} && s.trainer.shards.Keys == {};
    UpFromParts(p, s);
  }

  lemma {:induction false} RunKeeps(p: Params, s: State, steps: seq<Step>, end: State)
    requires Inv(p, s) && Run(p, s, steps, end)
    ensures Inv(p, end)
    decreases |steps|
  {
    hide Inv, Enabled, Apply;
    if steps != [] {
      StepKeeps(p, s, steps[0]);
      RunKeeps(p, Apply(p, s, steps[0]), steps[1..], end);
    }
  }

  lemma ReachableOk(p: Params, s: State)
    requires p.Valid() && Reachable(p, s)
    ensures Inv(p, s)
  {
    hide Inv, Run;
    InitialOk(p);
    var steps :| Run(p, Initial(), steps, s);
    RunKeeps(p, Initial(), steps, s);
  }
}

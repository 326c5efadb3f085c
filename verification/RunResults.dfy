/** What every reachable state of a run guarantees. */
module RunResults {
  import opened RunModel
  import opened RunInvariant
  import opened RunLemmas
  import opened RunRolloutSteps
  import opened RunConsumerSteps
  import opened RunTheorems

  // ---- the gate stream -------------------------------------------------------------------

  /** The rollout reads the gate it expects, announcing the version of that step:
      the out-of-order branch is never taken. */
  lemma GatesArriveInOrder(p: Params, s: State)
    requires p.Valid() && Reachable(p, s) && Enabled(p, s, ReadGate)
    ensures s.queue[0].step == s.rollout.gatesSeen
    ensures s.queue[0].version == VersionAt(p, s.rollout.gatesSeen)
  {
    ReachableOk(p, s);
    HeadIsExpected(p, s);
  }

  /** The gates read along a run. */
  ghost function GatesRead(p: Params, s: State, steps: seq<Step>, end: State): seq<nat>
    requires Run(p, s, steps, end)
    decreases |steps|
  {
    if steps == [] then []
    else (if steps[0].ReadGate? then [s.queue[0].step] else []) + GatesRead(p, Apply(p, s, steps[0]), steps[1..], end)
  }

  ghost predicate NoCrash(steps: seq<Step>) {
    forall i :: 0 <= i < |steps| ==> !steps[i].Crash?
  }

  lemma StaysUp(p: Params, s: State, step: Step)
    requires s.up && Enabled(p, s, step) && !step.Crash?
    ensures var next := Apply(p, s, step);
      && next.up && next.resume == s.resume
      && next.rollout.gatesSeen == s.rollout.gatesSeen + if step.ReadGate? then 1 else 0
  {
  }

  /** Between two crashes the gates read are consecutive: no gap, no repetition. */
  lemma {:induction false} StreamIsContiguous(p: Params, s: State, steps: seq<Step>, end: State)
    requires Inv(p, s) && s.up && Run(p, s, steps, end) && NoCrash(steps)
    ensures |GatesRead(p, s, steps, end)| == end.rollout.gatesSeen - s.rollout.gatesSeen
    ensures forall i :: 0 <= i < |GatesRead(p, s, steps, end)| ==> GatesRead(p, s, steps, end)[i] == s.rollout.gatesSeen + i
    decreases |steps|
  {
    hide Inv, Enabled, Apply;
    if steps != [] {
      StepKeeps(p, s, steps[0]);
      StaysUp(p, s, steps[0]);
      StreamIsContiguous(p, Apply(p, s, steps[0]), steps[1..], end);
      if steps[0].ReadGate? { HeadAlongRun(p, s); }
    }
  }

  lemma HeadAlongRun(p: Params, s: State)
    requires Inv(p, s) && Enabled(p, s, ReadGate)
    ensures s.queue != [] && s.queue[0].step == s.rollout.gatesSeen
  {
    HeadIsExpected(p, s);
  }

  /** An incarnation that resumed at N reads N, N+1, ... from its first gate on. */
  lemma ResumedStreamStartsAtTheStep(p: Params, s: State, resolved: nat, steps: seq<Step>, end: State)
    requires p.Valid() && Reachable(p, s) && Enabled(p, s, Boot(resolved))
    requires Run(p, Apply(p, s, Boot(resolved)), steps, end) && NoCrash(steps)
    ensures var read := GatesRead(p, Apply(p, s, Boot(resolved)), steps, end);
      forall i :: 0 <= i < |read| ==> read[i] == resolved + i
  {
    hide Inv, Run, Enabled;
    ReachableOk(p, s);
    StepKeeps(p, s, Boot(resolved));
    BootedAt(p, s, resolved);
    StreamIsContiguous(p, Apply(p, s, Boot(resolved)), steps, end);
  }

  lemma BootedAt(p: Params, s: State, resolved: nat)
    requires Inv(p, s) && Enabled(p, s, Boot(resolved))
    ensures Apply(p, s, Boot(resolved)).up && Apply(p, s, Boot(resolved)).rollout.gatesSeen == resolved
  {
    BootRestores(p, s, resolved);
  }

  lemma GenesisOpens(p: Params, s: State)
    requires Inv(p, s) && Enabled(p, s, Genesis)
    ensures Apply(p, s, Genesis).queue == [Gate(s.resume, VersionAt(p, s.resume))]
  {
    hide Inv, RowsOk, CountsOk, ShardsOk, BudgetOk, OneWindowOk, ContentsOk, CursorOk;
    Parts(p, s);
    ValidHere(p, s);
  }

  lemma CriticNumbers(p: Params, s: State)
    requires Inv(p, s) && Enabled(p, s, CriticWrite)
    ensures s.critic.windows <= p.cold ==>
      && Apply(p, s, CriticWrite).queue == s.queue + [Gate(Published(p, s.critic, s.trainer) + 1, 0)]
      && Published(p, s.critic, s.trainer) + 1 == s.critic.windows
    ensures s.critic.windows > p.cold ==> Apply(p, s, CriticWrite).queue == s.queue
  {
    hide Inv, RowsOk, CountsOk, ShardsOk, BudgetOk, OneWindowOk, ContentsOk, CursorOk, GatesOk, Published;
    Parts(p, s);
    ValidHere(p, s);
    ColdClock(p, s);
  }

  lemma TrainerFollows(p: Params, s: State)
    requires Inv(p, s) && Enabled(p, s, TrainerPublish)
    ensures GlobalStep(p, s.trainer) == Published(p, s.critic, s.trainer) + 1 > p.cold
    ensures Apply(p, s, TrainerPublish).queue == s.queue + [Gate(GlobalStep(p, s.trainer), s.trainer.stepIndex)]
  {
    hide Inv, RowsOk, CountsOk, ShardsOk, BudgetOk, OneWindowOk, ContentsOk, CursorOk, GatesOk, Published;
    Parts(p, s);
    ValidHere(p, s);
    TrainerClock(p, s);
  }

  /** Whoever publishes a gate publishes the next one: the trainer's pulse opens
      the stream, the critic numbers the cold start, the trainer what follows. */
  lemma PublishersTakeTurns(p: Params, s: State)
    requires p.Valid() && Reachable(p, s)
    ensures Enabled(p, s, Genesis) ==> Apply(p, s, Genesis).queue == [Gate(s.resume, VersionAt(p, s.resume))]
    ensures Enabled(p, s, CriticWrite) && s.critic.windows <= p.cold ==>
      && Apply(p, s, CriticWrite).queue == s.queue + [Gate(Published(p, s.critic, s.trainer) + 1, 0)]
      && Published(p, s.critic, s.trainer) + 1 == s.critic.windows
    ensures Enabled(p, s, CriticWrite) && s.critic.windows > p.cold ==> Apply(p, s, CriticWrite).queue == s.queue
    ensures Enabled(p, s, TrainerPublish) ==>
      && GlobalStep(p, s.trainer) == Published(p, s.critic, s.trainer) + 1 > p.cold
      && Apply(p, s, TrainerPublish).queue == s.queue + [Gate(GlobalStep(p, s.trainer), s.trainer.stepIndex)]
  {
    hide Inv, Reachable, Enabled, Apply, Published;
    ReachableOk(p, s);
    if Enabled(p, s, Genesis) { GenesisOpens(p, s); }
    if Enabled(p, s, CriticWrite) { CriticNumbers(p, s); }
    if Enabled(p, s, TrainerPublish) { TrainerFollows(p, s); }
  }

  // ---- pacing ---------------------------------------------------------------------------------

  /** The rows the critic fetched as their only consumer, in its cold start. */
  function ColdTook(p: Params, s: State): set<nat> {
    if CriticFetched(s.critic) <= p.cold then s.rows.criticCleared + Unpublished(p, s.critic) else s.rows.criticCleared
  }

  /** Started rows that the consumer pacing the rollout has not fetched yet. */
  function Unfetched(p: Params, s: State): set<nat> {
    (s.rows.inflight + s.rows.stored) - s.rows.trainerTook - ColdTook(p, s)
  }

  function Least(a: int, b: int): int { if a < b then a else b }

  /** The split of what the critic has taken into cleared, published and held rows. */
  lemma ColdArithmetic(p: Params, resume: nat, fetched: int, published: int, cleared: nat, valued: nat, held: nat)
    requires p.batch >= 1 && published >= resume
    requires cleared + valued + held == Samples(p, fetched - resume)
    requires valued == Samples(p, Above(published, Later(p.cold, resume)))
    requires (fetched == published && held == 0) || (fetched == published + 1 && held == p.batch)
      || (fetched == published && held == p.batch && fetched <= p.cold)
    ensures cleared + (if fetched <= p.cold then held else 0) == Samples(p, Least(fetched, p.cold) - Least(resume, p.cold))
  {
    hide Samples;
    SamplesOne(p);
    var start := Later(p.cold, resume);
    if fetched <= p.cold {
      assert Above(published, start) == 0 && Least(fetched, p.cold) == fetched && Least(resume, p.cold) == resume;
    } else {
      var ahead := fetched - start;
      SamplesAdd(p, ahead, start - resume);
      assert ahead + (start - resume) == fetched - resume;
      assert start - resume == p.cold - Least(resume, p.cold);
      if held == p.batch {
        SamplesNext(p, ahead - 1);
        assert ahead - 1 == Above(published, start);
      } else {
        assert ahead == Above(published, start);
      }
    }
  }

  lemma CriticCounts(p: Params, s: State)
    requires Inv(p, s) && s.up && p.hasCritic
    ensures p.batch >= 1 && CriticPublished(s.critic) >= s.resume
    ensures |s.rows.criticTook| == Samples(p, CriticFetched(s.critic) - s.resume)
    ensures |s.rows.valued| == Samples(p, Above(CriticPublished(s.critic), Later(p.cold, s.resume)))
    ensures var held, fetched, published := |Unpublished(p, s.critic)|, CriticFetched(s.critic), CriticPublished(s.critic);
      (fetched == published && held == 0) || (fetched == published + 1 && held == p.batch)
      || (fetched == published && held == p.batch && fetched <= p.cold)
  {
    hide Samples, RowsOk, ShardsOk, GatesOk, BudgetOk, OneWindowOk, ContentsOk, CursorOk;
  }

  lemma ColdCount(p: Params, s: State)
    requires Inv(p, s) && s.up
    ensures |ColdTook(p, s)| == Samples(p, Least(CriticFetched(s.critic), p.cold) - Least(s.resume, p.cold))
      || (!p.hasCritic && ColdTook(p, s) == {})
    ensures !p.hasCritic ==> ColdTook(p, s) == {}
  {
    hide Inv, Samples, Unpublished, CriticFetched, CriticPublished, Above, Later, Least;
    CriticTookParts(p, s);
    if p.hasCritic {
      CriticCounts(p, s);
      ColdArithmetic(p, s.resume, CriticFetched(s.critic), CriticPublished(s.critic), |s.rows.criticCleared|, |s.rows.valued|, |Unpublished(p, s.critic)|);
    }
  }

  lemma CriticTookParts(p: Params, s: State)
    requires Inv(p, s) && s.up
    ensures |s.rows.criticTook| == |s.rows.criticCleared| + |s.rows.valued| + |Unpublished(p, s.critic)|
    ensures |s.rows.criticCleared + Unpublished(p, s.critic)| == |s.rows.criticCleared| + |Unpublished(p, s.critic)|
    ensures !p.hasCritic ==> s.rows.criticCleared == {} && Unpublished(p, s.critic) == {}
  {
    hide Samples, ShardsOk, GatesOk, BudgetOk, OneWindowOk, ContentsOk, CursorOk, ClocksOk, CountsOk;
    var unpublished := Unpublished(p, s.critic);
    assert unpublished !! s.rows.criticCleared;
    UnionSize(s.rows.criticCleared, s.rows.valued);
    UnionSize(s.rows.criticCleared + s.rows.valued, unpublished);
    UnionSize(s.rows.criticCleared, unpublished);
  }

  lemma ThreeParts(a: set<nat>, b: set<nat>, c: set<nat>, from: nat, to: nat)
    requires from <= to && a !! b && b !! c && a !! c
    requires forall id: nat :: id in a || id in b || id in c <==> from <= id < to
    ensures |a| + |b| + |c| == to - from
  {
    UnionSize(a, b);
    UnionSize(a + b, c);
    var all := NewIds(from, to - from);
    assert forall id: nat :: id in a + b + c <==> id in all;
    assert a + b + c == all;
  }

  lemma StartedParts(p: Params, s: State)
    requires Inv(p, s) && s.up
    ensures |Unfetched(p, s)| + |ColdTook(p, s)| + |s.rows.trainerTook| == s.rollout.started - s.base
  {
    hide Inv, Unfetched, ColdTook, NewIds;
    PartsAreDisjoint(p, s);
    BaseIsPaced(p, s);
    ThreeParts(Unfetched(p, s), ColdTook(p, s), s.rows.trainerTook, s.base, s.rollout.started);
  }

  lemma PartsAreDisjoint(p: Params, s: State)
    requires Inv(p, s) && s.up
    ensures Unfetched(p, s) !! ColdTook(p, s) && ColdTook(p, s) !! s.rows.trainerTook && Unfetched(p, s) !! s.rows.trainerTook
    ensures forall id: nat :: id in Unfetched(p, s) || id in ColdTook(p, s) || id in s.rows.trainerTook <==> s.base <= id < s.rollout.started
  {
    hide Samples, ShardsOk, GatesOk, BudgetOk, OneWindowOk, ContentsOk, CursorOk, ClocksOk, CountsOk;
    forall id: nat ensures id in Unfetched(p, s) || id in ColdTook(p, s) || id in s.rows.trainerTook <==> s.base <= id < s.rollout.started {
      assert Placed(s.rows, id) <==> s.base <= id < s.rollout.started;
    }
  }

  /** How many windows the pacing consumers have fetched since the restart. */
  lemma FetchedWindows(p: Params, s: State)
    requires Inv(p, s) && s.up && s.trainer.up
    ensures |ColdTook(p, s)| + |s.rows.trainerTook| >= Samples(p, Published(p, s.critic, s.trainer) - s.resume)
  {
    hide Inv, Samples, ShardsOk, RowsOk, BudgetOk, OneWindowOk, ContentsOk, CursorOk, GatesOk, ColdTook;
    Parts(p, s);
    ValidHere(p, s);
    ColdCount(p, s);
    PublishedIsBehind(p, s);
    var published := Published(p, s.critic, s.trainer);
    var start := Later(p.cold, s.resume);
    var ahead, coldDone := GlobalStep(p, s.trainer) - start, Least(CriticFetched(s.critic), p.cold) - Least(s.resume, p.cold);
    SamplesAdd(p, ahead, coldDone);
    SamplesOne(p);
    SamplesMonotone(p, published - s.resume, ahead + coldDone);
    SamplesMonotone(p, published - s.resume, coldDone);
    SamplesMonotone(p, published - s.resume, ahead);
    SamplesMonotone(p, 0, ahead);
  }

  /** The rollout never runs more than W windows ahead of the consumer that paces
      it; after a resume never more than one, whatever W is. */
  lemma RolloutIsPaced(p: Params, s: State)
    requires p.Valid() && Reachable(p, s) && s.up
    ensures |Unfetched(p, s)| <= Samples(p, p.window)
    ensures s.resume > 0 ==> |Unfetched(p, s)| <= p.batch
  {
    hide Samples, ShardsOk, RowsOk, CountsOk, OneWindowOk, ContentsOk, CursorOk, Unfetched, ColdTook;
    ReachableOk(p, s);
    StartedParts(p, s);
    SamplesOne(p);
    SamplesMonotone(p, 0, p.window);
    if s.trainer.up {
      var published := Published(p, s.critic, s.trainer);
      FetchedWindows(p, s);
      StartedWithinWindow(p, s);
      SamplesAdd(p, published - s.resume, s.resume + p.window);
      SamplesAdd(p, s.resume, p.window);
      SamplesAdd(p, published - s.resume, s.resume - 1 + p.window);
      SamplesNext(p, published + p.window - 1);
      BaseIsPaced(p, s);
      assert published - s.resume + (s.resume + p.window) == published + p.window;
      assert published - s.resume + (s.resume - 1 + p.window) == published + p.window - 1;
    } else {
      NoRowsYet(p, s);
    }
  }

  lemma StartedWithinWindow(p: Params, s: State)
    requires Inv(p, s) && s.up && s.trainer.up
    ensures s.rollout.started <= Samples(p, Published(p, s.critic, s.trainer) + p.window)
    ensures s.resume > 0 ==> s.base == Samples(p, s.resume - 1 + p.window)
  {
    hide Samples, ShardsOk, RowsOk, CountsOk, OneWindowOk, ContentsOk, CursorOk;
    var published := Published(p, s.critic, s.trainer);
    SamplesMonotone(p, s.rollout.gatesSeen - 1 + p.window, published + p.window);
    SamplesMonotone(p, 0, published + p.window);
    SamplesOne(p);
  }

  /** With W = 1 a trainer step only sees rows generated with the trainer's current
      weights, whatever order the rows were finished in. */
  lemma OneWindowIsOnPolicy(p: Params, s: State, id: nat)
    requires p.Valid() && p.window == 1 && Reachable(p, s) && s.up
    requires s.trainer.stage.Taken? && id in s.trainer.stage.rows
    ensures s.base <= id < s.base + |s.tags| && s.tags[id - s.base] == s.trainer.version
  {
    hide Samples, ShardsOk, RowsOk, CountsOk, ContentsOk, CursorOk, GatesOk, BudgetOk;
    ReachableOk(p, s);
    TrainingIsStored(p, s);
    PlacedRows(p, s, s.trainer.stage.rows);
    assert TagOk(p, s.base + (id - s.base), s.tags[id - s.base]);
  }

  lemma TrainingIsStored(p: Params, s: State)
    requires Inv(p, s) && s.up && s.trainer.stage.Taken?
    ensures s.trainer.stage.rows <= s.rows.stored
  {
    hide Samples, ShardsOk, CountsOk, ContentsOk, CursorOk, GatesOk, BudgetOk, OneWindowOk, ClocksOk;
    assert Held(s.trainer.stage) == s.trainer.stage.rows;
  }

  // ---- resume is a rewind --------------------------------------------------------------------

  /** The shard records the rollout exactly as it stood when it had read gate N. */
  lemma ShardIsTheState(p: Params, s: State)
    requires p.Valid() && Reachable(p, s) && Enabled(p, s, CommitRollout)
    ensures var step, next := s.rollout.stage.step, Apply(p, s, CommitRollout);
      && step in next.rollout.shards && next.rollout.shards[step] == SnapshotOf(s.rollout)
      && s.rollout.gatesSeen == step + 1
      && s.rollout.started == Samples(p, step - 1 + p.window)
  {
    hide Samples, ShardsOk, RowsOk, CountsOk, OneWindowOk, ContentsOk, CursorOk, GatesOk, ClocksOk;
    ReachableOk(p, s);
  }

  /** The order a resumed run takes: boot, pulse, the next batch of prompts, gate N. */
  ghost function Resumed(p: Params, s: State, resolved: nat, count: nat): State
    requires Enabled(p, s, Boot(resolved)) && Enabled(p, Apply(p, s, Boot(resolved)), Genesis)
    requires Enabled(p, Apply(p, Apply(p, s, Boot(resolved)), Genesis), TakePrompts(count))
    requires Enabled(p, Apply(p, Apply(p, Apply(p, s, Boot(resolved)), Genesis), TakePrompts(count)), ReadGate)
  {
    Apply(p, Apply(p, Apply(p, Apply(p, s, Boot(resolved)), Genesis), TakePrompts(count)), ReadGate)
  }

  /** Restoring shard N, fetching the next batch and reading the re-published pulse N
      gives back the pacing counters the shard recorded, goes on with the first prompt
      past the recorded position, leaves exactly one window of budget, and does not
      take the snapshot again. */
  lemma ResumeIsARewind(p: Params, s: State, resolved: nat, count: nat)
    requires p.Valid() && Reachable(p, s) && Enabled(p, s, Boot(resolved)) && resolved > 0 && count > 0
    ensures resolved in s.rollout.shards
    ensures Enabled(p, Apply(p, s, Boot(resolved)), Genesis)
    ensures Enabled(p, Apply(p, Apply(p, s, Boot(resolved)), Genesis), TakePrompts(count))
    ensures Enabled(p, Apply(p, Apply(p, Apply(p, s, Boot(resolved)), Genesis), TakePrompts(count)), ReadGate)
    ensures var snap, resumed := s.rollout.shards[resolved], Resumed(p, s, resolved, count).rollout;
      && resumed.gatesSeen == snap.gatesSeen && resumed.started == snap.started && resumed.version == snap.version
      && resumed.cursor == Cursor(snap.epoch, snap.index + count, count, snap.dispatched)
      && NextPrompt(resumed.cursor) == (snap.epoch, snap.index)
      && resumed.stage == Generating && resumed.shards == s.rollout.shards
      && Budget(p, resumed.gatesSeen) - resumed.started == p.batch
  {
    hide Samples, UpOk, Resolves, Newest, Seen, Inv, Reachable, Enabled, Apply, Booted;
    ReachableOk(p, s);
    BootFindsItsShards(p, s, resolved);
    BootEffect(p, s, resolved);
    var booted := Booted(p, s, resolved);
    SamplesNext(p, resolved - 1 + p.window);
    GenesisEffect(p, booted);
    var pulsed := Apply(p, booted, Genesis);
    TakeEffect(p, pulsed, count);
    ReadEffect(p, Apply(p, pulsed, TakePrompts(count)));
  }

  /** The prompt the uninterrupted run would start next is an earlier one: a gate is
      read while a batch is open, and the shard does not say how much of it is left. */
  lemma ShardForgetsTheOpenBatch(p: Params, s: State)
    requires p.Valid() && Reachable(p, s) && Enabled(p, s, CommitRollout)
    ensures 0 < s.rollout.cursor.pending <= s.rollout.cursor.index
    ensures var snap := Apply(p, s, CommitRollout).rollout.shards[s.rollout.stage.step];
      && snap.epoch == s.rollout.cursor.epoch && snap.index == s.rollout.cursor.index
      && NextPrompt(s.rollout.cursor) == (snap.epoch, snap.index - s.rollout.cursor.pending)
    ensures forall i: nat :: s.rollout.cursor.index - s.rollout.cursor.pending <= i < s.rollout.cursor.index ==>
      (s.rollout.cursor.epoch, i) !in s.rollout.cursor.dispatched
  {
    hide Samples, ShardsOk, RowsOk, CountsOk, OneWindowOk, ContentsOk, GatesOk, ClocksOk;
    ReachableOk(p, s);
  }

  /** The prompts from a position on, behind which nothing but `before` was sent. */
  ghost predicate Onwards(c: Cursor, epoch: nat, index: nat, before: set<(nat, nat)>) {
    && c.pending <= c.index
    && (c.epoch > epoch || (c.epoch == epoch && c.index - c.pending >= index))
    && forall prompt :: prompt in c.dispatched && prompt !in before ==> prompt.0 > epoch || (prompt.0 == epoch && prompt.1 >= index)
  }

  lemma StepGoesOnwards(p: Params, s: State, step: Step, epoch: nat, index: nat, before: set<(nat, nat)>)
    requires s.up && Enabled(p, s, step) && !step.Crash? && Onwards(s.rollout.cursor, epoch, index, before)
    ensures Apply(p, s, step).up && Onwards(Apply(p, s, step).rollout.cursor, epoch, index, before)
  {
  }

  lemma {:induction false} RunGoesOnwards(
    p: Params, s: State, steps: seq<Step>, end: State, epoch: nat, index: nat, before: set<(nat, nat)>)
    requires s.up && Run(p, s, steps, end) && NoCrash(steps) && Onwards(s.rollout.cursor, epoch, index, before)
    ensures Onwards(end.rollout.cursor, epoch, index, before)
    decreases |steps|
  {
    hide Enabled, Apply, Onwards;
    if steps != [] {
      StepGoesOnwards(p, s, steps[0], epoch, index, before);
      RunGoesOnwards(p, Apply(p, s, steps[0]), steps[1..], end, epoch, index, before);
    }
  }

  /** An incarnation that resumed at N never starts a prompt the shard's position had
      passed: what was sent before it is not sent again, and the rest of the batch
      that was open then is skipped for good. */
  lemma SkippedPromptsStaySkipped(p: Params, s: State, resolved: nat, steps: seq<Step>, end: State, prompt: (nat, nat))
    requires p.Valid() && Reachable(p, s) && Enabled(p, s, Boot(resolved)) && resolved > 0
    requires Run(p, Apply(p, s, Boot(resolved)), steps, end) && NoCrash(steps)
    requires resolved in s.rollout.shards
    requires var snap := s.rollout.shards[resolved]; prompt.0 < snap.epoch || (prompt.0 == snap.epoch && prompt.1 < snap.index)
    ensures prompt in end.rollout.cursor.dispatched ==> prompt in s.rollout.shards[resolved].dispatched
    ensures Enabled(p, end, StartPrompt) ==> NextPrompt(end.rollout.cursor) != prompt
  {
    hide Inv, Reachable, Run, Enabled, Apply, Booted;
    ReachableOk(p, s);
    BootEffect(p, s, resolved);
    var snap := s.rollout.shards[resolved];
    RunGoesOnwards(p, Apply(p, s, Boot(resolved)), steps, end, snap.epoch, snap.index, snap.dispatched);
    if Enabled(p, end, StartPrompt) { StartsAtTheCursor(p, end); }
  }

  lemma StartsAtTheCursor(p: Params, s: State)
    requires Enabled(p, s, StartPrompt)
    ensures 0 < s.rollout.cursor.pending <= s.rollout.cursor.index
  {
  }

  lemma BootEffect(p: Params, s: State, resolved: nat)
    requires Inv(p, s) && Enabled(p, s, Boot(resolved)) && resolved > 0 && resolved in s.rollout.shards
    ensures var next := Booted(p, s, resolved);
      && Apply(p, s, Boot(resolved)) == next
      && next.up && !next.trainer.up && next.queue == [] && next.resume == resolved
      && next.trainer.version == VersionAt(p, resolved)
      && next.rollout == Restore(s.rollout, resolved) && next.rollout.started == Samples(p, resolved - 1 + p.window)
    ensures SnapshotOk(p, resolved, s.rollout.shards[resolved])
    ensures p.Valid()
  {
    hide Samples, UpOk, Resolves;
    BootRestores(p, s, resolved);
  }

  lemma GenesisEffect(p: Params, s: State)
    requires s.up && !s.trainer.up
    ensures Enabled(p, s, Genesis)
    ensures var next := Apply(p, s, Genesis);
      next.up && next.rollout == s.rollout && next.queue == s.queue + [GenesisGate(s)] && next.resume == s.resume
  {
  }

  lemma TakeEffect(p: Params, s: State, count: nat)
    requires s.up && s.rollout.stage == Generating && s.rollout.cursor.pending == 0 && count > 0
    ensures Enabled(p, s, TakePrompts(count))
    ensures Apply(p, s, TakePrompts(count)) ==
      s.(rollout := s.rollout.(cursor := s.rollout.cursor.(index := s.rollout.cursor.index + count, pending := count)))
  {
  }

  lemma ReadEffect(p: Params, s: State)
    requires s.up && s.rollout.stage == Generating && MustRead(p, s.rollout) && s.queue != []
    requires 0 < s.rollout.cursor.pending <= s.rollout.cursor.index
    ensures Enabled(p, s, ReadGate) && Apply(p, s, ReadGate).rollout == Advance(p, s.rollout, s.queue[0], s.resume)
  {
  }

  /** No prompt is dispatched twice: neither in one incarnation nor, after a
      resume, one that was dispatched before the shard was taken. */
  lemma PromptsAreNew(p: Params, s: State)
    requires p.Valid() && Reachable(p, s) && Enabled(p, s, StartPrompt)
    ensures NextPrompt(s.rollout.cursor) !in s.rollout.cursor.dispatched
  {
    hide Samples, ShardsOk, RowsOk, CountsOk, OneWindowOk, ContentsOk, GatesOk, ClocksOk, BudgetOk;
    ReachableOk(p, s);
  }

  // ---- row ownership ----------------------------------------------------------------------------

  /** Every started row is in exactly one place; a published row waits for the
      trainer until the trainer clears it; a row the critic cleared was never
      published and never reached the trainer. */
  lemma RowsAreConserved(p: Params, s: State, id: nat)
    requires p.Valid() && Reachable(p, s) && s.up && s.base <= id < s.rollout.started
    ensures id in s.rows.inflight || id in s.rows.stored || id in s.rows.criticCleared || id in s.rows.trainerCleared
    ensures id in s.rows.inflight ==> id !in s.rows.stored && id !in s.rows.criticCleared && id !in s.rows.trainerCleared
    ensures id in s.rows.stored ==> id !in s.rows.criticCleared && id !in s.rows.trainerCleared
    ensures id in s.rows.criticCleared ==> id !in s.rows.valued && id !in s.rows.trainerTook && id !in s.rows.trainerCleared
    ensures id in s.rows.valued ==> id in s.rows.stored || id in s.rows.trainerCleared
    ensures id in s.rows.trainerCleared ==> id in s.rows.trainerTook && (p.hasCritic ==> id in s.rows.valued)
  {
    hide Samples, ShardsOk, CountsOk, OneWindowOk, ContentsOk, GatesOk, ClocksOk, BudgetOk, CursorOk;
    ReachableOk(p, s);
    assert Placed(s.rows, id);
  }

  /** The critic clears a window exactly when it published no column for it. */
  lemma CriticClearsWhatItDidNotPublish(p: Params, s: State)
    requires p.Valid() && Reachable(p, s) && Enabled(p, s, CriticClear)
    ensures ShouldClear(p, s.critic) <==> s.critic.stage.rows !! s.rows.valued
    ensures !ShouldClear(p, s.critic) <==> s.critic.stage.rows <= s.rows.valued
    ensures ShouldClear(p, s.critic) <==> Apply(p, s, CriticClear).rows.criticCleared == s.rows.criticCleared + s.critic.stage.rows
  {
    hide Inv, Reachable, Enabled, Apply, ShouldClear;
    ReachableOk(p, s);
    CriticClearEffect(p, s);
    WindowIsOneOrTheOther(p, s);
    var id :| id in s.critic.stage.rows;
    assert id !in s.rows.criticCleared;
  }

  lemma WindowIsOneOrTheOther(p: Params, s: State)
    requires Inv(p, s) && s.up && s.critic.stage.Clearing?
    ensures ShouldClear(p, s.critic) ==> s.critic.stage.rows !! s.rows.valued
    ensures !ShouldClear(p, s.critic) ==> s.critic.stage.rows <= s.rows.valued
    ensures s.critic.stage.rows !! s.rows.criticCleared && |s.critic.stage.rows| >= 1
  {
    hide Samples, ShardsOk, OneWindowOk, ContentsOk, GatesOk, BudgetOk, CursorOk;
  }
}

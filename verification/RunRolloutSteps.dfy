/** Each step of the rollout keeps the invariant. */
module RunRolloutSteps {
  import opened Retention
  import opened RunModel
  import opened RunInvariant
  import opened RunLemmas

  lemma TakePromptsKeeps(p: Params, s: State, count: nat)
    requires Inv(p, s) && Enabled(p, s, TakePrompts(count))
    ensures Inv(p, Apply(p, s, TakePrompts(count)))
  {
    hide Samples, RowsOk, CountsOk, ClocksOk, OneWindowOk, ContentsOk;
    var next := Apply(p, s, TakePrompts(count));
    SameRollout(p, s, next);
    OneWindowFrame(p, s, next);
  }

  lemma NextEpochKeeps(p: Params, s: State)
    requires Inv(p, s) && Enabled(p, s, NextEpoch)
    ensures Inv(p, Apply(p, s, NextEpoch))
  {
    hide Samples, RowsOk, CountsOk, ClocksOk, OneWindowOk, ContentsOk;
    var next := Apply(p, s, NextEpoch);
    SameRollout(p, s, next);
    OneWindowFrame(p, s, next);
  }

  /** A step that only moves the cursor keeps what is said of the counters. */
  lemma SameRollout(p: Params, s: State, next: State)
    requires Inv(p, s) && s.up && s.rollout.stage == Generating
    requires next == s.(rollout := s.rollout.(cursor := next.rollout.cursor))
    ensures GatesOk(p, next.resume, next.trainer.up, next.queue, next.rollout, Published(p, next.critic, next.trainer))
    ensures BudgetOk(p, next.resume, next.base, next.rollout)
    ensures ShardsOk(p, next.resume, next.rollout, next.critic, next.trainer)
  {
    hide Samples, RowsOk, CountsOk, OneWindowOk, ContentsOk, CursorOk;
  }

  lemma OneWindowFrame(p: Params, s: State, next: State)
    requires p.window == 1 ==> OneWindowOk(p, s)
    requires next.rows == s.rows && next.tags == s.tags && next.base == s.base && next.resume == s.resume
    requires next.rollout.started == s.rollout.started && next.critic == s.critic && next.trainer == s.trainer
    ensures p.window == 1 ==> OneWindowOk(p, next)
  {
  }

  // ---- a prompt is started ------------------------------------------------------------------

  lemma MoreRows(p: Params, base: nat, started: nat, rows: Rows, unpublished: set<nat>, training: set<nat>, count: nat)
    requires RowsOk(p, base, started, rows, unpublished, training)
    ensures RowsOk(p, base, started + count, rows.(inflight := rows.inflight + NewIds(started, count)), unpublished, training)
  {
    var added := NewIds(started, count);
    var next := rows.(inflight := rows.inflight + added);
    forall id | id in added ensures !Placed(rows, id) {
    }
    assert rows.stored !! added && rows.criticCleared !! added && rows.trainerCleared !! added by {
      assert forall id :: id in rows.stored || id in rows.criticCleared || id in rows.trainerCleared ==> Placed(rows, id);
    }
    forall id: nat ensures Placed(next, id) <==> base <= id < started + count {
      assert Placed(next, id) <==> Placed(rows, id) || id in added;
    }
  }

  lemma StartPromptRows(p: Params, s: State)
    requires Inv(p, s) && Enabled(p, s, StartPrompt)
    ensures var next := Apply(p, s, StartPrompt);
      RowsOk(p, next.base, next.rollout.started, next.rows, Unpublished(p, next.critic), Held(next.trainer.stage))
  {
    hide Samples, CountsOk, ShardsOk, ClocksOk, GatesOk, BudgetOk, OneWindowOk, ContentsOk, RowsOk, CursorOk, NewIds;
    MoreRows(p, s.base, s.rollout.started, s.rows, Unpublished(p, s.critic), Held(s.trainer.stage), p.group);
  }

  lemma StartBudget(p: Params, resume: nat, base: nat, r: Rollout)
    requires p.Valid() && BudgetOk(p, resume, base, r) && !MustRead(p, r) && r.stage == Generating
    requires 0 < r.cursor.pending <= r.cursor.index
    ensures BudgetOk(p, resume, base, StartGroup(p, r))
  {
    hide Samples;
    NextGroup(p, r.started);
  }

  lemma StartPromptBudget(p: Params, s: State)
    requires Inv(p, s) && Enabled(p, s, StartPrompt)
    ensures var next := Apply(p, s, StartPrompt);
      BudgetOk(p, next.resume, next.base, next.rollout)
  {
    hide Samples, CountsOk, ShardsOk, ClocksOk, GatesOk, OneWindowOk, ContentsOk, RowsOk, BudgetOk;
    StartBudget(p, s.resume, s.base, s.rollout);
  }

  lemma AppendTags(p: Params, s: State, next: State, tag: nat)
    requires OneWindowOk(p, s) && next.tags == s.tags + seq(p.group, _ => tag)
    requires next.rollout.started == s.rollout.started + p.group && next.base == s.base && next.resume == s.resume
    requires next.critic == s.critic && next.trainer == s.trainer && next.rows == s.rows.(inflight := next.rows.inflight)
    requires forall id :: s.rollout.started <= id < s.rollout.started + p.group ==> TagOk(p, id, tag)
    ensures OneWindowOk(p, next)
  {
    hide Exactly, Covers, Within, TagOk;
    forall i | 0 <= i < |next.tags| ensures TagOk(p, next.base + i, next.tags[i]) {
      if i >= |s.tags| { assert next.tags[i] == tag; } else { assert next.tags[i] == s.tags[i]; }
    }
  }

  lemma StartPromptTags(p: Params, s: State)
    requires Inv(p, s) && Enabled(p, s, StartPrompt) && p.window == 1
    ensures OneWindowOk(p, Apply(p, s, StartPrompt))
  {
    hide Samples, CountsOk, ShardsOk, ClocksOk, ContentsOk, RowsOk, OneWindowOk, TagOk, GatesOk, BudgetOk, CursorOk, NewIds;
    forall id | s.rollout.started <= id < s.rollout.started + p.group ensures TagOk(p, id, s.rollout.version) {
      FreshTagOk(p, s, id);
    }
    AppendTags(p, s, Apply(p, s, StartPrompt), s.rollout.version);
  }

  /** With W = 1 a row is started under the gate of its own window. */
  lemma FreshTagOk(p: Params, s: State, id: nat)
    requires Inv(p, s) && Enabled(p, s, StartPrompt) && p.window == 1
    requires s.rollout.started <= id < s.rollout.started + p.group
    ensures TagOk(p, id, s.rollout.version)
  {
    hide Samples, CountsOk, ShardsOk, ClocksOk, ContentsOk, RowsOk, OneWindowOk;
    var last := s.rollout.gatesSeen - 1;
    StartedPastTheLastGate(p, s);
    forall window: nat | Samples(p, window) <= id < Samples(p, window + 1) ensures s.rollout.version == VersionAt(p, window) {
      SamplesMonotone(p, window, last);
      SamplesMonotone(p, last, window);
      SamplesNext(p, last);
      SamplesNext(p, window);
    }
  }

  /** The last gate was read when the windows before it were used up. */
  lemma StartedPastTheLastGate(p: Params, s: State)
    requires Inv(p, s) && Enabled(p, s, StartPrompt) && p.window == 1
    ensures s.rollout.gatesSeen >= 1 && s.rollout.gatesSeen - 1 >= s.resume
    ensures Samples(p, s.rollout.gatesSeen - 1) <= s.rollout.started
    ensures s.rollout.started + p.group <= Samples(p, s.rollout.gatesSeen)
  {
    hide Samples, CountsOk, ShardsOk, ClocksOk, ContentsOk, RowsOk, OneWindowOk;
    SamplesOne(p);
    assert s.rollout.gatesSeen - 2 + p.window == s.rollout.gatesSeen - 1;
    assert s.rollout.gatesSeen - 1 + p.window == s.rollout.gatesSeen;
  }

  lemma StartPromptKeeps(p: Params, s: State)
    requires Inv(p, s) && Enabled(p, s, StartPrompt)
    ensures Inv(p, Apply(p, s, StartPrompt))
  {
    hide Samples, RowsOk, ClocksOk, OneWindowOk, ContentsOk, BudgetOk, ShardsOk, GatesOk, NewIds;
    StartPromptRows(p, s);
    StartPromptBudget(p, s);
    if p.window == 1 { StartPromptTags(p, s); }
    ShardsFrame(p, s, Apply(p, s, StartPrompt));
    GatesFrame(p, s, Apply(p, s, StartPrompt));
    assert CursorOk(Apply(p, s, StartPrompt).rollout.cursor);
  }

  // ---- rows are written ------------------------------------------------------------------------

  lemma WriteRowsKeeps(p: Params, s: State, written: set<nat>)
    requires Inv(p, s) && Enabled(p, s, WriteRows(written))
    ensures Inv(p, Apply(p, s, WriteRows(written)))
  {
    hide Samples, ClocksOk, GatesOk, BudgetOk, ShardsOk, OneWindowOk, ContentsOk, CursorOk, RowsOk;
    WriteRowsRows(p, s, written);
    OneWindowRows(p, s, Apply(p, s, WriteRows(written)));
  }

  lemma OneWindowRows(p: Params, s: State, next: State)
    requires p.window == 1 ==> OneWindowOk(p, s)
    requires next == s.(rows := next.rows)
    requires next.rows.criticTook == s.rows.criticTook && next.rows.valued == s.rows.valued && next.rows.trainerTook == s.rows.trainerTook
    ensures p.window == 1 ==> OneWindowOk(p, next)
  {
  }

  lemma MoveRows(p: Params, base: nat, started: nat, rows: Rows, unpublished: set<nat>, training: set<nat>, written: set<nat>)
    requires RowsOk(p, base, started, rows, unpublished, training) && written <= rows.inflight
    ensures RowsOk(p, base, started, rows.(inflight := rows.inflight - written, stored := rows.stored + written), unpublished, training)
  {
    var next := rows.(inflight := rows.inflight - written, stored := rows.stored + written);
    forall id: nat ensures Placed(next, id) <==> base <= id < started {
      assert Placed(next, id) <==> Placed(rows, id);
    }
  }

  lemma WriteRowsRows(p: Params, s: State, written: set<nat>)
    requires Inv(p, s) && Enabled(p, s, WriteRows(written))
    ensures var next := Apply(p, s, WriteRows(written));
      RowsOk(p, next.base, next.rollout.started, next.rows, Unpublished(p, next.critic), Held(next.trainer.stage))
  {
    hide Samples, CountsOk, ShardsOk, ClocksOk, GatesOk, BudgetOk, OneWindowOk, ContentsOk, RowsOk, CursorOk;
    MoveRows(p, s.base, s.rollout.started, s.rows, Unpublished(p, s.critic), Held(s.trainer.stage), written);
  }

  // ---- a gate is read -----------------------------------------------------------------------------

  /** The gate at the head of the queue is the one expected. */
  lemma HeadIsExpected(p: Params, s: State)
    requires Inv(p, s) && s.up && s.queue != []
    ensures s.trainer.up && s.queue[0] == Gate(s.rollout.gatesSeen, VersionAt(p, s.rollout.gatesSeen))
    ensures s.rollout.gatesSeen <= Published(p, s.critic, s.trainer)
  {
    hide Samples, CountsOk, ShardsOk, ClocksOk, BudgetOk, OneWindowOk, ContentsOk, RowsOk;
    assert s.queue[0] == Gate(s.rollout.gatesSeen + 0, VersionAt(p, s.rollout.gatesSeen + 0));
  }

  /** When the acquire loop reads gate g > 0 it has started exactly (g - 1 + W) windows. */
  lemma ReadsWhenSpent(p: Params, s: State)
    requires Inv(p, s) && Enabled(p, s, ReadGate) && s.rollout.gatesSeen > 0
    ensures s.rollout.started == Samples(p, s.rollout.gatesSeen - 1 + p.window)
  {
    hide Samples, CountsOk, ShardsOk, ClocksOk, OneWindowOk, ContentsOk, RowsOk, GatesOk;
    SamplesAreGroups(p, s.rollout.gatesSeen - 1 + p.window);
    if s.rollout.started < Samples(p, s.rollout.gatesSeen - 1 + p.window) {
      GroupsApart(p, s.rollout.started, Samples(p, s.rollout.gatesSeen - 1 + p.window));
    }
  }

  lemma ReadGateGates(p: Params, s: State)
    requires Inv(p, s) && Enabled(p, s, ReadGate)
    ensures var next := Apply(p, s, ReadGate);
      && GatesOk(p, next.resume, next.trainer.up, next.queue, next.rollout, Published(p, next.critic, next.trainer))
      && BudgetOk(p, next.resume, next.base, next.rollout)
  {
    hide Samples, CountsOk, ShardsOk, ClocksOk, OneWindowOk, ContentsOk, RowsOk;
    HeadIsExpected(p, s);
    var seen := s.rollout.gatesSeen;
    SamplesOne(p);
    SamplesMonotone(p, seen - 1 + p.window, seen + p.window);
    SamplesMonotone(p, 0, p.window);
    if seen > 0 { ReadsWhenSpent(p, s); }
    assert forall i :: 0 <= i < |s.queue| - 1 ==> s.queue[1..][i] == s.queue[i + 1];
  }

  lemma AdvancedShards(p: Params, resume: nat, r: Rollout, c: Critic, t: Trainer, gate: Gate)
    requires ShardsOk(p, resume, r, c, t) && r.stage == Generating && gate.step == r.gatesSeen && resume <= r.gatesSeen
    requires Newest(r.shards.Keys) <= Later(resume, r.gatesSeen) && (Newest(r.shards.Keys) >= r.gatesSeen ==> Newest(r.shards.Keys) <= resume)
    ensures ShardsOk(p, resume, Advance(p, r, gate, resume), c, t)
  {
    hide Newest, Retained;
  }

  lemma NewestIsBelow(p: Params, resume: nat, r: Rollout)
    requires RolloutShardsOk(p, resume, r, Newest(r.shards.Keys))
    ensures Newest(r.shards.Keys) < r.gatesSeen || Newest(r.shards.Keys) <= resume
  {
    hide Due;
    if r.shards.Keys == {} { assert Newest(r.shards.Keys) == 0; }
  }

  lemma ReadGateShards(p: Params, s: State)
    requires Inv(p, s) && Enabled(p, s, ReadGate)
    ensures var next := Apply(p, s, ReadGate);
      ShardsOk(p, next.resume, next.rollout, next.critic, next.trainer)
  {
    hide Inv, ShardsOk, Enabled, Apply, ClocksOk, GatesOk, BudgetOk, CountsOk, RowsOk, OneWindowOk, CursorOk, ContentsOk;
    ReadGateEffect(p, s);
    Parts(p, s);
    HeadIsExpected(p, s);
    ReadIsPastResume(p, s);
    AdvancedShards(p, s.resume, s.rollout, s.critic, s.trainer, s.queue[0]);
  }

  lemma ReadIsPastResume(p: Params, s: State)
    requires Inv(p, s) && s.up
    ensures s.resume <= s.rollout.gatesSeen
    ensures var newest := Newest(s.rollout.shards.Keys);
      newest <= Later(s.resume, s.rollout.gatesSeen) && (newest >= s.rollout.gatesSeen ==> newest <= s.resume)
  {
    hide Samples, ClocksOk, BudgetOk, CountsOk, RowsOk, OneWindowOk, CursorOk, ContentsOk, Newest, Retained, RolloutShardsOk;
    NewestIsBelow(p, s.resume, s.rollout);
  }

  lemma ReadGateKeeps(p: Params, s: State)
    requires Inv(p, s) && Enabled(p, s, ReadGate)
    ensures Inv(p, Apply(p, s, ReadGate))
  {
    hide Samples, RowsOk, CountsOk, ClocksOk, OneWindowOk, ContentsOk, BudgetOk, GatesOk, ShardsOk;
    ReadGateGates(p, s);
    ReadGateShards(p, s);
    OneWindowFrame(p, s, Apply(p, s, ReadGate));
  }

  // ---- the rollout's shard --------------------------------------------------------------------------

  lemma NewestAdds(shards: set<nat>, step: nat)
    requires Newest(shards) <= step
    ensures Newest(shards + {step}) == step
  {
    assert step in shards + {step};
  }

  lemma CommitContents(p: Params, s: State)
    requires Inv(p, s) && Enabled(p, s, CommitRollout)
    ensures var next := Apply(p, s, CommitRollout);
      ContentsOk(p, next.rollout.shards, next.critic.shards, next.trainer.shards)
  {
    hide Samples, CountsOk, ShardsOk, ClocksOk, OneWindowOk, RowsOk;
  }

  lemma RaisedFloor(p: Params, shards: set<nat>, floor: nat, higher: nat, from: nat, marked: int)
    requires Retained(p, shards, floor, from, marked) && floor <= higher
    ensures Retained(p, shards, higher, from, marked)
  {
    hide Due;
  }

  lemma CommittedShards(p: Params, resume: nat, r: Rollout, c: Critic, t: Trainer)
    requires ShardsOk(p, resume, r, c, t) && r.stage.Snapshotting? && r.gatesSeen == r.stage.step + 1 && r.stage.step > resume
    ensures ShardsOk(p, resume, Commit(r), c, t)
  {
    hide Newest, Retained, Due;
    var newest, step := Newest(r.shards.Keys), r.stage.step;
    NewestAdds(r.shards.Keys, step);
    assert Commit(r).shards.Keys == r.shards.Keys + {step};
    if p.hasCritic { RaisedFloor(p, c.shards, newest, step, 0, CriticMarked(c)); }
    RaisedFloor(p, t.shards.Keys, newest, step, p.cold, TrainerMarked(p, t));
  }

  lemma CommitShards(p: Params, s: State)
    requires Inv(p, s) && Enabled(p, s, CommitRollout)
    ensures var next := Apply(p, s, CommitRollout);
      ShardsOk(p, next.resume, next.rollout, next.critic, next.trainer)
  {
    hide Inv, ShardsOk, Enabled, Apply, ClocksOk, GatesOk, CountsOk, RowsOk, OneWindowOk, CursorOk, ContentsOk, Samples;
    CommitRolloutEffect(p, s);
    Parts(p, s);
    ValidHere(p, s);
    CommittedShards(p, s.resume, s.rollout, s.critic, s.trainer);
  }

  lemma CommitRolloutKeeps(p: Params, s: State)
    requires Inv(p, s) && Enabled(p, s, CommitRollout)
    ensures Inv(p, Apply(p, s, CommitRollout))
  {
    hide Samples, RowsOk, CountsOk, ClocksOk, OneWindowOk, ContentsOk, ShardsOk;
    CommitContents(p, s);
    CommitShards(p, s);
    OneWindowFrame(p, s, Apply(p, s, CommitRollout));
  }

  /** Removing the oldest of several shards keeps the newest. */
  lemma NewestSurvives(shards: set<nat>, oldest: nat)
    requires |shards| >= 2 && Oldest(shards, oldest)
    ensures Newest(shards - {oldest}) == Newest(shards)
    ensures Newest(shards) != oldest
  {
    var rest := shards - {oldest};
    assert |rest| >= 1;
    var other :| other in rest;
    assert oldest <= other && other != oldest;
    assert Newest(shards) in rest;
  }

  lemma PrunedShards(p: Params, resume: nat, r: Rollout, c: Critic, t: Trainer, oldest: nat)
    requires p.Valid() && ShardsOk(p, resume, r, c, t) && r.stage == Trimming
    requires |r.shards| > p.keep ==> Oldest(r.shards.Keys, oldest)
    ensures ShardsOk(p, resume, Pruned(p, r, oldest), c, t)
  {
    hide Newest, Retained, Due;
    if |r.shards| > p.keep {
      KeyCount(r.shards);
      WithoutOne(r.shards, oldest);
      NewestSurvives(r.shards.Keys, oldest);
    }
  }

  lemma PruneRolloutKeeps(p: Params, s: State, oldest: nat)
    requires Inv(p, s) && Enabled(p, s, PruneRollout(oldest))
    ensures Inv(p, Apply(p, s, PruneRollout(oldest)))
  {
    hide Inv, RowsOk, CountsOk, ClocksOk, OneWindowOk, ShardsOk, Enabled, Apply, Samples, SnapshotOk;
    PruneRolloutEffect(p, s, oldest);
    var next := Apply(p, s, PruneRollout(oldest));
    Parts(p, s);
    ValidHere(p, s);
    PrunedShards(p, s.resume, s.rollout, s.critic, s.trainer, oldest);
    GatesFrame(p, s, next);
    OneWindowFrame(p, s, next);
    InvFromParts(p, next);
  }
}

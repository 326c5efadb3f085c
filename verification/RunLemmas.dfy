/** Counting rows in whole windows, and what the invariant says about the clocks. */
module RunLemmas {
  import opened Arithmetic
  import opened Retention
  import opened RunModel
  import opened RunInvariant

  // ---- windows and rows --------------------------------------------------------------

  lemma SamplesAdd(p: Params, a: int, b: int)
    ensures Samples(p, a + b) == Samples(p, a) + Samples(p, b)
  {
    assert (a + b) * p.batch == a * p.batch + b * p.batch;
  }

  lemma SamplesOne(p: Params)
    ensures Samples(p, 1) == p.batch && Samples(p, 0) == 0
  {
  }

  lemma SamplesNext(p: Params, a: int)
    ensures Samples(p, a + 1) == Samples(p, a) + p.batch
  {
    SamplesAdd(p, a, 1);
    SamplesOne(p);
  }

  lemma SamplesMonotone(p: Params, a: int, b: int)
    requires p.batch >= 1
    ensures a <= b <==> Samples(p, a) <= Samples(p, b)
    ensures a < b ==> Samples(p, a) + p.batch <= Samples(p, b)
  {
    SamplesAdd(p, a, b - a);
    SamplesAdd(p, b, a - b);
    if a < b { MulAtLeast(b - a, p.batch); SamplesSign(p, b - a); }
    if b < a { MulAtLeast(a - b, p.batch); SamplesSign(p, a - b); }
  }

  lemma SamplesSign(p: Params, a: nat)
    requires a >= 1 && a * p.batch >= p.batch
    ensures Samples(p, a) >= p.batch
  {
  }

  /** Whole windows are whole groups. */
  lemma SamplesAreGroups(p: Params, a: nat)
    requires p.Valid()
    ensures Samples(p, a) >= 0 && Samples(p, a) % p.group == 0
  {
    var g := p.batch / p.group;
    Fundamental(p.batch, p.group);
    assert Samples(p, a) == (a * g) * p.group + 0 by {
      assert a * (g * p.group) == (a * g) * p.group;
    }
    QuotientOf(a * g, 0, p.group);
  }

  /** Between two multiples of the group there is room for a group. */
  lemma GroupsApart(p: Params, x: nat, y: nat)
    requires p.group >= 1 && x % p.group == 0 && y % p.group == 0 && x < y
    ensures x + p.group <= y
  {
    Fundamental(x, p.group);
    Fundamental(y, p.group);
    var a, b := x / p.group, y / p.group;
    if b <= a {
      QuotientMonotone(b, a, p.group);
    } else {
      Distribute(b, a, p.group);
      MulAtLeast(b - a, p.group);
    }
  }

  lemma NextGroup(p: Params, x: nat)
    requires p.group >= 1 && x % p.group == 0
    ensures (x + p.group) % p.group == 0
  {
    Fundamental(x, p.group);
    var a := x / p.group;
    assert (a + 1) * p.group == a * p.group + p.group;
    QuotientOf(a + 1, 0, p.group);
  }

  lemma {:induction false} SubsetSize(a: set<nat>, b: set<nat>)
    requires a <= b
    ensures |a| <= |b|
    ensures |a| == |b| ==> a == b
  {
    if a != {} {
      var x :| x in a;
      SubsetSize(a - {x}, b - {x});
    }
  }

  lemma UnionSize(a: set<nat>, b: set<nat>)
    requires a !! b
    ensures |a + b| == |a| + |b|
  {
    assert (a + b) - a == b;
  }

  // ---- the clocks ----------------------------------------------------------------------

  lemma TakenAreStarted(p: Params, base: nat, started: nat, rows: Rows, unpublished: set<nat>, training: set<nat>)
    requires RowsOk(p, base, started, rows, unpublished, training)
    ensures rows.criticTook <= NewIds(base, started - base) && rows.trainerTook <= NewIds(base, started - base)
    ensures |rows.criticTook| <= started - base && |rows.trainerTook| <= started - base
    ensures p.hasCritic ==> |rows.trainerTook| <= |rows.valued|
  {
    var all := NewIds(base, started - base);
    forall id | id in rows.criticTook || id in rows.trainerTook ensures id in all {
      assert Placed(rows, id);
    }
    SubsetSize(rows.criticTook, all);
    SubsetSize(rows.trainerTook, all);
    if p.hasCritic { SubsetSize(rows.trainerTook, rows.valued); }
  }

  /** No consumer has taken more rows than were started. */
  lemma TakenWereStarted(p: Params, s: State)
    requires Inv(p, s) && s.up
    ensures |s.rows.criticTook| <= s.rollout.started - s.base
    ensures |s.rows.trainerTook| <= s.rollout.started - s.base
    ensures p.hasCritic ==> |s.rows.trainerTook| <= |s.rows.valued|
  {
    hide RowsOk, CountsOk, ShardsOk, ClocksOk, GatesOk, BudgetOk, OneWindowOk, ContentsOk, CursorOk;
    TakenAreStarted(p, s.base, s.rollout.started, s.rows, Unpublished(p, s.critic), Held(s.trainer.stage));
  }

  /** The trainer never gets ahead of the critic that feeds it. */
  lemma TrainerBehindCritic(p: Params, s: State)
    requires Inv(p, s) && s.up && p.hasCritic
    ensures GlobalStep(p, s.trainer) > Later(p.cold, s.resume) ==> GlobalStep(p, s.trainer) <= CriticPublished(s.critic)
    ensures s.trainer.trained > 0 || s.trainer.stage.Taken? ==> CriticPublished(s.critic) > Later(p.cold, s.resume)
    ensures TrainerPublished(p, s.trainer) > p.cold ==> TrainerPublished(p, s.trainer) <= CriticPublished(s.critic)
    ensures Published(p, s.critic, s.trainer) <= CriticPublished(s.critic)
  {
    hide Samples, RowsOk, ShardsOk, GatesOk, BudgetOk, OneWindowOk, ContentsOk, CursorOk;
    TakenWereStarted(p, s);
    var start := Later(p.cold, s.resume);
    var ahead, published := GlobalStep(p, s.trainer) - start, Above(CriticPublished(s.critic), start);
    SamplesMonotone(p, ahead, published);
    SamplesMonotone(p, 0, published);
    SamplesMonotone(p, 0, ahead);
    SamplesOne(p);
  }

  /** The gate clock against the consumers' clocks. */
  lemma PublishedIsBehind(p: Params, s: State)
    requires Inv(p, s) && s.up
    ensures s.resume <= Published(p, s.critic, s.trainer)
    ensures Published(p, s.critic, s.trainer) <= CriticPublished(s.critic) || !p.hasCritic
    ensures Published(p, s.critic, s.trainer) <= Later(p.cold, TrainerPublished(p, s.trainer))
    ensures Published(p, s.critic, s.trainer) > p.cold ==> Published(p, s.critic, s.trainer) == TrainerPublished(p, s.trainer)
  {
    hide Samples, RowsOk, CountsOk, ShardsOk, GatesOk, BudgetOk, OneWindowOk, ContentsOk, CursorOk;
    if p.hasCritic { TrainerBehindCritic(p, s); }
  }

  lemma BaseIsPaced(p: Params, s: State)
    requires Inv(p, s) && s.up
    ensures s.base >= Samples(p, s.resume)
    ensures s.base <= s.rollout.started
  {
    hide Samples, RowsOk, CountsOk, ShardsOk, GatesOk, OneWindowOk, ContentsOk, CursorOk, ClocksOk;
    SamplesOne(p);
    SamplesMonotone(p, s.resume, s.resume - 1 + p.window);
  }

  /** Consumers work on windows the rollout could afford. */
  lemma FetchedIsPaced(p: Params, s: State)
    requires Inv(p, s) && s.up
    ensures Samples(p, CriticFetched(s.critic)) <= s.rollout.started
    ensures !p.hasCritic ==> Samples(p, GlobalStep(p, s.trainer)) <= s.rollout.started
  {
    hide Samples, RowsOk, ShardsOk, GatesOk, OneWindowOk, ContentsOk, CursorOk, BudgetOk;
    TakenWereStarted(p, s);
    BaseIsPaced(p, s);
    SamplesAdd(p, CriticFetched(s.critic) - s.resume, s.resume);
    if !p.hasCritic {
      SamplesAdd(p, GlobalStep(p, s.trainer) - s.resume, s.resume);
    }
  }

  /** Before the first pulse of an incarnation nothing has moved. */
  lemma QuietBeforeGenesis(p: Params, s: State)
    requires Inv(p, s) && s.up && !s.trainer.up
    ensures s.rows.criticTook == {} && s.rows.trainerTook == {}
    ensures s.critic.windows == s.resume && (s.critic.stage.Idle? || s.critic.stage.Clearing?)
    ensures s.queue == [] && s.rollout.gatesSeen == s.resume
  {
    hide Samples, RowsOk, ShardsOk, OneWindowOk, ContentsOk, CursorOk;
    TakenWereStarted(p, s);
    assert s.rollout.started == s.base;
    SamplesOne(p);
    SamplesMonotone(p, CriticFetched(s.critic) - s.resume, 0);
  }

  // ---- frames ------------------------------------------------------------------------------

  /** What is said about shards concerns the markers, the commit stages and the clocks alone. */
  lemma ShardsFrame(p: Params, s: State, next: State)
    requires ShardsOk(p, s.resume, s.rollout, s.critic, s.trainer) && next.resume == s.resume
    requires next.rollout.shards == s.rollout.shards && next.rollout.stage == s.rollout.stage && next.rollout.gatesSeen == s.rollout.gatesSeen
    requires next.critic.shards == s.critic.shards && CriticMarked(next.critic) == CriticMarked(s.critic)
    requires next.critic.windows == s.critic.windows && (next.critic.stage.Committing? ==> s.critic.stage.Committing?)
    requires next.trainer.shards == s.trainer.shards && TrainerMarked(p, next.trainer) == TrainerMarked(p, s.trainer)
    requires next.trainer.stepIndex == s.trainer.stepIndex && (next.trainer.stage.Committing? ==> s.trainer.stage.Committing?)
    ensures ShardsOk(p, next.resume, next.rollout, next.critic, next.trainer)
  {
    hide Retained, Newest;
  }

  lemma GatesFrame(p: Params, s: State, next: State)
    requires GatesOk(p, s.resume, s.trainer.up, s.queue, s.rollout, Published(p, s.critic, s.trainer)) && next.resume == s.resume
    requires next.trainer.up == s.trainer.up && next.queue == s.queue
    requires next.rollout.gatesSeen == s.rollout.gatesSeen && next.rollout.version == s.rollout.version
    requires CriticPublished(next.critic) == CriticPublished(s.critic) && TrainerPublished(p, next.trainer) == TrainerPublished(p, s.trainer)
    ensures GatesOk(p, next.resume, next.trainer.up, next.queue, next.rollout, Published(p, next.critic, next.trainer))
  {
  }

  lemma UpFromParts(p: Params, s: State)
    requires p.Valid()
    requires ClocksOk(p, s.resume, s.critic, s.trainer)
    requires GatesOk(p, s.resume, s.trainer.up, s.queue, s.rollout, Published(p, s.critic, s.trainer))
    requires BudgetOk(p, s.resume, s.base, s.rollout)
    requires RowsOk(p, s.base, s.rollout.started, s.rows, Unpublished(p, s.critic), Held(s.trainer.stage))
    requires CountsOk(p, s.resume, s.rows, s.critic, s.trainer)
    requires ShardsOk(p, s.resume, s.rollout, s.critic, s.trainer)
    requires CursorOk(s.rollout.cursor)
    requires p.window == 1 ==> OneWindowOk(p, s)
    ensures UpOk(p, s)
  {
  }

  lemma Parts(p: Params, s: State)
    requires Inv(p, s) && s.up
    ensures ClocksOk(p, s.resume, s.critic, s.trainer)
    ensures GatesOk(p, s.resume, s.trainer.up, s.queue, s.rollout, Published(p, s.critic, s.trainer))
    ensures BudgetOk(p, s.resume, s.base, s.rollout)
    ensures RowsOk(p, s.base, s.rollout.started, s.rows, Unpublished(p, s.critic), Held(s.trainer.stage))
    ensures CountsOk(p, s.resume, s.rows, s.critic, s.trainer)
    ensures ShardsOk(p, s.resume, s.rollout, s.critic, s.trainer)
    ensures CursorOk(s.rollout.cursor)
    ensures p.window == 1 ==> OneWindowOk(p, s)
    ensures ContentsOk(p, s.rollout.shards, s.critic.shards, s.trainer.shards)
  {
    hide ClocksOk, GatesOk, BudgetOk, RowsOk, CountsOk, ShardsOk, CursorOk, OneWindowOk, ContentsOk;
  }

  predicate Posted(stage: Stage) { stage.Committing? || stage.Pruning? || stage.Releasing? }

  /** Between scoring and writing the critic only moves from stage to stage. */
  lemma CriticStageFrame(p: Params, s: State, next: State)
    requires Inv(p, s) && s.up && next == s.(critic := next.critic)
    requires next.critic.windows == s.critic.windows && next.critic.gatesRaised == s.critic.gatesRaised
    requires Posted(s.critic.stage) && Posted(next.critic.stage) && next.critic.stage.rows == s.critic.stage.rows
    requires ContentsOk(p, next.rollout.shards, next.critic.shards, next.trainer.shards)
    requires ShardsOk(p, next.resume, next.rollout, next.critic, next.trainer)
    ensures Inv(p, next)
  {
    hide Samples, GatesOk, BudgetOk, RowsOk, ShardsOk, CursorOk, OneWindowOk, ContentsOk;
    Parts(p, s);
    GatesFrame(p, s, next);
    OneWindowStages(p, s, next);
    UpFromParts(p, next);
  }

  lemma OneWindowStages(p: Params, s: State, next: State)
    requires p.window == 1 ==> OneWindowOk(p, s)
    requires next == s.(critic := next.critic, trainer := next.trainer)
    requires CriticFetched(next.critic) == CriticFetched(s.critic) && CriticPublished(next.critic) == CriticPublished(s.critic)
    requires !next.critic.stage.Idle? ==> !s.critic.stage.Idle? && next.critic.stage.rows == s.critic.stage.rows
    requires next.trainer.stepIndex == s.trainer.stepIndex && (next.trainer.stage.Taken? ==> next.trainer.stage == s.trainer.stage)
    ensures p.window == 1 ==> OneWindowOk(p, next)
  {
    hide Exactly, Covers, Within, TagOk, Samples;
  }

  /** The same for the trainer between training and publishing. */
  lemma TrainerStageFrame(p: Params, s: State, next: State)
    requires Inv(p, s) && s.up && next == s.(trainer := next.trainer)
    requires next.trainer.up == s.trainer.up && next.trainer.stepIndex == s.trainer.stepIndex
    requires next.trainer.version == s.trainer.version && next.trainer.trained == s.trainer.trained
    requires Posted(s.trainer.stage) && Posted(next.trainer.stage) && next.trainer.stage.rows == s.trainer.stage.rows
    requires ContentsOk(p, next.rollout.shards, next.critic.shards, next.trainer.shards)
    requires ShardsOk(p, next.resume, next.rollout, next.critic, next.trainer)
    ensures Inv(p, next)
  {
    hide Samples, GatesOk, BudgetOk, RowsOk, ShardsOk, CursorOk, OneWindowOk, ContentsOk;
    Parts(p, s);
    GatesFrame(p, s, next);
    OneWindowStages(p, s, next);
    UpFromParts(p, next);
  }

  /** Putting the parts of the invariant together again. */
  lemma InvFromParts(p: Params, s: State)
    requires p.Valid() && ContentsOk(p, s.rollout.shards, s.critic.shards, s.trainer.shards)
    requires ClocksOk(p, s.resume, s.critic, s.trainer)
    requires GatesOk(p, s.resume, s.trainer.up, s.queue, s.rollout, Published(p, s.critic, s.trainer))
    requires BudgetOk(p, s.resume, s.base, s.rollout)
    requires RowsOk(p, s.base, s.rollout.started, s.rows, Unpublished(p, s.critic), Held(s.trainer.stage))
    requires CountsOk(p, s.resume, s.rows, s.critic, s.trainer)
    requires ShardsOk(p, s.resume, s.rollout, s.critic, s.trainer)
    requires CursorOk(s.rollout.cursor)
    requires p.window == 1 ==> OneWindowOk(p, s)
    ensures Inv(p, s)
  {
    hide ClocksOk, GatesOk, BudgetOk, RowsOk, CountsOk, ShardsOk, CursorOk, OneWindowOk, ContentsOk;
  }

  lemma ValidHere(p: Params, s: State)
    requires Inv(p, s)
    ensures p.Valid()
  {
    hide UpOk, ContentsOk;
  }

  // ---- what single steps require and do --------------------------------------------------------

  lemma ReadGateEffect(p: Params, s: State)
    requires Enabled(p, s, ReadGate)
    ensures s.up && s.rollout.stage == Generating && MustRead(p, s.rollout) && s.queue != [] && s.rollout.cursor.pending > 0
    ensures Apply(p, s, ReadGate) == s.(rollout := Advance(p, s.rollout, s.queue[0], s.resume), queue := s.queue[1..])
  {
  }

  lemma CommitRolloutEffect(p: Params, s: State)
    requires Enabled(p, s, CommitRollout)
    ensures s.up && s.rollout.stage.Snapshotting?
    ensures Apply(p, s, CommitRollout) == s.(rollout := Commit(s.rollout))
  {
  }

  lemma PruneRolloutEffect(p: Params, s: State, oldest: nat)
    requires Enabled(p, s, PruneRollout(oldest))
    ensures s.up && s.rollout.stage == Trimming && (|s.rollout.shards| > p.keep ==> Oldest(s.rollout.shards.Keys, oldest))
    ensures Apply(p, s, PruneRollout(oldest)) == s.(rollout := Pruned(p, s.rollout, oldest))
  {
  }

  function Pruned(p: Params, r: Rollout, oldest: nat): Rollout {
    if |r.shards| > p.keep then r.(shards := r.shards - {oldest}) else r.(stage := Generating)
  }

  lemma CriticCommitEffect(p: Params, s: State)
    requires Enabled(p, s, CriticCommit)
    ensures s.up && s.critic.stage.Committing?
    ensures Apply(p, s, CriticCommit) == s.(critic := s.critic.(shards := s.critic.shards + {s.critic.windows}, stage := Pruning(s.critic.stage.rows)))
  {
  }

  lemma CriticPruneEffect(p: Params, s: State, oldest: nat)
    requires Enabled(p, s, CriticPrune(oldest))
    ensures s.up && s.critic.stage.Pruning? && (|s.critic.shards| > p.keep ==> Oldest(s.critic.shards, oldest))
    ensures Apply(p, s, CriticPrune(oldest)) == s.(critic :=
      if |s.critic.shards| > p.keep then s.critic.(shards := s.critic.shards - {oldest})
      else s.critic.(stage := Releasing(s.critic.stage.rows)))
  {
  }

  lemma CriticClearEffect(p: Params, s: State)
    requires Enabled(p, s, CriticClear)
    ensures s.up && s.critic.stage.Clearing?
    ensures Apply(p, s, CriticClear) == s.(critic := s.critic.(stage := Idle), rows :=
      if ShouldClear(p, s.critic) then
        s.rows.(stored := s.rows.stored - s.critic.stage.rows, criticCleared := s.rows.criticCleared + s.critic.stage.rows)
      else s.rows)
  {
  }

  lemma TrainerFetchEffect(p: Params, s: State, fetched: set<nat>)
    requires Enabled(p, s, TrainerFetch(fetched))
    ensures s.up && s.trainer.up && s.trainer.stage == Idle && fetched <= Eligible(p, s.rows) && |fetched| == p.fetch
    ensures Apply(p, s, TrainerFetch(fetched)) ==
      s.(trainer := s.trainer.(stage := Taken(fetched)), rows := s.rows.(trainerTook := s.rows.trainerTook + fetched))
  {
  }

  lemma TrainerPruneEffect(p: Params, s: State, oldest: nat)
    requires Enabled(p, s, TrainerPrune(oldest))
    ensures s.up && s.trainer.stage.Pruning? && (|s.trainer.shards| > p.keep ==> Oldest(s.trainer.shards.Keys, oldest))
    ensures Apply(p, s, TrainerPrune(oldest)) == s.(trainer :=
      if |s.trainer.shards| > p.keep then s.trainer.(shards := s.trainer.shards - {oldest})
      else s.trainer.(stage := Releasing(s.trainer.stage.rows)))
  {
  }

  lemma TrainerClearEffect(p: Params, s: State)
    requires Enabled(p, s, TrainerClear)
    ensures s.up && s.trainer.stage.Clearing?
    ensures Apply(p, s, TrainerClear) == s.(trainer := s.trainer.(stage := Idle), rows :=
      s.rows.(stored := s.rows.stored - s.trainer.stage.rows, trainerCleared := s.rows.trainerCleared + s.trainer.stage.rows))
  {
  }
}

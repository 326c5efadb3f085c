/** Each step of the critic and of the trainer keeps the invariant. */
module RunConsumerSteps {
  import opened Arithmetic
  import opened Retention
  import opened RunModel
  import opened RunInvariant
  import opened RunLemmas

  // ---- taking rows --------------------------------------------------------------------

  /** The critic takes rows that nobody owns yet. */
  lemma CriticTakes(p: Params, base: nat, started: nat, rows: Rows, training: set<nat>, fetched: set<nat>)
    requires RowsOk(p, base, started, rows, {}, training) && fetched <= rows.stored - rows.criticTook && p.hasCritic
    ensures RowsOk(p, base, started, rows.(criticTook := rows.criticTook + fetched), fetched, training)
  {
    forall id: nat ensures Placed(rows.(criticTook := rows.criticTook + fetched), id) <==> Placed(rows, id) {
    }
  }

  lemma TookCount(p: Params, resume: nat, rows: Rows, c: Critic, t: Trainer, fetched: set<nat>)
    requires CountsOk(p, resume, rows, c, t) && c.stage == Idle && |fetched| == p.batch && fetched !! rows.criticTook
    ensures CountsOk(p, resume, rows.(criticTook := rows.criticTook + fetched), c.(stage := Taken(fetched)), t)
  {
    hide Samples;
    UnionSize(rows.criticTook, fetched);
    SamplesNext(p, c.windows - resume);
    assert c.windows + 1 - resume == c.windows - resume + 1;
  }

  /** Rows of one window: as many as the window has, all inside it. */
  lemma WholeWindow(p: Params, ids: set<nat>, window: nat)
    requires |ids| == p.batch && Within(p, ids, window, window + 1)
    ensures Exactly(p, ids, window, window + 1)
  {
    hide Samples;
    SamplesNext(p, window);
    SamplesPositive(p, window);
    var all := NewIds(Samples(p, window), p.batch);
    SubsetSize(ids, all);
    assert ids == all;
  }

  lemma SamplesPositive(p: Params, window: nat)
    ensures Samples(p, window) >= 0
  {
  }

  lemma JoinWindows(p: Params, a: set<nat>, b: set<nat>, from: int, mid: int)
    requires p.batch >= 1 && from <= mid && Exactly(p, a, from, mid) && Exactly(p, b, mid, mid + 1)
    ensures Exactly(p, a + b, from, mid + 1)
  {
    hide Samples;
    SamplesMonotone(p, from, mid);
    SamplesMonotone(p, mid, mid + 1);
  }

  /** With W = 1 nothing is started beyond the window after the gate clock. */
  lemma NothingAhead(p: Params, s: State)
    requires Inv(p, s) && s.up && p.window == 1 && s.trainer.up
    ensures s.rollout.started <= Samples(p, Published(p, s.critic, s.trainer) + 1)
  {
    hide Samples, RowsOk, CountsOk, ShardsOk, OneWindowOk, ContentsOk, CursorOk;
    SamplesOne(p);
    var published := Published(p, s.critic, s.trainer);
    SamplesMonotone(p, s.rollout.gatesSeen, published + 1);
    SamplesMonotone(p, 0, published + 1);
    assert s.rollout.gatesSeen - 1 + p.window == s.rollout.gatesSeen;
  }

  lemma PlacedRows(p: Params, s: State, ids: set<nat>)
    requires Inv(p, s) && s.up && ids <= s.rows.stored
    ensures forall id :: id in ids ==> s.base <= id < s.rollout.started
  {
    hide Samples, CountsOk, ShardsOk, ClocksOk, GatesOk, BudgetOk, OneWindowOk, ContentsOk, CursorOk;
    assert forall id :: id in ids ==> Placed(s.rows, id);
  }

  lemma CriticFetchIsAWindow(p: Params, s: State, fetched: set<nat>)
    requires Inv(p, s) && Enabled(p, s, CriticFetch(fetched)) && p.window == 1
    ensures Exactly(p, fetched, s.critic.windows, s.critic.windows + 1)
  {
    hide Samples, CountsOk, ShardsOk, GatesOk, BudgetOk, ContentsOk, RowsOk, CursorOk;
    PlacedRows(p, s, fetched);
    BaseIsPaced(p, s);
    PublishedIsBehind(p, s);
    if s.trainer.up {
      NothingAhead(p, s);
      SamplesMonotone(p, Published(p, s.critic, s.trainer) + 1, s.critic.windows + 1);
    } else {
      NoRowsYet(p, s);
    }
    SamplesMonotone(p, s.resume, s.critic.windows);
    SamplesMonotone(p, s.critic.windows, s.critic.windows + 1);
    WholeWindow(p, fetched, s.critic.windows);
  }

  lemma NoRowsYet(p: Params, s: State)
    requires Inv(p, s) && s.up && !s.trainer.up
    ensures s.rollout.started == s.base
  {
    hide Samples, CountsOk, ShardsOk, ContentsOk, RowsOk, CursorOk, OneWindowOk;
  }

  lemma CriticTookWindow(p: Params, s: State, next: State, fetched: set<nat>)
    requires OneWindowOk(p, s) && p.hasCritic && p.batch >= 1 && s.critic.stage == Idle && s.resume <= s.critic.windows
    requires Exactly(p, fetched, s.critic.windows, s.critic.windows + 1)
    requires next == s.(critic := s.critic.(stage := Taken(fetched)), rows := s.rows.(criticTook := s.rows.criticTook + fetched))
    ensures OneWindowOk(p, next)
  {
    hide Samples, Exactly, Covers, Within, TagOk;
    JoinWindows(p, s.rows.criticTook, fetched, s.resume, s.critic.windows);
  }

  lemma CriticFetchKeeps(p: Params, s: State, fetched: set<nat>)
    requires Inv(p, s) && Enabled(p, s, CriticFetch(fetched))
    ensures Inv(p, Apply(p, s, CriticFetch(fetched)))
  {
    hide Samples, RowsOk, CountsOk, BudgetOk, OneWindowOk, ContentsOk, CursorOk, ShardsOk, GatesOk;
    var next := Apply(p, s, CriticFetch(fetched));
    CriticTakes(p, s.base, s.rollout.started, s.rows, Held(s.trainer.stage), fetched);
    TookCount(p, s.resume, s.rows, s.critic, s.trainer, fetched);
    ShardsFrame(p, s, next);
    GatesFrame(p, s, next);
    if p.window == 1 {
      CriticFetchIsAWindow(p, s, fetched);
      CriticTookWindow(p, s, next, fetched);
    }
  }

  // ---- scoring a window -------------------------------------------------------------------

  /** A window that is no boundary moves the clock past nothing. */
  lemma RetainedPasses(p: Params, shards: set<nat>, floor: nat, from: nat, marked: int)
    requires Retained(p, shards, floor, from, marked) && (marked + 1 >= 0 ==> !Due(p, marked + 1))
    ensures Retained(p, shards, floor, from, marked + 1)
  {
  }

  lemma CriticScoreShards(p: Params, s: State)
    requires Inv(p, s) && Enabled(p, s, CriticScore)
    ensures var next := Apply(p, s, CriticScore); ShardsOk(p, next.resume, next.rollout, next.critic, next.trainer)
  {
    hide Samples, RowsOk, CountsOk, BudgetOk, OneWindowOk, ContentsOk, CursorOk, RolloutShardsOk, Newest, Retained;
    if p.hasCritic && !Due(p, s.critic.windows + 1) {
      RetainedPasses(p, s.critic.shards, Newest(s.rollout.shards.Keys), 0, s.critic.windows);
    }
  }

  lemma CriticScoreKeeps(p: Params, s: State)
    requires Inv(p, s) && Enabled(p, s, CriticScore)
    ensures Inv(p, Apply(p, s, CriticScore))
  {
    hide Samples, RowsOk, BudgetOk, OneWindowOk, ContentsOk, CursorOk, ShardsOk;
    CriticScoreShards(p, s);
    OneWindowCritic(p, s, Apply(p, s, CriticScore));
  }

  lemma OneWindowCritic(p: Params, s: State, next: State)
    requires p.window == 1 ==> OneWindowOk(p, s)
    requires next == s.(critic := next.critic, rollout := next.rollout, queue := next.queue, rows := next.rows)
    requires next.rollout.started == s.rollout.started
    requires next.rows.criticTook == s.rows.criticTook && next.rows.valued == s.rows.valued && next.rows.trainerTook == s.rows.trainerTook
    requires CriticFetched(next.critic) == CriticFetched(s.critic) && CriticPublished(next.critic) == CriticPublished(s.critic)
    requires !next.critic.stage.Idle? ==> !s.critic.stage.Idle? && next.critic.stage.rows == s.critic.stage.rows
    ensures p.window == 1 ==> OneWindowOk(p, next)
  {
    hide Exactly, Covers, Within, TagOk, Samples;
  }

  // ---- committing and pruning a consumer's shard -------------------------------------------

  lemma RetainedMarks(p: Params, shards: set<nat>, floor: nat, from: nat, marked: int)
    requires Retained(p, shards, floor, from, marked) && marked + 1 >= 0
    ensures Retained(p, shards + {marked + 1}, floor, from, marked + 1)
  {
  }

  lemma MarkCritic(p: Params, resume: nat, r: Rollout, c: Critic, t: Trainer)
    requires ShardsOk(p, resume, r, c, t) && c.stage.Committing?
    ensures ShardsOk(p, resume, r, c.(shards := c.shards + {c.windows}, stage := Pruning(c.stage.rows)), t)
  {
    hide RolloutShardsOk, Newest, Retained;
    if p.hasCritic { RetainedMarks(p, c.shards, Newest(r.shards.Keys), 0, CriticMarked(c)); }
  }

  lemma CommittingIsDue(p: Params, s: State)
    requires Inv(p, s) && s.up
    ensures s.critic.stage.Committing? ==> Due(p, s.critic.windows) && p.hasCritic
    ensures s.trainer.stage.Committing? ==> Due(p, GlobalStep(p, s.trainer)) && GlobalStep(p, s.trainer) > p.cold
    ensures s.trainer.version == s.trainer.stepIndex
  {
    hide Samples, GatesOk, BudgetOk, RowsOk, CountsOk, CursorOk, OneWindowOk, ContentsOk, RolloutShardsOk, Retained, Newest;
  }

  lemma CriticCommitContents(p: Params, rollout: map<nat, Snapshot>, critic: set<nat>, trainer: map<nat, TrainerShard>, step: nat)
    requires ContentsOk(p, rollout, critic, trainer) && Due(p, step) && p.hasCritic
    ensures ContentsOk(p, rollout, critic + {step}, trainer)
  {
    hide SnapshotOk;
  }

  lemma CriticCommitKeeps(p: Params, s: State)
    requires Inv(p, s) && Enabled(p, s, CriticCommit)
    ensures Inv(p, Apply(p, s, CriticCommit))
  {
    hide Inv, ShardsOk, ContentsOk, Enabled, Apply, Due;
    CriticCommitEffect(p, s);
    Parts(p, s);
    CommittingIsDue(p, s);
    CriticCommitContents(p, s.rollout.shards, s.critic.shards, s.trainer.shards, s.critic.windows);
    MarkCritic(p, s.resume, s.rollout, s.critic, s.trainer);
    CriticStageFrame(p, s, Apply(p, s, CriticCommit));
  }

  /** A stretch of `count` intervals holds at most `count` boundaries. */
  lemma {:induction false} FewBoundaries(p: Params, shards: set<nat>, marked: int, count: nat)
    requires p.Valid() && forall step :: step in shards ==> Due(p, step) && InStretch(p, step, marked, count)
    ensures |shards| <= count
    decreases count
  {
    hide Due, InStretch, Params.Valid;
    if count == 0 {
      forall step | step in shards ensures false { NoStretch(p, step, marked); }
      assert shards == {};
    } else {
      var earlier := set step | step in shards && step <= marked - p.interval;
      forall step | step in earlier ensures InStretch(p, step, marked - p.interval, count - 1) {
        ShorterStretch(p, step, marked, count);
      }
      FewBoundaries(p, earlier, marked - p.interval, count - 1);
      var last := shards - earlier;
      forall a, b | a in last && b in last ensures a == b {
        StretchEnds(p, a, marked, count);
        StretchEnds(p, b, marked, count);
        OneBoundary(p, a, b, marked);
      }
      AtMostOne(last);
      UnionSize(earlier, last);
      assert shards == earlier + last;
    }
  }

  lemma AtMostOne(steps: set<nat>)
    requires forall a, b :: a in steps && b in steps ==> a == b
    ensures |steps| <= 1
  {
    if steps != {} {
      var top :| top in steps;
      assert steps == {top};
    }
  }

  predicate InStretch(p: Params, step: nat, marked: int, count: nat) { marked < step + count * p.interval && step <= marked }

  lemma NoStretch(p: Params, step: nat, marked: int)
    ensures !InStretch(p, step, marked, 0)
  {
  }

  lemma ShorterStretch(p: Params, step: nat, marked: int, count: nat)
    requires InStretch(p, step, marked, count) && count > 0 && step <= marked - p.interval
    ensures InStretch(p, step, marked - p.interval, count - 1)
  {
    assert (count - 1) * p.interval == count * p.interval - p.interval;
  }

  lemma StretchEnds(p: Params, step: nat, marked: int, count: nat)
    requires InStretch(p, step, marked, count)
    ensures step <= marked
  {
  }

  lemma OneBoundary(p: Params, a: nat, b: nat, marked: int)
    requires p.Valid() && Due(p, a) && Due(p, b) && marked - p.interval < a <= marked && marked - p.interval < b <= marked
    ensures a == b
  {
    Fundamental(a, p.interval);
    Fundamental(b, p.interval);
    QuotientMonotone(a / p.interval, b / p.interval, p.interval);
    QuotientMonotone(b / p.interval, a / p.interval, p.interval);
  }

  /** Pruning removes only shards the newest `keep` boundaries do not need. */
  lemma PruneIsSafe(p: Params, shards: set<nat>, floor: nat, from: nat, marked: int, oldest: nat)
    requires p.Valid() && Retained(p, shards, floor, from, marked) && (forall step :: step in shards ==> Due(p, step))
    requires |shards| > p.keep && Oldest(shards, oldest)
    ensures Retained(p, shards - {oldest}, floor, from, marked)
  {
    if oldest + Span(p) > marked {
      forall step | step in shards ensures InStretch(p, step, marked, p.keep) {
        assert oldest <= step;
      }
      FewBoundaries(p, shards, marked, p.keep);
    }
  }

  lemma PruneCritic(p: Params, resume: nat, r: Rollout, c: Critic, t: Trainer, oldest: nat)
    requires p.Valid() && ShardsOk(p, resume, r, c, t) && p.hasCritic && (forall step :: step in c.shards ==> Due(p, step))
    requires |c.shards| > p.keep && Oldest(c.shards, oldest)
    ensures ShardsOk(p, resume, r, c.(shards := c.shards - {oldest}), t)
  {
    hide RolloutShardsOk, Newest, Retained, Due;
    PruneIsSafe(p, c.shards, Newest(r.shards.Keys), 0, CriticMarked(c), oldest);
  }

  lemma CriticIsThere(p: Params, s: State)
    requires Inv(p, s) && s.up && !s.critic.stage.Idle?
    ensures p.hasCritic && p.Valid()
  {
    hide Samples, GatesOk, BudgetOk, RowsOk, CountsOk, CursorOk, OneWindowOk, ContentsOk, ShardsOk;
  }

  lemma FewerContents(p: Params, rollout: map<nat, Snapshot>, critic: set<nat>, trainer: map<nat, TrainerShard>, gone: nat)
    requires ContentsOk(p, rollout, critic, trainer)
    ensures ContentsOk(p, rollout, critic - {gone}, trainer) && ContentsOk(p, rollout, critic, trainer - {gone})
    ensures ContentsOk(p, rollout - {gone}, critic, trainer)
    ensures forall step :: step in critic || step in trainer ==> Due(p, step)
  {
    hide SnapshotOk;
  }

  lemma CriticPruneKeeps(p: Params, s: State, oldest: nat)
    requires Inv(p, s) && Enabled(p, s, CriticPrune(oldest))
    ensures Inv(p, Apply(p, s, CriticPrune(oldest)))
  {
    hide Inv, ShardsOk, ContentsOk, Enabled, Apply, Due;
    CriticPruneEffect(p, s, oldest);
    var next := Apply(p, s, CriticPrune(oldest));
    Parts(p, s);
    CriticIsThere(p, s);
    FewerContents(p, s.rollout.shards, s.critic.shards, s.trainer.shards, oldest);
    if |s.critic.shards| > p.keep {
      PruneCritic(p, s.resume, s.rollout, s.critic, s.trainer, oldest);
    } else {
      ShardsFrame(p, s, next);
    }
    CriticStageFrame(p, s, next);
  }

  // ---- the critic's outputs --------------------------------------------------------------------

  /** While the critic is in its cold start it alone drives the gate clock. */
  lemma ColdClock(p: Params, s: State)
    requires Inv(p, s) && Enabled(p, s, CriticWrite)
    ensures p.hasCritic && s.trainer.up
    ensures s.critic.windows <= p.cold ==> Published(p, s.critic, s.trainer) == s.critic.windows - 1 && TrainerPublished(p, s.trainer) <= p.cold
  {
    hide Samples, RowsOk, BudgetOk, OneWindowOk, CursorOk, ShardsOk, ContentsOk, GatesOk, CountsOk;
    if !s.trainer.up { QuietBeforeGenesis(p, s); }
    TrainerBehindCritic(p, s);
  }

  lemma CriticWriteGates(p: Params, s: State)
    requires Inv(p, s) && Enabled(p, s, CriticWrite)
    ensures var next := Apply(p, s, CriticWrite);
      GatesOk(p, next.resume, next.trainer.up, next.queue, next.rollout, Published(p, next.critic, next.trainer))
  {
    hide Samples, RowsOk, BudgetOk, OneWindowOk, CursorOk, ShardsOk, ContentsOk, CountsOk;
    ColdClock(p, s);
  }

  /** The published column moves the critic's window to the trainer. */
  lemma Publishes(p: Params, base: nat, started: nat, rows: Rows, window: set<nat>, training: set<nat>)
    requires RowsOk(p, base, started, rows, window, training)
    ensures RowsOk(p, base, started, rows.(valued := rows.valued + window), {}, training)
  {
    forall id: nat ensures Placed(rows.(valued := rows.valued + window), id) <==> Placed(rows, id) {
    }
  }

  lemma PublishedCount(p: Params, resume: nat, rows: Rows, c: Critic, t: Trainer)
    requires CountsOk(p, resume, rows, c, t) && c.stage.Releasing? && c.stage.rows !! rows.valued
    requires c.windows > p.cold && c.windows > resume
    ensures CountsOk(p, resume, rows.(valued := rows.valued + c.stage.rows), c.(stage := Clearing(c.stage.rows)), t)
  {
    hide Samples;
    var start := Later(p.cold, resume);
    UnionSize(rows.valued, c.stage.rows);
    SamplesNext(p, c.windows - 1 - start);
    assert c.windows - start == c.windows - 1 - start + 1;
  }

  lemma WindowIsUnpublished(p: Params, s: State)
    requires Inv(p, s) && s.up && s.critic.stage.Releasing?
    ensures s.critic.stage.rows !! s.rows.valued && s.critic.windows > s.resume
  {
    hide Samples, BudgetOk, OneWindowOk, CursorOk, ShardsOk, ContentsOk, GatesOk, CountsOk;
    assert Unpublished(p, s.critic) == s.critic.stage.rows;
  }

  lemma CriticWriteCounts(p: Params, s: State)
    requires Inv(p, s) && Enabled(p, s, CriticWrite)
    ensures var next := Apply(p, s, CriticWrite); CountsOk(p, next.resume, next.rows, next.critic, next.trainer)
  {
    hide Samples, BudgetOk, OneWindowOk, CursorOk, ShardsOk, ContentsOk, GatesOk, RowsOk, ClocksOk;
    WindowIsUnpublished(p, s);
    if s.critic.windows > p.cold {
      PublishedCount(p, s.resume, s.rows, s.critic, s.trainer);
    }
  }

  lemma CriticWriteOneWindow(p: Params, s: State)
    requires Inv(p, s) && Enabled(p, s, CriticWrite) && p.window == 1
    ensures OneWindowOk(p, Apply(p, s, CriticWrite))
  {
    hide Samples, CountsOk, ShardsOk, GatesOk, BudgetOk, ContentsOk, RowsOk, CursorOk, Exactly, Covers, Within, TagOk;
    var start := Later(p.cold, s.resume);
    if s.critic.windows > p.cold {
      JoinWindows(p, s.rows.valued, s.critic.stage.rows, start, s.critic.windows - 1);
    } else {
      NoneYet(p, s.rows.valued, start, s.critic.windows - 1);
    }
  }

  lemma NoneYet(p: Params, ids: set<nat>, from: int, to: int)
    requires Exactly(p, ids, from, to) && to < from && p.batch >= 1
    ensures Exactly(p, ids, from, to + 1)
  {
    hide Samples;
    SamplesMonotone(p, to, from);
    SamplesMonotone(p, to + 1, from);
  }

  lemma CriticWriteRows(p: Params, s: State)
    requires Inv(p, s) && Enabled(p, s, CriticWrite)
    ensures var next := Apply(p, s, CriticWrite);
      RowsOk(p, next.base, next.rollout.started, next.rows, Unpublished(p, next.critic), Held(next.trainer.stage))
  {
    hide Samples, CountsOk, ShardsOk, GatesOk, BudgetOk, ContentsOk, RowsOk, CursorOk, OneWindowOk, ClocksOk;
    Publishes(p, s.base, s.rollout.started, s.rows, s.critic.stage.rows, Held(s.trainer.stage));
  }

  lemma CriticWriteKeeps(p: Params, s: State)
    requires Inv(p, s) && Enabled(p, s, CriticWrite)
    ensures Inv(p, Apply(p, s, CriticWrite))
  {
    hide Samples, RowsOk, CountsOk, BudgetOk, OneWindowOk, CursorOk, RolloutShardsOk, Newest, Retained, ContentsOk, GatesOk;
    CriticWriteGates(p, s);
    CriticWriteRows(p, s);
    CriticWriteCounts(p, s);
    if p.window == 1 { CriticWriteOneWindow(p, s); }
  }

  // ---- clearing -----------------------------------------------------------------------------------

  /** The critic drops its unpublished window. */
  lemma CriticDrops(p: Params, base: nat, started: nat, rows: Rows, window: set<nat>, training: set<nat>)
    requires RowsOk(p, base, started, rows, window, training) && p.hasCritic
    ensures RowsOk(p, base, started, rows.(stored := rows.stored - window, criticCleared := rows.criticCleared + window), {}, training)
  {
    var next := rows.(stored := rows.stored - window, criticCleared := rows.criticCleared + window);
    forall id: nat ensures Placed(next, id) <==> Placed(rows, id) {
    }
  }

  lemma CriticStageCounts(p: Params, s: State, next: State)
    requires CountsOk(p, s.resume, s.rows, s.critic, s.trainer) && next.resume == s.resume && next.trainer == s.trainer
    requires next.rows.criticTook == s.rows.criticTook && next.rows.valued == s.rows.valued && next.rows.trainerTook == s.rows.trainerTook
    requires next.critic == s.critic.(stage := Idle) && s.critic.stage.Clearing?
    ensures CountsOk(p, next.resume, next.rows, next.critic, next.trainer)
  {
    hide Samples;
  }

  lemma CriticClearKeeps(p: Params, s: State)
    requires Inv(p, s) && Enabled(p, s, CriticClear)
    ensures Inv(p, Apply(p, s, CriticClear))
  {
    hide Inv, RowsOk, BudgetOk, OneWindowOk, CursorOk, CountsOk, ContentsOk, GatesOk, ShardsOk, Enabled, Apply;
    CriticClearEffect(p, s);
    var next := Apply(p, s, CriticClear);
    Parts(p, s);
    ValidHere(p, s);
    CriticIsThere(p, s);
    if ShouldClear(p, s.critic) {
      CriticDrops(p, s.base, s.rollout.started, s.rows, s.critic.stage.rows, Held(s.trainer.stage));
    }
    ShardsFrame(p, s, next);
    GatesFrame(p, s, next);
    CriticStageCounts(p, s, next);
    OneWindowCritic(p, s, next);
    InvFromParts(p, next);
  }

  // ---- the trainer --------------------------------------------------------------------------------------

  lemma TrainerTakes(p: Params, base: nat, started: nat, rows: Rows, unpublished: set<nat>, fetched: set<nat>)
    requires RowsOk(p, base, started, rows, unpublished, {}) && fetched <= Eligible(p, rows)
    ensures RowsOk(p, base, started, rows.(trainerTook := rows.trainerTook + fetched), unpublished, fetched)
    ensures fetched !! rows.trainerTook
  {
    forall id: nat ensures Placed(rows.(trainerTook := rows.trainerTook + fetched), id) <==> Placed(rows, id) {
    }
  }

  lemma TrainerTookCount(p: Params, resume: nat, rows: Rows, c: Critic, t: Trainer, fetched: set<nat>)
    requires CountsOk(p, resume, rows, c, t) && t.stage == Idle && |fetched| == p.fetch && fetched !! rows.trainerTook
    ensures CountsOk(p, resume, rows.(trainerTook := rows.trainerTook + fetched), c, t.(stage := Taken(fetched)))
  {
    hide Samples;
    UnionSize(rows.trainerTook, fetched);
  }

  lemma TrainerFetchWithin(p: Params, s: State, fetched: set<nat>)
    requires Inv(p, s) && Enabled(p, s, TrainerFetch(fetched)) && p.window == 1
    ensures Within(p, fetched, Later(p.cold, s.resume), GlobalStep(p, s.trainer) + 1)
  {
    hide Samples, CountsOk, ShardsOk, GatesOk, BudgetOk, ContentsOk, RowsOk, CursorOk;
    PlacedRows(p, s, fetched);
    BaseIsPaced(p, s);
    PublishedIsBehind(p, s);
    NothingAhead(p, s);
    SamplesMonotone(p, Published(p, s.critic, s.trainer) + 1, GlobalStep(p, s.trainer) + 1);
  }

  lemma TrainerTookWithin(p: Params, s: State, next: State, fetched: set<nat>)
    requires OneWindowOk(p, s) && Within(p, fetched, Later(p.cold, s.resume), GlobalStep(p, s.trainer) + 1)
    requires fetched !! s.rows.trainerTook
    requires next == s.(trainer := s.trainer.(stage := Taken(fetched)), rows := s.rows.(trainerTook := s.rows.trainerTook + fetched))
    ensures OneWindowOk(p, next)
  {
    hide Samples, Exactly, TagOk;
  }

  lemma TrainerFetchKeeps(p: Params, s: State, fetched: set<nat>)
    requires Inv(p, s) && Enabled(p, s, TrainerFetch(fetched))
    ensures Inv(p, Apply(p, s, TrainerFetch(fetched)))
  {
    hide Inv, RowsOk, CountsOk, BudgetOk, OneWindowOk, ContentsOk, CursorOk, ShardsOk, GatesOk, Eligible, Enabled, Apply;
    TrainerFetchEffect(p, s, fetched);
    var next := Apply(p, s, TrainerFetch(fetched));
    Parts(p, s);
    ValidHere(p, s);
    TrainerTakes(p, s.base, s.rollout.started, s.rows, Unpublished(p, s.critic), fetched);
    TrainerTookCount(p, s.resume, s.rows, s.critic, s.trainer, fetched);
    ShardsFrame(p, s, next);
    GatesFrame(p, s, next);
    if p.window == 1 {
      TrainerFetchWithin(p, s, fetched);
      TrainerTookWithin(p, s, next, fetched);
    }
    InvFromParts(p, next);
  }

  /** Fetches divide the window: the one that reaches it completes it exactly. */
  lemma FetchCompletes(p: Params, trained: nat)
    requires p.Valid() && trained < p.batch && trained % p.fetch == 0
    ensures trained + p.fetch <= p.batch && (trained + p.fetch) % p.fetch == 0
  {
    Fundamental(trained, p.fetch);
    Fundamental(p.batch, p.fetch);
    var a, b := trained / p.fetch, p.batch / p.fetch;
    if b <= a { QuotientMonotone(b, a, p.fetch); }
    assert (a + 1) * p.fetch == a * p.fetch + p.fetch;
    QuotientOf(a + 1, 0, p.fetch);
    Distribute(b, a + 1, p.fetch);
    assert (b - (a + 1)) * p.fetch >= 0;
  }

  lemma TrainerTrainEffect(p: Params, s: State)
    requires Enabled(p, s, TrainerTrain)
    ensures s.up && s.trainer.stage.Taken?
    ensures Apply(p, s, TrainerTrain) == s.(trainer := Trained(p, s.trainer))
  {
  }

  lemma TrainedClocks(p: Params, resume: nat, c: Critic, t: Trainer)
    requires p.Valid() && t.stage.Taken? && ClocksOk(p, resume, c, t)
    ensures ClocksOk(p, resume, c, Trained(p, t))
  {
    hide Due;
    FetchCompletes(p, t.trained);
  }

  lemma TrainedCounts(p: Params, resume: nat, rows: Rows, c: Critic, t: Trainer)
    requires p.Valid() && t.stage.Taken? && t.trained < p.batch && t.trained % p.fetch == 0
    requires CountsOk(p, resume, rows, c, t)
    ensures CountsOk(p, resume, rows, c, Trained(p, t))
  {
    hide Samples, Due;
    FetchCompletes(p, t.trained);
    SamplesNext(p, GlobalStep(p, t) - Later(p.cold, resume));
    assert t.stepIndex + 1 + p.cold - Later(p.cold, resume) == GlobalStep(p, t) - Later(p.cold, resume) + 1;
  }

  lemma TrainerTrainCounts(p: Params, s: State)
    requires Inv(p, s) && Enabled(p, s, TrainerTrain)
    ensures var next := Apply(p, s, TrainerTrain);
      CountsOk(p, next.resume, next.rows, next.critic, next.trainer) && ClocksOk(p, next.resume, next.critic, next.trainer)
  {
    hide Inv, Enabled, Apply, CountsOk, Trained;
    TrainerTrainEffect(p, s);
    Parts(p, s);
    ValidHere(p, s);
    TrainedClocks(p, s.resume, s.critic, s.trainer);
    TrainedCounts(p, s.resume, s.rows, s.critic, s.trainer);
  }

  lemma TrainerTrainShards(p: Params, s: State)
    requires Inv(p, s) && Enabled(p, s, TrainerTrain)
    ensures var next := Apply(p, s, TrainerTrain); ShardsOk(p, next.resume, next.rollout, next.critic, next.trainer)
  {
    hide Samples, RowsOk, CountsOk, BudgetOk, OneWindowOk, ContentsOk, CursorOk, RolloutShardsOk, Newest, Retained;
    if !Due(p, GlobalStep(p, s.trainer) + 1) {
      RetainedPasses(p, s.trainer.shards.Keys, Newest(s.rollout.shards.Keys), p.cold, GlobalStep(p, s.trainer));
    }
  }

  /** When the window's last rows are trained on, all of them have been. */
  lemma WindowCompletes(p: Params, ids: set<nat>, start: nat, window: nat)
    requires p.batch >= 1 && start <= window && |ids| == Samples(p, window + 1 - start) && Within(p, ids, start, window + 1)
    ensures Covers(p, ids, start, window + 1) && Within(p, ids, start, window + 2)
  {
    hide Samples;
    SamplesAdd(p, start, window + 1 - start);
    SamplesPositive(p, start);
    SamplesPositive(p, window + 1 - start);
    SamplesNext(p, window + 1);
    SamplesMonotone(p, window + 1, window + 2);
    assert start + (window + 1 - start) == window + 1;
    var all := NewIds(Samples(p, start), Samples(p, window + 1 - start));
    SubsetSize(ids, all);
    assert ids == all;
  }

  lemma TrainerTrainOneWindow(p: Params, s: State)
    requires Inv(p, s) && Enabled(p, s, TrainerTrain) && p.window == 1
    ensures OneWindowOk(p, Apply(p, s, TrainerTrain))
  {
    hide Samples, ShardsOk, GatesOk, BudgetOk, ContentsOk, RowsOk, CursorOk, Exactly, TagOk, Covers, Within;
    var start := Later(p.cold, s.resume);
    if s.trainer.trained + p.fetch >= p.batch {
      TrainerTrainCounts(p, s);
      FetchCompletes(p, s.trainer.trained);
      SamplesNext(p, GlobalStep(p, s.trainer) - start);
      assert GlobalStep(p, s.trainer) + 1 - start == GlobalStep(p, s.trainer) - start + 1;
      WindowCompletes(p, s.rows.trainerTook, start, GlobalStep(p, s.trainer));
    }
  }

  lemma TrainerTrainKeeps(p: Params, s: State)
    requires Inv(p, s) && Enabled(p, s, TrainerTrain)
    ensures Inv(p, Apply(p, s, TrainerTrain))
  {
    hide Samples, RowsOk, CountsOk, BudgetOk, OneWindowOk, ContentsOk, CursorOk, ShardsOk;
    TrainerTrainCounts(p, s);
    TrainerTrainShards(p, s);
    if p.window == 1 { TrainerTrainOneWindow(p, s); }
  }

  lemma OneWindowTrainer(p: Params, s: State, next: State)
    requires p.window == 1 ==> OneWindowOk(p, s)
    requires next == s.(trainer := next.trainer, queue := next.queue, rows := next.rows)
    requires next.rows.criticTook == s.rows.criticTook && next.rows.valued == s.rows.valued && next.rows.trainerTook == s.rows.trainerTook
    requires next.trainer.stepIndex == s.trainer.stepIndex && !next.trainer.stage.Taken?
    ensures p.window == 1 ==> OneWindowOk(p, next)
  {
    hide Exactly, Covers, Within, TagOk, Samples;
  }

  lemma TrainerCommitEffect(p: Params, s: State)
    requires Enabled(p, s, TrainerCommit)
    ensures s.up && s.trainer.stage.Committing?
    ensures Apply(p, s, TrainerCommit) == s.(trainer := s.trainer.(
      shards := s.trainer.shards[GlobalStep(p, s.trainer) := TrainerShard(s.trainer.stepIndex, s.trainer.version)],
      stage := Pruning(s.trainer.stage.rows)))
  {
  }

  lemma TrainerCommitKeeps(p: Params, s: State)
    requires Inv(p, s) && Enabled(p, s, TrainerCommit)
    ensures Inv(p, Apply(p, s, TrainerCommit))
  {
    hide Inv, ShardsOk, ContentsOk, Apply, Enabled, GlobalStep;
    TrainerCommitEffect(p, s);
    Parts(p, s);
    TrainerCommitContents(p, s);
    MarkTrainer(p, s.resume, s.rollout, s.critic, s.trainer, TrainerShard(s.trainer.stepIndex, s.trainer.version));
    TrainerStageFrame(p, s, Apply(p, s, TrainerCommit));
  }

  lemma TrainerStageCounts(p: Params, s: State, next: State)
    requires CountsOk(p, s.resume, s.rows, s.critic, s.trainer) && next.resume == s.resume && next.critic == s.critic
    requires next.rows.criticTook == s.rows.criticTook && next.rows.valued == s.rows.valued && next.rows.trainerTook == s.rows.trainerTook
    requires next.trainer.stepIndex == s.trainer.stepIndex && next.trainer.trained == s.trainer.trained
    requires next.trainer.stage.Taken? == s.trainer.stage.Taken?
    ensures CountsOk(p, next.resume, next.rows, next.critic, next.trainer)
  {
    hide Samples;
  }

  lemma TrainerCommitContents(p: Params, s: State)
    requires Inv(p, s) && Enabled(p, s, TrainerCommit)
    ensures var next := Apply(p, s, TrainerCommit);
      ContentsOk(p, next.rollout.shards, next.critic.shards, next.trainer.shards)
  {
    hide Inv, SnapshotOk, ShardsOk, ClocksOk, GatesOk, BudgetOk, RowsOk, CountsOk, CursorOk, OneWindowOk;
    Parts(p, s);
    CommittingIsDue(p, s);
  }

  lemma MarkTrainer(p: Params, resume: nat, r: Rollout, c: Critic, t: Trainer, shard: TrainerShard)
    requires ShardsOk(p, resume, r, c, t) && t.stage.Committing?
    ensures ShardsOk(p, resume, r, c, t.(shards := t.shards[GlobalStep(p, t) := shard], stage := Pruning(t.stage.rows)))
  {
    hide RolloutShardsOk, Newest, Retained;
    var next := t.(shards := t.shards[GlobalStep(p, t) := shard], stage := Pruning(t.stage.rows));
    RetainedMarks(p, t.shards.Keys, Newest(r.shards.Keys), p.cold, TrainerMarked(p, t));
    assert next.shards.Keys == t.shards.Keys + {GlobalStep(p, t)};
  }

  lemma PruneTrainer(p: Params, resume: nat, r: Rollout, c: Critic, t: Trainer, oldest: nat)
    requires p.Valid() && ShardsOk(p, resume, r, c, t) && (forall step :: step in t.shards ==> Due(p, step))
    requires |t.shards| > p.keep && Oldest(t.shards.Keys, oldest)
    ensures ShardsOk(p, resume, r, c, t.(shards := t.shards - {oldest}))
  {
    hide RolloutShardsOk, Newest, Retained, Due, Oldest, Params.Valid;
    KeyCount(t.shards);
    OldestIsIn(t.shards.Keys, oldest);
    WithoutOne(t.shards, oldest);
    PruneIsSafe(p, t.shards.Keys, Newest(r.shards.Keys), p.cold, TrainerMarked(p, t), oldest);
    assert TrainerMarked(p, t.(shards := t.shards - {oldest})) == TrainerMarked(p, t);
  }

  lemma OldestIsIn(shards: set<nat>, oldest: nat)
    requires Oldest(shards, oldest)
    ensures oldest in shards
  {
  }

  lemma TrainerPruneKeeps(p: Params, s: State, oldest: nat)
    requires Inv(p, s) && Enabled(p, s, TrainerPrune(oldest))
    ensures Inv(p, Apply(p, s, TrainerPrune(oldest)))
  {
    hide Inv, ShardsOk, ContentsOk, Enabled, Apply, Due;
    TrainerPruneEffect(p, s, oldest);
    var next := Apply(p, s, TrainerPrune(oldest));
    Parts(p, s);
    ValidHere(p, s);
    FewerContents(p, s.rollout.shards, s.critic.shards, s.trainer.shards, oldest);
    if |s.trainer.shards| > p.keep {
      PruneTrainer(p, s.resume, s.rollout, s.critic, s.trainer, oldest);
    } else {
      ShardsFrame(p, s, next);
    }
    TrainerStageFrame(p, s, next);
  }

  /** The trainer's gates follow the last one published. */
  lemma TrainerClock(p: Params, s: State)
    requires Inv(p, s) && Enabled(p, s, TrainerPublish)
    ensures s.trainer.up && GlobalStep(p, s.trainer) == Published(p, s.critic, s.trainer) + 1
    ensures GlobalStep(p, s.trainer) > p.cold
  {
    hide Samples, RowsOk, BudgetOk, OneWindowOk, CursorOk, ShardsOk, ContentsOk, GatesOk;
    if p.hasCritic { TrainerBehindCritic(p, s); }
  }

  lemma TrainerPublishKeeps(p: Params, s: State)
    requires Inv(p, s) && Enabled(p, s, TrainerPublish)
    ensures Inv(p, Apply(p, s, TrainerPublish))
  {
    hide Samples, RowsOk, BudgetOk, OneWindowOk, CursorOk, RolloutShardsOk, Newest, Retained, ContentsOk;
    TrainerClock(p, s);
    OneWindowTrainer(p, s, Apply(p, s, TrainerPublish));
  }

  lemma TrainerDrops(p: Params, base: nat, started: nat, rows: Rows, unpublished: set<nat>, training: set<nat>)
    requires RowsOk(p, base, started, rows, unpublished, training)
    ensures RowsOk(p, base, started, rows.(stored := rows.stored - training, trainerCleared := rows.trainerCleared + training), unpublished, {})
  {
    var next := rows.(stored := rows.stored - training, trainerCleared := rows.trainerCleared + training);
    forall id: nat ensures Placed(next, id) <==> Placed(rows, id) {
    }
  }

  lemma TrainerClearKeeps(p: Params, s: State)
    requires Inv(p, s) && Enabled(p, s, TrainerClear)
    ensures Inv(p, Apply(p, s, TrainerClear))
  {
    hide Inv, RowsOk, BudgetOk, OneWindowOk, CursorOk, CountsOk, ContentsOk, GatesOk, ShardsOk, Unpublished, Enabled, Apply;
    TrainerClearEffect(p, s);
    var next := Apply(p, s, TrainerClear);
    Parts(p, s);
    ValidHere(p, s);
    TrainerDrops(p, s.base, s.rollout.started, s.rows, Unpublished(p, s.critic), s.trainer.stage.rows);
    ShardsFrame(p, s, next);
    GatesFrame(p, s, next);
    TrainerStageCounts(p, s, next);
    OneWindowTrainer(p, s, next);
    InvFromParts(p, next);
  }
}

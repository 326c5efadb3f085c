/** The bound on the window is exact: when W + I > k * I some run prunes the only
    step its participants have in common. The run is built window by window. */
module RunNecessity {
  import opened Arithmetic
  import opened Retention
  import opened RunModel
  import opened RunInvariant
  import opened RunLemmas
  import opened RunRolloutSteps
  import opened RunConsumerSteps
  import opened RunTheorems
  import opened RunResume

  lemma {:induction false} RunThenStep(p: Params, s: State, steps: seq<Step>, mid: State, step: Step)
    requires Run(p, s, steps, mid) && Enabled(p, mid, step)
    ensures Run(p, s, steps + [step], Apply(p, mid, step))
    decreases |steps|
  {
    hide Enabled, Apply;
    if steps == [] {
      assert ([step])[1..] == [];
    } else {
      RunThenStep(p, Apply(p, s, steps[0]), steps[1..], mid, step);
      assert (steps + [step])[1..] == steps[1..] + [step];
    }
  }

  lemma Next(p: Params, s: State, step: Step)
    requires p.Valid() && Reachable(p, s) && Enabled(p, s, step)
    ensures Reachable(p, Apply(p, s, step)) && Inv(p, Apply(p, s, step))
  {
    hide Enabled, Apply, Inv, Run;
    var steps :| Run(p, Initial(), steps, s);
    RunThenStep(p, Initial(), steps, s, step);
    ReachableOk(p, Apply(p, s, step));
  }

  /** Between windows: nobody holds a row, no shard is waiting to be pruned. */
  ghost predicate Calm(p: Params, s: State) {
    && p.Valid() && Reachable(p, s) && Inv(p, s)
    && s.up && s.resume == 0 && s.trainer.up
    && s.rollout.stage == Generating && s.rollout.gatesSeen > 0 && s.rows.inflight == {}
    && s.critic.stage == Idle && s.trainer.stage == Idle && s.trainer.trained == 0
    && |s.rollout.shards| <= p.keep && |s.critic.shards| <= p.keep && |s.trainer.shards| <= p.keep
  }

  ghost predicate SameConsumers(s: State, next: State) {
    next.critic == s.critic && next.trainer == s.trainer && next.queue == s.queue
  }

  // ---- producing a window -----------------------------------------------------------------

  /** A prompt is waiting: the rest of the open batch, or a new one. */
  lemma HavePrompt(p: Params, s: State) returns (next: State)
    requires p.Valid() && Reachable(p, s) && Inv(p, s) && s.up && s.rollout.stage == Generating
    ensures Reachable(p, next) && Inv(p, next) && next == s.(rollout := s.rollout.(cursor := next.rollout.cursor))
    ensures 0 < next.rollout.cursor.pending <= next.rollout.cursor.index
  {
    hide Inv, Reachable;
    Parts(p, s);
    next := s;
    if s.rollout.cursor.pending == 0 {
      Next(p, s, TakePrompts(1));
      next := Apply(p, s, TakePrompts(1));
    }
  }

  /** Groups are started until `target` rows have been. */
  lemma {:induction false} StartUpTo(p: Params, s: State, target: nat) returns (next: State)
    requires p.Valid() && Reachable(p, s) && Inv(p, s) && s.up && s.rollout.stage == Generating
    requires s.rollout.gatesSeen > 0 && target % p.group == 0 && s.rollout.started <= target <= Budget(p, s.rollout.gatesSeen)
    ensures Reachable(p, next) && Inv(p, next) && next.up && next.resume == s.resume && SameConsumers(s, next)
    ensures next.rollout == s.rollout.(started := target, cursor := next.rollout.cursor)
    decreases target - s.rollout.started
  {
    hide Inv, Reachable, Budget;
    if s.rollout.started == target {
      next := s;
    } else {
      GroupsSoFar(p, s);
      GroupsApart(p, s.rollout.started, target);
      var ready := HavePrompt(p, s);
      Next(p, ready, StartPrompt);
      next := StartUpTo(p, Apply(p, ready, StartPrompt), target);
    }
  }

  lemma GroupsSoFar(p: Params, s: State)
    requires Inv(p, s) && s.up
    ensures s.rollout.started % p.group == 0
  {
  }

  /** One more window is started and written. */
  lemma ProduceWindow(p: Params, s: State, n: nat) returns (next: State)
    requires Calm(p, s) && s.rollout.started == Samples(p, n) && Samples(p, n + 1) <= Budget(p, s.rollout.gatesSeen)
    ensures Calm(p, next) && next.rollout.started == Samples(p, n + 1) && SameConsumers(s, next)
    ensures next.rollout.gatesSeen == s.rollout.gatesSeen
  {
    hide Inv, Reachable, Budget, Samples;
    SamplesAreGroups(p, n + 1);
    SamplesNext(p, n);
    var started := StartUpTo(p, s, Samples(p, n + 1));
    Next(p, started, WriteRows(started.rows.inflight));
    next := Apply(p, started, WriteRows(started.rows.inflight));
  }

  // ---- choosing rows -------------------------------------------------------------------------

  lemma {:induction false} Choose(from: set<nat>, count: nat) returns (some: set<nat>)
    requires count <= |from|
    ensures some <= from && |some| == count
  {
    if count == 0 {
      some := {};
    } else {
      var x :| x in from;
      var rest := Choose(from - {x}, count - 1);
      some := rest + {x};
    }
  }

  lemma DifferenceSize(all: set<nat>, taken: set<nat>)
    requires taken <= all
    ensures |all - taken| == |all| - |taken|
  {
    UnionSize(all - taken, taken);
    assert (all - taken) + taken == all;
  }

  /** All started rows are written: what a consumer has not taken, it can take. */
  lemma CriticCanTake(p: Params, s: State)
    requires Inv(p, s) && s.up && s.rows.inflight == {} && p.hasCritic
    ensures |s.rows.stored - s.rows.criticTook| == s.rollout.started - s.base - |s.rows.criticTook|
  {
    hide Samples, CountsOk, ShardsOk, ClocksOk, GatesOk, BudgetOk, OneWindowOk, ContentsOk, CursorOk;
    var all := NewIds(s.base, s.rollout.started - s.base);
    TakenAreStarted(p, s.base, s.rollout.started, s.rows, Unpublished(p, s.critic), Held(s.trainer.stage));
    DifferenceSize(all, s.rows.criticTook);
    forall id: nat ensures id in s.rows.stored - s.rows.criticTook <==> id in all - s.rows.criticTook {
      assert Placed(s.rows, id) <==> id in all;
    }
    assert s.rows.stored - s.rows.criticTook == all - s.rows.criticTook;
  }

  lemma TrainerCanTake(p: Params, s: State)
    requires Inv(p, s) && s.up && s.rows.inflight == {} && s.critic.stage == Idle
    ensures |Eligible(p, s.rows)| == (if p.hasCritic then |s.rows.valued| else s.rollout.started - s.base) - |s.rows.trainerTook|
  {
    hide Inv, RowsOk, Unpublished;
    Parts(p, s);
    assert Unpublished(p, s.critic) == {} by { NothingHeld(p, s.critic); }
    EligibleCount(p, s.base, s.rollout.started, s.rows, Held(s.trainer.stage));
  }

  lemma NothingHeld(p: Params, c: Critic)
    requires c.stage == Idle
    ensures Unpublished(p, c) == {}
  {
  }

  lemma EligibleCount(p: Params, base: nat, started: nat, rows: Rows, training: set<nat>)
    requires RowsOk(p, base, started, rows, {}, training) && rows.inflight == {}
    ensures |Eligible(p, rows)| == (if p.hasCritic then |rows.valued| else started - base) - |rows.trainerTook|
  {
    if p.hasCritic {
      ValuedAreEligible(p, base, started, rows, training);
      DifferenceSize(rows.valued, rows.trainerTook);
    } else {
      StartedAreEligible(p, base, started, rows, training);
      DifferenceSize(NewIds(base, started - base), rows.trainerTook);
    }
  }

  lemma ValuedAreEligible(p: Params, base: nat, started: nat, rows: Rows, training: set<nat>)
    requires RowsOk(p, base, started, rows, {}, training) && p.hasCritic
    ensures Eligible(p, rows) == rows.valued - rows.trainerTook && rows.trainerTook <= rows.valued
  {
    hide NewIds, Placed;
  }

  lemma StartedAreEligible(p: Params, base: nat, started: nat, rows: Rows, training: set<nat>)
    requires RowsOk(p, base, started, rows, {}, training) && !p.hasCritic && rows.inflight == {}
    ensures Eligible(p, rows) == NewIds(base, started - base) - rows.trainerTook && rows.trainerTook <= NewIds(base, started - base)
  {
    var all := NewIds(base, started - base);
    forall id: nat ensures id in all <==> id in rows.stored || id in rows.trainerCleared {
      assert Placed(rows, id) <==> id in all;
    }
  }

  // ---- a critic window ---------------------------------------------------------------------------

  ghost predicate SameRollout(s: State, next: State) {
    next.rollout == s.rollout && next.up == s.up && next.resume == s.resume && next.rows.inflight == s.rows.inflight
  }

  /** Pruning leaves at most `keep` shards and moves on. */
  lemma {:induction false} CriticPrunes(p: Params, s: State) returns (next: State)
    requires p.Valid() && Reachable(p, s) && Inv(p, s) && s.up && s.critic.stage.Pruning?
    ensures Reachable(p, next) && Inv(p, next) && SameRollout(s, next) && next.trainer == s.trainer
    ensures next.critic == s.critic.(shards := next.critic.shards, stage := Releasing(s.critic.stage.rows)) && |next.critic.shards| <= p.keep
    decreases |s.critic.shards|
  {
    hide Inv, Reachable;
    if |s.critic.shards| > p.keep {
      var oldest := OldestExists(s.critic.shards);
      Next(p, s, CriticPrune(oldest));
      next := CriticPrunes(p, Apply(p, s, CriticPrune(oldest)));
    } else {
      Next(p, s, CriticPrune(0));
      next := Apply(p, s, CriticPrune(0));
    }
  }

  /** From scoring to an empty desk. */
  lemma CriticFinishes(p: Params, s: State) returns (next: State)
    requires p.Valid() && Reachable(p, s) && Inv(p, s) && s.up && s.critic.stage.Taken? && |s.critic.shards| <= p.keep
    ensures Reachable(p, next) && Inv(p, next) && SameRollout(s, next) && next.trainer == s.trainer
    ensures next.critic.stage == Idle && next.critic.windows == s.critic.windows + 1 && |next.critic.shards| <= p.keep
  {
    hide Inv, Reachable, Due;
    Next(p, s, CriticScore);
    var scored := Apply(p, s, CriticScore);
    var releasing := scored;
    if scored.critic.stage.Committing? {
      Next(p, scored, CriticCommit);
      releasing := CriticPrunes(p, Apply(p, scored, CriticCommit));
    }
    Next(p, releasing, CriticWrite);
    var written := Apply(p, releasing, CriticWrite);
    Next(p, written, CriticClear);
    next := Apply(p, written, CriticClear);
  }

  lemma CriticWindow(p: Params, s: State, n: nat) returns (next: State)
    requires Calm(p, s) && p.hasCritic && s.critic.windows == n && s.rollout.started == Samples(p, n + 1)
    ensures Calm(p, next) && next.critic.windows == n + 1 && next.trainer == s.trainer && next.rollout == s.rollout
  {
    hide Reachable, Samples, RowsOk, ShardsOk, ClocksOk, GatesOk, OneWindowOk, ContentsOk, CursorOk;
    CriticCanTake(p, s);
    SamplesNext(p, n);
    var fetched := Choose(s.rows.stored - s.rows.criticTook, p.batch);
    Next(p, s, CriticFetch(fetched));
    next := CriticFinishes(p, Apply(p, s, CriticFetch(fetched)));
  }

  // ---- a trainer window ---------------------------------------------------------------------------

  lemma {:induction false} TrainerPrunes(p: Params, s: State) returns (next: State)
    requires p.Valid() && Reachable(p, s) && Inv(p, s) && s.up && s.trainer.stage.Pruning?
    ensures Reachable(p, next) && Inv(p, next) && SameRollout(s, next) && next.critic == s.critic
    ensures next.trainer == s.trainer.(shards := next.trainer.shards, stage := Releasing(s.trainer.stage.rows)) && |next.trainer.shards| <= p.keep
    decreases |s.trainer.shards|
  {
    hide Inv, Reachable;
    if |s.trainer.shards| > p.keep {
      assert |s.trainer.shards.Keys| == |s.trainer.shards|;
      var oldest := OldestExists(s.trainer.shards.Keys);
      Next(p, s, TrainerPrune(oldest));
      var fewer := Apply(p, s, TrainerPrune(oldest));
      assert fewer.trainer.shards.Keys == s.trainer.shards.Keys - {oldest};
      assert |fewer.trainer.shards.Keys| == |fewer.trainer.shards|;
      next := TrainerPrunes(p, fewer);
    } else {
      Next(p, s, TrainerPrune(0));
      next := Apply(p, s, TrainerPrune(0));
    }
  }

  /** From the window's last fetch to its shard, if it ends on a boundary. */
  lemma TrainerSteps(p: Params, s: State) returns (next: State)
    requires p.Valid() && Reachable(p, s) && Inv(p, s) && s.up && s.trainer.stage.Taken? && s.trainer.trained + p.fetch >= p.batch
    requires |s.trainer.shards| <= p.keep
    ensures Reachable(p, next) && Inv(p, next) && SameRollout(s, next) && next.critic == s.critic && next.trainer.up == s.trainer.up
    ensures next.trainer.stage.Releasing? && next.trainer.trained == 0 && next.trainer.stepIndex == s.trainer.stepIndex + 1
    ensures |next.trainer.shards| <= p.keep
  {
    hide Inv, Reachable, Due;
    Next(p, s, TrainerTrain);
    next := Apply(p, s, TrainerTrain);
    if next.trainer.stage.Committing? {
      Next(p, next, TrainerCommit);
      next := TrainerPrunes(p, Apply(p, next, TrainerCommit));
    }
  }

  lemma TrainerSyncs(p: Params, s: State) returns (next: State)
    requires p.Valid() && Reachable(p, s) && Inv(p, s) && s.up && s.trainer.stage.Taken? && s.trainer.trained + p.fetch >= p.batch
    requires |s.trainer.shards| <= p.keep
    ensures Reachable(p, next) && Inv(p, next) && SameRollout(s, next) && next.critic == s.critic && next.trainer.up == s.trainer.up
    ensures next.trainer.stage == Idle && next.trainer.trained == 0 && next.trainer.stepIndex == s.trainer.stepIndex + 1
    ensures |next.trainer.shards| <= p.keep
  {
    hide Inv, Reachable;
    var releasing := TrainerSteps(p, s);
    Next(p, releasing, TrainerPublish);
    var published := Apply(p, releasing, TrainerPublish);
    Next(p, published, TrainerClear);
    next := Apply(p, published, TrainerClear);
  }

  /** Rows the trainer may still take for the window it is on. */
  ghost predicate Supplied(p: Params, s: State) {
    |Eligible(p, s.rows)| >= p.batch - s.trainer.trained
  }

  lemma {:induction false} TrainerWindow(p: Params, s: State) returns (next: State)
    requires p.Valid() && Reachable(p, s) && Inv(p, s) && s.up && s.trainer.up && s.trainer.stage == Idle
    requires Supplied(p, s) && |s.trainer.shards| <= p.keep
    ensures Reachable(p, next) && Inv(p, next) && SameRollout(s, next) && next.critic == s.critic && next.trainer.up
    ensures next.trainer.stage == Idle && next.trainer.trained == 0 && next.trainer.stepIndex == s.trainer.stepIndex + 1
    ensures |next.trainer.shards| <= p.keep
    decreases p.batch - s.trainer.trained
  {
    hide Inv, Reachable, Eligible;
    TrainedSoFar(p, s);
    FetchCompletes(p, s.trainer.trained);
    var fetched := Choose(Eligible(p, s.rows), p.fetch);
    Next(p, s, TrainerFetch(fetched));
    var taken := Apply(p, s, TrainerFetch(fetched));
    if s.trainer.trained + p.fetch >= p.batch {
      next := TrainerSyncs(p, taken);
    } else {
      Next(p, taken, TrainerTrain);
      var chunk := Apply(p, taken, TrainerTrain);
      Next(p, chunk, TrainerClear);
      var cleared := Apply(p, chunk, TrainerClear);
      StillSupplied(p, s.rows, fetched, cleared.rows);
      next := TrainerWindow(p, cleared);
    }
  }

  lemma TrainedSoFar(p: Params, s: State)
    requires Inv(p, s) && s.up
    ensures s.trainer.trained < p.batch && s.trainer.trained % p.fetch == 0
  {
  }

  lemma StillSupplied(p: Params, rows: Rows, fetched: set<nat>, after: Rows)
    requires fetched <= Eligible(p, rows)
    requires after == rows.(trainerTook := rows.trainerTook + fetched, stored := rows.stored - fetched, trainerCleared := rows.trainerCleared + fetched)
    ensures |Eligible(p, after)| == |Eligible(p, rows)| - |fetched|
  {
    DifferenceSize(Eligible(p, rows), fetched);
    assert Eligible(p, after) == Eligible(p, rows) - fetched;
  }

  // ---- one whole window -----------------------------------------------------------------------------

  /** Calm after `n` windows. */
  ghost predicate Settled(p: Params, s: State, n: nat) {
    && Calm(p, s) && s.rollout.started == Samples(p, n)
    && (p.hasCritic ==> s.critic.windows == n)
    && GlobalStep(p, s.trainer) == Later(p.cold, n)
  }

  lemma TrainerIsSupplied(p: Params, s: State, n: nat)
    requires Calm(p, s) && s.rollout.started == Samples(p, n + 1) && n >= p.cold && GlobalStep(p, s.trainer) == n
    requires p.hasCritic ==> s.critic.windows == n + 1
    ensures Supplied(p, s)
  {
    hide Reachable, Inv, Samples, RowsOk, ShardsOk, ClocksOk, GatesOk, OneWindowOk, ContentsOk, CursorOk, Eligible;
    Parts(p, s);
    TrainerCanTake(p, s);
    SamplesNext(p, n - p.cold);
    SamplesNext(p, n);
    assert n + 1 - p.cold == n - p.cold + 1;
  }

  lemma OneMoreWindow(p: Params, s: State, n: nat) returns (next: State)
    requires Settled(p, s, n) && Samples(p, n + 1) <= Budget(p, s.rollout.gatesSeen)
    ensures Settled(p, next, n + 1) && next.rollout.gatesSeen == s.rollout.gatesSeen
  {
    hide Inv, Reachable, Samples, Budget, Supplied;
    var produced := ProduceWindow(p, s, n);
    var scored := produced;
    if p.hasCritic { scored := CriticWindow(p, produced, n); }
    if n >= p.cold {
      TrainerIsSupplied(p, scored, n);
      next := TrainerWindow(p, scored);
    } else {
      next := scored;
    }
  }

  // ---- reading the next gate ------------------------------------------------------------------------

  lemma {:induction false} RolloutPrunes(p: Params, s: State) returns (next: State)
    requires p.Valid() && Reachable(p, s) && Inv(p, s) && s.up && s.rollout.stage == Trimming
    ensures Reachable(p, next) && Inv(p, next) && next.up && next.resume == s.resume && SameConsumers(s, next) && next.rows == s.rows
    ensures next.rollout == s.rollout.(shards := next.rollout.shards, stage := Generating) && |next.rollout.shards| <= p.keep
    decreases |s.rollout.shards|
  {
    hide Inv, Reachable;
    if |s.rollout.shards| > p.keep {
      assert |s.rollout.shards.Keys| == |s.rollout.shards|;
      var oldest := OldestExists(s.rollout.shards.Keys);
      Next(p, s, PruneRollout(oldest));
      var fewer := Apply(p, s, PruneRollout(oldest));
      assert fewer.rollout.shards.Keys == s.rollout.shards.Keys - {oldest};
      assert |fewer.rollout.shards.Keys| == |fewer.rollout.shards|;
      next := RolloutPrunes(p, fewer);
    } else {
      Next(p, s, PruneRollout(0));
      next := Apply(p, s, PruneRollout(0));
    }
  }

  lemma GateIsWaiting(p: Params, s: State, n: nat)
    requires Settled(p, s, n) && n >= s.rollout.gatesSeen
    ensures s.queue != []
  {
    hide Reachable, Samples, RowsOk, ShardsOk, CountsOk, OneWindowOk, ContentsOk, CursorOk, BudgetOk;
  }

  /** With the budget spent the rollout reads the next gate. */
  lemma OneMoreGate(p: Params, s: State, n: nat) returns (next: State)
    requires Settled(p, s, n) && n == s.rollout.gatesSeen - 1 + p.window
    ensures Settled(p, next, n) && next.rollout.gatesSeen == s.rollout.gatesSeen + 1
  {
    hide Inv, Reachable, Samples, Due;
    GateIsWaiting(p, s, n);
    var ready := HavePrompt(p, s);
    Next(p, ready, ReadGate);
    var read := Apply(p, ready, ReadGate);
    if read.rollout.stage.Snapshotting? {
      Next(p, read, CommitRollout);
      next := RolloutPrunes(p, Apply(p, read, CommitRollout));
    } else {
      next := read;
    }
  }

  lemma FirstGate(p: Params) returns (s: State)
    requires p.Valid()
    ensures Settled(p, s, 0) && s.rollout.gatesSeen == 1
  {
    hide Inv, Samples;
    InitialOk(p);
    assert Run(p, Initial(), [], Initial());
    Next(p, Initial(), Genesis);
    var pulsed := Apply(p, Initial(), Genesis);
    var ready := HavePrompt(p, pulsed);
    Next(p, ready, ReadGate);
    s := Apply(p, ready, ReadGate);
    SamplesOne(p);
  }

  /** Every pair of clocks the pacing allows is reached. */
  lemma {:induction false} Reached(p: Params, gates: nat, n: nat) returns (s: State)
    requires p.Valid() && gates >= 1 && n <= gates - 1 + p.window
    requires gates > 1 ==> n >= gates - 2 + p.window
    ensures Settled(p, s, n) && s.rollout.gatesSeen == gates
    decreases gates, n
  {
    hide Settled, Samples;
    if n > (if gates > 1 then gates - 2 + p.window else 0) {
      var before := Reached(p, gates, n - 1);
      SamplesMonotone(p, n, gates - 1 + p.window);
      s := OneMoreWindow(p, before, n - 1);
    } else if gates > 1 {
      var before := Reached(p, gates - 1, n);
      s := OneMoreGate(p, before, n);
    } else {
      s := FirstGate(p);
    }
  }

  // ---- the lost intersection -----------------------------------------------------------------------

  /** The `count` newest boundaries up to `top`. */
  ghost function Boundaries(p: Params, top: int, count: nat): set<nat>
    decreases count
  {
    if count == 0 || top < 0 then {} else Boundaries(p, top - p.interval, count - 1) + {top}
  }

  lemma {:induction false} BoundariesAreApart(p: Params, top: nat, count: nat)
    requires p.Valid() && p.enabled && Due(p, top) && top > (count - 1) * p.interval
    ensures |Boundaries(p, top, count)| == count
    ensures forall step :: step in Boundaries(p, top, count) ==> Due(p, step) && step <= top && top < step + count * p.interval
    decreases count
  {
    hide Due;
    if count == 1 {
      assert Boundaries(p, top - p.interval, 0) == {};
    } else if count > 1 {
      EarlierBoundary(p, top, count);
      BoundariesAreApart(p, top - p.interval, count - 1);
      BoundarySpans(p, count);
      hide Params.Valid;
      var fewer := Boundaries(p, top - p.interval, count - 1);
      assert top !in fewer && Boundaries(p, top, count) == fewer + {top};
    }
  }

  lemma BoundarySpans(p: Params, count: nat)
    requires count >= 1
    ensures count * p.interval == (count - 1) * p.interval + p.interval
    ensures (count - 1) * p.interval >= 0
  {
  }

  lemma EarlierBoundary(p: Params, top: nat, count: nat)
    requires p.Valid() && p.enabled && Due(p, top) && count >= 2 && top > (count - 1) * p.interval
    ensures top > p.interval && Due(p, top - p.interval) && top - p.interval > (count - 2) * p.interval
  {
    assert (count - 1) * p.interval == (count - 2) * p.interval + p.interval;
    assert (count - 2) * p.interval >= 0;
    Fundamental(top, p.interval);
    var q := top / p.interval;
    assert (q - 1) * p.interval == q * p.interval - p.interval;
    PositiveQuotient(top, p.interval);
    QuotientOf(q - 1, 0, p.interval);
  }

  /** The newest boundary at or below a clock. */
  lemma LastBoundary(p: Params, clock: nat, least: nat) returns (top: nat)
    requires p.Valid() && p.enabled && Due(p, least) && least <= clock
    ensures Due(p, top) && top <= clock < top + p.interval && least <= top
  {
    Fundamental(clock, p.interval);
    Fundamental(least, p.interval);
    top := (clock / p.interval) * p.interval;
    QuotientMonotone(least / p.interval, clock / p.interval, p.interval);
    QuotientOf(clock / p.interval, 0, p.interval);
  }

  /** A consumer k boundaries ahead keeps none as old as the first. */
  lemma FirstIsPruned(p: Params, shards: set<nat>, marked: nat)
    requires p.Valid() && p.enabled && Retained(p, shards, p.interval, 0, marked) && |shards| <= p.keep
    requires marked >= Span(p) + p.interval
    ensures p.interval !in shards
  {
    FirstBoundary(p, p.keep + 1);
    var top := LastBoundary(p, marked, Span(p) + p.interval);
    assert (p.keep - 1) * p.interval == p.keep * p.interval - p.interval;
    var newest := Boundaries(p, top, p.keep);
    BoundariesAreApart(p, top, p.keep);
    forall step | step in newest ensures step in shards && step > p.interval {
      assert top < step + Span(p);
      BoundaryGap(p, step, top, marked);
    }
    if p.interval in shards {
      SubsetSize(newest + {p.interval}, shards);
    }
  }

  lemma FirstBoundary(p: Params, count: nat)
    requires p.Valid() && p.enabled && count >= 1
    ensures Due(p, count * p.interval) && (count - 1) * p.interval + p.interval == count * p.interval
  {
    MulAtLeast(count, p.interval);
    QuotientOf(count, 0, p.interval);
  }

  /** Within `Span` of the newest boundary is within `Span` of the clock. */
  lemma BoundaryGap(p: Params, step: nat, top: nat, marked: nat)
    requires p.Valid() && Due(p, step) && Due(p, top) && top < step + Span(p) && marked < top + p.interval
    ensures marked < step + Span(p)
  {
    Fundamental(step, p.interval);
    Fundamental(top, p.interval);
    var a, b := step / p.interval, top / p.interval;
    assert step + Span(p) == (a + p.keep) * p.interval;
    if a + p.keep <= b { QuotientMonotone(a + p.keep, b, p.interval); }
    Distribute(a + p.keep, b, p.interval);
    MulAtLeast(a + p.keep - b, p.interval);
  }

  lemma CommittedFirst(p: Params, s: State, n: nat)
    requires Settled(p, s, n) && p.enabled && s.rollout.gatesSeen == 2 * p.interval
    ensures NewestCommitted(s) == p.interval
  {
    hide Reachable, Samples, RowsOk, CountsOk, OneWindowOk, CursorOk, BudgetOk, GatesOk, ClocksOk, Retained, Newest;
    FirstBoundary(p, 1);
    var newest := NewestCommitted(s);
    CommittedIsRecent(p, s);
    NewestIsThere(s.rollout.shards.Keys);
    if newest != 0 {
      CommittedMeansEnabled(p, s);
      assert newest in s.rollout.shards;
      OnlyBoundaryBelow(p, newest);
    }
  }

  lemma OnlyBoundaryBelow(p: Params, step: nat)
    requires p.Valid() && Due(p, step) && step < 2 * p.interval
    ensures step == p.interval
  {
    Fundamental(step, p.interval);
    var q := step / p.interval;
    PositiveQuotient(step, p.interval);
    if q >= 2 { MulAtLeast(q - 1, p.interval); Distribute(q, 1, p.interval); }
  }

  /** When the window does not fit the retained boundaries, a run reaches a state in
      which the rollout has committed a step that a participant has already pruned. */
  lemma WideWindowLosesTheStep(p: Params) returns (s: State)
    requires p.Valid() && p.enabled && p.window + p.interval > Span(p)
    ensures Reachable(p, s) && s.up && NewestCommitted(s) == p.interval && !Resolves(p, s, NewestCommitted(s))
  {
    hide Samples, Reachable, RowsOk, CountsOk, OneWindowOk, CursorOk, BudgetOk, GatesOk, Newest;
    var n := 2 * p.interval - 1 + p.window;
    s := Reached(p, 2 * p.interval, n);
    CommittedFirst(p, s, n);
    if p.hasCritic {
      FirstIsPruned(p, s.critic.shards, n);
      assert Participates(p, CriticRole, p.interval) && p.interval !in Shards(s, CriticRole);
    } else {
      assert |s.trainer.shards.Keys| == |s.trainer.shards|;
      FirstIsPruned(p, s.trainer.shards.Keys, n);
      assert Participates(p, TrainerRole, p.interval) && p.interval !in Shards(s, TrainerRole);
    }
    assert !Complete(p, s, p.interval);
  }

  /** The resume point is always the rollout's newest committed step exactly when
      W + I <= k * I, that is when the window spans fewer than k boundaries. */
  lemma WindowMustFitTheRetention(p: Params)
    requires p.Valid() && p.enabled
    ensures (forall s :: Reachable(p, s) ==> Resolves(p, s, NewestCommitted(s))) <==> p.window + p.interval <= Span(p)
  {
    hide Reachable, Resolves, NewestCommitted, Span;
    if p.window + p.interval <= Span(p) {
      forall s | Reachable(p, s) ensures Resolves(p, s, NewestCommitted(s)) {
        ResumePointIsNewestCommitted(p, s);
      }
    } else {
      var s := WideWindowLosesTheStep(p);
    }
  }
}

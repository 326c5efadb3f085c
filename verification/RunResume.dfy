/** The resume point of a run: independent pruning keeps the intersection of the
    shards non-empty, and it is the rollout's newest committed step. */
module RunResume {
  import opened Arithmetic
  import opened RunModel
  import opened RunInvariant
  import opened RunLemmas
  import opened RunRolloutSteps
  import opened RunTheorems

  /** The newest step the rollout has committed, 0 when there is none. */
  ghost function NewestCommitted(s: State): nat { Newest(s.rollout.shards.Keys) }

  /** The last gate the rollout has read and, if it is a boundary, committed. */
  function ReadClock(r: Rollout): int { r.gatesSeen - 1 - if r.stage.Snapshotting? then 1 else 0 }

  lemma NextBoundary(p: Params, step: nat)
    requires p.Valid() && p.enabled && (step == 0 || Due(p, step))
    ensures Due(p, step + p.interval)
  {
    Fundamental(step, p.interval);
    var q := step / p.interval;
    assert (q + 1) * p.interval == q * p.interval + p.interval;
    QuotientOf(q + 1, 0, p.interval);
  }

  /** The rollout commits every boundary it passes. */
  lemma CommittedIsRecent(p: Params, s: State)
    requires Inv(p, s) && s.up && p.enabled
    ensures ReadClock(s.rollout) < NewestCommitted(s) + p.interval
    ensures NewestCommitted(s) > 0 ==> Due(p, NewestCommitted(s))
  {
    hide Samples, RowsOk, CountsOk, OneWindowOk, GatesOk, ClocksOk, CursorOk, Retained, Newest;
    var newest := NewestCommitted(s);
    if newest > 0 {
      NewestIsThere(s.rollout.shards.Keys);
      assert SnapshotOk(p, newest, s.rollout.shards[newest]);
    }
    NextBoundary(p, newest);
    assert newest < newest + p.interval;
  }

  lemma NewestIsThere(shards: set<nat>)
    ensures Newest(shards) > 0 ==> Newest(shards) in shards
  {
  }

  /** What was started fits the gates read and committed so far. */
  lemma StartedIsPacedByCommits(p: Params, s: State)
    requires Inv(p, s) && s.up
    ensures s.rollout.gatesSeen > 0 ==> s.rollout.started <= Samples(p, ReadClock(s.rollout) + p.window)
    ensures s.rollout.gatesSeen == 0 ==> s.rollout.started == 0
  {
    hide Samples, RowsOk, CountsOk, OneWindowOk, GatesOk, ClocksOk, CursorOk, ShardsOk;
    assert s.rollout.gatesSeen - 2 + p.window == s.rollout.gatesSeen - 1 - 1 + p.window;
  }

  /** How far a consumer can be ahead of the rollout's newest shard. */
  lemma LeadIsBounded(p: Params, s: State, clock: int)
    requires Inv(p, s) && s.up && p.enabled && NewestCommitted(s) > 0
    requires Samples(p, clock) <= s.rollout.started
    ensures clock < NewestCommitted(s) + p.interval + p.window
  {
    hide Samples, UpOk, NewestCommitted;
    CommittedIsRecent(p, s);
    StartedIsPacedByCommits(p, s);
    GatesWereRead(p, s);
    SamplesMonotone(p, clock, ReadClock(s.rollout) + p.window);
  }

  lemma GatesWereRead(p: Params, s: State)
    requires Inv(p, s) && s.up && NewestCommitted(s) > 0
    ensures s.rollout.gatesSeen > 0
    ensures NewestCommitted(s) <= Published(p, s.critic, s.trainer)
  {
    hide Samples, RowsOk, CountsOk, OneWindowOk, BudgetOk, CursorOk, Retained, Newest;
    NewestIsThere(s.rollout.shards.Keys);
    PublishedIsBehind(p, s);
  }

  /** Every participant committed the rollout's newest step before the rollout did,
      and none is far enough ahead to have pruned it. */
  lemma ParticipantsHoldIt(p: Params, s: State)
    requires Inv(p, s) && s.up && p.window + p.interval <= Span(p) && NewestCommitted(s) > 0
    ensures Complete(p, s, NewestCommitted(s))
  {
    hide Samples, UpOk, ContentsOk, Newest;
    var newest := NewestCommitted(s);
    CommittedMeansEnabled(p, s);
    NewestIsThere(s.rollout.shards.Keys);
    forall role | Participates(p, role, newest) ensures newest in Shards(s, role) {
      match role
      case RolloutRole =>
      case CriticRole => CriticHoldsIt(p, s);
      case TrainerRole => TrainerHoldsIt(p, s);
    }
  }

  lemma CommittedMeansEnabled(p: Params, s: State)
    requires Inv(p, s) && NewestCommitted(s) > 0
    ensures p.enabled && Due(p, NewestCommitted(s))
  {
    hide UpOk, Samples, Newest;
    NewestIsThere(s.rollout.shards.Keys);
    assert SnapshotOk(p, NewestCommitted(s), s.rollout.shards[NewestCommitted(s)]);
  }

  lemma CriticHoldsIt(p: Params, s: State)
    requires Inv(p, s) && s.up && p.window + p.interval <= Span(p) && NewestCommitted(s) > 0 && p.hasCritic
    ensures NewestCommitted(s) in s.critic.shards
  {
    hide Samples, RowsOk, CountsOk, OneWindowOk, GatesOk, BudgetOk, CursorOk, ContentsOk, Newest, Span;
    CommittedMeansEnabled(p, s);
    FetchedIsPaced(p, s);
    LeadIsBounded(p, s, CriticFetched(s.critic));
    GatesWereRead(p, s);
    PublishedIsBehind(p, s);
  }

  lemma TrainerHoldsIt(p: Params, s: State)
    requires Inv(p, s) && s.up && p.window + p.interval <= Span(p) && NewestCommitted(s) > p.cold
    ensures NewestCommitted(s) in s.trainer.shards
  {
    hide Samples, RowsOk, CountsOk, OneWindowOk, GatesOk, BudgetOk, CursorOk, ContentsOk, Newest, Span;
    CommittedMeansEnabled(p, s);
    FetchedIsPaced(p, s);
    GatesWereRead(p, s);
    PublishedIsBehind(p, s);
    if p.hasCritic {
      TrainerBehindCritic(p, s);
      LeadIsBounded(p, s, CriticFetched(s.critic));
    } else {
      LeadIsBounded(p, s, GlobalStep(p, s.trainer));
    }
  }

  lemma NewestResolves(p: Params, s: State)
    requires Inv(p, s) && s.up && p.window + p.interval <= Span(p)
    ensures Resolves(p, s, NewestCommitted(s))
  {
    hide UpOk, ContentsOk;
    if NewestCommitted(s) > 0 { ParticipantsHoldIt(p, s); }
    OnlyCommittedIsComplete(p, s);
  }

  /** The rollout participates in every step: beyond its newest shard nothing is complete. */
  lemma OnlyCommittedIsComplete(p: Params, s: State)
    ensures forall later :: later > NewestCommitted(s) ==> !Complete(p, s, later)
  {
    forall later | later > NewestCommitted(s) ensures !Complete(p, s, later) {
      assert Participates(p, RolloutRole, later);
      assert later !in Shards(s, RolloutRole);
    }
  }

  // ---- dropping the crash tail -----------------------------------------------------------

  lemma ResolvedIsUnique(p: Params, s: State, a: nat, b: nat)
    requires Resolves(p, s, a) && Resolves(p, s, b)
    ensures a == b
  {
    assert a > 0 ==> Complete(p, s, a);
    assert b > 0 ==> Complete(p, s, b);
  }

  /** Dropping shards past the resume point, one file set at a time, never changes
      anyone's answer. */
  lemma DropKeepsTheAnswer(p: Params, s: State, role: RoleName, dropped: nat, resolved: nat)
    requires Enabled(p, s, DropNewer(role, dropped, resolved))
    ensures Resolves(p, Apply(p, s, DropNewer(role, dropped, resolved)), resolved)
  {
    var next := Apply(p, s, DropNewer(role, dropped, resolved));
    forall other, step | step != dropped ensures step in Shards(next, other) <==> step in Shards(s, other) {
    }
    forall later | later > resolved ensures !Complete(p, next, later) {
      FewerShards(p, s, next, later);
    }
    forall r | Participates(p, r, resolved) ensures resolved in Shards(next, r) {
      assert Complete(p, s, resolved);
    }
  }

  lemma FewerShards(p: Params, s: State, next: State, step: nat)
    requires forall role :: Shards(next, role) <= Shards(s, role)
    ensures Complete(p, next, step) ==> Complete(p, s, step)
  {
    assert forall role :: step in Shards(next, role) ==> step in Shards(s, role);
  }

  lemma DropKeepsTheNewest(p: Params, s: State, role: RoleName, dropped: nat, resolved: nat)
    requires Enabled(p, s, DropNewer(role, dropped, resolved)) && resolved == NewestCommitted(s)
    ensures NewestCommitted(Apply(p, s, DropNewer(role, dropped, resolved))) == NewestCommitted(s)
  {
    assert Shards(s, RolloutRole) == s.rollout.shards.Keys;
  }

  /** The step property behind the main result. */
  lemma StepKeepsTheAnswer(p: Params, s: State, step: Step)
    requires Inv(p, s) && Enabled(p, s, step) && p.window + p.interval <= Span(p)
    requires Resolves(p, s, NewestCommitted(s))
    ensures Resolves(p, Apply(p, s, step), NewestCommitted(Apply(p, s, step)))
  {
    hide UpOk, ContentsOk, Resolves, NewestCommitted, Span;
    var next := Apply(p, s, step);
    StepKeeps(p, s, step);
    if next.up {
      NewestResolves(p, next);
    } else if step.DropNewer? {
      ResolvedIsUnique(p, s, step.resolved, NewestCommitted(s));
      DropKeepsTheAnswer(p, s, step.role, step.dropped, step.resolved);
      DropKeepsTheNewest(p, s, step.role, step.dropped, step.resolved);
    } else {
      CrashKeepsShards(p, s, step);
    }
  }

  lemma CrashKeepsShards(p: Params, s: State, step: Step)
    requires Enabled(p, s, step) && !Apply(p, s, step).up && !step.DropNewer?
    ensures step == Crash
    ensures NewestCommitted(Apply(p, s, step)) == NewestCommitted(s)
    ensures Resolves(p, s, NewestCommitted(s)) ==> Resolves(p, Apply(p, s, step), NewestCommitted(s))
  {
    SameShards(p, s, Apply(p, s, step));
  }

  lemma SameShards(p: Params, s: State, next: State)
    ensures (forall role :: Shards(next, role) == Shards(s, role)) ==>
      forall n :: Resolves(p, s, n) ==> Resolves(p, next, n)
  {
    if forall role :: Shards(next, role) == Shards(s, role) {
      forall n ensures Complete(p, s, n) <==> Complete(p, next, n) {
      }
    }
  }

  lemma {:induction false} RunKeepsTheAnswer(p: Params, s: State, steps: seq<Step>, end: State)
    requires Inv(p, s) && Run(p, s, steps, end) && p.window + p.interval <= Span(p) && Resolves(p, s, NewestCommitted(s))
    ensures Resolves(p, end, NewestCommitted(end))
    decreases |steps|
  {
    hide Inv, Enabled, Apply, Resolves, NewestCommitted, Span;
    if steps != [] {
      StepKeeps(p, s, steps[0]);
      StepKeepsTheAnswer(p, s, steps[0]);
      RunKeepsTheAnswer(p, Apply(p, s, steps[0]), steps[1..], end);
    }
  }

  /** In every reachable state, whether running, crashed or half-way through
      dropping the crash tail, the resume point is the rollout's newest shard,
      provided the window fits the retained boundaries: W + I <= k * I. */
  lemma ResumePointIsNewestCommitted(p: Params, s: State)
    requires p.Valid() && Reachable(p, s) && p.window + p.interval <= Span(p)
    ensures Resolves(p, s, NewestCommitted(s))
  {
    hide Inv, Run, Resolves, NewestCommitted, Span;
    InitialOk(p);
    InitialResolves(p);
    var steps :| Run(p, Initial(), steps, s);
    RunKeepsTheAnswer(p, Initial(), steps, s);
  }

  lemma InitialResolves(p: Params)
    ensures Resolves(p, Initial(), NewestCommitted(Initial()))
  {
    OnlyCommittedIsComplete(p, Initial());
    assert Initial().rollout.shards.Keys == {};
  }

  /** A rollout shard stamped N never describes a window a participant has not
      finished: whoever must hold N had already passed its own commit of N. */
  lemma ShardsDescribeFinishedWindows(p: Params, s: State, step: nat)
    requires p.Valid() && Reachable(p, s) && s.up && step in s.rollout.shards
    ensures step <= Published(p, s.critic, s.trainer)
    ensures p.hasCritic ==> step <= CriticMarked(s.critic)
    ensures step > p.cold ==> step <= TrainerMarked(p, s.trainer)
  {
    hide Samples, RowsOk, CountsOk, OneWindowOk, BudgetOk, CursorOk, Retained, Newest, ContentsOk;
    ReachableOk(p, s);
    PublishedIsBehind(p, s);
  }

  /** A restart finds every shard it asks for; neither role's missing-shard error
      can be raised, and the clocks continue from the resume point. */
  lemma RestartIsComplete(p: Params, s: State, resolved: nat)
    requires p.Valid() && Reachable(p, s) && Enabled(p, s, Boot(resolved))
    ensures resolved > 0 ==> resolved in s.rollout.shards && (p.hasCritic ==> resolved in s.critic.shards)
    ensures resolved > 0 ==> (resolved > p.cold <==> resolved in s.trainer.shards)
    ensures var next := Apply(p, s, Boot(resolved));
      && next.critic.windows == next.critic.gatesRaised == next.rollout.gatesSeen == resolved
      && GlobalStep(p, next.trainer) == Later(p.cold, resolved)
      && next.trainer.version == VersionAt(p, resolved)
  {
    hide UpOk, Samples, Resolves;
    ReachableOk(p, s);
    BootRestores(p, s, resolved);
    if resolved > 0 { BootFindsItsShards(p, s, resolved); }
  }
}

/** The run's shards as files: who must hold a step, and that the search on disk
    answers the run's own question (meshy/service/topology.py). */
module RunDisk {
  import opened Retention
  import opened RunModel
  import opened RunInvariant
  import opened RunLemmas
  import opened RunTheorems
  import opened RunResume
  import opened StateStore

  /** A service as the topology knows it; `coldStart` is the critic's setting. */
  datatype Service = Service(name: string, role: string, checkpoints: bool, coldStart: int)

  function ColdStartWindows(services: seq<Service>): int {
    if services == [] then 0
    else if services[0].role == "critic" then services[0].coldStart
    else ColdStartWindows(services[1..])
  }

  /** Whether a service must have committed a shard for `step`. */
  predicate Required(service: Service, cold: int, step: nat) {
    service.checkpoints && !(service.role == "training" && (cold < 0 || step <= cold))
  }

  function RequiredNames(services: seq<Service>, cold: int, step: nat): seq<string> {
    if services == [] then []
    else
      var last := services[|services| - 1];
      RequiredNames(services[..|services| - 1], cold, step) + (if Required(last, cold, step) then [last.name] else [])
  }

  predicate FirstCriticAt(services: seq<Service>, i: int) {
    && 0 <= i < |services| && services[i].role == "critic"
    && forall k :: 0 <= k < i ==> services[k].role != "critic"
  }

  /** `checkpoint_participants`: the services with a checkpoint policy, a training
      service only past the cold start, which an endless cold start never is. `cold` is
      the setting of the first critic, 0 without one. */
  method CheckpointParticipants(services: seq<Service>, step: nat) returns (names: seq<string>, ghost cold: int)
    ensures (forall i :: 0 <= i < |services| ==> services[i].role != "critic") ==> cold == 0
    ensures forall i :: FirstCriticAt(services, i) ==> cold == services[i].coldStart
    ensures forall name :: name in names <==>
      exists i :: 0 <= i < |services| && services[i].name == name && services[i].checkpoints
        && !(services[i].role == "training" && (cold < 0 || step <= cold))
    ensures names == RequiredNames(services, ColdStartWindows(services), step)
  {
    var windows := ColdStartWindows(services);
    names := [];
    for i := 0 to |services|
      invariant names == RequiredNames(services[..i], windows, step)
    {
      assert services[..i + 1][..i] == services[..i];
      if services[i].checkpoints && !(services[i].role == "training" && (windows < 0 || step <= windows)) {
        names := names + [services[i].name];
      }
    }
    assert services[..|services|] == services;
    cold := windows;
    FirstCritic(services);
    forall name ensures name in names <==>
      exists i :: 0 <= i < |services| && services[i].name == name && services[i].checkpoints
        && !(services[i].role == "training" && (cold < 0 || step <= cold))
    {
      RequiredMembers(services, windows, step, name);
    }
  }

  lemma {:induction false} FirstCritic(services: seq<Service>)
    ensures (forall i :: 0 <= i < |services| ==> services[i].role != "critic") ==> ColdStartWindows(services) == 0
    ensures forall i :: FirstCriticAt(services, i) ==> ColdStartWindows(services) == services[i].coldStart
  {
    if services == [] {
    } else if services[0].role == "critic" {
      assert forall i :: FirstCriticAt(services, i) ==> i == 0;
    } else {
      FirstCritic(services[1..]);
      forall i | FirstCriticAt(services, i) ensures ColdStartWindows(services) == services[i].coldStart {
        assert services[1..][i - 1] == services[i];
        assert forall k :: 0 <= k < i - 1 ==> services[1..][k] == services[k + 1];
        assert FirstCriticAt(services[1..], i - 1);
      }
    }
  }

  /** While the critic never hands over, no step asks for the trainer's shard: a resume
      needs exactly the other services that checkpoint. */
  lemma EndlessColdStart(services: seq<Service>, step: nat, name: string)
    requires ColdStartWindows(services) < 0
    ensures name in RequiredNames(services, ColdStartWindows(services), step) <==>
      exists i :: 0 <= i < |services| && services[i].name == name && services[i].checkpoints && services[i].role != "training"
  {
    RequiredMembers(services, ColdStartWindows(services), step, name);
  }

  /** A name is required exactly when one of its services is. */
  lemma {:induction false} RequiredMembers(services: seq<Service>, cold: int, step: nat, name: string)
    ensures name in RequiredNames(services, cold, step) <==>
      exists i :: 0 <= i < |services| && services[i].name == name && Required(services[i], cold, step)
  {
    if services != [] {
      var k := |services| - 1;
      RequiredMembers(services[..k], cold, step, name);
      assert forall i :: 0 <= i < k ==> services[..k][i] == services[i];
    }
  }

  // ---- one replica of each role ------------------------------------------------------------

  function NameOf(role: RoleName): string {
    match role
    case RolloutRole => "rollout-0"
    case CriticRole => "critic-0"
    case TrainerRole => "actor_train-0"
  }

  /** The recipe's services: an inference service has no checkpoint policy. */
  function ServicesOf(p: Params): seq<Service> {
    [Service("inference-0", "inference", false, 0), Service(NameOf(TrainerRole), "training", true, 0)]
      + (if p.hasCritic then [Service(NameOf(CriticRole), "critic", true, p.cold)] else [])
      + [Service(NameOf(RolloutRole), "rollout", true, 0)]
  }

  function ParticipantsOf(p: Params): nat -> seq<string> {
    (step: nat) => RequiredNames(ServicesOf(p), ColdStartWindows(ServicesOf(p)), step)
  }

  /** The recipe's participants are the run's. */
  lemma ParticipantsAreTheRoles(p: Params, role: RoleName, step: nat)
    requires p.Valid()
    ensures NameOf(role) in ParticipantsOf(p)(step) <==> Participates(p, role, step)
    ensures forall name :: name in ParticipantsOf(p)(step) ==> exists r :: name == NameOf(r)
  {
    var services := ServicesOf(p);
    assert services[1].role == "training" && services[|services| - 1].role == "rollout" && !services[0].checkpoints;
    if p.hasCritic { assert services[2].role == "critic"; }
    var trainer, rollout := services[1], services[|services| - 1];
    ColdStartIsTheCritics(p);
    forall name ensures name in ParticipantsOf(p)(step) <==>
      exists i :: 0 <= i < |services| && services[i].name == name && Required(services[i], p.cold, step)
    {
      RequiredMembers(services, p.cold, step, name);
    }
    NamesDiffer();
    assert Required(rollout, p.cold, step) && (Required(trainer, p.cold, step) <==> step > p.cold);
    if p.hasCritic { assert services[2].name == NameOf(CriticRole) && Required(services[2], p.cold, step); }
    forall name | name in ParticipantsOf(p)(step) ensures exists r :: name == NameOf(r) {
      var i :| 0 <= i < |services| && services[i].name == name && Required(services[i], p.cold, step);
      if i == 1 { assert name == NameOf(TrainerRole); }
      else if i == |services| - 1 { assert name == NameOf(RolloutRole); }
      else { assert name == NameOf(CriticRole); }
    }
  }

  lemma ColdStartIsTheCritics(p: Params)
    requires p.Valid()
    ensures ColdStartWindows(ServicesOf(p)) == p.cold
  {
    var services := ServicesOf(p);
    assert "inference"[0] == 'i' && "training"[0] == 't' && "rollout"[0] == 'r' && "critic"[0] == 'c';
    FirstCritic(services);
    if p.hasCritic {
      assert services[2] == Service(NameOf(CriticRole), "critic", true, p.cold);
      assert FirstCriticAt(services, 2);
    } else {
      assert |services| == 3 && services[2].role == "rollout";
    }
  }

  lemma NamesDiffer()
    ensures NameOf(RolloutRole) != NameOf(CriticRole) && NameOf(RolloutRole) != NameOf(TrainerRole) && NameOf(CriticRole) != NameOf(TrainerRole)
  {
    assert NameOf(RolloutRole)[0] == 'r' && NameOf(CriticRole)[0] == 'c' && NameOf(TrainerRole)[0] == 'a';
  }

  /** The files of `disk` are the shards of `s`. */
  ghost predicate Shows(disk: Disk, s: State) {
    forall role, step :: Marked(disk, NameOf(role), step) <==> step in Shards(s, role)
  }

  lemma CompleteOnDisk(p: Params, s: State, disk: Disk, step: nat)
    requires p.Valid() && Shows(disk, s)
    ensures StateStore.Complete(disk, ParticipantsOf(p), step) <==> RunModel.Complete(p, s, step)
  {
    hide ParticipantsOf;
    forall role ensures NameOf(role) in ParticipantsOf(p)(step) <==> Participates(p, role, step) {
      ParticipantsAreTheRoles(p, role, step);
    }
    ParticipantsAreTheRoles(p, RolloutRole, step);
    assert Participates(p, RolloutRole, step);
    if StateStore.Complete(disk, ParticipantsOf(p), step) {
      forall role | Participates(p, role, step) ensures step in Shards(s, role) {
        assert Marked(disk, NameOf(role), step);
      }
    }
    if RunModel.Complete(p, s, step) {
      forall name | name in ParticipantsOf(p)(step) ensures Marked(disk, name, step) {
        var r :| name == NameOf(r);
        assert step in Shards(s, r);
      }
    }
  }

  lemma NewestOnDisk(p: Params, s: State, disk: Disk, step: nat)
    requires p.Valid() && Shows(disk, s)
    ensures StateStore.Newest(disk, ParticipantsOf(p), step) <==> Resolves(p, s, step)
  {
    forall n ensures StateStore.Complete(disk, ParticipantsOf(p), n) <==> RunModel.Complete(p, s, n) {
      CompleteOnDisk(p, s, disk, n);
    }
  }

  /** Every process that looks for the resume point, even while the crash tail is
      being dropped under it, finds the rollout's newest committed step. */
  method EveryoneResumesAtTheSameStep(p: Params, ghost s: State, ghost disk: Disk, services: seq<string>, at: nat -> Disk)
    returns (resolved: nat)
    requires p.Valid() && Reachable(p, s) && p.window + p.interval <= Span(p)
    requires Shows(disk, s) && forall name, n :: Marked(disk, name, n) ==> name in services
    requires forall i :: TailDropped(disk, at(i), NewestCommitted(s))
    ensures resolved == NewestCommitted(s)
  {
    hide Reachable, Shows, TailDropped, Marked;
    ResumePointIsNewestCommitted(p, s);
    NewestOnDisk(p, s, disk, NewestCommitted(s));
    resolved := Resolve(services, ParticipantsOf(p), at, disk, NewestCommitted(s));
  }

  // ---- saving a shard, file by file -----------------------------------------------------------

  function CommitOf(role: RoleName): Step {
    match role
    case RolloutRole => CommitRollout
    case CriticRole => CriticCommit
    case TrainerRole => TrainerCommit
  }

  /** The step a role is about to commit. */
  function StepOf(p: Params, s: State, role: RoleName): nat {
    match role
    case RolloutRole => if s.rollout.stage.Snapshotting? then s.rollout.stage.step else 0
    case CriticRole => s.critic.windows
    case TrainerRole => GlobalStep(p, s.trainer)
  }

  /** A committed step is never committed again: it is newer than all the shards. */
  lemma CommitIsNew(p: Params, s: State, role: RoleName)
    requires p.Valid() && Reachable(p, s) && Enabled(p, s, CommitOf(role))
    ensures forall step :: step in Shards(s, role) ==> step < StepOf(p, s, role)
  {
    hide Inv, Reachable, RowsOk, CountsOk, GatesOk, BudgetOk, OneWindowOk, ContentsOk, CursorOk;
    ReachableOk(p, s);
    Parts(p, s);
    if role == CriticRole { CriticIsThere(p, s); }
  }

  lemma CriticIsThere(p: Params, s: State)
    requires Inv(p, s) && s.up && s.critic.stage != Idle
    ensures p.hasCritic
  {
    hide RowsOk, CountsOk, GatesOk, BudgetOk, OneWindowOk, ContentsOk, CursorOk, ShardsOk;
  }

  /** Whether the role is between its commit and the end of its pruning. */
  predicate Trims(s: State, role: RoleName) {
    match role
    case RolloutRole => s.rollout.stage == Trimming
    case CriticRole => s.critic.stage.Pruning?
    case TrainerRole => s.trainer.stage.Pruning?
  }

  function PruneOf(role: RoleName, oldest: nat): Step {
    match role
    case RolloutRole => PruneRollout(oldest)
    case CriticRole => CriticPrune(oldest)
    case TrainerRole => TrainerPrune(oldest)
  }

  /** `t` is reached from `s` by steps that leave the other roles' shards alone. */
  ghost predicate LeadsTo(p: Params, s: State, t: State, role: RoleName) {
    (exists steps :: Run(p, s, steps, t)) && forall other :: other != role ==> Shards(t, other) == Shards(s, other)
  }

  lemma CommitEffect(p: Params, s: State, role: RoleName)
    requires Enabled(p, s, CommitOf(role))
    ensures var next := Apply(p, s, CommitOf(role));
      && next.up && Trims(next, role) && Shards(next, role) == Shards(s, role) + {StepOf(p, s, role)}
      && forall other :: other != role ==> Shards(next, other) == Shards(s, other)
  {
  }

  lemma PruneEffect(p: Params, s: State, role: RoleName, oldest: nat)
    requires s.up && Trims(s, role) && Oldest(Shards(s, role), oldest) && |Shards(s, role)| > p.keep
    ensures Enabled(p, s, PruneOf(role, oldest))
    ensures var next := Apply(p, s, PruneOf(role, oldest));
      && next.up && Trims(next, role) && Shards(next, role) == Shards(s, role) - {oldest}
      && forall other :: other != role ==> Shards(next, other) == Shards(s, other)
  {
    assert |s.rollout.shards.Keys| == |s.rollout.shards| && |s.trainer.shards.Keys| == |s.trainer.shards|;
  }

  /** The run's own pruning passes through every set of newest shards that keeps enough. */
  lemma {:induction false} PrunesDownTo(p: Params, s: State, role: RoleName, some: set<nat>) returns (t: State)
    requires s.up && Trims(s, role) && NewestOf(Shards(s, role), some)
    requires |some| >= p.keep || some == Shards(s, role)
    ensures LeadsTo(p, s, t, role) && Shards(t, role) == some
    decreases |Shards(s, role)|
  {
    hide Enabled, Apply;
    var all := Shards(s, role);
    if some == all {
      t := s;
      assert Run(p, s, [], s);
    } else {
      SubsetSize(some, all);
      var oldest := OldestExists(all);
      OldestIsGone(all, some, oldest);
      PruneEffect(p, s, role, oldest);
      var next := Apply(p, s, PruneOf(role, oldest));
      t := PrunesDownTo(p, next, role, some);
      StepThenLeads(p, s, PruneOf(role, oldest), t, role);
    }
  }

  lemma OldestIsGone(all: set<nat>, some: set<nat>, oldest: nat)
    requires NewestOf(all, some) && some != all && Oldest(all, oldest)
    ensures oldest !in some && NewestOf(all - {oldest}, some)
  {
    var gone :| gone in all && gone !in some;
    assert oldest <= gone;
  }

  lemma StepThenLeads(p: Params, s: State, step: Step, t: State, role: RoleName)
    requires Enabled(p, s, step) && LeadsTo(p, Apply(p, s, step), t, role)
    requires forall other :: other != role ==> Shards(Apply(p, s, step), other) == Shards(s, other)
    ensures LeadsTo(p, s, t, role)
  {
    hide Enabled, Apply, Shards;
    var steps :| Run(p, Apply(p, s, step), steps, t);
    var longer := [step] + steps;
    assert longer[1..] == steps;
    assert Run(p, s, longer, t);
  }

  lemma CommitThenPrune(p: Params, s: State, role: RoleName, some: set<nat>) returns (t: State)
    requires Enabled(p, s, CommitOf(role))
    requires var all := Shards(s, role) + {StepOf(p, s, role)}; NewestOf(all, some) && (|some| >= p.keep || some == all)
    ensures LeadsTo(p, s, t, role) && Shards(t, role) == some
  {
    hide Enabled, Apply, LeadsTo, Shards;
    CommitEffect(p, s, role);
    t := PrunesDownTo(p, Apply(p, s, CommitOf(role)), role, some);
    StepThenLeads(p, s, CommitOf(role), t, role);
  }

  lemma ShowsMoved(p: Params, s: State, t: State, disk: Disk, later: Disk, role: RoleName)
    requires Shows(disk, s) && OnlyOf(disk, later, NameOf(role)) && LeadsTo(p, s, t, role)
    requires Shards(t, role) == MarkedSteps(later, NameOf(role))
    ensures Shows(later, t)
  {
    NamesDiffer();
    forall other, step: nat ensures Marked(later, NameOf(other), step) <==> step in Shards(t, other) {
      if other != role {
        assert NameOf(other) != NameOf(role);
        assert At(later, (NameOf(other), step)) == At(disk, (NameOf(other), step));
      }
    }
  }

  /** Saving a role's shard file by file takes the run's own steps: whatever state of
      the disk a crash leaves, it shows a state of the run that the role's commit and
      prunings lead to, and no marker ever stands without its metadata and directory. */
  method SaveIsARun(p: Params, ghost s: State, store: Store, role: RoleName, step: nat)
    requires p.Valid() && Reachable(p, s) && Enabled(p, s, CommitOf(role)) && step == StepOf(p, s, role)
    requires store.Valid() && Shows(store.disk, s)
    modifies store
    ensures store.Valid() && old(store.log) <= store.log
    ensures forall i :: old(|store.log|) <= i < |store.log| ==> exists t :: LeadsTo(p, s, t, role) && Shows(store.log[i], t)
    ensures exists t :: LeadsTo(p, s, t, role) && Shows(store.disk, t) && step in Shards(t, role) && |Shards(t, role)| <= p.keep
  {
    hide Reachable, Enabled, Shows, LeadsTo, OnlyOf, Store.Valid, NewestOf, MarkedSteps;
    ghost var before, name, all := store.disk, NameOf(role), Shards(s, role) + {StepOf(p, s, role)};
    CommitIsNew(p, s, role);
    ShownMarks(s, before, role);
    var stale := store.SaveShard(NameOf(role), step, p.keep);
    forall i | old(|store.log|) <= i < |store.log| ensures exists t :: LeadsTo(p, s, t, role) && Shows(store.log[i], t) {
      var t := ShownOnTheWay(p, s, before, store.disk, store.log[i], role);
    }
    ghost var final := ShownOnTheWay(p, s, before, store.disk, store.disk, role);
    ShownMarks(final, store.disk, role);
  }

  lemma ShownMarks(s: State, disk: Disk, role: RoleName)
    requires Shows(disk, s)
    ensures MarkedSteps(disk, NameOf(role)) == Shards(s, role)
  {
  }

  /** A disk seen while a shard is being saved shows a state the run leads to. */
  lemma ShownOnTheWay(p: Params, s: State, before: Disk, end: Disk, later: Disk, role: RoleName) returns (t: State)
    requires p.Valid() && Enabled(p, s, CommitOf(role)) && Shows(before, s) && OnlyOf(before, later, NameOf(role))
    requires var name, all := NameOf(role), Shards(s, role) + {StepOf(p, s, role)};
      && |MarkedSteps(end, name)| == (if 0 < p.keep < |all| then p.keep else |all|) && NewestOf(all, MarkedSteps(end, name))
      && (|| MarkedSteps(later, name) == MarkedSteps(before, name)
          || (NewestOf(all, MarkedSteps(later, name)) && MarkedSteps(end, name) <= MarkedSteps(later, name)))
    ensures LeadsTo(p, s, t, role) && Shows(later, t)
  {
    hide Enabled, Shows, LeadsTo, OnlyOf, MarkedSteps;
    var name, all := NameOf(role), Shards(s, role) + {StepOf(p, s, role)};
    ShownMarks(s, before, role);
    if MarkedSteps(later, name) == MarkedSteps(before, name) {
      t := s;
      StaysHere(p, s, role);
    } else {
      SubsetSize(MarkedSteps(end, name), MarkedSteps(later, name));
      SubsetSize(MarkedSteps(end, name), all);
      t := CommitThenPrune(p, s, role, MarkedSteps(later, name));
    }
    ShowsMoved(p, s, t, before, later, role);
  }

  lemma StaysHere(p: Params, s: State, role: RoleName)
    ensures LeadsTo(p, s, s, role)
  {
    assert Run(p, s, [], s);
  }
}

/** The rollout's pacing and checkpoint state as its worker object updates it
    (meshy/worker/rollout.py). */
module RolloutWorker {
  import opened Retention
  import opened Wrappers
  import opened RunModel

  datatype SlotError = NotPositive

  datatype RestoreError = ShardMissing(step: nat)

  /** What reading one gate does, the snapshot at a boundary included. */
  ghost function Advanced(p: Params, before: Rollout, gate: Gate, resume: nat): Rollout {
    var read := Advance(p, before, gate, resume);
    if read.stage.Snapshotting? then
      Commit(read).(shards := Trim(Commit(read).shards, p.keep), stage := Generating)
    else read
  }

  /** Reading gates one after another. */
  ghost function AdvancedBy(p: Params, before: Rollout, gates: seq<Gate>, resume: nat): Rollout {
    if gates == [] then before
    else Advanced(p, AdvancedBy(p, before, gates[..|gates| - 1], resume), gates[|gates| - 1], resume)
  }

  class Worker {
    const params: Params
    const resumeStep: nat
    var gatesSeen: nat
    var weightVersion: nat
    var samplesStarted: nat
    var epoch: nat
    var datasetIndex: nat
    var pending: nat
    var shards: map<nat, Snapshot>
    /** History only: the prompts sent so far in this line of incarnations. */
    var dispatched: set<(nat, nat)>

    ghost function View(): Rollout
      reads this
    {
      Rollout(gatesSeen, weightVersion, samplesStarted, Cursor(epoch, datasetIndex, pending, dispatched), Generating, shards)
    }

    ghost predicate Valid()
      reads this
    {
      params.Valid() && pending <= datasetIndex
    }

    /** A fresh worker over the shards found on disk. */
    constructor (params: Params, resumeStep: nat, shards: map<nat, Snapshot>)
      requires params.Valid()
      ensures Valid() && View() == Rollout(0, 0, 0, Cursor(0, 0, 0, {}), Generating, shards)
      ensures this.params == params && this.resumeStep == resumeStep
    {
      this.params, this.resumeStep, this.shards := params, resumeStep, shards;
      gatesSeen, weightVersion, samplesStarted := 0, 0, 0;
      epoch, datasetIndex, pending, dispatched := 0, 0, 0, {};
    }

    /** `_restore`. */
    method Restore() returns (res: Result<nat, RestoreError>)
      requires Valid()
      modifies this
      ensures Valid()
      ensures resumeStep == 0 ==> res.Ok? && View() == old(View())
      ensures resumeStep > 0 && resumeStep in old(shards) ==> res == Ok(resumeStep) && View() == RunModel.Restore(old(View()), resumeStep)
      ensures res.Ok? && resumeStep > 0 ==> gatesSeen == resumeStep && pending == 0 && shards == old(shards)
      ensures resumeStep > 0 && resumeStep in old(shards) ==>
        var snap := old(shards)[resumeStep];
        (samplesStarted == snap.started && weightVersion == snap.version && epoch == snap.epoch && datasetIndex == snap.index)
      ensures resumeStep > 0 && resumeStep !in old(shards) ==> res == Err(ShardMissing(resumeStep)) && View() == old(View())
    {
      if resumeStep == 0 { return Ok(0); }
      if resumeStep !in shards { return Err(ShardMissing(resumeStep)); }
      var snap := shards[resumeStep];
      epoch, datasetIndex, pending := snap.epoch, snap.index, 0;
      dispatched := snap.dispatched;
      samplesStarted, weightVersion := snap.started, snap.version;
      gatesSeen := resumeStep;
      return Ok(resumeStep);
    }

    /** `_snapshot`: commit, then drop all but the newest `keep`. */
    method Snapshot(step: nat)
      requires Valid()
      modifies this`shards
      ensures Valid()
      ensures shards == Trim(old(shards)[step := SnapshotOf(old(View()))], params.keep)
    {
      shards := shards[step := RunModel.Snapshot(gatesSeen, samplesStarted, weightVersion, epoch, datasetIndex, dispatched)];
      shards := TrimLoop(shards, params.keep);
    }

    /** `try_advance_gate`: `gates` is what the queue will deliver, in order. */
    method TryAdvanceGate(gates: seq<Gate>) returns (advanced: bool, rest: seq<Gate>)
      requires Valid()
      modifies this
      ensures Valid()
      ensures gates == [] ==> !advanced && rest == [] && View() == old(View())
      ensures gates != [] ==> advanced && rest == gates[1..] && View() == Advanced(params, old(View()), gates[0], resumeStep)
      ensures gates != [] ==> gatesSeen == old(gatesSeen) + 1 && weightVersion == gates[0].version
      ensures gates != [] && !(Due(params, gates[0].step) && gates[0].step > resumeStep) ==> shards == old(shards)
      ensures gates != [] && Due(params, gates[0].step) && gates[0].step > resumeStep ==>
        shards == Trim(old(shards)[gates[0].step := RunModel.Snapshot(gatesSeen, samplesStarted, weightVersion, epoch, datasetIndex, dispatched)], params.keep)
    {
      if gates == [] { return false, []; }
      var step := gates[0].step;
      gatesSeen := gatesSeen + 1;
      weightVersion := gates[0].version;
      if Due(params, step) && step > resumeStep {
        Snapshot(step);
      }
      return true, gates[1..];
    }

    /** `acquire_generation_slot`: the version a group may be generated with, `None`
        while the queue has nothing more to offer. A gate is read only when the
        budget of the gates before it is spent. */
    method AcquireGenerationSlot(num: int, gates: seq<Gate>) returns (slot: Result<Option<nat>, SlotError>, read: nat)
      requires Valid()
      modifies this
      ensures Valid() && read <= |gates|
      ensures num <= 0 ==> slot == Err(NotPositive) && read == 0 && View() == old(View())
      ensures num > 0 ==> slot.Ok?
      ensures var reached := AdvancedBy(params, old(View()), gates[..read], resumeStep);
        num > 0 ==>
          && (slot.value.None? <==> Short(params, reached, num))
          && (slot.value.None? ==> read == |gates| && View() == reached)
          && (slot.value.Some? ==> slot.value.value == reached.version && View() == reached.(started := reached.started + num))
      ensures forall k :: 0 <= k < read ==> Short(params, AdvancedBy(params, old(View()), gates[..k], resumeStep), num)
    {
      read := 0;
      if num <= 0 { return Err(NotPositive), 0; }
      ghost var start := View();
      while gatesSeen == 0 || samplesStarted + num > Budget(params, gatesSeen)
        invariant Valid() && read <= |gates| && View() == AdvancedBy(params, start, gates[..read], resumeStep)
        invariant forall k :: 0 <= k < read ==> Short(params, AdvancedBy(params, start, gates[..k], resumeStep), num)
        decreases |gates| - read
      {
        var advanced, rest := TryAdvanceGate(gates[read..]);
        if !advanced { return Ok(None), read; }
        assert gates[..read + 1][..read] == gates[..read];
        read := read + 1;
      }
      samplesStarted := samplesStarted + num;
      return Ok(Some(weightVersion)), read;
    }

    /** The next prompts of the epoch are taken from the dataset. */
    method TakePrompts(count: nat)
      requires Valid() && pending == 0
      modifies this
      ensures Valid() && View() == old(View()).(cursor := old(View()).cursor.(index := old(datasetIndex) + count, pending := count))
    {
      datasetIndex, pending := datasetIndex + count, count;
    }

    /** A new epoch starts at its first prompt, a resumed one where its shard stood. */
    method BeginEpoch(next: nat, resuming: bool)
      requires Valid() && pending == 0
      modifies this
      ensures Valid()
      ensures View() == old(View()).(cursor := old(View()).cursor.(epoch := next, index := if resuming then old(datasetIndex) else 0))
    {
      epoch := next;
      if !resuming { datasetIndex := 0; }
    }

    /** One prompt of the batch is handed to a generation task, as a run of the model
        that ends in starting it; `None` while the gates do not suffice. */
    method Dispatch(gates: seq<Gate>, ghost s: State) returns (version: Option<nat>, read: nat, ghost steps: seq<Step>, ghost end: State)
      requires Valid() && pending > 0
      requires s.up && s.rollout == View() && s.queue == gates && s.resume == resumeStep
      modifies this
      ensures Valid() && read <= |gates|
      ensures forall k :: 0 <= k < read ==> Short(params, AdvancedBy(params, old(View()), gates[..k], resumeStep), params.group)
      ensures var reached := AdvancedBy(params, old(View()), gates[..read], resumeStep);
        && (version.None? <==> MustRead(params, reached))
        && (version.None? ==> View() == reached && read == |gates|)
        && (version.Some? ==>
          && version.value == reached.version
          && 0 < reached.cursor.pending <= reached.cursor.index && View() == StartGroup(params, reached))
      ensures Run(params, s, steps, end) && end.rollout == View() && end.queue == gates[read..]
      ensures version.Some? ==> steps != [] && steps[|steps| - 1] == StartPrompt
      ensures version.Some? ==> end.tags == s.tags + seq(params.group, _ => version.value)
      ensures version.None? ==> StartPrompt !in steps
    {
      hide Run, Advanced;
      ghost var start := View();
      var slot;
      slot, read := AcquireGenerationSlot(params.group, gates);
      AdvancingKeepsTheCursor(params, start, gates[..read], resumeStep);
      version := slot.value;
      steps := AcquiringIsARun(params, s, read);
      end := s.(rollout := AdvancedBy(params, start, gates[..read], resumeStep), queue := gates[read..]);
      if version.Some? {
        ghost var waiting, front := end, steps;
        end := StartsTheGroup(params, s, front, waiting);
        steps := front + [StartPrompt];
        dispatched := dispatched + {(epoch, datasetIndex - pending)};
        pending := pending - 1;
      }
    }
  }

  /** Whether a request for `num` samples has to wait for a gate. */
  predicate Short(p: Params, r: Rollout, num: int) {
    r.gatesSeen == 0 || r.started + num > Budget(p, r.gatesSeen)
  }

  /** Reading gates moves no prompt and starts no sample. */
  lemma {:induction false} AdvancingKeepsTheCursor(p: Params, before: Rollout, gates: seq<Gate>, resume: nat)
    requires before.stage == Generating
    ensures var after := AdvancedBy(p, before, gates, resume);
      && after.cursor == before.cursor && after.started == before.started && after.stage == Generating
      && after.gatesSeen == before.gatesSeen + |gates|
    decreases |gates|
  {
    if gates != [] { AdvancingKeepsTheCursor(p, before, gates[..|gates| - 1], resume); }
  }

  // ---- the worker's methods are steps of the run ---------------------------------------------

  /** The pruning loop is a sequence of single removals of the run model. */
  lemma {:induction false} TrimmingIsARun(p: Params, s: State) returns (steps: seq<Step>)
    requires s.up && s.rollout.stage == Trimming
    ensures Run(p, s, steps, s.(rollout := s.rollout.(shards := Trim(s.rollout.shards, p.keep), stage := Generating)))
    ensures StartPrompt !in steps
    decreases |s.rollout.shards|
  {
    if |s.rollout.shards| > p.keep {
      KeyCount(s.rollout.shards);
      var oldest := OldestOf(s.rollout.shards.Keys);
      WithoutOne(s.rollout.shards, oldest);
      var next := Apply(p, s, PruneRollout(oldest));
      var rest := TrimmingIsARun(p, next);
      steps := [PruneRollout(oldest)] + rest;
    } else {
      steps := [PruneRollout(0)];
      assert Apply(p, s, steps[0]) == s.(rollout := s.rollout.(stage := Generating));
    }
  }

  /** One `try_advance_gate` is a run: read, commit at a boundary, prune. */
  lemma AdvanceIsARun(p: Params, s: State) returns (steps: seq<Step>)
    requires Enabled(p, s, ReadGate)
    ensures Run(p, s, steps, s.(rollout := Advanced(p, s.rollout, s.queue[0], s.resume), queue := s.queue[1..]))
    ensures StartPrompt !in steps
  {
    hide Trim;
    var read := Apply(p, s, ReadGate);
    if read.rollout.stage.Snapshotting? {
      var committed := Apply(p, read, CommitRollout);
      var rest := TrimmingIsARun(p, committed);
      steps := [ReadGate] + ([CommitRollout] + rest);
      assert steps[1..] == [CommitRollout] + rest && steps[1..][1..] == rest;
    } else {
      steps := [ReadGate];
    }
  }

  lemma {:induction false} RunsJoin(p: Params, s: State, first: seq<Step>, mid: State, second: seq<Step>, end: State)
    requires Run(p, s, first, mid) && Run(p, mid, second, end)
    ensures Run(p, s, first + second, end)
    decreases |first|
  {
    hide Enabled, Apply;
    if first == [] {
      assert first + second == second;
    } else {
      RunsJoin(p, Apply(p, s, first[0]), first[1..], mid, second, end);
      assert (first + second)[1..] == first[1..] + second;
    }
  }

  /** The acquire loop for a waiting prompt is a run: every gate it reads is one the
      model lets the rollout read. */
  lemma {:induction false} AcquiringIsARun(p: Params, s: State, read: nat) returns (steps: seq<Step>)
    requires s.up && s.rollout.stage == Generating && 0 < s.rollout.cursor.pending <= s.rollout.cursor.index && read <= |s.queue|
    requires forall k :: 0 <= k < read ==> Short(p, AdvancedBy(p, s.rollout, s.queue[..k], s.resume), p.group)
    ensures Run(p, s, steps, s.(rollout := AdvancedBy(p, s.rollout, s.queue[..read], s.resume), queue := s.queue[read..]))
    ensures StartPrompt !in steps
    decreases read
  {
    hide Apply, Advanced;
    if read == 0 {
      steps := [];
      assert s.(rollout := AdvancedBy(p, s.rollout, s.queue[..0], s.resume), queue := s.queue[0..]) == s;
    } else {
      var first := AcquiringIsARun(p, s, read - 1);
      var mid := s.(rollout := AdvancedBy(p, s.rollout, s.queue[..read - 1], s.resume), queue := s.queue[read - 1..]);
      AdvancingKeepsTheCursor(p, s.rollout, s.queue[..read - 1], s.resume);
      assert Short(p, mid.rollout, p.group);
      var second := AdvanceIsARun(p, mid);
      assert s.queue[..read][..read - 1] == s.queue[..read - 1] && mid.queue[1..] == s.queue[read..];
      steps := first + second;
      RunsJoin(p, s, first, mid, second, s.(rollout := AdvancedBy(p, s.rollout, s.queue[..read], s.resume), queue := s.queue[read..]));
    }
  }

  /** With budget for a group the waiting prompt is started. */
  lemma StartsTheGroup(p: Params, s: State, steps: seq<Step>, waiting: State) returns (end: State)
    requires Run(p, s, steps, waiting) && waiting.up && waiting.rollout.stage == Generating && !MustRead(p, waiting.rollout)
    requires 0 < waiting.rollout.cursor.pending <= waiting.rollout.cursor.index
    ensures Run(p, s, steps + [StartPrompt], end)
    ensures end.rollout == StartGroup(p, waiting.rollout) && end.queue == waiting.queue
    ensures end.tags == waiting.tags + seq(p.group, _ => waiting.rollout.version)
  {
    end := Apply(p, waiting, StartPrompt);
    assert [StartPrompt][1..] == [];
    assert Run(p, waiting, [StartPrompt], end);
    RunsJoin(p, s, steps, waiting, [StartPrompt], end);
  }
}

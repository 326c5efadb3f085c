/** The shard store on disk: commit order, pruning, dropping and the search for the
    resume point, at every point where a process may die
    (meshy/service/checkpoint.py). */
module StateStore {
  /** A directory the collective writer has not begun, is writing or removing, or has finished. */
  datatype Heavy = Absent | Partial | Full

  datatype Files = Files(marker: bool, meta: bool, heavy: Heavy)

  type Key = (string, nat)

  type Disk = map<Key, Files>

  const NO_FILES := Files(false, false, Absent)

  function At(disk: Disk, key: Key): Files {
    if key in disk then disk[key] else NO_FILES
  }

  predicate Marked(disk: Disk, service: string, step: nat) {
    At(disk, (service, step)).marker
  }

  /** A marker promises metadata and, for services that have one, a finished directory. */
  ghost predicate Safe(disk: Disk, heavy: set<string>) {
    forall service, step :: Marked(disk, service, step) ==>
      At(disk, (service, step)).meta && (service in heavy ==> At(disk, (service, step)).heavy == Full)
  }

  ghost predicate SafeThroughout(log: seq<Disk>, heavy: set<string>) {
    forall i :: 0 <= i < |log| ==> Safe(log[i], heavy)
  }

  /** `later` differs from `disk` only by losing files of the given shards. */
  ghost predicate Shrunk(disk: Disk, later: Disk, lost: set<Key>) {
    && (forall key :: key !in lost ==> At(later, key) == At(disk, key))
    && (forall key :: At(later, key).marker ==> At(disk, key).marker)
  }

  ghost predicate ShrunkThroughout(disk: Disk, log: seq<Disk>, from: nat, lost: set<Key>) {
    forall i :: from <= i < |log| ==> Shrunk(disk, log[i], lost)
  }

  function MarkedSteps(disk: Disk, service: string): (steps: set<nat>)
    ensures forall step :: step in steps <==> Marked(disk, service, step)
  {
    set key | key in disk && key.0 == service && disk[key].marker :: key.1
  }

  predicate Ascending(steps: seq<nat>) {
    forall i, j :: 0 <= i < j < |steps| ==> steps[i] < steps[j]
  }

  /** The shards of the given steps of one service. */
  function KeysOf(service: string, steps: seq<nat>): (keys: set<Key>)
    ensures forall s, step: nat :: (s, step) in keys <==> s == service && step in steps
  {
    set i | 0 <= i < |steps| :: (service, steps[i])
  }

  /** The given steps are lost in order, each only after those in front of it. */
  ghost predicate InOrder(disk: Disk, service: string, steps: seq<nat>) {
    forall i, j :: 0 <= i < j < |steps| && Marked(disk, service, steps[i]) ==> Marked(disk, service, steps[j])
  }

  /** `some` is what is left of `all` when the oldest have gone. */
  ghost predicate NewestOf(all: set<nat>, some: set<nat>) {
    some <= all && forall gone, kept :: gone in all && gone !in some && kept in some ==> gone < kept
  }

  /** Only files of this one shard differ. */
  ghost predicate OnlyAt(disk: Disk, later: Disk, service: string, step: nat) {
    forall key :: key != (service, step) ==> At(later, key) == At(disk, key)
  }

  /** Nothing of another service differs. */
  ghost predicate OnlyOf(disk: Disk, later: Disk, service: string) {
    forall name: string, n: nat :: name != service ==> At(later, (name, n)) == At(disk, (name, n))
  }

  lemma ShrunkTwice(a: Disk, b: Disk, c: Disk, lost: set<Key>, more: set<Key>)
    requires Shrunk(a, b, lost) && Shrunk(b, c, more)
    ensures Shrunk(a, c, lost + more)
  {
  }

  function Insert(sorted: seq<nat>, x: nat): (r: seq<nat>)
    requires Ascending(sorted) && x !in sorted
    ensures Ascending(r) && |r| == |sorted| + 1
    ensures forall step :: step in r <==> step == x || step in sorted
  {
    if sorted == [] || x < sorted[0] then [x] + sorted
    else
      assert sorted == [sorted[0]] + sorted[1..];
      var rest := Insert(sorted[1..], x);
      assert forall k :: 0 <= k < |rest| ==> rest[k] in rest;
      [sorted[0]] + rest
  }

  method SortSteps(steps: set<nat>) returns (sorted: seq<nat>)
    ensures Ascending(sorted) && forall step :: step in sorted <==> step in steps
  {
    sorted := [];
    var rest := steps;
    while rest != {}
      invariant rest <= steps && Ascending(sorted)
      invariant forall step :: step in sorted <==> step in steps && step !in rest
      decreases |rest|
    {
      var x :| x in rest;
      sorted := Insert(sorted, x);
      rest := rest - {x};
    }
  }

  /** The store of one run. `log` is the history of every state the disk went
      through: a crash leaves one of them. */
  class Store {
    const heavy: set<string>
    var disk: Disk
    ghost var log: seq<Disk>

    ghost predicate Logged()
      reads this
    {
      log != [] && log[|log| - 1] == disk
    }

    /** No state a crash could have left was ever unsafe. */
    ghost predicate Valid()
      reads this
    {
      Logged() && SafeThroughout(log, heavy)
    }

    constructor (heavy: set<string>)
      ensures Valid() && disk == map[] && log == [map[]] && this.heavy == heavy
    {
      this.heavy := heavy;
      disk := map[];
      log := [map[]];
    }

    /** One file operation. */
    method Put(service: string, step: nat, files: Files)
      requires Logged()
      modifies this
      ensures Logged() && disk == old(disk)[(service, step) := files] && log == old(log) + [disk]
      ensures Valid() <==> old(Valid()) && Safe(disk, heavy)
    {
      disk := disk[(service, step) := files];
      log := log + [disk];
      assert forall i :: 0 <= i < |old(log)| ==> log[i] == old(log)[i];
      assert log[|log| - 1] == disk;
    }

    /** The collective write of a heavy shard. It is safe exactly when the step is not
        committed: for a while the directory is incomplete. */
    method WriteHeavy(service: string, step: nat)
      requires Valid()
      modifies this
      ensures Logged() && disk == old(disk)[(service, step) := At(old(disk), (service, step)).(heavy := Full)]
      ensures Valid() <==> service !in heavy || !Marked(old(disk), service, step)
      ensures old(log) <= log && forall i :: old(|log|) <= i < |log| ==>
        OnlyAt(old(disk), log[i], service, step) && (Marked(log[i], service, step) <==> Marked(old(disk), service, step))
    {
      ghost var before := disk;
      RewritingIsUnsafe(disk, service, step, heavy);
      Put(service, step, At(disk, (service, step)).(heavy := Partial));
      FinishingIsSafe(before, service, step, heavy);
      Put(service, step, At(disk, (service, step)).(heavy := Full));
      assert disk == before[(service, step) := At(before, (service, step)).(heavy := Full)];
    }

    /** `write_meta`: the temporary file is invisible, the rename is atomic. */
    method WriteMeta(service: string, step: nat)
      requires Valid()
      modifies this
      ensures Valid() && disk == old(disk)[(service, step) := At(old(disk), (service, step)).(meta := true)]
      ensures log == old(log) + [disk]
    {
      MoreMetaIsSafe(disk, service, step, heavy);
      Put(service, step, At(disk, (service, step)).(meta := true));
    }

    /** `mark_complete`: the commit point. It checks nothing, so it is safe exactly
        when the metadata and, where there is one, the directory are finished. */
    method MarkComplete(service: string, step: nat)
      requires Valid()
      modifies this
      ensures Logged() && disk == old(disk)[(service, step) := At(old(disk), (service, step)).(marker := true)]
      ensures Valid() <==>
        At(old(disk), (service, step)).meta && (service in heavy ==> At(old(disk), (service, step)).heavy == Full)
      ensures log == old(log) + [disk]
    {
      CommitIsSafe(disk, service, step, heavy);
      Put(service, step, At(disk, (service, step)).(marker := true));
    }

    /** The shard of one step, in the order every role writes it: directory, metadata,
        marker, then the oldest shards make room. It asks for nothing but a step that
        is not committed yet; rewriting a committed light shard is harmless too. */
    method SaveShard(service: string, step: nat, keepLatest: int) returns (stale: seq<nat>)
      requires Valid() && (service in heavy ==> !Marked(disk, service, step))
      modifies this
      ensures Valid() && old(log) <= log
      ensures OnlyOf(old(disk), disk, service)
      ensures forall i :: old(|log|) <= i < |log| ==> OnlyOf(old(disk), log[i], service)
      ensures var all := MarkedSteps(old(disk), service) + {step};
        && NewestOf(all, MarkedSteps(disk, service))
        && |MarkedSteps(disk, service)| == (if 0 < keepLatest < |all| then keepLatest else |all|)
        && forall i :: old(|log|) <= i < |log| ==>
             || MarkedSteps(log[i], service) == MarkedSteps(old(disk), service)
             || (NewestOf(all, MarkedSteps(log[i], service)) && MarkedSteps(disk, service) <= MarkedSteps(log[i], service))
      ensures (forall n: nat :: Marked(old(disk), service, n) ==> n <= step) ==>
        Marked(disk, service, step) && At(disk, (service, step)).meta && (service in heavy ==> At(disk, (service, step)).heavy == Full)
    {
      hide Safe, SafeThroughout, MarkedSteps, Shrunk, Marked;
      ghost var before, logged := disk, |log|;
      CommitShard(service, step);
      ghost var committed, written := disk, log;
      stale := Prune(service, keepLatest);
      ghost var all := MarkedSteps(before, service) + {step};
      forall i | logged <= i < |log| ensures OnlyOf(before, log[i], service)
        && (MarkedSteps(log[i], service) == MarkedSteps(before, service)
            || (NewestOf(all, MarkedSteps(log[i], service)) && MarkedSteps(disk, service) <= MarkedSteps(log[i], service)))
      {
        if i < |written| {
          assert log[i] == written[i];
          AllIsNewest(all);
        } else {
          ShrunkIsOnlyOf(before, committed, log[i], service, stale);
        }
      }
      ShrunkIsOnlyOf(before, committed, disk, service, stale);
      if forall n: nat :: Marked(before, service, n) ==> n <= step {
        NewestStays(all, MarkedSteps(disk, service), step);
        ValidMeansSafe();
      }
    }

    /** Directory, metadata, marker. */
    method CommitShard(service: string, step: nat)
      requires Valid() && (service in heavy ==> !Marked(disk, service, step))
      modifies this
      ensures Valid() && old(log) <= log
      ensures OnlyOf(old(disk), disk, service) && MarkedSteps(disk, service) == MarkedSteps(old(disk), service) + {step}
      ensures forall i :: old(|log|) <= i < |log| ==>
        && OnlyOf(old(disk), log[i], service)
        && MarkedSteps(log[i], service) in {MarkedSteps(old(disk), service), MarkedSteps(disk, service)}
    {
      hide Safe, SafeThroughout, MarkedSteps, Marked, OnlyOf;
      ghost var before, logged := disk, |log|;
      if service in heavy {
        WriteHeavy(service, step);
      }
      WriteMeta(service, step);
      ghost var written, ready := log, disk;
      MetaKeepsMarks(before, ready, service, step);
      MarkComplete(service, step);
      CommitAddsTheStep(before, ready, disk, service, step);
      forall i | logged <= i < |log|
        ensures OnlyOf(before, log[i], service)
        ensures MarkedSteps(log[i], service) in {MarkedSteps(before, service), MarkedSteps(disk, service)}
      {
        if i < |written| {
          assert log[i] == written[i];
          SameMarks(before, log[i], service, step);
        } else {
          assert log[i] == disk;
        }
      }
    }

    lemma ValidMeansSafe()
      requires Valid()
      ensures forall service, step :: Marked(disk, service, step) ==>
        At(disk, (service, step)).meta && (service in heavy ==> At(disk, (service, step)).heavy == Full)
    {
      assert Safe(log[|log| - 1], heavy);
    }

    /** `drop`: marker first, so that a partial delete is never adopted. */
    method Drop(service: string, step: nat)
      requires Valid()
      modifies this
      ensures Valid() && At(disk, (service, step)) == NO_FILES && Shrunk(old(disk), disk, {(service, step)})
      ensures old(log) <= log && ShrunkThroughout(old(disk), log, old(|log|), {(service, step)})
      ensures forall i :: old(|log|) <= i < |log| ==> !Marked(log[i], service, step)
    {
      ghost var before := disk;
      var files := At(disk, (service, step));
      StepwiseShrink(before, before, service, step, files.(marker := false), heavy);
      Put(service, step, files.(marker := false));
      StepwiseShrink(before, disk, service, step, files.(marker := false, meta := false), heavy);
      Put(service, step, files.(marker := false, meta := false));
      StepwiseShrink(before, disk, service, step, Files(false, false, Partial), heavy);
      Put(service, step, Files(false, false, Partial));
      StepwiseShrink(before, disk, service, step, NO_FILES, heavy);
      Put(service, step, NO_FILES);
    }

    /** `complete_steps`, ascending. */
    method CompleteSteps(service: string) returns (steps: seq<nat>)
      ensures Ascending(steps) && forall step :: step in steps <==> Marked(disk, service, step)
    {
      steps := SortSteps(MarkedSteps(disk, service));
    }

    /** Drops the given shards one after another. */
    method DropAll(service: string, stale: seq<nat>)
      requires Valid()
      modifies this
      ensures Valid() && Shrunk(old(disk), disk, KeysOf(service, stale))
      ensures forall step :: step in stale ==> At(disk, (service, step)) == NO_FILES
      ensures old(log) <= log && ShrunkThroughout(old(disk), log, old(|log|), KeysOf(service, stale))
      ensures Ascending(stale) && (forall step :: step in stale ==> Marked(old(disk), service, step)) ==>
        InOrder(disk, service, stale) && forall i :: old(|log|) <= i < |log| ==> InOrder(log[i], service, stale)
    {
      hide Safe, SafeThroughout, Ascending, KeysOf, Shrunk;
      ghost var before, logged := disk, |log|;
      ghost var ordered := Ascending(stale) && forall step :: step in stale ==> Marked(before, service, step);
      ShrunkByNothing(before, KeysOf(service, stale));
      for i := 0 to |stale|
        invariant Valid() && Shrunk(before, disk, KeysOf(service, stale))
        invariant forall k :: 0 <= k < i ==> At(disk, (service, stale[k])) == NO_FILES
        invariant ordered ==> forall k :: i <= k < |stale| ==> Marked(disk, service, stale[k])
        invariant old(log) <= log && ShrunkThroughout(before, log, logged, KeysOf(service, stale))
        invariant ordered ==> forall k :: logged <= k < |log| ==> InOrder(log[k], service, stale)
      {
        ghost var here, reached := disk, |log|;
        Drop(service, stale[i]);
        forall k | reached <= k < |log|
          ensures Shrunk(before, log[k], KeysOf(service, stale)) && (ordered ==> InOrder(log[k], service, stale))
        {
          OneMoreDropped(before, here, log[k], service, stale, i);
        }
        OneMoreDropped(before, here, disk, service, stale, i);
        GoneStaysGone(here, disk, service, stale, i);
      }
    }

    /** `prune`: all but the newest `keepLatest` committed steps of one service; at no
        point is one of those, or anything of another service, touched. */
    method Prune(service: string, keepLatest: int) returns (stale: seq<nat>)
      requires Valid()
      modifies this
      ensures Valid() && old(log) <= log
      ensures Ascending(stale) && forall step :: step in stale ==> Marked(old(disk), service, step)
      ensures forall step :: step in stale ==> At(disk, (service, step)) == NO_FILES
      ensures keepLatest <= 0 ==> stale == [] && disk == old(disk)
      ensures keepLatest > 0 ==> forall step :: Marked(disk, service, step) <==> Marked(old(disk), service, step) && step !in stale
      ensures keepLatest > 0 ==> |MarkedSteps(disk, service)| <= keepLatest
      ensures keepLatest > 0 && stale != [] ==> |MarkedSteps(disk, service)| == keepLatest
      ensures forall gone: nat, kept: nat :: gone in stale && Marked(disk, service, kept) ==> gone < kept
      ensures Shrunk(old(disk), disk, KeysOf(service, stale))
      ensures ShrunkThroughout(old(disk), log, old(|log|), KeysOf(service, stale))
      ensures NewestOf(MarkedSteps(old(disk), service), MarkedSteps(disk, service))
      ensures |MarkedSteps(disk, service)|
        == (var count := |MarkedSteps(old(disk), service)|; if 0 < keepLatest < count then keepLatest else count)
      ensures forall i :: old(|log|) <= i < |log| ==>
        && NewestOf(MarkedSteps(old(disk), service), MarkedSteps(log[i], service))
        && MarkedSteps(disk, service) <= MarkedSteps(log[i], service)
    {
      hide Safe, SafeThroughout, Shrunk, Ascending, KeysOf, InOrder;
      if keepLatest <= 0 {
        NothingPruned(disk, service);
        return [];
      }
      var steps := CompleteSteps(service);
      stale := if |steps| > keepLatest then steps[..|steps| - keepLatest] else [];
      ghost var before := disk;
      StaleAreOldest(steps, stale, keepLatest);
      DropAll(service, stale);
      PruneLeavesTheNewest(before, disk, service, steps, stale, keepLatest);
      CountMarks(before, service, steps);
      forall i | old(|log|) <= i < |log|
        ensures NewestOf(MarkedSteps(before, service), MarkedSteps(log[i], service)) && MarkedSteps(disk, service) <= MarkedSteps(log[i], service)
      {
        OldestGoFirst(before, log[i], service, steps, stale, keepLatest);
        FewerAtTheEnd(before, disk, log[i], service, stale);
      }
      OldestGoFirst(before, disk, service, steps, stale, keepLatest);
    }

    /** `drop_newer_than`, service by service: committed shards past the resume point go. */
    method DropNewerThan(services: seq<string>, step: nat)
      requires Valid()
      modifies this
      ensures Valid() && old(log) <= log
      ensures forall name, n: nat :: name in services && n > step ==> !Marked(disk, name, n)
      ensures forall name, n: nat :: Marked(old(disk), name, n) && !Marked(disk, name, n) ==> At(disk, (name, n)) == NO_FILES
      ensures forall name: string, n: nat :: n <= step ==> At(disk, (name, n)) == At(old(disk), (name, n))
      ensures forall i :: old(|log|) <= i < |log| ==> TailDropped(old(disk), log[i], step)
      ensures TailDropped(old(disk), disk, step)
    {
      ghost var before, logged := disk, |log|;
      for i := 0 to |services|
        invariant Valid() && old(log) <= log && TailDropped(before, disk, step)
        invariant forall k, n: nat :: 0 <= k < i && n > step ==> !Marked(disk, services[k], n)
        invariant forall name, n: nat :: Marked(before, name, n) && !Marked(disk, name, n) ==> At(disk, (name, n)) == NO_FILES
        invariant forall k :: logged <= k < |log| ==> TailDropped(before, log[k], step)
      {
        ghost var here, reached := disk, |log|;
        var committed := CompleteSteps(services[i]);
        var stale := Above(committed, step);
        DropAll(services[i], stale);
        forall k | reached <= k < |log| ensures TailDropped(before, log[k], step) {
          TailOnly(before, here, log[k], services[i], stale, step);
        }
        TailOnly(before, here, disk, services[i], stale, step);
        OnlyLosses(here, disk, KeysOf(services[i], stale));
        LostAreGone(before, here, disk, services[i], stale);
        forall n | n > step ensures !Marked(disk, services[i], n) {
          if Marked(here, services[i], n) { assert n in stale; }
        }
      }
    }
  }

  lemma OnlyLosses(disk: Disk, later: Disk, lost: set<Key>)
    requires Shrunk(disk, later, lost)
    ensures forall name: string, n: nat :: Marked(later, name, n) ==> Marked(disk, name, n)
  {
  }

  lemma GoneStaysGone(here: Disk, later: Disk, service: string, stale: seq<nat>, i: nat)
    requires i < |stale| && Shrunk(here, later, {(service, stale[i])}) && At(later, (service, stale[i])) == NO_FILES
    requires forall k :: 0 <= k < i ==> At(here, (service, stale[k])) == NO_FILES
    ensures forall k :: 0 <= k <= i ==> At(later, (service, stale[k])) == NO_FILES
  {
    forall k | 0 <= k < i ensures At(later, (service, stale[k])) == NO_FILES {
      if stale[k] != stale[i] { assert (service, stale[k]) !in {(service, stale[i])}; }
    }
  }

  lemma LostAreGone(before: Disk, here: Disk, later: Disk, service: string, stale: seq<nat>)
    requires Shrunk(here, later, KeysOf(service, stale))
    requires forall step :: step in stale ==> At(later, (service, step)) == NO_FILES
    requires forall name, n: nat :: Marked(before, name, n) && !Marked(here, name, n) ==> At(here, (name, n)) == NO_FILES
    ensures forall name, n: nat :: Marked(before, name, n) && !Marked(later, name, n) ==> At(later, (name, n)) == NO_FILES
  {
    forall name: string, n: nat | Marked(before, name, n) && !Marked(later, name, n) ensures At(later, (name, n)) == NO_FILES {
      if (name, n) !in KeysOf(service, stale) { assert At(later, (name, n)) == At(here, (name, n)); }
    }
  }

  lemma ShrunkByNothing(disk: Disk, lost: set<Key>)
    ensures Shrunk(disk, disk, lost)
  {
  }

  lemma OneMoreDropped(before: Disk, here: Disk, later: Disk, service: string, stale: seq<nat>, i: nat)
    requires i < |stale| && Shrunk(before, here, KeysOf(service, stale)) && Shrunk(here, later, {(service, stale[i])})
    requires !Marked(later, service, stale[i]) && forall k :: 0 <= k < i ==> !Marked(here, service, stale[k])
    ensures Shrunk(before, later, KeysOf(service, stale))
    ensures forall k :: 0 <= k <= i ==> !Marked(later, service, stale[k])
    ensures Ascending(stale) && (forall k :: i <= k < |stale| ==> Marked(here, service, stale[k])) ==>
      && (forall k :: i < k < |stale| ==> Marked(later, service, stale[k]))
      && InOrder(later, service, stale)
  {
    assert KeysOf(service, stale) + {(service, stale[i])} == KeysOf(service, stale);
    ShrunkTwice(before, here, later, KeysOf(service, stale), {(service, stale[i])});
    forall k | i < k < |stale| && Ascending(stale) && Marked(here, service, stale[k]) ensures Marked(later, service, stale[k]) {
      assert (service, stale[k]) !in {(service, stale[i])};
    }
  }

  /** A disk on the way of the pruning still holds the newest steps. */
  lemma OldestGoFirst(before: Disk, later: Disk, service: string, steps: seq<nat>, stale: seq<nat>, keepLatest: int)
    requires keepLatest > 0 && Ascending(steps) && stale == (if |steps| > keepLatest then steps[..|steps| - keepLatest] else [])
    requires forall step :: step in steps <==> Marked(before, service, step)
    requires Shrunk(before, later, KeysOf(service, stale)) && InOrder(later, service, stale)
    ensures NewestOf(MarkedSteps(before, service), MarkedSteps(later, service))
  {
    hide Shrunk, KeysOf, MarkedSteps;
    var kept := if |steps| > keepLatest then steps[|steps| - keepLatest..] else steps;
    assert steps == stale + kept;
    FrontIsSmaller(stale, kept);
    LostAreStale(before, later, service, stale);
    forall gone: nat, left: nat | Marked(before, service, gone) && !Marked(later, service, gone) && Marked(later, service, left)
      ensures gone < left
    {
      assert gone in stale && (left in stale || left in kept);
      if left in stale {
        var i :| 0 <= i < |stale| && stale[i] == gone;
        var j :| 0 <= j < |stale| && stale[j] == left;
        assert i < j;
      }
    }
  }

  lemma CountMarks(disk: Disk, service: string, steps: seq<nat>)
    requires Ascending(steps) && forall step :: step in steps <==> Marked(disk, service, step)
    ensures |MarkedSteps(disk, service)| == |steps|
  {
    AscendingSize(steps);
    assert StepSet(steps) == MarkedSteps(disk, service);
  }

  lemma LostAreStale(before: Disk, later: Disk, service: string, stale: seq<nat>)
    requires Shrunk(before, later, KeysOf(service, stale))
    ensures forall step :: Marked(later, service, step) ==> Marked(before, service, step)
    ensures forall step :: Marked(before, service, step) && !Marked(later, service, step) ==> step in stale
  {
    forall step: nat ensures Marked(before, service, step) && !Marked(later, service, step) ==> step in stale {
      assert (service, step) in KeysOf(service, stale) <==> step in stale;
    }
  }

  lemma FewerAtTheEnd(before: Disk, end: Disk, later: Disk, service: string, stale: seq<nat>)
    requires Shrunk(before, later, KeysOf(service, stale))
    requires forall step :: Marked(end, service, step) ==> Marked(before, service, step) && step !in stale
    ensures MarkedSteps(end, service) <= MarkedSteps(later, service)
  {
    LostAreStale(before, later, service, stale);
  }

  lemma NothingPruned(disk: Disk, service: string)
    ensures Ascending([]) && Shrunk(disk, disk, KeysOf(service, []))
  {
  }

  lemma AllIsNewest(all: set<nat>)
    ensures NewestOf(all, all)
  {
  }

  lemma MetaKeepsMarks(disk: Disk, ready: Disk, service: string, step: nat)
    requires
      || ready == disk[(service, step) := At(disk, (service, step)).(meta := true)]
      || ready == disk[(service, step) := At(disk, (service, step)).(heavy := Full, meta := true)]
    ensures OnlyAt(disk, ready, service, step) && (Marked(ready, service, step) <==> Marked(disk, service, step))
  {
  }

  lemma SameMarks(disk: Disk, later: Disk, service: string, step: nat)
    requires OnlyAt(disk, later, service, step) && (Marked(later, service, step) <==> Marked(disk, service, step))
    ensures MarkedSteps(later, service) == MarkedSteps(disk, service) && OnlyOf(disk, later, service)
  {
    forall n: nat ensures Marked(later, service, n) <==> Marked(disk, service, n) {
      if n != step { assert At(later, (service, n)) == At(disk, (service, n)); }
    }
  }

  lemma CommitAddsTheStep(before: Disk, ready: Disk, committed: Disk, service: string, step: nat)
    requires OnlyAt(before, ready, service, step) && (Marked(ready, service, step) <==> Marked(before, service, step))
    requires committed == ready[(service, step) := At(ready, (service, step)).(marker := true)]
    ensures MarkedSteps(committed, service) == MarkedSteps(before, service) + {step} && OnlyOf(before, committed, service)
  {
    SameMarks(before, ready, service, step);
    forall n: nat ensures Marked(committed, service, n) <==> Marked(ready, service, n) || n == step {
    }
  }

  lemma ShrunkIsOnlyOf(before: Disk, committed: Disk, later: Disk, service: string, stale: seq<nat>)
    requires OnlyOf(before, committed, service) && Shrunk(committed, later, KeysOf(service, stale))
    ensures OnlyOf(before, later, service)
  {
    forall name: string, n: nat | name != service ensures At(later, (name, n)) == At(before, (name, n)) {
      assert (name, n) !in KeysOf(service, stale);
    }
  }

  lemma NewestStays(all: set<nat>, some: set<nat>, step: nat)
    requires NewestOf(all, some) && step in all && (forall n :: n in all ==> n <= step) && some != {}
    ensures step in some
  {
    var kept :| kept in some;
    assert step in some || step < kept;
  }

  lemma StaleAreOldest(steps: seq<nat>, stale: seq<nat>, keepLatest: int)
    requires keepLatest > 0 && Ascending(steps) && stale == (if |steps| > keepLatest then steps[..|steps| - keepLatest] else [])
    ensures Ascending(stale) && forall step :: step in stale ==> step in steps
  {
  }

  /** In an ascending list everything in front is smaller. */
  lemma FrontIsSmaller(front: seq<nat>, back: seq<nat>)
    requires Ascending(front + back)
    ensures Ascending(front) && Ascending(back)
    ensures forall a, b :: a in front && b in back ==> a < b
  {
    var whole := front + back;
    assert forall i :: 0 <= i < |front| ==> whole[i] == front[i];
    assert forall j :: 0 <= j < |back| ==> whole[|front| + j] == back[j];
    forall a, b | a in front && b in back ensures a < b {
      var i :| 0 <= i < |front| && front[i] == a;
      var j :| 0 <= j < |back| && back[j] == b;
      assert whole[i] < whole[|front| + j];
    }
  }

  lemma SurvivingMarks(before: Disk, after: Disk, service: string, stale: seq<nat>)
    requires Shrunk(before, after, KeysOf(service, stale)) && forall step :: step in stale ==> !Marked(after, service, step)
    ensures forall step :: Marked(after, service, step) <==> Marked(before, service, step) && step !in stale
  {
    forall step: nat ensures Marked(after, service, step) <==> Marked(before, service, step) && step !in stale {
      assert (service, step) in KeysOf(service, stale) <==> step in stale;
    }
  }

  lemma PruneLeavesTheNewest(before: Disk, after: Disk, service: string, steps: seq<nat>, stale: seq<nat>, keepLatest: int)
    requires keepLatest > 0 && Ascending(steps) && stale == (if |steps| > keepLatest then steps[..|steps| - keepLatest] else [])
    requires forall step :: step in steps <==> Marked(before, service, step)
    requires Shrunk(before, after, KeysOf(service, stale)) && forall step :: step in stale ==> !Marked(after, service, step)
    ensures forall step :: Marked(after, service, step) <==> Marked(before, service, step) && step !in stale
    ensures |MarkedSteps(after, service)| == if |steps| > keepLatest then keepLatest else |steps|
    ensures forall gone: nat, kept: nat :: gone in stale && Marked(after, service, kept) ==> gone < kept
  {
    hide Shrunk, KeysOf, Marked, MarkedSteps, StepSet, Ascending;
    var kept := if |steps| > keepLatest then steps[|steps| - keepLatest..] else steps;
    assert steps == stale + kept;
    SurvivingMarks(before, after, service, stale);
    FrontIsSmaller(stale, kept);
    AscendingSize(kept);
    KeptAreMarked(steps, stale, kept, MarkedSteps(after, service));
  }

  lemma KeptAreMarked(steps: seq<nat>, stale: seq<nat>, kept: seq<nat>, marked: set<nat>)
    requires steps == stale + kept && forall a, b :: a in stale && b in kept ==> a < b
    requires forall step :: step in marked <==> step in steps && step !in stale
    ensures marked == StepSet(kept) && forall step :: step in kept <==> step in marked
  {
    forall step: nat ensures step in kept <==> step in marked {
      assert step in steps <==> step in stale || step in kept;
    }
  }

  method Above(steps: seq<nat>, step: nat) returns (stale: seq<nat>)
    ensures forall n :: n in stale <==> n in steps && n > step
  {
    stale := [];
    for i := 0 to |steps|
      invariant forall n :: n in stale <==> n in steps[..i] && n > step
    {
      if steps[i] > step { stale := stale + [steps[i]]; }
    }
    assert steps[..|steps|] == steps;
  }

  function StepSet(steps: seq<nat>): (all: set<nat>)
    ensures forall step :: step in all <==> step in steps
  {
    if steps == [] then {} else StepSet(steps[..|steps| - 1]) + {steps[|steps| - 1]}
  }

  lemma {:induction false} AscendingSize(steps: seq<nat>)
    requires Ascending(steps)
    ensures |StepSet(steps)| == |steps|
  {
    if steps != [] {
      var k := |steps| - 1;
      AscendingSize(steps[..k]);
      assert steps[k] !in steps[..k];
    }
  }

  lemma UnmarkedIsSafe(disk: Disk, service: string, step: nat, files: Files, heavy: set<string>)
    requires Safe(disk, heavy) && !files.marker
    ensures Safe(disk[(service, step) := files], heavy)
  {
    var later := disk[(service, step) := files];
    forall s: string, n: nat | Marked(later, s, n)
      ensures At(later, (s, n)).meta && (s in heavy ==> At(later, (s, n)).heavy == Full)
    {
      assert Marked(disk, s, n);
    }
  }

  lemma MoreMetaIsSafe(disk: Disk, service: string, step: nat, heavy: set<string>)
    requires Safe(disk, heavy)
    ensures Safe(disk[(service, step) := At(disk, (service, step)).(meta := true)], heavy)
  {
    var later := disk[(service, step) := At(disk, (service, step)).(meta := true)];
    forall s: string, n: nat | Marked(later, s, n)
      ensures At(later, (s, n)).meta && (s in heavy ==> At(later, (s, n)).heavy == Full)
    {
      assert Marked(disk, s, n);
    }
  }

  /** A marker on a shard makes the disk unsafe exactly when something is missing. */
  lemma CommitIsSafe(disk: Disk, service: string, step: nat, heavy: set<string>)
    requires Safe(disk, heavy)
    ensures Safe(disk[(service, step) := At(disk, (service, step)).(marker := true)], heavy)
      <==> At(disk, (service, step)).meta && (service in heavy ==> At(disk, (service, step)).heavy == Full)
  {
    var later := disk[(service, step) := At(disk, (service, step)).(marker := true)];
    assert Marked(later, service, step);
    forall s: string, n: nat | Marked(later, s, n) && (s, n) != (service, step)
      ensures At(later, (s, n)).meta && (s in heavy ==> At(later, (s, n)).heavy == Full)
    {
      assert Marked(disk, s, n);
    }
  }

  /** Rewriting the directory of a committed heavy shard passes through an unsafe disk. */
  lemma RewritingIsUnsafe(disk: Disk, service: string, step: nat, heavy: set<string>)
    requires Safe(disk, heavy)
    ensures Safe(disk[(service, step) := At(disk, (service, step)).(heavy := Partial)], heavy)
      <==> service !in heavy || !Marked(disk, service, step)
  {
    var later := disk[(service, step) := At(disk, (service, step)).(heavy := Partial)];
    assert Marked(later, service, step) <==> Marked(disk, service, step);
    forall s: string, n: nat | Marked(later, s, n) && (s, n) != (service, step)
      ensures At(later, (s, n)).meta && (s in heavy ==> At(later, (s, n)).heavy == Full)
    {
      assert Marked(disk, s, n);
    }
  }

  lemma FinishingIsSafe(disk: Disk, service: string, step: nat, heavy: set<string>)
    requires Safe(disk, heavy)
    ensures Safe(disk[(service, step) := At(disk, (service, step)).(heavy := Full)], heavy)
    ensures var partial := disk[(service, step) := At(disk, (service, step)).(heavy := Partial)];
      partial[(service, step) := At(partial, (service, step)).(heavy := Full)] == disk[(service, step) := At(disk, (service, step)).(heavy := Full)]
  {
    var later := disk[(service, step) := At(disk, (service, step)).(heavy := Full)];
    forall s: string, n: nat | Marked(later, s, n)
      ensures At(later, (s, n)).meta && (s in heavy ==> At(later, (s, n)).heavy == Full)
    {
      assert Marked(disk, s, n);
    }
  }

  lemma StepwiseShrink(disk: Disk, here: Disk, service: string, step: nat, files: Files, heavy: set<string>)
    requires Safe(here, heavy) && Shrunk(disk, here, {(service, step)}) && !files.marker
    ensures Safe(here[(service, step) := files], heavy) && Shrunk(disk, here[(service, step) := files], {(service, step)})
  {
    UnmarkedIsSafe(here, service, step, files, heavy);
    var later := here[(service, step) := files];
    assert forall key :: key != (service, step) ==> At(later, key) == At(here, key);
  }

  // ---- the resume point ----------------------------------------------------------------------

  /** Every participant at `step` has committed it. */
  ghost predicate Complete(disk: Disk, participants: nat -> seq<string>, step: nat) {
    step > 0 && participants(step) != [] && forall name :: name in participants(step) ==> Marked(disk, name, step)
  }

  ghost predicate Newest(disk: Disk, participants: nat -> seq<string>, step: nat) {
    (step == 0 || Complete(disk, participants, step)) && forall later :: later > step ==> !Complete(disk, participants, later)
  }

  /** A disk on the way from `disk` to the state without shards past `step`. */
  ghost predicate TailDropped(disk: Disk, later: Disk, step: nat) {
    && (forall name: string, n: nat :: n <= step ==> At(later, (name, n)) == At(disk, (name, n)))
    && (forall name: string, n: nat :: Marked(later, name, n) ==> Marked(disk, name, n))
  }

  lemma TailOnly(before: Disk, here: Disk, later: Disk, service: string, stale: seq<nat>, step: nat)
    requires TailDropped(before, here, step) && Shrunk(here, later, KeysOf(service, stale))
    requires forall n :: n in stale ==> n > step
    ensures TailDropped(before, later, step)
  {
    forall name: string, n: nat | n <= step ensures At(later, (name, n)) == At(before, (name, n)) {
      assert (name, n) !in KeysOf(service, stale);
    }
  }

  /** Every point of `drop_newer_than(resume point)` resolves to the same step. */
  lemma DroppingTheTailKeepsTheAnswer(disk: Disk, later: Disk, participants: nat -> seq<string>, step: nat)
    requires Newest(disk, participants, step) && TailDropped(disk, later, step)
    ensures Newest(later, participants, step)
  {
    forall n: nat | n > step ensures !Complete(later, participants, n) {
      assert !Complete(disk, participants, n);
    }
    if step > 0 {
      forall name | name in participants(step) ensures Marked(later, name, step) {
        assert At(later, (name, step)) == At(disk, (name, step));
      }
    }
  }

  /** Whether every participant has committed `candidate`, one read per participant. */
  method AllMarked(required: seq<string>, candidate: nat, at: nat -> Disk, first: nat, ghost disk: Disk, ghost step: nat)
    returns (all: bool, looks: nat)
    requires forall i :: TailDropped(disk, at(i), step)
    ensures all ==> required != [] && forall name :: name in required ==> Marked(disk, name, candidate)
    ensures candidate <= step && required != [] && (forall name :: name in required ==> Marked(disk, name, candidate)) ==> all
  {
    hide TailDropped;
    looks := first;
    all := required != [];
    var j := 0;
    while all && j < |required|
      invariant j <= |required|
      invariant all ==> required != [] && forall k :: 0 <= k < j ==> Marked(disk, required[k], candidate)
      invariant !all ==> required == [] || candidate > step || exists name :: name in required && !Marked(disk, name, candidate)
    {
      TailMarks(disk, at(looks), required[j], step);
      if !Marked(at(looks), required[j], candidate) {
        all := false;
        assert required[j] in required;
      }
      looks := looks + 1;
      j := j + 1;
    }
  }

  /** `resolve_resume_step`. Each look at the directory is a separate read: `at(i)`
      is the disk as the i-th read finds it. */
  method Resolve(services: seq<string>, participants: nat -> seq<string>, at: nat -> Disk, ghost disk: Disk, ghost step: nat)
    returns (resolved: nat)
    requires Newest(disk, participants, step) && forall i :: TailDropped(disk, at(i), step)
    requires forall name, n :: Marked(disk, name, n) ==> name in services
    ensures resolved == step
  {
    hide TailDropped, Marked;
    var looks: nat := 0;
    var seen: set<nat> := {};
    for i := 0 to |services|
      invariant forall k, n: nat :: 0 <= k < i && n <= step && Marked(disk, services[k], n) ==> n in seen
    {
      TailMarks(disk, at(looks), services[i], step);
      seen := seen + MarkedSteps(at(looks), services[i]);
      looks := looks + 1;
    }
    var candidates := SortSteps(seen);
    ResolvedIsACandidate(disk, participants, services, seen, step);
    var i := |candidates|;
    while i > 0
      invariant i <= |candidates|
      invariant step > 0 ==> exists k :: 0 <= k < i && candidates[k] == step
    {
      i := i - 1;
      var candidate := candidates[i];
      if candidate > 0 {
        var all;
        all, looks := AllMarked(participants(candidate), candidate, at, looks, disk, step);
        assert all ==> Complete(disk, participants, candidate);
        if all { return candidate; }
      }
    }
    return 0;
  }

  lemma TailMarks(disk: Disk, later: Disk, name: string, step: nat)
    requires TailDropped(disk, later, step)
    ensures forall n: nat :: n <= step ==> (Marked(later, name, n) <==> Marked(disk, name, n))
    ensures forall n: nat :: Marked(later, name, n) ==> Marked(disk, name, n)
  {
    forall n: nat | n <= step ensures Marked(later, name, n) <==> Marked(disk, name, n) {
      assert At(later, (name, n)) == At(disk, (name, n));
    }
  }

  lemma ResolvedIsACandidate(disk: Disk, participants: nat -> seq<string>, services: seq<string>, seen: set<nat>, step: nat)
    requires Newest(disk, participants, step)
    requires forall name, n :: Marked(disk, name, n) ==> name in services
    requires forall k, n: nat :: 0 <= k < |services| && n <= step && Marked(disk, services[k], n) ==> n in seen
    ensures step > 0 ==> step in seen
  {
    if step > 0 {
      assert Complete(disk, participants, step);
      var name := participants(step)[0];
      assert Marked(disk, name, step);
      var k :| 0 <= k < |services| && services[k] == name;
    }
  }
}

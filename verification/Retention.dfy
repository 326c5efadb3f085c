/** Keeping the newest few of a service's shards. */
module Retention {
  predicate Oldest(shards: set<nat>, step: nat) {
    step in shards && forall other :: other in shards ==> step <= other
  }

  lemma OldestExists(shards: set<nat>) returns (oldest: nat)
    requires shards != {}
    ensures Oldest(shards, oldest)
    decreases |shards|
  {
    var x :| x in shards;
    if shards - {x} == {} {
      oldest := x;
    } else {
      var rest := OldestExists(shards - {x});
      oldest := if rest < x then rest else x;
    }
    assert forall other :: other in shards ==> other == x || other in shards - {x};
  }

  lemma HasOldest(shards: set<nat>)
    requires shards != {}
    ensures exists oldest :: Oldest(shards, oldest)
  {
    var oldest := OldestExists(shards);
  }

  ghost function OldestOf(shards: set<nat>): (oldest: nat)
    requires shards != {}
    ensures Oldest(shards, oldest)
  {
    HasOldest(shards);
    var oldest :| Oldest(shards, oldest);
    oldest
  }

  lemma KeyCount<T>(shards: map<nat, T>)
    ensures |shards.Keys| == |shards|
  {
  }

  lemma WithoutOne<T>(shards: map<nat, T>, step: nat)
    requires step in shards
    ensures (shards - {step}).Keys == shards.Keys - {step} && |shards - {step}| == |shards| - 1
  {
    var rest := shards - {step};
    assert rest.Keys == shards.Keys - {step};
    KeyCount(rest);
    KeyCount(shards);
  }

  /** The newest `keep` shards. */
  ghost function Trim<T>(shards: map<nat, T>, keep: nat): map<nat, T>
    decreases |shards|
  {
    if |shards| <= keep then shards
    else
      KeyCount(shards);
      var oldest := OldestOf(shards.Keys);
      WithoutOne(shards, oldest);
      Trim(shards - {oldest}, keep)
  }

  /** Trimming keeps the newest shards as they were, `keep` of them if there are so many. */
  lemma {:induction false} TrimKeepsTheNewest<T>(shards: map<nat, T>, keep: nat)
    ensures forall step :: step in Trim(shards, keep) ==> step in shards && Trim(shards, keep)[step] == shards[step]
    ensures forall gone, kept :: gone in shards && gone !in Trim(shards, keep) && kept in Trim(shards, keep) ==> gone < kept
    ensures |Trim(shards, keep)| == if |shards| < keep then |shards| else keep
    decreases |shards|
  {
    if |shards| > keep {
      KeyCount(shards);
      var oldest := OldestOf(shards.Keys);
      WithoutOne(shards, oldest);
      TrimKeepsTheNewest(shards - {oldest}, keep);
    }
  }

  method TrimLoop<T>(shards: map<nat, T>, keep: nat) returns (left: map<nat, T>)
    ensures left == Trim(shards, keep)
  {
    left := shards;
    while |left| > keep
      invariant Trim(left, keep) == Trim(shards, keep)
      decreases |left|
    {
      KeyCount(left);
      HasOldest(left.Keys);
      var oldest :| Oldest(left.Keys, oldest);
      assert oldest == OldestOf(left.Keys);
      WithoutOne(left, oldest);
      left := left - {oldest};
    }
  }
}

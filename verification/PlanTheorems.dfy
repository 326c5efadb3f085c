/** What every consumer of a plan relies on: exact cover, equal collectives,
    true denominators, balanced ranks. */
module PlanTheorems {
  import opened Arithmetic
  import opened Wrappers
  import opened Sequences
  import opened PlanTypes
  import opened PlanDeal
  import opened PlanPacking
  import opened Planner

  ghost predicate Planned(lengths: seq<nat>, loss: seq<int>, dpSize: int, cfg: PlannerConfig, plan: Plan) {
    cfg.Valid() && BuildPlan(lengths, loss, dpSize, cfg) == Ok(plan)
  }

  /** The deal behind a plan. */
  lemma PlanIsADeal(lengths: seq<nat>, loss: seq<int>, dpSize: int, cfg: PlannerConfig, plan: Plan)
    requires Planned(lengths, loss, dpSize, cfg, plan)
    ensures |lengths| == |loss| > 0 && dpSize > 0 && |lengths| % dpSize == 0
    ensures plan == Plan(DealOf(cfg, lengths, loss, dpSize).AllRanks(), DealOf(cfg, lengths, loss, dpSize).ranks)
  {
  }

  /** There is a plan exactly for a batch that the ranks can share evenly, however many
      optimizer steps it takes: as few as the configured size allows. */
  lemma PlanExists(lengths: seq<nat>, loss: seq<int>, dpSize: int, cfg: PlannerConfig)
    requires cfg.Valid()
    ensures (exists plan :: Planned(lengths, loss, dpSize, cfg, plan)) <==>
      |lengths| == |loss| > 0 && dpSize > 0 && |lengths| % dpSize == 0
    ensures forall plan, r :: Planned(lengths, loss, dpSize, cfg, plan) && 0 <= r < |plan.perRank| ==>
      && (|plan.perRank[r]| - 1) * cfg.miniBatchSize * dpSize < |lengths| <= |plan.perRank[r]| * cfg.miniBatchSize * dpSize
  {
    if |lengths| == |loss| > 0 && dpSize > 0 && |lengths| % dpSize == 0 {
      assert Planned(lengths, loss, dpSize, cfg, BuildPlan(lengths, loss, dpSize, cfg).value);
    }
    forall plan, r | Planned(lengths, loss, dpSize, cfg, plan) && 0 <= r < |plan.perRank|
      ensures (|plan.perRank[r]| - 1) * cfg.miniBatchSize * dpSize < |lengths| <= |plan.perRank[r]| * cfg.miniBatchSize * dpSize
    {
      StepsAreFew(lengths, loss, dpSize, cfg, plan, r);
    }
  }

  lemma StepsAreFew(lengths: seq<nat>, loss: seq<int>, dpSize: int, cfg: PlannerConfig, plan: Plan, r: nat)
    requires Planned(lengths, loss, dpSize, cfg, plan) && r < |plan.perRank|
    ensures (|plan.perRank[r]| - 1) * cfg.miniBatchSize * dpSize < |lengths| <= |plan.perRank[r]| * cfg.miniBatchSize * dpSize
  {
    PlanIsADeal(lengths, loss, dpSize, cfg, plan);
    var d := DealOf(cfg, lengths, loss, dpSize);
    RanksAreEqual(d.trunc, dpSize);
    assert |plan.perRank[r]| == d.Minis();
    MiniCountIsLeast(cfg, d.local);
    Scale((d.Minis() - 1) * cfg.miniBatchSize, d.local, dpSize);
    Scale(d.local - 1, d.Minis() * cfg.miniBatchSize, dpSize);
  }

  lemma Scale(a: int, b: int, d: nat)
    requires a < b && d > 0
    ensures a * d + d <= b * d
  {
    Distribute(b, a, d);
    MulAtLeast(b - a, d);
  }

  // ---- exact cover -----------------------------------------------------------------

  lemma RanksPartition(trunc: seq<nat>, dpSize: nat)
    requires dpSize > 0
    ensures multiset(Flatten(RankSamples(trunc, dpSize))) == multiset(Range(|trunc|))
  {
    SortIsDescending(Range(|trunc|), trunc);
    SnakeCovers(SortByLength(Range(|trunc|), trunc), dpSize);
  }

  lemma MinisPartition(cfg: PlannerConfig, localLens: seq<nat>)
    requires cfg.Valid() && |localLens| > 0
    ensures multiset(Flatten(MiniMembers(cfg, localLens))) == multiset(Range(|localLens|))
  {
    SortIsDescending(Range(|localLens|), localLens);
    MiniCountBounds(cfg, |localLens|);
    SnakeCovers(SortByLength(Range(|localLens|), localLens), MiniCount(cfg, |localLens|));
  }

  lemma FillersAreEmpty(cfg: PlannerConfig, micros: seq<MicroPlan>, count: nat)
    ensures Flatten(SampleLists(micros + seq(count, _ => Filler(cfg)))) == Flatten(SampleLists(micros))
  {
    var fillers := seq(count, _ => Filler(cfg));
    assert SampleLists(micros + fillers) == SampleLists(micros) + SampleLists(fillers);
    FlattenSplit(SampleLists(micros), SampleLists(fillers));
    FlattenEmpty(SampleLists(fillers));
  }

  lemma MicrosPartition(d: Deal, r: nat, i: nat)
    requires d.Valid() && r < |d.ranks| && i < d.Minis()
    ensures multiset(Flatten(SampleLists(d.Micros(r, i)))) == multiset(d.Members(r, i))
  {
    hide PackMicros, Flatten, SampleLists, Deal.Members, Sound, Safe, Full;
    PackingIsSafeAndTight(d.cfg, d.Members(r, i), d.LocalLens(r));
    FillersAreEmpty(d.cfg, d.Packed(r, i), Largest(d.MicroCounts(i)) - |d.Packed(r, i)|);
  }

  /** A place in the plan: document `j` of micro-batch `m` of mini-batch `i` on rank `r`. */
  datatype Slot = Slot(r: nat, i: nat, m: nat, j: nat)

  ghost predicate InPlan(plan: Plan, s: Slot) {
    && s.r < |plan.perRank| && s.i < |plan.perRank[s.r]| && s.m < |plan.perRank[s.r][s.i].micros|
    && s.j < |plan.perRank[s.r][s.i].micros[s.m].sampleIdx|
  }

  ghost function LocalAt(plan: Plan, s: Slot): nat
    requires InPlan(plan, s)
  {
    plan.perRank[s.r][s.i].micros[s.m].sampleIdx[s.j]
  }

  ghost predicate Holds(plan: Plan, s: Slot, g: nat) {
    && InPlan(plan, s) && s.r < |plan.localIndices| && LocalAt(plan, s) < |plan.localIndices[s.r]|
    && plan.localIndices[s.r][LocalAt(plan, s)] == g
  }

  ghost function DealPlan(d: Deal): Plan
    requires d.Valid()
  {
    Plan(d.AllRanks(), d.ranks)
  }

  /** Where a rank-local position went. */
  lemma LocalSlot(d: Deal, r: nat, p: nat) returns (s: Slot)
    requires d.Valid() && r < |d.ranks| && p < d.local
    ensures InPlan(DealPlan(d), s) && s.r == r && LocalAt(DealPlan(d), s) == p
  {
    var members := MiniMembers(d.cfg, d.LocalLens(r));
    MinisPartition(d.cfg, d.LocalLens(r));
    OnceEach(Flatten(members), d.local);
    FlattenMember(members, p);
    var i :| 0 <= i < |members| && p in members[i];
    MicrosPartition(d, r, i);
    var lists := SampleLists(d.Micros(r, i));
    assert p in multiset(d.Members(r, i));
    FlattenMember(lists, p);
    var m :| 0 <= m < |lists| && p in lists[m];
    var j :| 0 <= j < |lists[m]| && lists[m][j] == p;
    s := Slot(r, i, m, j);
    assert DealPlan(d).perRank[r][i] == d.Mini(r, i);
  }

  /** A rank's micro-batches only name positions of their mini-batch. */
  lemma SlotMember(d: Deal, s: Slot)
    requires d.Valid() && InPlan(DealPlan(d), s)
    ensures s.r < |d.ranks| && s.i < d.Minis()
    ensures s.m < |d.Micros(s.r, s.i)| && s.j < |d.Micros(s.r, s.i)[s.m].sampleIdx|
    ensures LocalAt(DealPlan(d), s) == d.Micros(s.r, s.i)[s.m].sampleIdx[s.j]
    ensures LocalAt(DealPlan(d), s) < d.local
    ensures LocalAt(DealPlan(d), s) in d.Members(s.r, s.i)
  {
    assert DealPlan(d).perRank[s.r][s.i] == d.Mini(s.r, s.i);
    MicrosPartition(d, s.r, s.i);
    var lists := SampleLists(d.Micros(s.r, s.i));
    var p := lists[s.m][s.j];
    FlattenMember(lists, p);
    assert p in multiset(Flatten(lists));
    assert p in d.Members(s.r, s.i);
  }

  lemma LocalSlotUnique(d: Deal, s: Slot, t: Slot)
    requires d.Valid() && InPlan(DealPlan(d), s) && InPlan(DealPlan(d), t)
    requires s.r == t.r && LocalAt(DealPlan(d), s) == LocalAt(DealPlan(d), t)
    ensures s == t
  {
    SlotMember(d, s);
    SlotMember(d, t);
    var p := LocalAt(DealPlan(d), s);
    var members := MiniMembers(d.cfg, d.LocalLens(s.r));
    MinisPartition(d.cfg, d.LocalLens(s.r));
    OnceEach(Flatten(members), d.local);
    var x :| 0 <= x < |members[s.i]| && members[s.i][x] == p;
    var y :| 0 <= y < |members[t.i]| && members[t.i][y] == p;
    OnePlace(members, s.i, x, t.i, y);
    DistinctPart(members, s.i);
    MicrosPartition(d, s.r, s.i);
    var lists := SampleLists(d.Micros(s.r, s.i));
    DistinctPermutes(d.Members(s.r, s.i), Flatten(lists));
    OnePlace(lists, s.m, s.j, t.m, t.j);
  }

  /** Every sample of the batch is trained on exactly once. */
  lemma EverySampleOnce(lengths: seq<nat>, loss: seq<int>, dpSize: int, cfg: PlannerConfig, plan: Plan, g: nat)
    returns (s: Slot)
    requires Planned(lengths, loss, dpSize, cfg, plan) && g < |lengths|
    ensures Holds(plan, s, g)
    ensures forall t :: Holds(plan, t, g) ==> t == s
  {
    PlanIsADeal(lengths, loss, dpSize, cfg, plan);
    var d := DealOf(cfg, lengths, loss, dpSize);
    RanksPartition(d.trunc, dpSize);
    OnceEach(Flatten(d.ranks), |d.trunc|);
    FlattenMember(d.ranks, g);
    var r :| 0 <= r < |d.ranks| && g in d.ranks[r];
    var p :| 0 <= p < |d.ranks[r]| && d.ranks[r][p] == g;
    s := LocalSlot(d, r, p);
    forall t | Holds(plan, t, g) ensures t == s {
      OnePlace(d.ranks, r, p, t.r, LocalAt(plan, t));
      LocalSlotUnique(d, s, t);
    }
  }

  /** The ranks own equal shares of the batch, and nothing but the batch. */
  lemma RanksOwnEqualShares(lengths: seq<nat>, loss: seq<int>, dpSize: int, cfg: PlannerConfig, plan: Plan)
    requires Planned(lengths, loss, dpSize, cfg, plan)
    ensures |plan.localIndices| == dpSize
    ensures forall r :: 0 <= r < dpSize ==> |plan.localIndices[r]| * dpSize == |lengths|
    ensures multiset(Flatten(plan.localIndices)) == multiset(Range(|lengths|))
    ensures forall s :: InPlan(plan, s) ==> s.r < dpSize && LocalAt(plan, s) < |plan.localIndices[s.r]|
  {
    PlanIsADeal(lengths, loss, dpSize, cfg, plan);
    var d := DealOf(cfg, lengths, loss, dpSize);
    RanksPartition(d.trunc, dpSize);
    RanksAreEqual(d.trunc, dpSize);
    forall s | InPlan(plan, s) ensures s.r < dpSize && LocalAt(plan, s) < |plan.localIndices[s.r]| {
      SlotMember(d, s);
    }
  }

  /** All ranks issue the same collectives: equal mini-batches, equal
      micro-batches, the same denominators. */
  lemma RanksRunInStep(lengths: seq<nat>, loss: seq<int>, dpSize: int, cfg: PlannerConfig, plan: Plan, r: nat, q: nat)
    requires Planned(lengths, loss, dpSize, cfg, plan) && r < dpSize && q < dpSize
    ensures |plan.perRank| == dpSize && |plan.perRank[r]| == |plan.perRank[q]| > 0
    ensures forall i :: 0 <= i < |plan.perRank[r]| ==>
      && |plan.perRank[r][i].micros| == |plan.perRank[q][i].micros| > 0
      && plan.perRank[r][i].docsGlobal == plan.perRank[q][i].docsGlobal
      && plan.perRank[r][i].tokensGlobal == plan.perRank[q][i].tokensGlobal
  {
    PlanIsADeal(lengths, loss, dpSize, cfg, plan);
    var d := DealOf(cfg, lengths, loss, dpSize);
    MiniCountBounds(cfg, d.local);
    forall i | 0 <= i < |plan.perRank[r]|
      ensures |plan.perRank[r][i].micros| == |plan.perRank[q][i].micros| > 0
      ensures plan.perRank[r][i].docsGlobal == plan.perRank[q][i].docsGlobal
      ensures plan.perRank[r][i].tokensGlobal == plan.perRank[q][i].tokensGlobal
    {
      assert plan.perRank[r][i] == d.Mini(r, i) && plan.perRank[q][i] == d.Mini(q, i);
      MiniSizes(d, r, i);
      PackedIsNotEmpty(d, r, i);
    }
  }

  lemma PackedIsNotEmpty(d: Deal, r: nat, i: nat)
    requires d.Valid() && r < |d.ranks| && i < d.Minis() && d.Members(r, i) != []
    ensures d.Packed(r, i) != []
  {
    PackingIsSafeAndTight(d.cfg, d.Members(r, i), d.LocalLens(r));
    var lists := SampleLists(d.Packed(r, i));
    assert d.Members(r, i)[0] in multiset(Flatten(lists));
    assert Flatten(lists) != [];
  }

  /** No mini-batch is empty or above the configured size, and any two of the
      whole plan differ by at most one sample. */
  lemma MiniSizes(d: Deal, r: nat, i: nat)
    requires d.Valid() && r < |d.ranks| && i < d.Minis()
    ensures 0 < |d.Members(r, i)| <= d.cfg.miniBatchSize
    ensures d.local / d.Minis() <= |d.Members(r, i)| <= d.local / d.Minis() + 1
  {
    hide Snake;
    MiniCountBounds(d.cfg, d.local);
    var order := SortByLength(Range(d.local), d.LocalLens(r));
    SnakeIsEven(order, d.Minis());
    assert MiniMembers(d.cfg, d.LocalLens(r)) == Snake(order, d.Minis());
    CeilingIsNear(d.local, d.Minis());
  }

  lemma CeilingIsNear(x: nat, k: nat)
    requires k > 0
    ensures (x + k - 1) / k <= x / k + 1
  {
    Fundamental(x, k);
    Fundamental(x + k - 1, k);
    assert (x / k + 1) * k == (x / k) * k + k;
    QuotientMonotone((x + k - 1) / k, x / k + 1, k);
  }

  // ---- every micro-batch is runnable --------------------------------------------------

  /** Its documents are truncated samples of its rank, inside the row and the
      budget; the others are zero-weight fillers. */
  lemma MicrosAreRunnable(lengths: seq<nat>, loss: seq<int>, dpSize: int, cfg: PlannerConfig, plan: Plan, r: nat, i: nat, m: nat)
    requires Planned(lengths, loss, dpSize, cfg, plan)
    requires r < |plan.perRank| && i < |plan.perRank[r]| && m < |plan.perRank[r][i].micros|
    ensures r < |plan.localIndices| && InRange(plan.localIndices[r], |lengths|)
    ensures var micro := plan.perRank[r][i].micros[m];
      micro == MicroPlan([], cfg.align, []) ||
      (Sound(cfg, micro, Pick(Truncate(lengths, cfg.seqLen), plan.localIndices[r])) && Safe(cfg, micro)
       && (cfg.layout == Padded ==> micro.seqLen <= cfg.seqLen))
  {
    PlanIsADeal(lengths, loss, dpSize, cfg, plan);
    var d := DealOf(cfg, lengths, loss, dpSize);
    assert plan.perRank[r][i] == d.Mini(r, i);
    var micro := plan.perRank[r][i].micros[m];
    if m < |d.Packed(r, i)| {
      PackingIsSafeAndTight(cfg, d.Members(r, i), d.LocalLens(r));
      assert micro in d.Packed(r, i);
      if cfg.layout == Padded { RowsWithinWindow(cfg, micro, d.LocalLens(r)); }
    }
  }

  /** Fillers only make up the difference: in every mini-batch some rank has none. */
  lemma FillersAreNeeded(lengths: seq<nat>, loss: seq<int>, dpSize: int, cfg: PlannerConfig, plan: Plan, i: nat) returns (r: nat)
    requires Planned(lengths, loss, dpSize, cfg, plan) && plan.perRank != [] && i < |plan.perRank[0]|
    ensures r < |plan.perRank| && i < |plan.perRank[r]|
    ensures forall micro :: micro in plan.perRank[r][i].micros ==> micro.sampleIdx != []
  {
    PlanIsADeal(lengths, loss, dpSize, cfg, plan);
    var d := DealOf(cfg, lengths, loss, dpSize);
    var counts := d.MicroCounts(i);
    r :| 0 <= r < |counts| && counts[r] == Largest(counts);
    assert plan.perRank[r][i] == d.Mini(r, i) && d.Mini(r, i).micros == d.Packed(r, i);
    PackingIsSafeAndTight(cfg, d.Members(r, i), d.LocalLens(r));
  }

  lemma RowsWithinWindow(cfg: PlannerConfig, m: MicroPlan, lens: seq<nat>)
    requires cfg.Valid() && cfg.layout == Padded && Sound(cfg, m, lens)
    requires forall p :: 0 <= p < |lens| ==> lens[p] <= cfg.seqLen
    ensures m.seqLen <= cfg.seqLen
  {
    var j :| 0 <= j < |m.docLens| && m.seqLen < m.docLens[j] + cfg.align;
    Fundamental(m.seqLen, cfg.align);
    Fundamental(cfg.seqLen, cfg.align);
    QuotientMonotone(m.seqLen / cfg.align, cfg.seqLen / cfg.align, cfg.align);
  }

  // ---- the denominators ----------------------------------------------------------------

  lemma {:induction false} MapFlatten(ranks: seq<nat>, parts: seq<seq<nat>>)
    requires forall i :: 0 <= i < |parts| ==> InRange(parts[i], |ranks|)
    ensures InRange(Flatten(parts), |ranks|)
    ensures Flatten(PickEach(ranks, parts)) == Pick(ranks, Flatten(parts))
  {
    if parts != [] {
      MapFlatten(ranks, parts[1..]);
      assert PickEach(ranks, parts)[1..] == PickEach(ranks, parts[1..]);
    }
  }

  function PickEach(ranks: seq<nat>, parts: seq<seq<nat>>): (r: seq<seq<nat>>)
    requires forall i :: 0 <= i < |parts| ==> InRange(parts[i], |ranks|)
    ensures |r| == |parts| && forall i :: 0 <= i < |r| ==> r[i] == Pick(ranks, parts[i])
  {
    seq(|parts|, i requires 0 <= i < |parts| => Pick(ranks, parts[i]))
  }

  lemma {:induction false} PickCount(values: seq<int>, indices: seq<nat>, f: nat -> int)
    requires InRange(indices, |values|) && forall g: nat :: g < |values| ==> f(g) == values[g]
    ensures IntSum(Pick(values, indices)) == CountAt(indices, f)
  {
    if indices != [] {
      assert Pick(values, indices)[1..] == Pick(values, indices[1..]);
      PickCount(values, indices[1..], f);
    }
  }

  lemma PickSplit<T>(values: seq<T>, a: seq<nat>, b: seq<nat>)
    requires InRange(a, |values|) && InRange(b, |values|)
    ensures Pick(values, a + b) == Pick(values, a) + Pick(values, b)
  {
  }

  lemma PickSum(loss: seq<int>, a: seq<nat>, b: seq<nat>)
    requires InRange(a, |loss|) && InRange(b, |loss|)
    ensures IntSum(Pick(loss, a + b)) == IntSum(Pick(loss, a)) + IntSum(Pick(loss, b))
  {
    PickSplit(loss, a, b);
    IntSumSplit(Pick(loss, a), Pick(loss, b));
  }

  /** The samples of mini-batch `i` over ranks 0..upTo-1, as one list. */
  function MiniSamples(d: Deal, i: nat, upTo: nat): (samples: seq<nat>)
    requires d.Valid() && i < d.Minis() && upTo <= |d.ranks|
    ensures InRange(samples, |d.trunc|)
  {
    if upTo == 0 then [] else MiniSamples(d, i, upTo - 1) + d.Globals(upTo - 1, i)
  }

  lemma {:induction false} DenominatorsCount(d: Deal, i: nat, upTo: nat)
    requires d.Valid() && i < d.Minis() && upTo <= |d.ranks|
    ensures d.Docs(i, upTo) == |MiniSamples(d, i, upTo)|
    ensures d.LossTokens(i, upTo) == IntSum(Pick(d.loss, MiniSamples(d, i, upTo)))
  {
    if upTo > 0 {
      DenominatorsCount(d, i, upTo - 1);
      PickSum(d.loss, MiniSamples(d, i, upTo - 1), d.Globals(upTo - 1, i));
    }
  }

  /** All samples of mini-batches 0..upTo-1. */
  function AllSamples(d: Deal, upTo: nat): (samples: seq<nat>)
    requires d.Valid() && upTo <= d.Minis()
    ensures InRange(samples, |d.trunc|)
  {
    if upTo == 0 then [] else AllSamples(d, upTo - 1) + MiniSamples(d, upTo - 1, |d.ranks|)
  }

  /** The samples rank `r` contributes to mini-batches 0..upTo-1. */
  function RankShare(d: Deal, r: nat, upTo: nat): seq<nat>
    requires d.Valid() && r < |d.ranks| && upTo <= d.Minis()
  {
    if upTo == 0 then [] else RankShare(d, r, upTo - 1) + d.Globals(r, upTo - 1)
  }

  function Shares(d: Deal, upTo: nat, ranks: nat): (r: seq<seq<nat>>)
    requires d.Valid() && upTo <= d.Minis() && ranks <= |d.ranks|
    ensures |r| == ranks
  {
    seq(ranks, q requires 0 <= q < ranks => RankShare(d, q, upTo))
  }

  lemma SharesLast(d: Deal, upTo: nat, ranks: nat)
    requires d.Valid() && upTo <= d.Minis() && 0 < ranks <= |d.ranks|
    ensures Flatten(Shares(d, upTo, ranks)) == Flatten(Shares(d, upTo, ranks - 1)) + RankShare(d, ranks - 1, upTo)
  {
    hide RankShare;
    assert Shares(d, upTo, ranks) == Shares(d, upTo, ranks - 1) + [RankShare(d, ranks - 1, upTo)];
    FlattenSplit(Shares(d, upTo, ranks - 1), [RankShare(d, ranks - 1, upTo)]);
    FlattenOne(RankShare(d, ranks - 1, upTo));
  }

  lemma BagsExchange(after: seq<nat>, before: seq<nat>, share: seq<nat>, more: seq<nat>, mini: seq<nat>)
    requires multiset(after) == multiset(before) + multiset(mini)
    ensures multiset(after + (share + more)) == multiset(before + share) + multiset(mini + more)
  {
  }

  lemma {:induction false} ByMiniOrByRank(d: Deal, upTo: nat, ranks: nat)
    requires d.Valid() && upTo < d.Minis() && ranks <= |d.ranks|
    ensures multiset(Flatten(Shares(d, upTo + 1, ranks))) == multiset(Flatten(Shares(d, upTo, ranks))) + multiset(MiniSamples(d, upTo, ranks))
  {
    hide Shares, Deal.Globals, Deal.Valid, Deal.Minis;
    if ranks > 0 {
      ByMiniOrByRank(d, upTo, ranks - 1);
      SharesLast(d, upTo, ranks);
      SharesLast(d, upTo + 1, ranks);
      var share, globals := RankShare(d, ranks - 1, upTo), d.Globals(ranks - 1, upTo);
      assert RankShare(d, ranks - 1, upTo + 1) == share + globals;
      hide RankShare, Flatten, InRange;
      BagsExchange(Flatten(Shares(d, upTo + 1, ranks - 1)), Flatten(Shares(d, upTo, ranks - 1)), share, globals, MiniSamples(d, upTo, ranks - 1));
    } else {
      NoShares(d, upTo);
    }
  }

  lemma NoShares(d: Deal, upTo: nat)
    requires d.Valid() && upTo < d.Minis()
    ensures Shares(d, upTo, 0) == [] && Shares(d, upTo + 1, 0) == []
  {
  }

  lemma FlattenOne<T>(part: seq<T>)
    ensures Flatten([part]) == part
  {
    assert Flatten([part]) == part + Flatten([]);
  }

  lemma {:induction false} AllByRank(d: Deal, upTo: nat)
    requires d.Valid() && upTo <= d.Minis()
    ensures multiset(AllSamples(d, upTo)) == multiset(Flatten(Shares(d, upTo, |d.ranks|)))
  {
    hide Deal.Valid, Deal.Minis, Deal.Globals, MiniSamples, RankShare, Shares, Flatten, InRange;
    if upTo == 0 {
      NothingShared(d, |d.ranks|);
    } else {
      AllByRank(d, upTo - 1);
      ByMiniOrByRank(d, upTo - 1, |d.ranks|);
    }
  }

  lemma NothingShared(d: Deal, ranks: nat)
    requires d.Valid() && ranks <= |d.ranks|
    ensures Flatten(Shares(d, 0, ranks)) == []
  {
    hide Deal.Valid, Deal.Minis;
    FlattenEmpty(Shares(d, 0, ranks));
  }

  lemma {:induction false} RankShareIsFlat(d: Deal, r: nat, upTo: nat)
    requires d.Valid() && r < |d.ranks| && upTo <= d.Minis()
    ensures RankShare(d, r, upTo) == Flatten(PickEach(d.ranks[r], MiniMembers(d.cfg, d.LocalLens(r))[..upTo]))
  {
    var members := MiniMembers(d.cfg, d.LocalLens(r));
    if upTo > 0 {
      RankShareIsFlat(d, r, upTo - 1);
      var before, last := PickEach(d.ranks[r], members[..upTo - 1]), d.Globals(r, upTo - 1);
      assert PickEach(d.ranks[r], members[..upTo]) == before + [last];
      FlattenSplit(before, [last]);
      FlattenOne(last);
    }
  }

  lemma MultisetMiddle<T>(s: seq<T>, k: nat)
    requires k < |s|
    ensures multiset(s) == multiset(s[..k] + s[k + 1..]) + multiset{s[k]}
  {
    assert s == s[..k] + ([s[k]] + s[k + 1..]);
  }

  lemma PickMiddle(values: seq<nat>, s: seq<nat>, k: nat)
    requires InRange(s, |values|) && k < |s|
    ensures multiset(Pick(values, s)) == multiset(Pick(values, s[..k] + s[k + 1..])) + multiset{values[s[k]]}
  {
    MultisetMiddle(Pick(values, s), k);
    assert Pick(values, s)[..k] + Pick(values, s)[k + 1..] == Pick(values, s[..k] + s[k + 1..]);
  }

  lemma RemoveFirst<T>(a: seq<T>, b: seq<T>) returns (k: nat)
    requires multiset(a) == multiset(b) && a != []
    ensures k < |b| && b[k] == a[0]
    ensures multiset(a[..0] + a[0 + 1..]) == multiset(b[..k] + b[k + 1..])
  {
    assert a[0] in multiset(b);
    k :| 0 <= k < |b| && b[k] == a[0];
    MultisetMiddle(a, 0);
    MultisetMiddle(b, k);
    assert multiset(a[..0] + a[0 + 1..]) == multiset(a) - multiset{a[0]};
    assert multiset(b[..k] + b[k + 1..]) == multiset(b) - multiset{a[0]};
  }

  lemma {:induction false} PickPermutes(values: seq<nat>, a: seq<nat>, b: seq<nat>)
    requires InRange(a, |values|) && InRange(b, |values|) && multiset(a) == multiset(b)
    ensures multiset(Pick(values, a)) == multiset(Pick(values, b))
    decreases |a|
  {
    if a == [] {
      assert |multiset(a)| == |a| && |multiset(b)| == |b|;
    } else {
      var k := RemoveFirst(a, b);
      PickMiddle(values, a, 0);
      PickMiddle(values, b, k);
      PickPermutes(values, a[..0] + a[0 + 1..], b[..k] + b[k + 1..]);
    }
  }

  lemma RankShareIsTheRank(d: Deal, r: nat)
    requires d.Valid() && r < |d.ranks|
    ensures multiset(RankShare(d, r, d.Minis())) == multiset(d.ranks[r])
  {
    var members := MiniMembers(d.cfg, d.LocalLens(r));
    RankShareIsFlat(d, r, d.Minis());
    assert members[..d.Minis()] == members;
    MapFlatten(d.ranks[r], members);
    MinisPartition(d.cfg, d.LocalLens(r));
    PickPermutes(d.ranks[r], Flatten(members), Range(d.local));
    assert Pick(d.ranks[r], Range(d.local)) == d.ranks[r];
  }

  lemma {:induction false} FlattenPermutes(a: seq<seq<nat>>, b: seq<seq<nat>>)
    requires |a| == |b| && forall i :: 0 <= i < |a| ==> multiset(a[i]) == multiset(b[i])
    ensures multiset(Flatten(a)) == multiset(Flatten(b))
  {
    if a != [] { FlattenPermutes(a[1..], b[1..]); }
  }

  /** The mini-batches together are the batch. */
  lemma MinisAreTheBatch(d: Deal)
    requires d.Valid() && multiset(Flatten(d.ranks)) == multiset(Range(|d.trunc|))
    ensures multiset(AllSamples(d, d.Minis())) == multiset(Range(|d.trunc|))
  {
    AllByRank(d, d.Minis());
    forall r | 0 <= r < |d.ranks| ensures multiset(Shares(d, d.Minis(), |d.ranks|)[r]) == multiset(d.ranks[r]) {
      RankShareIsTheRank(d, r);
    }
    FlattenPermutes(Shares(d, d.Minis(), |d.ranks|), d.ranks);
  }

  function SumDocs(minis: seq<MiniPlan>): nat {
    if minis == [] then 0 else SumDocs(minis[..|minis| - 1]) + minis[|minis| - 1].docsGlobal
  }

  function SumLossTokens(minis: seq<MiniPlan>): int {
    if minis == [] then 0 else SumLossTokens(minis[..|minis| - 1]) + minis[|minis| - 1].tokensGlobal
  }

  lemma MiniDenominators(d: Deal, r: nat, i: nat)
    requires d.Valid() && r < |d.ranks| && i < d.Minis()
    ensures d.RankPlan(r)[i].docsGlobal == |MiniSamples(d, i, |d.ranks|)|
    ensures d.RankPlan(r)[i].tokensGlobal == IntSum(Pick(d.loss, MiniSamples(d, i, |d.ranks|)))
  {
    DenominatorsCount(d, i, |d.ranks|);
  }

  lemma {:induction false} DenominatorsUpTo(d: Deal, r: nat, upTo: nat)
    requires d.Valid() && r < |d.ranks| && upTo <= d.Minis()
    ensures SumDocs(d.RankPlan(r)[..upTo]) == |AllSamples(d, upTo)|
    ensures SumLossTokens(d.RankPlan(r)[..upTo]) == IntSum(Pick(d.loss, AllSamples(d, upTo)))
  {
    hide Deal.Mini, MiniSamples;
    if upTo > 0 {
      DenominatorsUpTo(d, r, upTo - 1);
      MiniDenominators(d, r, upTo - 1);
      assert d.RankPlan(r)[..upTo][..upTo - 1] == d.RankPlan(r)[..upTo - 1];
      PickSum(d.loss, AllSamples(d, upTo - 1), MiniSamples(d, upTo - 1, |d.ranks|));
    }
  }

  /** The global denominators of the optimizer steps add up to the batch: every
      document once, every loss token once. */
  lemma DenominatorsAddUp(lengths: seq<nat>, loss: seq<int>, dpSize: int, cfg: PlannerConfig, plan: Plan, r: nat)
    requires Planned(lengths, loss, dpSize, cfg, plan) && r < |plan.perRank|
    ensures SumDocs(plan.perRank[r]) == |lengths|
    ensures SumLossTokens(plan.perRank[r]) == IntSum(loss)
  {
    PlanIsADeal(lengths, loss, dpSize, cfg, plan);
    var d := DealOf(cfg, lengths, loss, dpSize);
    RanksPartition(d.trunc, dpSize);
    MinisAreTheBatch(d);
    DenominatorsUpTo(d, r, d.Minis());
    var all, n := AllSamples(d, d.Minis()), |lengths|;
    assert d.RankPlan(r)[..d.Minis()] == plan.perRank[r];
    OnceEach(all, n);
    var f := (g: nat) => if g < |loss| then loss[g] else 0;
    PickCount(loss, all, f);
    PickCount(loss, Range(n), f);
    CountPermutes(all, Range(n), f);
    assert Pick(loss, Range(n)) == loss;
  }

  // ---- balance ---------------------------------------------------------------------------

  lemma {:induction false} BinIsHeld(values: seq<nat>, bins: nat, b: nat, bin: seq<nat>, rounds: nat)
    requires b < bins && rounds <= |bin| && rounds * bins <= |values|
    requires forall j :: 0 <= j < |bin| ==> SeatIndex(j, b, bins) < |values| && bin[j] == values[SeatIndex(j, b, bins)]
    ensures Total(bin[..rounds]) == Held(values, bins, b, rounds)
  {
    hide SeatIndex;
    if rounds > 0 {
      SeatOfRound(rounds - 1, b, bins);
      BinIsHeld(values, bins, b, bin, rounds - 1);
      TotalLast(bin[..rounds]);
      assert bin[..rounds][..rounds - 1] == bin[..rounds - 1];
    }
  }

  /** The tokens one rank trains on. */
  function RankTotal(trunc: seq<nat>, dpSize: nat, r: nat): nat
    requires r < dpSize
  {
    var order := SortByLength(Range(|trunc|), trunc);
    SnakeInRange(order, dpSize, |trunc|);
    Total(Pick(trunc, RankSamples(trunc, dpSize)[r]))
  }

  lemma RankTotalIsHeld(trunc: seq<nat>, dpSize: nat, r: nat)
    requires r < dpSize && |trunc| > 0 && |trunc| % dpSize == 0
    ensures (|trunc| / dpSize) * dpSize == |trunc|
    ensures RankTotal(trunc, dpSize, r) == Held(Pick(trunc, SortByLength(Range(|trunc|), trunc)), dpSize, r, |trunc| / dpSize)
  {
    hide SeatIndex, Held, Snake;
    var order := SortByLength(Range(|trunc|), trunc);
    RanksAreEqual(trunc, dpSize);
    SnakeClosedForm(order, dpSize);
    var bin := Pick(trunc, RankSamples(trunc, dpSize)[r]);
    BinIsHeld(Pick(trunc, order), dpSize, r, bin, |trunc| / dpSize);
    assert bin[..|trunc| / dpSize] == bin;
  }

  /** Dealing by length balances the ranks: two of them differ by at most the
      spread of the (truncated) sample lengths. */
  lemma RanksAreBalanced(trunc: seq<nat>, dpSize: nat, r: nat, q: nat, shortest: nat, longest: nat)
    requires r < dpSize && q < dpSize && |trunc| > 0 && |trunc| % dpSize == 0
    requires forall g :: 0 <= g < |trunc| ==> shortest <= trunc[g] <= longest
    ensures Difference(RankTotal(trunc, dpSize, r), RankTotal(trunc, dpSize, q)) <= longest - shortest
  {
    hide Held, RankTotal, Snake;
    var order := SortByLength(Range(|trunc|), trunc);
    var values, rounds := Pick(trunc, order), |trunc| / dpSize;
    SortIsDescending(Range(|trunc|), trunc);
    forall i, j | 0 <= i < j < |values| ensures values[i] >= values[j] {
      assert Precedes(trunc, order[i], order[j]);
    }
    RankTotalIsHeld(trunc, dpSize, r);
    RankTotalIsHeld(trunc, dpSize, q);
    RanksAreEqual(trunc, dpSize);
    RoundsTelescope(values, dpSize, r, q, rounds);
    assert shortest <= values[0] <= longest && shortest <= values[|trunc| - 1] <= longest;
  }

  // ---- the inner sorts -------------------------------------------------------------------

  lemma SeatsAscend(i: nat, j: nat, b: nat, bins: nat)
    requires b < bins && i < j
    ensures SeatIndex(i, b, bins) < SeatIndex(j, b, bins)
  {
    hide SeatIndex;
    SeatOfRound(i, b, bins);
    SeatOfRound(j, b, bins);
    QuotientOrder(i + 1, j, bins);
  }

  lemma QuotientOrder(a: nat, b: nat, d: nat)
    requires a <= b
    ensures a * d <= b * d
  {
    Distribute(b, a, d);
    assert (b - a) * d >= 0;
  }

  /** Each rank already holds its samples longest first, so sorting them again
      before the mini-batch deal changes nothing. */
  lemma LocalOrderIsTheDeal(trunc: seq<nat>, dpSize: nat, r: nat)
    requires r < dpSize && |trunc| > 0 && |trunc| % dpSize == 0
    ensures InRange(RankSamples(trunc, dpSize)[r], |trunc|)
    ensures var lens := Pick(trunc, RankSamples(trunc, dpSize)[r]); SortByLength(Range(|lens|), lens) == Range(|lens|)
  {
    hide SeatIndex, Snake;
    var order := SortByLength(Range(|trunc|), trunc);
    SortIsDescending(Range(|trunc|), trunc);
    RanksAreEqual(trunc, dpSize);
    SnakeClosedForm(order, dpSize);
    var bin := RankSamples(trunc, dpSize)[r];
    var lens := Pick(trunc, bin);
    forall i, j | 0 <= i < j < |lens| ensures Precedes(lens, Range(|lens|)[i], Range(|lens|)[j]) {
      SeatsAscend(i, j, r, dpSize);
      assert Precedes(trunc, order[SeatIndex(i, r, dpSize)], order[SeatIndex(j, r, dpSize)]);
    }
    SortIsIdempotent(Range(|lens|), lens);
  }

  // ---- who gets what ------------------------------------------------------------------------

  lemma {:induction false} SnakeOfRange(n: nat, bins: nat, b: nat)
    requires b < bins
    ensures forall p: nat :: p in Snake(Range(n), bins)[b] <==> p < n && BinOf(p, bins) == b
  {
    hide BinOf;
    if n > 0 {
      assert Range(n)[..n - 1] == Range(n - 1);
      SnakeOfRange(n - 1, bins, b);
      var dealt := Snake(Range(n - 1), bins);
      assert Snake(Range(n), bins) == dealt[BinOf(n - 1, bins) := dealt[BinOf(n - 1, bins)] + [n - 1]];
    }
  }

  /** The ranks take turns, there and back, from the longest sample of the batch on: the
      k-th sample of rank r has this place in the length order. */
  lemma RanksTakeTurns(lengths: seq<nat>, loss: seq<int>, dpSize: int, cfg: PlannerConfig, plan: Plan, r: nat, k: nat) returns (place: nat)
    requires Planned(lengths, loss, dpSize, cfg, plan) && r < |plan.localIndices| && k < |plan.localIndices[r]|
    ensures place == k * dpSize + if k % 2 == 0 then r else dpSize - 1 - r
    ensures var trunc := Truncate(lengths, cfg.seqLen);
      var order := SortByLength(Range(|trunc|), trunc);
      place < |order| && plan.localIndices[r][k] == order[place]
  {
    PlanIsADeal(lengths, loss, dpSize, cfg, plan);
    var trunc := Truncate(lengths, cfg.seqLen);
    SnakeClosedForm(SortByLength(Range(|trunc|), trunc), dpSize);
    place := SeatIndex(k, r, dpSize);
  }

  /** Every optimizer step sees a mix of lengths: a rank's samples, longest first, are
      dealt to its mini-batches there and back, wherever they are packed. */
  lemma StepsMixLengths(lengths: seq<nat>, loss: seq<int>, dpSize: int, cfg: PlannerConfig, plan: Plan, r: nat, i: nat, p: nat)
    requires Planned(lengths, loss, dpSize, cfg, plan) && r < |plan.perRank| && i < |plan.perRank[r]|
    ensures r < |plan.localIndices|
    ensures var n := |plan.perRank[r]|;
      (exists micro :: micro in plan.perRank[r][i].micros && p in micro.sampleIdx) <==>
      (p < |plan.localIndices[r]| && i == if (p / n) % 2 == 0 then p % n else n - 1 - p % n)
  {
    PlanIsADeal(lengths, loss, dpSize, cfg, plan);
    var d := DealOf(cfg, lengths, loss, dpSize);
    assert plan.perRank[r][i] == d.Mini(r, i);
    MembersInClosedForm(d, r, i, p);
    MicrosPartition(d, r, i);
    InSomeList(d.Micros(r, i), p);
    assert p in d.Members(r, i) <==> p in multiset(d.Members(r, i));
  }

  lemma MembersInClosedForm(d: Deal, r: nat, i: nat, p: nat)
    requires d.Valid() && r < |d.ranks| && i < d.Minis() && d.ranks == RankSamples(d.trunc, |d.ranks|) && |d.trunc| % |d.ranks| == 0
    ensures p in d.Members(r, i) <==> p < d.local && BinOf(p, d.Minis()) == i
  {
    hide Snake, BinOf;
    MiniCountBounds(d.cfg, d.local);
    assert d.ranks[r][0] < |d.trunc|;
    LocalOrderIsTheDeal(d.trunc, |d.ranks|, r);
    assert d.LocalLens(r) == Pick(d.trunc, d.ranks[r]);
    SnakeOfRange(d.local, d.Minis(), i);
  }

  lemma {:induction false} InSomeList(micros: seq<MicroPlan>, p: nat)
    ensures p in multiset(Flatten(SampleLists(micros))) <==> exists micro :: micro in micros && p in micro.sampleIdx
  {
    if micros != [] {
      InSomeList(micros[1..], p);
      assert SampleLists(micros)[1..] == SampleLists(micros[1..]);
      assert Flatten(SampleLists(micros)) == micros[0].sampleIdx + Flatten(SampleLists(micros[1..]));
      assert micros == [micros[0]] + micros[1..];
    }
  }
}

/** The plan for one training step: `build_plan` of meshy/backend/titan/plan.py. */
module Planner {
  import opened Arithmetic
  import opened Wrappers
  import opened Sequences
  import opened PlanTypes
  import opened PlanDeal
  import opened PlanPacking

  function Truncate(lengths: seq<nat>, seqLen: nat): (r: seq<nat>)
    ensures |r| == |lengths|
  {
    seq(|lengths|, i requires 0 <= i < |lengths| => if lengths[i] < seqLen then lengths[i] else seqLen)
  }

  function RankSamples(trunc: seq<nat>, dpSize: nat): seq<seq<nat>>
    requires dpSize > 0
  {
    Snake(SortByLength(Range(|trunc|), trunc), dpSize)
  }

  function MiniCount(cfg: PlannerConfig, local: nat): nat
    requires cfg.Valid()
  {
    (local + cfg.miniBatchSize - 1) / cfg.miniBatchSize
  }

  lemma MiniCountBounds(cfg: PlannerConfig, local: nat)
    requires cfg.Valid() && local > 0
    ensures 0 < MiniCount(cfg, local) <= local
    ensures (local + MiniCount(cfg, local) - 1) / MiniCount(cfg, local) <= cfg.miniBatchSize
    ensures local / MiniCount(cfg, local) >= 1
    ensures local <= cfg.miniBatchSize <==> MiniCount(cfg, local) == 1
  {
    var size, k := cfg.miniBatchSize, MiniCount(cfg, local);
    AtLeastOne(local + size - 1, size);
    Fundamental(local + size - 1, size);
    assert k * size >= local;
    MulAtLeast(size, local);
    QuotientMonotone(k, local, size);
    Fundamental(local + k - 1, k);
    QuotientMonotone((local + k - 1) / k, size, k);
    AtLeastOne(local, k);
    if local <= size { QuotientOf(1, local - 1, size); }
    assert k == 1 ==> k * size == size;
  }

  /** No smaller number of mini-batches would hold the share. */
  lemma MiniCountIsLeast(cfg: PlannerConfig, local: nat)
    requires cfg.Valid() && local > 0
    ensures (MiniCount(cfg, local) - 1) * cfg.miniBatchSize < local <= MiniCount(cfg, local) * cfg.miniBatchSize
  {
    var size, k := cfg.miniBatchSize, MiniCount(cfg, local);
    Fundamental(local + size - 1, size);
    assert (k - 1) * size == k * size - size;
  }

  /** What one rank's samples are dealt into: positions of each mini-batch. */
  function MiniMembers(cfg: PlannerConfig, localLens: seq<nat>): (r: seq<seq<nat>>)
    requires cfg.Valid() && |localLens| > 0
    ensures |r| == MiniCount(cfg, |localLens|)
    ensures forall i :: 0 <= i < |r| ==> InRange(r[i], |localLens|)
  {
    MiniCountBounds(cfg, |localLens|);
    var order := SortByLength(Range(|localLens|), localLens);
    SnakeInRange(order, MiniCount(cfg, |localLens|), |localLens|);
    Snake(order, MiniCount(cfg, |localLens|))
  }

  function Largest(counts: seq<nat>): (most: nat)
    ensures forall r :: 0 <= r < |counts| ==> counts[r] <= most
    ensures counts != [] ==> most in counts
  {
    if counts == [] then 0
    else
      var most := Largest(counts[1..]);
      if counts[0] >= most then counts[0] else most
  }

  /** Every rank of the step as dealt, before the micro-batches are equalised. */
  datatype Deal = Deal(cfg: PlannerConfig, trunc: seq<nat>, loss: seq<int>, ranks: seq<seq<nat>>, local: nat) {
    predicate Valid() {
      && cfg.Valid() && local > 0 && |loss| == |trunc| && |ranks| > 0
      && forall r :: 0 <= r < |ranks| ==> |ranks[r]| == local && InRange(ranks[r], |trunc|)
    }

    function Minis(): nat
      requires Valid()
    {
      MiniCount(cfg, local)
    }

    function LocalLens(r: nat): (lens: seq<nat>)
      requires Valid() && r < |ranks|
      ensures |lens| == local
    {
      Pick(trunc, ranks[r])
    }

    /** The rank-local positions of mini-batch `i`. */
    function Members(r: nat, i: nat): (members: seq<nat>)
      requires Valid() && r < |ranks| && i < Minis()
      ensures InRange(members, local)
    {
      MiniMembers(cfg, LocalLens(r))[i]
    }

    /** The same samples by their index in the whole batch. */
    function Globals(r: nat, i: nat): (samples: seq<nat>)
      requires Valid() && r < |ranks| && i < Minis()
      ensures InRange(samples, |trunc|)
    {
      Pick(ranks[r], Members(r, i))
    }

    function Packed(r: nat, i: nat): seq<MicroPlan>
      requires Valid() && r < |ranks| && i < Minis()
    {
      PackMicros(cfg, Members(r, i), LocalLens(r))
    }

    function MicroCounts(i: nat): (counts: seq<nat>)
      requires Valid() && i < Minis()
      ensures |counts| == |ranks| && forall r :: 0 <= r < |counts| ==> counts[r] == |Packed(r, i)|
    {
      seq(|ranks|, r requires 0 <= r < |ranks| => |Packed(r, i)|)
    }

    /** The packed micro-batches, filled up to the largest count of any rank. */
    function Micros(r: nat, i: nat): (micros: seq<MicroPlan>)
      requires Valid() && r < |ranks| && i < Minis()
      ensures |micros| == Largest(MicroCounts(i))
    {
      Packed(r, i) + seq(Largest(MicroCounts(i)) - |Packed(r, i)|, _ => Filler(cfg))
    }

    function Docs(i: nat, upTo: nat): nat
      requires Valid() && i < Minis() && upTo <= |ranks|
    {
      if upTo == 0 then 0 else Docs(i, upTo - 1) + |Members(upTo - 1, i)|
    }

    function LossTokens(i: nat, upTo: nat): int
      requires Valid() && i < Minis() && upTo <= |ranks|
    {
      if upTo == 0 then 0 else LossTokens(i, upTo - 1) + IntSum(Pick(loss, Globals(upTo - 1, i)))
    }

    function RankTokens(i: nat): seq<nat>
      requires Valid() && i < Minis()
    {
      seq(|ranks|, q requires 0 <= q < |ranks| => Total(Pick(trunc, Globals(q, i))))
    }

    function Mini(r: nat, i: nat): MiniPlan
      requires Valid() && r < |ranks| && i < Minis()
    {
      MiniPlan(Micros(r, i), Docs(i, |ranks|), LossTokens(i, |ranks|), RankTokens(i))
    }

    function RankPlan(r: nat): (minis: seq<MiniPlan>)
      requires Valid() && r < |ranks|
      ensures |minis| == Minis() && forall i :: 0 <= i < |minis| ==> minis[i] == Mini(r, i)
    {
      seq(Minis(), i requires 0 <= i < Minis() => Mini(r, i))
    }

    function AllRanks(): (plans: seq<seq<MiniPlan>>)
      requires Valid()
      ensures |plans| == |ranks| && forall r :: 0 <= r < |plans| ==> plans[r] == RankPlan(r)
    {
      seq(|ranks|, r requires 0 <= r < |ranks| => RankPlan(r))
    }
  }

  lemma ZeroProduct(q: nat, d: nat)
    ensures q == 0 ==> q * d == 0
  {
  }

  /** Every rank receives the same number of samples. */
  lemma RanksAreEqual(trunc: seq<nat>, dpSize: nat)
    requires dpSize > 0 && |trunc| > 0 && |trunc| % dpSize == 0
    ensures |trunc| / dpSize > 0 && |RankSamples(trunc, dpSize)| == dpSize
    ensures (|trunc| / dpSize) * dpSize == |trunc|
    ensures forall r :: 0 <= r < dpSize ==>
      |RankSamples(trunc, dpSize)[r]| == |trunc| / dpSize && InRange(RankSamples(trunc, dpSize)[r], |trunc|)
  {
    Fundamental(|trunc|, dpSize);
    ZeroProduct(|trunc| / dpSize, dpSize);
    var order := SortByLength(Range(|trunc|), trunc);
    SnakeIsEven(order, dpSize);
    SnakeInRange(order, dpSize, |trunc|);
  }

  function DealOf(cfg: PlannerConfig, lengths: seq<nat>, loss: seq<int>, dpSize: nat): (d: Deal)
    requires cfg.Valid() && |lengths| == |loss| > 0 && dpSize > 0 && |lengths| % dpSize == 0
    ensures d.Valid() && |d.ranks| == dpSize
  {
    var trunc := Truncate(lengths, cfg.seqLen);
    RanksAreEqual(trunc, dpSize);
    Deal(cfg, trunc, loss, RankSamples(trunc, dpSize), |lengths| / dpSize)
  }

  function BuildPlan(lengths: seq<nat>, loss: seq<int>, dpSize: int, cfg: PlannerConfig): Result<Plan, PlanError>
    requires cfg.Valid()
  {
    if |lengths| == 0 then Err(EmptyBatch)
    else if |loss| != |lengths| then Err(SizeMismatch)
    else if dpSize <= 0 || |lengths| % dpSize != 0 then Err(NotDivisible)
    else
      var d := DealOf(cfg, lengths, loss, dpSize);
      Ok(Plan(d.AllRanks(), d.ranks))
  }
}

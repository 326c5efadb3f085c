/** `build_plan` written with the source's loops. */
module PlanLoops {
  import opened Wrappers
  import opened Sequences
  import opened PlanTypes
  import opened PlanDeal
  import opened PlanPacking
  import opened Planner

  /** One rank dealt into mini-batches and packed. */
  method PackRank(d: Deal, r: nat) returns (members: seq<seq<nat>>, packed: seq<seq<MicroPlan>>)
    requires d.Valid() && r < |d.ranks|
    ensures |members| == |packed| == d.Minis()
    ensures forall i :: 0 <= i < d.Minis() ==> members[i] == d.Members(r, i) && packed[i] == d.Packed(r, i)
  {
    var lens := d.LocalLens(r);
    MiniCountBounds(d.cfg, d.local);
    members := SnakeLoop(SortByLength(Range(d.local), lens), d.Minis());
    assert members == MiniMembers(d.cfg, lens);
    packed := [];
    for i := 0 to d.Minis()
      invariant |packed| == i && forall k :: 0 <= k < i ==> packed[k] == d.Packed(r, k)
    {
      var micros := PackMicrosLoop(d.cfg, members[i], lens);
      packed := packed + [micros];
    }
  }

  ghost predicate DealtAs(d: Deal, members: seq<seq<seq<nat>>>, packed: seq<seq<seq<MicroPlan>>>, upTo: nat)
    requires d.Valid() && upTo <= |d.ranks|
  {
    && |members| == |packed| == upTo
    && (forall q :: 0 <= q < upTo ==> |members[q]| == |packed[q]| == d.Minis())
    && (forall q, i :: 0 <= q < upTo && 0 <= i < d.Minis() ==>
      members[q][i] == d.Members(q, i) && packed[q][i] == d.Packed(q, i))
  }

  method PackAllRanks(d: Deal) returns (members: seq<seq<seq<nat>>>, packed: seq<seq<seq<MicroPlan>>>)
    requires d.Valid()
    ensures DealtAs(d, members, packed, |d.ranks|)
  {
    hide Deal.Members, Deal.Packed, Deal.Minis, Deal.Valid;
    members, packed := [], [];
    for r := 0 to |d.ranks|
      invariant DealtAs(d, members, packed, r)
    {
      var rankMembers, rankPacked := PackRank(d, r);
      members, packed := members + [rankMembers], packed + [rankPacked];
    }
  }

  /** Fillers up to the largest count of any rank. */
  method FillMicros(d: Deal, packed: seq<seq<seq<MicroPlan>>>, members: seq<seq<seq<nat>>>, r: nat, i: nat)
    returns (micros: seq<MicroPlan>)
    requires d.Valid() && r < |d.ranks| && i < d.Minis() && DealtAs(d, members, packed, |d.ranks|)
    ensures micros == d.Micros(r, i)
  {
    hide Deal.Members, Deal.Packed, Deal.LocalLens, Deal.Minis;
    var counts: seq<nat> := seq(|packed|, q requires 0 <= q < |packed| => |packed[q][i]|);
    assert counts == d.MicroCounts(i);
    micros := packed[r][i];
    while |micros| < Largest(counts)
      invariant |packed[r][i]| <= |micros| <= Largest(counts)
      invariant micros == packed[r][i] + seq(|micros| - |packed[r][i]|, _ => Filler(d.cfg))
    {
      micros := micros + [Filler(d.cfg)];
    }
  }

  /** The denominators accumulated over all ranks. */
  method GlobalDenominators(d: Deal, packed: seq<seq<seq<MicroPlan>>>, members: seq<seq<seq<nat>>>, i: nat)
    returns (docs: nat, tokens: int, perRank: seq<nat>)
    requires d.Valid() && i < d.Minis() && DealtAs(d, members, packed, |d.ranks|)
    ensures docs == d.Docs(i, |d.ranks|) && tokens == d.LossTokens(i, |d.ranks|) && perRank == d.RankTokens(i)
  {
    hide Deal.Members, Deal.Packed, Deal.Minis;
    docs, tokens, perRank := 0, 0, [];
    for q := 0 to |d.ranks|
      invariant docs == d.Docs(i, q) && tokens == d.LossTokens(i, q)
      invariant |perRank| == q && forall k :: 0 <= k < q ==> perRank[k] == Total(Pick(d.trunc, d.Globals(k, i)))
    {
      var globals := Pick(d.ranks[q], members[q][i]);
      assert globals == d.Globals(q, i);
      docs := docs + |members[q][i]|;
      tokens := tokens + IntSum(Pick(d.loss, globals));
      perRank := perRank + [Total(Pick(d.trunc, globals))];
    }
  }

  method EqualiseMini(d: Deal, packed: seq<seq<seq<MicroPlan>>>, members: seq<seq<seq<nat>>>, r: nat, i: nat)
    returns (mini: MiniPlan)
    requires d.Valid() && r < |d.ranks| && i < d.Minis() && DealtAs(d, members, packed, |d.ranks|)
    ensures mini == d.Mini(r, i)
  {
    hide Deal.Micros, Deal.Docs, Deal.LossTokens, Deal.RankTokens, Deal.Minis, Deal.Valid, DealtAs;
    var micros := FillMicros(d, packed, members, r, i);
    var docs, tokens, perRank := GlobalDenominators(d, packed, members, i);
    mini := MiniPlan(micros, docs, tokens, perRank);
  }

  method AssembleRank(d: Deal, packed: seq<seq<seq<MicroPlan>>>, members: seq<seq<seq<nat>>>, r: nat)
    returns (minis: seq<MiniPlan>)
    requires d.Valid() && r < |d.ranks| && DealtAs(d, members, packed, |d.ranks|)
    ensures minis == d.RankPlan(r)
  {
    hide Deal.Mini, Deal.Minis, Deal.Valid, DealtAs;
    minis := [];
    for i := 0 to d.Minis()
      invariant minis == d.RankPlan(r)[..i]
    {
      var mini := EqualiseMini(d, packed, members, r, i);
      minis := minis + [mini];
    }
  }

  method PlanDealt(d: Deal) returns (perRank: seq<seq<MiniPlan>>)
    requires d.Valid()
    ensures perRank == d.AllRanks()
  {
    hide Deal.RankPlan, Deal.Valid, DealtAs;
    var members, packed := PackAllRanks(d);
    perRank := [];
    for r := 0 to |d.ranks|
      invariant perRank == d.AllRanks()[..r]
    {
      var minis := AssembleRank(d, packed, members, r);
      perRank := perRank + [minis];
    }
  }

  /** `build_plan`: a plan for every batch that can be dealt evenly, and an error in
      each remaining case. */
  method BuildPlanLoop(lengths: seq<nat>, loss: seq<int>, dpSize: int, cfg: PlannerConfig)
    returns (res: Result<Plan, PlanError>)
    requires cfg.Valid()
    ensures res.Ok? <==> |lengths| == |loss| > 0 && dpSize > 0 && |lengths| % dpSize == 0
    ensures |lengths| == 0 ==> res == Err(EmptyBatch)
    ensures |lengths| > 0 && |loss| != |lengths| ==> res == Err(SizeMismatch)
    ensures |lengths| == |loss| > 0 && (dpSize <= 0 || |lengths| % dpSize != 0) ==> res == Err(NotDivisible)
    ensures res == BuildPlan(lengths, loss, dpSize, cfg)
  {
    hide Deal.AllRanks, Snake, SortByLength;
    if |lengths| == 0 { return Err(EmptyBatch); }
    if |loss| != |lengths| { return Err(SizeMismatch); }
    if dpSize <= 0 || |lengths| % dpSize != 0 { return Err(NotDivisible); }
    var trunc := Truncate(lengths, cfg.seqLen);
    RanksAreEqual(trunc, dpSize);
    var ranks := SnakeLoop(SortByLength(Range(|trunc|), trunc), dpSize);
    var d := Deal(cfg, trunc, loss, ranks, |lengths| / dpSize);
    assert d == DealOf(cfg, lengths, loss, dpSize);
    var perRank := PlanDealt(d);
    return Ok(Plan(perRank, ranks));
  }
}

/** What a plan preserves: the masked loss of an optimizer step is the plain mean
    over its samples, whatever the sharding, the packing and the layout
    (meshy/backend/titan/opd.py, meshy/backend/titan/trainer.py). */
module LossMeaning {
  import Arithmetic
  import opened Wrappers
  import opened Sequences
  import opened PlanTypes
  import opened PlanDeal
  import opened PlanPacking
  import opened Planner
  import opened PlanTheorems
  import opened TensorLayout
  import opened MicroBatch
  import opened LayoutTheorems

  /** `calculate_per_token_loss` or the default sequence mean. */
  datatype Reduction = TokenMean | SequenceMean

  function AtLeast1(x: real): (r: real)
    ensures r >= 1.0
  {
    if x < 1.0 then 1.0 else x
  }

  function Max1(n: int): (r: real)
    ensures r >= 1.0
  {
    if n < 1 then 1.0 else n as real
  }

  function Denominator(red: Reduction, mini: MiniPlan): (r: real)
    ensures r >= 1.0
  {
    if red == TokenMean then Max1(mini.tokensGlobal) else Max1(mini.docsGlobal)
  }

  // ---- what the trainer computes ----------------------------------------------------

  /** The segment term of document `k`: its masked sum, averaged over its own
      tokens under the sequence mean. */
  ghost function SegmentTerm(red: Reduction, b: Batch, perToken: seq<seq<real>>, k: nat): real
    requires |Flatten(b.docIds)| == |Flatten(b.mask)| && |perToken| == |b.mask|
    requires forall i :: 0 <= i < |perToken| ==> |perToken[i]| == |b.mask[i]|
    requires |Flatten(MulRows(perToken, b.mask))| == |Flatten(b.docIds)|
  {
    var sum := SegSum(Flatten(b.docIds), Flatten(MulRows(perToken, b.mask)), k);
    if red == TokenMean then sum else sum / AtLeast1(SegSum(Flatten(b.docIds), Flatten(b.mask), k))
  }

  /** The model's output for a micro-batch has the shape of its tensors. */
  ghost predicate OutputFits(samples: seq<Sample>, micro: MicroPlan, layout: Layout, perToken: seq<seq<real>>) {
    Feeds(samples, micro, layout) && Shaped(perToken, layout, micro.docLens, micro.seqLen)
  }

  lemma TermIsDefined(samples: seq<Sample>, micro: MicroPlan, layout: Layout, perToken: seq<seq<real>>)
    requires OutputFits(samples, micro, layout, perToken)
    ensures var b := BuildBatch(samples, micro, layout);
      && |Flatten(b.docIds)| == |Flatten(b.mask)| && |perToken| == |b.mask|
      && (forall i :: 0 <= i < |perToken| ==> |perToken[i]| == |b.mask[i]|)
      && |Flatten(MulRows(perToken, b.mask))| == |Flatten(b.docIds)|
  {
    var b := BuildBatch(samples, micro, layout);
    FlattenLength(b.docIds);
    FlattenLength(b.mask);
    FlattenLength(MulRows(perToken, b.mask));
    assert Lens(b.docIds) == Lens(b.mask) == Lens(MulRows(perToken, b.mask));
  }

  /** The sum over the first `upTo` real documents; padding slots never count. */
  ghost function SegmentTerms(red: Reduction, samples: seq<Sample>, micro: MicroPlan, layout: Layout,
                              perToken: seq<seq<real>>, upTo: nat): real
    requires OutputFits(samples, micro, layout, perToken) && upTo <= |micro.docLens|
  {
    if upTo == 0 then 0.0
    else
      TermIsDefined(samples, micro, layout, perToken);
      SegmentTerms(red, samples, micro, layout, perToken, upTo - 1)
        + SegmentTerm(red, BuildBatch(samples, micro, layout), perToken, upTo - 1)
  }

  /** One micro-batch's loss. */
  ghost function MicroLoss(red: Reduction, samples: seq<Sample>, micro: MicroPlan, layout: Layout,
                           perToken: seq<seq<real>>, mini: MiniPlan): real
    requires OutputFits(samples, micro, layout, perToken)
  {
    SegmentTerms(red, samples, micro, layout, perToken, |micro.docLens|) / Denominator(red, mini)
  }

  // ---- what it means -----------------------------------------------------------------

  function Window(sample: Sample, seqLen: nat): (len: nat)
    ensures len <= |sample.tokens|
  {
    if |sample.tokens| < seqLen then |sample.tokens| else seqLen
  }

  /** Per-token losses of sample `g`, as a function of the sample alone. */
  type TokenLoss = (nat, nat) -> real

  function LossDoc(ell: TokenLoss, g: nat, len: nat): (doc: seq<real>)
    ensures |doc| == len
  {
    seq(len, t requires 0 <= t < len => ell(g, t))
  }

  /** A sample's own masked loss, averaged over its tokens under the sequence mean. */
  function SampleTerm(red: Reduction, batch: seq<Sample>, seqLen: nat, ell: TokenLoss, g: nat): real {
    if g < |batch| && batch[g].Valid() then
      var len := Window(batch[g], seqLen);
      var sum := RealSum(Mul(LossDoc(ell, g, len), MaskDoc(batch[g], len)));
      if red == TokenMean then sum else sum / AtLeast1(RealSum(MaskDoc(batch[g], len)))
    else 0.0
  }

  function TermOf(red: Reduction, batch: seq<Sample>, seqLen: nat, ell: TokenLoss): nat -> real {
    (g: nat) => SampleTerm(red, batch, seqLen, ell, g)
  }

  /** The plain mean over a set of samples. */
  function PlainMean(red: Reduction, batch: seq<Sample>, loss: seq<int>, seqLen: nat, ell: TokenLoss, samples: seq<nat>): real
    requires InRange(samples, |loss|)
  {
    SumAt(samples, TermOf(red, batch, seqLen, ell))
      / if red == TokenMean then Max1(IntSum(Pick(loss, samples))) else Max1(|samples|)
  }

  // ---- one micro-batch ------------------------------------------------------------------

  ghost predicate CellIs(rows: seq<seq<real>>, cell: (nat, nat), value: real) {
    cell.0 < |rows| && cell.1 < |rows[cell.0]| && rows[cell.0][cell.1] == value
  }

  /** The model sees each document alone: its output at a token that has a
      successor is the sample's own loss there. Every other cell is arbitrary. */
  ghost predicate Faithful(micro: MicroPlan, layout: Layout, perToken: seq<seq<real>>, globals: seq<nat>, ell: TokenLoss) {
    forall j, t :: 0 <= j < |micro.docLens| && j < |micro.sampleIdx| && micro.sampleIdx[j] < |globals| && 0 <= t && t + 1 < micro.docLens[j] ==>
      CellIs(perToken, Cell(layout, micro.docLens, j, t), ell(globals[micro.sampleIdx[j]], t))
  }

  /** The micro-batch cuts each of its samples at the sequence window. */
  ghost predicate Windowed(samples: seq<Sample>, micro: MicroPlan, seqLen: nat)
    requires |micro.sampleIdx| == |micro.docLens| && InRange(micro.sampleIdx, |samples|)
  {
    forall j :: 0 <= j < |micro.docLens| ==> micro.docLens[j] == Window(samples[micro.sampleIdx[j]], seqLen)
  }

  lemma SameProduct(values: seq<real>, own: seq<real>, mask: seq<real>)
    requires |values| == |own| == |mask|
    requires forall t :: 0 <= t && t + 1 < |mask| ==> values[t] == own[t]
    requires mask != [] ==> mask[|mask| - 1] == 0.0
    ensures Mul(values, mask) == Mul(own, mask)
  {
    forall t | 0 <= t < |mask| ensures Mul(values, mask)[t] == Mul(own, mask)[t] {
      if t + 1 == |mask| { assert values[t] * 0.0 == own[t] * 0.0; }
    }
  }

  lemma TermIsTheSamples(red: Reduction, batch: seq<Sample>, seqLen: nat, globals: seq<nat>, micro: MicroPlan, layout: Layout,
                         perToken: seq<seq<real>>, ell: TokenLoss, k: nat)
    requires InRange(globals, |batch|) && OutputFits(Pick(batch, globals), micro, layout, perToken)
    requires Windowed(Pick(batch, globals), micro, seqLen) && Faithful(micro, layout, perToken, globals, ell)
    requires k < |micro.docLens|
    ensures var b := BuildBatch(Pick(batch, globals), micro, layout);
      && |Flatten(b.docIds)| == |Flatten(b.mask)| && |perToken| == |b.mask|
      && (forall i :: 0 <= i < |perToken| ==> |perToken[i]| == |b.mask[i]|)
      && |Flatten(MulRows(perToken, b.mask))| == |Flatten(b.docIds)|
      && SegmentTerm(red, b, perToken, k) == SampleTerm(red, batch, seqLen, ell, globals[micro.sampleIdx[k]])
  {
    hide BuildBatch, Split, Mul, MulRows, SegSum, Shaped, Room;
    var samples := Pick(batch, globals);
    TermIsDefined(samples, micro, layout, perToken);
    MaskedDocumentSum(samples, micro, layout, perToken, k);
    MaskedDocumentCount(samples, micro, layout, k);
    var g, len := globals[micro.sampleIdx[k]], micro.docLens[k];
    forall t | 0 <= t && t + 1 < len
      ensures Split(layout, perToken, micro.docLens, micro.seqLen)[k][t] == ell(g, t)
    {
      SplitAt(layout, perToken, micro.docLens, micro.seqLen, k, t);
      assert CellIs(perToken, Cell(layout, micro.docLens, k, t), ell(globals[micro.sampleIdx[k]], t));
    }
    SameProduct(Split(layout, perToken, micro.docLens, micro.seqLen)[k], LossDoc(ell, g, len), MaskDoc(batch[g], len));
  }

  lemma {:induction false} TermsAreTheSamples(red: Reduction, batch: seq<Sample>, seqLen: nat, globals: seq<nat>, micro: MicroPlan,
                                              layout: Layout, perToken: seq<seq<real>>, ell: TokenLoss, upTo: nat)
    requires InRange(globals, |batch|) && OutputFits(Pick(batch, globals), micro, layout, perToken)
    requires Windowed(Pick(batch, globals), micro, seqLen) && Faithful(micro, layout, perToken, globals, ell)
    requires upTo <= |micro.docLens|
    ensures SegmentTerms(red, Pick(batch, globals), micro, layout, perToken, upTo)
      == SumAt(Pick(globals, micro.sampleIdx[..upTo]), TermOf(red, batch, seqLen, ell))
  {
    hide BuildBatch, Split, SegmentTerm, SampleTerm, Faithful, Windowed, Shaped, Room;
    if upTo > 0 {
      TermsAreTheSamples(red, batch, seqLen, globals, micro, layout, perToken, ell, upTo - 1);
      TermIsTheSamples(red, batch, seqLen, globals, micro, layout, perToken, ell, upTo - 1);
      var before, g := Pick(globals, micro.sampleIdx[..upTo - 1]), globals[micro.sampleIdx[upTo - 1]];
      assert Pick(globals, micro.sampleIdx[..upTo]) == before + [g];
      SumAtSplit(before, [g], TermOf(red, batch, seqLen, ell));
      SumAtOne(g, TermOf(red, batch, seqLen, ell));
    }
  }

  lemma SumAtOne(g: nat, f: nat -> real)
    ensures SumAt([g], f) == f(g)
  {
    assert SumAt([g], f) == f(g) + SumAt([], f);
  }

  /** A micro-batch's loss is its own samples' share of the mean. */
  lemma MicroLossIsItsShare(red: Reduction, batch: seq<Sample>, seqLen: nat, globals: seq<nat>, micro: MicroPlan, layout: Layout,
                            perToken: seq<seq<real>>, ell: TokenLoss, mini: MiniPlan)
    requires InRange(globals, |batch|) && OutputFits(Pick(batch, globals), micro, layout, perToken)
    requires Windowed(Pick(batch, globals), micro, seqLen) && Faithful(micro, layout, perToken, globals, ell)
    ensures MicroLoss(red, Pick(batch, globals), micro, layout, perToken, mini)
      == SumAt(Pick(globals, micro.sampleIdx), TermOf(red, batch, seqLen, ell)) / Denominator(red, mini)
  {
    TermsAreTheSamples(red, batch, seqLen, globals, micro, layout, perToken, ell, |micro.docLens|);
    assert micro.sampleIdx[..|micro.docLens|] == micro.sampleIdx;
  }

  // ---- the whole optimizer step ------------------------------------------------------------

  /** `_sample_lengths`: token counts, and tokens that carry loss after the shift. */
  function Lengths(batch: seq<Sample>): (r: seq<nat>)
    ensures |r| == |batch| && forall g :: 0 <= g < |r| ==> r[g] == |batch[g].tokens|
  {
    seq(|batch|, g requires 0 <= g < |batch| => |batch[g].tokens|)
  }

  function CountPositive(mask: seq<real>): nat {
    if mask == [] then 0 else (if mask[0] > 0.0 then 1 else 0) + CountPositive(mask[1..])
  }

  function LossCount(sample: Sample, seqLen: nat): nat
    requires sample.Valid()
  {
    var len := Window(sample, seqLen);
    if len > 1 then CountPositive(sample.mask[1..len]) else 0
  }

  predicate AllValid(batch: seq<Sample>) {
    forall g :: 0 <= g < |batch| ==> batch[g].Valid()
  }

  function LossCounts(batch: seq<Sample>, seqLen: nat): (r: seq<int>)
    requires AllValid(batch)
    ensures |r| == |batch| && forall g :: 0 <= g < |r| ==> r[g] == LossCount(batch[g], seqLen)
  {
    seq(|batch|, g requires 0 <= g < |batch| => LossCount(batch[g], seqLen))
  }

  /** For a 0/1 mask the loss tokens are exactly the shifted mask's weight. */
  lemma LossCountIsMaskWeight(sample: Sample, seqLen: nat)
    requires sample.Valid() && forall t :: 0 <= t < |sample.mask| ==> sample.mask[t] == 0.0 || sample.mask[t] == 1.0
    ensures LossCount(sample, seqLen) as real == RealSum(MaskDoc(sample, Window(sample, seqLen)))
  {
    var len := Window(sample, seqLen);
    MaskDocSum(sample, len);
    if len > 0 { CountIsWeight(sample.mask[1..len]); }
    if len == 1 { assert sample.mask[1..1] == []; }
  }

  lemma {:induction false} CountIsWeight(mask: seq<real>)
    requires forall t :: 0 <= t < |mask| ==> mask[t] == 0.0 || mask[t] == 1.0
    ensures CountPositive(mask) as real == RealSum(mask)
  {
    if mask != [] { CountIsWeight(mask[1..]); }
  }

  /** A step: the plan of this batch. */
  ghost predicate StepOf(batch: seq<Sample>, dpSize: int, cfg: PlannerConfig, plan: Plan) {
    AllValid(batch) && Planned(Lengths(batch), LossCounts(batch, cfg.seqLen), dpSize, cfg, plan)
  }

  /** The model's output for micro-batch `m` of mini-batch `i` on rank `r`. */
  type Forward = (nat, nat, nat) -> seq<seq<real>>

  /** Every forward pass is well shaped and sees its own documents. */
  ghost predicate ForwardOk(plan: Plan, layout: Layout, out: Forward, ell: TokenLoss) {
    forall r, i, m :: 0 <= r < |plan.perRank| && r < |plan.localIndices| && 0 <= i < |plan.perRank[r]| && 0 <= m < |plan.perRank[r][i].micros| ==>
      && Shaped(out(r, i, m), layout, plan.perRank[r][i].micros[m].docLens, plan.perRank[r][i].micros[m].seqLen)
      && Faithful(plan.perRank[r][i].micros[m], layout, out(r, i, m), plan.localIndices[r], ell)
  }

  /** The plan never asks for a layout that the samples do not fit. */
  lemma PlanFeedsLayout(batch: seq<Sample>, dpSize: int, cfg: PlannerConfig, plan: Plan, r: nat, i: nat, m: nat)
    requires StepOf(batch, dpSize, cfg, plan)
    requires r < |plan.perRank| && i < |plan.perRank[r]| && m < |plan.perRank[r][i].micros|
    ensures r < |plan.localIndices| && InRange(plan.localIndices[r], |batch|)
    ensures Feeds(Pick(batch, plan.localIndices[r]), plan.perRank[r][i].micros[m], cfg.layout)
    ensures Windowed(Pick(batch, plan.localIndices[r]), plan.perRank[r][i].micros[m], cfg.seqLen)
  {
    hide Planned, Safe;
    var lengths, loss := Lengths(batch), LossCounts(batch, cfg.seqLen);
    MicrosAreRunnable(lengths, loss, dpSize, cfg, plan, r, i, m);
    ConfigIsValid(lengths, loss, dpSize, cfg, plan);
    var globals, micro := plan.localIndices[r], plan.perRank[r][i].micros[m];
    var cut := Pick(Truncate(lengths, cfg.seqLen), globals);
    if micro != Filler(cfg) {
      forall j | 0 <= j < |micro.docLens|
        ensures micro.docLens[j] == Window(Pick(batch, globals)[micro.sampleIdx[j]], cfg.seqLen)
      {
        assert micro.docLens[j] == cut[micro.sampleIdx[j]];
      }
    }
  }

  lemma ConfigIsValid(lengths: seq<nat>, loss: seq<int>, dpSize: int, cfg: PlannerConfig, plan: Plan)
    requires Planned(lengths, loss, dpSize, cfg, plan)
    ensures cfg.Valid()
  {
  }

  ghost predicate Ready(batch: seq<Sample>, plan: Plan, layout: Layout, out: Forward, r: nat, i: nat) {
    && r < |plan.perRank| && r < |plan.localIndices| && InRange(plan.localIndices[r], |batch|) && i < |plan.perRank[r]|
    && forall m :: 0 <= m < |plan.perRank[r][i].micros| ==>
      OutputFits(Pick(batch, plan.localIndices[r]), plan.perRank[r][i].micros[m], layout, out(r, i, m))
  }

  lemma StepIsReady(batch: seq<Sample>, dpSize: int, cfg: PlannerConfig, plan: Plan, out: Forward, ell: TokenLoss, r: nat, i: nat)
    requires StepOf(batch, dpSize, cfg, plan) && ForwardOk(plan, cfg.layout, out, ell)
    requires r < |plan.perRank| && i < |plan.perRank[r]|
    ensures Ready(batch, plan, cfg.layout, out, r, i)
  {
    hide Planned, Feeds, Windowed;
    var lengths, loss := Lengths(batch), LossCounts(batch, cfg.seqLen);
    RankIsInBatch(lengths, loss, dpSize, cfg, plan, r);
    forall m | 0 <= m < |plan.perRank[r][i].micros|
      ensures OutputFits(Pick(batch, plan.localIndices[r]), plan.perRank[r][i].micros[m], cfg.layout, out(r, i, m))
    {
      PlanFeedsLayout(batch, dpSize, cfg, plan, r, i, m);
    }
  }

  lemma RankIsInBatch(lengths: seq<nat>, loss: seq<int>, dpSize: int, cfg: PlannerConfig, plan: Plan, r: nat)
    requires Planned(lengths, loss, dpSize, cfg, plan) && r < |plan.perRank|
    ensures r < |plan.localIndices| && InRange(plan.localIndices[r], |lengths|)
  {
    PlanIsADeal(lengths, loss, dpSize, cfg, plan);
  }

  /** What rank `r` accumulates over the first `upTo` micro-batches. */
  ghost function RankLoss(red: Reduction, batch: seq<Sample>, plan: Plan, layout: Layout, out: Forward, r: nat, i: nat, upTo: nat): real
    requires Ready(batch, plan, layout, out, r, i) && upTo <= |plan.perRank[r][i].micros|
  {
    if upTo == 0 then 0.0
    else
      RankLoss(red, batch, plan, layout, out, r, i, upTo - 1)
        + MicroLoss(red, Pick(batch, plan.localIndices[r]), plan.perRank[r][i].micros[upTo - 1], layout, out(r, i, upTo - 1), plan.perRank[r][i])
  }

  ghost predicate AllReady(batch: seq<Sample>, plan: Plan, layout: Layout, out: Forward, i: nat) {
    forall r :: 0 <= r < |plan.perRank| ==> Ready(batch, plan, layout, out, r, i)
  }

  /** The gradient all-reduce sums the ranks' losses of mini-batch `i`. */
  ghost function StepLoss(red: Reduction, batch: seq<Sample>, plan: Plan, layout: Layout, out: Forward, i: nat, upTo: nat): real
    requires AllReady(batch, plan, layout, out, i) && upTo <= |plan.perRank|
  {
    if upTo == 0 then 0.0
    else
      assert Ready(batch, plan, layout, out, upTo - 1, i);
      StepLoss(red, batch, plan, layout, out, i, upTo - 1)
        + RankLoss(red, batch, plan, layout, out, upTo - 1, i, |plan.perRank[upTo - 1][i].micros|)
  }

  /** The samples a rank's first `upTo` micro-batches name, by global index. */
  ghost function NamedBy(plan: Plan, r: nat, i: nat, upTo: nat): seq<nat>
    requires NamesLocal(plan, r, i) && upTo <= |plan.perRank[r][i].micros|
  {
    if upTo == 0 then []
    else NamedBy(plan, r, i, upTo - 1) + Pick(plan.localIndices[r], plan.perRank[r][i].micros[upTo - 1].sampleIdx)
  }

  ghost predicate NamesLocal(plan: Plan, r: nat, i: nat) {
    && r < |plan.perRank| && r < |plan.localIndices| && i < |plan.perRank[r]|
    && forall m :: 0 <= m < |plan.perRank[r][i].micros| ==> InRange(plan.perRank[r][i].micros[m].sampleIdx, |plan.localIndices[r]|)
  }

  /** The samples of mini-batch `i` on the first `upTo` ranks, read off the plan. */
  ghost function StepSamples(plan: Plan, i: nat, upTo: nat): seq<nat>
    requires upTo <= |plan.perRank| && forall r :: 0 <= r < |plan.perRank| ==> NamesLocal(plan, r, i)
  {
    if upTo == 0 then []
    else
      assert NamesLocal(plan, upTo - 1, i);
      StepSamples(plan, i, upTo - 1) + NamedBy(plan, upTo - 1, i, |plan.perRank[upTo - 1][i].micros|)
  }

  lemma ReadyNames(batch: seq<Sample>, plan: Plan, layout: Layout, out: Forward, r: nat, i: nat)
    requires Ready(batch, plan, layout, out, r, i)
    ensures NamesLocal(plan, r, i)
  {
    forall m | 0 <= m < |plan.perRank[r][i].micros|
      ensures InRange(plan.perRank[r][i].micros[m].sampleIdx, |plan.localIndices[r]|)
    {
      assert OutputFits(Pick(batch, plan.localIndices[r]), plan.perRank[r][i].micros[m], layout, out(r, i, m));
    }
  }

  lemma Share(a: real, b: real, c: real)
    requires c >= 1.0
    ensures a / c + b / c == (a + b) / c
  {
  }

  lemma MicroShare(red: Reduction, batch: seq<Sample>, dpSize: int, cfg: PlannerConfig, plan: Plan,
                   out: Forward, ell: TokenLoss, r: nat, i: nat, m: nat)
    requires StepOf(batch, dpSize, cfg, plan) && ForwardOk(plan, cfg.layout, out, ell)
    requires Ready(batch, plan, cfg.layout, out, r, i) && NamesLocal(plan, r, i) && m < |plan.perRank[r][i].micros|
    ensures OutputFits(Pick(batch, plan.localIndices[r]), plan.perRank[r][i].micros[m], cfg.layout, out(r, i, m))
    ensures MicroLoss(red, Pick(batch, plan.localIndices[r]), plan.perRank[r][i].micros[m], cfg.layout, out(r, i, m), plan.perRank[r][i])
      == SumAt(Pick(plan.localIndices[r], plan.perRank[r][i].micros[m].sampleIdx), TermOf(red, batch, cfg.seqLen, ell))
         / Denominator(red, plan.perRank[r][i])
  {
    hide StepOf, MicroLoss, TermOf, Denominator, OutputFits, Faithful, Shaped, Feeds, Windowed, SumAt;
    PlanFeedsLayout(batch, dpSize, cfg, plan, r, i, m);
    MicroLossIsItsShare(red, batch, cfg.seqLen, plan.localIndices[r], plan.perRank[r][i].micros[m], cfg.layout, out(r, i, m), ell, plan.perRank[r][i]);
  }

  lemma {:induction false} RankLossIsItsShare(red: Reduction, batch: seq<Sample>, dpSize: int, cfg: PlannerConfig, plan: Plan,
                                              out: Forward, ell: TokenLoss, r: nat, i: nat, upTo: nat)
    requires StepOf(batch, dpSize, cfg, plan) && ForwardOk(plan, cfg.layout, out, ell)
    requires Ready(batch, plan, cfg.layout, out, r, i) && NamesLocal(plan, r, i) && upTo <= |plan.perRank[r][i].micros|
    ensures RankLoss(red, batch, plan, cfg.layout, out, r, i, upTo)
      == SumAt(NamedBy(plan, r, i, upTo), TermOf(red, batch, cfg.seqLen, ell)) / Denominator(red, plan.perRank[r][i])
  {
    hide StepOf, ForwardOk, MicroLoss, TermOf, Denominator, OutputFits, Ready, InRange, Pick, SumAt;
    var f, mini := TermOf(red, batch, cfg.seqLen, ell), plan.perRank[r][i];
    if upTo > 0 {
      RankLossIsItsShare(red, batch, dpSize, cfg, plan, out, ell, r, i, upTo - 1);
      MicroShare(red, batch, dpSize, cfg, plan, out, ell, r, i, upTo - 1);
      var last := Pick(plan.localIndices[r], mini.micros[upTo - 1].sampleIdx);
      SumAtSplit(NamedBy(plan, r, i, upTo - 1), last, f);
      Share(SumAt(NamedBy(plan, r, i, upTo - 1), f), SumAt(last, f), Denominator(red, mini));
    } else {
      NothingIsNoShare(f, Denominator(red, mini));
    }
  }

  lemma NothingIsNoShare(f: nat -> real, c: real)
    requires c >= 1.0
    ensures SumAt([], f) / c == 0.0
  {
  }

  lemma AllAreReady(batch: seq<Sample>, dpSize: int, cfg: PlannerConfig, plan: Plan, out: Forward, ell: TokenLoss, i: nat)
    requires StepOf(batch, dpSize, cfg, plan) && ForwardOk(plan, cfg.layout, out, ell)
    requires forall r :: 0 <= r < |plan.perRank| ==> i < |plan.perRank[r]|
    ensures AllReady(batch, plan, cfg.layout, out, i)
    ensures forall r :: 0 <= r < |plan.perRank| ==> NamesLocal(plan, r, i)
  {
    hide StepOf, ForwardOk, Ready, NamesLocal;
    forall r | 0 <= r < |plan.perRank| ensures Ready(batch, plan, cfg.layout, out, r, i) && NamesLocal(plan, r, i) {
      StepIsReady(batch, dpSize, cfg, plan, out, ell, r, i);
      ReadyNames(batch, plan, cfg.layout, out, r, i);
    }
  }

  lemma {:induction false} StepLossIsTheSum(red: Reduction, batch: seq<Sample>, dpSize: int, cfg: PlannerConfig, plan: Plan,
                                            out: Forward, ell: TokenLoss, i: nat, upTo: nat, denominator: real)
    requires StepOf(batch, dpSize, cfg, plan) && ForwardOk(plan, cfg.layout, out, ell)
    requires AllReady(batch, plan, cfg.layout, out, i) && upTo <= |plan.perRank|
    requires forall r :: 0 <= r < |plan.perRank| ==> NamesLocal(plan, r, i) && Denominator(red, plan.perRank[r][i]) == denominator
    requires denominator >= 1.0
    ensures StepLoss(red, batch, plan, cfg.layout, out, i, upTo)
      == SumAt(StepSamples(plan, i, upTo), TermOf(red, batch, cfg.seqLen, ell)) / denominator
  {
    hide StepOf, ForwardOk, TermOf, Denominator, OutputFits, NamedBy, RankLoss;
    var f := TermOf(red, batch, cfg.seqLen, ell);
    if upTo > 0 {
      StepLossIsTheSum(red, batch, dpSize, cfg, plan, out, ell, i, upTo - 1, denominator);
      var r := upTo - 1;
      assert Ready(batch, plan, cfg.layout, out, r, i) && NamesLocal(plan, r, i);
      var count := |plan.perRank[r][i].micros|;
      RankLossIsItsShare(red, batch, dpSize, cfg, plan, out, ell, r, i, count);
      SumAtSplit(StepSamples(plan, i, r), NamedBy(plan, r, i, count), f);
      Share(SumAt(StepSamples(plan, i, r), f), SumAt(NamedBy(plan, r, i, count), f), denominator);
    }
  }

  // ---- the samples and the denominators of a step ---------------------------------------

  lemma {:induction false} NamedIsFlat(plan: Plan, r: nat, i: nat, upTo: nat)
    requires NamesLocal(plan, r, i) && upTo <= |plan.perRank[r][i].micros|
    ensures InRange(Flatten(SampleLists(plan.perRank[r][i].micros[..upTo])), |plan.localIndices[r]|)
    ensures NamedBy(plan, r, i, upTo) == Pick(plan.localIndices[r], Flatten(SampleLists(plan.perRank[r][i].micros[..upTo])))
  {
    var micros, globals := plan.perRank[r][i].micros, plan.localIndices[r];
    if upTo > 0 {
      NamedIsFlat(plan, r, i, upTo - 1);
      var before, last := SampleLists(micros[..upTo - 1]), micros[upTo - 1].sampleIdx;
      assert SampleLists(micros[..upTo]) == before + [last];
      FlattenSplit(before, [last]);
      FlattenSingle(last);
      PickSplit(globals, Flatten(before), last);
    }
  }

  lemma RankNamesItsMembers(d: Deal, plan: Plan, r: nat, i: nat)
    requires d.Valid() && plan == DealPlan(d) && r < |d.ranks| && i < d.Minis() && NamesLocal(plan, r, i)
    ensures plan.perRank[r][i].micros == d.Micros(r, i)
    ensures multiset(NamedBy(plan, r, i, |plan.perRank[r][i].micros|)) == multiset(d.Globals(r, i))
  {
    hide Deal.Micros, Deal.Members, NamesLocal, NamedBy;
    assert plan.perRank[r][i] == d.Mini(r, i);
    var micros := d.Micros(r, i);
    NamedIsFlat(plan, r, i, |micros|);
    assert micros[..|micros|] == micros;
    MicrosPartition(d, r, i);
    PickPermutes(d.ranks[r], Flatten(SampleLists(micros)), d.Members(r, i));
  }

  lemma {:induction false} StepSamplesAreDealt(d: Deal, plan: Plan, i: nat, upTo: nat)
    requires d.Valid() && plan == DealPlan(d) && upTo <= |d.ranks| && i < d.Minis()
    requires forall r :: 0 <= r < |plan.perRank| ==> NamesLocal(plan, r, i)
    ensures |plan.perRank| == |d.ranks|
    ensures multiset(StepSamples(plan, i, upTo)) == multiset(MiniSamples(d, i, upTo))
  {
    hide NamedBy, Deal.Globals, Deal.Valid, DealPlan, Deal.Minis, StepSamples, MiniSamples, InRange, Flatten, Range;
    DealHasRanks(d, plan);
    if upTo > 0 {
      StepSamplesAreDealt(d, plan, i, upTo - 1);
      RankNamesItsMembers(d, plan, upTo - 1, i);
      NextRank(d, plan, i, upTo);
      BagsJoin(StepSamples(plan, i, upTo - 1), NamedBy(plan, upTo - 1, i, |plan.perRank[upTo - 1][i].micros|),
               MiniSamples(d, i, upTo - 1), d.Globals(upTo - 1, i));
    } else {
      NoRank(d, plan, i);
    }
  }

  lemma NextRank(d: Deal, plan: Plan, i: nat, upTo: nat)
    requires d.Valid() && |plan.perRank| == |d.ranks| && 0 < upTo <= |d.ranks| && i < d.Minis()
    requires forall r :: 0 <= r < |plan.perRank| ==> NamesLocal(plan, r, i)
    ensures NamesLocal(plan, upTo - 1, i)
    ensures StepSamples(plan, i, upTo)
         == StepSamples(plan, i, upTo - 1) + NamedBy(plan, upTo - 1, i, |plan.perRank[upTo - 1][i].micros|)
    ensures MiniSamples(d, i, upTo) == MiniSamples(d, i, upTo - 1) + d.Globals(upTo - 1, i)
  {
    hide NamedBy, Deal.Globals, Deal.Valid, Deal.Minis;
  }

  lemma NoRank(d: Deal, plan: Plan, i: nat)
    requires d.Valid() && |plan.perRank| == |d.ranks| && i < d.Minis()
    requires forall r :: 0 <= r < |plan.perRank| ==> NamesLocal(plan, r, i)
    ensures StepSamples(plan, i, 0) == MiniSamples(d, i, 0) == []
  {
    hide Deal.Valid, Deal.Minis;
  }

  lemma DealHasRanks(d: Deal, plan: Plan)
    requires d.Valid() && plan == DealPlan(d)
    ensures |plan.perRank| == |d.ranks|
  {
  }

  lemma BagsJoin(a: seq<nat>, b: seq<nat>, c: seq<nat>, d: seq<nat>)
    requires multiset(a) == multiset(c) && multiset(b) == multiset(d)
    ensures multiset(a + b) == multiset(c + d)
  {
  }

  lemma PickSumPermutes(loss: seq<int>, a: seq<nat>, b: seq<nat>)
    requires multiset(a) == multiset(b) && InRange(b, |loss|)
    ensures InRange(a, |loss|) && |a| == |b| && IntSum(Pick(loss, a)) == IntSum(Pick(loss, b))
  {
    assert |multiset(a)| == |a| && |multiset(b)| == |b|;
    forall k | 0 <= k < |a| ensures a[k] < |loss| {
      assert a[k] in multiset(b);
    }
    var f := (g: nat) => if g < |loss| then loss[g] else 0;
    PickCount(loss, a, f);
    PickCount(loss, b, f);
    CountPermutes(a, b, f);
  }

  /** The global denominators of mini-batch `i` count exactly its samples. */
  lemma DenominatorsAreTrue(lengths: seq<nat>, loss: seq<int>, dpSize: int, cfg: PlannerConfig, plan: Plan, i: nat)
    requires Planned(lengths, loss, dpSize, cfg, plan)
    requires forall r :: 0 <= r < |plan.perRank| ==> i < |plan.perRank[r]| && NamesLocal(plan, r, i)
    ensures InRange(StepSamples(plan, i, |plan.perRank|), |loss|)
    ensures forall r :: 0 <= r < |plan.perRank| ==>
      && plan.perRank[r][i].docsGlobal == |StepSamples(plan, i, |plan.perRank|)|
      && plan.perRank[r][i].tokensGlobal == IntSum(Pick(loss, StepSamples(plan, i, |plan.perRank|)))
  {
    PlanIsADeal(lengths, loss, dpSize, cfg, plan);
    var d := DealOf(cfg, lengths, loss, dpSize);
    assert NamesLocal(plan, 0, i);
    StepSamplesAreDealt(d, plan, i, dpSize);
    PickSumPermutes(loss, StepSamples(plan, i, dpSize), MiniSamples(d, i, dpSize));
    forall r | 0 <= r < dpSize
      ensures plan.perRank[r][i].docsGlobal == |MiniSamples(d, i, dpSize)|
      ensures plan.perRank[r][i].tokensGlobal == IntSum(Pick(loss, MiniSamples(d, i, dpSize)))
    {
      assert NamesLocal(plan, r, i);
      MiniDenominators(d, r, i);
    }
  }

  // ---- the main results --------------------------------------------------------------------

  /** The plan preserves meaning: summed over every rank and micro-batch, the
      masked loss of mini-batch `i` is the plain mean over its samples. */
  lemma PlanPreservesMeaning(red: Reduction, batch: seq<Sample>, dpSize: int, cfg: PlannerConfig, plan: Plan,
                             out: Forward, ell: TokenLoss, i: nat)
    requires StepOf(batch, dpSize, cfg, plan) && ForwardOk(plan, cfg.layout, out, ell)
    requires forall r :: 0 <= r < |plan.perRank| ==> i < |plan.perRank[r]|
    ensures AllReady(batch, plan, cfg.layout, out, i)
    ensures forall r :: 0 <= r < |plan.perRank| ==> NamesLocal(plan, r, i)
    ensures InRange(StepSamples(plan, i, |plan.perRank|), |batch|)
    ensures StepLoss(red, batch, plan, cfg.layout, out, i, |plan.perRank|)
      == PlainMean(red, batch, LossCounts(batch, cfg.seqLen), cfg.seqLen, ell, StepSamples(plan, i, |plan.perRank|))
  {
    hide ForwardOk, AllReady, NamesLocal, Planned, TermOf, StepSamples, StepLoss;
    var lengths, loss := Lengths(batch), LossCounts(batch, cfg.seqLen);
    AllAreReady(batch, dpSize, cfg, plan, out, ell, i);
    DenominatorsAreTrue(lengths, loss, dpSize, cfg, plan, i);
    PlanHasRanks(lengths, loss, dpSize, cfg, plan);
    StepLossIsTheSum(red, batch, dpSize, cfg, plan, out, ell, i, |plan.perRank|, Denominator(red, plan.perRank[0][i]));
  }

  lemma PlanHasRanks(lengths: seq<nat>, loss: seq<int>, dpSize: int, cfg: PlannerConfig, plan: Plan)
    requires Planned(lengths, loss, dpSize, cfg, plan)
    ensures |plan.perRank| == dpSize > 0
  {
    PlanIsADeal(lengths, loss, dpSize, cfg, plan);
  }

  /** With one mini-batch its samples are the whole batch. */
  lemma SingleStepIsTheBatch(lengths: seq<nat>, loss: seq<int>, dpSize: int, cfg: PlannerConfig, plan: Plan)
    requires Planned(lengths, loss, dpSize, cfg, plan)
    requires forall r :: 0 <= r < |plan.perRank| ==> |plan.perRank[r]| == 1 && NamesLocal(plan, r, 0)
    ensures multiset(StepSamples(plan, 0, |plan.perRank|)) == multiset(Range(|lengths|))
  {
    PlanIsADeal(lengths, loss, dpSize, cfg, plan);
    var d := DealOf(cfg, lengths, loss, dpSize);
    assert |plan.perRank[0]| == d.Minis();
    RanksPartition(d.trunc, dpSize);
    MinisAreTheBatch(d);
    StepSamplesAreDealt(d, plan, 0, dpSize);
    assert AllSamples(d, 0) == [];
    assert AllSamples(d, 1) == AllSamples(d, 0) + MiniSamples(d, 0, dpSize);
  }

  /** With a single mini-batch the loss is the plain mean over the batch: it does
      not depend on the DP size, the token budget or the layout. */
  lemma OneStepIsTheBatchMean(red: Reduction, batch: seq<Sample>, dpSize: int, cfg: PlannerConfig, plan: Plan, out: Forward, ell: TokenLoss)
    requires StepOf(batch, dpSize, cfg, plan) && ForwardOk(plan, cfg.layout, out, ell)
    requires forall r :: 0 <= r < |plan.perRank| ==> |plan.perRank[r]| == 1
    ensures AllReady(batch, plan, cfg.layout, out, 0)
    ensures StepLoss(red, batch, plan, cfg.layout, out, 0, |plan.perRank|)
      == PlainMean(red, batch, LossCounts(batch, cfg.seqLen), cfg.seqLen, ell, Range(|batch|))
  {
    hide ForwardOk, AllReady, NamesLocal, Planned, TermOf, StepSamples, StepLoss;
    var lengths, loss := Lengths(batch), LossCounts(batch, cfg.seqLen);
    PlanPreservesMeaning(red, batch, dpSize, cfg, plan, out, ell, 0);
    SingleStepIsTheBatch(lengths, loss, dpSize, cfg, plan);
    var samples := StepSamples(plan, 0, |plan.perRank|);
    PickSumPermutes(loss, samples, Range(|batch|));
    SumAtPermutes(samples, Range(|batch|), TermOf(red, batch, cfg.seqLen, ell));
  }

  /** Two trainers with different parallelism, budgets and layouts compute the
      same loss for the same batch and model. */
  lemma ShardingDoesNotMatter(red: Reduction, batch: seq<Sample>, ell: TokenLoss,
                              dpA: int, cfgA: PlannerConfig, planA: Plan, outA: Forward,
                              dpB: int, cfgB: PlannerConfig, planB: Plan, outB: Forward)
    requires cfgA.seqLen == cfgB.seqLen
    requires StepOf(batch, dpA, cfgA, planA) && ForwardOk(planA, cfgA.layout, outA, ell)
    requires StepOf(batch, dpB, cfgB, planB) && ForwardOk(planB, cfgB.layout, outB, ell)
    requires cfgA.miniBatchSize * dpA >= |batch| && cfgB.miniBatchSize * dpB >= |batch|
    ensures AllReady(batch, planA, cfgA.layout, outA, 0) && AllReady(batch, planB, cfgB.layout, outB, 0)
    ensures StepLoss(red, batch, planA, cfgA.layout, outA, 0, |planA.perRank|)
      == StepLoss(red, batch, planB, cfgB.layout, outB, 0, |planB.perRank|)
  {
    hide ForwardOk, AllReady, Planned, StepLoss;
    OneMiniBatch(Lengths(batch), LossCounts(batch, cfgA.seqLen), dpA, cfgA, planA);
    OneMiniBatch(Lengths(batch), LossCounts(batch, cfgB.seqLen), dpB, cfgB, planB);
    OneStepIsTheBatchMean(red, batch, dpA, cfgA, planA, outA, ell);
    OneStepIsTheBatchMean(red, batch, dpB, cfgB, planB, outB, ell);
  }

  /** A mini-batch that covers the rank's share is the only one. */
  lemma OneMiniBatch(lengths: seq<nat>, loss: seq<int>, dpSize: int, cfg: PlannerConfig, plan: Plan)
    requires Planned(lengths, loss, dpSize, cfg, plan) && cfg.miniBatchSize * dpSize >= |lengths|
    ensures forall r :: 0 <= r < |plan.perRank| ==> |plan.perRank[r]| == 1
  {
    PlanIsADeal(lengths, loss, dpSize, cfg, plan);
    var d := DealOf(cfg, lengths, loss, dpSize);
    RanksAreEqual(d.trunc, dpSize);
    ShareFits(d.local, cfg.miniBatchSize, dpSize);
    MiniCountBounds(cfg, d.local);
  }

  lemma ShareFits(local: nat, size: nat, dpSize: nat)
    requires dpSize > 0 && local * dpSize <= size * dpSize
    ensures local <= size
  {
    Arithmetic.QuotientMonotone(local, size, dpSize);
  }
}

/** The planner's configuration and the plan it produces
    (meshy/backend/titan/plan.py). */
module PlanTypes {
  import opened Arithmetic
  import opened Wrappers

  datatype Layout = Padded | Packed

  datatype PlannerConfig = PlannerConfig(
    layout: Layout, miniBatchSize: nat, seqLen: nat, align: nat,
    maxTokens: Option<nat>, microRows: Option<nat>) {
    /** Exactly what the source's constructor accepts. */
    predicate Valid() {
      && miniBatchSize > 0 && align > 0 && seqLen > 0 && seqLen % align == 0
      && (maxTokens.Some? ==> maxTokens.value > 0)
      && (microRows.Some? ==> microRows.value > 0)
      && (maxTokens.Some? || microRows.Some?)
      && (layout == Packed ==> maxTokens.Some?)
    }
  }

  /** One forward/backward pass over rank-local samples; no sample marks a filler. */
  datatype MicroPlan = MicroPlan(sampleIdx: seq<nat>, seqLen: nat, docLens: seq<nat>) {
    predicate IsFiller() { sampleIdx == [] }

    function Rows(): nat { if |sampleIdx| == 0 then 1 else |sampleIdx| }
  }

  /** One optimizer step with its global loss denominators. */
  datatype MiniPlan = MiniPlan(micros: seq<MicroPlan>, docsGlobal: nat, tokensGlobal: int, tokensPerRank: seq<nat>)

  datatype Plan = Plan(perRank: seq<seq<MiniPlan>>, localIndices: seq<seq<nat>>)

  datatype PlanError = EmptyBatch | SizeMismatch | NotDivisible

  predicate InRange(s: seq<nat>, n: nat) {
    forall i :: 0 <= i < |s| ==> s[i] < n
  }

  function Total(lens: seq<nat>): nat {
    if lens == [] then 0 else lens[0] + Total(lens[1..])
  }

  function Pick<T>(values: seq<T>, indices: seq<nat>): (r: seq<T>)
    requires InRange(indices, |values|)
    ensures |r| == |indices| && forall i :: 0 <= i < |r| ==> r[i] == values[indices[i]]
  {
    seq(|indices|, i requires 0 <= i < |indices| => values[indices[i]])
  }

  function RoundUp(x: nat, align: nat): nat
    requires align > 0
  {
    Blocks(x, align) * align
  }

  function Blocks(x: nat, align: nat): nat
    requires align > 0
  {
    (x + align - 1) / align
  }

  lemma RoundUpMultiple(x: nat, align: nat)
    requires align > 0
    ensures RoundUp(x, align) % align == 0
    ensures x <= RoundUp(x, align) < x + align
  {
    Fundamental(x + align - 1, align);
    QuotientOf(Blocks(x, align), 0, align);
  }

  /** Rounding up reaches the first multiple of `align` at or above `x`, and
      rounding two lengths apart never gives less than rounding them together. */
  lemma RoundUpIsTight(x: nat, y: nat, align: nat)
    requires align > 0
    ensures RoundUp(x, align) % align == 0
    ensures x <= RoundUp(x, align) < x + align
    ensures x <= y ==> RoundUp(x, align) <= RoundUp(y, align)
    ensures RoundUp(x + y, align) <= RoundUp(x, align) + RoundUp(y, align)
  {
    RoundUpMultiple(x, align);
    RoundUpMultiple(y, align);
    RoundUpMultiple(x + y, align);
    hide Blocks;
    CoversAreTight(x, y, align, Blocks(x, align), Blocks(y, align), Blocks(x + y, align));
  }

  lemma CoversAreTight(x: nat, y: nat, align: nat, a: nat, b: nat, c: nat)
    requires align > 0 && x <= a * align < x + align && y <= b * align < y + align
    requires x + y <= c * align < x + y + align
    ensures x <= y ==> a * align <= b * align
    ensures c * align <= a * align + b * align
  {
    if x <= y { QuotientMonotone(a, b, align); }
    assert (a + b) * align == a * align + b * align;
    QuotientMonotone(c, a + b, align);
  }
}

/** First-fit-decreasing packing of a rank's samples into micro-batches
    (`_pack_micros`). */
module PlanPacking {
  import opened Arithmetic
  import opened Wrappers
  import opened Sequences
  import opened PlanTypes
  import opened PlanDeal

  /** A micro-batch under construction: `size` is the row length when padded and
      the running total when packed. */
  datatype OpenMicro = OpenMicro(positions: seq<nat>, docLens: seq<nat>, size: nat)

  predicate Fits(cfg: PlannerConfig, m: OpenMicro, len: nat)
    requires cfg.Valid()
  {
    match cfg.maxTokens
    case None => |m.positions| < cfg.microRows.value
    case Some(budget) =>
      if cfg.layout == Padded then (|m.positions| + 1) * m.size <= budget
      else RoundUp(m.size + len, cfg.align) <= budget
  }

  function AddTo(cfg: PlannerConfig, m: OpenMicro, p: nat, len: nat): OpenMicro {
    OpenMicro(m.positions + [p], m.docLens + [len], if cfg.layout == Packed then m.size + len else m.size)
  }

  function OpenFor(cfg: PlannerConfig, p: nat, len: nat): OpenMicro
    requires cfg.Valid()
  {
    OpenMicro([p], [len], if cfg.layout == Padded then RoundUp(len, cfg.align) else len)
  }

  /** The first micro-batch with room takes the sample, else a new one opens. */
  function Place(cfg: PlannerConfig, micros: seq<OpenMicro>, p: nat, len: nat): seq<OpenMicro>
    requires cfg.Valid()
  {
    if micros == [] then [OpenFor(cfg, p, len)]
    else if Fits(cfg, micros[0], len) then [AddTo(cfg, micros[0], p, len)] + micros[1..]
    else [micros[0]] + Place(cfg, micros[1..], p, len)
  }

  function PlaceAll(cfg: PlannerConfig, order: seq<nat>, lens: seq<nat>): seq<OpenMicro>
    requires cfg.Valid() && InRange(order, |lens|)
  {
    if order == [] then []
    else
      var k := |order| - 1;
      Place(cfg, PlaceAll(cfg, order[..k], lens), order[k], lens[order[k]])
  }

  function CloseMicro(cfg: PlannerConfig, m: OpenMicro): MicroPlan
    requires cfg.Valid()
  {
    MicroPlan(m.positions, if cfg.layout == Padded then m.size else RoundUp(m.size, cfg.align), m.docLens)
  }

  function CloseAll(cfg: PlannerConfig, open: seq<OpenMicro>): (r: seq<MicroPlan>)
    requires cfg.Valid()
    ensures |r| == |open| && forall i :: 0 <= i < |r| ==> r[i] == CloseMicro(cfg, open[i])
  {
    seq(|open|, i requires 0 <= i < |open| => CloseMicro(cfg, open[i]))
  }

  function PackMicros(cfg: PlannerConfig, positions: seq<nat>, lens: seq<nat>): seq<MicroPlan>
    requires cfg.Valid() && InRange(positions, |lens|)
  {
    CloseAll(cfg, PlaceAll(cfg, SortByLength(positions, lens), lens))
  }

  function Filler(cfg: PlannerConfig): MicroPlan {
    MicroPlan([], cfg.align, [])
  }

  // ---- the packing written as the source's nested loops -----------------------------

  lemma PlaceSkips(cfg: PlannerConfig, micros: seq<OpenMicro>, i: nat, p: nat, len: nat)
    requires cfg.Valid() && i <= |micros|
    requires forall j :: 0 <= j < i ==> !Fits(cfg, micros[j], len)
    ensures Place(cfg, micros, p, len) == micros[..i] + Place(cfg, micros[i..], p, len)
  {
    if i > 0 {
      PlaceSkips(cfg, micros[1..], i - 1, p, len);
      assert micros[1..][i - 1..] == micros[i..];
      assert micros[..i] == [micros[0]] + micros[1..][..i - 1];
    }
  }

  lemma PlaceAt(cfg: PlannerConfig, micros: seq<OpenMicro>, i: nat, p: nat, len: nat)
    requires cfg.Valid() && i <= |micros|
    requires forall j :: 0 <= j < i ==> !Fits(cfg, micros[j], len)
    ensures i == |micros| ==> Place(cfg, micros, p, len) == micros + [OpenFor(cfg, p, len)]
    ensures i < |micros| && Fits(cfg, micros[i], len) ==>
      Place(cfg, micros, p, len) == micros[i := AddTo(cfg, micros[i], p, len)]
  {
    hide Fits, AddTo, OpenFor;
    PlaceSkips(cfg, micros, i, p, len);
  }

  lemma PlaceNext(cfg: PlannerConfig, order: seq<nat>, k: nat, lens: seq<nat>)
    requires cfg.Valid() && InRange(order, |lens|) && k < |order|
    ensures PlaceAll(cfg, order[..k + 1], lens) == Place(cfg, PlaceAll(cfg, order[..k], lens), order[k], lens[order[k]])
  {
    hide Place;
    assert order[..k + 1][..k] == order[..k];
  }

  lemma PlaceNone(cfg: PlannerConfig, lens: seq<nat>)
    requires cfg.Valid()
    ensures PlaceAll(cfg, [], lens) == []
  {
  }

  method PackMicrosLoop(cfg: PlannerConfig, positions: seq<nat>, lens: seq<nat>) returns (packed: seq<MicroPlan>)
    requires cfg.Valid() && InRange(positions, |lens|)
    ensures packed == PackMicros(cfg, positions, lens)
  {
    hide Fits, AddTo, OpenFor, Place, PlaceAll, SortByLength, CloseMicro;
    var order := SortByLength(positions, lens);
    var micros: seq<OpenMicro> := [];
    PlaceNone(cfg, lens);
    for k := 0 to |order|
      invariant micros == PlaceAll(cfg, order[..k], lens)
    {
      var p, len := order[k], lens[order[k]];
      ghost var before := micros;
      var placed, i := false, 0;
      while i < |micros| && !placed
        invariant i <= |before|
        invariant !placed ==> micros == before && forall j :: 0 <= j < i ==> !Fits(cfg, before[j], len)
        invariant placed ==> micros == Place(cfg, before, p, len)
        decreases !placed, |micros| - i
      {
        if Fits(cfg, micros[i], len) {
          PlaceAt(cfg, before, i, p, len);
          micros := micros[i := AddTo(cfg, micros[i], p, len)];
          placed := true;
        } else {
          i := i + 1;
        }
      }
      if !placed {
        PlaceAt(cfg, before, |before|, p, len);
        micros := micros + [OpenFor(cfg, p, len)];
      }
      PlaceNext(cfg, order, k, lens);
    }
    assert order[..|order|] == order;
    packed := [];
    for i := 0 to |micros|
      invariant |packed| == i && forall j :: 0 <= j < i ==> packed[j] == CloseMicro(cfg, micros[j])
    {
      packed := packed + [CloseMicro(cfg, micros[i])];
    }
  }

  // ---- what every open micro-batch keeps ---------------------------------------------

  /** Its documents are its samples, and `size` is what the layout needs for them. */
  predicate Consistent(cfg: PlannerConfig, m: OpenMicro, lens: seq<nat>)
    requires cfg.Valid()
  {
    && |m.positions| == |m.docLens| > 0
    && InRange(m.positions, |lens|)
    && (forall j :: 0 <= j < |m.docLens| ==> m.docLens[j] == lens[m.positions[j]] && m.docLens[j] <= m.docLens[0])
    && m.size == if cfg.layout == Padded then RoundUp(m.docLens[0], cfg.align) else Total(m.docLens)
  }

  /** The row cap, or the token budget as soon as two samples share the micro-batch. */
  predicate WithinLimits(cfg: PlannerConfig, m: OpenMicro)
    requires cfg.Valid()
  {
    match cfg.maxTokens
    case None => |m.positions| <= cfg.microRows.value
    case Some(budget) =>
      |m.positions| > 1 ==>
        if cfg.layout == Padded then |m.positions| * m.size <= budget else RoundUp(m.size, cfg.align) <= budget
  }

  /** `m` could not have been given a sample of the later micro-batch `later`. */
  predicate Closed(cfg: PlannerConfig, m: OpenMicro, later: OpenMicro)
    requires cfg.Valid()
  {
    match cfg.maxTokens
    case None => |m.positions| >= cfg.microRows.value
    case Some(budget) =>
      if cfg.layout == Padded then (|m.positions| + 1) * m.size > budget
      else RoundUp(m.size + later.size, cfg.align) > budget
  }

  predicate WellPacked(cfg: PlannerConfig, micros: seq<OpenMicro>, lens: seq<nat>)
    requires cfg.Valid()
  {
    && (forall i :: 0 <= i < |micros| ==> Consistent(cfg, micros[i], lens) && WithinLimits(cfg, micros[i]))
    && (forall i, j :: 0 <= i < j < |micros| ==> Closed(cfg, micros[i], micros[j]))
  }

  predicate HeadsAtLeast(micros: seq<OpenMicro>, len: nat) {
    forall i :: 0 <= i < |micros| ==> |micros[i].docLens| > 0 && micros[i].docLens[0] >= len
  }

  function Positions(micros: seq<OpenMicro>): (r: seq<seq<nat>>)
    ensures |r| == |micros| && forall i :: 0 <= i < |r| ==> r[i] == micros[i].positions
  {
    seq(|micros|, i requires 0 <= i < |micros| => micros[i].positions)
  }

  lemma {:induction false} TotalAppend(s: seq<nat>, x: nat)
    ensures Total(s + [x]) == Total(s) + x
  {
    if s != [] {
      assert (s + [x])[1..] == s[1..] + [x];
      TotalAppend(s[1..], x);
    }
  }

  lemma AddKeeps(cfg: PlannerConfig, m: OpenMicro, p: nat, lens: seq<nat>)
    requires cfg.Valid() && Consistent(cfg, m, lens) && p < |lens|
    requires lens[p] <= m.docLens[0] && Fits(cfg, m, lens[p])
    ensures Consistent(cfg, AddTo(cfg, m, p, lens[p]), lens)
    ensures WithinLimits(cfg, AddTo(cfg, m, p, lens[p]))
  {
    TotalAppend(m.docLens, lens[p]);
  }

  lemma OpenKeeps(cfg: PlannerConfig, p: nat, lens: seq<nat>)
    requires cfg.Valid() && p < |lens|
    ensures Consistent(cfg, OpenFor(cfg, p, lens[p]), lens)
    ensures WithinLimits(cfg, OpenFor(cfg, p, lens[p]))
  {
    TotalAppend([], lens[p]);
  }

  /** Growing either side keeps a pair closed. */
  lemma ClosedGrows(cfg: PlannerConfig, m: OpenMicro, later: OpenMicro, p: nat, len: nat)
    requires cfg.Valid() && Closed(cfg, m, later)
    ensures Closed(cfg, AddTo(cfg, m, p, len), later)
    ensures Closed(cfg, m, AddTo(cfg, later, p, len))
  {
    if cfg.layout == Packed {
      RoundUpIsTight(m.size + later.size, m.size + later.size + len, cfg.align);
      assert m.size + (later.size + len) == (m.size + len) + later.size == m.size + later.size + len;
    } else {
      assert (|m.positions| + 2) * m.size == (|m.positions| + 1) * m.size + m.size;
    }
  }

  lemma RefusalCloses(cfg: PlannerConfig, m: OpenMicro, p: nat, len: nat)
    requires cfg.Valid() && !Fits(cfg, m, len)
    ensures Closed(cfg, m, OpenFor(cfg, p, len))
  {
  }

  /** `m` is closed against every micro-batch of `micros`. */
  predicate ClosesAll(cfg: PlannerConfig, m: OpenMicro, micros: seq<OpenMicro>)
    requires cfg.Valid()
  {
    forall j :: 0 <= j < |micros| ==> Closed(cfg, m, micros[j])
  }

  /** A micro-batch that is closed and refuses the sample is closed afterwards. */
  lemma {:induction false} PlaceCloses(cfg: PlannerConfig, m: OpenMicro, micros: seq<OpenMicro>, p: nat, len: nat)
    requires cfg.Valid() && ClosesAll(cfg, m, micros) && !Fits(cfg, m, len)
    ensures ClosesAll(cfg, m, Place(cfg, micros, p, len))
  {
    hide Closed, Fits;
    if micros == [] {
      RefusalCloses(cfg, m, p, len);
    } else if Fits(cfg, micros[0], len) {
      ClosedGrows(cfg, m, micros[0], p, len);
    } else {
      PlaceCloses(cfg, m, micros[1..], p, len);
    }
  }

  /** Placing one more sample, no longer than those placed before. */
  lemma {:induction false} PlaceKeeps(cfg: PlannerConfig, micros: seq<OpenMicro>, p: nat, lens: seq<nat>)
    requires cfg.Valid() && p < |lens| && WellPacked(cfg, micros, lens) && HeadsAtLeast(micros, lens[p])
    ensures WellPacked(cfg, Place(cfg, micros, p, lens[p]), lens)
    ensures HeadsAtLeast(Place(cfg, micros, p, lens[p]), lens[p])
  {
    hide Closed, Consistent, WithinLimits, Fits, AddTo, OpenFor;
    var len := lens[p];
    var after := Place(cfg, micros, p, len);
    if micros == [] {
      OpenKeeps(cfg, p, lens);
      OpenHead(cfg, p, len);
    } else if Fits(cfg, micros[0], len) {
      AddKeeps(cfg, micros[0], p, lens);
      AddHead(cfg, micros[0], p, lens);
      forall j | 0 < j < |micros| ensures Closed(cfg, after[0], after[j]) {
        ClosedGrows(cfg, micros[0], micros[j], p, len);
      }
    } else {
      PlaceKeeps(cfg, micros[1..], p, lens);
      PlaceCloses(cfg, micros[0], micros[1..], p, len);
    }
  }

  lemma OpenHead(cfg: PlannerConfig, p: nat, len: nat)
    requires cfg.Valid()
    ensures OpenFor(cfg, p, len).docLens == [len]
  {
  }

  lemma AddHead(cfg: PlannerConfig, m: OpenMicro, p: nat, lens: seq<nat>)
    requires cfg.Valid() && Consistent(cfg, m, lens) && p < |lens|
    ensures |m.docLens| > 0 && AddTo(cfg, m, p, lens[p]).docLens[0] == m.docLens[0]
  {
  }

  lemma FirstPositions(micros: seq<OpenMicro>)
    requires micros != []
    ensures Flatten(Positions(micros)) == micros[0].positions + Flatten(Positions(micros[1..]))
  {
    assert Positions(micros)[1..] == Positions(micros[1..]);
  }

  lemma {:induction false} PlaceCovers(cfg: PlannerConfig, micros: seq<OpenMicro>, p: nat, len: nat)
    requires cfg.Valid()
    ensures multiset(Flatten(Positions(Place(cfg, micros, p, len)))) == multiset(Flatten(Positions(micros))) + multiset{p}
  {
    hide Fits, Flatten, Positions;
    var after := Place(cfg, micros, p, len);
    FirstPositions(after);
    if micros == [] {
      assert after[1..] == [];
      NoPositions();
    } else {
      FirstPositions(micros);
      if Fits(cfg, micros[0], len) {
        assert after[0].positions == micros[0].positions + [p] && after[1..] == micros[1..];
      } else {
        PlaceCovers(cfg, micros[1..], p, len);
        assert after[0] == micros[0] && after[1..] == Place(cfg, micros[1..], p, len);
      }
    }
  }

  lemma NoPositions()
    ensures Flatten(Positions([])) == []
  {
  }

  lemma {:induction false} PlaceAllKeeps(cfg: PlannerConfig, order: seq<nat>, lens: seq<nat>)
    requires cfg.Valid() && InRange(order, |lens|) && Descending(order, lens)
    ensures WellPacked(cfg, PlaceAll(cfg, order, lens), lens)
    ensures order != [] ==> HeadsAtLeast(PlaceAll(cfg, order, lens), lens[order[|order| - 1]])
    ensures multiset(Flatten(Positions(PlaceAll(cfg, order, lens)))) == multiset(order)
  {
    hide Consistent, WithinLimits, Closed, Place;
    if order == [] {
      assert Positions([]) == [];
    } else {
      var k := |order| - 1;
      PlaceAllKeeps(cfg, order[..k], lens);
      if k > 0 { assert Precedes(lens, order[k - 1], order[k]); }
      PlaceKeeps(cfg, PlaceAll(cfg, order[..k], lens), order[k], lens);
      PlaceCovers(cfg, PlaceAll(cfg, order[..k], lens), order[k], lens[order[k]]);
      assert order == order[..k] + [order[k]];
    }
  }

  // ---- the packed micro-batches ----------------------------------------------------------

  /** A finished micro-batch holds its samples' documents, each inside its row. */
  ghost predicate Sound(cfg: PlannerConfig, m: MicroPlan, lens: seq<nat>)
    requires cfg.Valid()
  {
    && |m.sampleIdx| == |m.docLens| > 0
    && InRange(m.sampleIdx, |lens|)
    && (forall j :: 0 <= j < |m.docLens| ==> m.docLens[j] == lens[m.sampleIdx[j]])
    && m.seqLen % cfg.align == 0
    && (cfg.layout == Padded ==> forall j :: 0 <= j < |m.docLens| ==> m.docLens[j] <= m.seqLen)
    && (cfg.layout == Padded ==> exists j :: 0 <= j < |m.docLens| && m.seqLen < m.docLens[j] + cfg.align)
    && (cfg.layout == Packed ==> Total(m.docLens) <= m.seqLen < Total(m.docLens) + cfg.align)
  }

  /** The tokens one forward pass of `m` runs over. */
  function Forward(cfg: PlannerConfig, m: MicroPlan): nat {
    if cfg.layout == Padded then m.Rows() * m.seqLen else m.seqLen
  }

  ghost predicate Safe(cfg: PlannerConfig, m: MicroPlan)
    requires cfg.Valid()
  {
    match cfg.maxTokens
    case None => |m.sampleIdx| <= cfg.microRows.value
    case Some(budget) => |m.sampleIdx| > 1 ==> Forward(cfg, m) <= budget
  }

  /** Nothing of `later` would have fitted into the earlier micro-batch `m`. */
  ghost predicate Full(cfg: PlannerConfig, m: MicroPlan, later: MicroPlan)
    requires cfg.Valid()
  {
    match cfg.maxTokens
    case None => |m.sampleIdx| == cfg.microRows.value
    case Some(budget) =>
      if cfg.layout == Padded then (|m.sampleIdx| + 1) * m.seqLen > budget
      else Forward(cfg, m) + Forward(cfg, later) > budget
  }

  function SampleLists(micros: seq<MicroPlan>): (r: seq<seq<nat>>)
    ensures |r| == |micros| && forall i :: 0 <= i < |r| ==> r[i] == micros[i].sampleIdx
  {
    seq(|micros|, i requires 0 <= i < |micros| => micros[i].sampleIdx)
  }

  lemma CloseIsSound(cfg: PlannerConfig, m: OpenMicro, lens: seq<nat>)
    requires cfg.Valid() && Consistent(cfg, m, lens) && WithinLimits(cfg, m)
    ensures Sound(cfg, CloseMicro(cfg, m), lens) && Safe(cfg, CloseMicro(cfg, m))
  {
    hide Total;
    RoundUpIsTight(if cfg.layout == Padded then m.docLens[0] else m.size, 0, cfg.align);
  }

  lemma ClosedIsFull(cfg: PlannerConfig, m: OpenMicro, later: OpenMicro)
    requires cfg.Valid() && WithinLimits(cfg, m) && Closed(cfg, m, later)
    ensures Full(cfg, CloseMicro(cfg, m), CloseMicro(cfg, later))
  {
    RoundUpIsTight(m.size, later.size, cfg.align);
  }

  /** First-fit-decreasing is exact, safe and tight. */
  lemma PackingIsSafeAndTight(cfg: PlannerConfig, positions: seq<nat>, lens: seq<nat>)
    requires cfg.Valid() && InRange(positions, |lens|)
    ensures multiset(Flatten(SampleLists(PackMicros(cfg, positions, lens)))) == multiset(positions)
    ensures forall m :: m in PackMicros(cfg, positions, lens) ==> Sound(cfg, m, lens) && Safe(cfg, m)
    ensures forall i, j :: 0 <= i < j < |PackMicros(cfg, positions, lens)| ==>
      Full(cfg, PackMicros(cfg, positions, lens)[i], PackMicros(cfg, positions, lens)[j])
  {
    hide Sound, Safe, Full, Consistent, WithinLimits, Closed, CloseMicro, PlaceAll;
    var order := SortByLength(positions, lens);
    SortIsDescending(positions, lens);
    PlaceAllKeeps(cfg, order, lens);
    var open, packed := PlaceAll(cfg, order, lens), PackMicros(cfg, positions, lens);
    forall i | 0 <= i < |packed|
      ensures Sound(cfg, packed[i], lens) && Safe(cfg, packed[i]) && packed[i].sampleIdx == open[i].positions
    {
      CloseIsSound(cfg, open[i], lens);
      CloseKeepsSamples(cfg, open[i]);
    }
    forall i, j | 0 <= i < j < |packed| ensures Full(cfg, packed[i], packed[j]) {
      ClosedIsFull(cfg, open[i], open[j]);
    }
    assert SampleLists(packed) == Positions(open);
  }

  lemma CloseKeepsSamples(cfg: PlannerConfig, m: OpenMicro)
    requires cfg.Valid()
    ensures CloseMicro(cfg, m).sampleIdx == m.positions
  {
  }

  // ---- how many micro-batches ---------------------------------------------------------------

  function ForwardTokens(cfg: PlannerConfig, micros: seq<MicroPlan>): nat {
    if micros == [] then 0 else Forward(cfg, micros[0]) + ForwardTokens(cfg, micros[1..])
  }

  lemma {:induction false} PairsFill(cfg: PlannerConfig, micros: seq<MicroPlan>, budget: nat)
    requires |micros| >= 2
    requires forall i, j :: 0 <= i < j < |micros| ==> Forward(cfg, micros[i]) + Forward(cfg, micros[j]) > budget
    ensures |micros| * budget < 2 * ForwardTokens(cfg, micros)
  {
    hide Forward;
    assert ForwardTokens(cfg, micros) == Forward(cfg, micros[0]) + (Forward(cfg, micros[1]) + ForwardTokens(cfg, micros[2..])) by {
      assert micros[1..][1..] == micros[2..];
    }
    if |micros| == 3 {
      assert ForwardTokens(cfg, micros[2..]) == Forward(cfg, micros[2]);
    } else if |micros| > 3 {
      PairsFill(cfg, micros[2..], budget);
      assert |micros| * budget == |micros[2..]| * budget + 2 * budget;
    }
  }

  lemma {:induction false} RowsFill(cfg: PlannerConfig, micros: seq<MicroPlan>, budget: nat)
    requires |micros| > 0
    requires forall i :: 0 <= i < |micros| - 1 ==> 2 * Forward(cfg, micros[i]) > budget
    ensures (|micros| - 1) * budget <= 2 * ForwardTokens(cfg, micros)
  {
    if |micros| > 1 {
      RowsFill(cfg, micros[1..], budget);
      assert (|micros| - 1) * budget == (|micros| - 2) * budget + budget;
    }
  }

  /** Under a token budget the micro-batches number at most twice the forward
      tokens over the budget, plus one when padded. */
  lemma MicroCountBound(cfg: PlannerConfig, positions: seq<nat>, lens: seq<nat>)
    requires cfg.Valid() && InRange(positions, |lens|) && cfg.maxTokens.Some?
    ensures var micros := PackMicros(cfg, positions, lens);
      && (cfg.layout == Packed && |micros| >= 2 ==> |micros| * cfg.maxTokens.value < 2 * ForwardTokens(cfg, micros))
      && (|micros| >= 1 ==> (|micros| - 1) * cfg.maxTokens.value <= 2 * ForwardTokens(cfg, micros))
  {
    hide PackMicros, Sound;
    var micros, budget := PackMicros(cfg, positions, lens), cfg.maxTokens.value;
    PackingIsSafeAndTight(cfg, positions, lens);
    if cfg.layout == Packed && |micros| >= 2 {
      PairsFill(cfg, micros, budget);
    } else if cfg.layout == Padded && |micros| >= 1 {
      forall i | 0 <= i < |micros| - 1 ensures 2 * Forward(cfg, micros[i]) > budget {
        assert Full(cfg, micros[i], micros[i + 1]);
        assert micros[i] in micros;
        FullRowsAreHalfTheBudget(cfg, micros[i], micros[i + 1], lens);
      }
      RowsFill(cfg, micros, budget);
    }
  }

  lemma FullRowsAreHalfTheBudget(cfg: PlannerConfig, m: MicroPlan, later: MicroPlan, lens: seq<nat>)
    requires cfg.Valid() && cfg.maxTokens.Some? && cfg.layout == Padded
    requires Sound(cfg, m, lens) && Full(cfg, m, later)
    ensures 2 * Forward(cfg, m) > cfg.maxTokens.value
  {
    hide Total;
    OneMoreRow(|m.sampleIdx|, m.seqLen);
  }

  lemma OneMoreRow(rows: nat, length: nat)
    requires rows >= 1
    ensures (rows + 1) * length <= 2 * (rows * length)
  {
    MulAtLeast(rows, length);
    assert (rows + 1) * length == rows * length + length;
  }
}

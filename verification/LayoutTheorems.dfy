/** Both layouts mean the same per-document definition. */
module LayoutTheorems {
  import opened Arithmetic
  import opened Sequences
  import opened PlanTypes
  import opened PlanDeal
  import opened PlanPacking
  import opened TensorLayout
  import opened MicroBatch

  /** Where token `t` of document `j` sits. */
  function Cell(layout: Layout, lens: seq<nat>, j: nat, t: nat): (nat, nat)
    requires j < |lens|
  {
    if layout == Packed then (0, Total(lens[..j]) + t) else (j, t)
  }

  lemma {:induction false} CutAt<T>(row: seq<T>, lens: seq<nat>, j: nat, t: nat)
    requires Total(lens) <= |row| && j < |lens| && t < lens[j]
    ensures Total(lens[..j]) + t < |row|
    ensures Cut(row, lens)[j][t] == row[Total(lens[..j]) + t]
  {
    if j == 0 {
      assert lens[..0] == [];
    } else {
      CutAt(row[lens[0]..], lens[1..], j - 1, t);
      assert lens[1..][..j - 1] == lens[..j][1..];
    }
  }

  lemma SplitAt<T>(layout: Layout, rows: seq<seq<T>>, lens: seq<nat>, width: nat, j: nat, t: nat)
    requires Shaped(rows, layout, lens, width) && Room(layout, lens, width) && j < |lens| && t < lens[j]
    ensures Cell(layout, lens, j, t).0 < |rows| && Cell(layout, lens, j, t).1 < width
    ensures Split(layout, rows, lens, width)[j][t] == rows[Cell(layout, lens, j, t).0][Cell(layout, lens, j, t).1]
  {
    if layout == Packed { CutAt(rows[0], lens, j, t); }
  }

  lemma {:induction false} IdsAt(lens: seq<nat>, first: nat, j: nat, t: nat)
    requires j < |lens| && t < lens[j]
    ensures Total(lens[..j]) + t < Total(lens)
    ensures IdsOf(lens, first)[Total(lens[..j]) + t] == first + j
  {
    if j == 0 {
      assert lens[..0] == [];
    } else {
      IdsAt(lens[1..], first + 1, j - 1, t);
      assert lens[1..][..j - 1] == lens[..j][1..];
    }
  }

  /** The shift stays inside the document: token `t` of document `j` is labelled
      and masked with token `t + 1` of the same document, the last one with zero. */
  lemma NextTokenAligned(samples: seq<Sample>, micro: MicroPlan, layout: Layout, j: nat, t: nat)
    requires Feeds(samples, micro, layout) && j < |micro.docLens| && t < micro.docLens[j]
    ensures var (row, col) := Cell(layout, micro.docLens, j, t);
      var b := BuildBatch(samples, micro, layout);
      var sample, last := samples[micro.sampleIdx[j]], t + 1 == micro.docLens[j];
      && row < |b.mask| && col < micro.seqLen
      && row < |b.inputIds| && row < |b.labels| && row < |b.rolloutLogprobs| && row < |b.docIds|
      && b.inputIds[row][col] == sample.tokens[t]
      && b.labels[row][col] == (if last then 0 else sample.tokens[t + 1])
      && b.mask[row][col] == (if last then 0.0 else sample.mask[t + 1])
      && b.rolloutLogprobs[row][col] == (if last then 0.0 else sample.logprobs[t + 1])
      && b.docIds[row][col] == j
  {
    hide LayOut, Split, DocIdRows, Room;
    var lens, width := micro.docLens, micro.seqLen;
    ColumnAt(layout, IntDocs(Tokens, samples, micro, layout), width, 0, j, t);
    ColumnAt(layout, IntDocs(Labels, samples, micro, layout), width, 0, j, t);
    ColumnAt(layout, MaskDocs(samples, micro, layout), width, 0.0, j, t);
    ColumnAt(layout, LogprobDocs(samples, micro, layout), width, 0.0, j, t);
    DocIdAt(layout, lens, width, j, t);
  }

  /** Positions count from the start of the document in both layouts: the cell of
      token `t` holds `t`. */
  lemma PositionsRestart(samples: seq<Sample>, micro: MicroPlan, layout: Layout, j: nat, t: nat)
    requires Feeds(samples, micro, layout) && j < |micro.docLens| && t < micro.docLens[j]
    ensures var (row, col) := Cell(layout, micro.docLens, j, t);
      var b := BuildBatch(samples, micro, layout);
      row < |b.positions| && col < |b.positions[row]| && b.positions[row][col] == t
  {
    if layout == Packed {
      var docs := IntDocs(Positions, samples, micro, layout);
      FlattenLength(docs);
      FlattenAt(docs, j, t);
      IdsAt(micro.docLens, 0, j, t);
    }
  }

  lemma {:induction false} FlattenAt<T>(docs: seq<seq<T>>, j: nat, t: nat)
    requires j < |docs| && t < |docs[j]|
    ensures Total(Lens(docs)[..j]) + t < |Flatten(docs)|
    ensures Flatten(docs)[Total(Lens(docs)[..j]) + t] == docs[j][t]
  {
    if j == 0 {
      assert Lens(docs)[..0] == [];
    } else {
      FlattenAt(docs[1..], j - 1, t);
      assert Lens(docs[1..])[..j - 1] == Lens(docs)[..j][1..];
    }
  }

  lemma ColumnAt<T>(layout: Layout, docs: seq<seq<T>>, width: nat, pad: T, j: nat, t: nat)
    requires Room(layout, Lens(docs), width) && j < |docs| && t < |docs[j]|
    ensures Cell(layout, Lens(docs), j, t).0 < RowCount(layout, |docs|) && Cell(layout, Lens(docs), j, t).1 < width
    ensures LayOut(layout, docs, width, pad)[Cell(layout, Lens(docs), j, t).0][Cell(layout, Lens(docs), j, t).1] == docs[j][t]
  {
    SplitInvertsLayout(layout, docs, width, pad);
    SplitAt(layout, LayOut(layout, docs, width, pad), Lens(docs), width, j, t);
  }

  lemma DocIdAt(layout: Layout, lens: seq<nat>, width: nat, j: nat, t: nat)
    requires Room(layout, lens, width) && j < |lens| && t < lens[j]
    ensures Cell(layout, lens, j, t).0 < RowCount(layout, |lens|) && Cell(layout, lens, j, t).1 < width
    ensures DocIdRows(layout, lens, width)[Cell(layout, lens, j, t).0][Cell(layout, lens, j, t).1] == j
  {
    if layout == Packed { IdsAt(lens, 0, j, t); }
  }

  /** What is not a token is inert: token and label 0, no mask, log-prob 0, a position that
      counts on or starts anew, and in the packed layout a document id of its own. */
  lemma PaddingIsInert(samples: seq<Sample>, micro: MicroPlan, layout: Layout, i: nat, t: nat)
    requires Feeds(samples, micro, layout) && i < RowCount(layout, |micro.docLens|) && t < micro.seqLen
    requires if layout == Packed then Total(micro.docLens) <= t else i < |micro.docLens| ==> micro.docLens[i] <= t
    ensures var b, n, used := BuildBatch(samples, micro, layout), |micro.docLens|, Total(micro.docLens);
      && i < |b.inputIds| && i < |b.labels| && i < |b.mask| && i < |b.rolloutLogprobs| && i < |b.docIds| && i < |b.positions|
      && b.inputIds[i][t] == b.labels[i][t] == 0 && b.mask[i][t] == b.rolloutLogprobs[i][t] == 0.0
      && b.docIds[i][t] == (if layout == Packed then n else i)
      && t < |b.positions[i]| && b.positions[i][t] == (if layout == Packed then t - used else t)
  {
    hide IntDoc, MaskDoc, LogprobDoc, IntDocs, MaskDocs, LogprobDocs, LayOut;
    PadAt(layout, IntDocs(Tokens, samples, micro, layout), micro.seqLen, 0, i, t);
    PadAt(layout, IntDocs(Labels, samples, micro, layout), micro.seqLen, 0, i, t);
    PadAt(layout, MaskDocs(samples, micro, layout), micro.seqLen, 0.0, i, t);
    PadAt(layout, LogprobDocs(samples, micro, layout), micro.seqLen, 0.0, i, t);
    FlattenLength(IntDocs(Positions, samples, micro, layout));
  }

  lemma PadAt<T>(layout: Layout, docs: seq<seq<T>>, width: nat, pad: T, i: nat, t: nat)
    requires Room(layout, Lens(docs), width) && i < RowCount(layout, |docs|) && t < width
    requires if layout == Packed then Total(Lens(docs)) <= t else i < |docs| ==> |docs[i]| <= t
    ensures LayOut(layout, docs, width, pad)[i][t] == pad
  {
    FlattenLength(docs);
  }

  // ---- what the attention kernel is told --------------------------------------------------

  lemma {:induction false} TotalsRise(lens: seq<nat>, i: nat, j: nat)
    requires i <= j <= |lens|
    ensures Total(lens[..i]) <= Total(lens[..j]) <= Total(lens)
    decreases j - i
  {
    if i < j {
      TotalUpTo(lens, j - 1);
      TotalsRise(lens, i, j - 1);
    } else if j < |lens| {
      TotalUpTo(lens, j);
    } else {
      assert lens[..|lens|] == lens;
    }
  }

  /** The document a cell of the packed row lies in. */
  lemma {:induction false} DocumentOf(lens: seq<nat>, t: nat, upTo: nat) returns (j: nat)
    requires upTo <= |lens| && t < Total(lens[..upTo])
    ensures j < upTo && Total(lens[..j]) <= t < Total(lens[..j + 1])
    decreases upTo
  {
    TotalUpTo(lens, upTo - 1);
    if Total(lens[..upTo - 1]) <= t { j := upTo - 1; } else { j := DocumentOf(lens, t, upTo - 1); }
  }

  /** The cell lies between the two neighbouring boundaries. */
  predicate Inside(cu: seq<nat>, s: nat, t: nat) {
    s + 1 < |cu| && cu[s] <= t < cu[s + 1]
  }

  /** The segment between two neighbouring boundaries that holds a cell is the one its
      document id names, and no other. */
  lemma SegmentOf(lens: seq<nat>, width: nat, t: nat) returns (s: nat)
    requires Total(lens) <= width && t < width
    ensures s == DocIdRows(Packed, lens, width)[0][t]
    ensures Inside(Boundaries(lens, width), s, t)
    ensures forall other: nat :: Inside(Boundaries(lens, width), other, t) ==> other == s
  {
    var cu := Boundaries(lens, width);
    assert lens[..|lens|] == lens;
    if t < Total(lens) {
      s := DocumentOf(lens, t, |lens|);
      TotalUpTo(lens, s);
      IdsAt(lens, 0, s, t - Total(lens[..s]));
    } else {
      s := |lens|;
    }
    forall other: nat | Inside(cu, other, t) ensures other == s {
      if other < s {
        TotalsRise(lens, other + 1, s);
      } else if other > s {
        TotalsRise(lens, s + 1, other);
      }
    }
  }

  /** Attention never crosses documents: two cells of the packed row are in one segment
      exactly when they carry the same document id. */
  lemma AttentionStaysInside(lens: seq<nat>, width: nat, t: nat, u: nat)
    requires Total(lens) <= width && t < width && u < width
    ensures var cu, ids := Boundaries(lens, width), DocIdRows(Packed, lens, width)[0];
      (exists s: nat :: Inside(cu, s, t) && Inside(cu, s, u)) <==> ids[t] == ids[u]
  {
    hide Boundaries, DocIdRows, Inside;
    var a := SegmentOf(lens, width, t);
    var b := SegmentOf(lens, width, u);
  }

  // ---- products and sums --------------------------------------------------------------

  function Mul(a: seq<real>, b: seq<real>): (r: seq<real>)
    requires |a| == |b|
    ensures |r| == |a| && forall t :: 0 <= t < |r| ==> r[t] == a[t] * b[t]
  {
    seq(|a|, t requires 0 <= t < |a| => a[t] * b[t])
  }

  function MulRows(a: seq<seq<real>>, b: seq<seq<real>>): (r: seq<seq<real>>)
    requires |a| == |b| && forall i :: 0 <= i < |a| ==> |a[i]| == |b[i]|
    ensures |r| == |a| && forall i :: 0 <= i < |r| ==> r[i] == Mul(a[i], b[i])
  {
    seq(|a|, i requires 0 <= i < |a| => Mul(a[i], b[i]))
  }

  lemma SplitOfProduct(layout: Layout, a: seq<seq<real>>, b: seq<seq<real>>, lens: seq<nat>, width: nat, j: nat)
    requires Shaped(a, layout, lens, width) && Shaped(b, layout, lens, width) && Room(layout, lens, width) && j < |lens|
    ensures Shaped(MulRows(a, b), layout, lens, width)
    ensures Split(layout, MulRows(a, b), lens, width)[j] == Mul(Split(layout, a, lens, width)[j], Split(layout, b, lens, width)[j])
  {
    hide Split, Mul;
    var left, right := Split(layout, MulRows(a, b), lens, width)[j], Mul(Split(layout, a, lens, width)[j], Split(layout, b, lens, width)[j]);
    forall t | 0 <= t < lens[j] ensures left[t] == right[t] {
      SplitAt(layout, a, lens, width, j, t);
      SplitAt(layout, b, lens, width, j, t);
      SplitAt(layout, MulRows(a, b), lens, width, j, t);
    }
  }

  lemma {:induction false} ZeroSum(x: seq<real>)
    requires forall t :: 0 <= t < |x| ==> x[t] == 0.0
    ensures RealSum(x) == 0.0
  {
    if x != [] { ZeroSum(x[1..]); }
  }

  /** Padded rows carry nothing behind their document. */
  ghost predicate TailsZero(layout: Layout, rows: seq<seq<real>>, lens: seq<nat>) {
    layout == Padded ==> forall j, t :: 0 <= j < |lens| && j < |rows| && lens[j] <= t < |rows[j]| ==> rows[j][t] == 0.0
  }

  lemma {:induction false} RowIdsFlat(n: nat, width: nat, first: nat)
    ensures Flatten(RowIds(n, width, first)) == IdsOf(Repeat(width, n), first)
  {
    if n > 0 {
      assert RowIds(n, width, first)[1..] == RowIds(n - 1, width, first + 1);
      assert Repeat(width, n)[1..] == Repeat(width, n - 1);
      RowIdsFlat(n - 1, width, first + 1);
    }
  }

  /** The segment sum of a document is the sum over its own slice, in either
      layout, whatever the packed padding holds. */
  lemma SegmentIsDocument(layout: Layout, rows: seq<seq<real>>, lens: seq<nat>, width: nat, k: nat)
    requires Shaped(rows, layout, lens, width) && Room(layout, lens, width) && TailsZero(layout, rows, lens) && k < |lens|
    ensures |Flatten(DocIdRows(layout, lens, width))| == |Flatten(rows)|
    ensures SegSum(Flatten(DocIdRows(layout, lens, width)), Flatten(rows), k) == RealSum(Split(layout, rows, lens, width)[k])
  {
    if layout == Packed {
      PackedSegment(rows[0], lens, width, k);
      assert rows == [rows[0]];
      FlattenSingle(rows[0]);
      FlattenSingle(IdsOf(lens, 0) + Repeat<nat>(|lens|, width - Total(lens)));
    } else {
      PaddedSegment(rows, lens, width, k);
    }
  }

  lemma FlattenSingle<T>(row: seq<T>)
    ensures Flatten([row]) == row
  {
    assert Flatten([row]) == row + Flatten([]);
  }

  lemma PackedSegment(row: seq<real>, lens: seq<nat>, width: nat, k: nat)
    requires |row| == width && Total(lens) <= width && k < |lens|
    ensures SegSum(IdsOf(lens, 0) + Repeat<nat>(|lens|, width - Total(lens)), row, k) == RealSum(Cut(row, lens)[k])
  {
    var parts, tail := Cut(row, lens), row[Total(lens)..];
    FlatOfCut(row, lens);
    FlattenLength(parts);
    assert Lens(parts) == lens;
    SegSumOfParts(parts, 0, k);
    SegSumConstant(|lens|, tail, k);
    SegSumSplit(IdsOf(lens, 0), Flatten(parts), Repeat<nat>(|lens|, |tail|), tail, k);
  }

  lemma PaddedSegment(rows: seq<seq<real>>, lens: seq<nat>, width: nat, k: nat)
    requires Shaped(rows, Padded, lens, width) && Room(Padded, lens, width) && TailsZero(Padded, rows, lens) && k < |lens|
    ensures |Flatten(DocIdRows(Padded, lens, width))| == |Flatten(rows)|
    ensures SegSum(Flatten(DocIdRows(Padded, lens, width)), Flatten(rows), k) == RealSum(rows[k][..lens[k]])
  {
    RowIdsFlat(|lens|, width, 0);
    assert Lens(rows) == Repeat(width, |lens|);
    SegSumOfParts(rows, 0, k);
    assert rows[k] == rows[k][..lens[k]] + rows[k][lens[k]..];
    RealSumSplit(rows[k][..lens[k]], rows[k][lens[k]..]);
    ZeroSum(rows[k][lens[k]..]);
  }

  lemma MaskTails(samples: seq<Sample>, micro: MicroPlan, layout: Layout, values: seq<seq<real>>)
    requires Feeds(samples, micro, layout) && Shaped(values, layout, micro.docLens, micro.seqLen)
    ensures TailsZero(layout, BuildBatch(samples, micro, layout).mask, micro.docLens)
    ensures TailsZero(layout, MulRows(values, BuildBatch(samples, micro, layout).mask), micro.docLens)
  {
    var mask := BuildBatch(samples, micro, layout).mask;
    if layout == Padded {
      forall j, t | 0 <= j < |micro.docLens| && micro.docLens[j] <= t < micro.seqLen ensures mask[j][t] == 0.0 {
      }
    }
  }

  /** The masked sum of any per-token tensor over document `k` is the sum over
      the document's own tokens: no layout, padding or neighbour matters. */
  lemma MaskedDocumentSum(samples: seq<Sample>, micro: MicroPlan, layout: Layout, values: seq<seq<real>>, k: nat)
    requires Feeds(samples, micro, layout) && Shaped(values, layout, micro.docLens, micro.seqLen) && k < |micro.docLens|
    ensures var b := BuildBatch(samples, micro, layout);
      && |Flatten(b.docIds)| == |Flatten(MulRows(values, b.mask))|
      && SegSum(Flatten(b.docIds), Flatten(MulRows(values, b.mask)), k)
        == RealSum(Mul(Split(layout, values, micro.docLens, micro.seqLen)[k], MaskDoc(samples[micro.sampleIdx[k]], micro.docLens[k])))
  {
    hide Split, LayOut, TailsZero, DocIdRows;
    var b := BuildBatch(samples, micro, layout);
    MaskTails(samples, micro, layout, values);
    SplitInvertsLayout(layout, MaskDocs(samples, micro, layout), micro.seqLen, 0.0);
    SplitOfProduct(layout, values, b.mask, micro.docLens, micro.seqLen, k);
    SegmentIsDocument(layout, MulRows(values, b.mask), micro.docLens, micro.seqLen, k);
  }

  /** The mask count of document `k` is its assistant tokens after the first. */
  lemma MaskedDocumentCount(samples: seq<Sample>, micro: MicroPlan, layout: Layout, k: nat)
    requires Feeds(samples, micro, layout) && k < |micro.docLens|
    ensures var b := BuildBatch(samples, micro, layout);
      && |Flatten(b.docIds)| == |Flatten(b.mask)|
      && SegSum(Flatten(b.docIds), Flatten(b.mask), k)
        == RealSum(MaskDoc(samples[micro.sampleIdx[k]], micro.docLens[k]))
  {
    hide Split, LayOut, TailsZero, DocIdRows;
    var b := BuildBatch(samples, micro, layout);
    MaskTails(samples, micro, layout, b.mask);
    SplitInvertsLayout(layout, MaskDocs(samples, micro, layout), micro.seqLen, 0.0);
    SegmentIsDocument(layout, b.mask, micro.docLens, micro.seqLen, k);
  }

  lemma {:induction false} SumOfSums(parts: seq<seq<real>>)
    ensures RealSum(Flatten(parts)) == RealSum(Map(RealSum, parts))
  {
    if parts != [] {
      RealSumSplit(parts[0], Flatten(parts[1..]));
      assert Map(RealSum, parts)[1..] == Map(RealSum, parts[1..]);
      SumOfSums(parts[1..]);
    }
  }

  lemma MaskDocSum(sample: Sample, len: nat)
    requires len <= |sample.mask|
    ensures RealSum(MaskDoc(sample, len)) == if len == 0 then 0.0 else RealSum(sample.mask[1..len])
  {
    if len > 0 {
      assert MaskDoc(sample, len) == sample.mask[1..len] + [0.0];
      RealSumSplit(sample.mask[1..len], [0.0]);
      assert RealSum([0.0]) == 0.0 + RealSum([]);
    }
  }

  /** Padding carries no weight: the whole mask is the documents' masks, and a
      filler micro-batch has none. */
  lemma TotalMask(samples: seq<Sample>, micro: MicroPlan, layout: Layout)
    requires Feeds(samples, micro, layout)
    ensures RealSum(Flatten(BuildBatch(samples, micro, layout).mask))
      == RealSum(Map(RealSum, MaskDocs(samples, micro, layout)))
    ensures micro.IsFiller() ==> RealSum(Flatten(BuildBatch(samples, micro, layout).mask)) == 0.0
  {
    var docs := MaskDocs(samples, micro, layout);
    LaidOutSum(layout, docs, micro.seqLen);
    SumOfSums(docs);
    if micro.IsFiller() { assert Map(RealSum, docs) == []; }
  }

  lemma {:induction false} PaddedSum(docs: seq<seq<real>>, width: nat)
    requires Room(Padded, Lens(docs), width)
    ensures RealSum(Flatten(seq(|docs|, j requires 0 <= j < |docs| => docs[j] + Repeat(0.0, width - |docs[j]|)))) == RealSum(Flatten(docs))
  {
    if docs != [] {
      var rows := seq(|docs|, j requires 0 <= j < |docs| => docs[j] + Repeat(0.0, width - |docs[j]|));
      var rest := docs[1..];
      assert rows[1..] == seq(|rest|, j requires 0 <= j < |rest| => rest[j] + Repeat(0.0, width - |rest[j]|));
      PaddedSum(rest, width);
      RealSumSplit(rows[0], Flatten(rows[1..]));
      RealSumSplit(docs[0], Repeat(0.0, width - |docs[0]|));
      ZeroSum(Repeat(0.0, width - |docs[0]|));
      RealSumSplit(docs[0], Flatten(rest));
    }
  }

  lemma LaidOutSum(layout: Layout, docs: seq<seq<real>>, width: nat)
    requires Room(layout, Lens(docs), width)
    ensures RealSum(Flatten(LayOut(layout, docs, width, 0.0))) == RealSum(Flatten(docs))
  {
    if layout == Packed {
      var tail := Repeat(0.0, width - Total(Lens(docs)));
      FlattenSingle(Flatten(docs) + tail);
      RealSumSplit(Flatten(docs), tail);
      ZeroSum(tail);
    } else if docs == [] {
      FlattenSingle(Repeat(0.0, width));
      ZeroSum(Repeat(0.0, width));
    } else {
      PaddedSum(docs, width);
    }
  }
}

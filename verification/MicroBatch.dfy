/** One micro-batch of samples as next-token-aligned tensors
    (`build_micro_batch` of meshy/backend/titan/batch.py). */
module MicroBatch {
  import opened Sequences
  import opened PlanTypes
  import opened TensorLayout

  /** One rollout row: its tokens with the assistant mask and log-prob of each. */
  datatype Sample = Sample(tokens: seq<int>, mask: seq<real>, logprobs: seq<real>) {
    predicate Valid() { |tokens| == |mask| == |logprobs| }
  }

  /** `x[1:] + [0]`; for an empty document the slice it is written to drops the zero. */
  function Shift<T>(x: seq<T>, zero: T): (r: seq<T>)
    ensures |r| == |x|
    ensures forall t :: 0 <= t < |x| ==> r[t] == if t + 1 < |x| then x[t + 1] else zero
  {
    if x == [] then [] else x[1..] + [zero]
  }

  /** The micro-batch refers to samples that are at least as long as it says. */
  predicate Feeds(samples: seq<Sample>, micro: MicroPlan, layout: Layout) {
    && |micro.sampleIdx| == |micro.docLens|
    && InRange(micro.sampleIdx, |samples|)
    && (forall j :: 0 <= j < |micro.docLens| ==>
      samples[micro.sampleIdx[j]].Valid() && micro.docLens[j] <= |samples[micro.sampleIdx[j]].tokens|)
    && Room(layout, micro.docLens, micro.seqLen)
  }

  datatype Column = Tokens | Labels | Positions | DocIds

  /** What document `j` contributes to an integer column. */
  function IntDoc(c: Column, sample: Sample, len: nat, j: nat): (doc: seq<int>)
    requires len <= |sample.tokens|
    ensures |doc| == len
  {
    match c
    case Tokens => sample.tokens[..len]
    case Labels => Shift(sample.tokens[..len], 0)
    case Positions => seq(len, t => t)
    case DocIds => Repeat(j, len)
  }

  function IntDocs(c: Column, samples: seq<Sample>, micro: MicroPlan, layout: Layout): (docs: seq<seq<int>>)
    requires Feeds(samples, micro, layout)
    ensures Lens(docs) == micro.docLens
  {
    var docs: seq<seq<int>> := seq(|micro.docLens|, j requires 0 <= j < |micro.docLens| =>
      IntDoc(c, samples[micro.sampleIdx[j]], micro.docLens[j], j));
    assert Lens(docs) == micro.docLens;
    docs
  }

  function MaskDoc(sample: Sample, len: nat): (doc: seq<real>)
    requires len <= |sample.mask|
    ensures |doc| == len
  {
    Shift(sample.mask[..len], 0.0)
  }

  function LogprobDoc(sample: Sample, len: nat): (doc: seq<real>)
    requires len <= |sample.logprobs|
    ensures |doc| == len
  {
    Shift(sample.logprobs[..len], 0.0)
  }

  function MaskDocs(samples: seq<Sample>, micro: MicroPlan, layout: Layout): (docs: seq<seq<real>>)
    requires Feeds(samples, micro, layout)
    ensures Lens(docs) == micro.docLens
    ensures forall j :: 0 <= j < |docs| ==> docs[j] == MaskDoc(samples[micro.sampleIdx[j]], micro.docLens[j])
  {
    var docs: seq<seq<real>> := seq(|micro.docLens|, j requires 0 <= j < |micro.docLens| =>
      MaskDoc(samples[micro.sampleIdx[j]], micro.docLens[j]));
    assert Lens(docs) == micro.docLens;
    docs
  }

  function LogprobDocs(samples: seq<Sample>, micro: MicroPlan, layout: Layout): (docs: seq<seq<real>>)
    requires Feeds(samples, micro, layout)
    ensures Lens(docs) == micro.docLens
  {
    var docs: seq<seq<real>> := seq(|micro.docLens|, j requires 0 <= j < |micro.docLens| =>
      LogprobDoc(samples[micro.sampleIdx[j]], micro.docLens[j]));
    assert Lens(docs) == micro.docLens;
    docs
  }

  /** Row `j` of `n` carries the id `first + j`. */
  function RowIds(n: nat, width: nat, first: nat): (rows: seq<seq<nat>>)
    ensures |rows| == n && forall j :: 0 <= j < n ==> rows[j] == Repeat<nat>(first + j, width)
  {
    seq(n, j requires 0 <= j < n => Repeat<nat>(first + j, width))
  }

  /** The document-id tensor: padding is slot `n` when packed; a padded row keeps
      its own id to the end, and a filler's row is slot 0. */
  function DocIdRows(layout: Layout, lens: seq<nat>, width: nat): (rows: seq<seq<nat>>)
    requires Room(layout, lens, width)
    ensures Shaped(rows, layout, lens, width)
    ensures forall i, t :: 0 <= i < |rows| && 0 <= t < width ==> rows[i][t] <= |lens|
  {
    if layout == Packed then [IdsOf(lens, 0) + Repeat<nat>(|lens|, width - Total(lens))]
    else RowIds(RowCount(layout, |lens|), width, 0)
  }

  /** Rows of positions: per document when packed, and again for the tail. */
  function PositionRows(samples: seq<Sample>, micro: MicroPlan, layout: Layout): (rows: seq<seq<int>>)
    requires Feeds(samples, micro, layout)
  {
    FlattenLength(IntDocs(Positions, samples, micro, layout));
    if layout == Packed then
      [Flatten(IntDocs(Positions, samples, micro, layout)) + seq(micro.seqLen - Total(micro.docLens), t => t)]
    else seq(micro.Rows(), _ => seq(micro.seqLen, t => t))
  }

  /** Where the attention kernel is told one document of the packed row ends and the next
      begins; the tail padding, if any, is a document of its own. */
  function Boundaries(lens: seq<nat>, width: nat): (cu: seq<nat>)
    requires Total(lens) <= width
    ensures |cu| == |lens| + if Total(lens) < width then 2 else 1
  {
    Offsets(lens, |lens|) + if Total(lens) < width then [width] else []
  }

  /** The running offset before each of the first `n` documents, and behind them. */
  function Offsets(lens: seq<nat>, n: nat): (offsets: seq<nat>)
    requires n <= |lens|
    ensures |offsets| == n + 1
  {
    seq(n + 1, j requires 0 <= j <= n => Total(lens[..j]))
  }

  lemma OffsetsGrow(lens: seq<nat>, n: nat)
    requires n < |lens|
    ensures Offsets(lens, n + 1) == Offsets(lens, n) + [Total(lens[..n]) + lens[n]] && Offsets(lens, 0) == [0]
  {
    TotalUpTo(lens, n);
    assert lens[..0] == [];
  }

  datatype Batch = Batch(
    inputIds: seq<seq<int>>, labels: seq<seq<int>>, positions: seq<seq<int>>, mask: seq<seq<real>>,
    docIds: seq<seq<nat>>, rolloutLogprobs: seq<seq<real>>, lengths: seq<nat>, nDocs: nat)

  function BuildBatch(samples: seq<Sample>, micro: MicroPlan, layout: Layout): Batch
    requires Feeds(samples, micro, layout)
  {
    Batch(
      LayOut(layout, IntDocs(Tokens, samples, micro, layout), micro.seqLen, 0),
      LayOut(layout, IntDocs(Labels, samples, micro, layout), micro.seqLen, 0),
      PositionRows(samples, micro, layout),
      LayOut(layout, MaskDocs(samples, micro, layout), micro.seqLen, 0.0),
      DocIdRows(layout, micro.docLens, micro.seqLen),
      LayOut(layout, LogprobDocs(samples, micro, layout), micro.seqLen, 0.0),
      micro.docLens, |micro.sampleIdx|)
  }

  // ---- the layouts written as the source writes them -------------------------------

  /** `buf[row, off:off + len(values)] = values`. */
  method WriteSlice<T>(buf: array2<T>, row: nat, off: nat, values: seq<T>)
    requires row < buf.Length0 && off + |values| <= buf.Length1
    modifies buf
    ensures forall t :: off <= t < off + |values| ==> buf[row, t] == values[t - off]
    ensures forall i, t :: 0 <= i < buf.Length0 && 0 <= t < buf.Length1 && (i != row || t < off || t >= off + |values|) ==>
      buf[i, t] == old(buf[i, t])
  {
    for k := 0 to |values|
      invariant forall t :: off <= t < off + k ==> buf[row, t] == values[t - off]
      invariant forall i, t :: 0 <= i < buf.Length0 && 0 <= t < buf.Length1 && (i != row || t < off || t >= off + k) ==>
        buf[i, t] == old(buf[i, t])
    {
      buf[row, off + k] := values[k];
    }
  }

  ghost predicate Shows<T>(buf: array2<T>, rows: seq<seq<T>>)
    reads buf
  {
    && buf.Length0 == |rows|
    && (forall i :: 0 <= i < |rows| ==> |rows[i]| == buf.Length1)
    && (forall i, t :: 0 <= i < |rows| && 0 <= t < buf.Length1 ==> buf[i, t] == rows[i][t])
  }

  /** Padded: the first `upTo` documents are written, the rest is still `pad`. */
  ghost predicate PaddedSoFar<T>(buf: array2<T>, docs: seq<seq<T>>, upTo: nat, pad: T)
    reads buf
  {
    forall i, t :: 0 <= i < buf.Length0 && 0 <= t < buf.Length1 ==>
      buf[i, t] == if i < upTo && i < |docs| && t < |docs[i]| then docs[i][t] else pad
  }

  /** Packed: `row` is written, the rest is still `pad`. */
  ghost predicate PackedSoFar<T>(buf: array2<T>, row: seq<T>, pad: T)
    requires buf.Length0 == 1
    reads buf
  {
    forall t :: 0 <= t < buf.Length1 ==> buf[0, t] == if t < |row| then row[t] else pad
  }

  lemma PaddedDone<T>(buf: array2<T>, docs: seq<seq<T>>, pad: T)
    requires PaddedSoFar(buf, docs, |docs|, pad)
    requires buf.Length0 == RowCount(Padded, |docs|) && Room(Padded, Lens(docs), buf.Length1)
    ensures Shows(buf, LayOut(Padded, docs, buf.Length1, pad))
  {
  }

  lemma PackedDone<T>(buf: array2<T>, docs: seq<seq<T>>, pad: T)
    requires buf.Length0 == 1 && PackedSoFar(buf, Flatten(docs), pad) && Room(Packed, Lens(docs), buf.Length1)
    ensures Shows(buf, LayOut(Packed, docs, buf.Length1, pad))
  {
    FlattenLength(docs);
  }

  lemma FlattenUpTo<T>(docs: seq<seq<T>>, j: nat)
    requires j < |docs|
    ensures Flatten(docs[..j + 1]) == Flatten(docs[..j]) + docs[j]
  {
    assert docs[..j + 1] == docs[..j] + [docs[j]];
    FlattenSplit(docs[..j], [docs[j]]);
    assert Flatten([docs[j]]) == docs[j] + Flatten([]);
  }

  lemma {:induction false} TotalUpTo(lens: seq<nat>, j: nat)
    requires j < |lens|
    ensures Total(lens[..j + 1]) == Total(lens[..j]) + lens[j] <= Total(lens)
  {
    if j > 0 {
      TotalUpTo(lens[1..], j - 1);
      assert lens[1..][..j] == lens[..j + 1][1..] && lens[1..][..j - 1] == lens[..j][1..];
    } else {
      assert lens[..1][1..] == [] && lens[..0] == [];
    }
  }

  /** The next document of a padded column goes into its own row. */
  method WriteRow<T>(buf: array2<T>, ghost docs: seq<seq<T>>, j: nat, doc: seq<T>, ghost pad: T)
    requires j < |docs| && doc == docs[j] && j < buf.Length0 && |doc| <= buf.Length1
    requires PaddedSoFar(buf, docs, j, pad)
    modifies buf
    ensures PaddedSoFar(buf, docs, j + 1, pad)
  {
    WriteSlice(buf, j, 0, doc);
  }

  /** The next document of a packed column goes behind the previous ones. */
  method Append<T>(buf: array2<T>, ghost before: seq<T>, off: nat, doc: seq<T>, ghost pad: T)
    requires buf.Length0 == 1 && off == |before| && off + |doc| <= buf.Length1
    requires PackedSoFar(buf, before, pad)
    modifies buf
    ensures PackedSoFar(buf, before + doc, pad)
  {
    WriteSlice(buf, 0, off, doc);
  }

  method NewTensor<T>(rows: nat, width: nat, pad: T, ghost docs: seq<seq<T>>) returns (buf: array2<T>)
    ensures fresh(buf) && buf.Length0 == rows && buf.Length1 == width
    ensures PaddedSoFar(buf, docs, 0, pad)
    ensures rows == 1 ==> PackedSoFar(buf, [], pad)
  {
    buf := new T[rows, width]((_, _) => pad);
  }

  /** `torch.arange(rows)` down the rows; a filler's single row is padding. */
  method NewRowIds(rows: nat, width: nat, docs: nat) returns (docIds: array2<nat>)
    requires rows == RowCount(Padded, docs)
    ensures fresh(docIds) && docIds.Length0 == rows && docIds.Length1 == width
    ensures forall i, t :: 0 <= i < rows && 0 <= t < width ==> docIds[i, t] == i
  {
    docIds := new nat[rows, width]((i, _) => i);
    if docs == 0 { WriteSlice<nat>(docIds, 0, 0, Repeat<nat>(0, width)); }
  }

  lemma RowIdsDone(docIds: array2<nat>, lens: seq<nat>)
    requires docIds.Length0 == RowCount(Padded, |lens|) && Room(Padded, lens, docIds.Length1)
    requires forall i, t :: 0 <= i < docIds.Length0 && 0 <= t < docIds.Length1 ==> docIds[i, t] == i
    ensures Shows(docIds, DocIdRows(Padded, lens, docIds.Length1))
  {
  }

  /** Document `j` and what the columns hold of it. */
  lemma SampleFacts(samples: seq<Sample>, micro: MicroPlan, layout: Layout, j: nat)
    requires Feeds(samples, micro, layout) && j < |micro.docLens|
    ensures |micro.sampleIdx| == |micro.docLens| && micro.sampleIdx[j] < |samples|
    ensures if layout == Packed then Total(micro.docLens) <= micro.seqLen else micro.docLens[j] <= micro.seqLen
    ensures samples[micro.sampleIdx[j]].Valid() && micro.docLens[j] <= |samples[micro.sampleIdx[j]].tokens|
    ensures forall c :: IntDocs(c, samples, micro, layout)[j] == IntDoc(c, samples[micro.sampleIdx[j]], micro.docLens[j], j)
    ensures LogprobDocs(samples, micro, layout)[j] == LogprobDoc(samples[micro.sampleIdx[j]], micro.docLens[j])
  {
    hide IntDoc, LogprobDoc;
  }

  /** Every padded column holds the first `j` documents. */
  ghost predicate RowsTo(samples: seq<Sample>, micro: MicroPlan, inputIds: array2<int>, labels: array2<int>,
      mask: array2<real>, rolloutLp: array2<real>, j: nat)
    requires Feeds(samples, micro, Padded) && j <= |micro.docLens|
    reads inputIds, labels, mask, rolloutLp
  {
    && inputIds.Length0 == labels.Length0 == mask.Length0 == rolloutLp.Length0 == micro.Rows()
    && inputIds.Length1 == labels.Length1 == mask.Length1 == rolloutLp.Length1 == micro.seqLen
    && PaddedSoFar(inputIds, IntDocs(Tokens, samples, micro, Padded), j, 0)
    && PaddedSoFar(labels, IntDocs(Labels, samples, micro, Padded), j, 0)
    && PaddedSoFar(mask, MaskDocs(samples, micro, Padded), j, 0.0)
    && PaddedSoFar(rolloutLp, LogprobDocs(samples, micro, Padded), j, 0.0)
  }

  /** One sample goes into its own row of every column. */
  method WriteSample(samples: seq<Sample>, micro: MicroPlan, inputIds: array2<int>, labels: array2<int>,
      mask: array2<real>, rolloutLp: array2<real>, j: nat)
    requires Feeds(samples, micro, Padded) && j < |micro.docLens| && inputIds != labels && mask != rolloutLp
    requires RowsTo(samples, micro, inputIds, labels, mask, rolloutLp, j)
    modifies inputIds, labels, mask, rolloutLp
    ensures RowsTo(samples, micro, inputIds, labels, mask, rolloutLp, j + 1)
  {
    hide PaddedSoFar, Shift, Feeds, IntDocs, MaskDocs, LogprobDocs;
    SampleFacts(samples, micro, Padded, j);
    var sample, len := samples[micro.sampleIdx[j]], micro.docLens[j];
    WriteRow(inputIds, IntDocs(Tokens, samples, micro, Padded), j, sample.tokens[..len], 0);
    WriteRow(labels, IntDocs(Labels, samples, micro, Padded), j, Shift(sample.tokens[..len], 0), 0);
    WriteRow(mask, MaskDocs(samples, micro, Padded), j, Shift(sample.mask[..len], 0.0), 0.0);
    WriteRow(rolloutLp, LogprobDocs(samples, micro, Padded), j, Shift(sample.logprobs[..len], 0.0), 0.0);
  }

  /** `torch.arange(S)` along every row. */
  method NewPositions(rows: nat, width: nat) returns (positions: array2<int>)
    ensures fresh(positions) && positions.Length0 == rows && positions.Length1 == width
    ensures forall i, t :: 0 <= i < rows && 0 <= t < width ==> positions[i, t] == t
  {
    positions := new int[rows, width]((_, t) => t);
  }

  lemma PositionsDone(positions: array2<int>, samples: seq<Sample>, micro: MicroPlan)
    requires Feeds(samples, micro, Padded) && positions.Length0 == micro.Rows() && positions.Length1 == micro.seqLen
    requires forall i, t :: 0 <= i < positions.Length0 && 0 <= t < positions.Length1 ==> positions[i, t] == t
    ensures Shows(positions, PositionRows(samples, micro, Padded))
  {
    hide IntDocs, Feeds;
  }

  /** The padded branch: one row per sample, tail-padded, positions running over the
      whole row. */
  method LayOutPadded(samples: seq<Sample>, micro: MicroPlan)
    returns (inputIds: array2<int>, labels: array2<int>, mask: array2<real>, rolloutLp: array2<real>, docIds: array2<nat>,
             positions: array2<int>)
    requires Feeds(samples, micro, Padded)
    ensures Shows(inputIds, BuildBatch(samples, micro, Padded).inputIds)
    ensures Shows(labels, BuildBatch(samples, micro, Padded).labels)
    ensures Shows(mask, BuildBatch(samples, micro, Padded).mask)
    ensures Shows(rolloutLp, BuildBatch(samples, micro, Padded).rolloutLogprobs)
    ensures Shows(docIds, BuildBatch(samples, micro, Padded).docIds)
    ensures Shows(positions, BuildBatch(samples, micro, Padded).positions)
  {
    hide LayOut, PaddedSoFar, Shows, DocIdRows, IntDocs, MaskDocs, LogprobDocs, Total, PositionRows;
    var rows, width := micro.Rows(), micro.seqLen;
    inputIds := NewTensor(rows, width, 0, IntDocs(Tokens, samples, micro, Padded));
    labels := NewTensor(rows, width, 0, IntDocs(Labels, samples, micro, Padded));
    mask := NewTensor(rows, width, 0.0, MaskDocs(samples, micro, Padded));
    rolloutLp := NewTensor(rows, width, 0.0, LogprobDocs(samples, micro, Padded));
    docIds := NewRowIds(rows, width, |micro.sampleIdx|);
    for j := 0 to |micro.sampleIdx|
      invariant RowsTo(samples, micro, inputIds, labels, mask, rolloutLp, j)
      invariant forall i, t :: 0 <= i < rows && 0 <= t < width ==> docIds[i, t] == i
    {
      WriteSample(samples, micro, inputIds, labels, mask, rolloutLp, j);
    }
    PaddedDone(inputIds, IntDocs(Tokens, samples, micro, Padded), 0);
    PaddedDone(labels, IntDocs(Labels, samples, micro, Padded), 0);
    PaddedDone(mask, MaskDocs(samples, micro, Padded), 0.0);
    PaddedDone(rolloutLp, LogprobDocs(samples, micro, Padded), 0.0);
    RowIdsDone(docIds, micro.docLens);
    positions := NewPositions(rows, width);
    PositionsDone(positions, samples, micro);
  }

  lemma {:induction false} IdsUpTo(lens: seq<nat>, first: nat, j: nat)
    requires j < |lens|
    ensures IdsOf(lens[..j + 1], first) == IdsOf(lens[..j], first) + Repeat<nat>(first + j, lens[j])
  {
    if j > 0 {
      IdsUpTo(lens[1..], first + 1, j - 1);
      assert lens[1..][..j] == lens[..j + 1][1..] && lens[1..][..j - 1] == lens[..j][1..];
    } else {
      assert lens[..1][1..] == [] && lens[..0] == [];
    }
  }

  lemma IdsDone(docIds: array2<nat>, lens: seq<nat>)
    requires docIds.Length0 == 1 && Room(Packed, lens, docIds.Length1)
    requires PackedSoFar(docIds, IdsOf(lens, 0), |lens|)
    ensures Shows(docIds, DocIdRows(Packed, lens, docIds.Length1))
  {
    hide IdsOf;
    var row := IdsOf(lens, 0) + Repeat<nat>(|lens|, docIds.Length1 - Total(lens));
    assert DocIdRows(Packed, lens, docIds.Length1) == [row];
    forall t | 0 <= t < docIds.Length1 ensures docIds[0, t] == row[t] {}
  }

  lemma FlatLengthUpTo<T>(docs: seq<seq<T>>, lens: seq<nat>, j: nat)
    requires lens == Lens(docs) && j <= |docs|
    ensures |Flatten(docs[..j])| == Total(lens[..j])
  {
    FlattenLength(docs[..j]);
    assert Lens(docs[..j]) == lens[..j];
  }

  /** One packed column and where its next document goes. */
  ghost predicate PackedTo<T>(buf: array2<T>, docs: seq<seq<T>>, j: nat, pad: T)
    requires j <= |docs|
    reads buf
  {
    buf.Length0 == 1 && PackedSoFar(buf, Flatten(docs[..j]), pad)
  }

  method AppendDoc<T>(buf: array2<T>, ghost docs: seq<seq<T>>, ghost j: nat, off: nat, doc: seq<T>, ghost pad: T)
    requires j < |docs| && doc == docs[j] && off == Total(Lens(docs)[..j])
    requires Total(Lens(docs)) <= buf.Length1 && PackedTo(buf, docs, j, pad)
    modifies buf
    ensures PackedTo(buf, docs, j + 1, pad)
  {
    FlatLengthUpTo(docs, Lens(docs), j);
    FlattenUpTo(docs, j);
    TotalUpTo(Lens(docs), j);
    Append(buf, Flatten(docs[..j]), off, doc, pad);
  }

  lemma PackedToDone<T>(buf: array2<T>, docs: seq<seq<T>>, pad: T)
    requires PackedTo(buf, docs, |docs|, pad) && Room(Packed, Lens(docs), buf.Length1)
    ensures Shows(buf, LayOut(Packed, docs, buf.Length1, pad))
  {
    assert docs[..|docs|] == docs;
    PackedDone(buf, docs, pad);
  }

  /** Every packed column holds the first `j` documents. */
  ghost predicate ColumnsTo(samples: seq<Sample>, micro: MicroPlan, inputIds: array2<int>, labels: array2<int>,
      mask: array2<real>, rolloutLp: array2<real>, docIds: array2<nat>, positions: array2<int>, j: nat)
    requires Feeds(samples, micro, Packed) && j <= |micro.docLens|
    reads inputIds, labels, mask, rolloutLp, docIds, positions
  {
    && inputIds.Length1 == labels.Length1 == mask.Length1 == rolloutLp.Length1 == docIds.Length1 == positions.Length1 == micro.seqLen
    && PackedTo(inputIds, IntDocs(Tokens, samples, micro, Packed), j, 0)
    && PackedTo(labels, IntDocs(Labels, samples, micro, Packed), j, 0)
    && PackedTo(positions, IntDocs(Positions, samples, micro, Packed), j, 0)
    && PackedTo(mask, MaskDocs(samples, micro, Packed), j, 0.0)
    && PackedTo(rolloutLp, LogprobDocs(samples, micro, Packed), j, 0.0)
    && docIds.Length0 == 1 && PackedSoFar(docIds, IdsOf(micro.docLens[..j], 0), |micro.docLens|)
  }

  /** One sample goes into all columns at the running offset. */
  method AppendSample(samples: seq<Sample>, micro: MicroPlan, inputIds: array2<int>, labels: array2<int>,
      mask: array2<real>, rolloutLp: array2<real>, docIds: array2<nat>, positions: array2<int>, j: nat, off: nat)
    requires Feeds(samples, micro, Packed) && j < |micro.docLens| && off == Total(micro.docLens[..j])
    requires inputIds != labels && inputIds != positions && labels != positions && mask != rolloutLp
    requires ColumnsTo(samples, micro, inputIds, labels, mask, rolloutLp, docIds, positions, j)
    modifies inputIds, labels, mask, rolloutLp, docIds, positions
    ensures ColumnsTo(samples, micro, inputIds, labels, mask, rolloutLp, docIds, positions, j + 1)
  {
    hide PackedSoFar, PackedTo, Shift, IdsOf, Feeds, IntDocs, MaskDocs, LogprobDocs, Total;
    SampleFacts(samples, micro, Packed, j);
    var sample, len := samples[micro.sampleIdx[j]], micro.docLens[j];
    TotalUpTo(micro.docLens, j);
    IdsUpTo(micro.docLens, 0, j);
    assert IdsOf(micro.docLens[..j + 1], 0) == IdsOf(micro.docLens[..j], 0) + Repeat<nat>(j, len);
    AppendDoc(inputIds, IntDocs(Tokens, samples, micro, Packed), j, off, sample.tokens[..len], 0);
    AppendDoc(labels, IntDocs(Labels, samples, micro, Packed), j, off, Shift(sample.tokens[..len], 0), 0);
    AppendDoc(mask, MaskDocs(samples, micro, Packed), j, off, Shift(sample.mask[..len], 0.0), 0.0);
    Append<nat>(docIds, IdsOf(micro.docLens[..j], 0), off, Repeat<nat>(j, len), |micro.docLens|);
    AppendDoc(positions, IntDocs(Positions, samples, micro, Packed), j, off, seq(len, t => t), 0);
    AppendDoc(rolloutLp, LogprobDocs(samples, micro, Packed), j, off, Shift(sample.logprobs[..len], 0.0), 0.0);
  }

  /** The packed branch: all samples in one row at a running offset, with
      positions restarting in every document and in the tail, and the offsets kept
      for the attention kernel. */
  method LayOutPacked(samples: seq<Sample>, micro: MicroPlan)
    returns (inputIds: array2<int>, labels: array2<int>, mask: array2<real>, rolloutLp: array2<real>,
             docIds: array2<nat>, positions: array2<int>, cu: seq<nat>)
    requires Feeds(samples, micro, Packed)
    ensures cu == Boundaries(micro.docLens, micro.seqLen)
    ensures Shows(inputIds, BuildBatch(samples, micro, Packed).inputIds)
    ensures Shows(labels, BuildBatch(samples, micro, Packed).labels)
    ensures Shows(mask, BuildBatch(samples, micro, Packed).mask)
    ensures Shows(rolloutLp, BuildBatch(samples, micro, Packed).rolloutLogprobs)
    ensures Shows(docIds, BuildBatch(samples, micro, Packed).docIds)
    ensures Shows(positions, BuildBatch(samples, micro, Packed).positions)
  {
    hide LayOut, PackedSoFar, PackedTo, Shows, DocIdRows, IdsOf, IntDoc, MaskDoc, LogprobDoc, Offsets;
    var width := micro.seqLen;
    inputIds := NewRow(width, 0, IntDocs(Tokens, samples, micro, Packed));
    labels := NewRow(width, 0, IntDocs(Labels, samples, micro, Packed));
    positions := NewRow(width, 0, IntDocs(Positions, samples, micro, Packed));
    mask := NewRow(width, 0.0, MaskDocs(samples, micro, Packed));
    rolloutLp := NewRow(width, 0.0, LogprobDocs(samples, micro, Packed));
    docIds := NewTensor(1, width, |micro.docLens|, []);
    NoIds(micro.docLens);
    var off;
    off, cu := AppendSamples(samples, micro, inputIds, labels, mask, rolloutLp, docIds, positions);
    ColumnsDone(samples, micro, inputIds, labels, mask, rolloutLp, docIds, positions);
    TailPositions(positions, IntDocs(Positions, samples, micro, Packed), off);
    if off < width { cu := cu + [width]; }
  }

  lemma ColumnsDone(samples: seq<Sample>, micro: MicroPlan, inputIds: array2<int>, labels: array2<int>,
      mask: array2<real>, rolloutLp: array2<real>, docIds: array2<nat>, positions: array2<int>)
    requires Feeds(samples, micro, Packed)
    requires ColumnsTo(samples, micro, inputIds, labels, mask, rolloutLp, docIds, positions, |micro.docLens|)
    ensures var b := BuildBatch(samples, micro, Packed);
      && Shows(inputIds, b.inputIds) && Shows(labels, b.labels) && Shows(mask, b.mask)
      && Shows(rolloutLp, b.rolloutLogprobs) && Shows(docIds, b.docIds)
    ensures positions.Length1 == micro.seqLen
    ensures PackedTo(positions, IntDocs(Positions, samples, micro, Packed), |micro.docLens|, 0)
  {
    hide LayOut, PackedSoFar, PackedTo, Shows, DocIdRows, IdsOf, IntDoc, MaskDoc, LogprobDoc, PositionRows;
    assert micro.docLens[..|micro.docLens|] == micro.docLens;
    PackedToDone(inputIds, IntDocs(Tokens, samples, micro, Packed), 0);
    PackedToDone(labels, IntDocs(Labels, samples, micro, Packed), 0);
    PackedToDone(mask, MaskDocs(samples, micro, Packed), 0.0);
    PackedToDone(rolloutLp, LogprobDocs(samples, micro, Packed), 0.0);
    IdsDone(docIds, micro.docLens);
  }

  /** All samples at the running offset. */
  method AppendSamples(samples: seq<Sample>, micro: MicroPlan, inputIds: array2<int>, labels: array2<int>,
      mask: array2<real>, rolloutLp: array2<real>, docIds: array2<nat>, positions: array2<int>)
    returns (off: nat, cu: seq<nat>)
    requires Feeds(samples, micro, Packed)
    requires inputIds != labels && inputIds != positions && labels != positions && mask != rolloutLp
    requires ColumnsTo(samples, micro, inputIds, labels, mask, rolloutLp, docIds, positions, 0)
    modifies inputIds, labels, mask, rolloutLp, docIds, positions
    ensures ColumnsTo(samples, micro, inputIds, labels, mask, rolloutLp, docIds, positions, |micro.docLens|)
    ensures off == Total(micro.docLens) && cu == Offsets(micro.docLens, |micro.docLens|)
  {
    hide ColumnsTo, Offsets, IdsOf;
    NoIds(micro.docLens);
    off, cu := 0, [0];
    for j := 0 to |micro.sampleIdx|
      invariant off == Total(micro.docLens[..j]) && cu == Offsets(micro.docLens, j)
      invariant ColumnsTo(samples, micro, inputIds, labels, mask, rolloutLp, docIds, positions, j)
    {
      AppendSample(samples, micro, inputIds, labels, mask, rolloutLp, docIds, positions, j, off);
      TotalUpTo(micro.docLens, j);
      OffsetsGrow(micro.docLens, j);
      off := off + micro.docLens[j];
      cu := cu + [off];
    }
    assert micro.docLens[..|micro.docLens|] == micro.docLens;
  }

  lemma NoIds(lens: seq<nat>)
    ensures IdsOf(lens[..0], 0) == [] && Total(lens[..0]) == 0 && Offsets(lens, 0) == [0]
  {
  }

  method NewRow<T>(width: nat, pad: T, ghost docs: seq<seq<T>>) returns (buf: array2<T>)
    ensures fresh(buf) && buf.Length1 == width && PackedTo(buf, docs, 0, pad)
  {
    assert docs[..0] == [];
    buf := NewTensor(1, width, pad, docs);
  }

  /** The tail padding is a document of its own. */
  method TailPositions(positions: array2<int>, ghost docs: seq<seq<int>>, off: nat)
    requires PackedTo(positions, docs, |docs|, 0) && off == Total(Lens(docs)) <= positions.Length1
    modifies positions
    ensures Shows(positions, [Flatten(docs) + seq(positions.Length1 - off, t => t)])
  {
    FlattenLength(docs);
    assert docs[..|docs|] == docs;
    var tail: seq<int> := seq(positions.Length1 - off, t => t);
    Append(positions, Flatten(docs), off, tail, 0);
  }
}

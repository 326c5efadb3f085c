/** Scatter and gather: teacher columns in the micro-batch layouts, and results
    re-keyed by the sample's place in the whole batch (meshy/backend/titan/opd.py,
    meshy/engine/opd.py, meshy/engine/critic.py). */
module ScoreGather {
  import opened Wrappers
  import opened Sequences
  import opened PlanTypes
  import opened PlanDeal
  import opened PlanPacking
  import opened Planner
  import opened PlanTheorems
  import opened TensorLayout
  import opened MicroBatch

  // ---- teacher columns ----------------------------------------------------------------

  datatype TeacherError = TeacherTooShort(have: nat, need: nat)

  predicate Names(micro: MicroPlan, samples: nat, layout: Layout) {
    |micro.sampleIdx| == |micro.docLens| && InRange(micro.sampleIdx, samples) && Room(layout, micro.docLens, micro.seqLen)
  }

  predicate Covered<T>(columns: seq<seq<T>>, micro: MicroPlan)
    requires |micro.sampleIdx| == |micro.docLens| && InRange(micro.sampleIdx, |columns|)
  {
    forall j :: 0 <= j < |micro.docLens| ==> micro.docLens[j] <= |columns[micro.sampleIdx[j]]|
  }

  /** The teacher rows of each document, cut at the student's window. */
  function TeacherDocs<T>(columns: seq<seq<T>>, micro: MicroPlan): (docs: seq<seq<T>>)
    requires |micro.sampleIdx| == |micro.docLens| && InRange(micro.sampleIdx, |columns|) && Covered(columns, micro)
    ensures Lens(docs) == micro.docLens
    ensures forall j :: 0 <= j < |docs| ==> docs[j] == columns[micro.sampleIdx[j]][..micro.docLens[j]]
  {
    var docs: seq<seq<T>> := seq(|micro.docLens|, j requires 0 <= j < |micro.docLens| => columns[micro.sampleIdx[j]][..micro.docLens[j]]);
    assert Lens(docs) == micro.docLens;
    docs
  }

  /** The tensor holds the documents written so far, in either layout. */
  ghost predicate WrittenTo<T>(layout: Layout, buf: array2<T>, docs: seq<seq<T>>, j: nat, pad: T)
    requires j <= |docs|
    reads buf
  {
    if layout == Padded then PaddedSoFar(buf, docs, j, pad) else PackedTo(buf, docs, j, pad)
  }

  /** `layout_teacher_topk` for one column: no shift, and an error as soon as a
      teacher row is shorter than the student's document. */
  method LayOutTeacher<T>(columns: seq<seq<T>>, micro: MicroPlan, layout: Layout, zero: T)
    returns (res: Result<array2<T>, TeacherError>)
    requires Names(micro, |columns|, layout)
    ensures res.Ok? <==> Covered(columns, micro)
    ensures res.Ok? ==> fresh(res.value) && Shows(res.value, LayOut(layout, TeacherDocs(columns, micro), micro.seqLen, zero))
    ensures res.Err? ==> res.error.have < res.error.need
  {
    hide PaddedSoFar, PackedTo, PackedSoFar, WrittenTo, Shows, LayOut, Total;
    ghost var docs: seq<seq<T>> := if Covered(columns, micro) then TeacherDocs(columns, micro) else [];
    var buf := NewTensor(RowCount(layout, |micro.sampleIdx|), micro.seqLen, zero, docs);
    StartsEmpty(layout, buf, docs, |micro.sampleIdx|, zero);
    var off := 0;
    NoIds(micro.docLens);
    for j := 0 to |micro.sampleIdx|
      invariant forall k :: 0 <= k < j ==> micro.docLens[k] <= |columns[micro.sampleIdx[k]]|
      invariant off == Total(micro.docLens[..j])
      invariant Covered(columns, micro) ==> WrittenTo(layout, buf, docs, j, zero)
    {
      var column, len := columns[micro.sampleIdx[j]], micro.docLens[j];
      if |column| < len { return Err(TeacherTooShort(|column|, len)); }
      TotalUpTo(micro.docLens, j);
      WriteDoc(layout, buf, columns, micro, docs, j, off, column[..len], zero);
      off := off + len;
    }
    WrittenIsDone(layout, buf, docs, zero);
    return Ok(buf);
  }

  lemma StartsEmpty<T>(layout: Layout, buf: array2<T>, docs: seq<seq<T>>, count: nat, pad: T)
    requires buf.Length0 == RowCount(layout, count)
    requires PaddedSoFar(buf, docs, 0, pad) && (buf.Length0 == 1 ==> PackedSoFar(buf, [], pad))
    ensures WrittenTo(layout, buf, docs, 0, pad)
  {
    assert docs[..0] == [];
  }

  method WriteDoc<T>(layout: Layout, buf: array2<T>, ghost columns: seq<seq<T>>, ghost micro: MicroPlan, ghost docs: seq<seq<T>>,
                     j: nat, off: nat, doc: seq<T>, ghost pad: T)
    requires Names(micro, |columns|, layout) && j < |micro.docLens| && off == Total(micro.docLens[..j])
    requires buf.Length0 == RowCount(layout, |micro.docLens|) && buf.Length1 == micro.seqLen && |doc| == micro.docLens[j]
    requires Covered(columns, micro) ==>
      docs == TeacherDocs(columns, micro) && doc == docs[j] && WrittenTo(layout, buf, docs, j, pad)
    modifies buf
    ensures Covered(columns, micro) ==> WrittenTo(layout, buf, docs, j + 1, pad)
  {
    hide PaddedSoFar, PackedTo, PackedSoFar;
    TotalUpTo(micro.docLens, j);
    if layout == Padded {
      WritePadded(buf, Covered(columns, micro), docs, j, doc, pad);
    } else {
      WritePacked(buf, Covered(columns, micro), docs, j, off, doc, pad);
    }
  }

  method WritePadded<T>(buf: array2<T>, ghost tracked: bool, ghost docs: seq<seq<T>>, j: nat, doc: seq<T>, ghost pad: T)
    requires j < buf.Length0 && |doc| <= buf.Length1
    requires tracked ==> j < |docs| && doc == docs[j] && PaddedSoFar(buf, docs, j, pad)
    modifies buf
    ensures tracked ==> PaddedSoFar(buf, docs, j + 1, pad)
  {
    WriteSlice(buf, j, 0, doc);
  }

  method WritePacked<T>(buf: array2<T>, ghost tracked: bool, ghost docs: seq<seq<T>>, ghost j: nat, off: nat, doc: seq<T>, ghost pad: T)
    requires buf.Length0 == 1 && off + |doc| <= buf.Length1
    requires tracked ==> j < |docs| && doc == docs[j] && off == Total(Lens(docs)[..j]) && PackedTo(buf, docs, j, pad)
    modifies buf
    ensures tracked ==> PackedTo(buf, docs, j + 1, pad)
  {
    if tracked {
      FlatLengthUpTo(docs, Lens(docs), j);
      FlattenUpTo(docs, j);
    }
    WriteSlice(buf, 0, off, doc);
  }

  lemma WrittenIsDone<T>(layout: Layout, buf: array2<T>, docs: seq<seq<T>>, pad: T)
    requires WrittenTo(layout, buf, docs, |docs|, pad)
    requires buf.Length0 == RowCount(layout, |docs|) && Room(layout, Lens(docs), buf.Length1)
    ensures Shows(buf, LayOut(layout, docs, buf.Length1, pad))
  {
    if layout == Padded { PaddedDone(buf, docs, pad); } else { PackedToDone(buf, docs, pad); }
  }

  method ReadSlice<T>(buf: array2<T>, row: nat, off: nat, len: nat) returns (r: seq<T>)
    requires row < buf.Length0 && off + len <= buf.Length1
    ensures |r| == len && forall t :: 0 <= t < len ==> r[t] == buf[row, off + t]
  {
    r := [];
    for t := 0 to len
      invariant |r| == t && forall k :: 0 <= k < t ==> r[k] == buf[row, off + k]
    {
      r := r + [buf[row, off + t]];
    }
  }

  lemma {:induction false} CutUpTo<T>(row: seq<T>, lens: seq<nat>, j: nat)
    requires Total(lens) <= |row| && j < |lens|
    ensures Total(lens[..j]) + lens[j] <= |row|
    ensures Cut(row, lens)[j] == row[Total(lens[..j])..Total(lens[..j]) + lens[j]]
  {
    if j == 0 {
      assert lens[..0] == [];
    } else {
      CutUpTo(row[lens[0]..], lens[1..], j - 1);
      assert lens[1..][..j - 1] == lens[..j][1..];
    }
  }

  lemma SplitAt<T>(layout: Layout, rows: seq<seq<T>>, lens: seq<nat>, width: nat, j: nat)
    requires Shaped(rows, layout, lens, width) && Room(layout, lens, width) && j < |lens|
    ensures layout == Padded ==> Split(layout, rows, lens, width)[j] == rows[j][..lens[j]]
    ensures layout == Packed ==>
      && Total(lens[..j]) + lens[j] <= width
      && Split(layout, rows, lens, width)[j] == rows[0][Total(lens[..j])..Total(lens[..j]) + lens[j]]
  {
    if layout == Packed { CutUpTo(rows[0], lens, j); }
  }

  /** `split_teacher_topk`. */
  method SplitTeacher<T>(values: array2<T>, ghost rows: seq<seq<T>>, micro: MicroPlan, layout: Layout) returns (parts: seq<seq<T>>)
    requires Shows(values, rows) && Shaped(rows, layout, micro.docLens, micro.seqLen) && Room(layout, micro.docLens, micro.seqLen)
    requires values.Length1 == micro.seqLen
    ensures parts == Split(layout, rows, micro.docLens, micro.seqLen)
  {
    hide Split;
    parts := [];
    var off := 0;
    NoIds(micro.docLens);
    for j := 0 to |micro.docLens|
      invariant off == Total(micro.docLens[..j])
      invariant |parts| == j && forall k :: 0 <= k < j ==> parts[k] == Split(layout, rows, micro.docLens, micro.seqLen)[k]
    {
      TotalUpTo(micro.docLens, j);
      SplitAt(layout, rows, micro.docLens, micro.seqLen, j);
      var len := micro.docLens[j];
      var part;
      if layout == Padded {
        part := ReadSlice(values, j, 0, len);
        assert part == rows[j][..len];
      } else {
        part := ReadSlice(values, 0, off, len);
        assert part == rows[0][off..off + len];
      }
      parts := parts + [part];
      off := off + len;
    }
  }

  /** Laying teacher columns out and splitting them gives them back. */
  lemma TeacherRoundTrip<T>(columns: seq<seq<T>>, micro: MicroPlan, layout: Layout, zero: T)
    requires Names(micro, |columns|, layout) && Covered(columns, micro)
    ensures Split(layout, LayOut(layout, TeacherDocs(columns, micro), micro.seqLen, zero), micro.docLens, micro.seqLen)
      == TeacherDocs(columns, micro)
  {
    SplitInvertsLayout(layout, TeacherDocs(columns, micro), micro.seqLen, zero);
  }

  // ---- gathering by the sample's own index ---------------------------------------------

  /** The tensor a rank computes for micro-batch `m` of mini-batch `i`. */
  type Scores<T> = (nat, nat, nat) -> seq<seq<T>>

  datatype GatherError = Unscored(rows: seq<int>) | LostSome(published: int, expected: int)

  ghost predicate Readable<T(!new)>(plan: Plan, layout: Layout, out: Scores<T>) {
    forall r, i, m :: 0 <= r < |plan.perRank| && 0 <= i < |plan.perRank[r]| && 0 <= m < |plan.perRank[r][i].micros| ==>
      ReadableMicro(plan.perRank[r][i].micros[m], layout, out(r, i, m))
  }

  ghost predicate ReadableMicro<T>(micro: MicroPlan, layout: Layout, rows: seq<seq<T>>) {
    && |micro.sampleIdx| == |micro.docLens|
    && Shaped(rows, layout, micro.docLens, micro.seqLen) && Room(layout, micro.docLens, micro.seqLen)
  }

  /** The scores of a document depend on its sample alone: `own(g)` for sample `g`. */
  ghost predicate DocumentLocal<T(!new)>(plan: Plan, layout: Layout, out: Scores<T>, own: nat -> seq<T>)
    requires Readable(plan, layout, out)
  {
    forall s: Slot, g: nat :: Holds(plan, s, g) ==> SlotScore(plan, layout, out, s) == own(g)
  }

  ghost function SlotScore<T(!new)>(plan: Plan, layout: Layout, out: Scores<T>, s: Slot): seq<T>
    requires Readable(plan, layout, out) && InPlan(plan, s)
  {
    var micro := plan.perRank[s.r][s.i].micros[s.m];
    assert ReadableMicro(micro, layout, out(s.r, s.i, s.m));
    Split(layout, out(s.r, s.i, s.m), micro.docLens, micro.seqLen)[s.j]
  }

  /** Every key is a sample of the plan, with its own score. */
  ghost predicate OwnScores<T(!new)>(plan: Plan, results: map<nat, seq<T>>, own: nat -> seq<T>) {
    forall g :: g in results ==> results[g] == own(g) && exists s :: Holds(plan, s, g)
  }

  ghost predicate Before(s: Slot, i: nat, m: nat, j: nat) {
    s.i < i || (s.i == i && (s.m < m || (s.m == m && s.j < j)))
  }

  ghost predicate ScoredBefore<T>(plan: Plan, results: map<nat, seq<T>>, r: nat, i: nat, m: nat, j: nat) {
    forall s, g :: Holds(plan, s, g) && s.r == r && Before(s, i, m, j) ==> g in results
  }

  /** One micro-batch: split its tensor and file each document under its sample. */
  method ScoreMicro<T(!new)>(plan: Plan, layout: Layout, out: Scores<T>, ghost own: nat -> seq<T>, r: nat, i: nat, m: nat,
                             before: map<nat, seq<T>>) returns (results: map<nat, seq<T>>)
    requires Readable(plan, layout, out) && DocumentLocal(plan, layout, out, own)
    requires r < |plan.perRank| && r < |plan.localIndices| && i < |plan.perRank[r]| && m < |plan.perRank[r][i].micros|
    requires InRange(plan.perRank[r][i].micros[m].sampleIdx, |plan.localIndices[r]|)
    requires OwnScores(plan, before, own) && ScoredBefore(plan, before, r, i, m, 0)
    ensures OwnScores(plan, results, own) && ScoredBefore(plan, results, r, i, m + 1, 0)
    ensures before.Keys <= results.Keys
  {
    hide Split;
    results := before;
    var micro := plan.perRank[r][i].micros[m];
    assert ReadableMicro(micro, layout, out(r, i, m));
    var parts := Split(layout, out(r, i, m), micro.docLens, micro.seqLen);
    for j := 0 to |micro.sampleIdx|
      invariant OwnScores(plan, results, own) && ScoredBefore(plan, results, r, i, m, j)
      invariant before.Keys <= results.Keys
    {
      var g := plan.localIndices[r][micro.sampleIdx[j]];
      ghost var s := Slot(r, i, m, j);
      assert Holds(plan, s, g);
      assert SlotScore(plan, layout, out, s) == own(g);
      ghost var previous := results;
      results := results[g := parts[j]];
      StillScored(plan, previous, results, s, g);
    }
    MicroIsScored(plan, results, r, i, m);
  }

  lemma StillScored<T>(plan: Plan, previous: map<nat, seq<T>>, results: map<nat, seq<T>>, s: Slot, g: nat)
    requires Holds(plan, s, g) && ScoredBefore(plan, previous, s.r, s.i, s.m, s.j)
    requires previous.Keys <= results.Keys && g in results
    ensures ScoredBefore(plan, results, s.r, s.i, s.m, s.j + 1)
  {
    forall t, h | Holds(plan, t, h) && t.r == s.r && Before(t, s.i, s.m, s.j + 1) ensures h in results {
      if t == s { assert h == g; } else { assert h in previous; }
    }
  }

  lemma MicroIsScored<T>(plan: Plan, results: map<nat, seq<T>>, r: nat, i: nat, m: nat)
    requires r < |plan.perRank| && i < |plan.perRank[r]| && m < |plan.perRank[r][i].micros|
    requires ScoredBefore(plan, results, r, i, m, |plan.perRank[r][i].micros[m].sampleIdx|)
    ensures ScoredBefore(plan, results, r, i, m + 1, 0)
  {
    forall t, h | Holds(plan, t, h) && t.r == r && Before(t, i, m + 1, 0) ensures h in results {
      assert Before(t, i, m, |plan.perRank[r][i].micros[m].sampleIdx|);
    }
  }

  /** `score_samples`: this rank's share, keyed by global index. */
  method ScoreRank<T(!new)>(plan: Plan, layout: Layout, out: Scores<T>, ghost own: nat -> seq<T>, r: nat, before: map<nat, seq<T>>)
    returns (results: map<nat, seq<T>>)
    requires Readable(plan, layout, out) && DocumentLocal(plan, layout, out, own)
    requires r < |plan.perRank| && r < |plan.localIndices|
    requires forall i, m :: 0 <= i < |plan.perRank[r]| && 0 <= m < |plan.perRank[r][i].micros| ==>
      InRange(plan.perRank[r][i].micros[m].sampleIdx, |plan.localIndices[r]|)
    requires OwnScores(plan, before, own)
    ensures OwnScores(plan, results, own) && before.Keys <= results.Keys
    ensures forall s, g :: Holds(plan, s, g) && s.r == r ==> g in results
  {
    hide OwnScores, DocumentLocal, Readable, InRange, Holds, Before;
    results := before;
    NothingBefore(plan, results, r);
    for i := 0 to |plan.perRank[r]|
      invariant OwnScores(plan, results, own) && ScoredBefore(plan, results, r, i, 0, 0) && before.Keys <= results.Keys
    {
      for m := 0 to |plan.perRank[r][i].micros|
        invariant OwnScores(plan, results, own) && ScoredBefore(plan, results, r, i, m, 0) && before.Keys <= results.Keys
      {
        results := ScoreMicro(plan, layout, out, own, r, i, m, results);
      }
      MiniIsScored(plan, results, r, i);
    }
    RankIsScored(plan, results, r);
  }

  lemma NothingBefore<T>(plan: Plan, results: map<nat, seq<T>>, r: nat)
    ensures ScoredBefore(plan, results, r, 0, 0, 0)
  {
  }

  lemma MiniIsScored<T>(plan: Plan, results: map<nat, seq<T>>, r: nat, i: nat)
    requires r < |plan.perRank| && i < |plan.perRank[r]|
    requires ScoredBefore(plan, results, r, i, |plan.perRank[r][i].micros|, 0)
    ensures ScoredBefore(plan, results, r, i + 1, 0, 0)
  {
    forall t, h | Holds(plan, t, h) && t.r == r && Before(t, i + 1, 0, 0) ensures h in results {
      assert Before(t, i, |plan.perRank[r][i].micros|, 0);
    }
  }

  lemma RankIsScored<T>(plan: Plan, results: map<nat, seq<T>>, r: nat)
    requires r < |plan.perRank| && ScoredBefore(plan, results, r, |plan.perRank[r]|, 0, 0)
    ensures forall s, g :: Holds(plan, s, g) && s.r == r ==> g in results
  {
    forall s, g | Holds(plan, s, g) && s.r == r ensures g in results {
      assert Before(s, |plan.perRank[r]|, 0, 0);
    }
  }

  /** All ranks' parts merged: exactly the rows of the batch, each with its own score. */
  method ScoreAllRanks<T(!new)>(ghost lengths: seq<nat>, ghost loss: seq<int>, ghost dpSize: int, ghost cfg: PlannerConfig,
                                plan: Plan, layout: Layout, out: Scores<T>, ghost own: nat -> seq<T>)
    returns (results: map<nat, seq<T>>)
    requires Planned(lengths, loss, dpSize, cfg, plan)
    requires Readable(plan, layout, out) && DocumentLocal(plan, layout, out, own)
    ensures forall g: nat :: g in results <==> g < |lengths|
    ensures forall g :: g in results ==> results[g] == own(g)
  {
    hide Planned, OwnScores, DocumentLocal, Readable, Holds;
    results := map[];
    EmptyIsOwn(plan, own);
    RanksMatch(lengths, loss, dpSize, cfg, plan);
    for r := 0 to |plan.perRank|
      invariant OwnScores(plan, results, own)
      invariant forall s, g :: Holds(plan, s, g) && s.r < r ==> g in results
    {
      RankNamesLocal(lengths, loss, dpSize, cfg, plan, r);
      results := ScoreRank(plan, layout, out, own, r, results);
    }
    KeysAreTheBatch(lengths, loss, dpSize, cfg, plan, results, own);
  }

  lemma EmptyIsOwn<T(!new)>(plan: Plan, own: nat -> seq<T>)
    ensures OwnScores(plan, map[], own)
  {
  }

  lemma RanksMatch(lengths: seq<nat>, loss: seq<int>, dpSize: int, cfg: PlannerConfig, plan: Plan)
    requires Planned(lengths, loss, dpSize, cfg, plan)
    ensures |plan.perRank| == |plan.localIndices| == dpSize
  {
    PlanIsADeal(lengths, loss, dpSize, cfg, plan);
  }

  lemma RankNamesLocal(lengths: seq<nat>, loss: seq<int>, dpSize: int, cfg: PlannerConfig, plan: Plan, r: nat)
    requires Planned(lengths, loss, dpSize, cfg, plan) && r < |plan.perRank| && r < |plan.localIndices|
    ensures forall i, m :: 0 <= i < |plan.perRank[r]| && 0 <= m < |plan.perRank[r][i].micros| ==>
      InRange(plan.perRank[r][i].micros[m].sampleIdx, |plan.localIndices[r]|)
  {
    RanksOwnEqualShares(lengths, loss, dpSize, cfg, plan);
    forall i, m, j | 0 <= i < |plan.perRank[r]| && 0 <= m < |plan.perRank[r][i].micros| && 0 <= j < |plan.perRank[r][i].micros[m].sampleIdx|
      ensures plan.perRank[r][i].micros[m].sampleIdx[j] < |plan.localIndices[r]|
    {
      assert InPlan(plan, Slot(r, i, m, j));
    }
  }

  lemma HeldIsInBatch(lengths: seq<nat>, loss: seq<int>, dpSize: int, cfg: PlannerConfig, plan: Plan, s: Slot, g: nat)
    requires Planned(lengths, loss, dpSize, cfg, plan) && Holds(plan, s, g)
    ensures g < |lengths| && s.r < |plan.perRank|
  {
    RanksOwnEqualShares(lengths, loss, dpSize, cfg, plan);
    OnceEach(Flatten(plan.localIndices), |lengths|);
    FlattenMember(plan.localIndices, g);
  }

  lemma KeysAreTheBatch<T(!new)>(lengths: seq<nat>, loss: seq<int>, dpSize: int, cfg: PlannerConfig, plan: Plan,
                                 results: map<nat, seq<T>>, own: nat -> seq<T>)
    requires Planned(lengths, loss, dpSize, cfg, plan) && OwnScores(plan, results, own)
    requires forall s, g :: Holds(plan, s, g) && s.r < |plan.perRank| ==> g in results
    ensures forall g: nat :: g in results <==> g < |lengths|
    ensures forall g :: g in results ==> results[g] == own(g)
  {
    hide Planned, Holds;
    forall g: nat ensures g in results <==> g < |lengths| {
      if g in results {
        var s :| Holds(plan, s, g);
        HeldIsInBatch(lengths, loss, dpSize, cfg, plan, s, g);
      }
      if g < |lengths| {
        var s := EverySampleOnce(lengths, loss, dpSize, cfg, plan, g);
        HeldIsInBatch(lengths, loss, dpSize, cfg, plan, s, g);
      }
    }
  }

  /** `_score_impl`: one score per row in the original order; no row is unscored. */
  method GatherScores<T(!new)>(ghost lengths: seq<nat>, ghost loss: seq<int>, ghost dpSize: int, ghost cfg: PlannerConfig,
                               plan: Plan, layout: Layout, out: Scores<T>, ghost own: nat -> seq<T>, rows: nat)
    returns (res: Result<seq<seq<T>>, GatherError>)
    requires Planned(lengths, loss, dpSize, cfg, plan) && rows == |lengths|
    requires Readable(plan, layout, out) && DocumentLocal(plan, layout, out, own)
    ensures res.Ok? && |res.value| == rows && forall g :: 0 <= g < rows ==> res.value[g] == own(g)
  {
    hide Planned, DocumentLocal, Readable;
    var results := ScoreAllRanks(lengths, loss, dpSize, cfg, plan, layout, out, own);
    var missing := [];
    for g := 0 to rows
      invariant missing == []
    {
      if g !in results { missing := missing + [g]; }
    }
    if missing != [] { return Err(Unscored(missing)); }
    var ordered := [];
    for g := 0 to rows
      invariant |ordered| == g && forall k :: 0 <= k < g ==> ordered[k] == own(k)
    {
      ordered := ordered + [results[g]];
    }
    return Ok(ordered);
  }

  lemma {:induction false} KeyCount<T>(results: map<nat, T>, n: nat)
    requires forall g: nat :: g in results <==> g < n
    ensures |results| == n
  {
    if n == 0 {
      assert results.Keys == {};
    } else {
      var rest := results - {n - 1};
      KeyCount(rest, n - 1);
      assert results.Keys == rest.Keys + {n - 1};
    }
  }

  /** The critic's published column: the plan loses no row. `publish` is what is made of
      a document: its values as they are (a padded value row trimmed to the sample's
      token count, clamped at the row), or one advantage per sequence. */
  method GatherPublished<T(!new), U>(ghost lengths: seq<nat>, ghost loss: seq<int>, ghost dpSize: int, ghost cfg: PlannerConfig,
                                     plan: Plan, layout: Layout, out: Scores<T>, ghost own: nat -> seq<T>,
                                     publish: seq<T> -> U, rows: nat)
    returns (res: Result<seq<U>, GatherError>)
    requires Planned(lengths, loss, dpSize, cfg, plan) && rows == |lengths|
    requires Readable(plan, layout, out) && DocumentLocal(plan, layout, out, own)
    ensures res.Ok? && |res.value| == rows && forall g :: 0 <= g < rows ==> res.value[g] == publish(own(g))
  {
    hide Planned, DocumentLocal, Readable;
    var byIndex := ScoreAllRanks(lengths, loss, dpSize, cfg, plan, layout, out, own);
    KeyCount(byIndex, rows);
    if |byIndex| != rows { return Err(LostSome(|byIndex|, rows)); }
    var ordered := [];
    for g := 0 to rows
      invariant |ordered| == g && forall k :: 0 <= k < g ==> ordered[k] == publish(own(k))
    {
      ordered := ordered + [publish(byIndex[g])];
    }
    return Ok(ordered);
  }
}

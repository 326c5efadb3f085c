/** Laying per-document columns out as a `[rows, S]` tensor, padded or packed, and
    taking them apart again (meshy/backend/titan/batch.py, meshy/backend/titan/opd.py).
    A tensor is the sequence of its rows. */
module TensorLayout {
  import opened Sequences
  import opened PlanTypes

  function Repeat<T>(x: T, n: nat): (r: seq<T>)
    ensures |r| == n && forall i :: 0 <= i < n ==> r[i] == x
  {
    seq(n, _ => x)
  }

  function Lens<T>(docs: seq<seq<T>>): (r: seq<nat>)
    ensures |r| == |docs| && forall j :: 0 <= j < |r| ==> r[j] == |docs[j]|
  {
    seq(|docs|, j requires 0 <= j < |docs| => |docs[j]|)
  }

  /** The documents fit a tensor of row length `width` (total length when packed). */
  predicate Room(layout: Layout, lens: seq<nat>, width: nat) {
    if layout == Padded then forall j :: 0 <= j < |lens| ==> lens[j] <= width
    else Total(lens) <= width
  }

  function RowCount(layout: Layout, docs: nat): nat {
    if layout == Packed || docs == 0 then 1 else docs
  }

  lemma {:induction false} FlattenLength<T>(docs: seq<seq<T>>)
    ensures |Flatten(docs)| == Total(Lens(docs))
  {
    if docs != [] {
      assert Lens(docs)[1..] == Lens(docs[1..]);
      FlattenLength(docs[1..]);
    }
  }

  /** Padded: one document per row, a single padding row when there is none.
      Packed: all documents in one row. The rest of a row is `pad`. */
  function LayOut<T>(layout: Layout, docs: seq<seq<T>>, width: nat, pad: T): (rows: seq<seq<T>>)
    requires Room(layout, Lens(docs), width)
    ensures |rows| == RowCount(layout, |docs|)
    ensures forall i :: 0 <= i < |rows| ==> |rows[i]| == width
  {
    FlattenLength(docs);
    if layout == Packed then [Flatten(docs) + Repeat(pad, width - Total(Lens(docs)))]
    else if docs == [] then [Repeat(pad, width)]
    else seq(|docs|, j requires 0 <= j < |docs| => docs[j] + Repeat(pad, width - |docs[j]|))
  }

  /** The consecutive slices of `row` of the given lengths. */
  function Cut<T>(row: seq<T>, lens: seq<nat>): (parts: seq<seq<T>>)
    requires Total(lens) <= |row|
    ensures |parts| == |lens| && forall j :: 0 <= j < |parts| ==> |parts[j]| == lens[j]
  {
    if lens == [] then [] else [row[..lens[0]]] + Cut(row[lens[0]..], lens[1..])
  }

  predicate Shaped<T>(rows: seq<seq<T>>, layout: Layout, lens: seq<nat>, width: nat) {
    |rows| == RowCount(layout, |lens|) && forall i :: 0 <= i < |rows| ==> |rows[i]| == width
  }

  /** One slice per document, in either layout. */
  function Split<T>(layout: Layout, rows: seq<seq<T>>, lens: seq<nat>, width: nat): (parts: seq<seq<T>>)
    requires Shaped(rows, layout, lens, width) && Room(layout, lens, width)
    ensures |parts| == |lens| && forall j :: 0 <= j < |parts| ==> |parts[j]| == lens[j]
  {
    if layout == Packed then Cut(rows[0], lens)
    else seq(|lens|, j requires 0 <= j < |lens| => rows[j][..lens[j]])
  }

  lemma {:induction false} CutOfFlat<T>(docs: seq<seq<T>>, tail: seq<T>)
    ensures Total(Lens(docs)) <= |Flatten(docs) + tail|
    ensures Cut(Flatten(docs) + tail, Lens(docs)) == docs
  {
    FlattenLength(docs);
    if docs != [] {
      var row := Flatten(docs) + tail;
      assert row == docs[0] + (Flatten(docs[1..]) + tail);
      assert row[..|docs[0]|] == docs[0] && row[|docs[0]|..] == Flatten(docs[1..]) + tail;
      assert Lens(docs)[1..] == Lens(docs[1..]);
      CutOfFlat(docs[1..], tail);
    }
  }

  lemma {:induction false} FlatOfCut<T>(row: seq<T>, lens: seq<nat>)
    requires Total(lens) <= |row|
    ensures row == Flatten(Cut(row, lens)) + row[Total(lens)..]
  {
    if lens != [] {
      FlatOfCut(row[lens[0]..], lens[1..]);
      assert row == row[..lens[0]] + row[lens[0]..];
      assert row[lens[0]..][Total(lens[1..])..] == row[Total(lens)..];
      assert Flatten(Cut(row, lens)) == row[..lens[0]] + Flatten(Cut(row[lens[0]..], lens[1..]));
    }
  }

  /** Splitting inverts the layout, whatever the padding holds. */
  lemma SplitInvertsLayout<T>(layout: Layout, docs: seq<seq<T>>, width: nat, pad: T)
    requires Room(layout, Lens(docs), width)
    ensures Split(layout, LayOut(layout, docs, width, pad), Lens(docs), width) == docs
  {
    if layout == Packed {
      CutOfFlat(docs, Repeat(pad, width - Total(Lens(docs))));
    } else {
      var parts := Split(layout, LayOut(layout, docs, width, pad), Lens(docs), width);
      assert forall j :: 0 <= j < |docs| ==> parts[j] == docs[j];
    }
  }

  // ---- segment sums -----------------------------------------------------------------

  /** What `index_add_` accumulates in slot `k`. */
  function SegSum(ids: seq<nat>, values: seq<real>, k: nat): real
    requires |ids| == |values|
  {
    if ids == [] then 0.0 else (if ids[0] == k then values[0] else 0.0) + SegSum(ids[1..], values[1..], k)
  }

  lemma {:induction false} SegSumLast(ids: seq<nat>, values: seq<real>, k: nat)
    requires |ids| == |values| > 0
    ensures SegSum(ids, values, k) == SegSum(ids[..|ids| - 1], values[..|ids| - 1], k)
      + if ids[|ids| - 1] == k then values[|ids| - 1] else 0.0
  {
    if |ids| > 1 {
      SegSumLast(ids[1..], values[1..], k);
      assert ids[1..][..|ids| - 2] == ids[..|ids| - 1][1..];
      assert values[1..][..|ids| - 2] == values[..|ids| - 1][1..];
    }
  }

  /** `new_zeros(slots).index_add_(0, ids, values)`. */
  method IndexAdd(ids: seq<nat>, values: seq<real>, slots: nat) returns (seg: array<real>)
    requires |ids| == |values| && forall p :: 0 <= p < |ids| ==> ids[p] < slots
    ensures fresh(seg) && seg.Length == slots
    ensures forall k :: 0 <= k < slots ==> seg[k] == SegSum(ids, values, k)
  {
    seg := new real[slots](_ => 0.0);
    for p := 0 to |ids|
      invariant forall k :: 0 <= k < slots ==> seg[k] == SegSum(ids[..p], values[..p], k)
    {
      forall k | 0 <= k < slots
        ensures SegSum(ids[..p + 1], values[..p + 1], k) == SegSum(ids[..p], values[..p], k) + if ids[p] == k then values[p] else 0.0
      {
        SegSumLast(ids[..p + 1], values[..p + 1], k);
        assert ids[..p + 1][..p] == ids[..p] && values[..p + 1][..p] == values[..p];
      }
      seg[ids[p]] := seg[ids[p]] + values[p];
    }
    assert ids[..|ids|] == ids && values[..|ids|] == values;
  }

  lemma {:induction false} SegSumSplit(a: seq<nat>, x: seq<real>, b: seq<nat>, y: seq<real>, k: nat)
    requires |a| == |x| && |b| == |y|
    ensures SegSum(a + b, x + y, k) == SegSum(a, x, k) + SegSum(b, y, k)
  {
    if a == [] {
      assert a + b == b && x + y == y;
    } else {
      assert (a + b)[1..] == a[1..] + b && (x + y)[1..] == x[1..] + y;
      SegSumSplit(a[1..], x[1..], b, y, k);
    }
  }

  lemma {:induction false} SegSumConstant(id: nat, x: seq<real>, k: nat)
    ensures SegSum(Repeat<nat>(id, |x|), x, k) == if id == k then RealSum(x) else 0.0
  {
    if x != [] {
      assert Repeat<nat>(id, |x|)[1..] == Repeat<nat>(id, |x[1..]|);
      SegSumConstant(id, x[1..], k);
    }
  }

  /** The id tensor in flat form: part `j` carries the id `first + j`. */
  function IdsOf(lens: seq<nat>, first: nat): (ids: seq<nat>)
    ensures |ids| == Total(lens)
    ensures forall p :: 0 <= p < |ids| ==> first <= ids[p] < first + |lens|
  {
    if lens == [] then [] else Repeat<nat>(first, lens[0]) + IdsOf(lens[1..], first + 1)
  }

  lemma {:induction false} SegSumOfParts(parts: seq<seq<real>>, first: nat, k: nat)
    ensures |Flatten(parts)| == Total(Lens(parts))
    ensures SegSum(IdsOf(Lens(parts), first), Flatten(parts), k)
      == if first <= k < first + |parts| then RealSum(parts[k - first]) else 0.0
  {
    FlattenLength(parts);
    if parts != [] {
      assert Lens(parts)[1..] == Lens(parts[1..]);
      FlattenLength(parts[1..]);
      SegSumOfParts(parts[1..], first + 1, k);
      SegSumConstant(first, parts[0], k);
      SegSumSplit(Repeat<nat>(first, |parts[0]|), parts[0], IdsOf(Lens(parts[1..]), first + 1), Flatten(parts[1..]), k);
    }
  }
}

/** The two reorderings of the planner: sorting by decreasing length and the
    boustrophedon deal. */
module PlanDeal {
  import opened Arithmetic
  import opened Sequences
  import opened PlanTypes

  // ---- sorting by decreasing length --------------------------------------------

  /** The order of `sorted(..., key=lambda p: (-lengths[p], p))`. */
  predicate Precedes(lens: seq<nat>, a: nat, b: nat)
    requires a < |lens| && b < |lens|
  {
    lens[a] > lens[b] || (lens[a] == lens[b] && a <= b)
  }

  predicate Descending(s: seq<nat>, lens: seq<nat>)
    requires InRange(s, |lens|)
  {
    forall i, j :: 0 <= i < j < |s| ==> Precedes(lens, s[i], s[j])
  }

  function InsertByLength(sorted: seq<nat>, p: nat, lens: seq<nat>): (r: seq<nat>)
    requires InRange(sorted, |lens|) && p < |lens|
    ensures |r| == |sorted| + 1 && InRange(r, |lens|)
  {
    if sorted == [] || Precedes(lens, p, sorted[0]) then [p] + sorted
    else [sorted[0]] + InsertByLength(sorted[1..], p, lens)
  }

  function SortByLength(s: seq<nat>, lens: seq<nat>): (r: seq<nat>)
    requires InRange(s, |lens|)
    ensures |r| == |s| && InRange(r, |lens|)
  {
    if s == [] then [] else InsertByLength(SortByLength(s[1..], lens), s[0], lens)
  }

  lemma {:induction false} InsertCovers(sorted: seq<nat>, p: nat, lens: seq<nat>)
    requires InRange(sorted, |lens|) && p < |lens|
    ensures multiset(InsertByLength(sorted, p, lens)) == multiset(sorted) + multiset{p}
  {
    hide Precedes;
    if sorted != [] && !Precedes(lens, p, sorted[0]) {
      InsertCovers(sorted[1..], p, lens);
      assert sorted == [sorted[0]] + sorted[1..];
    }
  }

  lemma {:induction false} InsertKeepsOrder(sorted: seq<nat>, p: nat, lens: seq<nat>)
    requires InRange(sorted, |lens|) && p < |lens| && Descending(sorted, lens)
    ensures Descending(InsertByLength(sorted, p, lens), lens)
    ensures multiset(InsertByLength(sorted, p, lens)) == multiset(sorted) + multiset{p}
  {
    InsertCovers(sorted, p, lens);
    if sorted != [] && !Precedes(lens, p, sorted[0]) {
      var tail := sorted[1..];
      var rest := InsertByLength(tail, p, lens);
      assert Descending(tail, lens);
      InsertKeepsOrder(tail, p, lens);
      forall i | 0 <= i < |rest| ensures Precedes(lens, sorted[0], rest[i]) {
        assert rest[i] in multiset(rest);
        if rest[i] != p {
          assert rest[i] in multiset(tail);
          var k :| 0 <= k < |tail| && tail[k] == rest[i];
          assert sorted[k + 1] == rest[i];
        }
      }
    }
  }

  /** The sort is a permutation into decreasing length, ties by position. */
  lemma {:induction false} SortIsDescending(s: seq<nat>, lens: seq<nat>)
    requires InRange(s, |lens|)
    ensures Descending(SortByLength(s, lens), lens)
    ensures multiset(SortByLength(s, lens)) == multiset(s)
  {
    if s != [] {
      SortIsDescending(s[1..], lens);
      InsertKeepsOrder(SortByLength(s[1..], lens), s[0], lens);
      assert s == [s[0]] + s[1..];
    }
  }

  /** Sorting what is already in order changes nothing. */
  lemma {:induction false} SortIsIdempotent(s: seq<nat>, lens: seq<nat>)
    requires InRange(s, |lens|) && Descending(s, lens)
    ensures SortByLength(s, lens) == s
  {
    if s != [] {
      SortIsIdempotent(s[1..], lens);
      assert |s| > 1 ==> Precedes(lens, s[0], s[1]);
    }
  }

  // ---- the boustrophedon deal ------------------------------------------------------

  /** Where bin `b` stands in a round: rounds run left to right, then back. */
  function Seat(round: nat, b: nat, bins: nat): (pos: nat)
    requires b < bins
    ensures pos < bins
  {
    if round % 2 == 0 then b else bins - 1 - b
  }

  /** The bin the k-th item is dealt to. */
  function BinOf(k: nat, bins: nat): (b: nat)
    requires bins > 0
    ensures b < bins
  {
    Seat(k / bins, k % bins, bins)
  }

  function Snake(order: seq<nat>, bins: nat): (r: seq<seq<nat>>)
    requires bins > 0
    ensures |r| == bins
  {
    if order == [] then seq(bins, _ => [])
    else
      var k := |order| - 1;
      var dealt := Snake(order[..k], bins);
      var b := BinOf(k, bins);
      dealt[b := dealt[b] + [order[k]]]
  }

  /** How many of the first `k` items bin `b` receives. */
  function Share(k: nat, b: nat, bins: nat): nat
    requires b < bins
  {
    k / bins + if Seat(k / bins, b, bins) < k % bins then 1 else 0
  }

  lemma NextItem(k: nat, bins: nat)
    requires bins > 0
    ensures k % bins + 1 < bins ==> (k + 1) / bins == k / bins && (k + 1) % bins == k % bins + 1
    ensures k % bins + 1 == bins ==> (k + 1) / bins == k / bins + 1 && (k + 1) % bins == 0
  {
    var q, r := k / bins, k % bins;
    Fundamental(k, bins);
    if r + 1 < bins {
      QuotientOf(q, r + 1, bins);
    } else {
      assert k + 1 == (q + 1) * bins + 0;
      QuotientOf(q + 1, 0, bins);
    }
  }

  /** The place in the order of a bin's j-th item. */
  function SeatIndex(j: nat, b: nat, bins: nat): nat
    requires b < bins
  {
    j * bins + Seat(j, b, bins)
  }

  lemma ShareStep(k: nat, b: nat, bins: nat)
    requires b < bins
    ensures Share(k + 1, b, bins) == Share(k, b, bins) + if b == BinOf(k, bins) then 1 else 0
    ensures b == BinOf(k, bins) ==> SeatIndex(Share(k, b, bins), b, bins) == k
  {
    hide Seat;
    NextItem(k, bins);
    Fundamental(k, bins);
    RoundStep(k / bins, k % bins, b, bins);
  }

  /** Inside a round every seat is taken once, in order. */
  lemma RoundStep(round: nat, seat: nat, b: nat, bins: nat)
    requires b < bins && seat < bins
    ensures b == Seat(round, seat, bins) <==> Seat(round, b, bins) == seat
  {
  }

  lemma ShareOfNone(b: nat, bins: nat)
    requires b < bins
    ensures Share(0, b, bins) == 0
  {
    QuotientOf(0, 0, bins);
  }

  /** The deal in closed form: a bin's j-th item is the one at its seat of round j. */
  lemma {:induction false} SnakeClosedForm(order: seq<nat>, bins: nat)
    requires bins > 0
    ensures forall b :: 0 <= b < bins ==> |Snake(order, bins)[b]| == Share(|order|, b, bins)
    ensures forall b, j :: 0 <= b < bins && 0 <= j < |Snake(order, bins)[b]| ==>
      SeatIndex(j, b, bins) < |order| && Snake(order, bins)[b][j] == order[SeatIndex(j, b, bins)]
  {
    hide Share, SeatIndex, BinOf, Seat;
    if order == [] {
      forall b | 0 <= b < bins ensures Share(0, b, bins) == 0 { ShareOfNone(b, bins); }
    } else {
      var k := |order| - 1;
      SnakeClosedForm(order[..k], bins);
      forall b | 0 <= b < bins ensures |Snake(order, bins)[b]| == Share(|order|, b, bins) {
        ShareStep(k, b, bins);
      }
      ShareStep(k, BinOf(k, bins), bins);
    }
  }

  /** Nothing is lost or dealt twice. */
  lemma {:induction false} SnakeCovers(order: seq<nat>, bins: nat)
    requires bins > 0
    ensures multiset(Flatten(Snake(order, bins))) == multiset(order)
  {
    if order == [] {
      FlattenEmpty(Snake(order, bins));
    } else {
      var k := |order| - 1;
      SnakeCovers(order[..k], bins);
      FlattenExtend(Snake(order[..k], bins), BinOf(k, bins), order[k]);
      assert order == order[..k] + [order[k]];
    }
  }

  lemma SnakeInRange(order: seq<nat>, bins: nat, n: nat)
    requires bins > 0 && InRange(order, n)
    ensures forall b :: 0 <= b < bins ==> InRange(Snake(order, bins)[b], n)
  {
    SnakeClosedForm(order, bins);
  }

  lemma ShareIsEven(k: nat, b: nat, bins: nat)
    requires b < bins
    ensures k / bins <= Share(k, b, bins) <= (k + bins - 1) / bins
    ensures k % bins == 0 ==> Share(k, b, bins) == k / bins
  {
    var q, r := k / bins, k % bins;
    Fundamental(k, bins);
    if r == 0 {
      QuotientOf(q, bins - 1, bins);
    } else {
      LastRound(q + 1, bins);
      QuotientOf(q + 1, r - 1, bins);
    }
  }

  lemma LastRound(rounds: nat, bins: nat)
    requires rounds > 0
    ensures (rounds - 1) * bins + bins == rounds * bins
  {
  }

  /** Bins differ by at most one item; with a whole number of rounds they are equal. */
  lemma SnakeIsEven(order: seq<nat>, bins: nat)
    requires bins > 0
    ensures forall b :: 0 <= b < bins ==> |order| / bins <= |Snake(order, bins)[b]| <= (|order| + bins - 1) / bins
    ensures |order| % bins == 0 ==> forall b :: 0 <= b < bins ==> |Snake(order, bins)[b]| == |order| / bins
  {
    hide Share, SeatIndex;
    SnakeClosedForm(order, bins);
    forall b | 0 <= b < bins
      ensures |order| / bins <= Share(|order|, b, bins) <= (|order| + bins - 1) / bins
      ensures |order| % bins == 0 ==> Share(|order|, b, bins) == |order| / bins
    {
      ShareIsEven(|order|, b, bins);
    }
  }

  /** The deal written as the source's loop. */
  method SnakeLoop(order: seq<nat>, bins: nat) returns (dealt: seq<seq<nat>>)
    requires bins > 0
    ensures dealt == Snake(order, bins)
  {
    dealt := seq(bins, _ => []);
    for k := 0 to |order|
      invariant dealt == Snake(order[..k], bins)
    {
      var round, pos := k / bins, k % bins;
      var b := if round % 2 == 0 then pos else bins - 1 - pos;
      assert order[..k + 1][..k] == order[..k];
      dealt := dealt[b := dealt[b] + [order[k]]];
    }
    assert order[..|order|] == order;
  }

  // ---- balance ---------------------------------------------------------------------

  /** Values in decreasing order. */
  predicate Falling(a: seq<nat>) {
    forall i, j :: 0 <= i < j < |a| ==> a[i] >= a[j]
  }

  function Difference(x: int, y: int): nat {
    if x >= y then x - y else y - x
  }

  lemma {:induction false} TotalLast(a: seq<nat>)
    requires a != []
    ensures Total(a) == Total(a[..|a| - 1]) + a[|a| - 1]
  {
    if |a| > 1 {
      TotalLast(a[1..]);
      assert a[1..][..|a| - 2] == a[..|a| - 1][1..];
    }
  }

  lemma SeatOfRound(j: nat, b: nat, bins: nat)
    requires b < bins
    ensures j * bins <= SeatIndex(j, b, bins) < (j + 1) * bins
    ensures (j + 1) * bins == j * bins + bins && j * bins >= 0
  {
  }

  /** What bin `b` holds of `values` dealt in order, after `rounds` whole rounds. */
  function Held(values: seq<nat>, bins: nat, b: nat, rounds: nat): nat
    requires b < bins && rounds * bins <= |values|
  {
    if rounds == 0 then 0
    else
      SeatOfRound(rounds - 1, b, bins);
      Held(values, bins, b, rounds - 1) + values[SeatIndex(rounds - 1, b, bins)]
  }

  /** The values at two places of the same stretch of a falling sequence. */
  lemma WithinStretch(a: seq<nat>, first: nat, last: nat, p: nat, q: nat)
    requires Falling(a) && first <= p <= last < |a| && first <= q <= last
    ensures Difference(a[p], a[q]) <= a[first] - a[last]
  {
    InOrder(a, first, p);
    InOrder(a, first, q);
    InOrder(a, p, last);
    InOrder(a, q, last);
  }

  /** Each round of a falling sequence separates two bins by at most its first
      value minus its last, and these ranges do not overlap. */
  lemma {:induction false} RoundsTelescope(a: seq<nat>, bins: nat, b: nat, c: nat, rounds: nat)
    requires b < bins && c < bins && Falling(a) && rounds > 0 && rounds * bins <= |a|
    ensures 0 < rounds * bins
    ensures Difference(Held(a, bins, b, rounds), Held(a, bins, c, rounds)) <= a[0] - a[rounds * bins - 1]
  {
    hide SeatIndex;
    SeatOfRound(rounds - 1, b, bins);
    SeatOfRound(rounds - 1, c, bins);
    var first, last := (rounds - 1) * bins, rounds * bins - 1;
    WithinStretch(a, first, last, SeatIndex(rounds - 1, b, bins), SeatIndex(rounds - 1, c, bins));
    if rounds > 1 {
      RoundsTelescope(a, bins, b, c, rounds - 1);
      InOrder(a, first - 1, first);
    }
  }

  lemma InOrder(a: seq<nat>, i: nat, j: nat)
    requires Falling(a) && i <= j < |a|
    ensures a[i] >= a[j]
  {
  }
}

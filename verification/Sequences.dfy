/** Sequence vocabulary shared by the planner, the layouts and the run model. */
module Sequences {
  function Range(n: nat): (r: seq<nat>)
    ensures |r| == n && forall i :: 0 <= i < n ==> r[i] == i
  {
    seq(n, i requires 0 <= i < n => i)
  }

  function Flatten<T>(parts: seq<seq<T>>): seq<T> {
    if parts == [] then [] else parts[0] + Flatten(parts[1..])
  }

  function IntSum(s: seq<int>): int {
    if s == [] then 0 else s[0] + IntSum(s[1..])
  }

  function RealSum(s: seq<real>): real {
    if s == [] then 0.0 else s[0] + RealSum(s[1..])
  }

  /** The sum of `f` over the indices listed in `s`. */
  function SumAt(s: seq<nat>, f: nat -> real): real {
    if s == [] then 0.0 else f(s[0]) + SumAt(s[1..], f)
  }

  function CountAt(s: seq<nat>, f: nat -> int): int {
    if s == [] then 0 else f(s[0]) + CountAt(s[1..], f)
  }

  function Map<A, B>(f: A -> B, s: seq<A>): (r: seq<B>)
    ensures |r| == |s| && forall i :: 0 <= i < |s| ==> r[i] == f(s[i])
  {
    seq(|s|, i requires 0 <= i < |s| => f(s[i]))
  }

  lemma {:induction false} FlattenSplit<T>(a: seq<seq<T>>, b: seq<seq<T>>)
    ensures Flatten(a + b) == Flatten(a) + Flatten(b)
  {
    if a == [] {
      assert a + b == b;
    } else {
      assert (a + b)[1..] == a[1..] + b;
      FlattenSplit(a[1..], b);
    }
  }

  /** Adding one element to one part adds exactly it to the whole. */
  lemma FlattenExtend<T>(parts: seq<seq<T>>, i: nat, x: T)
    requires i < |parts|
    ensures multiset(Flatten(parts[i := parts[i] + [x]])) == multiset(Flatten(parts)) + multiset{x}
  {
    var before, after := parts[..i], parts[i + 1..];
    assert parts == before + ([parts[i]] + after);
    assert parts[i := parts[i] + [x]] == before + ([parts[i] + [x]] + after);
    FlattenSplit(before, [parts[i]] + after);
    FlattenSplit(before, [parts[i] + [x]] + after);
    assert ([parts[i]] + after)[1..] == after;
    assert ([parts[i] + [x]] + after)[1..] == after;
    assert Flatten([parts[i] + [x]] + after) == parts[i] + ([x] + Flatten(after));
  }

  lemma {:induction false} FlattenEmpty<T>(parts: seq<seq<T>>)
    requires forall i :: 0 <= i < |parts| ==> parts[i] == []
    ensures Flatten(parts) == []
  {
    if parts != [] { FlattenEmpty(parts[1..]); }
  }

  lemma {:induction false} FlattenMember<T>(parts: seq<seq<T>>, x: T)
    ensures x in Flatten(parts) <==> exists i :: 0 <= i < |parts| && x in parts[i]
  {
    if parts != [] {
      FlattenMember(parts[1..], x);
      assert parts == [parts[0]] + parts[1..];
      if i :| 0 <= i < |parts| && x in parts[i] {
        if i > 0 { assert x in parts[1..][i - 1]; }
      }
    }
  }

  // ---- sums do not depend on the order ---------------------------------------

  lemma {:induction false} SumAtSplit(a: seq<nat>, b: seq<nat>, f: nat -> real)
    ensures SumAt(a + b, f) == SumAt(a, f) + SumAt(b, f)
  {
    if a == [] {
      assert a + b == b;
    } else {
      assert (a + b)[1..] == a[1..] + b;
      SumAtSplit(a[1..], b, f);
    }
  }

  /** Taking one element out takes it out of the bag and out of the sum. */
  lemma BagWithout(before: seq<nat>, x: nat, after: seq<nat>)
    ensures multiset(before + ([x] + after)) == multiset{x} + multiset(before + after)
  {
  }

  lemma SumWithout(before: seq<nat>, x: nat, after: seq<nat>, f: nat -> real)
    ensures SumAt(before + ([x] + after), f) == f(x) + SumAt(before + after, f)
  {
    SumAtSplit(before, after, f);
    SumAtSplit(before, [x] + after, f);
    assert ([x] + after)[1..] == after;
  }

  lemma BagsCancel(common: multiset<nat>, a: multiset<nat>, b: multiset<nat>)
    requires common + a == common + b
    ensures a == b
  {
    assert (common + a) - common == a && (common + b) - common == b;
  }

  lemma {:induction false} SumAtPermutes(a: seq<nat>, b: seq<nat>, f: nat -> real)
    requires multiset(a) == multiset(b)
    ensures SumAt(a, f) == SumAt(b, f)
    decreases |a|
  {
    assert |multiset(a)| == |a| && |multiset(b)| == |b|;
    if a != [] {
      var x, rest := a[0], a[1..];
      assert x in multiset(b);
      var k :| 0 <= k < |b| && b[k] == x;
      var before, after := b[..k], b[k + 1..];
      assert a == [x] + rest && b == before + ([x] + after);
      BagWithout(before, x, after);
      BagsCancel(multiset{x}, multiset(rest), multiset(before + after));
      SumWithout(before, x, after, f);
      SumAtPermutes(rest, before + after, f);
    }
  }

  /** Counting is summing: the integer sum is the real sum of the same values. */
  lemma {:induction false} CountIsSum(s: seq<nat>, f: nat -> int, g: nat -> real)
    requires forall i :: i in s ==> g(i) == f(i) as real
    ensures CountAt(s, f) as real == SumAt(s, g)
  {
    if s != [] { CountIsSum(s[1..], f, g); }
  }

  lemma CountPermutes(a: seq<nat>, b: seq<nat>, f: nat -> int)
    requires multiset(a) == multiset(b)
    ensures CountAt(a, f) == CountAt(b, f)
  {
    var g := (i: nat) => f(i) as real;
    CountIsSum(a, f, g);
    CountIsSum(b, f, g);
    SumAtPermutes(a, b, g);
  }

  lemma {:induction false} RealSumSplit(a: seq<real>, b: seq<real>)
    ensures RealSum(a + b) == RealSum(a) + RealSum(b)
  {
    if a == [] {
      assert a + b == b;
    } else {
      assert (a + b)[1..] == a[1..] + b;
      RealSumSplit(a[1..], b);
    }
  }

  lemma {:induction false} IntSumSplit(a: seq<int>, b: seq<int>)
    ensures IntSum(a + b) == IntSum(a) + IntSum(b)
  {
    if a == [] {
      assert a + b == b;
    } else {
      assert (a + b)[1..] == a[1..] + b;
      IntSumSplit(a[1..], b);
    }
  }

  // ---- sequences without repetition --------------------------------------------

  predicate Distinct<T(==)>(s: seq<T>) {
    forall i, j :: 0 <= i < j < |s| ==> s[i] != s[j]
  }

  lemma MultiplicityOfTwo<T>(s: seq<T>, i: nat, j: nat)
    requires i < j < |s|
    ensures s[i] == s[j] ==> multiset(s)[s[i]] >= 2
  {
    assert s == s[..i] + ([s[i]] + (s[i + 1..j] + ([s[j]] + s[j + 1..])));
  }

  lemma {:induction false} DistinctMultiplicity<T>(s: seq<T>, x: T)
    requires Distinct(s)
    ensures multiset(s)[x] <= 1
  {
    if s != [] {
      DistinctMultiplicity(s[1..], x);
      assert s == [s[0]] + s[1..];
      if x == s[0] { assert x !in s[1..]; }
    }
  }

  lemma DistinctPermutes<T>(a: seq<T>, b: seq<T>)
    requires multiset(a) == multiset(b) && Distinct(a)
    ensures Distinct(b)
  {
    forall i, j | 0 <= i < j < |b| ensures b[i] != b[j] {
      DistinctMultiplicity(a, b[i]);
      MultiplicityOfTwo(b, i, j);
    }
  }

  /** A permutation of 0..n-1 hits every index exactly once. */
  lemma OnceEach(s: seq<nat>, n: nat)
    requires multiset(s) == multiset(Range(n))
    ensures |s| == n && Distinct(s)
    ensures forall x: nat :: x in s <==> x < n
  {
    assert |multiset(s)| == |s| && |multiset(Range(n))| == n;
    DistinctPermutes(Range(n), s);
    forall x: nat ensures x in s <==> x < n {
      assert x in s <==> x in multiset(s);
      assert x in Range(n) <==> x in multiset(Range(n));
      if x < n { assert Range(n)[x] == x; }
    }
  }

  /** Without repetition, an element has one place in one part. */
  lemma {:induction false} OnePlace<T>(parts: seq<seq<T>>, a: nat, x: nat, b: nat, y: nat)
    requires Distinct(Flatten(parts))
    requires a < |parts| && x < |parts[a]| && b < |parts| && y < |parts[b]|
    requires parts[a][x] == parts[b][y]
    ensures a == b && x == y
  {
    var whole, rest := Flatten(parts), Flatten(parts[1..]);
    assert whole == parts[0] + rest;
    assert forall k :: 0 <= k < |parts[0]| ==> whole[k] == parts[0][k];
    assert forall k :: 0 <= k < |rest| ==> whole[|parts[0]| + k] == rest[k];
    if a > 0 {
      assert parts[1..][a - 1][x] == parts[a][x];
      FlattenMember(parts[1..], parts[a][x]);
    }
    if b > 0 {
      assert parts[1..][b - 1][y] == parts[b][y];
      FlattenMember(parts[1..], parts[b][y]);
    }
    if a > 0 && b > 0 {
      OnePlace(parts[1..], a - 1, x, b - 1, y);
    }
  }

  lemma {:induction false} DistinctPart<T>(parts: seq<seq<T>>, a: nat)
    requires Distinct(Flatten(parts)) && a < |parts|
    ensures Distinct(parts[a])
  {
    forall x, y | 0 <= x < y < |parts[a]| ensures parts[a][x] != parts[a][y] {
      if parts[a][x] == parts[a][y] { OnePlace(parts, a, x, a, y); }
    }
  }
}

/** Merging sorted segments of one array into another. Segment i is from `st[i]` up to `st[i + 1]`. */
module Merge {
  import opened Seals

  const LONG_MAX := 0x7fff_ffff_ffff_ffff

  ghost predicate Sorted(s: seq<int>) { forall i, j :: 0 <= i < j < |s| ==> s[i] <= s[j] }

  /** The boundaries cut the sequence into segments. */
  ghost predicate Cuts(s: seq<int>, st: seq<nat>) {
    && |st| > 0 && st[0] == 0 && st[|st| - 1] == |s|
    && forall i, j :: 0 <= i <= j < |st| ==> st[i] <= st[j]
  }

  ghost predicate SegmentsSorted(s: seq<int>, st: seq<nat>)
    requires Cuts(s, st)
  {
    forall k {:trigger SegmentSorted(s, st, k)} :: 0 <= k < |st| - 1 ==> SegmentSorted(s, st, k)
  }

  ghost predicate SegmentSorted(s: seq<int>, st: seq<nat>, k: nat)
    requires Cuts(s, st) && k < |st| - 1
  {
    forall i, j :: st[k] <= i < j < st[k + 1] ==> s[i] <= s[j]
  }

  /** Each index is inside its segment, or just behind it. */
  ghost predicate Inside(s: seq<int>, st: seq<nat>, idx: seq<nat>) {
    Cuts(s, st) && |st| == |idx| + 1 && forall i {:trigger idx[i]} :: 0 <= i < |idx| ==> st[i] <= idx[i] <= st[i + 1]
  }

  /** The elements from a up to b. */
  ghost function Part(s: seq<int>, a: nat, b: nat): multiset<int>
    requires a <= b <= |s|
    decreases b - a
  {
    if a == b then multiset{} else Part(s, a + 1, b) + multiset{s[a]}
  }

  lemma {:induction false} PartSplit(s: seq<int>, a: nat, b: nat, c: nat)
    requires a <= b <= c <= |s|
    ensures Part(s, a, c) == Part(s, a, b) + Part(s, b, c)
    decreases b - a
  {
    if a < b { PartSplit(s, a + 1, b, c); }
  }

  lemma {:induction false} PartAll(s: seq<int>, a: nat)
    requires a <= |s|
    ensures Part(s, a, |s|) == multiset(s[a..])
    decreases |s| - a
  {
    if a < |s| {
      PartAll(s, a + 1);
      assert s[a..] == [s[a]] + s[a + 1..];
    }
  }

  lemma {:induction false} PartHas(s: seq<int>, a: nat, b: nat, x: int)
    requires a <= b <= |s| && x in Part(s, a, b)
    ensures exists i :: a <= i < b && s[i] == x
    decreases b - a
  {
    if a < b && x != s[a] { PartHas(s, a + 1, b, x); }
  }

  /** What is left of the first k segments. */
  ghost function Rest(s: seq<int>, st: seq<nat>, idx: seq<nat>, k: nat): multiset<int>
    requires k <= |idx| && Inside(s, st, idx)
  {
    if k == 0 then multiset{} else Rest(s, st, idx, k - 1) + Part(s, idx[k - 1], st[k])
  }

  lemma {:induction false} RestAtStart(s: seq<int>, st: seq<nat>, idx: seq<nat>, k: nat)
    requires k <= |idx| && Inside(s, st, idx) && idx == st[..|st| - 1]
    ensures Rest(s, st, idx, k) == Part(s, 0, st[k])
  {
    if k > 0 {
      RestAtStart(s, st, idx, k - 1);
      assert idx[k - 1] == st[k - 1];
      PartSplit(s, 0, st[k - 1], st[k]);
    }
  }

  lemma InsideStep(s: seq<int>, st: seq<nat>, idx: seq<nat>, m: nat)
    requires Inside(s, st, idx) && m < |idx| && idx[m] < st[m + 1]
    ensures Inside(s, st, idx[m := idx[m] + 1])
  {
  }

  /** The segments before m do not notice. */
  lemma {:induction false} RestBefore(s: seq<int>, st: seq<nat>, idx: seq<nat>, idx': seq<nat>, k: nat)
    requires k <= |idx| && Inside(s, st, idx) && Inside(s, st, idx') && forall i :: 0 <= i < k ==> idx'[i] == idx[i]
    ensures Rest(s, st, idx', k) == Rest(s, st, idx, k)
  {
    if k > 0 { RestBefore(s, st, idx, idx', k - 1); }
  }

  /** Taking the first element of segment m takes that one element from what is left. */
  lemma {:induction false} RestStep(s: seq<int>, st: seq<nat>, idx: seq<nat>, idx': seq<nat>, k: nat, m: nat)
    requires m < k <= |idx| && Inside(s, st, idx) && Inside(s, st, idx') && idx[m] < st[m + 1]
    requires idx' == idx[m := idx[m] + 1]
    ensures Rest(s, st, idx, k) == Rest(s, st, idx', k) + multiset{s[idx[m]]}
  {
    if m == k - 1 {
      RestBefore(s, st, idx, idx', k - 1);
    } else {
      RestStep(s, st, idx, idx', k - 1, m);
    }
  }

  lemma {:induction false} RestEmpty(s: seq<int>, st: seq<nat>, idx: seq<nat>, k: nat)
    requires k <= |idx| && Inside(s, st, idx) && forall i :: 0 <= i < k ==> idx[i] == st[i + 1]
    ensures Rest(s, st, idx, k) == multiset{}
  {
    if k > 0 { RestEmpty(s, st, idx, k - 1); }
  }

  /** When the first elements are not below v, nothing that is left is. */
  lemma {:induction false} RestAbove(s: seq<int>, st: seq<nat>, idx: seq<nat>, k: nat, v: int)
    requires k <= |idx| && Inside(s, st, idx) && SegmentsSorted(s, st)
    requires forall i :: 0 <= i < k && idx[i] < st[i + 1] ==> v <= s[idx[i]]
    ensures forall x :: x in Rest(s, st, idx, k) ==> v <= x
  {
    if k > 0 {
      RestAbove(s, st, idx, k - 1, v);
      var part := Part(s, idx[k - 1], st[k]);
      forall x | x in part ensures v <= x {
        PartHas(s, idx[k - 1], st[k], x);
        var i :| idx[k - 1] <= i < st[k] && s[i] == x;
        assert SegmentSorted(s, st, k - 1) && st[k - 1] <= idx[k - 1];
      }
    }
  }

  /** Between two rounds: the output so far is sorted, nothing that is left is below it, and nothing is lost. */
  ghost predicate Merging(s: seq<int>, st: seq<nat>, idx: seq<nat>, out: seq<int>) {
    && Inside(s, st, idx) && SegmentsSorted(s, st) && Sorted(out)
    && multiset(out) + Rest(s, st, idx, |idx|) == multiset(s)
    && forall j, x :: 0 <= j < |out| && x in Rest(s, st, idx, |idx|) ==> out[j] <= x
  }

  /** The same, sealed. */
  ghost function StageOf(s: seq<int>, st: seq<nat>, idx: seq<nat>, out: seq<int>): Standing {
    if forall t {:trigger Opened(t)} :: Opened(t) ==> Merging(s, st, idx, out) then Firm else Shaken
  }

  /** Segment m has an element left, and its first one is least. */
  ghost predicate IsLeast(s: seq<int>, st: seq<nat>, idx: seq<nat>, m: nat)
    requires Inside(s, st, idx)
  {
    && m < |idx| && idx[m] < st[m + 1]
    && forall i :: 0 <= i < |idx| && idx[i] < st[i + 1] ==> s[idx[m]] <= s[idx[i]]
  }

  lemma MergeBegins(s: seq<int>, st: seq<nat>)
    requires Cuts(s, st) && SegmentsSorted(s, st)
    ensures StageOf(s, st, st[..|st| - 1], []) == Firm
  {
    RestAtStart(s, st, st[..|st| - 1], |st| - 1);
    PartAll(s, 0);
    assert s[0..] == s;
  }

  lemma OneMore(out: seq<int>, v: int, rest: multiset<int>, rest': multiset<int>)
    requires Sorted(out) && rest == rest' + multiset{v}
    requires forall j, x :: 0 <= j < |out| && x in rest ==> out[j] <= x
    requires forall x :: x in rest ==> v <= x
    ensures Sorted(out + [v]) && multiset(out + [v]) + rest' == multiset(out) + rest
    ensures forall j, x :: 0 <= j < |out + [v]| && x in rest' ==> (out + [v])[j] <= x
  {
    assert v in rest;
    assert multiset(out + [v]) == multiset(out) + multiset{v};
    assert forall x :: x in rest' ==> x in rest;
  }

  lemma MergeRound(s: seq<int>, st: seq<nat>, idx: seq<nat>, out: seq<int>, m: nat)
    requires StageOf(s, st, idx, out) == Firm && Inside(s, st, idx) && IsLeast(s, st, idx, m)
    ensures StageOf(s, st, idx[m := idx[m] + 1], out + [s[idx[m]]]) == Firm
  {
    assert Opened(true);
    var idx', taken := idx[m := idx[m] + 1], s[idx[m]];
    InsideStep(s, st, idx, m);
    RestStep(s, st, idx, idx', |idx|, m);
    RestAbove(s, st, idx, |idx|, taken);
    OneMore(out, taken, Rest(s, st, idx, |idx|), Rest(s, st, idx', |idx|));
  }

  /** While fewer numbers are out than there are, some segment has one left. */
  lemma SomeLeft(s: seq<int>, st: seq<nat>, idx: seq<nat>, out: seq<int>)
    requires StageOf(s, st, idx, out) == Firm && |out| < |s|
    ensures Inside(s, st, idx) && exists i :: 0 <= i < |idx| && idx[i] < st[i + 1]
  {
    assert |multiset(out)| == |out| && |multiset(s)| == |s|;
    assert Opened(true);
    if forall i :: 0 <= i < |idx| ==> idx[i] == st[i + 1] {
      RestEmpty(s, st, idx, |idx|);
    }
  }

  lemma MergeEnds(s: seq<int>, st: seq<nat>, idx: seq<nat>, out: seq<int>)
    requires StageOf(s, st, idx, out) == Firm && |out| == |s|
    ensures Sorted(out) && multiset(out) == multiset(s)
  {
    assert Opened(true);
    assert |multiset(out)| == |out| && |multiset(s)| == |s|;
    assert |Rest(s, st, idx, |idx|)| == 0;
  }

  // ---- The program ----

  /** The boundaries of t segments of n elements. */
  ghost predicate Even(st: seq<nat>, n: nat) { forall i :: 0 <= i < |st| ==> st[i] == i * n }

  /** The inner loop: the segment whose first element is least, the first of several. */
  method Least(nums: array<int>, idx: array<nat>, n: nat, ghost st: seq<nat>) returns (minidx: nat)
    requires Inside(nums[..], st, idx[..]) && Even(st, n)
    requires forall k :: 0 <= k < nums.Length ==> nums[k] < LONG_MAX
    requires exists i :: 0 <= i < idx.Length && idx[..][i] < st[i + 1]
    ensures IsLeast(nums[..], st, idx[..], minidx)
  {
    var num := LONG_MAX;
    minidx := 0;
    ghost var some :| 0 <= some < idx.Length && idx[..][some] < st[some + 1];
    var i := 0;
    while i < idx.Length
      invariant i <= idx.Length
      invariant forall j :: 0 <= j < i && idx[..][j] < st[j + 1] ==> num <= nums[..][idx[..][j]]
      invariant num == LONG_MAX || (minidx < i && idx[..][minidx] < st[minidx + 1] && nums[..][idx[..][minidx]] == num)
    {
      assert idx[..][i] == idx[i] && st[i + 1] == (i + 1) * n && st[i + 1] <= nums.Length;
      if idx[i] < (i + 1) * n && nums[idx[i]] < num {
        num := nums[idx[i]];
        minidx := i;
      }
      i := i + 1;
    }
    assert num <= nums[..][idx[..][some]] < LONG_MAX;
  }

  /** One round of the outer loop: the least of the first elements goes out. */
  method Round(nums: array<int>, idx: array<nat>, n: nat, snums: array<int>, sidx: nat, ghost st: seq<nat>)
    returns (ghost m: nat)
    requires nums != snums && sidx < nums.Length == snums.Length
    requires Inside(nums[..], st, idx[..]) && Even(st, n) && forall k :: 0 <= k < nums.Length ==> nums[k] < LONG_MAX
    requires exists i :: 0 <= i < idx.Length && idx[..][i] < st[i + 1]
    modifies idx, snums
    ensures IsLeast(nums[..], st, old(idx[..]), m) && idx[..] == old(idx[..])[m := old(idx[..])[m] + 1]
    ensures snums[..sidx + 1] == old(snums[..sidx]) + [nums[..][old(idx[..])[m]]]
  {
    var minidx := Least(nums, idx, n, st);
    m := minidx;
    snums[sidx] := nums[idx[minidx]];
    idx[minidx] := idx[minidx] + 1;
  }

  /** The outer loop. */
  method MergeLoop(nums: array<int>, idx: array<nat>, n: nat, snums: array<int>, ghost st: seq<nat>)
    requires nums != snums && nums.Length == snums.Length && |st| == idx.Length + 1 && Even(st, n)
    requires StageOf(nums[..], st, idx[..], snums[..0]) == Firm
    requires forall k :: 0 <= k < nums.Length ==> nums[k] < LONG_MAX
    modifies idx, snums
    ensures Sorted(snums[..]) && multiset(snums[..]) == multiset(nums[..])
  {
    var sidx := 0;
    ghost var s, at, out := nums[..], idx[..], snums[..0];
    while sidx < nums.Length
      invariant sidx <= nums.Length && nums[..] == s && idx[..] == at && snums[..sidx] == out
      invariant StageOf(s, st, at, out) == Firm
    {
      SomeLeft(s, st, at, out);
      ghost var m := Round(nums, idx, n, snums, sidx, st);
      MergeRound(s, st, at, out, m);
      at, out := at[m := at[m] + 1], out + [s[at[m]]];
      sidx := sidx + 1;
    }
    assert snums[..sidx] == snums[..];
    MergeEnds(s, st, at, out);
  }

  /** Segment k of n elements is sorted. */
  ghost predicate EvenSorted(s: seq<int>, n: nat, k: nat) {
    forall i, j :: k * n <= i < j < (k + 1) * n && j < |s| ==> s[i] <= s[j]
  }

  lemma TimesLe(i: nat, j: nat, n: nat)
    requires i <= j
    ensures i * n <= j * n
  {
  }

  /** The boundaries of t segments of n numbers cut an array of t times n numbers. */
  lemma EvenCuts(s: seq<int>, t: nat, n: nat, st: seq<nat>)
    requires |s| == t * n && |st| == t + 1 && Even(st, n)
    ensures Cuts(s, st)
  {
    forall i, j | 0 <= i <= j < |st| ensures st[i] <= st[j] { TimesLe(i, j, n); }
  }

  lemma EvenSegment(s: seq<int>, t: nat, n: nat, st: seq<nat>, k: nat)
    requires Cuts(s, st) && |st| == t + 1 && Even(st, n) && k < t && EvenSorted(s, n, k)
    ensures SegmentSorted(s, st, k)
  {
    var a, b := k * n, (k + 1) * n;
    assert st[k] == a && st[k + 1] == b <= |s|;
  }

  /** merge: for any number t of sorted segments of any size n, with all numbers below LONG_MAX. */
  method MergeSegments(nums: array<int>, t: nat, n: nat) returns (snums: array<int>)
    requires nums.Length == t * n
    requires forall k {:trigger EvenSorted(nums[..], n, k)} :: 0 <= k < t ==> EvenSorted(nums[..], n, k)
    requires forall k :: 0 <= k < nums.Length ==> nums[k] < LONG_MAX
    ensures fresh(snums) && snums.Length == nums.Length && nums[..] == old(nums[..])
    ensures Sorted(snums[..]) && multiset(snums[..]) == multiset(nums[..])
  {
    ghost var st := Boundaries(t, n);
    EvenCuts(nums[..], t, n, st);
    forall k | 0 <= k < t ensures SegmentSorted(nums[..], st, k) { EvenSegment(nums[..], t, n, st, k); }
    var idx := new nat[t];
    var i := 0;
    while i < t
      invariant i <= t && idx[..i] == st[..i]
    {
      idx[i] := i * n;
      i := i + 1;
    }
    snums := new int[nums.Length];
    assert idx[..] == st[..|st| - 1] && snums[..0] == [];
    MergeBegins(nums[..], st);
    MergeLoop(nums, idx, n, snums, st);
  }

  ghost function Boundaries(t: nat, n: nat): (st: seq<nat>)
    ensures |st| == t + 1 && Even(st, n)
  {
    seq(t + 1, i requires 0 <= i <= t => i * n)
  }
}

/** Selecting the replication high watermark: the k-th smallest of the replicas' offsets,
    by popping a heap, by sorting, and by the replication manager's bounded heap. */
module HighWatermark {
  import opened Types

  const U64_MAX: nat := 0xFFFF_FFFF_FFFF_FFFF

  function CountBelow(s: seq<nat>, v: nat): nat {
    if s == [] then 0 else Bit(s[0] < v) + CountBelow(s[1..], v)
  }

  function CountAtLeast(s: seq<nat>, v: nat): nat {
    if s == [] then 0 else Bit(v <= s[0]) + CountAtLeast(s[1..], v)
  }

  /** `v` is the k-th smallest: it occurs, fewer than k offsets are below it, and at
      least k are not above it. */
  ghost predicate IsKth(s: seq<nat>, k: nat, v: nat) {
    v in s && CountBelow(s, v) < k <= CountBelow(s, v + 1)
  }

  // ---------------------------------------------------------------------------
  // Counting
  // ---------------------------------------------------------------------------

  lemma {:induction false} CountsAdd(a: seq<nat>, b: seq<nat>, v: nat)
    ensures CountBelow(a + b, v) == CountBelow(a, v) + CountBelow(b, v)
    decreases |a|
  {
    if a == [] {
      assert a + b == b;
    } else {
      CountsAdd(a[1..], b, v);
      assert (a + b)[1..] == a[1..] + b;
    }
  }

  lemma RemoveOne(s: seq<nat>, i: nat)
    requires i < |s|
    ensures multiset(s) == multiset(s[..i] + s[i + 1..]) + multiset{s[i]}
  {
    assert s == s[..i] + [s[i]] + s[i + 1..];
  }

  lemma CountRemoveOne(s: seq<nat>, i: nat, v: nat)
    requires i < |s|
    ensures CountBelow(s, v) == CountBelow(s[..i] + s[i + 1..], v) + Bit(s[i] < v)
  {
    assert s == s[..i] + ([s[i]] + s[i + 1..]);
    assert ([s[i]] + s[i + 1..])[1..] == s[i + 1..];
    CountsAdd(s[..i], [s[i]] + s[i + 1..], v);
    CountsAdd(s[..i], s[i + 1..], v);
  }

  lemma Partner(s: seq<nat>, t: seq<nat>) returns (j: nat)
    requires multiset(s) == multiset(t) && s != []
    ensures j < |t| && t[j] == s[0] && multiset(s[1..]) == multiset(t[..j] + t[j + 1..])
  {
    assert s[0] in multiset(t);
    j :| 0 <= j < |t| && t[j] == s[0];
    RemoveOne(t, j);
    RemoveOne(s, 0);
    assert s[..0] + s[1..] == s[1..];
    assert multiset(s[1..]) == multiset(s) - multiset{s[0]};
    assert multiset(t[..j] + t[j + 1..]) == multiset(t) - multiset{t[j]};
  }

  lemma {:induction false} CountsPermute(s: seq<nat>, t: seq<nat>, v: nat)
    requires multiset(s) == multiset(t)
    ensures CountBelow(s, v) == CountBelow(t, v)
    decreases |s|
  {
    if s == [] {
      assert |multiset(t)| == 0;
    } else {
      var j := Partner(s, t);
      CountRemoveOne(t, j, v);
      CountsPermute(s[1..], t[..j] + t[j + 1..], v);
    }
  }

  lemma {:induction false} CountBounds(s: seq<nat>, v: nat)
    ensures CountBelow(s, v) + CountAtLeast(s, v) == |s|
    ensures (forall x :: x in s ==> v <= x) ==> CountBelow(s, v) == 0
    ensures (forall x :: x in s ==> x < v) ==> CountBelow(s, v) == |s|
    ensures v in s ==> CountBelow(s, v) < CountBelow(s, v + 1)
    ensures CountBelow(s, v) <= CountBelow(s, v + 1)
    ensures CountBelow(s, v) < CountBelow(s, v + 1) ==> v in s
    decreases |s|
  {
    if s != [] {
      CountBounds(s[1..], v);
      assert s == [s[0]] + s[1..];
      assert s[0] in s && forall x :: x in s[1..] ==> x in s;
      assert v in s <==> v == s[0] || v in s[1..];
    }
  }

  lemma CountOneMore(s: seq<nat>, x: nat, v: nat)
    ensures CountAtLeast(s + [x], v) == CountAtLeast(s, v) + Bit(v <= x)
  {
    CountsAdd(s, [x], v);
    CountBounds(s, v);
    CountBounds([x], v);
    CountBounds(s + [x], v);
    assert [x][1..] == [];
  }

  lemma {:induction false} CountMonotone(s: seq<nat>, v: nat, w: nat)
    requires v <= w
    ensures CountBelow(s, v) <= CountBelow(s, w)
    decreases |s|
  {
    if s != [] {
      CountMonotone(s[1..], v, w);
    }
  }

  /** If the list splits into k-1 offsets not above `v` and the rest not below it, with
      `v` among the rest, then `v` is the k-th smallest. */
  lemma SplitIsKth(s: seq<nat>, low: seq<nat>, high: seq<nat>, v: nat)
    requires multiset(s) == multiset(low) + multiset(high)
    requires forall x :: x in low ==> x <= v
    requires forall x :: x in high ==> v <= x
    requires v in high
    ensures IsKth(s, |low| + 1, v)
  {
    assert multiset(low + high) == multiset(s);
    CountsPermute(s, low + high, v);
    CountsPermute(s, low + high, v + 1);
    CountsAdd(low, high, v);
    CountsAdd(low, high, v + 1);
    CountBounds(low, v + 1);
    CountBounds(high, v);
    CountBounds(low, v);
    CountMonotone(low, v, v + 1);
    assert v in multiset(s);
  }

  // ---------------------------------------------------------------------------
  // What the k-th smallest means for replication
  // ---------------------------------------------------------------------------

  lemma KthIsUnique(s: seq<nat>, k: nat, v: nat, w: nat)
    requires IsKth(s, k, v) && IsKth(s, k, w)
    ensures v == w
  {
    if v < w {
      CountMonotone(s, v + 1, w);
    } else if w < v {
      CountMonotone(s, w + 1, v);
    }
  }

  lemma KthOfPermutation(s: seq<nat>, t: seq<nat>, k: nat, v: nat)
    requires multiset(s) == multiset(t) && IsKth(s, k, v)
    ensures IsKth(t, k, v)
  {
    CountsPermute(s, t, v);
    CountsPermute(s, t, v + 1);
    assert v in multiset(s);
  }

  /** The k-th smallest of n offsets is the greatest offset that at least n-k+1 replicas
      have reached. */
  lemma KthIsGreatestHeld(s: seq<nat>, k: nat, v: nat, w: nat)
    requires IsKth(s, k, v)
    ensures CountAtLeast(s, v) >= |s| - k + 1
    ensures CountAtLeast(s, w) >= |s| - k + 1 <==> w <= v
  {
    CountBounds(s, v);
    CountBounds(s, w);
    if w <= v {
      CountMonotone(s, w, v);
    } else {
      CountMonotone(s, v + 1, w);
    }
  }

  /** Raising one replica's offset never lowers the k-th smallest. */
  lemma RaisingNeverLowers(s: seq<nat>, k: nat, i: nat, x: nat, v: nat, w: nat)
    requires i < |s| && s[i] <= x && IsKth(s, k, v) && IsKth(s[i := x], k, w)
    ensures v <= w
  {
    var t := s[i := x];
    assert s == s[..i] + ([s[i]] + s[i + 1..]);
    assert t == s[..i] + ([x] + s[i + 1..]);
    CountsAdd(s[..i], [s[i]] + s[i + 1..], v);
    CountsAdd([s[i]], s[i + 1..], v);
    CountsAdd(s[..i], [x] + s[i + 1..], v);
    CountsAdd([x], s[i + 1..], v);
    CountBounds(s, v);
    CountBounds(t, v);
    KthIsGreatestHeld(s, k, v, v);
    KthIsGreatestHeld(t, k, w, v);
  }

  // ---------------------------------------------------------------------------
  // Heaps and sorting
  // ---------------------------------------------------------------------------

  /** A binary heap by its contract: a bag from which the first element of its order can
      be inspected and removed. */
  class BinaryHeap {
    const reversed: bool
    var items: seq<nat>

    predicate Before(a: nat, b: nat) {
      if reversed then a <= b else b <= a
    }

    ghost predicate IsTop(x: nat)
      reads this
    {
      x in items && forall y :: y in items ==> Before(x, y)
    }

    constructor (reversed: bool)
      ensures this.reversed == reversed && items == []
    {
      this.reversed := reversed;
      items := [];
    }

    method Push(x: nat)
      modifies this
      ensures multiset(items) == old(multiset(items)) + multiset{x}
    {
      items := items + [x];
    }

    method Peek() returns (top: nat)
      requires items != []
      ensures IsTop(top)
    {
      top := items[0];
      var i := 1;
      while i < |items|
        invariant 1 <= i <= |items|
        invariant top in items && forall j :: 0 <= j < i ==> Before(top, items[j])
      {
        if !Before(top, items[i]) {
          top := items[i];
        }
        i := i + 1;
      }
    }

    method Pop() returns (top: nat)
      requires items != []
      modifies this
      ensures old(IsTop(top)) && multiset(items) == old(multiset(items)) - multiset{top}
      ensures |items| == old(|items|) - 1
    {
      top := Peek();
      var i :| 0 <= i < |items| && items[i] == top;
      RemoveOne(items, i);
      items := items[..i] + items[i + 1..];
    }
  }

  /** Membership facts that multisets give only on request. */
  lemma SameMembers(a: seq<nat>, b: seq<nat>, c: seq<nat>)
    requires multiset(a) == multiset(b) + multiset(c)
    ensures |a| == |b| + |c|
    ensures forall x :: x in a <==> x in b || x in c
  {
    assert |multiset(a)| == |multiset(b)| + |multiset(c)|;
    forall x ensures x in a <==> x in b || x in c {
      assert x in a <==> x in multiset(a);
    }
  }

  lemma PopStep(offsets: seq<nat>, popped: seq<nat>, before: seq<nat>, after: seq<nat>, top: nat)
    requires multiset(offsets) == multiset(popped) + multiset(before)
    requires forall x, y :: x in popped && y in before ==> x <= y
    requires top in before && (forall y :: y in before ==> top <= y)
    requires multiset(after) == multiset(before) - multiset{top}
    ensures multiset(offsets) == multiset(popped + [top]) + multiset(after)
    ensures forall x, y :: x in popped + [top] && y in after ==> x <= y
  {
    assert top in multiset(before);
    SameMembers(before, after, [top]);
    assert multiset(popped + [top]) == multiset(popped) + multiset{top};
  }

  /** `benchmark_original_approach`: a full min-heap, k-1 pops and a peek. */
  method KthByHeap(offsets: seq<nat>, k: nat) returns (v: nat)
    requires 1 <= k <= |offsets|
    ensures IsKth(offsets, k, v)
  {
    var heap := new BinaryHeap(true);
    var i := 0;
    while i < |offsets|
      invariant 0 <= i <= |offsets| && heap.reversed
      invariant multiset(heap.items) == multiset(offsets[..i])
    {
      assert offsets[..i + 1] == offsets[..i] + [offsets[i]];
      heap.Push(offsets[i]);
      i := i + 1;
    }
    assert offsets[..|offsets|] == offsets;
    ghost var popped: seq<nat> := [];
    i := 0;
    while i < k - 1
      invariant 0 <= i <= k - 1 && heap.reversed && |popped| == i
      invariant multiset(offsets) == multiset(popped) + multiset(heap.items)
      invariant forall x, y :: x in popped && y in heap.items ==> x <= y
    {
      SameMembers(offsets, popped, heap.items);
      ghost var before := heap.items;
      var top := heap.Pop();
      PopStep(offsets, popped, before, heap.items, top);
      popped := popped + [top];
      i := i + 1;
    }
    SameMembers(offsets, popped, heap.items);
    v := heap.Peek();
    SplitIsKth(offsets, popped, heap.items, v);
  }

  ghost predicate Sorted(s: seq<nat>) {
    forall i, j :: 0 <= i < j < |s| ==> s[i] <= s[j]
  }

  method Swap(a: array<nat>, i: nat, j: nat)
    requires i < a.Length && j < a.Length
    modifies a
    ensures a[..] == old(a[..])[i := old(a[j])][j := old(a[i])]
    ensures multiset(a[..]) == old(multiset(a[..]))
  {
    a[i], a[j] := a[j], a[i];
  }

  method Sort(a: array<nat>)
    modifies a
    ensures Sorted(a[..]) && multiset(a[..]) == old(multiset(a[..]))
  {
    var n := 0;
    while n < a.Length
      invariant 0 <= n <= a.Length
      invariant multiset(a[..]) == old(multiset(a[..]))
      invariant forall i, j :: 0 <= i < n && i < j < a.Length ==> a[i] <= a[j]
    {
      var least, j := n, n + 1;
      while j < a.Length
        invariant n <= least < j <= a.Length
        invariant forall i :: n <= i < j ==> a[least] <= a[i]
      {
        if a[j] < a[least] {
          least := j;
        }
        j := j + 1;
      }
      Swap(a, n, least);
      n := n + 1;
    }
  }

  /** `benchmark_naive_approach`: sort a copy in place and index it. */
  method KthBySort(offsets: seq<nat>, k: nat) returns (v: nat)
    requires 1 <= k <= |offsets|
    ensures IsKth(offsets, k, v)
  {
    var sorted := new nat[|offsets|](i requires 0 <= i < |offsets| => offsets[i]);
    assert sorted[..] == offsets;
    Sort(sorted);
    v := sorted[k - 1];
    ghost var low, high := sorted[..k - 1], sorted[k - 1..];
    assert sorted[..] == low + high;
    assert high[0] == v;
    SplitIsKth(offsets, low, high, v);
  }

  // ---------------------------------------------------------------------------
  // The replication manager
  // ---------------------------------------------------------------------------

  method Minimum(offsets: seq<nat>) returns (v: nat)
    requires offsets != []
    ensures IsKth(offsets, 1, v)
  {
    v := offsets[0];
    var i := 1;
    while i < |offsets|
      invariant 1 <= i <= |offsets|
      invariant v in offsets && forall j :: 0 <= j < i ==> v <= offsets[j]
    {
      if offsets[i] < v {
        v := offsets[i];
      }
      i := i + 1;
    }
    SplitIsKth(offsets, [], offsets, v);
  }

  lemma CountSnoc(s: seq<nat>, x: nat, v: nat)
    ensures CountBelow(s + [x], v) == CountBelow(s, v) + Bit(x < v)
  {
    CountsAdd(s, [x], v);
    assert [x][1..] == [];
  }

  /** The two running minima are the two smallest of what was seen and two sentinels. */
  ghost predicate TwoLeast(seen: seq<nat>, least: nat, second: nat) {
    && least <= second <= U64_MAX
    && CountBelow(seen, least) == 0 && 1 <= CountBelow(seen, least + 1)
    && CountBelow(seen, second) < 2 <= CountBelow(seen, second + 1)
  }

  lemma TwoLeastStep(seen: seq<nat>, x: nat, least: nat, second: nat)
    requires TwoLeast(seen, least, second)
    ensures if x < least then TwoLeast(seen + [x], x, least)
            else if x < second then TwoLeast(seen + [x], least, x)
            else TwoLeast(seen + [x], least, second)
  {
    CountSnoc(seen, x, x);
    CountSnoc(seen, x, x + 1);
    CountSnoc(seen, x, least);
    CountSnoc(seen, x, least + 1);
    CountSnoc(seen, x, second);
    CountSnoc(seen, x, second + 1);
    if x < least {
      CountMonotone(seen, x, least);
    } else if x < second {
      CountMonotone(seen, x, second);
      CountMonotone(seen, least + 1, x + 1);
    }
  }

  /** The two sentinels do not disturb the second smallest of two or more offsets. */
  lemma SentinelsDropOut(offsets: seq<nat>, least: nat, second: nat)
    requires 2 <= |offsets| && (forall x :: x in offsets ==> x <= U64_MAX)
    requires TwoLeast([U64_MAX, U64_MAX] + offsets, least, second)
    ensures IsKth(offsets, 2, second)
  {
    CountsAdd([U64_MAX, U64_MAX], offsets, second);
    CountsAdd([U64_MAX, U64_MAX], offsets, second + 1);
    CountBounds([U64_MAX, U64_MAX], second);
    CountBounds([U64_MAX, U64_MAX], second + 1);
    CountBounds(offsets, second);
    CountBounds(offsets, second + 1);
  }

  method SecondSmallest(offsets: seq<nat>) returns (second: nat)
    requires 2 <= |offsets| && forall x :: x in offsets ==> x <= U64_MAX
    ensures IsKth(offsets, 2, second)
  {
    var least: nat := U64_MAX;
    second := U64_MAX;
    ghost var sentinels := [U64_MAX, U64_MAX];
    CountBounds(sentinels, U64_MAX);
    CountBounds(sentinels, U64_MAX + 1);
    assert sentinels + offsets[..0] == sentinels;
    var i := 0;
    while i < |offsets|
      invariant 0 <= i <= |offsets|
      invariant TwoLeast(sentinels + offsets[..i], least, second)
    {
      var offset := offsets[i];
      assert sentinels + offsets[..i + 1] == sentinels + offsets[..i] + [offset];
      TwoLeastStep(sentinels + offsets[..i], offset, least, second);
      if offset < least {
        second := least;
        least := offset;
      } else if offset < second {
        second := offset;
      }
      i := i + 1;
    }
    assert offsets[..|offsets|] == offsets;
    SentinelsDropOut(offsets, least, second);
  }

  /** The greatest kept offset made room for a smaller one. */
  lemma ReplacedOrder(before: seq<nat>, kept: seq<nat>, after: seq<nat>, discarded: seq<nat>, out: nat, offset: nat)
    requires (forall x :: x in before ==> x <= out) && out in before && offset <= out
    requires forall x :: x in kept ==> x in before
    requires forall x :: x in after ==> x in kept || x == offset
    requires forall x, y :: x in before && y in discarded ==> x <= y
    ensures forall x, y :: x in after && y in discarded + [out] ==> x <= y
  {
  }

  lemma Replaced(before: seq<nat>, kept: seq<nat>, after: seq<nat>, discarded: seq<nat>, out: nat, offset: nat)
    requires out in before && (forall x :: x in before ==> x <= out) && offset <= out
    requires multiset(kept) == multiset(before) - multiset{out} && multiset(after) == multiset(kept) + multiset{offset}
    requires forall x, y :: x in before && y in discarded ==> x <= y
    ensures |after| == |before|
    ensures multiset(after) + multiset(discarded + [out]) == multiset(before) + multiset(discarded) + multiset{offset}
    ensures forall x, y :: x in after && y in discarded + [out] ==> x <= y
  {
    assert out in multiset(before);
    SameMembers(before, kept, [out]);
    SameMembers(after, kept, [offset]);
    ReplacedOrder(before, kept, after, discarded, out, offset);
    assert multiset(discarded + [out]) == multiset(discarded) + multiset{out};
  }

  /** What the bounded heap knows after a prefix of the offsets. */
  ghost predicate KeepsSmallest(prefix: seq<nat>, kept: seq<nat>, discarded: seq<nat>) {
    && multiset(prefix) == multiset(kept) + multiset(discarded)
    && forall x, y :: x in kept && y in discarded ==> x <= y
  }

  method FillHeap(offsets: seq<nat>, k: nat) returns (heap: BinaryHeap)
    requires k <= |offsets|
    ensures fresh(heap) && !heap.reversed && |heap.items| == k
    ensures multiset(heap.items) == multiset(offsets[..k])
  {
    heap := new BinaryHeap(false);
    var i := 0;
    while i < k
      invariant 0 <= i <= k && !heap.reversed
      invariant multiset(heap.items) == multiset(offsets[..i])
    {
      assert offsets[..i + 1] == offsets[..i] + [offsets[i]];
      heap.Push(offsets[i]);
      i := i + 1;
    }
    assert |multiset(heap.items)| == |multiset(offsets[..k])|;
  }

  /** One offset goes past the bounded heap; the offset that drops out is returned. */
  method OfferToHeap(heap: BinaryHeap, ghost prefix: seq<nat>, ghost discarded: seq<nat>, offset: nat)
    returns (ghost dropped: nat)
    requires !heap.reversed && heap.items != [] && KeepsSmallest(prefix, heap.items, discarded)
    modifies heap
    ensures |heap.items| == old(|heap.items|) && KeepsSmallest(prefix + [offset], heap.items, discarded + [dropped])
  {
    var top := heap.Peek();
    if offset < top {
      ghost var before := heap.items;
      dropped := heap.Pop();
      ghost var kept := heap.items;
      heap.Push(offset);
      Replaced(before, kept, heap.items, discarded, dropped, offset);
    } else {
      dropped := offset;
    }
  }

  lemma BoundedHeapSplit(offsets: seq<nat>, kept: seq<nat>, discarded: seq<nat>, v: nat)
    requires multiset(offsets) == multiset(kept) + multiset(discarded)
    requires v in kept && forall x :: x in kept ==> x <= v
    requires forall x, y :: x in kept && y in discarded ==> x <= y
    ensures IsKth(offsets, |kept|, v)
  {
    var i :| 0 <= i < |kept| && kept[i] == v;
    var low := kept[..i] + kept[i + 1..];
    assert kept == kept[..i] + [v] + kept[i + 1..];
    assert multiset(kept) == multiset(low) + multiset{v};
    assert forall x :: x in low ==> x in kept;
    SplitIsKth(offsets, low, [v] + discarded, v);
  }

  /** The general case: a max-heap that keeps the k smallest offsets seen so far. */
  method KthByBoundedHeap(offsets: seq<nat>, k: nat) returns (v: nat)
    requires 1 <= k <= |offsets|
    ensures IsKth(offsets, k, v)
  {
    var heap := FillHeap(offsets, k);
    var i := k;
    ghost var discarded: seq<nat> := [];
    while i < |offsets|
      invariant k <= i <= |offsets| && !heap.reversed && |heap.items| == k
      invariant KeepsSmallest(offsets[..i], heap.items, discarded)
    {
      assert offsets[..i + 1] == offsets[..i] + [offsets[i]];
      ghost var dropped := OfferToHeap(heap, offsets[..i], discarded, offsets[i]);
      discarded := discarded + [dropped];
      i := i + 1;
    }
    assert offsets[..|offsets|] == offsets;
    v := heap.Peek();
    BoundedHeapSplit(offsets, heap.items, discarded, v);
  }

  /** `find_kth_smallest`, with its answer for a k out of range. */
  method FindKthSmallest(offsets: seq<nat>, k: nat) returns (v: nat)
    requires forall x :: x in offsets ==> x <= U64_MAX
    ensures 1 <= k <= |offsets| ==> IsKth(offsets, k, v)
    ensures !(1 <= k <= |offsets|) ==> v == 0
  {
    if k == 0 || k > |offsets| {
      return 0;
    }
    if k == 1 {
      v := Minimum(offsets);
    } else if k == 2 {
      v := SecondSmallest(offsets);
    } else {
      v := KthByBoundedHeap(offsets, k);
    }
  }

  datatype Follower = Follower(lastKnownOffset: nat, heartbeatFresh: bool)

  class ReplicationManager {
    var followers: map<string, Follower>
    var logEndOffset: nat
    var highWatermark: nat
    const minInSyncReplicas: nat
    const maxReplicationLag: nat

    ghost predicate Valid()
      reads this
    {
      logEndOffset <= U64_MAX && forall id :: id in followers ==> followers[id].lastKnownOffset <= U64_MAX
    }

    predicate InSync(f: Follower)
      reads this`logEndOffset
    {
      f.heartbeatFresh
      && (if f.lastKnownOffset < logEndOffset then logEndOffset - f.lastKnownOffset else 0) <= maxReplicationLag
    }

    /** How many in-sync replicas, the leader included, have reached this offset. */
    ghost function Holders(offset: nat): nat
      reads this`followers, this`logEndOffset
    {
      Bit(offset <= logEndOffset) + |Reached(followers.Keys, offset)|
    }

    ghost function Reached(ids: set<string>, offset: nat): set<string>
      reads this`followers, this`logEndOffset
    {
      set id | id in ids && id in followers && InSync(followers[id]) && offset <= followers[id].lastKnownOffset
    }

    constructor (minInSyncReplicas: nat, maxReplicationLag: nat)
      ensures Valid() && followers == map[] && logEndOffset == 0 && highWatermark == 0
      ensures this.minInSyncReplicas == minInSyncReplicas && this.maxReplicationLag == maxReplicationLag
    {
      followers, logEndOffset, highWatermark := map[], 0, 0;
      this.minInSyncReplicas := minInSyncReplicas;
      this.maxReplicationLag := maxReplicationLag;
    }

    lemma ReachedOneMore(done: set<string>, id: string, offsets: seq<nat>, w: nat)
      requires id in followers && id !in done && CountAtLeast(offsets, w) == Bit(w <= logEndOffset) + |Reached(done, w)|
      ensures var f := followers[id];
              CountAtLeast(if InSync(f) then offsets + [f.lastKnownOffset] else offsets, w)
              == Bit(w <= logEndOffset) + |Reached(done + {id}, w)|
    {
      var f := followers[id];
      CountOneMore(offsets, f.lastKnownOffset, w);
      assert Reached(done + {id}, w) == Reached(done, w) + if InSync(f) && w <= f.lastKnownOffset then {id} else {};
    }

    /** The leader's offset and those of the followers in sync, in any order. */
    method CollectInSync() returns (offsets: seq<nat>)
      requires Valid()
      ensures forall x :: x in offsets ==> x <= U64_MAX
      ensures forall w: nat :: CountAtLeast(offsets, w) == Holders(w)
    {
      offsets := [logEndOffset];
      var remaining := followers.Keys;
      ghost var done := {};
      while remaining != {}
        invariant remaining == followers.Keys - done && done <= followers.Keys
        invariant forall x :: x in offsets ==> x <= U64_MAX
        invariant forall w: nat :: CountAtLeast(offsets, w) == Bit(w <= logEndOffset) + |Reached(done, w)|
        decreases remaining
      {
        var id :| id in remaining;
        var f := followers[id];
        ghost var before := offsets;
        if InSync(f) {
          offsets := offsets + [f.lastKnownOffset];
        }
        forall w: nat ensures CountAtLeast(offsets, w) == Bit(w <= logEndOffset) + |Reached(done + {id}, w)| {
          ReachedOneMore(done, id, before, w);
        }
        done, remaining := done + {id}, remaining - {id};
      }
      assert done == followers.Keys;
    }

    /** One call that is not interrupted never lowers the watermark; overlapping calls may, as
        Replication.OverlapLowers shows. With enough replicas in sync it ends at the greatest
        offset that at least `minInSyncReplicas` of them have reached, unless it was
        already beyond. */
    method RecalculateHighWatermark()
      requires Valid()
      modifies this`highWatermark
      ensures Valid() && old(highWatermark) <= highWatermark
      ensures minInSyncReplicas >= 1 && Holders(0) >= minInSyncReplicas ==>
                && (forall w: nat :: Holders(w) >= minInSyncReplicas ==> w <= highWatermark)
                && (highWatermark > old(highWatermark) ==> Holders(highWatermark) >= minInSyncReplicas)
      ensures minInSyncReplicas == 0 || Holders(0) < minInSyncReplicas ==> highWatermark == old(highWatermark)
    {
      var offsets := CollectInSync();
      CountBounds(offsets, 0);
      assert Holders(0) == |offsets|;
      if |offsets| >= minInSyncReplicas {
        var k := |offsets| - minInSyncReplicas + 1;
        var candidate := FindKthSmallest(offsets, k);
        if minInSyncReplicas >= 1 {
          forall w: nat ensures Holders(w) >= minInSyncReplicas <==> w <= candidate {
            assert CountAtLeast(offsets, w) == Holders(w);
            KthIsGreatestHeld(offsets, k, candidate, w);
          }
        }
        if candidate > highWatermark {
          highWatermark := candidate;
        }
      }
    }
  }
}

/** The random numbers of a shuffle: which draws there are, and that they can produce every order. */
module Draws {
  import opened Permutations
  import opened QueueSpec
  import opened PriorityOrder
  import opened Shuffles

  /** The random numbers of `queue_shuffle_order_range()`: the one for `lo + i` is drawn from `lo + i..hi`. */
  ghost predicate IsDraws(ds: seq<nat>, lo: nat, hi: nat) {
    lo <= hi && |ds| == hi - lo && forall i :: 0 <= i < |ds| ==> lo + i <= ds[i] < hi
  }

  function SwappedIn(o: seq<nat>, i: nat, j: nat): (r: seq<nat>)
    ensures |r| == |o|
  {
    if i < |o| && j < |o| then Swapped(o, i, j) else o
  }

  /** The order once each entry from `lo` on has been exchanged with the drawn one. */
  ghost function Drawn(o: seq<nat>, ds: seq<nat>, lo: nat): (r: seq<nat>)
    ensures |r| == |o|
  {
    if ds == [] then o
    else
      var n := |ds| - 1;
      SwappedIn(Drawn(o, ds[..n], lo), lo + n, ds[n])
  }

  lemma DrawnOneMore(o: seq<nat>, ds: seq<nat>, lo: nat, d: nat)
    ensures Drawn(o, ds + [d], lo) == SwappedIn(Drawn(o, ds, lo), lo + |ds|, d)
  {
    assert (ds + [d])[..|ds|] == ds;
  }

  lemma DrawnNothing(o: seq<nat>, lo: nat)
    ensures Drawn(o, [], lo) == o
  {
  }

  lemma ConsSnoc(d: nat, ds: seq<nat>, n: nat)
    requires |ds| == n + 1
    ensures [d] + ds == ([d] + ds[..n]) + [ds[n]] && ds == ds[..n] + [ds[n]]
  {
  }

  lemma {:induction false} DrawnFirst(o: seq<nat>, d: nat, ds: seq<nat>, lo: nat)
    ensures Drawn(o, [d] + ds, lo) == Drawn(SwappedIn(o, lo, d), ds, lo + 1)
    decreases |ds|
  {
    hide Drawn, SwappedIn;
    if ds == [] {
      DrawnNothing(o, lo);
      DrawnNothing(SwappedIn(o, lo, d), lo + 1);
      assert [d] + ds == [] + [d];
      DrawnOneMore(o, [], lo, d);
    } else {
      var n := |ds| - 1;
      var front, last := ds[..n], ds[n];
      DrawnFirst(o, d, front, lo);
      ConsSnoc(d, ds, n);
      DrawnOneMore(o, [d] + front, lo, last);
      DrawnOneMore(SwappedIn(o, lo, d), front, lo + 1, last);
    }
  }

  /** Draws only rearrange the range. */
  lemma {:induction false} DrawnRearranges(o: seq<nat>, ds: seq<nat>, lo: nat, hi: nat)
    requires hi <= |o| && lo + |ds| <= hi && forall i :: 0 <= i < |ds| ==> lo + i <= ds[i] < hi
    ensures PermutedWithin(o, Drawn(o, ds, lo), lo, hi)
    ensures IsPermutation(o) ==> IsPermutation(Drawn(o, ds, lo))
    decreases |ds|
  {
    hide PermutedWithin, IsPermutation, Swapped;
    if ds == [] {
      NothingRearranged(o, lo, hi);
    } else {
      var n := |ds| - 1;
      DrawnRearranges(o, ds[..n], lo, hi);
      var r := Drawn(o, ds[..n], lo);
      SwapWithin(o, r, lo + n, ds[n], lo, hi);
      if IsPermutation(o) { SwapKeepsPermutation(r, lo + n, ds[n]); }
    }
  }

  lemma NothingRearranged(o: seq<nat>, lo: nat, hi: nat)
    requires lo <= hi <= |o|
    ensures PermutedWithin(o, o, lo, hi)
  {
  }

  lemma CancelOne(x: nat, a: multiset<nat>, b: multiset<nat>)
    requires multiset{x} + a == multiset{x} + b
    ensures a == b
  {
    assert a == (multiset{x} + a) - multiset{x};
  }

  lemma NothingToDraw(o: seq<nat>, o': seq<nat>, lo: nat)
    requires PermutedWithin(o, o', lo, lo)
    ensures IsDraws([], lo, lo) && Drawn(o, [], lo) == o'
  {
    assert o' == o;
  }

  /** Every rearrangement of the range is the outcome of some draws. */
  lemma {:induction false} RearrangementIsDrawn(o: seq<nat>, o': seq<nat>, lo: nat, hi: nat) returns (ds: seq<nat>)
    requires PermutedWithin(o, o', lo, hi)
    ensures IsDraws(ds, lo, hi) && Drawn(o, ds, lo) == o'
    decreases hi - lo
  {
    assert lo <= hi;
    hide PermutedWithin, Drawn, Swapped, SwappedIn, IsDraws;
    if lo == hi {
      ds := [];
      NothingToDraw(o, o', lo);
    } else {
      var d := DrawFor(o, o', lo, hi);
      DrawnOneLess(o, o', lo, d, hi);
      var rest := RearrangementIsDrawn(SwappedIn(o, lo, d), o', lo + 1, hi);
      ds := [d] + rest;
      DrawsFirst(d, rest, lo, hi);
      DrawnFirst(o, d, rest, lo);
    }
  }

  lemma DrawsFirst(d: nat, ds: seq<nat>, lo: nat, hi: nat)
    requires lo <= d < hi && IsDraws(ds, lo + 1, hi)
    ensures IsDraws([d] + ds, lo, hi)
  {
  }

  /** The draw that puts the right entry first. */
  lemma DrawFor(o: seq<nat>, o': seq<nat>, lo: nat, hi: nat) returns (d: nat)
    requires PermutedWithin(o, o', lo, hi) && lo < hi
    ensures lo <= d < hi <= |o| && o[d] == o'[lo]
  {
    assert o'[lo..hi][0] == o'[lo];
    assert o'[lo] in multiset(o[lo..hi]);
    var k :| 0 <= k < hi - lo && o[lo..hi][k] == o'[lo];
    d := lo + k;
  }

  lemma DrawnOneLess(o: seq<nat>, o': seq<nat>, lo: nat, d: nat, hi: nat)
    requires PermutedWithin(o, o', lo, hi) && lo <= d < hi && o[d] == o'[lo]
    ensures PermutedWithin(SwappedIn(o, lo, d), o', lo + 1, hi)
  {
    var o1 := Swapped(o, lo, d);
    assert o1[lo] == o'[lo] && forall i :: 0 <= i < lo || hi <= i < |o| ==> o1[i] == o[i];
    RestAgrees(o, o', lo, d, hi);
  }

  lemma RestAgrees(o: seq<nat>, o': seq<nat>, lo: nat, d: nat, hi: nat)
    requires lo <= d < hi <= |o| == |o'| && o[d] == o'[lo] && multiset(o'[lo..hi]) == multiset(o[lo..hi])
    ensures multiset(o'[lo + 1..hi]) == multiset(Swapped(o, lo, d)[lo + 1..hi])
  {
    var o1 := Swapped(o, lo, d);
    assert o1[lo] == o[d];
    SwappedMultiset(o, lo, d, lo, hi);
    hide Swapped;
    SplitFirst(o1, lo, hi);
    SplitFirst(o', lo, hi);
    CancelOne(o'[lo], multiset(o'[lo + 1..hi]), multiset(o1[lo + 1..hi]));
  }

  // ---- the priority groups ----

  /** One call of `queue_shuffle_order_range()` for the songs `lo..hi` of one priority. */
  datatype Group = Group(lo: nat, hi: nat, draws: seq<nat>)

  ghost predicate IsGroup(s: seq<Item>, o: seq<nat>, g: Group)
    requires InRange(s, o)
  {
    && g.lo < g.hi <= |o| && IsDraws(g.draws, g.lo, g.hi)
    && forall n :: g.lo <= n < g.hi ==> PriorityAt(s, o, n) == PriorityAt(s, o, g.lo)
  }

  ghost predicate IsBorder(s: seq<Item>, o: seq<nat>, start: nat, n: nat)
    requires InRange(s, o)
  {
    0 < n < |o| && start < n ==> PriorityAt(s, o, n - 1) != PriorityAt(s, o, n)
  }

  /** `gs` are the priority groups of the sorted order `o` from `start` to `end`. */
  ghost predicate AreGroups(s: seq<Item>, o: seq<nat>, gs: seq<Group>, start: nat, end: nat)
    requires InRange(s, o)
  {
    if gs == [] then start == end
    else
      var g := gs[|gs| - 1];
      && AreGroups(s, o, gs[..|gs| - 1], start, g.lo) && start <= g.lo && g.hi == end
      && IsGroup(s, o, g) && IsBorder(s, o, start, g.lo)
  }

  /** The order once every group has been shuffled. */
  ghost function Played(o: seq<nat>, gs: seq<Group>): (r: seq<nat>)
    ensures |r| == |o|
  {
    if gs == [] then o
    else
      var g := gs[|gs| - 1];
      Drawn(Played(o, gs[..|gs| - 1]), g.draws, g.lo)
  }

  lemma OneMoreGroup(s: seq<Item>, o: seq<nat>, gs: seq<Group>, start: nat, g: Group)
    requires InRange(s, o) && AreGroups(s, o, gs, start, g.lo) && start <= g.lo
    requires IsGroup(s, o, g) && IsBorder(s, o, start, g.lo)
    ensures AreGroups(s, o, gs + [g], start, g.hi)
    ensures Played(o, gs + [g]) == Drawn(Played(o, gs), g.draws, g.lo)
  {
    assert (gs + [g])[..|gs|] == gs;
  }

  /** Shuffling the groups of a sorted order keeps it sorted. */
  lemma {:induction false} PlayedIsShuffle(s: seq<Item>, sorted: seq<nat>, gs: seq<Group>, end: nat)
    requires IsShuffle(s, sorted) && InRange(s, sorted) && AreGroups(s, sorted, gs, 0, end)
    ensures IsShuffle(s, Played(sorted, gs))
    ensures InRange(s, Played(sorted, gs)) && SamePriorities(s, sorted, Played(sorted, gs))
    decreases |gs|
  {
    if gs != [] {
      var g := gs[|gs| - 1];
      PlayedIsShuffle(s, sorted, gs[..|gs| - 1], g.lo);
      var o := Played(sorted, gs[..|gs| - 1]);
      hide IsPermutation, PermutedWithin;
      DrawnRearranges(o, g.draws, g.lo, g.hi);
      forall n | g.lo <= n < g.hi ensures PriorityAt(s, o, n) == PriorityAt(s, sorted, g.lo) {
        assert PriorityAt(s, o, n) == PriorityAt(s, sorted, n);
      }
      GroupShuffled(s, o, Played(sorted, gs), g.lo, g.hi, PriorityAt(s, sorted, g.lo));
      SamePrioritiesDescending(s, sorted, Played(sorted, gs), 0, |s|);
    }
  }

  /** Two shuffles have the same priority at every order number. */
  lemma ShufflesAgree(s: seq<Item>, o: seq<nat>, o': seq<nat>, i: nat)
    requires IsShuffle(s, o) && IsShuffle(s, o') && i < |s|
    ensures PriorityAt(s, o, i) <= PriorityAt(s, o', i)
  {
    var a := set p: nat | p < |s| && s[p].priority >= PriorityAt(s, o, i);
    if PriorityAt(s, o', i) < PriorityAt(s, o, i) {
      forall j | 0 <= j < i + 1 ensures o[j] in a {
        assert PriorityAt(s, o, j) >= PriorityAt(s, o, i);
      }
      CountUpTo(o, i + 1, a);
      forall p | p in a ensures IndexOf(o', p) < i {
        assert PriorityAt(s, o', IndexOf(o', p)) == s[p].priority;
      }
      CountBefore(o', i, a);
    }
  }

  lemma ShufflesSame(s: seq<Item>, o: seq<nat>, o': seq<nat>)
    requires IsShuffle(s, o) && IsShuffle(s, o')
    ensures InRange(s, o) && InRange(s, o') && SamePriorities(s, o, o')
  {
    hide Descending;
    forall i | 0 <= i < |s| ensures PriorityAt(s, o', i) == PriorityAt(s, o, i) {
      ShufflesAgree(s, o, o', i);
      ShufflesAgree(s, o', o, i);
    }
  }

  lemma {:induction false} CountOfEach(a: seq<nat>, x: nat)
    requires Injective(a)
    ensures multiset(a)[x] == if x in a then 1 else 0
  {
    if a != [] {
      var n := |a| - 1;
      CountOfEach(a[..n], x);
      assert a == a[..n] + [a[n]] && multiset(a) == multiset(a[..n]) + multiset{a[n]};
    }
  }

  lemma SliceInjective(o: seq<nat>, b: nat, e: nat)
    requires IsPermutation(o) && b <= e <= |o|
    ensures Injective(o[b..e])
  {
  }

  /** The order numbers `b..e` are a whole priority group of `o`. */
  ghost predicate Grouped(s: seq<Item>, o: seq<nat>, b: nat, e: nat) {
    && InRange(s, o) && b < e <= |o| && IsBorder(s, o, 0, b) && IsBorder(s, o, 0, e)
    && forall n :: b <= n < e ==> PriorityAt(s, o, n) == PriorityAt(s, o, b)
  }

  /** Both shuffles have the same songs in a group. */
  lemma GroupsAgree(s: seq<Item>, o: seq<nat>, o': seq<nat>, b: nat, e: nat)
    requires IsShuffle(s, o) && IsShuffle(s, o') && Grouped(s, o, b, e)
    ensures |o| == |o'| && e <= |o| && multiset(o[b..e]) == multiset(o'[b..e])
  {
    assert |o| == |o'| && b < e <= |o|;
    hide IsShuffle, Grouped;
    forall x ensures multiset(o[b..e])[x] == multiset(o'[b..e])[x] {
      CountsAgree(s, o, o', b, e, x);
    }
  }

  lemma CountsAgree(s: seq<Item>, o: seq<nat>, o': seq<nat>, b: nat, e: nat, x: nat)
    requires IsShuffle(s, o) && IsShuffle(s, o') && Grouped(s, o, b, e)
    ensures |o| == |o'| && e <= |o| && multiset(o[b..e])[x] == multiset(o'[b..e])[x]
  {
    SliceInjective(o, b, e);
    SliceInjective(o', b, e);
    ShufflesSame(s, o, o');
    ShufflesSame(s, o', o);
    GroupCarries(s, o, o', b, e);
    hide Descending, IsPermutation, SamePriorities, Grouped, Injective, InRange;
    CountOfEach(o[b..e], x);
    CountOfEach(o'[b..e], x);
    if x in o[b..e] { SameGroupHolds(s, o, o', b, e, x); }
    if x in o'[b..e] { SameGroupHolds(s, o', o, b, e, x); }
  }

  lemma GroupCarries(s: seq<Item>, o: seq<nat>, o': seq<nat>, b: nat, e: nat)
    requires InRange(s, o') && Grouped(s, o, b, e) && SamePriorities(s, o, o')
    ensures Grouped(s, o', b, e)
  {
    assert PriorityAt(s, o', b) == PriorityAt(s, o, b);
  }

  lemma SameGroupHolds(s: seq<Item>, o: seq<nat>, o': seq<nat>, b: nat, e: nat, x: nat)
    requires IsShuffle(s, o) && IsShuffle(s, o') && Grouped(s, o, b, e) && InRange(s, o') && SamePriorities(s, o, o')
    requires x in o[b..e]
    ensures x in o'[b..e]
  {
    var k :| 0 <= k < e - b && o[b..e][k] == x;
    assert PriorityAt(s, o, b + k) == s[x].priority;
    var i := IndexOf(o', x);
    assert PriorityAt(s, o', i) == s[x].priority && PriorityAt(s, o, i) == s[x].priority;
    OutsideGroup(s, o, b, e, i);
    assert b <= i < e;
    assert o'[b..e][i - b] == x;
  }

  lemma OutsideGroup(s: seq<Item>, o: seq<nat>, b: nat, e: nat, i: nat)
    requires IsShuffle(s, o) && Grouped(s, o, b, e) && i < |o|
    ensures !(b <= i < e) ==> PriorityAt(s, o, i) != PriorityAt(s, o, b)
  {
    if i < b {
      AcrossBorder(s, o, i, b, b);
    } else if e <= i {
      AcrossBorder(s, o, e - 1, e, i);
      assert PriorityAt(s, o, e - 1) == PriorityAt(s, o, b);
    }
  }

  lemma AcrossBorder(s: seq<Item>, o: seq<nat>, i: nat, n: nat, j: nat)
    requires IsShuffle(s, o) && InRange(s, o) && i < n <= j < |s| && IsBorder(s, o, 0, n)
    ensures PriorityAt(s, o, i) > PriorityAt(s, o, j)
  {
    assert PriorityAt(s, o, i) >= PriorityAt(s, o, n - 1) > PriorityAt(s, o, n) >= PriorityAt(s, o, j);
  }

  lemma GroupStart(s: seq<Item>, o: seq<nat>, e: nat) returns (b: nat)
    requires InRange(s, o) && 0 < e <= |o|
    ensures b < e && IsBorder(s, o, 0, b)
    ensures forall n :: b <= n < e ==> PriorityAt(s, o, n) == PriorityAt(s, o, b)
  {
    b := e - 1;
    while 0 < b && PriorityAt(s, o, b - 1) == PriorityAt(s, o, b)
      invariant b < e && forall n :: b <= n < e ==> PriorityAt(s, o, n) == PriorityAt(s, o, b)
    {
      assert PriorityAt(s, o, b) == PriorityAt(s, o, b - 1);
      b := b - 1;
    }
  }

  /** The groups before the border `e` can be drawn as in `o'`. */
  lemma {:induction false} GroupsAreDrawn(s: seq<Item>, sorted: seq<nat>, o': seq<nat>, e: nat) returns (gs: seq<Group>)
    requires IsShuffle(s, sorted) && IsShuffle(s, o') && InRange(s, sorted) && e <= |s| && IsBorder(s, sorted, 0, e)
    ensures AreGroups(s, sorted, gs, 0, e) && Played(sorted, gs) == o'[..e] + sorted[e..]
    decreases e
  {
    hide IsPermutation, Descending, PermutedWithin, AreGroups, Played, Drawn, IsDraws, IsBorder;
    if e == 0 {
      gs := [];
      NoGroups(s, sorted, o');
    } else {
      var b := GroupStart(s, sorted, e);
      gs := GroupsAreDrawn(s, sorted, o', b);
      GroupsAgree(s, sorted, o', b, e);
      NextGroup(sorted, o', b, e);
      var ds := RearrangementIsDrawn(o'[..b] + sorted[b..], o'[..e] + sorted[e..], b, e);
      var g := Group(b, e, ds);
      OneMoreGroup(s, sorted, gs, 0, g);
      gs := gs + [g];
    }
  }

  lemma NoGroups(s: seq<Item>, o: seq<nat>, o': seq<nat>)
    requires InRange(s, o)
    ensures AreGroups(s, o, [], 0, 0) && Played(o, []) == o'[..0] + o[0..]
  {
  }

  lemma NextGroup(o: seq<nat>, o': seq<nat>, b: nat, e: nat)
    requires b <= e <= |o| == |o'| && multiset(o[b..e]) == multiset(o'[b..e])
    ensures PermutedWithin(o'[..b] + o[b..], o'[..e] + o[e..], b, e)
  {
    var from, to := o'[..b] + o[b..], o'[..e] + o[e..];
    assert from[b..e] == o[b..e] && to[b..e] == o'[b..e];
  }

  /** Whatever order the sorting has produced, the shuffles are exactly what the draws can make of it. */
  lemma ShuffleIsDrawnExactlyWhen(s: seq<Item>, sorted: seq<nat>, o: seq<nat>)
    requires IsShuffle(s, sorted) && InRange(s, sorted)
    ensures IsShuffle(s, o) <==> exists gs :: AreGroups(s, sorted, gs, 0, |s|) && Played(sorted, gs) == o
  {
    hide IsPermutation, Descending, AreGroups, Played, InRange;
    if IsShuffle(s, o) {
      var gs := GroupsAreDrawn(s, sorted, o, |s|);
      assert o[..|s|] + sorted[|s|..] == o;
    }
    forall gs | AreGroups(s, sorted, gs, 0, |s|) ensures IsShuffle(s, Played(sorted, gs)) {
      PlayedIsShuffle(s, sorted, gs, |s|);
    }
  }

  // ---- how the loop keeps track ----

  /** The groups of `sorted` up to the border `lo` have been shuffled, with the outcome `o`. */
  ghost predicate GroupsPlayed(s: seq<Item>, sorted: seq<nat>, gs: seq<Group>, start: nat, lo: nat, o: seq<nat>) {
    && InRange(s, sorted) && InRange(s, o) && SamePriorities(s, sorted, o)
    && AreGroups(s, sorted, gs, start, lo) && o == Played(sorted, gs) && IsBorder(s, sorted, start, lo)
  }

  lemma NothingPlayed(s: seq<Item>, sorted: seq<nat>, start: nat)
    requires InRange(s, sorted)
    ensures AreGroups(s, sorted, [], start, start) && sorted == Played(sorted, [])
    ensures GroupsPlayed(s, sorted, [], start, start, sorted)
  {
  }

  lemma GroupNext(s: seq<Item>, sorted: seq<nat>, gs: seq<Group>, start: nat, lo: nat, hi: nat, o: seq<nat>,
                  priority: Priority)
    requires GroupsPlayed(s, sorted, gs, start, lo, o) && lo < hi <= |o|
    requires forall n :: lo <= n < hi ==> PriorityAt(s, o, n) == priority
    ensures |o| == |sorted| && forall n :: lo <= n < hi ==> PriorityAt(s, sorted, n) == priority
  {
    forall n | lo <= n < hi ensures PriorityAt(s, sorted, n) == priority {
      assert PriorityAt(s, o, n) == PriorityAt(s, sorted, n);
    }
  }

  lemma GroupDone(s: seq<Item>, sorted: seq<nat>, gs: seq<Group>, start: nat, lo: nat, hi: nat, o: seq<nat>,
                  ds: seq<nat>, priority: Priority)
    requires GroupsPlayed(s, sorted, gs, start, lo, o) && start <= lo < hi <= |sorted| && IsDraws(ds, lo, hi)
    requires forall n :: lo <= n < hi ==> PriorityAt(s, sorted, n) == priority
    ensures AreGroups(s, sorted, gs + [Group(lo, hi, ds)], start, hi)
    ensures Played(sorted, gs + [Group(lo, hi, ds)]) == Drawn(o, ds, lo)
    ensures hi < |sorted| && PriorityAt(s, o, hi) != priority ==> IsBorder(s, sorted, start, hi)
  {
    OneMoreGroup(s, sorted, gs, start, Group(lo, hi, ds));
    if hi < |sorted| {
      assert PriorityAt(s, o, hi) == PriorityAt(s, sorted, hi);
    }
  }

  lemma RearrangedPermutation(o: seq<nat>, o': seq<nat>)
    requires IsPermutation(o) && PermutedWithin(o, o', 0, |o|)
    ensures IsPermutation(o')
  {
    var ds := RearrangementIsDrawn(o, o', 0, |o|);
    DrawnRearranges(o, ds, 0, |o|);
  }
}

/**
 The random-mode order: groups of songs by descending priority, and how a
 song whose priority changes is moved into its new group.
 */
module PriorityOrder {
  import opened Permutations
  import opened QueueSpec

  lemma SwapWithin(o: seq<nat>, o': seq<nat>, i: nat, j: nat, lo: nat, hi: nat)
    requires PermutedWithin(o, o', lo, hi) && lo <= i < hi && lo <= j < hi
    ensures PermutedWithin(o, Swapped(o', i, j), lo, hi)
  {
  }

  lemma PermutedWithinTransitive(o: seq<nat>, o': seq<nat>, o'': seq<nat>,
                                 lo: nat, hi: nat, lo': nat, hi': nat)
    requires PermutedWithin(o, o', lo, hi) && PermutedWithin(o', o'', lo', hi')
    requires lo <= lo' <= hi' <= hi
    ensures PermutedWithin(o, o'', lo, hi)
  {
    assert o'[lo..hi] == o'[lo..lo'] + o'[lo'..hi'] + o'[hi'..hi];
    assert o''[lo..hi] == o''[lo..lo'] + o''[lo'..hi'] + o''[hi'..hi];
    assert o'[lo..lo'] == o''[lo..lo'] && o'[hi'..hi] == o''[hi'..hi];
  }

  lemma PermutationInRange(s: seq<Item>, o: seq<nat>)
    requires IsPermutation(o) && |o| == |s|
    ensures InRange(s, o)
  {
  }

  /** Every order number keeps its priority. */
  ghost predicate SamePriorities(s: seq<Item>, o: seq<nat>, o': seq<nat>)
    requires InRange(s, o) && InRange(s, o')
  {
    |o'| == |o| && forall n :: 0 <= n < |o| ==> PriorityAt(s, o', n) == PriorityAt(s, o, n)
  }

  /** Shuffling songs of equal priority does not change which priority comes when. */
  lemma GroupShuffled(s: seq<Item>, o: seq<nat>, o': seq<nat>, lo: nat, hi: nat, priority: Priority)
    requires InRange(s, o) && PermutedWithin(o, o', lo, hi)
    requires forall n :: lo <= n < hi ==> PriorityAt(s, o, n) == priority
    ensures InRange(s, o') && SamePriorities(s, o, o')
  {
    forall n | 0 <= n < |o'| ensures o'[n] < |s| && PriorityAt(s, o', n) == PriorityAt(s, o, n) {
      if lo <= n < hi {
        assert o'[n] == o'[lo..hi][n - lo];
        assert o'[n] in multiset(o[lo..hi]);
        var k :| 0 <= k < hi - lo && o[lo..hi][k] == o'[n];
        assert PriorityAt(s, o, lo + k) == priority;
      }
    }
  }

  lemma SamePrioritiesDescending(s: seq<Item>, o: seq<nat>, o': seq<nat>, lo: nat, hi: nat)
    requires InRange(s, o) && InRange(s, o') && SamePriorities(s, o, o') && hi <= |o|
    requires Descending(s, o, lo, hi)
    ensures Descending(s, o', lo, hi)
  {
  }

  /** The first order number from `start`, other than `exclude`, of this priority or less. */
  function InsertionPoint(s: seq<Item>, o: seq<nat>, start: nat, priority: Priority, exclude: nat): (b: nat)
    requires start <= |o| && InRange(s, o)
    ensures start <= b <= |o|
    ensures forall n :: start <= n < b ==> n == exclude || PriorityAt(s, o, n) > priority
    ensures b < |o| ==> b != exclude && PriorityAt(s, o, b) <= priority
    decreases |o| - start
  {
    if start == |o| then start
    else if PriorityAt(s, o, start) <= priority && start != exclude then start
    else InsertionPoint(s, o, start + 1, priority, exclude)
  }

  /** The number of consecutive songs of this priority from order number `start`. */
  function GroupLength(s: seq<Item>, o: seq<nat>, start: nat, priority: Priority): (k: nat)
    requires start <= |o| && InRange(s, o)
    ensures start + k <= |o|
    ensures forall n :: start <= n < start + k ==> PriorityAt(s, o, n) == priority
    ensures start + k < |o| ==> PriorityAt(s, o, start + k) != priority
    decreases |o| - start
  {
    if start == |o| || PriorityAt(s, o, start) != priority then 0
    else 1 + GroupLength(s, o, start + 1, priority)
  }

  /** Is the song at order number `n` left where it is, given the current song `after`? */
  predicate StaysPut(s: seq<Item>, o: seq<nat>, n: nat, oldPriority: Priority, priority: Priority, after: int)
    requires n < |o| && after < |o| && InRange(s, o)
  {
    after >= 0 &&
    (n == after ||
     (n < after && (oldPriority > PriorityAt(s, o, after) || priority <= PriorityAt(s, o, after))))
  }

  /** Where `queue_set_priority()` moves the song at order number `n`. */
  function NewOrder(s: seq<Item>, o: seq<nat>, n: nat, priority: Priority, after: int): (m: nat)
    requires n < |o| && -1 <= after < |o| && InRange(s, o) && n != after
    ensures m < |o|
    ensures after >= 0 && n < after ==> after <= m
    ensures after < n ==> after < m
  {
    var b := InsertionPoint(s, o, after + 1, priority, n);
    if b > n then b - 1 else b
  }

  /** `o'` is an order that the change of priority of the song at order number `n` may produce. */
  ghost predicate Reprioritized(s: seq<Item>, o: seq<nat>, o': seq<nat>, n: nat,
                                oldPriority: Priority, priority: Priority, after: int)
    requires n < |o| && -1 <= after < |o| && InRange(s, o)
  {
    if StaysPut(s, o, n, oldPriority, priority, after) then o' == o
    else
      var m := NewOrder(s, o, n, priority, after);
      exists r :: m <= r < |o| && SameGroup(s, MovedTo(o, n, m), m, r, priority)
                  && o' == Swapped(MovedTo(o, n, m), m, r)
  }

  /** All order numbers from `m` to `r` have this priority. */
  ghost predicate SameGroup(s: seq<Item>, o: seq<nat>, m: nat, r: nat, priority: Priority)
  {
    forall i :: m <= i <= r && i < |o| && o[i] < |s| ==> PriorityAt(s, o, i) == priority
  }

  /** The order number of the song that was at `after`, once `n` has moved to `m`. */
  function AfterMove(after: int, n: nat, m: nat): int {
    if after >= 0 && n < after then after - 1 else after
  }

  /** Moving a song into its group keeps the rest of the order sorted. */
  lemma MoveKeepsDescending(s: seq<Item>, s': seq<Item>, o: seq<nat>, n: nat, priority: Priority, after: int)
    requires n < |o| && -1 <= after < |o| && n != after && |s'| == |s|
    requires InRange(s, o) && InRange(s', o) && IsPermutation(o)
    requires s'[o[n]].priority == priority
    requires forall i :: 0 <= i < |o| && i != n ==> PriorityAt(s', o, i) == PriorityAt(s, o, i)
    requires Descending(s, o, after + 1, |o|)
    ensures var m := NewOrder(s', o, n, priority, after);
            InRange(s', MovedTo(o, n, m)) &&
            Descending(s', MovedTo(o, n, m), AfterMove(after, n, m) + 1, |o|)
  {
    hide MovedTo, InsertionPoint;
    var m := NewOrder(s', o, n, priority, after);
    var r := MovedTo(o, n, m);
    forall i | 0 <= i < |r| ensures r[i] < |s'| {
      MovedToSource(o, n, m, i);
    }
    forall i, j | AfterMove(after, n, m) + 1 <= i < j < |o| ensures PriorityAt(s', r, i) >= PriorityAt(s', r, j) {
      MovedToSource(o, n, m, i);
      MovedToSource(o, n, m, j);
      var i' := Source(i, n, m);
      var j' := Source(j, n, m);
      if i == m {
        TailAtMost(s, s', o, n, priority, after, j');
      } else if j == m {
        assert PriorityAt(s', o, i') > priority;
      } else {
        assert after < i' < j' && PriorityAt(s, o, i') >= PriorityAt(s, o, j');
      }
    }
  }

  /** From the insertion point on, no other song has a higher priority. */
  lemma TailAtMost(s: seq<Item>, s': seq<Item>, o: seq<nat>, n: nat, priority: Priority, after: int, j: nat)
    requires n < |o| && -1 <= after < |o| && n != after && |s'| == |s|
    requires InRange(s, o) && InRange(s', o)
    requires forall i :: 0 <= i < |o| && i != n ==> PriorityAt(s', o, i) == PriorityAt(s, o, i)
    requires Descending(s, o, after + 1, |o|)
    requires InsertionPoint(s', o, after + 1, priority, n) <= j < |o| && j != n
    ensures PriorityAt(s', o, j) <= priority
  {
  }

  /** The order number whose entry is at `i` once `n` has moved to `m`. */
  function Source(i: nat, n: nat, m: nat): int {
    if i == m then n
    else if n <= i < m then i + 1
    else if m < i <= n then i - 1
    else i
  }

  lemma MovedToSource(o: seq<nat>, n: nat, m: nat, i: nat)
    requires n < |o| && m < |o| && i < |o|
    ensures 0 <= Source(i, n, m) < |o| && MovedTo(o, n, m)[i] == o[Source(i, n, m)]
  {
  }

  /** The order number of a position, or -1 for no position. */
  ghost function OrderOf(o: seq<nat>, position: int): (n: int)
    requires IsPermutation(o) && -1 <= position < |o|
    ensures -1 <= n < |o| && (n >= 0 <==> position >= 0)
    ensures n >= 0 ==> o[n] == position
  {
    if position >= 0 then IndexOf(o, position) else -1
  }

  /** The songs still to be played after the song at `position` are in descending priority order. */
  ghost predicate TailDescending(s: seq<Item>, o: seq<nat>, position: int)
    requires |o| == |s| && IsPermutation(o) && -1 <= position < |o|
  {
    Descending(s, o, OrderOf(o, position) + 1, |o|)
  }

  function WithPriority(item: Item, priority: Priority, version: nat): Item {
    if item.priority == priority then item else item.(priority := priority, version := version)
  }

  function SetPriorityAt(s: seq<Item>, p: nat, priority: Priority, version: nat): seq<Item>
    requires p < |s|
  {
    s[p := WithPriority(s[p], priority, version)]
  }

  function SetPriorityBetween(s: seq<Item>, lo: nat, hi: nat, priority: Priority, version: nat): (r: seq<Item>)
    ensures |r| == |s|
  {
    seq(|s|, p requires 0 <= p < |s| => if lo <= p < hi then WithPriority(s[p], priority, version) else s[p])
  }

  lemma ReprioritizedPermutation(s: seq<Item>, o: seq<nat>, o': seq<nat>, n: nat,
                                 oldPriority: Priority, priority: Priority, after: int)
    requires n < |o| == |s| && -1 <= after < |o| && IsPermutation(o)
    requires Reprioritized(s, o, o', n, oldPriority, priority, after)
    ensures |o'| == |o| && IsPermutation(o')
  {
    if !StaysPut(s, o, n, oldPriority, priority, after) {
      var m := NewOrder(s, o, n, priority, after);
      MoveKeepsPermutation(o, n, m);
    }
  }

  /** Drawing the first song of the new group keeps the rest of the order sorted. */
  lemma DrawnKeepsDescending(s: seq<Item>, o: seq<nat>, m: nat, r: nat, priority: Priority, lo: nat)
    requires lo <= m <= r < |o| && InRange(s, o) && SameGroup(s, o, m, r, priority)
    requires Descending(s, o, lo, |o|)
    ensures InRange(s, Swapped(o, m, r)) && Descending(s, Swapped(o, m, r), lo, |o|)
  {
    var o' := Swapped(o, m, r);
    assert InRange(s, o') && SamePriorities(s, o, o');
    SamePrioritiesDescending(s, o, o', lo, |o|);
  }

  /** The song at `after` is found at `AfterMove` once another song has been moved past it. */
  lemma AfterMoveIndex(o: seq<nat>, n: nat, m: nat, r: nat, after: int)
    requires n < |o| && m <= r < |o| && 0 <= after < |o| && n != after
    requires if n < after then after <= m else after < m
    ensures 0 <= AfterMove(after, n, m) < m
    ensures Swapped(MovedTo(o, n, m), m, r)[AfterMove(after, n, m)] == o[after]
  {
  }

  /** The main property: after a change of priority, the tail after the current song is still sorted. */
  lemma ReprioritizedDescending(s: seq<Item>, o: seq<nat>, o': seq<nat>, n: nat,
                                priority: Priority, after: int, version: nat)
    requires n < |o| == |s| && -1 <= after < |o| && IsPermutation(o)
    requires s[o[n]].priority != priority
    requires Reprioritized(SetPriorityAt(s, o[n], priority, version), o, o', n, s[o[n]].priority, priority, after)
    requires Descending(s, o, after + 1, |o|)
    ensures |o'| == |o| && IsPermutation(o')
    ensures TailDescending(SetPriorityAt(s, o[n], priority, version), o', if after >= 0 then o[after] else -1)
  {
    var s' := SetPriorityAt(s, o[n], priority, version);
    ReprioritizedPermutation(s', o, o', n, s[o[n]].priority, priority, after);
    assert forall i :: 0 <= i < |o| && i != n ==> PriorityAt(s', o, i) == PriorityAt(s, o, i);
    if StaysPut(s', o, n, s[o[n]].priority, priority, after) {
      assert OrderOf(o', o[after]) == after;
    } else {
      hide IsPermutation, Descending, SameGroup, Swapped, MovedTo;
      var m := NewOrder(s', o, n, priority, after);
      var moved := MovedTo(o, n, m);
      MoveKeepsDescending(s, s', o, n, priority, after);
      var r :| m <= r < |o| && SameGroup(s', moved, m, r, priority) && o' == Swapped(moved, m, r);
      DrawnKeepsDescending(s', moved, m, r, priority, AfterMove(after, n, m) + 1);
      if after >= 0 {
        AfterMoveIndex(o, n, m, r, after);
        assert OrderOf(o', o[after]) == AfterMove(after, n, m);
      }
    }
  }

  lemma EmptyRangeSorted(s: seq<Item>, o: seq<nat>, n: nat)
    requires InRange(s, o) && n <= |o|
    ensures PermutedWithin(o, o, n, n) && Descending(s, o, n, n)
  {
  }

  // ---- queue_shuffle_range() ----

  function Entries(s: seq<Item>): (r: seq<Entry>)
    ensures |r| == |s|
    ensures forall i :: 0 <= i < |s| ==> r[i] == EntryOf(s[i])
  {
    seq(|s|, i requires 0 <= i < |s| => EntryOf(s[i]))
  }

  /** The items at `lo..mid` have been drawn from `lo..hi` and stamped. */
  ghost predicate PartlyShuffled(s: seq<Item>, s': seq<Item>, lo: int, mid: int, hi: int, version: nat) {
    && 0 <= lo <= mid <= hi <= |s| == |s'|
    && (forall i :: 0 <= i < lo || hi <= i < |s| ==> s'[i] == s[i])
    && (forall i :: lo <= i < mid ==> s'[i].version == version)
    && (forall i :: mid <= i < hi ==> s'[i] == s[i] || s'[i].version == version)
    && multiset(Entries(s')[lo..hi]) == multiset(Entries(s)[lo..hi])
  }

  /** `s'` rearranges the songs at `lo..hi` of `s` and stamps them all. */
  ghost predicate ShuffledItems(s: seq<Item>, s': seq<Item>, lo: int, hi: int, version: nat) {
    PartlyShuffled(s, s', lo, hi, hi, version)
  }

  lemma ShuffledReflexive(s: seq<Item>, lo: nat, hi: nat, version: nat)
    requires lo <= hi <= |s|
    ensures PartlyShuffled(s, s, lo, lo, hi, version)
  {
  }

  lemma ShuffledSwap(s: seq<Item>, s': seq<Item>, lo: nat, mid: nat, hi: nat, j: nat, version: nat)
    requires PartlyShuffled(s, s', lo, mid, hi, version) && mid <= j < hi
    ensures PartlyShuffled(s, SwappedItems(s', mid, j, version), lo, mid + 1, hi, version)
  {
    hide Entries, Swapped;
    SwappedEntries(s', mid, j, version);
    SwappedMultiset(Entries(s'), mid, j, lo, hi);
  }

  lemma SwappedEntries(s: seq<Item>, i: nat, j: nat, version: nat)
    requires i < |s| && j < |s|
    ensures Entries(SwappedItems(s, i, j, version)) == Swapped(Entries(s), i, j)
  {
  }

  lemma SplitFirst<T>(s: seq<T>, lo: nat, hi: nat)
    requires lo < hi <= |s|
    ensures multiset(s[lo..hi]) == multiset{s[lo]} + multiset(s[lo + 1..hi])
  {
    assert s[lo..hi] == [s[lo]] + s[lo + 1..hi];
  }

  lemma SwappedMultiset<T>(s: seq<T>, i: nat, j: nat, lo: nat, hi: nat)
    requires lo <= i < hi <= |s| && lo <= j < hi
    ensures multiset(Swapped(s, i, j)[lo..hi]) == multiset(s[lo..hi])
  {
  }

  // ---- sorting by priority ----

  /** `o'` rearranges `start..end` of `o` so that `start..i` holds the highest priorities, sorted. */
  ghost predicate Selected(s: seq<Item>, o: seq<nat>, o': seq<nat>, start: nat, i: nat, end: nat) {
    && PermutedWithin(o, o', start, end) && start <= i <= end
    && InRange(s, o')
    && Descending(s, o', start, i)
    && forall a, b :: start <= a < i <= b < end ==> PriorityAt(s, o', a) >= PriorityAt(s, o', b)
  }

  lemma SelectionStart(s: seq<Item>, o: seq<nat>, start: nat, end: nat)
    requires InRange(s, o) && start <= end <= |o|
    ensures Selected(s, o, o, start, start, end)
  {
  }

  lemma SelectionStep(s: seq<Item>, o: seq<nat>, o': seq<nat>, start: nat, i: nat, first: nat, end: nat)
    requires Selected(s, o, o', start, i, end) && i <= first < end
    requires forall b :: i <= b < end ==> PriorityAt(s, o', first) >= PriorityAt(s, o', b)
    ensures Selected(s, o, Swapped(o', i, first), start, i + 1, end)
  {
    SwapWithin(o, o', i, first, start, end);
    var r := Swapped(o', i, first);
    forall n | 0 <= n < |r|
      ensures r[n] == o'[if n == i then first else if n == first then i else n] && r[n] < |s|
    {
    }
    forall a, b | start <= a < b < end && a <= i ensures PriorityAt(s, r, a) >= PriorityAt(s, r, b) {
      var a' := if a == i then first else a;
      var b' := if b == first then i else if b == i then first else b;
      assert r[a] == o'[a'] && r[b] == o'[b'];
      assert PriorityAt(s, o', a') >= PriorityAt(s, o', b');
    }
  }

  /** One step of `queue_set_priority_range()`: the tail after the song at `position` stays sorted. */
  lemma PriorityStep(s: seq<Item>, o: seq<nat>, o': seq<nat>, p: nat, priority: Priority,
                     position: int, version: nat)
    requires p < |s| == |o| && IsPermutation(o) && -1 <= position < |o|
    requires s[p].priority == priority ==> o' == o
    requires InRange(SetPriorityAt(s, p, priority, version), o)
    requires s[p].priority != priority ==>
               Reprioritized(SetPriorityAt(s, p, priority, version), o, o', IndexOf(o, p),
                             s[p].priority, priority, OrderOf(o, position))
    ensures |o'| == |o| && IsPermutation(o')
    ensures TailDescending(s, o, position) ==>
              TailDescending(SetPriorityAt(s, p, priority, version), o', position)
    ensures PlayedAgain(s, o, o', p, priority, position)
  {
    var s' := SetPriorityAt(s, p, priority, version);
    if s[p].priority == priority {
      assert s' == s;
    } else {
      hide Reprioritized, TailDescending, PlayedAgain, IsPermutation;
      ReprioritizedPlayedAgain(s, o, o', IndexOf(o, p), priority, OrderOf(o, position), version);
      if TailDescending(s, o, position) {
        ReprioritizedDescending(s, o, o', IndexOf(o, p), priority, OrderOf(o, position), version);
      }
    }
  }

  // ---- which songs are still to come ----

  /** The song at position `p` is played after the one at `position`; -1 comes before all. */
  ghost predicate ComesAfter(o: seq<nat>, position: int, p: nat)
    requires IsPermutation(o) && -1 <= position < |o| && p < |o|
  {
    OrderOf(o, position) < IndexOf(o, p)
  }

  /** A song that comes before the current one at `position` has just become more urgent than it. */
  predicate BecomesUrgent(s: seq<Item>, position: int, p: nat, priority: Priority)
    requires p < |s| && position < |s|
  {
    0 <= position != p && s[p].priority <= s[position].priority < priority
  }

  /**
   A change of the priority at position `p` leaves all songs on their side of the current
   song, except that `p` is played again if it has become more urgent than the current one.
   */
  ghost predicate PlayedAgain(s: seq<Item>, o: seq<nat>, o': seq<nat>, p: nat, priority: Priority, position: int)
    requires |s| == |o| == |o'| && IsPermutation(o) && IsPermutation(o') && -1 <= position < |o| && p < |o|
  {
    forall k: nat :: k < |o| ==>
      (ComesAfter(o', position, k) <==>
       ComesAfter(o, position, k) || (k == p && BecomesUrgent(s, position, p, priority)))
  }

  /**
   Given the order number of the current song: all songs stay on their side of it but one
   that becomes urgent, and a song that has been played and does not become urgent leaves the
   whole order as it is.
   */
  ghost predicate OnlyUrgentMoves(s: seq<Item>, o: seq<nat>, o': seq<nat>, p: nat, priority: Priority, after: int)
    requires |s| == |o| && IsPermutation(o) && -1 <= after < |o| && p < |o|
  {
    && |o'| == |o| && IsPermutation(o')
    && PlayedAgain(s, o, o', p, priority, if after >= 0 then o[after] else -1)
    && (IndexOf(o, p) <= after && !BecomesUrgent(s, o[after], p, priority) ==> o' == o)
  }

  lemma SamePriorityAt(s: seq<Item>, p: nat, priority: Priority, version: nat)
    requires p < |s| && s[p].priority == priority
    ensures SetPriorityAt(s, p, priority, version) == s
  {
  }

  lemma RegroupedSides(o: seq<nat>, o': seq<nat>, n: nat, m: nat, r: nat, after: nat, k: nat)
    requires IsPermutation(o) && IsPermutation(o') && |o'| == |o|
    requires n < |o| && m <= r < |o| && after < |o| && n != after && k < |o|
    requires if n < after then after <= m else after < m
    requires o' == Swapped(MovedTo(o, n, m), m, r)
    ensures ComesAfter(o', o[after], k) <==> ComesAfter(o, o[after], k) || k == o[n]
  {
    assert o[after] < |o|;
    hide IsPermutation;
    var j := IndexOf(o, k);
    var moved := if j == n then m else if n < j <= m then j - 1 else if m <= j < n then j + 1 else j;
    MovedToSource(o, n, m, moved);
    var j' := if moved == m then r else if moved == r then m else moved;
    assert o'[j'] == MovedTo(o, n, m)[moved] == k;
    AfterMoveIndex(o, n, m, r, after);
    assert IndexOf(o', k) == j' && OrderOf(o', o[after]) == AfterMove(after, n, m);
    assert OrderOf(o, o[after]) == after;
  }

  /** The main property of a single change in random mode, and its converse. */
  lemma ReprioritizedPlayedAgain(s: seq<Item>, o: seq<nat>, o': seq<nat>, n: nat, priority: Priority,
                                 after: int, version: nat)
    requires n < |o| == |s| && -1 <= after < |o| && IsPermutation(o) && s[o[n]].priority != priority
    requires Reprioritized(SetPriorityAt(s, o[n], priority, version), o, o', n, s[o[n]].priority, priority, after)
    ensures OnlyUrgentMoves(s, o, o', o[n], priority, after)
  {
    var s' := SetPriorityAt(s, o[n], priority, version);
    ReprioritizedPermutation(s', o, o', n, s[o[n]].priority, priority, after);
    if after >= 0 {
      assert n != after ==> o[n] != o[after];
      assert n != after ==> PriorityAt(s', o, after) == s[o[after]].priority;
      if !StaysPut(s', o, n, s[o[n]].priority, priority, after) {
        hide IsPermutation, SameGroup, Swapped, MovedTo, ComesAfter;
        var m := NewOrder(s', o, n, priority, after);
        var r :| m <= r < |o| && SameGroup(s', MovedTo(o, n, m), m, r, priority)
                 && o' == Swapped(MovedTo(o, n, m), m, r);
        forall k: nat | k < |o|
          ensures ComesAfter(o', o[after], k) <==> ComesAfter(o, o[after], k) || k == o[n]
        {
          RegroupedSides(o, o', n, m, r, after, k);
        }
      }
    }
  }

  /** The same over a range of positions: the songs that are to be played again. */
  ghost predicate RangePlayedAgain(s: seq<Item>, o: seq<nat>, o': seq<nat>, start: nat, end: nat,
                                   priority: Priority, position: int)
    requires |s| == |o| == |o'| && IsPermutation(o) && IsPermutation(o') && -1 <= position < |o| && end <= |o|
  {
    forall k: nat :: k < |o| ==>
      (ComesAfter(o', position, k) <==>
       || ComesAfter(o, position, k)
       || (start <= k < end && !(start <= position < k) && BecomesUrgent(s, position, k, priority)))
  }

  lemma NonePlayedAgain(s: seq<Item>, o: seq<nat>, start: nat, priority: Priority, position: int)
    requires |s| == |o| && IsPermutation(o) && -1 <= position < |o| && start <= |o|
    ensures RangePlayedAgain(s, o, o, start, start, priority, position)
  {
  }

  lemma RangePlayedAgainStep(s: seq<Item>, o: seq<nat>, o1: seq<nat>, o': seq<nat>, start: nat, i: nat,
                             priority: Priority, position: int, version: nat)
    requires |s| == |o| == |o1| == |o'| && IsPermutation(o) && IsPermutation(o1) && IsPermutation(o')
    requires -1 <= position < |o| && start <= i < |o|
    requires RangePlayedAgain(s, o, o1, start, i, priority, position)
    requires PlayedAgain(SetPriorityBetween(s, start, i, priority, version), o1, o', i, priority, position)
    ensures RangePlayedAgain(s, o, o', start, i + 1, priority, position)
  {
    hide ComesAfter, IsPermutation;
    var s1 := SetPriorityBetween(s, start, i, priority, version);
    assert s1[i] == s[i];
    forall k: nat | k < |o|
      ensures ComesAfter(o', position, k) <==>
              || ComesAfter(o, position, k)
              || (start <= k < i + 1 && !(start <= position < k) && BecomesUrgent(s, position, k, priority))
    {
    }
  }

  lemma PriorityBound(s: seq<Item>, sorted: seq<nat>, o: seq<nat>, start: nat, end: nat, i: nat, j: nat)
    requires InRange(s, sorted) && InRange(s, o) && SamePriorities(s, sorted, o) && end <= |o|
    requires Descending(s, sorted, start, end) && start <= i < j < end
    ensures PriorityAt(s, o, j) <= PriorityAt(s, o, i)
  {
  }

  lemma SetPriorityNone(s: seq<Item>, start: nat, priority: Priority, version: nat)
    ensures SetPriorityBetween(s, start, start, priority, version) == s
  {
  }

  lemma SetPriorityOneMore(s: seq<Item>, start: nat, i: nat, priority: Priority, version: nat)
    requires start <= i < |s|
    ensures SetPriorityBetween(s, start, i, priority, version)[i] == s[i]
    ensures SetPriorityAt(SetPriorityBetween(s, start, i, priority, version), i, priority, version) ==
            SetPriorityBetween(s, start, i + 1, priority, version)
  {
  }

  lemma GroupNonEmpty(s: seq<Item>, o: seq<nat>, m: nat, priority: Priority)
    requires m < |o| && InRange(s, o) && PriorityAt(s, o, m) == priority
    ensures GroupLength(s, o, m, priority) >= 1
  {
  }
}

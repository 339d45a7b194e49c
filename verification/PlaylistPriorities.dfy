/** Random mode promises that songs of higher priority come first: when the playlist operations keep that. */
module PlaylistPriorities {
  import opened Basics
  import opened Permutations
  import opened QueueSpec
  import opened PriorityOrder
  import opened Shuffles
  import opened PlaylistSpec
  import opened PlaylistProofs
  import opened PlaylistOutcomes

  /** The songs after order number `c` come by falling priority. */
  ghost predicate SortedAfter(q: Queue, c: int) {
    -1 <= c && InRange(q.items, q.order) && Descending(q.items, q.order, c + 1, |q.order|)
  }

  // ---- appending ----

  /** The first order number at which the new song may be put. */
  function DrawStart(s: State): int {
    if s.queued >= 0 then s.queued + 1 else s.current + 1
  }

  /** Nothing is still to come, or whatever the new song may be put before has priority 0 as well. */
  ghost predicate OnlyZeros(s: State)
    requires WellFormed(s)
  {
    s.current + 1 >= |s.queue.items| ||
    forall k :: DrawStart(s) <= k < |s.queue.items| ==> ItemAt(s.queue, k).priority == 0
  }

  ghost predicate AppendAlwaysSorted(s: State, song: Song, id: nat)
    requires WellFormed(s)
  {
    forall r: nat, s' :: Appended(s, song, id, r, s') ==> SortedAfter(s'.queue, s.current)
  }

  /** A random-mode append keeps the songs still to come sorted exactly if all that it may displace have priority 0. */
  lemma AppendSortedExactlyWhen(s: State, song: Song, id: nat)
    requires WellFormed(s) && s.queue.random && SortedAfter(s.queue, s.current)
    requires forall p :: 0 <= p < |s.queue.items| ==> s.queue.items[p].id != id
    ensures AppendAlwaysSorted(s, song, id) <==> OnlyZeros(s)
  {
    hide Refreshed, AppendedQueue, Appended, DistinctIds, IsIdentity, SortedAfter;
    if OnlyZeros(s) {
      forall r: nat, s' | Appended(s, song, id, r, s') ensures SortedAfter(s'.queue, s.current) {
        AppendedDrawn(s, song, id, r, s');
        DrawnSorted(s, song, id, r);
        AppendedOrder(s, song, id, r, s');
      }
    } else {
      var k := NonZero(s);
      AppendEntry(s, song, id, k);
      var s' := RefreshOutcome(s.(queue := AppendedQueue(s, song, id, k)), QueuedSong(s));
      AppendedRefreshed(s, song, id, k, s');
      DrawnUnsorted(s, song, id, k);
      AppendedOrder(s, song, id, k, s');
    }
  }

  /** Choosing the next song after an append does not shuffle, so the order is that of the draw. */
  lemma AppendedOrder(s: State, song: Song, id: nat, r: nat, s': State)
    requires WellFormed(s) && s.queue.random && Appended(s, song, id, r, s')
    ensures SortedAfter(s'.queue, s.current) <==> SortedAfter(AppendedQueue(s, song, id, r), s.current)
  {
    var q := AppendedQueue(s, song, id, r);
    AppendedConsistent(s, song, id, r);
    PermutationInRange(q.items, q.order);
    Bumped(q);
    assert s'.queue == Incremented(q) by {
      assert !StartsOver(s.(queue := Incremented(q)));
    }
    assert forall p :: 0 <= p < |q.items| ==> Entries(Incremented(q).items)[p] == Entries(q.items)[p];
    hide Incremented, AppendedQueue, Appended, Refreshed;
    SamePrioritiesSorted(q, s'.queue, s.current);
  }

  lemma SamePrioritiesSorted(q: Queue, q': Queue, c: int)
    requires -1 <= c && q'.order == q.order && |q'.items| == |q.items| && InRange(q.items, q.order)
    requires forall p :: 0 <= p < |q.items| ==> EntryOf(q'.items[p]) == EntryOf(q.items[p])
    ensures SortedAfter(q', c) <==> SortedAfter(q, c)
  {
    forall n | 0 <= n < |q.order| ensures PriorityAt(q'.items, q.order, n) == PriorityAt(q.items, q.order, n) {
      assert EntryOf(q'.items[q.order[n]]) == EntryOf(q.items[q.order[n]]);
    }
  }

  lemma NonZero(s: State) returns (k: nat)
    requires WellFormed(s) && !OnlyZeros(s) && SortedAfter(s.queue, s.current)
    ensures DrawStart(s) <= k < |s.queue.items| && s.current < |s.queue.items| - 1
    ensures ItemAt(s.queue, k).priority > 0
    ensures k <= s.current ==> forall j :: s.current < j < |s.queue.items| ==> ItemAt(s.queue, j).priority == 0
  {
    k :| DrawStart(s) <= k < |s.queue.items| && ItemAt(s.queue, k).priority != 0;
    if j :| s.current < j < |s.queue.items| && DrawStart(s) <= j && ItemAt(s.queue, j).priority != 0 {
      k := j;
    }
  }

  /** The priorities after the draw. */
  lemma DrawnPriority(s: State, song: Song, id: nat, r: nat, n: nat)
    requires WellFormed(s) && s.queue.random && DrawStart(s) <= r <= |s.queue.items| && n <= |s.queue.items|
    ensures var q := AppendedQueue(s, song, id, r);
            && |q.order| == |s.queue.items| + 1 && InRange(q.items, q.order)
            && PriorityAt(q.items, q.order, n) ==
               if n == r then 0
               else if n == |s.queue.items| then ItemAt(s.queue, r).priority
               else ItemAt(s.queue, n).priority
  {
  }

  lemma DrawnSorted(s: State, song: Song, id: nat, r: nat)
    requires WellFormed(s) && s.queue.random && SortedAfter(s.queue, s.current) && OnlyZeros(s)
    requires DrawStart(s) <= r <= |s.queue.items|
    ensures SortedAfter(AppendedQueue(s, song, id, r), s.current)
  {
    var q := AppendedQueue(s, song, id, r);
    var m := |s.queue.items|;
    DrawnPriority(s, song, id, r, m);
    hide AppendedQueue;
    forall i, j | s.current + 1 <= i < j < |q.order| ensures PriorityAt(q.items, q.order, i) >= PriorityAt(q.items, q.order, j) {
      DrawnPriority(s, song, id, r, i);
      DrawnPriority(s, song, id, r, j);
      if j < m && i != r && j != r {
        assert PriorityAt(s.queue.items, s.queue.order, i) >= PriorityAt(s.queue.items, s.queue.order, j);
      }
    }
  }

  lemma DrawnUnsorted(s: State, song: Song, id: nat, k: nat)
    requires WellFormed(s) && s.queue.random && s.current < |s.queue.items| - 1
    requires DrawStart(s) <= k < |s.queue.items| && ItemAt(s.queue, k).priority > 0
    requires k <= s.current ==> forall j :: s.current < j < |s.queue.items| ==> ItemAt(s.queue, j).priority == 0
    ensures !SortedAfter(AppendedQueue(s, song, id, k), s.current)
  {
    var q := AppendedQueue(s, song, id, k);
    var m := |s.queue.items|;
    var i := if k <= s.current then m - 1 else k;
    DrawnPriority(s, song, id, k, i);
    DrawnPriority(s, song, id, k, m);
    assert PriorityAt(q.items, q.order, i) < PriorityAt(q.items, q.order, m);
  }

  // ---- playing a song ----

  /** The place that a played song trades with: the current one, or the first if nothing plays. */
  function PlayPlace(s: State): int {
    if s.playing then s.current else 0
  }

  /** The song that is traded away fits between its new neighbours. */
  ghost predicate FitsAt(s: State, n: nat)
    requires WellFormed(s) && n < |s.queue.items| && 0 <= PlayPlace(s)
  {
    var c := PlayPlace(s);
    var priority := ItemAt(s.queue, c).priority;
    n <= c
    || ((n - 1 > c ==> ItemAt(s.queue, n - 1).priority >= priority)
        && (n + 1 < |s.queue.items| ==> priority >= ItemAt(s.queue, n + 1).priority))
  }

  /** Playing a song in random mode keeps the songs still to come sorted exactly if the one it trades with fits. */
  lemma PlaySortedExactlyWhen(s: State, n: nat, s': State)
    requires WellFormed(s) && s.queue.random && n < |s.queue.items| && PlayedOrder(s, n, s')
    requires SortedAfter(s.queue, PlayPlace(s))
    ensures s'.current == PlayPlace(s)
    ensures SortedAfter(s'.queue, s'.current) <==> FitsAt(s, n)
  {
    var c := PlayPlace(s);
    var o, o' := s.queue.order, s'.queue.order;
    var items := s.queue.items;
    PermutationInRange(items, o);
    assert o' == Swapped(o, n, c) && InRange(items, o');
    hide IsPermutation, DistinctIds, IsIdentity;
    if n > c {
      TradedSorted(items, o, o', c, n);
    } else {
      SameTail(items, o, o', c);
    }
  }

  lemma SameTail(s: seq<Item>, o: seq<nat>, o': seq<nat>, c: int)
    requires -1 <= c && |o| == |o'| && InRange(s, o) && InRange(s, o') && Descending(s, o, c + 1, |o|)
    requires forall i :: c < i < |o| ==> o'[i] == o[i]
    ensures Descending(s, o', c + 1, |o|)
  {
    forall i, j | c + 1 <= i < j < |o| ensures PriorityAt(s, o', i) >= PriorityAt(s, o', j) {
      assert PriorityAt(s, o', i) == PriorityAt(s, o, i) && PriorityAt(s, o', j) == PriorityAt(s, o, j);
    }
  }

  lemma TradedSorted(s: seq<Item>, o: seq<nat>, o': seq<nat>, c: nat, n: nat)
    requires c < n < |o| == |o'| && InRange(s, o) && InRange(s, o') && Descending(s, o, c + 1, |o|)
    requires o'[n] == o[c] && forall i :: c < i < |o| && i != n ==> o'[i] == o[i]
    ensures Descending(s, o', c + 1, |o|) <==>
            (n - 1 > c ==> PriorityAt(s, o, n - 1) >= PriorityAt(s, o, c))
            && (n + 1 < |o| ==> PriorityAt(s, o, c) >= PriorityAt(s, o, n + 1))
  {
    var x := PriorityAt(s, o, c);
    assert PriorityAt(s, o', n) == x;
    if n - 1 > c { assert PriorityAt(s, o', n - 1) == PriorityAt(s, o, n - 1); }
    if n + 1 < |o| { assert PriorityAt(s, o', n + 1) == PriorityAt(s, o, n + 1); }
    if (n - 1 > c ==> PriorityAt(s, o, n - 1) >= x) && (n + 1 < |o| ==> x >= PriorityAt(s, o, n + 1)) {
      forall i, j | c + 1 <= i < j < |o| ensures PriorityAt(s, o', i) >= PriorityAt(s, o', j) {
        assert i != n ==> PriorityAt(s, o', i) == PriorityAt(s, o, i);
        assert j != n ==> PriorityAt(s, o', j) == PriorityAt(s, o, j);
      }
    }
  }

  // ---- switching random mode on ----

  ghost predicate RandomAlwaysSorted(s: State)
    requires WellFormed(s) && !s.queue.random
  {
    forall q, s' :: RandomSet(s, true, q, s') ==> SortedAfter(s'.queue, s'.current)
  }

  /** Songs of higher priority than the current one are all of one priority, and none has its own; or there are none. */
  ghost predicate FewAbove(s: State)
    requires WellFormed(s) && s.current >= 0
  {
    var items, x := s.queue.items, s.queue.order[s.current];
    Higher(items, x) == {} ||
    (Level(items, x) == {x} && forall p, q :: p in Higher(items, x) && q in Higher(items, x) ==>
       items[p].priority == items[q].priority)
  }

  lemma {:induction false} FirstTraded(s: seq<Item>, o: seq<nat>, k: nat)
    requires IsShuffle(s, o) && k < |s|
    ensures InRange(s, Swapped(o, 0, k))
    ensures Descending(s, Swapped(o, 0, k), 1, |s|) <==> k <= 1 || PriorityAt(s, o, k - 1) == PriorityAt(s, o, 0)
  {
    var o' := Swapped(o, 0, k);
    PermutationInRange(s, o);
    forall i | 0 < i < |s| ensures PriorityAt(s, o', i) == PriorityAt(s, o, if i == k then 0 else i) { }
    if k > 1 {
      assert PriorityAt(s, o', k - 1) == PriorityAt(s, o, k - 1) && PriorityAt(s, o', k) == PriorityAt(s, o, 0);
      assert PriorityAt(s, o, 0) >= PriorityAt(s, o, k - 1);
    }
  }

  /** Where the current song stands in a shuffle decides; so every shuffle is all right exactly if few are above it. */
  lemma ShuffleTradesSorted(s: State, o: seq<nat>)
    requires WellFormed(s) && s.current >= 0 && FewAbove(s) && IsShuffle(s.queue.items, o)
    ensures var k := IndexOf(o, s.queue.order[s.current]);
            k <= 1 || PriorityAt(s.queue.items, o, k - 1) == PriorityAt(s.queue.items, o, 0)
  {
    var items, x := s.queue.items, s.queue.order[s.current];
    var k := IndexOf(o, x);
    if k > 1 {
      ShuffleBounds(items, o, x);
      assert PriorityAt(items, o, 0) >= PriorityAt(items, o, k - 1) >= PriorityAt(items, o, k) == items[x].priority;
      if Higher(items, x) == {} {
        assert o[0] !in Higher(items, x);
      } else {
        assert o[k - 1] != x && o[0] != x;
        assert o[k - 1] !in Level(items, x) && o[0] !in Level(items, x);
        assert o[k - 1] in Higher(items, x) && o[0] in Higher(items, x);
      }
    }
  }

  /** The shuffle has a song of another priority right before song `x` than first in the order. */
  ghost predicate TradesUnsorted(s: seq<Item>, o: seq<nat>, x: nat)
    requires x < |s|
  {
    && IsShuffle(s, o) && InRange(s, o)
    && IndexOf(o, x) > 1 && PriorityAt(s, o, IndexOf(o, x) - 1) != PriorityAt(s, o, 0)
  }

  lemma UnsortedTrade(s: State) returns (o: seq<nat>)
    requires WellFormed(s) && s.current >= 0 && !FewAbove(s)
    ensures TradesUnsorted(s.queue.items, o, s.queue.order[s.current])
  {
    var items, x := s.queue.items, s.queue.order[s.current];
    hide IsIdentity, DistinctIds, IsShuffle, TradesUnsorted;
    o := ShuffleLast(items, x);
    if Level(items, x) != {x} {
      var y :| y in Level(items, x) && y != x;
      UnsortedByLevel(items, o, x, y);
    } else {
      var a, b :| a in Higher(items, x) && b in Higher(items, x) && items[a].priority < items[b].priority;
      UnsortedByHigher(items, o, x, a, b);
    }
  }

  lemma FirstIsHighest(s: seq<Item>, o: seq<nat>, p: nat)
    requires IsShuffle(s, o) && p < |s|
    ensures InRange(s, o) && PriorityAt(s, o, 0) >= s[p].priority
  {
    assert PriorityAt(s, o, IndexOf(o, p)) == s[p].priority;
  }

  lemma UnsortedByLevel(s: seq<Item>, o: seq<nat>, x: nat, y: nat)
    requires IsShuffle(s, o) && x < |s| && y < |s| && x != y && s[x].priority == s[y].priority
    requires IndexOf(o, x) == |Higher(s, x)| + |Level(s, x)| - 1 && Higher(s, x) != {}
    ensures TradesUnsorted(s, o, x)
  {
    var top :| top in Higher(s, x);
    FirstIsHighest(s, o, top);
    LastOfLevel(s, o, x, y);
  }

  lemma UnsortedByHigher(s: seq<Item>, o: seq<nat>, x: nat, a: nat, b: nat)
    requires IsShuffle(s, o) && x < |s| && a < |s| && b < |s| && s[x].priority < s[a].priority < s[b].priority
    ensures TradesUnsorted(s, o, x)
  {
    FirstIsHighest(s, o, b);
    HigherComesFirst(s, o, a, x);
    HigherComesFirst(s, o, b, a);
    var i, k := IndexOf(o, a), IndexOf(o, x);
    assert PriorityAt(s, o, i) == s[a].priority;
    if i < k - 1 { assert PriorityAt(s, o, i) >= PriorityAt(s, o, k - 1); }
  }

  lemma LastOfLevel(s: seq<Item>, o: seq<nat>, x: nat, y: nat)
    requires IsShuffle(s, o) && x < |s| && y < |s| && x != y && s[x].priority == s[y].priority
    requires IndexOf(o, x) == |Higher(s, x)| + |Level(s, x)| - 1 && Higher(s, x) != {}
    ensures IndexOf(o, x) > 1 && PriorityAt(s, o, IndexOf(o, x) - 1) == s[x].priority
  {
    ShuffleBounds(s, o, y);
    assert Higher(s, y) == Higher(s, x) && Level(s, y) == Level(s, x);
    var i, k := IndexOf(o, y), IndexOf(o, x);
    assert PriorityAt(s, o, i) == s[y].priority && PriorityAt(s, o, k) == s[x].priority;
    assert i < k && PriorityAt(s, o, i) >= PriorityAt(s, o, k - 1) >= PriorityAt(s, o, k);
    TwoOfALevel(s, y, x);
  }

  /** Switching random mode on sorts the songs still to come exactly if nothing plays or few are above it. */
  lemma RandomSortedExactlyWhen(s: State)
    requires WellFormed(s) && !s.queue.random
    ensures RandomAlwaysSorted(s) <==> !s.playing || FewAbove(s)
  {
    hide FewAbove, DistinctIds, IsShuffle, RandomSet, SortedAfter;
    if !s.playing || FewAbove(s) {
      forall q, s' | RandomSet(s, true, q, s') ensures SortedAfter(s'.queue, s'.current) {
        if s.playing { RandomSorted(s, q, s'); } else { RandomSortedStopped(s, q, s'); }
      }
    } else {
      var q, s' := RandomUnsorted(s);
    }
  }

  lemma RandomUnsorted(s: State) returns (q: Queue, s': State)
    requires WellFormed(s) && !s.queue.random && s.playing && !FewAbove(s)
    ensures RandomSet(s, true, q, s') && !SortedAfter(s'.queue, s'.current)
  {
    var items, x := s.queue.items, s.queue.order[s.current];
    var o := UnsortedTrade(s);
    hide FewAbove, DistinctIds, RandomSet;
    q, s' := RandomOutcome(s, o);
    FirstTraded(items, o, IndexOf(o, x));
  }

  lemma RandomSortedStopped(s: State, q: Queue, s': State)
    requires WellFormed(s) && !s.queue.random && !s.playing && RandomSet(s, true, q, s')
    ensures SortedAfter(s'.queue, s'.current)
  {
    hide DistinctIds, IsIdentity;
  }

  lemma RandomSorted(s: State, q: Queue, s': State)
    requires WellFormed(s) && !s.queue.random && s.playing && FewAbove(s) && RandomSet(s, true, q, s')
    ensures SortedAfter(s'.queue, s'.current)
  {
    var items := s.queue.items;
    OnlyOrNotOver(s, q, s');
    PermutationInRange(items, s'.queue.order);
    if |items| > 1 {
      var sh := FirstShuffle(s, q, s');
      hide FewAbove, DistinctIds, RandomSet, IsPermutation, Swapped;
      ShuffleTradesSorted(s, sh);
      FirstTraded(items, sh, IndexOf(sh, s.queue.order[s.current]));
    }
  }

  lemma FirstShuffle(s: State, q: Queue, s': State) returns (sh: seq<nat>)
    requires WellFormed(s) && !s.queue.random && s.playing && RandomSet(s, true, q, s')
    ensures IsShuffle(s.queue.items, sh) && q.order == Swapped(sh, 0, IndexOf(sh, s.queue.order[s.current]))
  {
    hide Updated, DistinctIds;
    sh :| IsShuffle(s.queue.items, sh) &&
      if s.playing && 0 <= CurrentPosition(s) < |sh|
      then q.order == Swapped(sh, 0, IndexOf(sh, CurrentPosition(s))) else q.order == sh;
  }

  /** After switching on, the order is shuffled once more only if there is a single song. */
  lemma OnlyOrNotOver(s: State, q: Queue, s': State)
    requires WellFormed(s) && !s.queue.random && s.playing && RandomSet(s, true, q, s')
    ensures |s.queue.items| == 1 || s'.queue == q
    ensures s'.queue.items == s.queue.items && |s'.queue.order| == |s.queue.items| && IsPermutation(s'.queue.order)
    ensures s'.current == 0
  {
    hide CurrentFirst, DistinctIds, IsIdentity;
  }

  lemma RandomOutcome(s: State, o: seq<nat>) returns (q: Queue, s': State)
    requires WellFormed(s) && !s.queue.random && s.playing && IsShuffle(s.queue.items, o) && |s.queue.items| > 1
    ensures RandomSet(s, true, q, s') && s'.current == 0 && s'.queue.items == s.queue.items
    ensures s'.queue.order == Swapped(o, 0, IndexOf(o, s.queue.order[s.current]))
  {
    var k := IndexOf(o, s.queue.order[s.current]);
    SwapKeepsPermutation(o, 0, k);
    q := s.queue.(random := true, order := Swapped(o, 0, k));
    assert CurrentFirst(s, q.order);
    RandomEntry(s, true, q);
    hide CurrentFirst, Updated;
    s' := UpdateOutcome(s.(queue := q, current := 0), QueuedSong(s));
    OnlyOrNotOver(s, q, s');
  }
}

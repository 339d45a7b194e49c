/** Deleting a range that holds the playing song, in random mode. */
module PlaylistRanges {
  import opened Basics
  import opened Permutations
  import opened QueueSpec
  import opened PriorityOrder
  import opened PlaylistSpec
  import opened PlaylistProofs
  import opened PlaylistOutcomes

  /** Where playback is once the song at position `p` has been left. */
  ghost function Left(s: State, p: nat): State
    requires Intact(s, p + 1) && s.queue.random && DeleteSafe(s, p, false)
  {
    if IsPlaying(s, p) then PlayOrder(s, Successor(s))
    else if s.current == IndexOf(s.queue.order, p) then s.(current := -1)
    else s
  }

  /** The one state that a safe deletion in random mode leads to. */
  ghost function AfterDelete(s: State, p: nat): State
    requires Intact(s, p + 1) && s.queue.random && DeleteSafe(s, p, false)
  {
    var n := IndexOf(s.queue.order, p);
    var v := Left(s, p);
    v.(queue := DeletedQueue(s.queue, p), current := if v.current > n then v.current - 1 else v.current)
  }

  lemma SafeRemoval(s: State, p: nat, paused: bool)
    requires Intact(s, p + 1) && s.queue.random && DeleteSafe(s, p, paused)
    ensures DeleteSafe(s, p, false) && Removed(s, p, paused, AfterDelete(s, p))
  {
    hide WithoutEntry, DeletedItems, DistinctIds;
    assert Vacated(s, p, paused, Left(s, p));
  }

  lemma OnlyRemoval(s: State, p: nat, paused: bool, m: State)
    requires Intact(s, p + 1) && s.queue.random && DeleteSafe(s, p, paused) && Removed(s, p, paused, m)
    ensures DeleteSafe(s, p, false) && m == AfterDelete(s, p)
  {
    hide WithoutEntry, DeletedItems, DistinctIds;
  }

  /** So a range is safe if its last deletion is, and the rest of the range is safe after it. */
  lemma SafeByStep(s: State, start: nat, end: nat, paused: bool)
    requires Intact(s, end) && s.queue.random && start < end && DeleteSafe(s, end - 1, paused)
    ensures DeleteSafe(s, end - 1, false) && Intact(AfterDelete(s, end - 1), end - 1)
    ensures RangeSafe(s, start, end, paused) <==> RangeSafe(AfterDelete(s, end - 1), start, end - 1, paused)
    ensures AfterDelete(s, end - 1).queue.random
    ensures RepeatsItself(AfterDelete(s, end - 1).queue) <==> RepeatsItself(s.queue)
  {
    hide Removed, AfterDelete, DeleteSafe, DeleteAborts, Consistent;
    AfterDeleteIntact(s, end - 1, paused);
    var m := AfterDelete(s, end - 1);
    assert RemovedBefore(s, end, paused, m);
    forall m' | RemovedBefore(s, end, paused, m') ensures m' == m {
      OnlyRemoval(s, end - 1, paused, m');
    }
  }

  lemma AfterDeleteIntact(s: State, p: nat, paused: bool)
    requires Intact(s, p + 1) && s.queue.random && DeleteSafe(s, p, paused)
    ensures !DeleteAborts(s, p) && DeleteSafe(s, p, false) && Removed(s, p, paused, AfterDelete(s, p))
    ensures Intact(AfterDelete(s, p), p) && AfterDelete(s, p).queue.random
    ensures RepeatsItself(AfterDelete(s, p).queue) <==> RepeatsItself(s.queue)
  {
    SafeRemoval(s, p, paused);
    hide Removed, Entries, SameSong, IsPermutation, DistinctIds, IsIdentity;
    RemovedKeeps(s, p, paused, AfterDelete(s, p));
  }

  /** Whether the playing song can be deleted while it plays. */
  lemma PlayingSafeExactlyWhen(s: State, start: nat, end: nat)
    requires Intact(s, end) && s.queue.random && s.playing && start <= CurrentPosition(s) == end - 1
    ensures DeleteSafe(s, end - 1, false) <==> Successor(s) >= 0
    ensures DeleteAborts(s, end - 1) <==> Successor(s) < 0
    ensures Successor(s) < 0 ==> !RangeSafe(s, start, end, false) && !RangeSafe(s, start, end, true)
  {
  }

  /** Some song outside the range is still to come. */
  ghost predicate HasWayOut(s: State, start: nat, end: nat) {
    exists n :: 0 <= n < |s.queue.order| && IsWayOut(s, start, end, n)
  }

  ghost predicate IsWayOut(s: State, start: nat, end: nat, n: nat)
    requires n < |s.queue.order|
  {
    (s.queue.repeat || n > s.current) && !(start <= s.queue.order[n] < end)
  }

  predicate RepeatsItself(q: Queue) {
    q.single && q.repeat && !q.consume
  }

  lemma SuccessorExactlyWhen(s: State)
    requires Consistent(s.queue) && 0 <= s.current < |s.queue.items|
    ensures Successor(s) >= 0 <==>
            !RepeatsItself(s.queue) && (s.current + 1 < |s.queue.items| || (s.queue.repeat && |s.queue.items| > 1))
    ensures Successor(s) >= 0 && !s.queue.repeat ==> Successor(s) == s.current + 1
  {
  }

  /** Deleting the last song of the range, which is not the playing one, changes nothing about the way out. */
  lemma WayOutBesides(s: State, start: nat, end: nat)
    requires Intact(s, end) && s.queue.random && s.playing && s.current >= 0
    requires start <= CurrentPosition(s) < end - 1
    ensures DeleteSafe(s, end - 1, false)
    ensures var m := AfterDelete(s, end - 1);
            && m.playing && 0 <= m.current < |m.queue.order| && CurrentPosition(m) == CurrentPosition(s)
            && (HasWayOut(m, start, end - 1) <==> HasWayOut(s, start, end))
  {
    var p := end - 1;
    var k := IndexOf(s.queue.order, p);
    var m := AfterDelete(s, p);
    hide DeletedItems, DistinctIds;
    assert m.queue.order == WithoutEntry(s.queue.order, k) && Skip(m.current, k) == s.current;
    WayOutMoves(s, m, start, end, k);
  }

  /** The same song counts as a way out before and after the deletion. */
  lemma WayOutMoves(s: State, m: State, start: nat, end: nat, k: nat)
    requires Intact(s, end) && start < end && k < |s.queue.order| && s.queue.order[k] == end - 1
    requires m.queue.order == WithoutEntry(s.queue.order, k) && m.queue.repeat == s.queue.repeat
    requires forall i :: 0 <= i < |m.queue.order| ==>
               (s.queue.repeat || i > m.current <==> s.queue.repeat || Skip(i, k) > s.current)
               || start <= s.queue.order[Skip(i, k)] < end
    ensures HasWayOut(m, start, end - 1) <==> HasWayOut(s, start, end)
  {
    hide Consistent;
    forall i | 0 <= i < |m.queue.order|
      ensures IsWayOut(m, start, end - 1, i) <==> IsWayOut(s, start, end, Skip(i, k))
    {
      KeepsSide(s, m, start, end, k, i);
    }
    if HasWayOut(s, start, end) {
      var n :| 0 <= n < |s.queue.order| && IsWayOut(s, start, end, n);
      assert n != k;
      var i := if n < k then n else n - 1;
      assert Skip(i, k) == n;
    }
  }

  lemma KeepsSide(s: State, m: State, start: nat, end: nat, k: nat, i: nat)
    requires Intact(s, end) && start < end && k < |s.queue.order| && s.queue.order[k] == end - 1
    requires m.queue.order == WithoutEntry(s.queue.order, k) && m.queue.repeat == s.queue.repeat
    requires i < |m.queue.order|
    requires (s.queue.repeat || i > m.current <==> s.queue.repeat || Skip(i, k) > s.current)
             || start <= s.queue.order[Skip(i, k)] < end
    ensures IsWayOut(m, start, end - 1, i) <==> IsWayOut(s, start, end, Skip(i, k))
  {
    var x := s.queue.order[Skip(i, k)];
    assert x != end - 1 && m.queue.order[i] == Renumber(x, end - 1);
  }

  /** Deleting the playing song goes on to the next one, inside the range or out of it. */
  lemma WayOutAhead(s: State, start: nat, end: nat)
    requires Intact(s, end) && s.queue.random && s.playing && s.current >= 0
    requires start <= CurrentPosition(s) == end - 1 && Successor(s) >= 0
    ensures DeleteSafe(s, end - 1, false)
    ensures var m := AfterDelete(s, end - 1);
            && m.playing && 0 <= m.current < |m.queue.order|
            && (start <= CurrentPosition(m) < end - 1 ==>
                  (HasWayOut(m, start, end - 1) <==> HasWayOut(s, start, end)))
            && (!(start <= CurrentPosition(m) < end - 1) ==> HasWayOut(s, start, end))
  {
    var p := end - 1;
    var k := s.current;
    assert IndexOf(s.queue.order, p) == k;
    var m := AfterDelete(s, p);
    SuccessorExactlyWhen(s);
    hide DeletedItems, DistinctIds, NextOrder, Successor;
    assert m.queue.order == WithoutEntry(s.queue.order, k) && Skip(m.current, k) == Successor(s);
    if start <= CurrentPosition(m) < end - 1 {
      WayOutMoves(s, m, start, end, k);
    } else {
      assert IsWayOut(s, start, end, Successor(s));
    }
  }

  // ---- while the song plays ----

  /**
   Deleting a range with the playing song in random mode, while it is not paused, is safe exactly
   if the song does not repeat itself and a song outside the range is still to come.
   */
  lemma {:induction false} RangeSafeExactlyWhen(s: State, start: nat, end: nat)
    requires Intact(s, end) && s.queue.random && s.playing && start <= CurrentPosition(s) < end
    ensures RangeSafe(s, start, end, false) <==> !RepeatsItself(s.queue) && HasWayOut(s, start, end)
    decreases end
  {
    hide IsPermutation, DistinctIds, IsIdentity, AfterDelete, HasWayOut, Successor, RangeSafe, DeleteSafe, RepeatsItself;
    SuccessorExactlyWhen(s);
    var p := end - 1;
    if CurrentPosition(s) != p {
      WayOutBesides(s, start, end);
      OtherSafe(s, p, false);
      SafeByStep(s, start, end, false);
      RangeSafeExactlyWhen(AfterDelete(s, p), start, p);
    } else {
      PlayingSafeExactlyWhen(s, start, end);
      if Successor(s) >= 0 {
        WayOutAhead(s, start, end);
        SafeByStep(s, start, end, false);
        var m := AfterDelete(s, p);
        if start <= CurrentPosition(m) < p {
          RangeSafeExactlyWhen(m, start, p);
        } else {
          SparedRangeIsSafe(m, start, p, false);
        }
      } else if !RepeatsItself(s.queue) {
        NoWayOut(s, start, end);
      }
    }
  }

  lemma OtherSafe(s: State, p: nat, paused: bool)
    requires Intact(s, p + 1) && 0 <= s.current && CurrentPosition(s) != p
    ensures DeleteSafe(s, p, paused)
  {
  }

  lemma NoWayOut(s: State, start: nat, end: nat)
    requires Intact(s, end) && 0 <= s.current && start <= CurrentPosition(s) < end
    requires !RepeatsItself(s.queue) && Successor(s) < 0
    ensures !HasWayOut(s, start, end)
  {
    SuccessorExactlyWhen(s);
  }

  // ---- while the song is paused ----

  /** The song is still in the queue when the loop has come down to the playing song. */
  ghost predicate Remains(s: State, end: nat, n: nat)
    requires 0 <= s.current < |s.queue.order| && n < |s.queue.order|
  {
    !(CurrentPosition(s) < s.queue.order[n] < end)
  }

  ghost predicate IsHeirAt(s: State, end: nat, n: nat)
    requires 0 <= s.current < |s.queue.order| && n < |s.queue.order|
  {
    n != s.current && (s.queue.repeat || n > s.current) && Remains(s, end, n)
  }

  /** Then another song is still to come. */
  ghost predicate PausedWayOut(s: State, end: nat)
    requires 0 <= s.current < |s.queue.order|
  {
    exists n :: 0 <= n < |s.queue.order| && IsHeirAt(s, end, n)
  }

  ghost predicate IsLaterAt(s: State, end: nat, n: nat)
    requires 0 <= s.current < |s.queue.order| && n < |s.queue.order|
  {
    n > s.current && Remains(s, end, n)
  }

  ghost predicate NoneBefore(s: State, end: nat, k: nat)
    requires 0 <= s.current < |s.queue.order| && k < |s.queue.order|
  {
    forall j :: 0 <= j < k ==> !Remains(s, end, j)
  }

  /** Order number `k` is the first in the order by then, and the song at `n` has a lower priority. */
  ghost predicate IsLowerAt(s: State, end: nat, k: nat, n: nat)
    requires 0 <= s.current < |s.queue.order| && k < |s.queue.order| && n < |s.queue.order|
    requires InRange(s.queue.items, s.queue.order)
  {
    && Remains(s, end, k) && NoneBefore(s, end, k) && Remains(s, end, n)
    && PriorityAt(s.queue.items, s.queue.order, n) < PriorityAt(s.queue.items, s.queue.order, k)
  }

  /** Then the playing song is not the last in the order, or the first one cannot become the last. */
  ghost predicate PausedInside(s: State, end: nat)
    requires 0 <= s.current < |s.queue.order| && InRange(s.queue.items, s.queue.order)
  {
    HasLater(s, end) || HasLower(s, end)
  }

  ghost predicate HasLater(s: State, end: nat)
    requires 0 <= s.current < |s.queue.order|
  {
    exists n :: 0 <= n < |s.queue.order| && IsLaterAt(s, end, n)
  }

  ghost predicate HasLower(s: State, end: nat)
    requires 0 <= s.current < |s.queue.order| && InRange(s.queue.items, s.queue.order)
  {
    exists k, n :: 0 <= k < |s.queue.order| && 0 <= n < |s.queue.order| && IsLowerAt(s, end, k, n)
  }

  /** The index that an entry other than the one at `k` moves to when that one is taken out. */
  function Unskip(n: nat, k: nat): nat
    requires n != k
  {
    if n < k then n else n - 1
  }

  /** Deleting a later song of the range: what the state after it has in common with the state before. */
  ghost predicate Thinned(s: State, m: State, end: nat, k: nat) {
    && 0 < end && Intact(s, end) && Intact(m, end - 1) && 0 <= s.current && 0 <= m.current
    && k < |s.queue.order| == |m.queue.order| + 1 && s.queue.order[k] == end - 1
    && CurrentPosition(s) == CurrentPosition(m) < end - 1
    && Skip(m.current, k) == s.current && m.queue.repeat == s.queue.repeat
    && InRange(s.queue.items, s.queue.order) && InRange(m.queue.items, m.queue.order)
    && forall i :: 0 <= i < |m.queue.order| ==> SameAt(s, m, end, k, i)
  }

  ghost predicate SameAt(s: State, m: State, end: nat, k: nat, i: nat)
    requires 0 < end && i < |m.queue.order| && |s.queue.order| == |m.queue.order| + 1
    requires InRange(s.queue.items, s.queue.order) && InRange(m.queue.items, m.queue.order)
  {
    && m.queue.order[i] == Renumber(s.queue.order[Skip(i, k)], end - 1) && s.queue.order[Skip(i, k)] != end - 1
    && PriorityAt(m.queue.items, m.queue.order, i) == PriorityAt(s.queue.items, s.queue.order, Skip(i, k))
  }

  lemma ThinnedByDelete(s: State, end: nat)
    requires Intact(s, end) && s.queue.random && s.playing && 0 <= s.current && 0 <= CurrentPosition(s) < end - 1
    ensures DeleteSafe(s, end - 1, false) && AfterDelete(s, end - 1).playing && AfterDelete(s, end - 1).queue.random
    ensures Thinned(s, AfterDelete(s, end - 1), end, IndexOf(s.queue.order, end - 1))
  {
    OtherSafe(s, end - 1, false);
    AfterDeleteIntact(s, end - 1, false);
    var k := IndexOf(s.queue.order, end - 1);
    var m := AfterDelete(s, end - 1);
    PermutationInRange(s.queue.items, s.queue.order);
    PermutationInRange(m.queue.items, m.queue.order);
    assert m.queue == DeletedQueue(s.queue, end - 1) && Skip(m.current, k) == s.current && m.playing;
    hide AfterDelete, IsIdentity, DistinctIds, DeleteAborts, Removed, DeletedItems;
    assert m.queue.order[m.current] == Renumber(s.queue.order[s.current], end - 1);
    forall i | 0 <= i < |m.queue.order| ensures SameAt(s, m, end, k, i) {
      ThinnedAt(s, m, end, k, i);
    }
  }

  lemma ThinnedAt(s: State, m: State, end: nat, k: nat, i: nat)
    requires Intact(s, end) && 0 < end && k < |s.queue.order| && s.queue.order[k] == end - 1
    requires m.queue.order == WithoutEntry(s.queue.order, k) && i < |m.queue.order|
    requires m.queue.items == DeletedItems(s.queue.items, end - 1, s.queue.version)
    requires InRange(s.queue.items, s.queue.order) && InRange(m.queue.items, m.queue.order)
    ensures SameAt(s, m, end, k, i)
  {
    hide DistinctIds, IsIdentity;
    assert Skip(i, k) != k;
    DeletedPriority(s.queue.items, end - 1, s.queue.order[Skip(i, k)], s.queue.version);
  }

  lemma DeletedPriority(s: seq<Item>, p: nat, x: nat, version: nat)
    requires p < |s| && x < |s| && x != p
    ensures DeletedItems(s, p, version)[Renumber(x, p)].priority == s[x].priority
  {
  }

  lemma ThinnedRemains(s: State, m: State, end: nat, k: nat, i: nat)
    requires Thinned(s, m, end, k) && i < |m.queue.order|
    ensures Remains(m, end - 1, i) <==> Remains(s, end, Skip(i, k))
    ensures !Remains(s, end, k)
    ensures i > m.current <==> Skip(i, k) > s.current
    ensures i != m.current <==> Skip(i, k) != s.current
  {
    hide Consistent;
    assert SameAt(s, m, end, k, i);
  }

  lemma ThinnedFirst(s: State, m: State, end: nat, k: nat, i: nat)
    requires Thinned(s, m, end, k) && i < |m.queue.order|
    ensures NoneBefore(m, end - 1, i) <==> NoneBefore(s, end, Skip(i, k))
  {
    ThinnedSize(s, m, end, k);
    hide Consistent, Remains, Thinned;
    ThinnedRemains(s, m, end, k, i);
    if NoneBefore(m, end - 1, i) {
      forall j | 0 <= j < Skip(i, k) ensures !Remains(s, end, j) {
        if j != k {
          ThinnedRemains(s, m, end, k, Unskip(j, k));
        }
      }
    }
    if NoneBefore(s, end, Skip(i, k)) {
      var e := end - 1;
      forall j | 0 <= j < i ensures !Remains(m, e, j) {
        ThinnedRemains(s, m, end, k, j);
      }
    }
  }

  lemma ThinnedSize(s: State, m: State, end: nat, k: nat)
    requires Thinned(s, m, end, k)
    ensures 0 <= s.current < |s.queue.order| && 0 <= m.current < |m.queue.order|
    ensures k < |s.queue.order| == |m.queue.order| + 1 && 0 < end
    ensures InRange(s.queue.items, s.queue.order) && InRange(m.queue.items, m.queue.order)
    ensures m.queue.repeat == s.queue.repeat
  {
  }

  /** Deleting a later song of the range changes nothing about either condition. */
  lemma ThinnedSame(s: State, m: State, end: nat, k: nat)
    requires Thinned(s, m, end, k)
    ensures 0 <= s.current < |s.queue.order| && 0 <= m.current < |m.queue.order|
    ensures InRange(s.queue.items, s.queue.order) && InRange(m.queue.items, m.queue.order)
    ensures PausedWayOut(m, end - 1) <==> PausedWayOut(s, end)
    ensures PausedInside(m, end - 1) <==> PausedInside(s, end)
  {
    ThinnedSize(s, m, end, k);
    hide Consistent, Thinned, Remains;
    var e := end - 1;
    if PausedWayOut(m, e) {
      var i :| 0 <= i < |m.queue.order| && IsHeirAt(m, e, i);
      ThinnedRemains(s, m, end, k, i);
      assert IsHeirAt(s, end, Skip(i, k));
    }
    if PausedWayOut(s, end) {
      var n :| 0 <= n < |s.queue.order| && IsHeirAt(s, end, n);
      ThinnedNotGone(s, m, end, k, n);
      ThinnedRemains(s, m, end, k, Unskip(n, k));
      assert IsHeirAt(m, e, Unskip(n, k));
    }
    ThinnedInside(s, m, end, k);
  }

  lemma ThinnedNotGone(s: State, m: State, end: nat, k: nat, n: nat)
    requires Thinned(s, m, end, k) && n < |s.queue.order| && Remains(s, end, n)
    ensures n != k && Unskip(n, k) < |m.queue.order| && Skip(Unskip(n, k), k) == n
  {
    assert !Remains(s, end, k);
  }

  lemma ThinnedInside(s: State, m: State, end: nat, k: nat)
    requires Thinned(s, m, end, k)
    ensures 0 <= s.current < |s.queue.order| && 0 <= m.current < |m.queue.order|
    ensures InRange(s.queue.items, s.queue.order) && InRange(m.queue.items, m.queue.order)
    ensures PausedInside(m, end - 1) <==> PausedInside(s, end)
  {
    ThinnedSize(s, m, end, k);
    hide Thinned, HasLater, HasLower;
    ThinnedHasLater(s, m, end, k);
    ThinnedHasLower(s, m, end, k);
  }

  lemma ThinnedHasLater(s: State, m: State, end: nat, k: nat)
    requires Thinned(s, m, end, k)
    ensures 0 <= s.current < |s.queue.order| && 0 <= m.current < |m.queue.order|
    ensures HasLater(m, end - 1) <==> HasLater(s, end)
  {
    ThinnedSize(s, m, end, k);
    hide Thinned, IsLaterAt, Remains;
    var e := end - 1;
    if HasLater(m, e) {
      var i :| 0 <= i < |m.queue.order| && IsLaterAt(m, e, i);
      ThinnedLater(s, m, end, k, i);
    }
    if HasLater(s, end) {
      var n :| 0 <= n < |s.queue.order| && IsLaterAt(s, end, n);
      LaterRemains(s, end, n);
      ThinnedNotGone(s, m, end, k, n);
      ThinnedLater(s, m, end, k, Unskip(n, k));
    }
  }

  lemma ThinnedHasLower(s: State, m: State, end: nat, k: nat)
    requires Thinned(s, m, end, k)
    ensures 0 <= s.current < |s.queue.order| && 0 <= m.current < |m.queue.order|
    ensures InRange(s.queue.items, s.queue.order) && InRange(m.queue.items, m.queue.order)
    ensures HasLower(m, end - 1) <==> HasLower(s, end)
  {
    ThinnedSize(s, m, end, k);
    hide Thinned, IsLowerAt, Remains, InRange;
    var e := end - 1;
    if HasLower(m, e) {
      var a, b :| 0 <= a < |m.queue.order| && 0 <= b < |m.queue.order| && IsLowerAt(m, e, a, b);
      ThinnedLower(s, m, end, k, a, b);
    }
    if HasLower(s, end) {
      var a, b :| 0 <= a < |s.queue.order| && 0 <= b < |s.queue.order| && IsLowerAt(s, end, a, b);
      ThinnedKeepsLower(s, m, end, k, a, b);
      assert IsLowerAt(m, e, Unskip(a, k), Unskip(b, k));
    }
  }

  lemma ThinnedKeepsLower(s: State, m: State, end: nat, k: nat, a: nat, b: nat)
    requires Thinned(s, m, end, k) && a < |s.queue.order| && b < |s.queue.order| && IsLowerAt(s, end, a, b)
    ensures a != k && b != k && Unskip(a, k) < |m.queue.order| && Unskip(b, k) < |m.queue.order|
    ensures IsLowerAt(m, end - 1, Unskip(a, k), Unskip(b, k))
  {
    LowerRemains(s, end, a, b);
    ThinnedNotGone(s, m, end, k, a);
    ThinnedNotGone(s, m, end, k, b);
    ThinnedLower(s, m, end, k, Unskip(a, k), Unskip(b, k));
  }

  lemma LaterRemains(s: State, end: nat, n: nat)
    requires 0 <= s.current < |s.queue.order| && n < |s.queue.order| && IsLaterAt(s, end, n)
    ensures Remains(s, end, n)
  {
  }

  lemma LowerRemains(s: State, end: nat, a: nat, b: nat)
    requires 0 <= s.current < |s.queue.order| && a < |s.queue.order| && b < |s.queue.order|
    requires InRange(s.queue.items, s.queue.order) && IsLowerAt(s, end, a, b)
    ensures Remains(s, end, a) && Remains(s, end, b)
  {
  }

  lemma ThinnedLater(s: State, m: State, end: nat, k: nat, i: nat)
    requires Thinned(s, m, end, k) && i < |m.queue.order|
    ensures IsLaterAt(m, end - 1, i) <==> IsLaterAt(s, end, Skip(i, k))
  {
    ThinnedRemains(s, m, end, k, i);
  }

  lemma ThinnedLower(s: State, m: State, end: nat, k: nat, a: nat, b: nat)
    requires Thinned(s, m, end, k) && a < |m.queue.order| && b < |m.queue.order|
    ensures IsLowerAt(m, end - 1, a, b) <==> IsLowerAt(s, end, Skip(a, k), Skip(b, k))
  {
    ThinnedRemains(s, m, end, k, a);
    ThinnedRemains(s, m, end, k, b);
    ThinnedFirst(s, m, end, k, a);
    hide Consistent, Remains;
    assert SameAt(s, m, end, k, a) && SameAt(s, m, end, k, b);
  }

  /** Once the loop has come down to the playing song, both conditions are those of its own deletion. */
  lemma PausedNow(s: State)
    requires Consistent(s.queue) && s.queue.random && s.playing && 0 <= s.current < |s.queue.items|
    ensures InRange(s.queue.items, s.queue.order)
    ensures var p := CurrentPosition(s);
            && (DeleteAborts(s, p) <==> RepeatsItself(s.queue) || !PausedWayOut(s, p + 1))
            && (!DeleteAborts(s, p) ==> StaleDelete(s, p) && (StaysInside(s, p) <==> PausedInside(s, p + 1)))
  {
    var p := CurrentPosition(s);
    assert IndexOf(s.queue.order, p) == s.current;
    SuccessorExactlyWhen(s);
    PausedNowWayOut(s);
    hide RepeatsItself, DistinctIds, IsIdentity, PausedWayOut, PausedInside;
    if !DeleteAborts(s, p) {
      PausedNowInside(s);
    }
  }

  lemma PausedNowWayOut(s: State)
    requires Consistent(s.queue) && 0 <= s.current < |s.queue.items|
    ensures PausedWayOut(s, CurrentPosition(s) + 1) <==>
            s.current + 1 < |s.queue.items| || (s.queue.repeat && |s.queue.items| > 1)
  {
    var end := CurrentPosition(s) + 1;
    if s.current + 1 < |s.queue.items| {
      assert IsHeirAt(s, end, s.current + 1);
    } else if s.queue.repeat && |s.queue.items| > 1 {
      assert IsHeirAt(s, end, 0);
    }
  }

  lemma PausedNowInside(s: State)
    requires Consistent(s.queue) && s.queue.random && s.playing && 0 <= s.current < |s.queue.items|
    requires StaleDelete(s, CurrentPosition(s))
    ensures InRange(s.queue.items, s.queue.order)
    ensures StaysInside(s, CurrentPosition(s)) <==> PausedInside(s, CurrentPosition(s) + 1)
  {
    var p := CurrentPosition(s);
    hide DistinctIds, IsIdentity;
    if s.current + 1 < |s.queue.items| {
      assert IsLaterAt(s, p + 1, s.current + 1);
    } else {
      assert Heir(s, p) == s.queue.order[0];
      if StaysInside(s, p) {
        var q :| 0 <= q < |s.queue.items| && s.queue.items[q].priority < s.queue.items[Heir(s, p)].priority;
        assert IsLowerAt(s, p + 1, 0, IndexOf(s.queue.order, q));
      }
      if PausedInside(s, p + 1) {
        var k, n :| 0 <= k < |s.queue.order| && 0 <= n < |s.queue.order| && IsLowerAt(s, p + 1, k, n);
        assert Remains(s, p + 1, 0);
        assert k == 0;
      }
    }
  }

  /** Another song is left to follow the paused one, and `current` cannot run past the end. */
  ghost predicate PausedSafe(s: State, end: nat)
    requires 0 <= s.current < |s.queue.order| && InRange(s.queue.items, s.queue.order)
  {
    !RepeatsItself(s.queue) && PausedWayOut(s, end) && PausedInside(s, end)
  }

  /** Exactly then a range with the paused song of random mode is deleted safely. */
  lemma {:induction false} PausedSafeExactlyWhen(s: State, start: nat, end: nat)
    requires Stands(s, start, end)
    ensures RangeSafe(s, start, end, true) <==> PausedSafe(s, end)
    decreases end
  {
    hide IsPermutation, DistinctIds, IsIdentity, AfterDelete, DeleteSafe, RangeSafe, RepeatsItself, DeleteAborts, Removed,
      IsPlaying, PausedWayOut, PausedInside, PausedSafe;
    if CurrentPosition(s) != end - 1 {
      var m := StepDown(s, start, end);
      SafeByStep(s, start, end, true);
      PausedSafeExactlyWhen(m, start, end - 1);
    } else {
      PausedSafeNow(s, start, end);
    }
  }

  lemma PausedSafeNow(s: State, start: nat, end: nat)
    requires Stands(s, start, end) && CurrentPosition(s) == end - 1
    ensures RangeSafe(s, start, end, true) <==> PausedSafe(s, end)
  {
    hide Consistent, RangeSafe, PausedWayOut, PausedInside, RepeatsItself, StaleDelete, StaysInside, InRange, DeleteAborts,
      Successor, DeleteSafe;
    PausedNow(s);
    PlayingSafeExactlyWhen(s, start, end);
    if !DeleteAborts(s, end - 1) {
      PausedStep(s, start, end);
    }
  }

  lemma ThinnedCurrent(s: State, m: State, end: nat, k: nat)
    requires Thinned(s, m, end, k)
    ensures 0 <= m.current < |m.queue.items| && CurrentPosition(m) == CurrentPosition(s) < end - 1
  {
  }

  /** The playing song is at a position of the range, and nothing else of it has been deleted. */
  ghost predicate Stands(s: State, start: nat, end: nat) {
    && Intact(s, end) && s.queue.random && s.playing && 0 <= s.current && start <= CurrentPosition(s) < end
    && InRange(s.queue.items, s.queue.order)
  }

  /** Deleting a song of the range behind the playing one keeps everything that matters. */
  lemma StepDown(s: State, start: nat, end: nat) returns (v: State)
    requires Stands(s, start, end) && CurrentPosition(s) != end - 1
    ensures Stands(v, start, end - 1) && CurrentPosition(v) == CurrentPosition(s)
    ensures DeleteSafe(s, end - 1, true) && !DeleteAborts(s, end - 1) && !IsPlaying(s, end - 1)
    ensures DeleteSafe(s, end - 1, false) && v == AfterDelete(s, end - 1) && Removed(s, end - 1, true, v)
    ensures RepeatsItself(v.queue) <==> RepeatsItself(s.queue)
    ensures PausedWayOut(v, end - 1) <==> PausedWayOut(s, end)
    ensures PausedInside(v, end - 1) <==> PausedInside(s, end)
    ensures PausedSafe(v, end - 1) <==> PausedSafe(s, end)
  {
    var p := end - 1;
    hide IsPermutation, DistinctIds, IsIdentity, AfterDelete, PausedWayOut, PausedInside, Thinned, InRange, Removed,
      RepeatsItself, DeleteAborts, DeleteSafe;
    ThinnedByDelete(s, end);
    OtherSafe(s, p, true);
    NotPlayingAt(s, p);
    AfterDeleteIntact(s, p, true);
    v := AfterDelete(s, p);
    ThinnedSame(s, v, end, IndexOf(s.queue.order, p));
    ThinnedCurrent(s, v, end, IndexOf(s.queue.order, p));
  }

  lemma PausedStep(s: State, start: nat, end: nat)
    requires Intact(s, end) && start < end && StaleDelete(s, end - 1)
    ensures RangeSafe(s, start, end, true) <==> StaysInside(s, end - 1)
  {
    var p := end - 1;
    StaysInsideExactlyWhen(s, p);
    StaleDoesNotAbort(s, p);
    hide StaysInside, Removed, Consistent, DeleteAborts, StaleDelete;
    if StaysInside(s, p) {
      forall m | RemovedBefore(s, end, true, m) ensures Intact(m, p) && RangeSafe(m, start, p, true) {
        assert Removed(s, p, true, m);
        PausedStepDone(s, start, end, m);
      }
    } else {
      var m :| Removed(s, p, true, m) && m.current >= |m.queue.items|;
      assert RemovedBefore(s, end, true, m);
    }
  }

  lemma StaleDoesNotAbort(s: State, p: nat)
    requires StaleDelete(s, p)
    ensures !DeleteAborts(s, p)
  {
  }

  lemma PausedStepDone(s: State, start: nat, end: nat, m: State)
    requires Intact(s, end) && start < end && StaleDelete(s, end - 1)
    requires Removed(s, end - 1, true, m) && m.current < |m.queue.items|
    ensures Intact(m, end - 1) && RangeSafe(m, start, end - 1, true)
  {
    hide Removed, IsPermutation, DistinctIds, IsIdentity, DeleteAborts, Entries, RangeSafe;
    StaleRemoved(s, end - 1, true, m);
    assert |Entries(m.queue.items)| == |s.queue.items| - 1;
    SparedRangeIsSafe(m, start, end - 1, true);
  }

  // ---- the failing assertion ----

  /** Some deletion of the loop reaches the failing assertion. */
  ghost predicate RangeAborts(s: State, start: nat, end: nat, paused: bool)
    requires Holds(s, end)
    decreases end
  {
    start < end &&
    (DeleteAborts(s, end - 1) ||
     exists m :: RemovedBefore(s, end, paused, m) && Holds(m, end - 1) && RangeAborts(m, start, end - 1, paused))
  }

  /** What a caller can check: the range holds the playing song of random mode, and none is left to follow. */
  ghost predicate NoneFollows(s: State, start: nat, end: nat, paused: bool)
    requires s.current < |s.queue.order|
  {
    !SparesRandom(s, start, end) &&
    (RepeatsItself(s.queue) ||
     if paused then s.current >= 0 && !PausedWayOut(s, end) else !HasWayOut(s, start, end))
  }

  lemma {:induction false} SafeDoesNotAbort(s: State, start: nat, end: nat, paused: bool)
    requires Intact(s, end) && RangeSafe(s, start, end, paused)
    ensures !RangeAborts(s, start, end, paused)
    decreases end
  {
    hide Removed, Consistent, DeleteAborts;
    if start < end {
      forall m | RemovedBefore(s, end, paused, m) ensures Holds(m, end - 1) ==> !RangeAborts(m, start, end - 1, paused) {
        SafeDoesNotAbort(m, start, end - 1, paused);
      }
    }
  }

  lemma {:induction false} StoppedDoesNotAbort(s: State, start: nat, end: nat, paused: bool)
    requires Holds(s, end) && !s.playing
    ensures !RangeAborts(s, start, end, paused)
    decreases end
  {
    if start < end {
      hide Consistent, DeletedQueue;
      forall m | RemovedBefore(s, end, paused, m) && Holds(m, end - 1)
        ensures !RangeAborts(m, start, end - 1, paused)
      {
        StoppedDoesNotAbort(m, start, end - 1, paused);
      }
    }
  }

  /** A step that has only one outcome passes the question on to it. */
  lemma AbortsByStep(s: State, start: nat, end: nat, paused: bool)
    requires Intact(s, end) && s.queue.random && start < end && DeleteSafe(s, end - 1, paused)
    ensures DeleteSafe(s, end - 1, false) && Intact(AfterDelete(s, end - 1), end - 1)
    ensures RangeAborts(s, start, end, paused) <==> RangeAborts(AfterDelete(s, end - 1), start, end - 1, paused)
  {
    hide Removed, AfterDelete, DeleteSafe, DeleteAborts, Consistent;
    AfterDeleteIntact(s, end - 1, paused);
    var m := AfterDelete(s, end - 1);
    assert RemovedBefore(s, end, paused, m);
    forall m' | RemovedBefore(s, end, paused, m') ensures m' == m {
      OnlyRemoval(s, end - 1, paused, m');
    }
  }

  /** While the song plays, there is nothing to fear but the assertion. */
  lemma {:induction false} UnsafeAborts(s: State, start: nat, end: nat)
    requires Intact(s, end) && s.queue.random && !RangeSafe(s, start, end, false)
    ensures RangeAborts(s, start, end, false)
    decreases end
  {
    hide AfterDelete, IsPermutation, DistinctIds, IsIdentity, Removed, Successor, Entries;
    if !DeleteAborts(s, end - 1) {
      SafeByStep(s, start, end, false);
      AbortsByStep(s, start, end, false);
      UnsafeAborts(AfterDelete(s, end - 1), start, end - 1);
    }
  }

  lemma {:induction false} PausedAbortsExactlyWhen(s: State, start: nat, end: nat)
    requires Stands(s, start, end)
    ensures RangeAborts(s, start, end, true) <==> RepeatsItself(s.queue) || !PausedWayOut(s, end)
    decreases end
  {
    hide IsPermutation, DistinctIds, IsIdentity, AfterDelete, DeleteSafe, RangeAborts, RepeatsItself, DeleteAborts, Removed, IsPlaying,
      PausedWayOut, PausedInside;
    if CurrentPosition(s) != end - 1 {
      var m := StepDown(s, start, end);
      AbortsByStep(s, start, end, true);
      PausedAbortsExactlyWhen(m, start, end - 1);
    } else {
      PausedNow(s);
      PausedAbortsNow(s, start, end);
    }
  }

  lemma PausedAbortsNow(s: State, start: nat, end: nat)
    requires Intact(s, end) && s.queue.random && s.playing && start <= CurrentPosition(s) == end - 1
    ensures RangeAborts(s, start, end, true) <==> DeleteAborts(s, end - 1)
  {
    var p := end - 1;
    if !DeleteAborts(s, p) {
      assert UsesStaleOrder(s, p, true);
      hide Removed, IsPermutation, DistinctIds, IsIdentity, Entries, Successor;
      forall m | RemovedBefore(s, end, true, m) && Holds(m, p) ensures !RangeAborts(m, start, p, true) {
        StaleRemoved(s, p, true, m);
        StoppedDoesNotAbort(m, start, p, true);
      }
    }
  }

  /** The failing assertion is reached exactly if, in random mode, no song is left to follow the playing one. */
  lemma RangeAbortsExactlyWhen(s: State, start: nat, end: nat, paused: bool)
    requires Intact(s, end)
    ensures RangeAborts(s, start, end, paused) <==> NoneFollows(s, start, end, paused)
  {
    hide RangeSafe, RangeAborts, HasWayOut, PausedWayOut, PausedInside, RepeatsItself, IsPermutation, DistinctIds;
    if SparesRandom(s, start, end) {
      SparedRangeIsSafe(s, start, end, paused);
      SafeDoesNotAbort(s, start, end, paused);
    } else if paused {
      PermutationInRange(s.queue.items, s.queue.order);
      PausedAbortsExactlyWhen(s, start, end);
    } else {
      RangeSafeExactlyWhen(s, start, end);
      if RangeSafe(s, start, end, false) {
        SafeDoesNotAbort(s, start, end, false);
      } else {
        UnsafeAborts(s, start, end);
      }
    }
  }

  // ---- order numbers past the end ----

  /** Every outcome of the loop leaves `current` inside the queue. */
  ghost predicate EndsInside(s: State, start: nat, end: nat, paused: bool, prev: Option<Song>) {
    forall m, prev' :: RangeRemoved(s, start, end, paused, prev, m, prev') ==> m.current < |m.queue.items|
  }

  lemma {:induction false} SafeEndsInside(s: State, start: nat, end: nat, paused: bool, prev: Option<Song>,
                                          m: State, prev': Option<Song>)
    requires Intact(s, end) && RangeSafe(s, start, end, paused)
    requires RangeRemoved(s, start, end, paused, prev, m, prev')
    ensures m.current < |m.queue.items|
    decreases end
  {
    hide Removed, Consistent, DeleteAborts, IsPlaying;
    if start < end {
      var prev1 := if IsPlaying(s, end - 1) then None else prev;
      var v :| RemovedBefore(s, end, paused, v) && RangeRemoved(v, start, end - 1, paused, prev1, m, prev');
      SafeEndsInside(v, start, end - 1, paused, prev1, m, prev');
    }
  }

  /** Once `current` is past the end, later deletions lower it together with the length. */
  lemma {:induction false} PastTheEndStays(s: State, start: nat, end: nat, paused: bool, prev: Option<Song>)
    returns (m: State, prev': Option<Song>)
    requires Holds(s, end) && !s.playing && s.current == |s.queue.items|
    ensures RangeRemoved(s, start, end, paused, prev, m, prev') && m.current == |m.queue.items|
    decreases end
  {
    m, prev' := s, prev;
    if start < end {
      var p := end - 1;
      var v := s.(queue := DeletedQueue(s.queue, p), current := s.current - 1);
      assert Vacated(s, p, paused, s);
      assert Removed(s, p, paused, v);
      DeletedQueueConsistent(s.queue, p);
      hide Removed, DeletedQueue, IsPermutation, DistinctIds, IsIdentity, Entries;
      assert RemovedBefore(s, end, paused, v);
      m, prev' := PastTheEndStays(v, start, p, paused, prev);
    }
  }

  lemma {:induction false} PausedRunsPast(s: State, start: nat, end: nat, prev: Option<Song>)
    returns (m: State, prev': Option<Song>)
    requires Intact(s, end) && s.queue.random && s.playing && start <= CurrentPosition(s) < end
    requires !RepeatsItself(s.queue) && PausedWayOut(s, end)
    requires InRange(s.queue.items, s.queue.order) && !PausedInside(s, end)
    ensures RangeRemoved(s, start, end, true, prev, m, prev') && m.current == |m.queue.items|
    decreases end
  {
    var p := end - 1;
    hide IsPermutation, DistinctIds, IsIdentity, AfterDelete, PausedWayOut, PausedInside, InRange, Removed, DeleteAborts,
      RepeatsItself, DeleteSafe, StaysInside, StaleDelete;
    if CurrentPosition(s) != p {
      var v := StepDown(s, start, end);
      assert RemovedBefore(s, end, true, v);
      m, prev' := PausedRunsPast(v, start, p, prev);
    } else {
      PausedNow(s);
      var v := StaleRunsPast(s, p);
      assert RemovedBefore(s, end, true, v);
      m, prev' := PastTheEndStays(v, start, p, true, if IsPlaying(s, p) then None else prev);
    }
  }

  lemma NotPlayingAt(s: State, p: nat)
    requires Intact(s, p + 1) && 0 <= s.current && CurrentPosition(s) != p
    ensures !IsPlaying(s, p)
  {
  }

  lemma StaleRunsPast(s: State, p: nat) returns (m: State)
    requires StaleDelete(s, p) && !StaysInside(s, p)
    ensures Removed(s, p, true, m) && Holds(m, p) && !m.playing && m.current == |m.queue.items|
  {
    StaysInsideExactlyWhen(s, p);
    hide StaysInside, Removed;
    m :| Removed(s, p, true, m) && m.current >= |m.queue.items|;
    StaleRemoved(s, p, true, m);
  }

  /** The disjunction a caller can check: no song to lose, or one to follow that stays inside. */
  ghost predicate Deletable(s: State, start: nat, end: nat, paused: bool)
    requires s.current < |s.queue.order| && InRange(s.queue.items, s.queue.order)
  {
    SparesRandom(s, start, end) ||
    (!NoneFollows(s, start, end, paused) && (paused && s.current >= 0 ==> PausedInside(s, end)))
  }

  /** The range, cut at the end of the queue, is empty or can be deleted. */
  ghost predicate DeletableRange(s: State, start: nat, end: nat, paused: bool)
    requires s.current < |s.queue.order| == |s.queue.items|
  {
    var end' := Min(end, |s.queue.items|);
    start < end' && InRange(s.queue.items, s.queue.order) ==> Deletable(s, start, end', paused)
  }

  lemma DeletableIsSafe(s: State, start: nat, end: nat, paused: bool)
    requires Intact(s, end)
    ensures InRange(s.queue.items, s.queue.order)
    ensures Deletable(s, start, end, paused) <==> RangeSafe(s, start, end, paused)
  {
    PermutationInRange(s.queue.items, s.queue.order);
    hide RangeSafe, HasWayOut, PausedWayOut, PausedInside, RepeatsItself, IsPermutation, DistinctIds, InRange;
    if SparesRandom(s, start, end) {
      SparedRangeIsSafe(s, start, end, paused);
    } else if paused {
      PausedSafeExactlyWhen(s, start, end);
    } else {
      RangeSafeExactlyWhen(s, start, end);
    }
  }

  /** Exactly then the assertion is not reached and every outcome leaves valid order numbers. */
  lemma DeletableExactlyWhen(s: State, start: nat, end: nat, paused: bool, prev: Option<Song>)
    requires Intact(s, end)
    ensures InRange(s.queue.items, s.queue.order)
    ensures Deletable(s, start, end, paused) <==>
            !RangeAborts(s, start, end, paused) && EndsInside(s, start, end, paused, prev)
  {
    DeletableIsSafe(s, start, end, paused);
    RangeAbortsExactlyWhen(s, start, end, paused);
    hide RangeSafe, RangeAborts, RangeRemoved, HasWayOut, PausedWayOut, PausedInside, RepeatsItself, IsPermutation,
      DistinctIds, InRange;
    if Deletable(s, start, end, paused) {
      forall m, prev' | RangeRemoved(s, start, end, paused, prev, m, prev') ensures m.current < |m.queue.items| {
        SafeEndsInside(s, start, end, paused, prev, m, prev');
      }
      SafeDoesNotAbort(s, start, end, paused);
    } else if !NoneFollows(s, start, end, paused) {
      var m, prev' := PausedRunsPast(s, start, end, prev);
    }
  }

  /** Two songs, the one first in the order playing but paused: the whole queue can be deleted. */
  lemma PausedRangeExample() returns (s: State, s': State)
    ensures WellFormed(s) && s.playing && s.queue.random && !s.queue.repeat && |s.queue.items| == 2 && s.current == 0
    ensures !HasWayOut(s, 0, 2) && RangeDeleted(s, 0, 2, true, s') && WellFormed(s') && s'.queue.items == []
  {
    var items := [Item(7, 0, 1, 0), Item(8, 1, 1, 0)];
    var q := Queue(items, [1, 0], 1, false, false, false, true);
    s := State(q, true, 0, -1, false, 0, []);
    assert DistinctIds(items) && IsPermutation(q.order) && Consistent(q);
    assert CurrentPosition(s) == 1 && IsHeirAt(s, 2, 1) && IsLaterAt(s, 2, 1);
    assert PausedWayOut(s, 2) && PausedInside(s, 2);
    assert forall n :: 0 <= n < 2 ==> !IsWayOut(s, 0, 2, n);
    DeletableIsSafe(s, 0, 2, true);
    hide RangeSafe, PausedWayOut, PausedInside, IsPermutation, DistinctIds, IsLaterAt, IsHeirAt;
    s' := RangeOutcome(s, 0, 2, true);
    DeleteRangeKeeps(s, 0, 2, true, s');
    assert |Entries(s'.queue.items)| == 0;
  }

  /** Every safe range deletion has an outcome. */
  lemma RangeOutcome(s: State, start: nat, end: nat, paused: bool) returns (s': State)
    requires WellFormed(s) && start < end <= |s.queue.items| && RangeSafe(s, start, end, paused)
    ensures RangeDeleted(s, start, end, paused, s')
  {
    QueuedIsPending(s);
    hide RangeSafe, RangeRemoved, Refreshed, Finished;
    var m, prev := RemoveRangeOutcome(s, start, end, paused, QueuedSong(s));
    RangeRemovedKeeps(s, start, end, paused, QueuedSong(s), m, prev);
    s' := RefreshOutcome(m, prev);
    FinishedIsRefreshed(m, prev, s');
  }

  lemma {:induction false} RemoveRangeOutcome(s: State, start: nat, end: nat, paused: bool, prev: Option<Song>)
    returns (m: State, prev': Option<Song>)
    requires Intact(s, end) && RangeSafe(s, start, end, paused)
    ensures RangeRemoved(s, start, end, paused, prev, m, prev')
    decreases end
  {
    hide Removed, Consistent, DeleteAborts, IsPlaying;
    m, prev' := s, prev;
    if start < end {
      var v := RemoveOutcome(s, end - 1, paused);
      assert RemovedBefore(s, end, paused, v);
      m, prev' := RemoveRangeOutcome(v, start, end - 1, paused, if IsPlaying(s, end - 1) then None else prev);
    }
  }
}

/**
 What the playlist operations keep: the order numbers stay valid, and
 `current` goes on denoting the same song while the queue changes under it.
 */
module PlaylistProofs {
  import opened Basics
  import opened Permutations
  import opened QueueSpec
  import opened PriorityOrder
  import opened PlaylistSpec
  import QueueRuns

  /** The current song, if there is one, is still the current song. */
  ghost predicate SameSong(s: State, s': State)
    requires Consistent(s.queue) && Consistent(s'.queue)
    requires s.current < |s.queue.items| && s'.current < |s'.queue.items|
  {
    s.current >= 0 ==>
      s'.current >= 0 && IdAt(s'.queue, s'.current) == IdAt(s.queue, s.current)
  }

  lemma Bumped(q: Queue)
    requires Consistent(q)
    ensures Consistent(Incremented(q))
    ensures Incremented(q) == q.(version := Incremented(q).version, items := Incremented(q).items)
    ensures Entries(Incremented(q).items) == Entries(q.items)
    ensures forall p :: 0 <= p < |q.items| ==> Incremented(q).items[p].id == q.items[p].id
  {
    QueueRuns.ApplyConsistent(q, QueueRuns.IncrementVersion);
  }

  // ---- playlist_update_queued_song() ----

  /** Choosing the queued song keeps everything else, whatever the reshuffle. */
  lemma UpdatedKeeps(s: State, prev: Option<Song>, s': State)
    requires UpdateEntry(s, prev) && Updated(s, prev, s') && (!s.playing ==> s.queued == -1)
    ensures WellFormed(s') && SameSong(s, s')
    ensures s'.queue.items == s.queue.items && s'.playing == s.playing
    ensures s'.queue == s.queue.(order := s'.queue.order)
    ensures s.playing ==> s'.queued == NextOrder(s.queue, s.current)
    ensures !s.queue.random || !s.playing ==> s'.queue == s.queue && s'.current == s.current
  {
  }

  /** A new version, then a new queued song. */
  lemma RefreshedKeeps(s: State, prev: Option<Song>, s': State)
    requires Consistent(s.queue) && s.current < |s.queue.items|
    requires Refreshed(s, prev, s') && (!s.playing ==> s.queued == -1)
    ensures WellFormed(s') && SameSong(s, s')
    ensures Entries(s'.queue.items) == Entries(s.queue.items) && s'.playing == s.playing
    ensures !s.queue.random || !s.playing ==> s'.queue == Incremented(s.queue) && s'.current == s.current
    ensures s'.queue.random == s.queue.random
    ensures s.playing && !s.queue.random ==> s'.queued == NextOrder(s'.queue, s'.current)
  {
    Bumped(s.queue);
    hide Incremented, Updated;
    UpdatedKeeps(s.(queue := Incremented(s.queue)), prev, s');
  }

  lemma FinishedIsRefreshed(s: State, prev: Option<Song>, s': State)
    requires UpdateEntry(s, prev)
    ensures Finished(s, prev, s') <==> Refreshed(s, prev, s')
  {
    Bumped(s.queue);
  }

  // ---- playlist_append_song() ----

  lemma AppendedConsistent(s: State, song: Song, id: nat, r: nat)
    requires WellFormed(s) && forall p :: 0 <= p < |s.queue.items| ==> s.queue.items[p].id != id
    ensures Consistent(AppendedQueue(s, song, id, r))
  {
    QueueRuns.AppendedConsistent(s.queue, Item(song, id, s.queue.version, 0));
  }

  /** Every append keeps the playlist well formed and leaves the other songs alone. */
  lemma AppendKeeps(s: State, song: Song, id: nat, r: nat, s': State)
    requires WellFormed(s) && Appended(s, song, id, r, s')
    ensures WellFormed(s') && s'.playing == s.playing && s'.queue.random == s.queue.random
    ensures Entries(s'.queue.items) == Entries(s.queue.items) + [Entry(song, id, 0)]
    ensures SameSong(s.(queue := AppendedQueue(s, song, id, r)), s')
    ensures s.playing && !s.queue.random ==> s'.queued == NextOrder(s'.queue, s'.current)
    ensures !s.queue.random ==> s'.current == s.current
  {
    AppendedDrawn(s, song, id, r, s');
    AppendedConsistent(s, song, id, r);
    var s1 := s.(queue := AppendedQueue(s, song, id, r));
    assert Entries(s1.queue.items) == Entries(s.queue.items) + [Entry(song, id, 0)];
    assert Refreshed(s1, QueuedSong(s), s');
    hide Refreshed, Appended, Consistent;
    RefreshedKeeps(s1, QueuedSong(s), s');
  }

  lemma AppendedDrawn(s: State, song: Song, id: nat, r: nat, s': State)
    requires WellFormed(s) && Appended(s, song, id, r, s')
    ensures forall p :: 0 <= p < |s.queue.items| ==> s.queue.items[p].id != id
    ensures s.queue.random ==> (if s.queued >= 0 then s.queued + 1 else s.current + 1) <= r <= |s.queue.items|
  {
  }

  /** May the draw of the new song's order number displace the current song? */
  predicate MayDisplace(s: State) {
    s.queue.random && s.current >= 0 && s.queued >= 0 && s.current > s.queued
  }

  /** `current` denotes the same song after an append, unless the draw displaces it. */
  lemma AppendKeepsCurrent(s: State, song: Song, id: nat, r: nat, s': State)
    requires WellFormed(s) && Appended(s, song, id, r, s')
    ensures WellFormed(s')
    ensures SameSong(s, s') <==> !(MayDisplace(s) && r == s.current)
  {
    hide Appended;
    AppendKeeps(s, song, id, r, s');
    AppendedDrawn(s, song, id, r, s');
    AppendedConsistent(s, song, id, r);
    if s.current >= 0 {
      var q1 := AppendedQueue(s, song, id, r);
      if MayDisplace(s) && r == s.current {
        assert IdAt(q1, s.current) == id != IdAt(s.queue, s.current);
      } else {
        assert IdAt(q1, s.current) == IdAt(s.queue, s.current);
      }
    }
  }

  // ---- playlist_swap_songs() ----

  lemma SwappedQueueConsistent(q: Queue, i: nat, j: nat)
    requires Consistent(q) && i < |q.items| && j < |q.items|
    ensures Consistent(SwappedQueue(q, i, j))
  {
    QueueRuns.SwappedConsistent(q, i, j);
    if q.random {
      SwapKeepsPermutation(q.order, IndexOf(q.order, i), IndexOf(q.order, j));
    }
  }

  lemma SwapFollows(q: Queue, c: nat, i: nat, j: nat)
    requires Consistent(q) && i < |q.items| && j < |q.items| && c < |q.items|
    ensures Consistent(SwappedQueue(q, i, j))
    ensures 0 <= SwappedCurrent(q, c, i, j) < |q.items|
    ensures IdAt(SwappedQueue(q, i, j), SwappedCurrent(q, c, i, j)) == IdAt(q, c)
  {
    SwappedQueueConsistent(q, i, j);
  }

  lemma SwapKeepsCurrent(s: State, i: nat, j: nat, s': State)
    requires WellFormed(s) && i < |s.queue.items| && j < |s.queue.items| && SongsSwapped(s, i, j, s')
    ensures WellFormed(s') && SameSong(s, s') && s'.playing == s.playing && s'.queue.random == s.queue.random
    ensures Entries(s'.queue.items) == Swapped(Entries(s.queue.items), i, j)
    ensures s.playing && !s.queue.random ==> s'.queued == NextOrder(s'.queue, s'.current)
  {
    var s1 := s.(queue := SwappedQueue(s.queue, i, j), current := SwappedCurrent(s.queue, s.current, i, j));
    SwappedQueueConsistent(s.queue, i, j);
    SwappedEntries(s.queue.items, i, j, s.queue.version);
    if s.current >= 0 { SwapFollows(s.queue, s.current, i, j); }
    assert Refreshed(s1, QueuedSong(s), s');
    hide Refreshed, Consistent;
    RefreshedKeeps(s1, QueuedSong(s), s');
  }

  // ---- playlist_set_priority() ----

  lemma PriorityKeepsCurrent(s: State, start: nat, end: nat, priority: Priority, o: seq<nat>, s': State)
    requires WellFormed(s) && start < end <= |s.queue.items| && PrioritySet(s, start, end, priority, o, s')
    ensures WellFormed(s') && SameSong(s, s') && s'.playing == s.playing && s'.queue.random == s.queue.random
    ensures s.playing && !s.queue.random ==> s'.queued == NextOrder(s'.queue, s'.current)
    ensures Entries(s'.queue.items) == Entries(SetPriorityBetween(s.queue.items, start, end, priority, s.queue.version))
  {
    var items := SetPriorityBetween(s.queue.items, start, end, priority, s.queue.version);
    var q := s.queue.(items := items, order := o);
    QueueRuns.SameIdsConsistent(s.queue, items);
    var s1 := s.(queue := q, current := OrderOf(o, CurrentPosition(s)));
    assert Consistent(q) && SameSong(s, s1);
    assert Refreshed(s1, QueuedSong(s), s');
    hide Refreshed, Consistent, SetPriorityBetween;
    RefreshedKeeps(s1, QueuedSong(s), s');
  }

  lemma PrioritiesInOrder(s: State, start: nat, end: nat, priority: Priority, o: seq<nat>, position: int)
    requires WellFormed(s) && start < end <= |s.queue.items| && position == CurrentPosition(s)
    requires |o| == |s.queue.items| && IsPermutation(o) && -1 <= position < |o|
    requires s.queue.random ==> RangePlayedAgain(s.queue.items, s.queue.order, o, start, end, priority, position)
    requires s.queue.random && TailDescending(s.queue.items, s.queue.order, position) ==>
               TailDescending(SetPriorityBetween(s.queue.items, start, end, priority, s.queue.version), o, position)
    ensures PrioritiesOrdered(s, start, end, priority, o)
  {
  }

  // ---- playlist_move_range() ----

  /** The songs that the code forgets to follow: between the target and the end of the moved block. */
  predicate LosesTrack(c: int, start: nat, end: nat, to: int) {
    end <= c && to < c < to + (end - start)
  }

  lemma MovedCurrentFollows(s: seq<Item>, c: nat, start: nat, end: nat, to: nat, version: nat)
    requires DistinctIds(s) && start <= end <= |s| && to + (end - start) <= |s| && c < |s|
    ensures 0 <= MovedCurrent(c, start, end, to) < |s|
    ensures MovedItems(s, start, end, to, version)[MovedCurrent(c, start, end, to)].id == s[c].id
            <==> !LosesTrack(c, start, end, to)
  {
    hide MovedItems, DistinctIds;
    QueueRuns.MovedIdAt(s, start, end, to, version, c);
    QueueRuns.MovedDistinct(s, start, end, to, version);
    var r, i, j := MovedItems(s, start, end, to, version), MovedPosition(c, start, end, to), MovedCurrent(c, start, end, to);
    assert i == j <==> !LosesTrack(c, start, end, to);
    if i != j { DistinctAt(r, i, j); }
  }

  lemma DistinctAt(s: seq<Item>, i: nat, j: nat)
    requires DistinctIds(s) && i < |s| && j < |s| && i != j
    ensures s[i].id != s[j].id
  {
  }

  /**
   `current` denotes the same song after a move, always in random mode, and in
   sequential mode exactly when the adjustment does not lose track of it.
   */
  lemma MoveKeepsCurrent(s: State, start: nat, end: nat, to: nat, s': State)
    requires WellFormed(s) && start <= end <= |s.queue.items| && to + (end - start) <= |s.queue.items|
    requires RangeMoved(s, start, end, to, s')
    ensures WellFormed(s') && s'.playing == s.playing && s'.queue.random == s.queue.random
    ensures SameSong(s, s') <==> s.queue.random || s.current < 0 || !LosesTrack(s.current, start, end, to)
    ensures Entries(s'.queue.items) == Splice(Entries(s.queue.items), start, end, to)
    ensures s.playing && !s.queue.random ==> s'.queued == NextOrder(s'.queue, s'.current)
  {
    var q := MovedQueue(s.queue, start, end, to);
    QueueRuns.MoveKeepsPlayOrder(s.queue, start, end, to);
    assert q == QueueRuns.Apply(s.queue, QueueRuns.MoveRange(start, end, to));
    var s1 := s.(queue := q,
                 current := if s.queue.random then s.current else MovedCurrent(s.current, start, end, to));
    if s.current >= 0 {
      if s.queue.random {
        assert PlayIds(q)[s.current] == PlayIds(s.queue)[s.current];
      } else {
        MovedCurrentFollows(s.queue.items, s.current, start, end, to, s.queue.version);
      }
    }
    hide Refreshed, Consistent, MovedQueue, Splice;
    RefreshedKeeps(s1, QueuedSong(s), s');
  }

  /** The two families of moves that never lose track: one song, or towards the front. */
  lemma SafeMoves(c: int, start: nat, end: nat, to: int)
    requires end == start + 1 || to < start
    ensures !LosesTrack(c, start, end, to)
  {
  }

  /** An absolute move is refused exactly if the range or its target does not lie in the queue. */
  lemma MoveRefusedExactlyWhen(s: State, start: nat, end: nat, to: int)
    requires WellFormed(s) && start < end <= UINT_MAX && 0 <= to < 0x8000_0000 && |s.queue.items| < 0x4000_0000
    ensures DecideMove(s, start, end, to).OutOfRange? <==>
            end > |s.queue.items| || to + (end - start) > |s.queue.items|
  {
  }

  /** A relative move is refused exactly if the range does not lie in the queue or the offset is larger than it. */
  lemma RelativeMoveRefusedExactlyWhen(s: State, start: nat, end: nat, to: int)
    requires WellFormed(s) && start < end <= UINT_MAX && -0x8000_0000 <= to < 0 && |s.queue.items| < 0x4000_0000
    ensures DecideMove(s, start, end, to).OutOfRange? <==> end > |s.queue.items| || -to > |s.queue.items|
  {
  }

  /** An accepted move goes to a place in the queue exactly when the target is known and leaves room. */
  lemma MoveTargetFits(s: State, start: nat, end: nat, to: int)
    requires WellFormed(s) && start < end <= UINT_MAX && -0x8000_0000 <= to < 0x8000_0000
    requires |s.queue.items| < 0x4000_0000
    requires DecideMove(s, start, end, to).MoveTo?
    ensures var d := DecideMove(s, start, end, to);
            var t := if s.current >= 0 then (CurrentPosition(s) - to) % |s.queue.items| else 0;
            0 <= d.to && d.to + (end - start) <= |s.queue.items| <==>
            to >= 0 || (s.current >= 0 && t + (end - start) <= |s.queue.items| + if start < t then 1 else 0)
    ensures end == start + 1 && s.current >= 0 ==>
              0 <= DecideMove(s, start, end, to).to < |s.queue.items|
  {
  }

  /** Which moves do nothing, and that an absolute target is taken as it is. */
  lemma MoveDecided(s: State, start: nat, end: nat, to: int)
    requires WellFormed(s) && start < end <= UINT_MAX && -0x8000_0000 <= to < 0x8000_0000
    requires |s.queue.items| < 0x4000_0000 && !DecideMove(s, start, end, to).OutOfRange?
    ensures DecideMove(s, start, end, to).Nothing? <==>
            to == start || (to < 0 && 0 <= s.current && start <= CurrentPosition(s) < end)
    ensures DecideMove(s, start, end, to).MoveTo? && (to >= 0 || s.current < 0) ==>
              DecideMove(s, start, end, to).to == to
  {
  }

  /** The position that a relative move counts to, from the current song and around the end. */
  function RelativeTarget(s: State, to: int): nat
    requires WellFormed(s) && 0 <= s.current
  {
    (CurrentPosition(s) - to) % |s.queue.items|
  }

  /** The moved songs end up right before the song that was at position `t`. */
  predicate LandsBefore(t: nat, start: nat, end: nat, to: nat)
    requires start <= end
  {
    MovedPosition(t, start, end, to) == to + (end - start)
  }

  /**
   A relative move promises to put the songs right before the one at the position counted to.
   It does so exactly if that song comes before them, or it is only one song that moves.
   */
  lemma RelativeMoveLands(s: State, start: nat, end: nat, to: int)
    requires WellFormed(s) && start < end <= UINT_MAX && -0x8000_0000 <= to < 0 <= s.current
    requires |s.queue.items| < 0x4000_0000 && DecideMove(s, start, end, to).MoveTo?
    requires var t := RelativeTarget(s, to); !(start <= t < end)
    ensures var d, t := DecideMove(s, start, end, to), RelativeTarget(s, to);
            0 <= d.to && (LandsBefore(t, start, end, d.to) <==> t < start || end == start + 1)
  {
  }

  /** One song, moved by -1, ends up right after the current song; moved by the length, right before it. */
  lemma MovesNextToCurrent(s: State, start: nat, to: int)
    requires WellFormed(s) && start < UINT_MAX && -0x8000_0000 <= to < 0 <= s.current
    requires |s.queue.items| < 0x4000_0000 && DecideMove(s, start, start + 1, to).MoveTo?
    ensures var d, c, n := DecideMove(s, start, start + 1, to), CurrentPosition(s), |s.queue.items|;
            && 0 <= d.to < n
            && (to == -1 && c + 1 < n ==> d.to == MovedPosition(c, start, start + 1, d.to) + 1)
            && (to == -n ==> d.to + 1 == MovedPosition(c, start, start + 1, d.to))
  {
    var c, n := CurrentPosition(s), |s.queue.items|;
    if to == -1 && c + 1 < n { SmallModulo(c + 1, n); }
    if to == -n { WholeTurn(c, n); }
  }

  /** One song other than the current one, moved relative to it, is afterwards followed by the song counted to. */
  lemma RelativeMoveResult(s: State, start: nat, to: int, s': State)
    requires WellFormed(s) && start < UINT_MAX && -0x8000_0000 <= to < 0 <= s.current
    requires |s.queue.items| < 0x4000_0000 && DecideMove(s, start, start + 1, to).MoveTo?
    requires start < |s.queue.items| && 0 <= DecideMove(s, start, start + 1, to).to < |s.queue.items|
    requires RangeMoved(s, start, start + 1, DecideMove(s, start, start + 1, to).to, s')
    requires RelativeTarget(s, to) != start
    ensures var d := DecideMove(s, start, start + 1, to).to;
            && d + 1 < |s'.queue.items| == |s.queue.items|
            && EntryOf(s'.queue.items[d]) == EntryOf(s.queue.items[start])
            && EntryOf(s'.queue.items[d + 1]) == EntryOf(s.queue.items[RelativeTarget(s, to)])
  {
    hide DecideMove, RelativeTarget, RangeMoved, Splice;
    var d, t := DecideMove(s, start, start + 1, to).to, RelativeTarget(s, to);
    RelativeDecision(s, start, to);
    MoveKeepsCurrent(s, start, start + 1, d, s');
    SpliceOne(Entries(s.queue.items), start, t);
  }

  lemma RelativeDecision(s: State, start: nat, to: int)
    requires WellFormed(s) && start < UINT_MAX && -0x8000_0000 <= to < 0 <= s.current
    requires |s.queue.items| <= UINT_MAX && DecideMove(s, start, start + 1, to).MoveTo?
    ensures var t := RelativeTarget(s, to);
            && t < |s.queue.items|
            && DecideMove(s, start, start + 1, to).to == if start < t then t - 1 else t
  {
  }

  lemma SpliceOne<T>(s: seq<T>, start: nat, t: nat)
    requires start < |s| && t < |s| && t != start
    ensures var d := if start < t then t - 1 else t;
            var s' := Splice(s, start, start + 1, d);
            |s'| == |s| && s'[d] == s[start] && s'[d + 1] == s[t]
  {
  }

  lemma SmallModulo(a: nat, n: nat)
    requires a < n
    ensures a % n == a
  {
  }

  lemma WholeTurn(a: nat, n: nat)
    requires a < n
    ensures (a + n) % n == a
  {
  }

  // ---- playlist_delete_internal() ----

  lemma DeletedQueueConsistent(q: Queue, p: nat)
    requires Consistent(q) && p < |q.items|
    ensures Consistent(DeletedQueue(q, p))
    ensures Entries(DeletedQueue(q, p).items) == RemoveAt(Entries(q.items), p)
    ensures PlayIds(DeletedQueue(q, p)) == RemoveAt(PlayIds(q), IndexOf(q.order, p))
  {
    assert DeletedQueue(q, p) == QueueRuns.Apply(q, QueueRuns.Delete(p));
    QueueRuns.DeleteRemovesOneId(q, p);
  }

  /** Every other song is found one order number lower if it came after the deleted one. */
  lemma DeleteFollows(q: Queue, p: nat, c: nat)
    requires Consistent(q) && p < |q.items| && c < |q.items| && c != IndexOf(q.order, p)
    ensures Consistent(DeletedQueue(q, p))
    ensures var c' := if c > IndexOf(q.order, p) then c - 1 else c;
            0 <= c' < |DeletedQueue(q, p).items| && IdAt(DeletedQueue(q, p), c') == IdAt(q, c)
  {
    DeletedQueueConsistent(q, p);
    var c' := if c > IndexOf(q.order, p) then c - 1 else c;
    assert PlayIds(DeletedQueue(q, p))[c'] == PlayIds(q)[c];
  }

  /** The one deletion after which an old order number is used with a new order. */
  ghost predicate UsesStaleOrder(s: State, p: nat, paused: bool)
    requires Consistent(s.queue) && p < |s.queue.items|
  {
    s.queue.random && IsPlaying(s, p) && paused
  }

  /** Deleting the song neither aborts nor uses an order number from before a shuffle. */
  ghost predicate DeleteSafe(s: State, p: nat, paused: bool)
    requires Consistent(s.queue) && p < |s.queue.items|
  {
    !DeleteAborts(s, p) && !UsesStaleOrder(s, p, paused)
  }

  lemma VacatedKeeps(s: State, p: nat, paused: bool, m: State)
    requires Consistent(s.queue) && p < |s.queue.items| && -1 <= s.current < |s.queue.items|
    requires !DeleteAborts(s, p) && !UsesStaleOrder(s, p, paused) && Vacated(s, p, paused, m)
    ensures m.queue == s.queue && m.current != IndexOf(s.queue.order, p) && -1 <= m.current < |s.queue.items|
    ensures s.current != IndexOf(s.queue.order, p) ==> m == s
    ensures s.current == IndexOf(s.queue.order, p) ==>
              m.current == if s.playing then Successor(s) else -1
    ensures IsPlaying(s, p) ==> m.queued == -1 && (m.playing <==> Successor(s) >= 0 && !paused)
    ensures !IsPlaying(s, p) ==> m.queued == s.queued && m.playing == s.playing
  {
  }

  /** The song that is current once position `p` has been deleted, as an order number of the old queue. */
  ghost function CurrentAfterDelete(s: State, p: nat): int
    requires Consistent(s.queue) && p < |s.queue.items| && -1 <= s.current < |s.queue.items|
  {
    if s.current != IndexOf(s.queue.order, p) then s.current
    else if s.playing then Successor(s)
    else -1
  }

  /** Deletion removes one entry, and `current` moves on only if its own song is deleted. */
  lemma RemovedKeeps(s: State, p: nat, paused: bool, s': State)
    requires Consistent(s.queue) && p < |s.queue.items| && -1 <= s.current < |s.queue.items|
    requires !DeleteAborts(s, p) && !UsesStaleOrder(s, p, paused) && Removed(s, p, paused, s')
    ensures Consistent(s'.queue) && -1 <= s'.current < |s'.queue.items|
    ensures s'.queue == DeletedQueue(s.queue, p)
    ensures Entries(s'.queue.items) == RemoveAt(Entries(s.queue.items), p)
    ensures SameSong(s.(current := CurrentAfterDelete(s, p)), s')
    ensures CurrentAfterDelete(s, p) < 0 ==> s'.current == -1
    ensures IsPlaying(s, p) ==> s'.queued == -1 && (s'.playing <==> Successor(s) >= 0 && !paused)
    ensures !IsPlaying(s, p) ==> s'.queued == s.queued && s'.playing == s.playing
  {
    var n := IndexOf(s.queue.order, p);
    hide Vacated, IsPermutation, DistinctIds, IsIdentity, DeletedItems, WithoutEntry, SameSong;
    var m :| Vacated(s, p, paused, m) && Consistent(m.queue) && |m.queue.items| == |s.queue.items|
      && s' == m.(queue := DeletedQueue(m.queue, p), current := if m.current > n then m.current - 1 else m.current);
    VacatedKeeps(s, p, paused, m);
    RemovalFollows(s, p, m, s');
  }

  lemma RemovalFollows(s: State, p: nat, m: State, s': State)
    requires Consistent(s.queue) && p < |s.queue.items| && -1 <= s.current < |s.queue.items|
    requires m.queue == s.queue && m.current == CurrentAfterDelete(s, p) != IndexOf(s.queue.order, p)
    requires s'.queue == DeletedQueue(s.queue, p)
    requires s'.current == if m.current > IndexOf(s.queue.order, p) then m.current - 1 else m.current
    ensures Consistent(s'.queue) && -1 <= s'.current < |s'.queue.items|
    ensures Entries(s'.queue.items) == RemoveAt(Entries(s.queue.items), p)
    ensures SameSong(s.(current := CurrentAfterDelete(s, p)), s')
    ensures CurrentAfterDelete(s, p) < 0 ==> s'.current == -1
  {
    DeletedQueueConsistent(s.queue, p);
    if m.current >= 0 {
      DeleteFollows(s.queue, p, m.current);
    }
  }

  lemma DeleteKeepsCurrent(s: State, p: nat, paused: bool, s': State)
    requires WellFormed(s) && p < |s.queue.items| && !DeleteAborts(s, p)
    requires !UsesStaleOrder(s, p, paused) && SongDeleted(s, p, paused, s')
    ensures WellFormed(s') && s'.queue.random == s.queue.random
    ensures Entries(s'.queue.items) == RemoveAt(Entries(s.queue.items), p)
    ensures SameSong(s.(current := CurrentAfterDelete(s, p)), s')
    ensures CurrentAfterDelete(s, p) < 0 ==> s'.current == -1
    ensures s'.playing <==> s.playing && (IsPlaying(s, p) ==> Successor(s) >= 0 && !paused)
    ensures s'.playing && !s.queue.random ==> s'.queued == NextOrder(s'.queue, s'.current)
  {
    var prev := if IsPlaying(s, p) then None else QueuedSong(s);
    var m :| Removed(s, p, paused, m) && Finished(m, prev, s');
    RemovedKeeps(s, p, paused, m);
    hide Removed, Refreshed, Finished;
    RemovedRefreshable(s, p, paused, m);
    FinishedIsRefreshed(m, prev, s');
    RefreshedKeeps(m, prev, s');
  }

  /** When the code would look up the order number -1 while deleting the playing song. */
  lemma DeleteAbortsExactlyWhen(s: State, p: nat)
    requires WellFormed(s) && p < |s.queue.items|
    ensures DeleteAborts(s, p) <==>
      s.queue.random && IsPlaying(s, p) &&
      (|s.queue.items| == 1
       || (s.queue.single && s.queue.repeat && !s.queue.consume)
       || (s.current == |s.queue.items| - 1 && !s.queue.repeat))
  {
  }

  // ---- playlist_shuffle() ----

  /** The range to shuffle and the state to shuffle it in. */
  ghost predicate Inside(s: State, start: nat, end: nat)
    requires s.current < |s.queue.order|
  {
    s.playing && start <= CurrentPosition(s) < end
  }

  lemma PutFirstKeeps(s: State, start: nat)
    requires WellFormed(s) && s.current >= 0 && start < |s.queue.items|
    ensures Consistent(PutFirst(s, start).queue)
    ensures 0 <= PutFirst(s, start).current < |s.queue.items| && SameSong(s, PutFirst(s, start))
    ensures CurrentPosition(PutFirst(s, start)) == start
    ensures Entries(PutFirst(s, start).queue.items) ==
            Swapped(Entries(s.queue.items), start, s.queue.order[s.current])
  {
  }

  /** A shuffle that leaves out the position of the current song keeps the current song. */
  lemma ShuffleAround(s: State, lo: nat, hi: nat, items: seq<Item>)
    requires Consistent(s.queue) && -1 <= s.current < |s.queue.items|
    requires ShuffledItems(s.queue.items, items, lo, hi, s.queue.version) && DistinctIds(items)
    requires !(lo <= CurrentPosition(s) < hi)
    ensures Consistent(s.queue.(items := items))
    ensures SameSong(s, s.(queue := s.queue.(items := items)))
  {
  }

  /** `e'` rearranges the entries at `lo..hi`. */
  ghost predicate RearrangedWithin(e: seq<Entry>, e': seq<Entry>, lo: nat, hi: nat) {
    && lo <= hi <= |e| == |e'|
    && (forall i :: 0 <= i < lo || hi <= i < |e| ==> e'[i] == e[i])
    && multiset(e'[lo..hi]) == multiset(e[lo..hi])
  }

  lemma SwapThenShuffle(e: seq<Entry>, e': seq<Entry>, lo: nat, j: nat, hi: nat)
    requires lo < hi <= |e| && lo <= j < hi && RearrangedWithin(Swapped(e, lo, j), e', lo + 1, hi)
    ensures RearrangedWithin(e, e', lo, hi)
  {
    var m := Swapped(e, lo, j);
    SwappedMultiset(e, lo, j, lo, hi);
    SplitFirst(m, lo, hi);
    SplitFirst(e', lo, hi);
  }

  lemma ShuffleKeepsCurrent(s: State, start: nat, end: nat, items: seq<Item>, s': State)
    requires WellFormed(s) && start + 1 < end <= |s.queue.items| && RangeShuffled(s, start, end, items, s')
    ensures WellFormed(s') && s'.playing == s.playing && s'.queue.random == s.queue.random
    ensures if s.playing then SameSong(s, s') else s'.current == -1
    ensures RearrangedWithin(Entries(s.queue.items), Entries(s'.queue.items), start, end)
    ensures s.playing && !s.queue.random ==> s'.queued == NextOrder(s'.queue, s'.current)
  {
    if Inside(s, start, end) {
      ShuffleInside(s, start, end, items, s');
    } else {
      ShuffleOutside(s, start, end, items, s');
    }
  }

  lemma ShuffleInside(s: State, start: nat, end: nat, items: seq<Item>, s': State)
    requires WellFormed(s) && start + 1 < end <= |s.queue.items| && RangeShuffled(s, start, end, items, s')
    requires Inside(s, start, end)
    ensures WellFormed(s') && s'.playing == s.playing && s'.queue.random == s.queue.random && SameSong(s, s')
    ensures RearrangedWithin(Entries(s.queue.items), Entries(s'.queue.items), start, end)
    ensures !s.queue.random ==> s'.queued == NextOrder(s'.queue, s'.current)
  {
    ShuffledAfterPutFirst(s, start, end, items);
    var s1 := PutFirst(s, start);
    hide Refreshed, PutFirst, ShuffledItems, Consistent, RearrangedWithin;
    RefreshedKeeps(s1.(queue := s1.queue.(items := items)), QueuedSong(s), s');
  }

  lemma ShuffledAfterPutFirst(s: State, start: nat, end: nat, items: seq<Item>)
    requires WellFormed(s) && start + 1 < end <= |s.queue.items| && Inside(s, start, end)
    requires ShuffledItems(PutFirst(s, start).queue.items, items, start + 1, end, s.queue.version)
    requires DistinctIds(items)
    ensures var s1 := PutFirst(s, start);
            var s2 := s1.(queue := s1.queue.(items := items));
            Consistent(s2.queue) && 0 <= s2.current < |items| && SameSong(s, s2)
    ensures RearrangedWithin(Entries(s.queue.items), Entries(items), start, end)
  {
    var s1 := PutFirst(s, start);
    PutFirstKeeps(s, start);
    hide PutFirst, IsPermutation, IsIdentity, DistinctIds;
    ShuffleAround(s1, start + 1, end, items);
    ShuffledIsRearranged(s1.queue.items, items, start + 1, end, s.queue.version);
    SwapThenShuffle(Entries(s.queue.items), Entries(items), start, s.queue.order[s.current], end);
  }

  lemma ShuffledIsRearranged(s: seq<Item>, s': seq<Item>, lo: nat, hi: nat, version: nat)
    requires ShuffledItems(s, s', lo, hi, version)
    ensures RearrangedWithin(Entries(s), Entries(s'), lo, hi)
  {
  }

  lemma ShuffleOutside(s: State, start: nat, end: nat, items: seq<Item>, s': State)
    requires WellFormed(s) && start + 1 < end <= |s.queue.items| && RangeShuffled(s, start, end, items, s')
    requires !Inside(s, start, end)
    ensures WellFormed(s') && s'.playing == s.playing && s'.queue.random == s.queue.random
    ensures if s.playing then SameSong(s, s') else s'.current == -1
    ensures RearrangedWithin(Entries(s.queue.items), Entries(s'.queue.items), start, end)
    ensures s.playing && !s.queue.random ==> s'.queued == NextOrder(s'.queue, s'.current)
  {
    hide Refreshed, PutFirst, IsIdentity, DistinctIds;
    var s1 := if s.playing then s else s.(current := -1);
    ShuffleAround(s1, start, end, items);
    ShuffledIsRearranged(s.queue.items, items, start, end, s.queue.version);
    RefreshedKeeps(s1.(queue := s1.queue.(items := items)), QueuedSong(s), s');
  }

  // ---- modes ----

  lemma RandomKeepsCurrent(s: State, random: bool, q: Queue, s': State)
    requires WellFormed(s) && random != s.queue.random && RandomSet(s, random, q, s')
    ensures WellFormed(s') && s'.playing == s.playing && s'.queue.items == s.queue.items
    ensures s'.queue.random == random
    ensures s.playing || !random ==> SameSong(s, s')
    ensures s.playing && !random ==> s'.queued == NextOrder(s'.queue, s'.current)
  {
  }

  lemma ModesKeepCurrent(s: State, repeat: bool, single: bool, s': State)
    requires WellFormed(s) && ModesSet(s, repeat, single, s')
    ensures WellFormed(s') && SameSong(s, s') && s'.playing == s.playing && s'.queue.items == s.queue.items
    ensures s'.queue.random == s.queue.random
    ensures s.playing && !s.queue.random ==> s'.queued == NextOrder(s'.queue, s'.current)
  {
  }

  // ---- playback control ----

  lemma StoppedKeeps(s: State, s': State)
    requires Consistent(s.queue) && -1 <= s.current < |s.queue.items| && (s.playing ==> s.current >= 0)
    requires (!s.playing ==> s.queued == -1) && Stopped(s, s')
    ensures WellFormed(s') && !s'.playing && SameSong(s, s') && s'.queue.items == s.queue.items
    ensures s'.queue == s.queue.(order := s'.queue.order)
    ensures s.playing ==> s'.calls == s.calls + [Stop]
    ensures !s.queue.random ==> s'.queue == s.queue && s'.current == s.current
  {
  }

  /** Playing a song makes exactly that song the current one. */
  lemma PlayedOrderKeeps(s: State, n: nat, s': State)
    requires WellFormed(s) && n < |s.queue.items| && PlayedOrder(s, n, s')
    ensures WellFormed(s') && s'.playing && IdAt(s'.queue, s'.current) == IdAt(s.queue, n)
    ensures s'.queue.items == s.queue.items && s'.queue.random == s.queue.random
    ensures s'.calls == s.calls + [Play(ItemAt(s.queue, n).song)]
  {
  }

  lemma PreviousKeeps(s: State)
    requires WellFormed(s)
    ensures WellFormed(Previous(s)) && Previous(s).playing == s.playing && Previous(s).queue == s.queue
  {
  }

  lemma SkippedKeeps(s: State, s': State)
    requires WellFormed(s) && s.playing && Skipped(s, s')
    ensures WellFormed(s') && s'.queue.items == s.queue.items && s'.queued == -1
    ensures s'.queue == s.queue.(order := s'.queue.order)
    ensures s'.current == NextOrder(s.queue, s.current) && (s'.playing <==> s'.current >= 0)
    ensures s'.calls == s.calls +
              if s'.playing then [Play(ItemAt(s'.queue, s'.current).song)] else [Stop]
    ensures !s.queue.random ==> s'.queue == s.queue
    ensures !s.queue.repeat && s'.playing ==> s'.queue == s.queue
  {
  }

  /** In consume mode the song that `playlist_next()` leaves is not the one it starts. */
  lemma ConsumedIsNotPlaying(s: State, m: State)
    requires WellFormed(s) && s.playing && s.queue.consume && Skipped(s, m)
    ensures WellFormed(m) && |m.queue.items| == |s.queue.items|
    ensures var p := m.queue.order[s.current];
            p < |m.queue.items| && IndexOf(m.queue.order, p) == s.current
            && !IsPlaying(m, p) && !DeleteAborts(m, p) && m.current != s.current
  {
  }

  /** `playlist_next()` keeps the playlist well formed in every mode. */
  lemma AdvancedKeeps(s: State, paused: bool, s': State)
    requires WellFormed(s) && Advanced(s, paused, s')
    ensures WellFormed(s') && s'.queue.random == s.queue.random
    ensures s.playing ==> (s'.playing <==> NextOrder(s.queue, s.current) >= 0)
  {
    hide Skipped, SongDeleted, DeleteAborts;
    if s.playing {
      if s.queue.consume {
        var m :| Skipped(s, m) && WellFormed(m) && |m.queue.items| == |s.queue.items|
          && var p := m.queue.order[s.current];
             p < |m.queue.items| && !DeleteAborts(m, p) && SongDeleted(m, p, paused, s');
        ConsumedKeeps(s, m, paused, s');
      } else {
        SkippedKeeps(s, s');
      }
    }
  }

  lemma ConsumedKeeps(s: State, m: State, paused: bool, s': State)
    requires WellFormed(s) && s.playing && s.queue.consume && Skipped(s, m)
    requires WellFormed(m) && |m.queue.items| == |s.queue.items| && m.queue.order[s.current] < |m.queue.items|
    requires !DeleteAborts(m, m.queue.order[s.current])
    requires SongDeleted(m, m.queue.order[s.current], paused, s')
    ensures WellFormed(s') && SameSong(m, s') && s'.queue.random == s.queue.random
    ensures s'.playing <==> NextOrder(s.queue, s.current) >= 0
    ensures m.current < 0 ==> s'.current == -1
    ensures Entries(s'.queue.items) == RemoveAt(Entries(s.queue.items), m.queue.order[s.current])
    ensures s'.playing && !s.queue.random ==> s'.queued == NextOrder(s'.queue, s'.current)
  {
    SkippedKeeps(s, m);
    ConsumedIsNotPlaying(s, m);
    hide Skipped, SongDeleted, Consistent, Successor;
    var p := m.queue.order[s.current];
    assert CurrentAfterDelete(m, p) == m.current;
    DeleteKeepsCurrent(m, p, paused, s');
  }

  lemma ClearedKeeps(s: State, s': State)
    requires WellFormed(s) && Cleared(s, s')
    ensures WellFormed(s') && s'.queue.items == [] && !s'.playing && s'.queue.random == s.queue.random
  {
    var m :| Stopped(s, m) && s' == m.(queue := Incremented(m.queue.(items := [], order := [])), current := -1);
    StoppedKeeps(s, m);
    QueueRuns.ApplyConsistent(m.queue, QueueRuns.Clear);
    Bumped(m.queue.(items := [], order := []));
  }

  // ---- playlist_delete_range() ----

  lemma QueuedIsPending(s: State)
    requires WellFormed(s)
    ensures Pending(s, QueuedSong(s))
  {
  }

  /** Between two deletions; `current` may be past the end once playback has stopped. */
  ghost predicate Unfinished(s: State, prev: Option<Song>) {
    && Consistent(s.queue) && -1 <= s.current
    && (s.playing ==> UpdateEntry(s, prev)) && (!s.playing ==> s.queued == -1)
  }

  lemma UnfinishedByDelete(s: State, p: nat, paused: bool, prev: Option<Song>, m: State)
    requires Unfinished(s, prev) && p < |s.queue.items| && !DeleteAborts(s, p) && Removed(s, p, paused, m)
    ensures Unfinished(m, if IsPlaying(s, p) then None else prev) && |m.queue.items| == |s.queue.items| - 1
  {
    if s.playing {
      if UsesStaleOrder(s, p, paused) {
        StaleRemoved(s, p, paused, m);
      } else {
        RemovedKeeps(s, p, paused, m);
      }
    } else {
      DeletedQueueConsistent(s.queue, p);
    }
  }

  /** Does the range spare the playing song of a random-mode playlist? */
  ghost predicate SparesRandom(s: State, start: nat, end: nat)
    requires s.current < |s.queue.order|
  {
    s.queue.random && s.playing ==> !(start <= CurrentPosition(s) < end)
  }

  /** Can the songs before position `end` be deleted one after the other? */
  ghost predicate Intact(s: State, end: nat) {
    Consistent(s.queue) && -1 <= s.current < |s.queue.items| && end <= |s.queue.items|
  }

  /** Every deletion of `playlist_delete_range()`, from the last song to the first, leaves valid order numbers. */
  ghost predicate RangeSafe(s: State, start: nat, end: nat, paused: bool)
    requires Intact(s, end)
    decreases end
  {
    end <= start ||
    (!DeleteAborts(s, end - 1) &&
     forall m :: RemovedBefore(s, end, paused, m) ==> Intact(m, end - 1) && RangeSafe(m, start, end - 1, paused))
  }

  /** A range without the playing song is safe, and outside random mode every range is. */
  lemma {:induction false} SparedRangeIsSafe(s: State, start: nat, end: nat, paused: bool)
    requires Intact(s, end) && SparesRandom(s, start, end)
    ensures RangeSafe(s, start, end, paused)
    decreases end
  {
    hide Removed, IsPermutation, IsIdentity, DistinctIds, SameSong;
    if start < end {
      forall m | RemovedBefore(s, end, paused, m)
        ensures Intact(m, end - 1) && RangeSafe(m, start, end - 1, paused)
      {
        RemovedKeeps(s, end - 1, paused, m);
        if s.queue.random && s.current >= 0 && CurrentPosition(s) != end - 1 {
          RemovedPosition(s, end - 1, paused, m);
        }
        SparedRangeIsSafe(m, start, end - 1, paused);
      }
    }
  }

  /** The paused song of random mode: one song less, and playback has stopped. */
  lemma StaleRemoved(s: State, p: nat, paused: bool, m: State)
    requires Consistent(s.queue) && p < |s.queue.items| && -1 <= s.current < |s.queue.items|
    requires !DeleteAborts(s, p) && UsesStaleOrder(s, p, paused) && Removed(s, p, paused, m)
    ensures !m.playing && m.queued == -1 && 0 <= m.current <= |m.queue.items|
    ensures Consistent(m.queue) && m.queue.random
    ensures Entries(m.queue.items) == RemoveAt(Entries(s.queue.items), p)
  {
    hide DistinctIds, DeletedItems, WithoutEntry, Descending, Entries, RemoveAt;
    var n := IndexOf(s.queue.order, p);
    var v :| Vacated(s, p, paused, v) && Consistent(v.queue) && |v.queue.items| == |s.queue.items|
      && m == v.(queue := DeletedQueue(v.queue, p), current := if v.current > n then v.current - 1 else v.current);
    DeletedQueueConsistent(v.queue, p);
  }

  lemma RemovedPending(s: State, p: nat, paused: bool, prev: Option<Song>, m: State)
    requires Pending(s, prev) && p < |s.queue.items| && !DeleteAborts(s, p)
    requires Removed(s, p, paused, m) && m.current < |m.queue.items|
    ensures Pending(m, if IsPlaying(s, p) then None else prev)
    ensures m.queue.random == s.queue.random
    ensures Entries(m.queue.items) == RemoveAt(Entries(s.queue.items), p)
    ensures m.playing ==> s.playing
    ensures s.current >= 0 && CurrentPosition(s) != p ==>
              m.current >= 0 && SameSong(s, m) && CurrentPosition(m) == Renumber(CurrentPosition(s), p)
  {
    if UsesStaleOrder(s, p, paused) {
      StaleRemoved(s, p, paused, m);
    } else {
      hide Removed;
      RemovedKeeps(s, p, paused, m);
      if s.current >= 0 && CurrentPosition(s) != p {
        RemovedPosition(s, p, paused, m);
      }
    }
  }

  lemma RemovedPosition(s: State, p: nat, paused: bool, m: State)
    requires Consistent(s.queue) && p < |s.queue.items| && 0 <= s.current < |s.queue.items|
    requires s.queue.order[s.current] != p && !DeleteAborts(s, p) && Removed(s, p, paused, m)
    ensures 0 <= m.current < |m.queue.order|
    ensures m.queue.order[m.current] == Renumber(s.queue.order[s.current], p)
  {
    var n := IndexOf(s.queue.order, p);
    var v :| Vacated(s, p, paused, v) && Consistent(v.queue) && |v.queue.items| == |s.queue.items|
      && m == v.(queue := DeletedQueue(v.queue, p), current := if v.current > n then v.current - 1 else v.current);
    assert v == s && Skip(m.current, n) == s.current;
  }

  lemma {:induction false} RangeRemovedKeeps(s: State, start: nat, end: nat, paused: bool, prev: Option<Song>,
                                             s': State, prev': Option<Song>)
    requires Pending(s, prev) && start <= end && Intact(s, end) && RangeSafe(s, start, end, paused)
    requires RangeRemoved(s, start, end, paused, prev, s', prev')
    ensures Pending(s', prev') && s'.queue.random == s.queue.random
    ensures Entries(s'.queue.items) == Entries(s.queue.items)[..start] + Entries(s.queue.items)[end..]
    ensures s.current >= 0 && !(start <= CurrentPosition(s) < end) ==> SameSong(s, s')
    decreases end
  {
    hide Removed, IsPermutation, IsIdentity, DistinctIds, RemoveAt, Entries, DeleteAborts, IsPlaying;
    if end == start {
      assert Entries(s.queue.items) == Entries(s.queue.items)[..start] + Entries(s.queue.items)[end..];
    } else {
      hide SameSong;
      var prev1 := if IsPlaying(s, end - 1) then None else prev;
      var m :| RemovedBefore(s, end, paused, m) && RangeRemoved(m, start, end - 1, paused, prev1, s', prev');
      RemovedPending(s, end - 1, paused, prev, m);
      RemoveLast(Entries(s.queue.items), start, end);
      RangeRemovedKeeps(m, start, end - 1, paused, prev1, s', prev');
      if s.current >= 0 && !(start <= CurrentPosition(s) < end) {
        SameSongTransitive(s, m, s');
      }
    }
  }

  lemma SameSongTransitive(s: State, m: State, s': State)
    requires Consistent(s.queue) && Consistent(m.queue) && Consistent(s'.queue)
    requires s.current < |s.queue.items| && m.current < |m.queue.items| && s'.current < |s'.queue.items|
    requires SameSong(s, m) && (s.current >= 0 ==> SameSong(m, s'))
    ensures SameSong(s, s')
  {
  }

  lemma RemoveLast(e: seq<Entry>, start: nat, end: nat)
    requires start < end <= |e|
    ensures var r := RemoveAt(e, end - 1); r[..start] + r[end - 1..] == e[..start] + e[end..]
  {
  }

  /** Deleting a range cuts it out and keeps the current song if it is outside. */
  lemma DeleteRangeKeeps(s: State, start: nat, end: nat, paused: bool, s': State)
    requires WellFormed(s) && start < end <= |s.queue.items| && RangeSafe(s, start, end, paused)
    requires RangeDeleted(s, start, end, paused, s')
    ensures WellFormed(s') && s'.queue.random == s.queue.random
    ensures Entries(s'.queue.items) == Entries(s.queue.items)[..start] + Entries(s.queue.items)[end..]
    ensures s.current >= 0 && !(start <= CurrentPosition(s) < end) ==> SameSong(s, s')
    ensures s'.playing && !s.queue.random ==> s'.queued == NextOrder(s'.queue, s'.current)
  {
    QueuedIsPending(s);
    hide RangeRemoved, Refreshed, Consistent;
    var m, prev :| RangeRemoved(s, start, end, paused, QueuedSong(s), m, prev) && Finished(m, prev, s');
    RangeRemovedKeeps(s, start, end, paused, QueuedSong(s), m, prev);
    hide Finished;
    FinishedIsRefreshed(m, prev, s');
    RefreshedKeeps(m, prev, s');
  }

  // ---- playlist_seek_song() ----

  /** The failure of seeking another song while a song is queued: the code takes it for not queued. */
  ghost predicate SeekTrips(s: State, p: nat, success: bool)
    requires WellFormed(s) && p < |s.queue.items|
  {
    !success && s.playing && s.queued >= 0 && CurrentPosition(s) != p
  }

  /** Exactly then the entry assertion of `playlist_update_queued_song()` fails. */
  lemma SeekTripsExactlyWhen(s: State, p: nat)
    requires WellFormed(s) && p < |s.queue.items|
    ensures UpdateEntry(Seeking(s, p), AssumedQueued(s, p)) <==> !SeekTrips(s, p, false)
    ensures UpdateEntry(Seeking(s, p).(queued := -1), None) && !SeekTrips(s, p, true)
  {
    if s.current >= 0 {
      assert CurrentPosition(s) == p <==> s.current == IndexOf(s.queue.order, p);
    }
  }

  lemma SeekPosition(s: State, p: nat)
    requires WellFormed(s) && p < |s.queue.items|
    ensures CurrentPosition(s) == p <==> s.current == IndexOf(s.queue.order, p)
  {
  }

  /** Seeking makes the song current, whether the player succeeds or not, and changes nothing in the list. */
  lemma SoughtKeeps(s: State, p: nat, success: bool, s': State)
    requires WellFormed(s) && p < |s.queue.items| && Sought(s, p, success, s')
    ensures WellFormed(s') && s'.playing && s'.queue.items == s.queue.items && s'.queue.random == s.queue.random
    ensures IdAt(s'.queue, s'.current) == s.queue.items[p].id
    ensures !s.queue.random ==> s'.queued == NextOrder(s'.queue, s'.current)
  {
    var s1 := if success then Seeking(s, p).(queued := -1) else Seeking(s, p);
    var prev := if success then None else AssumedQueued(s, p);
    assert IdAt(s1.queue, s1.current) == s.queue.items[p].id;
    hide Updated, DistinctIds;
    UpdatedKeeps(s1, prev, s');
  }

  // ---- playlist_tag_changed() and playlist_increment_version_all() ----

  lemma RetaggedKeeps(s: State)
    requires WellFormed(s)
    ensures WellFormed(Retagged(s)) && SameSong(s, Retagged(s)) && Entries(Retagged(s).queue.items) == Entries(s.queue.items)
    ensures WellFormed(AllRetagged(s)) && SameSong(s, AllRetagged(s))
    ensures Entries(AllRetagged(s).queue.items) == Entries(s.queue.items)
  {
    hide Incremented;
    if s.playing {
      TouchedKeeps(s.queue, s.queue.order[s.current], s.queue.order[s.current] + 1);
    }
    TouchedKeeps(s.queue, 0, |s.queue.items|);
  }

  lemma TouchedKeeps(q: Queue, lo: nat, hi: nat)
    requires Consistent(q) && lo <= hi <= |q.items|
    ensures var q' := Incremented(q.(items := StampRange(q.items, lo, hi, q.version)));
            && Consistent(q') && q' == q.(version := q'.version, items := q'.items)
            && Entries(q'.items) == Entries(q.items)
            && forall p :: 0 <= p < |q.items| ==> q'.items[p].id == q.items[p].id
  {
    QueueRuns.ApplyConsistent(q, QueueRuns.Touch(lo, hi));
    Bumped(q.(items := StampRange(q.items, lo, hi, q.version)));
  }

  // ---- each editing command refreshes the state it has edited ----

  lemma AppendedRefreshed(s: State, song: Song, id: nat, r: nat, s': State)
    requires WellFormed(s) && forall p :: 0 <= p < |s.queue.items| ==> s.queue.items[p].id != id
    requires s.queue.random ==> (if s.queued >= 0 then s.queued + 1 else s.current + 1) <= r <= |s.queue.items|
    requires Refreshed(s.(queue := AppendedQueue(s, song, id, r)), QueuedSong(s), s')
    ensures Appended(s, song, id, r, s')
  {
  }

  lemma SwappedRefreshed(s: State, i: nat, j: nat, s': State)
    requires WellFormed(s) && i < |s.queue.items| && j < |s.queue.items|
    requires Refreshed(s.(queue := SwappedQueue(s.queue, i, j), current := SwappedCurrent(s.queue, s.current, i, j)),
                       QueuedSong(s), s')
    ensures SongsSwapped(s, i, j, s')
  {
  }

  lemma PrioritiesConsistent(s: State, start: nat, end: nat, priority: Priority, o: seq<nat>)
    requires WellFormed(s) && |o| == |s.queue.items| && IsPermutation(o)
    requires !s.queue.random ==> o == s.queue.order
    ensures Consistent(s.queue.(
              items := SetPriorityBetween(s.queue.items, start, end, priority, s.queue.version), order := o))
    ensures -1 <= CurrentPosition(s) < |o|
  {
  }

  lemma PriorityRefreshed(s: State, start: nat, end: nat, priority: Priority, o: seq<nat>, s': State)
    requires WellFormed(s) && start < end <= |s.queue.items| && |o| == |s.queue.items| && IsPermutation(o)
    requires !s.queue.random ==> o == s.queue.order
    requires -1 <= CurrentPosition(s) < |o|
    requires Refreshed(s.(queue := s.queue.(
               items := SetPriorityBetween(s.queue.items, start, end, priority, s.queue.version), order := o),
                          current := OrderOf(o, CurrentPosition(s))), QueuedSong(s), s')
    ensures PrioritySet(s, start, end, priority, o, s')
  {
  }

  lemma VacatedConsistent(s: State, p: nat, paused: bool, m: State)
    requires Consistent(s.queue) && p < |s.queue.items| && -1 <= s.current
    requires !DeleteAborts(s, p) && Vacated(s, p, paused, m)
    ensures Consistent(m.queue) && |m.queue.items| == |s.queue.items| && -1 <= m.current
  {
  }

  /** After every deletion the next song can be chosen. */
  lemma DeletedEntry(s: State, p: nat, paused: bool, m: State)
    requires WellFormed(s) && p < |s.queue.items| && !DeleteAborts(s, p) && Removed(s, p, paused, m)
    ensures m.playing ==> UpdateEntry(m, if IsPlaying(s, p) then None else QueuedSong(s))
  {
    QueuedIsPending(s);
    hide Removed, DeleteAborts, IsPlaying;
    UnfinishedByDelete(s, p, paused, QueuedSong(s), m);
  }

  lemma RemovedRefreshable(s: State, p: nat, paused: bool, m: State)
    requires WellFormed(s) && p < |s.queue.items| && !DeleteAborts(s, p)
    requires !UsesStaleOrder(s, p, paused) && Removed(s, p, paused, m)
    ensures UpdateEntry(m, if IsPlaying(s, p) then None else QueuedSong(s))
  {
    hide Removed;
    RemovedKeeps(s, p, paused, m);
  }

  lemma MovedEntry(s: State, start: nat, end: nat, to: nat)
    requires WellFormed(s) && start <= end <= |s.queue.items| && to + (end - start) <= |s.queue.items|
    ensures UpdateEntry(s.(queue := MovedQueue(s.queue, start, end, to),
                           current := if s.queue.random then s.current else MovedCurrent(s.current, start, end, to)),
                        QueuedSong(s))
  {
    QueueRuns.ApplyConsistent(s.queue, QueueRuns.MoveRange(start, end, to));
    assert MovedQueue(s.queue, start, end, to) == QueueRuns.Apply(s.queue, QueueRuns.MoveRange(start, end, to));
  }

  lemma MoveWithin(s: State, start: nat, end: nat, to: int)
    requires WellFormed(s) && start <= end <= UINT_MAX && -0x8000_0000 <= to < 0x8000_0000
    requires |s.queue.items| <= UINT_MAX && DecideMove(s, start, end, to).MoveTo?
    ensures end <= |s.queue.items|
  {
  }

  lemma IdentityIndex(o: seq<nat>, p: nat)
    requires IsPermutation(o) && p < |o| && IsIdentity(o)
    ensures IndexOf(o, p) == p
  {
  }

  lemma ShuffleEntry(s: State, s1: State, start: nat, end: nat, items: seq<Item>)
    requires WellFormed(s) && start + 1 < end <= |s.queue.items|
    requires s1 == if Inside(s, start, end) then PutFirst(s, start) else if s.playing then s else s.(current := -1)
    requires ShuffledItems(s1.queue.items, items, if Inside(s, start, end) then start + 1 else start, end,
                           s.queue.version)
    requires DistinctIds(items)
    ensures UpdateEntry(s1.(queue := s1.queue.(items := items)), QueuedSong(s))
  {
  }

  lemma RandomEntry(s: State, random: bool, q: Queue)
    requires WellFormed(s) && q == s.queue.(random := random, order := q.order)
    requires |q.order| == |q.items| && IsPermutation(q.order) && (!random ==> IsIdentity(q.order))
    ensures UpdateEntry(s.(queue := q, current := if random then (if s.playing then 0 else -1) else CurrentPosition(s)),
                        QueuedSong(s))
  {
  }

  lemma ModesKeepQueued(s: State, repeat: bool, single: bool)
    requires WellFormed(s)
    ensures WellFormed(s.(queue := s.queue.(repeat := repeat, single := single)))
    ensures QueuedSong(s.(queue := s.queue.(repeat := repeat, single := single))) == QueuedSong(s)
    ensures UpdateEntry(s.(queue := s.queue.(repeat := repeat, single := single)), QueuedSong(s))
  {
  }

  lemma ShuffledRefreshed(s: State, s1: State, start: nat, end: nat, items: seq<Item>, s': State)
    requires WellFormed(s) && start + 1 < end <= |s.queue.items|
    requires s1 == if Inside(s, start, end) then PutFirst(s, start) else if s.playing then s else s.(current := -1)
    requires ShuffledItems(s1.queue.items, items, if Inside(s, start, end) then start + 1 else start, end,
                           s.queue.version)
    requires DistinctIds(items)
    requires Refreshed(s1.(queue := s1.queue.(items := items)), QueuedSong(s), s')
    ensures RangeShuffled(s, start, end, items, s')
  {
  }
}

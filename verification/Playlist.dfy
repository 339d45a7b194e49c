/** The playlist: the commands that edit the queue and control playback. */
module Playlist {
  import opened Basics
  import opened Permutations
  import opened QueueSpec
  import opened QueueArrays
  import opened PriorityOrder
  import opened Shuffles
  import opened PlaylistSpec
  import opened PlaylistProofs
  import opened PlaylistOutcomes
  import opened PlaylistRanges
  import QueueRuns
  import Q = PlayQueue

  datatype Result = Success | BadRange | TooLarge | NotPlaying

  class Playlist {
    const queue: Q.PlayQueue
    var playing: bool
    var stopOnError: bool
    var errorCount: nat
    var current: int
    var queued: int

    /** What the playlist has asked of the player. */
    var calls: seq<Call>

    ghost function Value(): State
      reads this, queue, queue.items, queue.order, queue.idToPosition
      requires queue.Valid()
    {
      State(queue.Value(), playing, current, queued, stopOnError, errorCount, calls)
    }

    /** The arrays are consistent, and the order numbers denote songs. */
    ghost predicate Valid()
      reads this, queue, queue.items, queue.order, queue.idToPosition
    {
      queue.Valid() && WellFormed(Value())
    }

    constructor (maxLength: nat)
      requires HASH_MULT * maxLength <= UINT_MAX
      ensures Valid()
      ensures Value() == State(Queue([], [], 1, false, false, false, false), false, -1, -1, false, 0, [])
    {
      queue := new Q.PlayQueue(maxLength);
      playing, stopOnError, errorCount, current, queued, calls := false, false, 0, -1, -1, [];
    }

    /** `playlist_get_queued_song()` */
    method GetQueuedSong() returns (song: Option<Song>)
      requires Valid()
      ensures song == QueuedSong(Value())
    {
      hide Indexed;
      if !playing || queued < 0 {
        return None;
      }
      assert queue.Value().order[queued] == queue.order[queued];
      return Some(queue.items[queue.order[queued]].song);
    }

    /** `playlist_update_queued_song()` */
    method UpdateQueuedSong(prev: Option<Song>)
      requires queue.Valid() && (playing ==> UpdateEntry(Value(), prev) || NoCurrentEntry(Value(), prev))
      modifies this, queue.order
      ensures queue.Valid() && (!old(playing) ==> Value() == old(Value()))
      ensures old(UpdateEntry(Value(), prev)) ==> Updated(old(Value()), prev, Value())
      ensures old(NoCurrentEntry(Value(), prev)) ==> Value() == FirstQueued(old(Value()), prev)
    {
      hide Indexed, IsPermutation, DistinctIds, IsIdentity;
      if !playing {
        return;
      }
      ghost var s := Value();
      var next := 0;
      if current >= 0 {
        next := NextOrderOf(current);
      }
      if next == 0 && queue.random && !queue.single {
        ShuffleKeepingCurrent();
      }
      ghost var s1 := Value();
      assert s.current >= 0 ==> Kept(s, s1.queue, s1.current);
      AnnounceNext(next, prev);
    }

    /** `queue_next_order()` */
    method NextOrderOf(n: int) returns (next: int)
      requires queue.Valid() && 0 <= n < queue.length
      ensures next == NextOrder(queue.Value(), n)
    {
      if queue.single && queue.repeat && !queue.consume {
        return n;
      } else if n + 1 < queue.length {
        return n + 1;
      } else if queue.repeat && (n > 0 || !queue.consume) {
        return 0;
      } else {
        return -1;
      }
    }

    /** Shuffles the order and lets `current` follow its song. */
    method ShuffleKeepingCurrent()
      requires queue.Valid() && 0 <= current < queue.length
      modifies this`current, queue.order
      ensures queue.Valid() && Reshuffled(old(queue.Value()), queue.Value())
      ensures current == IndexOf(queue.order[..queue.length], old(queue.order[current]))
    {
      hide Indexed, IsPermutation, Descending;
      AfterPositionInRange(queue.order[..queue.length], current);
      var position := queue.order[current];
      var _, _ := queue.ShuffleOrder();
      current := queue.PositionToOrder(position);
    }

    /** Tells the player which song follows, if that has changed. */
    method AnnounceNext(next: int, prev: Option<Song>)
      requires queue.Valid() && -1 <= next < queue.length
      requires -1 <= queued && (queued < 0 <==> prev.None?)
      modifies this`queued, this`calls
      ensures queued == next
      ensures InRange(queue.Value().items, queue.Value().order)
      ensures calls == old(calls) + Announce(prev, SongAt(queue.Value(), next))
    {
      hide Indexed;
      PermutationInRange(queue.Value().items, queue.Value().order);
      var nextSong := None;
      if next >= 0 {
        assert queue.Value().order[next] == queue.order[next];
        nextSong := Some(queue.items[queue.order[next]].song);
      }
      if prev.Some? && nextSong != prev {
        calls := calls + [Cancel];
        queued := -1;
      }
      if next >= 0 {
        queued := next;
        if nextSong != prev {
          calls := calls + [Enqueue(nextSong.value)];
        }
      }
    }

    /** `playlist_play_order()` */
    method PlayOrderNumber(n: int)
      requires queue.Valid() && 0 <= n < queue.length
      modifies this
      ensures InRange(queue.Value().items, queue.Value().order)
      ensures Value() == PlayOrder(old(Value()), n)
    {
      hide Indexed;
      PermutationInRange(queue.Value().items, queue.Value().order);
      assert queue.Value().order[n] == queue.order[n];
      playing := true;
      queued := -1;
      calls := calls + [Play(queue.items[queue.order[n]].song)];
      current := n;
    }

    /** `playlist_stop()` */
    method StopPlayback()
      requires queue.Valid() && Consistent(queue.Value()) && -1 <= current < queue.length
      requires playing && queue.random ==> current >= 0
      modifies this, queue.order
      ensures queue.Valid() && Stopped(old(Value()), Value())
    {
      hide Indexed, IsPermutation, DistinctIds, IsIdentity, Descending;
      if !playing {
        return;
      }
      calls := calls + [Stop];
      queued := -1;
      playing := false;
      if queue.random {
        ShuffleKeepingCurrent();
      }
    }

    /** `playlist_increment_version()`, then a new queued song. */
    method Refresh(prev: Option<Song>)
      requires queue.Valid() && (playing ==> UpdateEntry(Value(), prev))
      modifies this, queue, queue.items, queue.order
      ensures queue.Valid() && old(UpdateEntry(Value(), prev)) ==> Refreshed(old(Value()), prev, Value())
      ensures queue.Valid() && (!old(playing) ==> Value() == old(Value()).(queue := Incremented(old(queue.Value()))))
    {
      hide Indexed, IsPermutation, DistinctIds, IsIdentity, Incremented, Updated;
      if UpdateEntry(Value(), prev) {
        Bumped(queue.Value());
      }
      queue.IncrementVersion();
      UpdateQueuedSong(prev);
    }

    /** Appends the song and, in random mode, draws its order number among the remaining songs. */
    method AppendToQueue(song: Song) returns (id: nat, ghost draw: nat)
      requires Valid() && queue.length < queue.maxLength
      modifies queue, queue.items, queue.order, queue.idToPosition
      ensures queue.Valid() && queue.length == old(queue.length) + 1
      ensures forall p :: 0 <= p < old(queue.length) ==> old(queue.Value()).items[p].id != id
      ensures old(queue.random) ==> (if queued >= 0 then queued + 1 else current + 1) <= draw <= old(queue.length)
      ensures queue.Value() == AppendedQueue(old(Value()), song, id, draw)
    {
      hide Indexed, IsPermutation, DistinctIds, IsIdentity, QueueRuns.Applied;
      draw := 0;
      ghost var s := Value();
      assert forall p :: 0 <= p < |s.queue.items| ==> s.queue.items[p] == queue.items[p];
      id := queue.Append(song, 0);
      if queue.random {
        var start := if queued >= 0 then queued + 1 else current + 1;
        if start < queue.length {
          draw := queue.ShuffleOrderLast(start, queue.length);
        }
      }
    }

    /** `playlist_append_song()` */
    method AppendSong(song: Song) returns (r: Result, id: nat, ghost draw: nat)
      requires Valid()
      modifies this, queue, queue.items, queue.order, queue.idToPosition
      ensures Valid()
      ensures r == if old(queue.length) >= queue.maxLength then TooLarge else Success
      ensures r.TooLarge? ==> Value() == old(Value())
      ensures r.Success? ==> Appended(old(Value()), song, id, draw, Value())
    {
      hide Indexed, IsPermutation, DistinctIds, IsIdentity, Refreshed, AppendedQueue, Appended;
      r, id, draw := TooLarge, 0, 0;
      if queue.length >= queue.maxLength {
        return;
      }
      ghost var s := Value();
      var queuedSong := GetQueuedSong();
      id, draw := AppendToQueue(song);
      AppendedConsistent(s, song, id, draw);
      Refresh(queuedSong);
      AppendedRefreshed(s, song, id, draw, Value());
      AppendKeeps(s, song, id, draw, Value());
      r := Success;
    }

    /** Swaps two songs and lets order numbers follow them. */
    method SwapInQueue(song1: nat, song2: nat)
      requires Valid() && song1 < queue.length && song2 < queue.length
      modifies this`current, queue.items, queue.order, queue.idToPosition
      ensures queue.Valid()
      ensures Value() == var s := old(Value());
                s.(queue := SwappedQueue(s.queue, song1, song2),
                   current := SwappedCurrent(s.queue, s.current, song1, song2))
    {
      hide Indexed, IsPermutation, DistinctIds, IsIdentity, SwappedItems, Swapped;
      queue.Swap(song1, song2);
      if queue.random {
        var n1 := queue.PositionToOrder(song1);
        var n2 := queue.PositionToOrder(song2);
        queue.SwapOrder(n1, n2);
      } else {
        if current == song1 {
          current := song2;
        } else if current == song2 {
          current := song1;
        }
      }
    }

    /** `playlist_swap_songs()` */
    method SwapSongs(song1: nat, song2: nat) returns (r: Result)
      requires Valid()
      modifies this, queue, queue.items, queue.order, queue.idToPosition
      ensures Valid()
      ensures r == if song1 < old(queue.length) && song2 < old(queue.length) then Success else BadRange
      ensures r.BadRange? ==> Value() == old(Value())
      ensures r.Success? ==> SongsSwapped(old(Value()), song1, song2, Value()) && SameSong(old(Value()), Value())
    {
      hide Indexed, IsPermutation, DistinctIds, IsIdentity, Refreshed, SwappedQueue;
      if !(song1 < queue.length) || !(song2 < queue.length) {
        return BadRange;
      }
      ghost var s := Value();
      var queuedSong := GetQueuedSong();
      SwapInQueue(song1, song2);
      SwappedQueueConsistent(s.queue, song1, song2);
      Refresh(queuedSong);
      SwappedRefreshed(s, song1, song2, Value());
      SwapKeepsCurrent(s, song1, song2, Value());
      return Success;
    }

    /** Changes the priorities and lets `current` follow its song. */
    method SetPriorityInQueue(start: nat, end: nat, priority: Priority)
      requires Valid() && start < end <= queue.length
      modifies this`current, queue.items, queue.order
      ensures queue.Valid() && -1 <= CurrentPosition(old(Value())) < queue.length
      ensures !queue.random ==> queue.order[..queue.length] == old(queue.order[..queue.length])
      ensures Value() == var s := old(Value());
                var items := SetPriorityBetween(s.queue.items, start, end, priority, s.queue.version);
                s.(queue := s.queue.(items := items, order := queue.order[..queue.length]),
                   current := OrderOf(queue.order[..queue.length], CurrentPosition(s)))
      ensures PrioritiesOrdered(old(Value()), start, end, priority, queue.order[..queue.length])
    {
      hide Indexed, IsPermutation, DistinctIds, IsIdentity, TailDescending, RangePlayedAgain, SetPriorityBetween,
        PrioritiesOrdered, QueueRuns.Applied;
      ghost var s := Value();
      AfterPositionInRange(s.queue.order, current);
      var position: int := if current >= 0 then queue.order[current] else -1;
      assert position == CurrentPosition(s);
      var _ := queue.SetPriorityRange(start, end, priority, current);
      PrioritiesInOrder(s, start, end, priority, queue.order[..queue.length], position);
      if position >= 0 {
        current := queue.PositionToOrder(position);
      }
    }

    /** `playlist_set_priority()` */
    method SetPriority(start: nat, end: nat, priority: Priority) returns (r: Result, ghost o: seq<nat>)
      requires Valid()
      modifies this, queue, queue.items, queue.order
      ensures Valid()
      ensures r == if start < old(queue.length) then Success else BadRange
      ensures var end' := Min(end, old(queue.length));
              if start < end'
              then && PrioritySet(old(Value()), start, end', priority, o, Value()) && SameSong(old(Value()), Value())
                   && PrioritiesOrdered(old(Value()), start, end', priority, o)
              else Value() == old(Value())
    {
      hide Indexed, IsPermutation, DistinctIds, IsIdentity, Refreshed, PrioritiesOrdered, SetPriorityBetween, Incremented;
      o := [];
      if start >= queue.length {
        return BadRange, o;
      }
      var last := if end > queue.length then queue.length else end;
      if start >= last {
        return Success, o;
      }
      ghost var s := Value();
      var queuedSong := GetQueuedSong();
      SetPriorityInQueue(start, last, priority);
      o := queue.order[..queue.length];
      PrioritiesConsistent(s, start, last, priority, o);
      Refresh(queuedSong);
      PriorityRefreshed(s, start, last, priority, o, Value());
      PriorityKeepsCurrent(s, start, last, priority, o, Value());
      return Success, o;
    }

    /** The part of `playlist_delete_internal()` that takes playback away from the song. */
    method LeaveSong(n: nat, paused: bool) returns (wasPlaying: bool)
      requires queue.Valid() && Consistent(queue.Value()) && -1 <= current && n < queue.length
      requires !DeleteAborts(Value(), queue.order[n])
      modifies this, queue.order
      ensures queue.Valid() && Vacated(old(Value()), old(queue.order[n]), paused, Value())
      ensures wasPlaying == IsPlaying(old(Value()), old(queue.order[n]))
    {
      hide Indexed, IsPermutation, DistinctIds, IsIdentity, Reshuffled;
      ghost var s := Value();
      ghost var p := s.queue.order[n];
      AfterPositionInRange(s.queue.order, n);
      assert IndexOf(s.queue.order, p) == n;
      wasPlaying := playing && current == n;
      if wasPlaying {
        current := NextOrderOf(current);
        if current == n {
          current := -1;
        }
        if current >= 0 && !paused {
          PlayOrderNumber(current);
        } else {
          StopPlayback();
          ghost var m := Value();
          calls := calls + [Stop];
          playing := false;
          assert Stopped(s.(current := Successor(s)), m);
        }
      } else if current == n {
        current := -1;
      }
    }

    /** `playlist_delete_internal()` */
    method DeleteInternal(song: nat, paused: bool, prev: Option<Song>) returns (prev': Option<Song>)
      requires queue.Valid() && Consistent(queue.Value()) && -1 <= current && song < queue.length
      requires !DeleteAborts(Value(), song)
      modifies this, queue, queue.items, queue.order, queue.idToPosition
      ensures queue.Valid() && Removed(old(Value()), song, paused, Value())
      ensures prev' == if IsPlaying(old(Value()), song) then None else prev
    {
      hide Indexed, IsPermutation, DistinctIds, IsIdentity, Vacated, DeleteAborts, WithoutEntry, DeletedItems;
      ghost var s := Value();
      var n := queue.PositionToOrder(song);
      var wasPlaying := LeaveSong(n, paused);
      ghost var m := Value();
      VacatedConsistent(s, song, paused, m);
      queue.Delete(song);
      if current > n {
        current := current - 1;
      }
      assert Value().queue == DeletedQueue(m.queue, song);
      prev' := if wasPlaying then None else prev;
    }

    /** `playlist_delete()` */
    method DeleteSong(song: nat, paused: bool) returns (r: Result)
      requires Valid() && (song < queue.length ==> !DeleteAborts(Value(), song))
      modifies this, queue, queue.items, queue.order, queue.idToPosition
      ensures queue.Valid()
      ensures r == if song < old(queue.length) then Success else BadRange
      ensures r.BadRange? ==> Value() == old(Value())
      ensures r.Success? ==> SongDeleted(old(Value()), song, paused, Value())
      ensures r.Success? && (playing || DeletePermitted(old(Value()), song, paused)) ==> Valid()
    {
      hide Indexed, IsPermutation, DistinctIds, IsIdentity, Refreshed, Removed, DeleteAborts, StaysInside;
      if song >= queue.length {
        return BadRange;
      }
      ghost var s := Value();
      var queuedSong := GetQueuedSong();
      var prev := DeleteInternal(song, paused, queuedSong);
      ghost var m := Value();
      DeletedEntry(s, song, paused, m);
      Refresh(prev);
      assert Removed(s, song, paused, m) && Finished(m, prev, Value());
      if UsesStaleOrder(s, song, paused) {
        StaleRemoved(s, song, paused, m);
      }
      if DeletePermitted(s, song, paused) {
        DeleteKeeps(s, song, paused, Value());
      }
      return Success;
    }

    /** `playlist_delete_range()` */
    method DeleteRange(start: nat, end: nat, paused: bool) returns (r: Result)
      requires Valid()
      requires !NoneFollows(Value(), start, Min(end, queue.length), paused)
      modifies this, queue, queue.items, queue.order, queue.idToPosition
      ensures queue.Valid()
      ensures r == if start < old(queue.length) then Success else BadRange
      ensures var end' := Min(end, old(queue.length));
              if start < end' then RangeDeleted(old(Value()), start, end', paused, Value())
              else Value() == old(Value())
      ensures DeletableRange(old(Value()), start, end, paused) ==> Valid()
    {
      hide Indexed, IsPermutation, DistinctIds, IsIdentity, Refreshed, RangeRemoved, RangeAborts, RangeSafe, Deletable,
        NoneFollows;
      if start >= queue.length {
        return BadRange;
      }
      var last := if end > queue.length then queue.length else end;
      if start >= last {
        return Success;
      }
      ghost var s := Value();
      QueuedIsPending(s);
      RangeAbortsExactlyWhen(s, start, last, paused);
      var queuedSong := GetQueuedSong();
      var prev := RemoveRange(start, last, paused, queuedSong);
      ghost var m := Value();
      Refresh(prev);
      assert RangeRemoved(s, start, last, paused, queuedSong, m, prev) && Finished(m, prev, Value());
      DeletableIsSafe(s, start, last, paused);
      if Deletable(s, start, last, paused) {
        DeleteRangeKeeps(s, start, last, paused, Value());
      }
      return Success;
    }

    /** The loop of `playlist_delete_range()`, from the last song to the first. */
    method RemoveRange(start: nat, end: nat, paused: bool, prev0: Option<Song>) returns (prev: Option<Song>)
      requires queue.Valid() && Unfinished(Value(), prev0) && start < end <= queue.length
      requires !RangeAborts(Value(), start, end, paused)
      modifies this, queue, queue.items, queue.order, queue.idToPosition
      ensures queue.Valid() && RangeRemoved(old(Value()), start, end, paused, prev0, Value(), prev)
      ensures Unfinished(Value(), prev)
    {
      hide Indexed, IsPermutation, DistinctIds, IsIdentity, Removed, DeleteAborts;
      ghost var s := Value();
      prev := prev0;
      var e := end;
      while e != start
        invariant start <= e <= queue.length && queue.Valid()
        invariant Unfinished(Value(), prev) && !RangeAborts(Value(), start, e, paused)
        invariant forall s', prev' :: RangeRemoved(Value(), start, e, paused, prev, s', prev') ==>
          RangeRemoved(s, start, end, paused, prev0, s', prev')
        decreases e
      {
        ghost var v, p := Value(), prev;
        e := e - 1;
        prev := DeleteInternal(e, paused, prev);
        UnfinishedByDelete(v, e, paused, p, Value());
        assert RemovedBefore(v, e + 1, paused, Value());
        forall s', prev' | RangeRemoved(Value(), start, e, paused, prev, s', prev')
          ensures RangeRemoved(s, start, end, paused, prev0, s', prev')
        {
          assert RangeRemoved(v, start, e + 1, paused, p, s', prev');
        }
      }
      assert RangeRemoved(Value(), start, e, paused, prev, Value(), prev);
    }

    /** What `playlist_move_range()` does with its arguments before it moves anything. */
    method ResolveMove(start: nat, end: nat, to: int) returns (d: MoveDecision)
      requires Valid() && start <= UINT_MAX && end <= UINT_MAX && -0x8000_0000 <= to < 0x8000_0000
      ensures d == DecideMove(Value(), start, end, to)
      ensures d.MoveTo? && to < 0 <= current && start < end && queue.length < 0x4000_0000 ==>
                var t := RelativeTarget(Value(), to);
                !(start <= t < end) ==>
                  0 <= d.to && (LandsBefore(t, start, end, d.to) <==> t < start || end == start + 1)
    {
      hide Indexed, IsPermutation, DistinctIds, IsIdentity;
      if !(start < queue.length) || !(Wrap(end - 1) < queue.length) {
        return OutOfRange;
      }
      if (to >= 0 && Wrap(Wrap(Wrap(to + end) - start) - 1) >= queue.length) || (to < 0 && -to > queue.length) {
        return OutOfRange;
      }
      if start == to {
        return Nothing;
      }
      AfterPositionInRange(queue.Value().order, current);
      var currentSong: int := if current >= 0 then queue.order[current] else -1;
      assert currentSong == CurrentPosition(Value());
      if to < 0 && current >= 0 {
        if start <= currentSong < end {
          return Nothing;
        }
        var target := (currentSong + -to) % queue.length;
        if start < target {
          target := target - 1;
        }
        assert MoveTo(target) == DecideMove(Value(), start, end, to);
        if start < end && queue.length < 0x4000_0000 && !(start <= RelativeTarget(Value(), to) < end) {
          RelativeMoveLands(Value(), start, end, to);
        }
        return MoveTo(target);
      }
      return MoveTo(to);
    }

    /** Moves the songs and, outside random mode, adjusts `current`. */
    method MoveInQueue(start: nat, end: nat, to: nat)
      requires Valid() && start <= end <= queue.length && to + (end - start) <= queue.length
      modifies this`current, queue.items, queue.order, queue.idToPosition
      ensures queue.Valid()
      ensures Value() == var s := old(Value());
                s.(queue := MovedQueue(s.queue, start, end, to),
                   current := if s.queue.random then s.current else MovedCurrent(s.current, start, end, to))
    {
      hide Indexed, IsPermutation, DistinctIds, IsIdentity, MovedItems, MovedOrder;
      queue.MoveRange(start, end, to);
      if !queue.random {
        if start <= current < end {
          current := current + to - start;
        } else if current >= end && current <= to {
          current := current - (end - start);
        } else if current >= to && current < start {
          current := current + (end - start);
        }
      }
    }

    /** `playlist_move_range()` */
    method MoveSongs(start: nat, end: nat, to: int) returns (r: Result)
      requires Valid() && start <= end <= UINT_MAX && -0x8000_0000 <= to < 0x8000_0000
      requires var d := DecideMove(Value(), start, end, to);
               d.MoveTo? ==> 0 <= d.to && d.to + (end - start) <= queue.length
      modifies this, queue, queue.items, queue.order, queue.idToPosition
      ensures Valid()
      ensures var d := DecideMove(old(Value()), start, end, to);
              && r == (if d.OutOfRange? then BadRange else Success)
              && (d.MoveTo? ==> RangeMoved(old(Value()), start, end, d.to, Value()))
              && (!d.MoveTo? ==> Value() == old(Value()))
    {
      hide Indexed, IsPermutation, DistinctIds, IsIdentity, Refreshed, MovedQueue, MovedCurrent, DecideMove;
      ghost var s := Value();
      var d := ResolveMove(start, end, to);
      match d
      case OutOfRange => return BadRange;
      case Nothing => return Success;
      case MoveTo(target) =>
        var queuedSong := GetQueuedSong();
        MoveWithin(s, start, end, to);
        MovedEntry(s, start, end, target);
        MoveInQueue(start, end, target);
        Refresh(queuedSong);
        MoveKeepsCurrent(s, start, end, target, Value());
        return Success;
    }

    /** `playlist_shuffle()` */
    method ShuffleSongs(start: nat, end: nat) returns (ghost items: seq<Item>)
      requires Valid() && start <= UINT_MAX && (start == UINT_MAX ==> Min(end, queue.length) == 0)
      modifies this, queue, queue.items, queue.order, queue.idToPosition
      ensures Valid()
      ensures var end' := Min(end, old(queue.length));
              if start + 1 < end' then RangeShuffled(old(Value()), start, end', items, Value())
              else Value() == old(Value())
    {
      hide Indexed, IsPermutation, DistinctIds, IsIdentity, Refreshed, ShuffledItems, PutFirst, RangeShuffled, Inside,
        QueueRuns.Applied;
      items := [];
      var last := if end > queue.length then queue.length else end;
      if Wrap(start + 1) >= last {
        return;
      }
      ghost var s := Value();
      var queuedSong := GetQueuedSong();
      var first := PrepareShuffle(start, last);
      ghost var s1 := Value();
      queue.ShuffleRange(first, last);
      items := queue.items[..queue.length];
      IndexedDistinct(items, queue.idToPosition[..]);
      ShuffleEntry(s, s1, start, last, items);
      Refresh(queuedSong);
      ShuffledRefreshed(s, s1, start, last, items, Value());
      ShuffleKeepsCurrent(s, start, last, items, Value());
    }

    /** Puts the playing song first, or forgets the current song if nothing is playing. */
    method PrepareShuffle(start: nat, end: nat) returns (first: nat)
      requires Valid() && start < end <= queue.length
      modifies this`current, queue.items, queue.idToPosition
      ensures queue.Valid()
      ensures var s := old(Value());
              && first == (if Inside(s, start, end) then start + 1 else start)
              && Value() == if Inside(s, start, end) then PutFirst(s, start)
                            else if s.playing then s else s.(current := -1)
    {
      hide Indexed, IsPermutation, DistinctIds, IsIdentity, SwappedItems;
      first := start;
      ghost var s := Value();
      AfterPositionInRange(s.queue.order, current);
      if playing && current >= 0 {
        var position := queue.order[current];
        assert position == CurrentPosition(s);
        if position >= start && position < end {
          queue.Swap(start, position);
          if queue.random {
            current := queue.PositionToOrder(start);
          } else {
            IdentityIndex(queue.order[..queue.length], start);
            current := start;
          }
          first := start + 1;
        }
      } else {
        current := -1;
      }
    }

    /** `playlist_set_random()` */
    method SetRandom(status: bool) returns (ghost q: Queue)
      requires Valid()
      modifies this, queue, queue.order
      ensures Valid()
      ensures if status == old(queue.random) then Value() == old(Value())
              else RandomSet(old(Value()), status, q, Value())
    {
      hide Indexed, IsPermutation, DistinctIds, Updated, Descending;
      q := queue.Value();
      if status == queue.random {
        return;
      }
      ghost var s := Value();
      var queuedSong := GetQueuedSong();
      queue.random := status;
      if queue.random {
        ShuffleCurrentFirst();
      } else {
        RestoreOrder();
      }
      q := queue.Value();
      RandomEntry(s, status, q);
      UpdateQueuedSong(queuedSong);
      RandomKeepsCurrent(s, status, q, Value());
    }

    /** The part of `playlist_set_random()` that switches random mode on. */
    method ShuffleCurrentFirst()
      requires queue.Valid() && queue.random && -1 <= current < queue.length && (playing ==> current >= 0)
      modifies this`current, queue.order
      ensures queue.Valid()
      ensures queue.Value() == old(queue.Value()).(order := queue.order[..queue.length])
      ensures current == if playing then 0 else -1
      ensures CurrentFirst(old(Value()), queue.order[..queue.length])
    {
      hide Indexed, IsPermutation, Descending;
      ghost var s := Value();
      AfterPositionInRange(queue.order[..queue.length], current);
      var position: int := if playing && current >= 0 then queue.order[current] else -1;
      assert position == if playing then CurrentPosition(s) else -1;
      var _, _ := queue.ShuffleOrder();
      ghost var sh := queue.order[..queue.length];
      assert IsShuffle(s.queue.items, sh);
      if position >= 0 {
        var n := queue.PositionToOrder(position);
        queue.SwapOrder(0, n);
        assert queue.order[..queue.length] == Swapped(sh, 0, IndexOf(sh, position));
        current := 0;
      } else {
        current := -1;
      }
    }

    /** `playlist_order()` */
    method RestoreOrder()
      requires queue.Valid() && -1 <= current < queue.length
      modifies this`current, queue.order
      ensures queue.Valid() && IsIdentity(queue.order[..queue.length])
      ensures queue.Value() == old(queue.Value()).(order := queue.order[..queue.length])
      ensures current == old(if current >= 0 then queue.order[current] else -1)
    {
      hide Indexed, IsPermutation;
      if current >= 0 {
        current := queue.order[current];
      }
      queue.RestoreOrder();
    }

    /** `playlist_set_repeat()` */
    method SetRepeat(status: bool)
      requires Valid()
      modifies this, queue, queue.order
      ensures Valid()
      ensures if status == old(queue.repeat) then Value() == old(Value())
              else ModesSet(old(Value()), status, old(queue.single), Value())
    {
      hide Indexed, IsPermutation, DistinctIds, IsIdentity, Updated;
      if status == queue.repeat {
        return;
      }
      ghost var s := Value();
      queue.repeat := status;
      ModesKeepQueued(s, status, queue.single);
      var queuedSong := GetQueuedSong();
      UpdateQueuedSong(queuedSong);
      ModesKeepCurrent(s, status, old(queue.single), Value());
    }

    /** `playlist_set_single()` */
    method SetSingle(status: bool)
      requires Valid()
      modifies this, queue, queue.order
      ensures Valid()
      ensures if status == old(queue.single) then Value() == old(Value())
              else ModesSet(old(Value()), old(queue.repeat), status, Value())
    {
      hide Indexed, IsPermutation, DistinctIds, IsIdentity, Updated;
      if status == queue.single {
        return;
      }
      ghost var s := Value();
      queue.single := status;
      ModesKeepQueued(s, queue.repeat, status);
      var queuedSong := GetQueuedSong();
      UpdateQueuedSong(queuedSong);
      ModesKeepCurrent(s, old(queue.repeat), status, Value());
    }

    /** `playlist_set_consume()` */
    method SetConsume(status: bool)
      requires Valid()
      modifies queue
      ensures Valid()
      ensures Value() == old(Value()).(queue := old(queue.Value()).(consume := status))
    {
      hide Indexed, IsPermutation, DistinctIds, IsIdentity;
      queue.consume := status;
    }

    /** `playlist_play()`; the argument -1 selects the current or the first song. */
    method PlaySong(song: int) returns (r: Result)
      requires Valid() && -0x8000_0000 <= song < 0x8000_0000
      modifies this, queue.order
      ensures Valid()
      ensures r == if -1 <= song < old(queue.length) then Success else BadRange
      ensures r.BadRange? || (song == -1 && old(queue.length == 0 || playing)) ==> Value() == old(Value())
      ensures song == -1 && 0 < old(queue.length) && !old(playing) ==>
                PlayedOrder(old(Value()), if old(current) >= 0 then old(current) else 0, Value())
      ensures 0 <= song < old(queue.length) ==>
                PlayedOrder(old(Value()), IndexOf(old(queue.order[..queue.length]), song), Value())
    {
      hide Indexed, IsPermutation, DistinctIds, IsIdentity, PlayedOrder;
      var i := song;
      if song == -1 {
        if queue.length == 0 {
          return Success;
        }
        if playing {
          return Success;
        }
        i := if current >= 0 then current else 0;
      } else if Wrap(song) >= queue.length {
        return BadRange;
      }
      if queue.random {
        if song >= 0 {
          i := queue.PositionToOrder(song);
        }
      } else if song >= 0 {
        IdentityIndex(queue.order[..queue.length], song);
      }
      PlaySelected(i);
      return Success;
    }

    /** `playlist_play()` once the order number has been selected. */
    method PlaySelected(n: int)
      requires Valid() && 0 <= n < queue.length
      modifies this, queue.order
      ensures Valid() && PlayedOrder(old(Value()), n, Value())
    {
      hide Indexed, IsPermutation, DistinctIds, IsIdentity, Swapped;
      ghost var s := Value();
      var i := n;
      if queue.random {
        if !playing {
          current := 0;
        }
        queue.SwapOrder(i, current);
        i := current;
      }
      stopOnError := false;
      errorCount := 0;
      PlayOrderNumber(i);
      PlayedOrderKeeps(s, n, Value());
    }

    /** `playlist_next()` */
    method Next(paused: bool)
      requires Valid()
      modifies this, queue, queue.items, queue.order, queue.idToPosition
      ensures Valid() && Advanced(old(Value()), paused, Value())
    {
      hide Indexed, IsPermutation, DistinctIds, IsIdentity, Skipped, SongDeleted, DeleteAborts;
      if !playing {
        return;
      }
      ghost var s := Value();
      var left := current;
      SkipSong();
      ghost var m := Value();
      SkippedKeeps(s, m);
      if queue.consume {
        ConsumedIsNotPlaying(s, m);
        assert queue.order[left] == m.queue.order[left];
        var _ := DeleteSong(queue.order[left], paused);
        ConsumedKeeps(s, m, paused, Value());
      }
    }

    /** `playlist_next()` up to the removal of a consumed song. */
    method SkipSong()
      requires Valid() && playing
      modifies this, queue.order
      ensures queue.Valid() && Skipped(old(Value()), Value())
    {
      hide Indexed, IsPermutation, DistinctIds, IsIdentity, Descending;
      ghost var s := Value();
      stopOnError := false;
      var next := NextOrderOf(current);
      if next < 0 {
        StopPlayback();
        ghost var m := Value();
        current := -1;
        assert Stopped(s.(stopOnError := false), m) && Value() == m.(current := -1);
      } else {
        if next == 0 && queue.random {
          var _, _ := queue.ShuffleOrder();
        }
        PlayOrderNumber(next);
      }
    }

    /** `playlist_seek_song()`, given whether the player succeeds. */
    method SeekSong(song: nat, success: bool) returns (r: Result)
      requires Valid() && (song < queue.length ==> !SeekTrips(Value(), song, success))
      modifies this, queue.order
      ensures Valid()
      ensures r == if song >= old(queue.length) then BadRange else if success then Success else NotPlaying
      ensures if r.BadRange? then Value() == old(Value()) else Sought(old(Value()), song, success, Value())
    {
      hide Indexed, IsPermutation, DistinctIds, IsIdentity, Updated;
      if song >= queue.length {
        return BadRange;
      }
      ghost var s := Value();
      var prev := GetQueuedSong();
      var n := OrderOfSong(song);
      assert CurrentPosition(s) == song <==> s.current == n by { SeekPosition(s, song); }
      stopOnError := true;
      errorCount := 0;
      if !playing || current != n {
        playing := true;
        current := n;
        prev := None;
      }
      calls := calls + [Seek(queue.items[song].song)];
      assert Value() == Seeking(s, song) && prev == AssumedQueued(s, song);
      SeekTripsExactlyWhen(s, song);
      if !success {
        UpdateQueuedSong(prev);
        SoughtKeeps(s, song, success, Value());
        return NotPlaying;
      }
      queued := -1;
      UpdateQueuedSong(None);
      SoughtKeeps(s, song, success, Value());
      return Success;
    }

    /** The order number of a position, which is looked up in random mode only. */
    method OrderOfSong(song: nat) returns (n: nat)
      requires Valid() && song < queue.length
      ensures n < queue.length && n == IndexOf(queue.order[..queue.length], song)
    {
      hide Indexed, IsPermutation, DistinctIds;
      if queue.random {
        n := queue.PositionToOrder(song);
      } else {
        n := song;
        IdentityIndex(queue.order[..queue.length], song);
      }
    }

    /** `playlist_tag_changed()` */
    method TagChanged()
      requires Valid()
      modifies queue, queue.items
      ensures Valid() && Value() == Retagged(old(Value()))
    {
      hide Indexed, IsPermutation, DistinctIds, IsIdentity, Incremented;
      RetaggedKeeps(Value());
      if !playing {
        return;
      }
      queue.Modify(current);
    }

    /** `playlist_increment_version_all()` */
    method IncrementVersionAll()
      requires Valid()
      modifies queue, queue.items
      ensures Valid() && Value() == AllRetagged(old(Value()))
    {
      hide Indexed, IsPermutation, DistinctIds, IsIdentity, Incremented;
      RetaggedKeeps(Value());
      queue.ModifyAll();
    }

    /** `playlist_previous()` */
    method PreviousSong()
      requires Valid()
      modifies this
      ensures Valid() && InRange(old(Value()).queue.items, old(Value()).queue.order)
      ensures Value() == Previous(old(Value()))
    {
      hide Indexed, IsPermutation, DistinctIds, IsIdentity;
      PermutationInRange(queue.Value().items, queue.Value().order);
      if !playing {
        return;
      }
      if current > 0 {
        PlayOrderNumber(current - 1);
      } else if queue.repeat {
        PlayOrderNumber(queue.length - 1);
      } else {
        PlayOrderNumber(current);
      }
    }

    /** `playlist_clear()` */
    method ClearSongs()
      requires Valid()
      modifies this, queue, queue.items, queue.order, queue.idToPosition
      ensures Valid() && Cleared(old(Value()), Value())
    {
      hide Indexed, IsPermutation, DistinctIds, IsIdentity, Incremented;
      ghost var s := Value();
      StopPlayback();
      ghost var m := Value();
      queue.Clear();
      current := -1;
      queue.IncrementVersion();
      assert Stopped(s, m);
      ClearedKeeps(s, Value());
    }

    /** `playlist_song_started()` */
    method StartSong(paused: bool)
      requires Valid() && playing && queued >= 0 && !StartAborts(Value())
      modifies this, queue, queue.items, queue.order, queue.idToPosition
      ensures queue.Valid() && Started(old(Value()), paused, Value())
      ensures playing || !StartTrips(old(Value()), paused) ==> Valid()
    {
      hide Indexed, IsPermutation, DistinctIds, IsIdentity, SongDeleted, DeleteAborts, StaysInside;
      ghost var s := Value();
      var left := current;
      current := queued;
      queued := -1;
      if queue.consume {
        PermutationInRange(s.queue.items, s.queue.order);
        ghost var s1 := Value();
        ghost var p := s.queue.order[left];
        assert queue.order[left] == p < |s.queue.items| && s1 == s.(current := s.queued, queued := -1);
        var _ := DeleteSong(queue.order[left], paused);
        assert SongDeleted(s1, p, paused, Value());
      }
    }

    /** `playlist_resume_playback()` */
    method ResumePlayback(failed: bool, fatal: bool, paused: bool)
      requires Valid() && playing
      modifies this, queue, queue.items, queue.order, queue.idToPosition
      ensures Valid() && Resumed(old(Value()), failed, fatal, paused, Value())
    {
      hide Indexed, IsPermutation, DistinctIds, IsIdentity, Advanced, Stopped;
      ghost var s := Value();
      if !failed {
        errorCount := 0;
      } else {
        errorCount := errorCount + 1;
      }
      if (stopOnError && failed) || fatal || errorCount >= queue.length {
        StopPlayback();
      } else {
        Next(paused);
      }
      ResumedKeeps(s, failed, fatal, paused, Value());
    }

    /** `playlist_sync()`, given the state of the player and whether it still holds a next song. */
    method Sync(stopped: bool, failed: bool, fatal: bool, paused: bool, taken: bool, takenAgain: bool)
      requires Valid()
      requires playing && !stopped && taken && queued >= 0 ==> !StartAborts(Value())
      modifies this, queue, queue.items, queue.order, queue.idToPosition
      ensures queue.Valid() && Synced(old(Value()), stopped, failed, fatal, paused, taken, takenAgain, Value())
      ensures old(playing && !stopped && taken && queued >= 0 ==> !StartTrips(Value(), paused)) ==> Valid()
    {
      hide Indexed, IsPermutation, DistinctIds, IsIdentity, Resumed, Updated, SongDeleted, StartTrips, StartAborts;
      if !playing {
        return;
      }
      if stopped {
        ResumePlayback(failed, fatal, paused);
      } else {
        ghost var s := Value();
        if taken && queued != -1 {
          StartSong(paused);
        }
        ghost var m := Value();
        if takenAgain && queued < 0 {
          UpdateQueuedSong(None);
          if m.playing { UpdatedKeeps(m, None, Value()); }
        }
        assert if taken && s.queued >= 0 then Started(s, paused, m) else m == s;
      }
    }
  }
}

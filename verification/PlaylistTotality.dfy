/** Every permitted command has an outcome, whatever the random numbers. */
module PlaylistTotality {
  import opened Basics
  import opened Permutations
  import opened QueueSpec
  import opened PriorityOrder
  import opened Shuffles
  import opened PlaylistSpec
  import opened PlaylistProofs
  import opened PlaylistOutcomes
  import opened PlaylistRanges
  import Runs = PlaylistRuns

  /** The random choices that the command records are ones that the code can make. */
  ghost predicate IsDrawn(s: State, c: Runs.Command)
    requires WellFormed(s) && Runs.ValidArguments(s, c)
  {
    match c
    case Append(_, id, r) =>
      && (forall p :: 0 <= p < |s.queue.items| ==> s.queue.items[p].id != id)
      && (s.queue.random ==> (if s.queued >= 0 then s.queued + 1 else s.current + 1) <= r <= |s.queue.items|)
    case SetPriority(_, _, _, o) =>
      |o| == |s.queue.items| && IsPermutation(o) && (!s.queue.random ==> o == s.queue.order)
    case Shuffle(lo, hi, items) =>
      var s1 := if Inside(s, lo, hi) then PutFirst(s, lo) else if s.playing then s else s.(current := -1);
      && ShuffledItems(s1.queue.items, items, if Inside(s, lo, hi) then lo + 1 else lo, hi, s.queue.version)
      && DistinctIds(items)
    case SetRandom(random, q) =>
      && q == s.queue.(random := random, order := q.order) && |q.order| == |q.items| && IsPermutation(q.order)
      && if random then CurrentFirst(s, q.order) else IsIdentity(q.order)
    case _ => true
  }

  lemma AppendPossible(s: State, song: Song, id: nat, r: nat) returns (s': State)
    requires WellFormed(s) && IsDrawn(s, Runs.Append(song, id, r))
    ensures Appended(s, song, id, r, s')
  {
    hide Refreshed, AppendedQueue;
    AppendEntry(s, song, id, r);
    s' := RefreshOutcome(s.(queue := AppendedQueue(s, song, id, r)), QueuedSong(s));
    AppendedRefreshed(s, song, id, r, s');
  }

  lemma SwapPossible(s: State, i: nat, j: nat) returns (s': State)
    requires WellFormed(s) && i < |s.queue.items| && j < |s.queue.items|
    ensures SongsSwapped(s, i, j, s')
  {
    hide Refreshed, DistinctIds, IsIdentity;
    SwappedQueueConsistent(s.queue, i, j);
    s' := RefreshOutcome(s.(queue := SwappedQueue(s.queue, i, j), current := SwappedCurrent(s.queue, s.current, i, j)),
                         QueuedSong(s));
    SwappedRefreshed(s, i, j, s');
  }

  lemma PriorityPossible(s: State, start: nat, end: nat, priority: Priority, o: seq<nat>) returns (s': State)
    requires WellFormed(s) && start < end <= |s.queue.items|
    requires |o| == |s.queue.items| && IsPermutation(o) && (!s.queue.random ==> o == s.queue.order)
    ensures PrioritySet(s, start, end, priority, o, s')
  {
    hide Refreshed, DistinctIds, IsIdentity, SetPriorityBetween;
    PrioritiesConsistent(s, start, end, priority, o);
    var items := SetPriorityBetween(s.queue.items, start, end, priority, s.queue.version);
    s' := RefreshOutcome(s.(queue := s.queue.(items := items, order := o), current := OrderOf(o, CurrentPosition(s))),
                         QueuedSong(s));
    PriorityRefreshed(s, start, end, priority, o, s');
  }

  lemma MovePossible(s: State, start: nat, end: nat, to: nat) returns (s': State)
    requires WellFormed(s) && start <= end <= |s.queue.items| && to + (end - start) <= |s.queue.items|
    ensures RangeMoved(s, start, end, to, s')
  {
    hide Refreshed, MovedQueue, MovedCurrent;
    MovedEntry(s, start, end, to);
    var current := if s.queue.random then s.current else MovedCurrent(s.current, start, end, to);
    s' := RefreshOutcome(s.(queue := MovedQueue(s.queue, start, end, to), current := current), QueuedSong(s));
  }

  lemma ShufflePossible(s: State, lo: nat, hi: nat, items: seq<Item>) returns (s': State)
    requires WellFormed(s) && lo + 1 < hi <= |s.queue.items| && IsDrawn(s, Runs.Shuffle(lo, hi, items))
    ensures RangeShuffled(s, lo, hi, items, s')
  {
    hide Refreshed, ShuffledItems, PutFirst, RangeShuffled, DistinctIds, IsIdentity;
    var s1 := if Inside(s, lo, hi) then PutFirst(s, lo) else if s.playing then s else s.(current := -1);
    ShuffleEntry(s, s1, lo, hi, items);
    s' := RefreshOutcome(s1.(queue := s1.queue.(items := items)), QueuedSong(s));
    ShuffledRefreshed(s, s1, lo, hi, items, s');
  }

  lemma RandomPossible(s: State, random: bool, q: Queue) returns (s': State)
    requires WellFormed(s) && random != s.queue.random && IsDrawn(s, Runs.SetRandom(random, q))
    ensures RandomSet(s, random, q, s')
  {
    hide Updated, CurrentFirst, DistinctIds;
    RandomEntry(s, random, q);
    var current := if random then (if s.playing then 0 else -1) else CurrentPosition(s);
    s' := UpdateOutcome(s.(queue := q, current := current), QueuedSong(s));
  }

  lemma DeletePossible(s: State, p: nat, paused: bool) returns (s': State)
    requires WellFormed(s) && p < |s.queue.items| && !DeleteAborts(s, p)
    ensures SongDeleted(s, p, paused, s')
  {
    hide Removed, DeleteAborts, Finished, IsPlaying, DistinctIds, IsIdentity;
    var prev := if IsPlaying(s, p) then None else QueuedSong(s);
    var m := RemoveOutcome(s, p, paused);
    DeletedEntry(s, p, paused, m);
    s' := FinishPossible(m, prev);
    assert Removed(s, p, paused, m) && Finished(m, prev, s');
  }

  lemma FinishPossible(s: State, prev: Option<Song>) returns (s': State)
    requires s.playing ==> UpdateEntry(s, prev)
    ensures Finished(s, prev, s')
  {
    if s.playing {
      s' := RefreshOutcome(s, prev);
    } else {
      s' := s.(queue := Incremented(s.queue));
    }
  }

  lemma StopPossible(s: State) returns (s': State)
    requires WellFormed(s)
    ensures Stopped(s, s')
  {
    s' := s;
    if s.playing {
      s' := s.(queued := -1, playing := false, calls := s.calls + [Call.Stop]);
      if s.queue.random {
        var o := ShuffleExists(s.queue.items);
        s' := s'.(queue := s.queue.(order := o), current := IndexOf(o, s.queue.order[s.current]));
      }
    }
  }

  lemma SkipPossible(s: State) returns (s': State)
    requires WellFormed(s) && s.playing
    ensures Skipped(s, s')
  {
    var s1 := s.(stopOnError := false);
    var next := NextOrder(s.queue, s.current);
    if next < 0 {
      var m := StopPossible(s1);
      s' := m.(current := -1);
    } else if next == 0 && s.queue.random {
      var o := ShuffleExists(s.queue.items);
      s' := PlayOrder(s1.(queue := s.queue.(order := o)), 0);
    } else {
      s' := PlayOrder(s1, next);
    }
  }

  lemma NextPossible(s: State, paused: bool) returns (s': State)
    requires WellFormed(s)
    ensures Advanced(s, paused, s')
  {
    hide Skipped, SongDeleted, IsIdentity, DistinctIds;
    if !s.playing {
      s' := s;
    } else {
      var m := SkipPossible(s);
      if !s.queue.consume {
        s' := m;
      } else {
        ConsumedIsNotPlaying(s, m);
        var p := m.queue.order[s.current];
        s' := DeletePossible(m, p, paused);
        assert Skipped(s, m) && SongDeleted(m, p, paused, s');
      }
    }
  }

  lemma ClearPossible(s: State) returns (s': State)
    requires WellFormed(s)
    ensures Cleared(s, s')
  {
    hide Stopped;
    var m := StopPossible(s);
    s' := m.(queue := Incremented(m.queue.(items := [], order := [])), current := -1);
  }

  lemma ResumePossible(s: State, failed: bool, fatal: bool, paused: bool) returns (s': State)
    requires WellFormed(s) && s.playing
    ensures Resumed(s, failed, fatal, paused, s')
  {
    hide Stopped, Advanced;
    var s1 := s.(errorCount := if failed then s.errorCount + 1 else 0);
    if (s.stopOnError && failed) || fatal || s1.errorCount >= |s.queue.items| {
      s' := StopPossible(s1);
    } else {
      s' := NextPossible(s1, paused);
    }
  }

  lemma SeekPossible(s: State, p: nat, success: bool) returns (s': State)
    requires WellFormed(s) && p < |s.queue.items| && !SeekTrips(s, p, success)
    ensures Sought(s, p, success, s')
  {
    hide Updated, DistinctIds, IsIdentity;
    SeekTripsExactlyWhen(s, p);
    hide SeekTrips;
    var s1 := if success then Seeking(s, p).(queued := -1) else Seeking(s, p);
    s' := UpdateOutcome(s1, if success then None else AssumedQueued(s, p));
  }

  lemma PlayPossible(s: State, n: nat) returns (s': State)
    requires WellFormed(s) && n < |s.queue.items|
    ensures PlayedOrder(s, n, s')
  {
    var s1 := s.(stopOnError := false, errorCount := 0);
    var c := if s.playing then s.current else 0;
    s' := if s.queue.random then PlayOrder(s1.(queue := s.queue.(order := Swapped(s.queue.order, n, c))), c)
          else PlayOrder(s1, n);
  }

  lemma StartPossible(s: State, paused: bool) returns (s': State)
    requires WellFormed(s) && s.playing && s.queued >= 0 && !StartTrips(s, paused)
    ensures Started(s, paused, s')
  {
    hide SongDeleted, IsIdentity, DistinctIds, StaysInside, DeleteAborts;
    s' := s.(current := s.queued, queued := -1);
    if s.queue.consume {
      s' := DeletePossible(s', s.queue.order[s.current], paused);
    }
  }

  lemma RangePossible(s: State, start: nat, end: nat, paused: bool) returns (s': State)
    requires WellFormed(s) && start < end <= |s.queue.items| && Deletable(s, start, end, paused)
    ensures RangeDeleted(s, start, end, paused, s')
  {
    hide Deletable, RangeSafe, RangeDeleted;
    DeletableIsSafe(s, start, end, paused);
    s' := RangeOutcome(s, start, end, paused);
  }

  /** None of the theorems about all outcomes of a permitted command is empty. */
  lemma StepPossible(s: State, c: Runs.Command) returns (s': State)
    requires WellFormed(s) && Runs.Permitted(s, c) && IsDrawn(s, c)
    ensures Runs.Step(s, c, s')
  {
    hide DistinctIds, IsIdentity, Appended, SongsSwapped, PrioritySet, SongDeleted, RangeDeleted, RangeMoved, RangeShuffled,
      RandomSet, PlayedOrder, Advanced, Stopped, Cleared, Started, Resumed, Updated, Sought, Deletable, StartTrips,
      SeekTrips, StaysInside, DeleteAborts, ShuffledItems, CurrentFirst, PutFirst, Inside;
    match c
    case Append(song, id, r) => s' := AppendPossible(s, song, id, r);
    case Swap(i, j) => s' := SwapPossible(s, i, j);
    case SetPriority(first, last, priority, o) => s' := PriorityPossible(s, first, last, priority, o);
    case Delete(p, paused) => s' := DeletePossible(s, p, paused);
    case DeleteRange(start, end, paused) => s' := RangePossible(s, start, end, paused);
    case Move(from, until, to) => s' := MovePossible(s, from, until, to);
    case Shuffle(lo, hi, items) => s' := ShufflePossible(s, lo, hi, items);
    case SetRandom(random, q) => s' := RandomPossible(s, random, q);
    case SetModes(repeat, single) =>
      s' := UpdateOutcome(s.(queue := s.queue.(repeat := repeat, single := single)), QueuedSong(s));
    case SetConsume(consume) => s' := s.(queue := s.queue.(consume := consume));
    case Play(n) => s' := PlayPossible(s, n);
    case Next(paused) => s' := NextPossible(s, paused);
    case Previous => s' := PlaylistSpec.Previous(s);
    case Stop => s' := StopPossible(s);
    case Clear => s' := ClearPossible(s);
    case SongStarted(paused) => s' := StartPossible(s, paused);
    case PlayerStopped(failed, fatal, paused) => s' := ResumePossible(s, failed, fatal, paused);
    case Requeue => s' := UpdateOutcome(s, None);
    case Seek(p, success) => s' := SeekPossible(s, p, success);
    case TagChanged => s' := Retagged(s);
    case VersionAll => s' := AllRetagged(s);
  }
}

/** What the playlist operations promise their users, one operation against another. */
module PlaylistLaws {
  import opened Basics
  import opened Permutations
  import opened QueueSpec
  import opened PriorityOrder
  import opened Shuffles
  import opened PlaylistSpec
  import opened PlaylistProofs
  import R = QueueRuns
  import Runs = PlaylistRuns

  // ---- playlist_previous() undoes playlist_next() ----

  /** Going on and then back comes to the same place exactly unless one of several songs repeats. */
  lemma PreviousUndoesNext(s: State, m: State)
    requires WellFormed(s) && s.playing && Skipped(s, m) && m.playing
    ensures var next := NextOrder(s.queue, s.current);
            && WellFormed(m) && |m.queue.items| == |s.queue.items|
            && (Previous(m).current == s.current <==> next != s.current || |s.queue.items| == 1)
            && (next != s.current && !(next == 0 && s.queue.random) ==>
                  && Previous(m).queue == s.queue
                  && Previous(m).calls == m.calls + [Call.Play(ItemAt(s.queue, s.current).song)])
  {
    SkippedKeeps(s, m);
    PreviousKeeps(m);
  }

  /** At the beginning, "previous" plays the last song in repeat mode and the first one again otherwise. */
  lemma PreviousAtBeginning(s: State)
    requires WellFormed(s) && s.playing && s.current == 0
    ensures Previous(s).current == (if s.queue.repeat then |s.queue.items| - 1 else 0)
    ensures s.queue.repeat && !s.queue.random && !s.queue.consume && !s.queue.single ==>
              NextOrder(s.queue, Previous(s).current) == s.current
  {
  }

  // ---- playlist_tag_changed() ----

  /** A client that knows the version before a change of tags is told of the playing song, and of no other one. */
  lemma RetaggedIsNewer(s: State, k: nat)
    requires WellFormed(s) && k < |s.queue.items|
    ensures |Retagged(s).queue.items| == |s.queue.items|
    ensures R.SongNewer(Retagged(s).queue, k, s.queue.version) <==>
            || (s.playing && k == s.queue.order[s.current])
            || (s.playing && s.queue.version + 1 == MAX_VERSION)
            || R.SongNewer(s.queue, k, s.queue.version)
  {
  }

  lemma AllRetaggedIsNewer(s: State, k: nat)
    requires WellFormed(s) && k < |s.queue.items|
    ensures |AllRetagged(s).queue.items| == |s.queue.items| && R.SongNewer(AllRetagged(s).queue, k, s.queue.version)
  {
  }

  // ---- errors ----

  /** Without consume mode, going on keeps the songs and forgets only that a seek preceded. */
  lemma SkippedErrors(s: State, paused: bool, s': State)
    requires WellFormed(s) && s.playing && !s.queue.consume && Advanced(s, paused, s')
    ensures WellFormed(s') && s'.errorCount == s.errorCount && !s'.stopOnError
    ensures |s'.queue.items| == |s.queue.items| && s'.queue.consume == s.queue.consume
    ensures s'.queue.repeat == s.queue.repeat && (s.queue.repeat ==> s'.playing)
  {
    SkippedKeeps(s, s');
  }

  /** What one song that cannot be played does, without consume mode. */
  lemma FailureCounts(s: State, failed: bool, fatal: bool, paused: bool, s': State)
    requires WellFormed(s) && s.playing && !s.queue.consume && Resumed(s, failed, fatal, paused, s')
    ensures WellFormed(s') && |s'.queue.items| == |s.queue.items| && s'.queue.consume == s.queue.consume
    ensures s'.errorCount == if failed then s.errorCount + 1 else 0
    ensures s'.playing ==> !fatal && (failed ==> !s.stopOnError) && s'.errorCount < |s.queue.items| && !s'.stopOnError
    ensures s.queue.repeat && !fatal && (failed ==> !s.stopOnError && s.errorCount + 1 < |s.queue.items|) ==> s'.playing
  {
    hide Advanced, Stopped, Consistent;
    var s1 := s.(errorCount := if failed then s.errorCount + 1 else 0);
    if (s.stopOnError && failed) || fatal || s1.errorCount >= |s.queue.items| {
      StoppedKeeps(s1, s');
      StoppedErrors(s1, s');
    } else {
      SkippedErrors(s1, paused, s');
    }
  }

  lemma StoppedErrors(s: State, s': State)
    requires WellFormed(s) && Stopped(s, s')
    ensures s'.errorCount == s.errorCount && s'.stopOnError == s.stopOnError
    ensures s'.queue == s.queue.(order := s'.queue.order)
  {
  }

  /** One failure after another, while playback goes on. */
  ghost predicate IsErrorRun(states: seq<State>, paused: bool) {
    states != [] && WellFormed(states[0]) && !states[0].queue.consume &&
    forall i :: 0 <= i < |states| - 1 ==>
      WellFormed(states[i]) && states[i].playing && Resumed(states[i], true, false, paused, states[i + 1])
  }

  /** A playlist of which nothing can be played gives up after as many failures as it has songs. */
  lemma {:induction false} ErrorsEnd(states: seq<State>, paused: bool, k: nat)
    requires IsErrorRun(states, paused) && k < |states|
    ensures WellFormed(states[k]) && |states[k].queue.items| == |states[0].queue.items| && !states[k].queue.consume
    ensures states[k].errorCount == states[0].errorCount + k
    ensures k > 0 && states[k].playing ==> states[0].errorCount + k < |states[0].queue.items|
    ensures k > 0 && k >= |states[0].queue.items| ==> !states[k].playing
  {
    hide Resumed, Consistent;
    if k > 0 {
      var i := k - 1;
      ErrorsEnd(states, paused, i);
      FailureCounts(states[i], true, false, paused, states[i + 1]);
    }
  }

  /** If the song that was sought cannot be played, playback stops. */
  lemma SeekErrorStops(s: State, p: nat, success: bool, m: State, fatal: bool, paused: bool, s': State)
    requires WellFormed(s) && p < |s.queue.items| && Sought(s, p, success, m)
    requires WellFormed(m) && m.playing && Resumed(m, true, fatal, paused, s')
    ensures !s'.playing && s'.errorCount == 1
  {
    hide IsPermutation, DistinctIds, IsIdentity, Reshuffled;
    assert m.stopOnError && m.errorCount == 0;
  }

  /** If a song that was chosen cannot be played, the next one is tried. */
  lemma PlayErrorGoesOn(s: State, n: nat, m: State, paused: bool, s': State)
    requires WellFormed(s) && n < |s.queue.items| && PlayedOrder(s, n, m) && s.queue.repeat && !s.queue.consume
    requires WellFormed(m) && m.playing && Resumed(m, true, false, paused, s')
    ensures s'.playing <==> |s.queue.items| > 1
  {
    hide IsPermutation, DistinctIds, IsIdentity, Resumed;
    assert !m.stopOnError && m.errorCount == 0 && |m.queue.items| == |s.queue.items| && m.queue.repeat && !m.queue.consume;
    FailureCounts(m, true, false, paused, s');
  }

  // ---- shuffling again ----

  /** Choosing the next song may give any shuffle, exactly if in random mode the first song follows the current one. */
  lemma RestartMayShuffle(s: State, prev: Option<Song>, o: seq<nat>) returns (s': State)
    requires UpdateEntry(s, prev) && s.playing && IsShuffle(s.queue.items, o)
    requires s.queue.random && !s.queue.single && NextOrder(s.queue, s.current) == 0
    ensures Updated(s, prev, s') && s'.queue.order == o
  {
    var q := s.queue.(order := o);
    s' := s.(queue := q, current := IndexOf(o, s.queue.order[s.current]), queued := 0,
             calls := s.calls + Announce(prev, SongAt(q, 0)));
  }

  lemma OtherwiseKeepsOrder(s: State, prev: Option<Song>, s': State)
    requires UpdateEntry(s, prev) && Updated(s, prev, s')
    requires s.playing && s.queue.random ==> s.queue.single || NextOrder(s.queue, s.current) != 0
    ensures s'.queue == s.queue && s'.current == s.current
  {
  }

  /** Stopping in random mode may give any shuffle. */
  lemma StopMayShuffle(s: State, o: seq<nat>) returns (s': State)
    requires WellFormed(s) && s.playing && s.queue.random && IsShuffle(s.queue.items, o)
    ensures Stopped(s, s') && s'.queue.order == o
  {
    s' := s.(queue := s.queue.(order := o), current := IndexOf(o, s.queue.order[s.current]), queued := -1,
             playing := false, calls := s.calls + [Call.Stop]);
  }

  /** Going on from the last song to the first in random mode may give any shuffle. */
  lemma NextMayShuffle(s: State, o: seq<nat>) returns (s': State)
    requires WellFormed(s) && s.playing && s.queue.random && IsShuffle(s.queue.items, o)
    requires NextOrder(s.queue, s.current) == 0
    ensures Skipped(s, s') && s'.queue.order == o && s'.current == 0
  {
    s' := PlayOrder(s.(stopOnError := false, queue := s.queue.(order := o)), 0);
  }

  // ---- versions ----

  /** Does the command change what clients are shown of the queue? */
  ghost predicate IsVersioned(s: State, c: Runs.Command) {
    match c
    case Append(_, _, _) => true
    case Swap(_, _) => true
    case SetPriority(_, _, _, _) => true
    case Delete(_, _) => true
    case DeleteRange(_, _, _) => true
    case Move(_, _, _) => true
    case Shuffle(_, _, _) => true
    case Clear => true
    case VersionAll => true
    case TagChanged => s.playing
    case Next(_) => s.playing && s.queue.consume
    case SongStarted(_) => s.queue.consume
    case PlayerStopped(failed, fatal, _) =>
      && s.queue.consume && !(s.stopOnError && failed) && !fatal
      && (if failed then s.errorCount + 1 else 0) < |s.queue.items|
    case _ => false
  }

  /** The version number has changed exactly if it should. */
  ghost predicate VersionMoved(q: Queue, q': Queue, moved: bool) {
    q'.version == if !moved then q.version else if q.version + 1 >= MAX_VERSION then 1 else q.version + 1
  }

  lemma RefreshVersion(s: State, prev: Option<Song>, s': State)
    ensures Refreshed(s, prev, s') || Finished(s, prev, s') ==> VersionMoved(s.queue, s'.queue, true)
  {
    hide Consistent, IsPermutation;
    Bumps(s.queue);
  }

  lemma Bumps(q: Queue)
    ensures VersionMoved(q, Incremented(q), true)
  {
  }

  lemma RemoveVersion(s: State, p: nat, paused: bool, s': State)
    requires Consistent(s.queue) && p < |s.queue.items| && -1 <= s.current
    requires !DeleteAborts(s, p) && Removed(s, p, paused, s')
    ensures s'.queue.version == s.queue.version
  {
    hide IsPermutation, DistinctIds, IsIdentity, Successor;
  }

  lemma {:induction false} RangeVersion(s: State, start: nat, end: nat, paused: bool, prev: Option<Song>,
                                        s': State, prev': Option<Song>)
    requires RangeRemoved(s, start, end, paused, prev, s', prev')
    ensures s'.queue.version == s.queue.version
    decreases end
  {
    hide Removed, Consistent, IsPlaying, DeleteAborts;
    if end > start {
      var m :| RemovedBefore(s, end, paused, m) &&
        RangeRemoved(m, start, end - 1, paused, if IsPlaying(s, end - 1) then None else prev, s', prev');
      RemoveVersion(s, end - 1, paused, m);
      RangeVersion(m, start, end - 1, paused, if IsPlaying(s, end - 1) then None else prev, s', prev');
    }
  }

  lemma DeleteVersion(s: State, p: nat, paused: bool, s': State)
    requires WellFormed(s) && p < |s.queue.items| && !DeleteAborts(s, p) && SongDeleted(s, p, paused, s')
    ensures VersionMoved(s.queue, s'.queue, true)
  {
    hide Removed, Finished, DistinctIds, IsIdentity, IsPlaying, DeleteAborts;
    var prev := if IsPlaying(s, p) then None else QueuedSong(s);
    var m :| Removed(s, p, paused, m) && Finished(m, prev, s');
    RemoveVersion(s, p, paused, m);
    RefreshVersion(m, prev, s');
  }

  lemma NextVersion(s: State, paused: bool, s': State)
    requires WellFormed(s) && Advanced(s, paused, s')
    ensures VersionMoved(s.queue, s'.queue, s.playing && s.queue.consume)
  {
    hide Skipped, SongDeleted, DeleteAborts;
    if s.playing {
      if s.queue.consume {
        var m :| Skipped(s, m) && WellFormed(m) && |m.queue.items| == |s.queue.items|
          && var p := m.queue.order[s.current];
             p < |m.queue.items| && !DeleteAborts(m, p) && SongDeleted(m, p, paused, s');
        SkippedKeeps(s, m);
        DeleteVersion(m, m.queue.order[s.current], paused, s');
      } else {
        SkippedKeeps(s, s');
      }
    }
  }

  lemma ShuffleVersion(s: State, start: nat, end: nat, items: seq<Item>, s': State)
    requires WellFormed(s) && start + 1 < end <= |s.queue.items| && RangeShuffled(s, start, end, items, s')
    ensures VersionMoved(s.queue, s'.queue, true)
  {
    hide Refreshed, DistinctIds, IsIdentity, ShuffledItems;
    var inside := s.playing && start <= CurrentPosition(s) < end;
    var s1 := if inside then PutFirst(s, start) else if s.playing then s else s.(current := -1);
    RefreshVersion(s1.(queue := s1.queue.(items := items)), QueuedSong(s), s');
  }

  lemma EditVersion(s: State, c: Runs.Command, s': State)
    requires WellFormed(s) && Runs.Permitted(s, c) && Runs.Step(s, c, s')
    requires c.Append? || c.Swap? || c.SetPriority? || c.Move?
    ensures VersionMoved(s.queue, s'.queue, true)
  {
    hide DistinctIds, IsIdentity, Updated, UpdateEntry, Incremented, Runs.Safe;
    match c
    case Append(song, id, r) => RefreshVersion(s.(queue := AppendedQueue(s, song, id, r)), QueuedSong(s), s');
    case Swap(i, j) =>
      var current := SwappedCurrent(s.queue, s.current, i, j);
      RefreshVersion(s.(queue := SwappedQueue(s.queue, i, j), current := current), QueuedSong(s), s');
    case SetPriority(start, end, priority, o) =>
      var items := SetPriorityBetween(s.queue.items, start, end, priority, s.queue.version);
      RefreshVersion(s.(queue := s.queue.(items := items, order := o), current := OrderOf(o, CurrentPosition(s))),
                     QueuedSong(s), s');
    case Move(from, until, to) =>
      var current := if s.queue.random then s.current else MovedCurrent(s.current, from, until, to);
      RefreshVersion(s.(queue := MovedQueue(s.queue, from, until, to), current := current), QueuedSong(s), s');
  }

  lemma ControlVersion(s: State, c: Runs.Command, s': State)
    requires WellFormed(s) && Runs.Permitted(s, c) && Runs.Step(s, c, s')
    requires c.SetConsume? || c.Play? || c.Previous? || c.Stop? || c.Clear? || c.TagChanged? || c.VersionAll?
    ensures VersionMoved(s.queue, s'.queue, IsVersioned(s, c))
  {
    hide IsPermutation, DistinctIds, IsIdentity, IsShuffle, StampRange, Runs.Safe;
  }

  lemma ModesVersion(s: State, c: Runs.Command, s': State)
    requires WellFormed(s) && Runs.Permitted(s, c) && Runs.Step(s, c, s')
    requires c.SetRandom? || c.SetModes? || c.Requeue? || c.Seek?
    ensures VersionMoved(s.queue, s'.queue, false)
  {
    hide IsPermutation, DistinctIds, IsIdentity, CurrentFirst, IsShuffle, NextOrder, Runs.Safe;
  }

  lemma PlayerVersion(s: State, c: Runs.Command, s': State)
    requires WellFormed(s) && Runs.Permitted(s, c) && Runs.Step(s, c, s') && (c.SongStarted? || c.PlayerStopped?)
    ensures VersionMoved(s.queue, s'.queue, IsVersioned(s, c))
  {
    hide Advanced, SongDeleted, Stopped, DeleteAborts, DistinctIds, IsIdentity, Runs.Safe;
    match c
    case SongStarted(paused) =>
      if s.queue.consume {
        DeleteVersion(s.(current := s.queued, queued := -1), s.queue.order[s.current], paused, s');
      }
    case PlayerStopped(failed, fatal, paused) =>
      var s1 := s.(errorCount := if failed then s.errorCount + 1 else 0);
      if (s.stopOnError && failed) || fatal || s1.errorCount >= |s.queue.items| {
        StoppedKeeps(s1, s');
      } else {
        NextVersion(s1, paused, s');
      }
  }

  /** Every command that changes what clients are shown gives the queue the next version, and no other one does. */
  lemma StepVersion(s: State, c: Runs.Command, s': State)
    requires WellFormed(s) && Runs.Permitted(s, c) && Runs.Step(s, c, s')
    ensures VersionMoved(s.queue, s'.queue, IsVersioned(s, c))
    ensures s'.queue.version != s.queue.version <==> IsVersioned(s, c)
  {
    hide Appended, SongsSwapped, PrioritySet, SongDeleted, RangeRemoved, Finished, RangeMoved, RangeShuffled, RandomSet,
      ModesSet, PlayedOrder, Advanced, Stopped, Cleared, Started, Resumed, Updated, Sought, Previous, Retagged,
      AllRetagged, SeekTrips, DistinctIds, IsIdentity;
    match c
    case Delete(p, paused) => DeleteVersion(s, p, paused, s');
    case DeleteRange(start, end, paused) =>
      var m, prev :| RangeRemoved(s, start, end, paused, QueuedSong(s), m, prev) && Finished(m, prev, s');
      RangeVersion(s, start, end, paused, QueuedSong(s), m, prev);
      RefreshVersion(m, prev, s');
    case Shuffle(lo, hi, items) => ShuffleVersion(s, lo, hi, items, s');
    case Next(paused) => NextVersion(s, paused, s');
    case SongStarted(_) => PlayerVersion(s, c, s');
    case PlayerStopped(_, _, _) => PlayerVersion(s, c, s');
    case Append(_, _, _) => EditVersion(s, c, s');
    case Swap(_, _) => EditVersion(s, c, s');
    case SetPriority(_, _, _, _) => EditVersion(s, c, s');
    case Move(_, _, _) => EditVersion(s, c, s');
    case SetRandom(_, _) => ModesVersion(s, c, s');
    case SetModes(_, _) => ModesVersion(s, c, s');
    case Requeue => ModesVersion(s, c, s');
    case Seek(_, _) => ModesVersion(s, c, s');
    case _ => ControlVersion(s, c, s');
  }
}

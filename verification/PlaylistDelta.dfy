/**
 Every playlist command changes the queue by queue operations and at most one new
 version, so the delta between two states of a playlist run is complete, too.
 */
module PlaylistDelta {
  import opened Basics
  import opened Permutations
  import opened QueueSpec
  import opened PriorityOrder
  import opened PlaylistSpec
  import opened PlaylistProofs
  import opened PlaylistOutcomes
  import opened PlaylistRanges
  import R = QueueRuns
  import P = PlaylistRuns

  /** `q'` is reached from `q` by queue operations; the version number starts over `wraps` times. */
  ghost predicate Evolves(q: Queue, wraps: nat, q': Queue) {
    Consistent(q) && exists ops :: R.EnabledRun(q, ops) && R.Run(q, ops) == q' && R.WrapCount(q, ops) == wraps
  }

  lemma Stays(q: Queue)
    requires Consistent(q)
    ensures Evolves(q, 0, q)
  {
    R.RunNothing(q);
  }

  lemma EvolvesBy(q: Queue, wraps: nat, q1: Queue, op: R.Op)
    requires Evolves(q, wraps, q1) && Consistent(q1) && R.Enabled(q1, op)
    ensures Evolves(q, wraps + if R.Wraps(q1, op) then 1 else 0, R.Apply(q1, op))
  {
    hide R.Apply, R.Enabled, R.EnabledRun, R.Run, R.WrapCount, Consistent;
    var ops :| R.EnabledRun(q, ops) && R.Run(q, ops) == q1 && R.WrapCount(q, ops) == wraps;
    R.RunSnoc(q, ops, op);
  }

  lemma {:induction false} RunJoined(q: Queue, ops: seq<R.Op>, q1: Queue, more: seq<R.Op>)
    requires Consistent(q) && R.EnabledRun(q, ops) && R.Run(q, ops) == q1
    requires Consistent(q1) && R.EnabledRun(q1, more)
    ensures R.EnabledRun(q, ops + more) && R.Run(q, ops + more) == R.Run(q1, more)
    ensures R.WrapCount(q, ops + more) == R.WrapCount(q, ops) + R.WrapCount(q1, more)
    decreases |more|
  {
    hide R.Apply, R.Enabled, Consistent;
    if more == [] {
      assert ops + more == ops;
    } else {
      var n := |more| - 1;
      RunJoined(q, ops, q1, more[..n]);
      R.RunSnoc(q, ops + more[..n], more[n]);
      assert ops + more[..n] + [more[n]] == ops + more;
    }
  }

  lemma EvolvesOn(q: Queue, wraps: nat, q1: Queue, more: nat, q2: Queue)
    requires Evolves(q, wraps, q1) && Evolves(q1, more, q2)
    ensures Evolves(q, wraps + more, q2)
  {
    hide R.EnabledRun, R.Run, R.WrapCount, Consistent;
    var ops :| R.EnabledRun(q, ops) && R.Run(q, ops) == q1 && R.WrapCount(q, ops) == wraps;
    var ops' :| R.EnabledRun(q1, ops') && R.Run(q1, ops') == q2 && R.WrapCount(q1, ops') == more;
    RunJoined(q, ops, q1, ops');
  }

  // ---- changes within one version ----

  /** `q'` is reached from `q` without a new version. */
  ghost predicate Changed(q: Queue, q': Queue) {
    Evolves(q, 0, q') && q'.version == q.version && Consistent(q')
  }

  lemma ChangedBy(q: Queue, q1: Queue, op: R.Op)
    requires Changed(q, q1) && R.Enabled(q1, op) && !op.IncrementVersion?
    ensures Changed(q, R.Apply(q1, op))
  {
    EvolvesBy(q, 0, q1, op);
    hide Evolves;
    R.ApplyConsistent(q1, op);
    R.ApplyVersion(q1, op);
  }

  lemma ChangedOrder(q: Queue, q1: Queue, q2: Queue)
    requires Changed(q, q1) && q2 == q1.(order := q2.order) && R.IsOrderFor(q1, q1.random, q2.order)
    ensures Changed(q, q2)
  {
    hide Evolves, Consistent;
    ChangedBy(q, q1, R.Reorder(q2.order));
  }

  /** How often the version number has started over from `q` to `q'`, at most one new version later. */
  function Restarts(q: Queue, q': Queue): nat {
    if q'.version < q.version then 1 else 0
  }

  /** `q'` is reached from `q` with at most one new version. */
  ghost predicate Moved(q: Queue, q': Queue) {
    Evolves(q, Restarts(q, q'), q')
  }

  lemma ChangedMoves(q: Queue, q': Queue)
    requires Changed(q, q')
    ensures Moved(q, q')
  {
  }

  lemma UpdateChanges(q: Queue, s: State, prev: Option<Song>, s': State)
    requires Changed(q, s.queue) && UpdateEntry(s, prev) && Updated(s, prev, s')
    ensures Changed(q, s'.queue)
  {
    hide Evolves, DistinctIds, Descending;
    if StartsOver(s) {
      ChangedOrder(q, s.queue, s'.queue);
    }
  }

  lemma RefreshMoves(q: Queue, s: State, prev: Option<Song>, s': State)
    requires Changed(q, s.queue) && Refreshed(s, prev, s')
    ensures Moved(q, s'.queue)
  {
    var q1 := Incremented(s.queue);
    EvolvesBy(q, 0, s.queue, R.IncrementVersion);
    assert Evolves(q, Restarts(q, q1), q1);
    Bumped(s.queue);
    hide Evolves, Incremented, DistinctIds, Descending;
    Stays(q1);
    UpdateChanges(q1, s.(queue := q1), prev, s');
    EvolvesOn(q, Restarts(q, q1), q1, 0, s'.queue);
  }

  lemma FinishMoves(q: Queue, s: State, prev: Option<Song>, s': State)
    requires Changed(q, s.queue) && Finished(s, prev, s')
    ensures Moved(q, s'.queue)
  {
    if s.playing {
      RefreshMoves(q, s, prev, s');
    } else {
      EvolvesBy(q, 0, s.queue, R.IncrementVersion);
    }
  }

  // ---- each command ----

  lemma AppendMoves(s: State, song: Song, id: nat, r: nat, s': State)
    requires WellFormed(s) && Appended(s, song, id, r, s')
    ensures Moved(s.queue, s'.queue)
  {
    var q := s.queue;
    Stays(q);
    var op := R.Append(song, id, 0);
    ChangedBy(q, q, op);
    var q1 := AppendedQueue(s, song, id, r);
    AppendedConsistent(s, song, id, r);
    ChangedOrder(q, R.Apply(q, op), q1);
    assert Refreshed(s.(queue := q1), QueuedSong(s), s');
    hide Refreshed, Changed, Consistent, Appended;
    RefreshMoves(q, s.(queue := q1), QueuedSong(s), s');
  }

  lemma SwapMoves(s: State, i: nat, j: nat, s': State)
    requires WellFormed(s) && i < |s.queue.items| && j < |s.queue.items| && SongsSwapped(s, i, j, s')
    ensures Moved(s.queue, s'.queue)
  {
    var q := s.queue;
    Stays(q);
    ChangedBy(q, q, R.Swap(i, j));
    var q1 := SwappedQueue(q, i, j);
    SwappedQueueConsistent(q, i, j);
    ChangedOrder(q, R.Apply(q, R.Swap(i, j)), q1);
    var s1 := s.(queue := q1, current := SwappedCurrent(q, s.current, i, j));
    assert Refreshed(s1, QueuedSong(s), s');
    hide Refreshed, Changed, Consistent;
    RefreshMoves(q, s1, QueuedSong(s), s');
  }

  lemma PriorityMoves(s: State, start: nat, end: nat, priority: Priority, o: seq<nat>, s': State)
    requires WellFormed(s) && start < end <= |s.queue.items| && PrioritySet(s, start, end, priority, o, s')
    ensures Moved(s.queue, s'.queue)
  {
    var q := s.queue;
    Stays(q);
    var op := R.SetPriorities(start, end, priority, o);
    ChangedBy(q, q, op);
    var s1 := s.(queue := R.Apply(q, op), current := OrderOf(o, CurrentPosition(s)));
    assert Refreshed(s1, QueuedSong(s), s');
    hide Refreshed, Changed, Consistent, SetPriorityBetween;
    RefreshMoves(q, s1, QueuedSong(s), s');
  }

  lemma StopChanges(q: Queue, s: State, s': State)
    requires Changed(q, s.queue) && s.current < |s.queue.items| && (s.playing && s.queue.random ==> s.current >= 0)
    requires Stopped(s, s')
    ensures Changed(q, s'.queue)
  {
    hide Evolves, DistinctIds, Descending;
    if s.playing && s.queue.random {
      ChangedOrder(q, s.queue, s'.queue);
    }
  }

  lemma RemoveChanges(q: Queue, s: State, p: nat, paused: bool, s': State)
    requires Changed(q, s.queue) && p < |s.queue.items| && -1 <= s.current
    requires !DeleteAborts(s, p) && Removed(s, p, paused, s')
    ensures Changed(q, s'.queue)
  {
    hide Evolves, DeletedItems, WithoutEntry, Descending, DistinctIds;
    var n := IndexOf(s.queue.order, p);
    var m :| Vacated(s, p, paused, m) && Consistent(m.queue) && |m.queue.items| == |s.queue.items|
      && s' == m.(queue := DeletedQueue(m.queue, p), current := if m.current > n then m.current - 1 else m.current);
    VacateChanges(q, s, p, paused, m);
    ChangedBy(q, m.queue, R.Delete(p));
  }

  lemma VacateChanges(q: Queue, s: State, p: nat, paused: bool, m: State)
    requires Changed(q, s.queue) && p < |s.queue.items| && -1 <= s.current
    requires !DeleteAborts(s, p) && Vacated(s, p, paused, m)
    ensures Changed(q, m.queue)
  {
    hide Evolves, DistinctIds, Descending, Stopped;
    if IsPlaying(s, p) && !(Successor(s) >= 0 && !paused) {
      var s1 := s.(current := Successor(s));
      var stopped :| Stopped(s1, stopped) && m == stopped.(calls := stopped.calls + [Stop]);
      StopChanges(q, s1, stopped);
    }
  }

  lemma DeleteMoves(q: Queue, s: State, p: nat, paused: bool, s': State)
    requires Changed(q, s.queue) && WellFormed(s) && p < |s.queue.items| && !DeleteAborts(s, p)
    requires SongDeleted(s, p, paused, s')
    ensures Moved(q, s'.queue)
  {
    var prev := if IsPlaying(s, p) then None else QueuedSong(s);
    var m :| Removed(s, p, paused, m) && Finished(m, prev, s');
    hide Removed, Finished, Changed, Consistent;
    RemoveChanges(q, s, p, paused, m);
    FinishMoves(q, m, prev, s');
  }

  lemma {:induction false} RangeChanges(q: Queue, s: State, start: nat, end: nat, paused: bool,
                                        prev: Option<Song>, s': State, prev': Option<Song>)
    requires Changed(q, s.queue) && RangeRemoved(s, start, end, paused, prev, s', prev')
    ensures Changed(q, s'.queue)
    decreases end
  {
    hide Changed, Removed, DeleteAborts, IsPermutation, DistinctIds, IsIdentity;
    if start < end {
      var prev1 := if IsPlaying(s, end - 1) then None else prev;
      var m :| RemovedBefore(s, end, paused, m) && RangeRemoved(m, start, end - 1, paused, prev1, s', prev');
      RemoveChanges(q, s, end - 1, paused, m);
      RangeChanges(q, m, start, end - 1, paused, prev1, s', prev');
    }
  }

  lemma DeleteRangeMoves(s: State, start: nat, end: nat, paused: bool, s': State)
    requires WellFormed(s) && RangeDeleted(s, start, end, paused, s')
    ensures Moved(s.queue, s'.queue)
  {
    Stays(s.queue);
    var m, prev :| RangeRemoved(s, start, end, paused, QueuedSong(s), m, prev) && Finished(m, prev, s');
    assert Changed(s.queue, s.queue);
    hide RangeRemoved, Finished, Changed, Consistent;
    RangeChanges(s.queue, s, start, end, paused, QueuedSong(s), m, prev);
    FinishMoves(s.queue, m, prev, s');
  }

  lemma MoveMoves(s: State, start: nat, end: nat, to: nat, s': State)
    requires WellFormed(s) && start <= end <= |s.queue.items| && to + (end - start) <= |s.queue.items|
    requires RangeMoved(s, start, end, to, s')
    ensures Moved(s.queue, s'.queue)
  {
    Stays(s.queue);
    ChangedBy(s.queue, s.queue, R.MoveRange(start, end, to));
    var s1 := s.(queue := MovedQueue(s.queue, start, end, to),
                 current := if s.queue.random then s.current else MovedCurrent(s.current, start, end, to));
    assert Changed(s.queue, s1.queue);
    hide Refreshed, Changed, Consistent, MovedQueue;
    RefreshMoves(s.queue, s1, QueuedSong(s), s');
  }

  lemma PutFirstChanges(s: State, start: nat)
    requires WellFormed(s) && s.current >= 0 && start < |s.queue.items|
    ensures Changed(s.queue, PutFirst(s, start).queue)
  {
    Stays(s.queue);
    hide Evolves, DistinctIds;
    ChangedBy(s.queue, s.queue, R.Swap(start, s.queue.order[s.current]));
  }

  lemma ShuffleMoves(s: State, start: nat, end: nat, items: seq<Item>, s': State)
    requires WellFormed(s) && start + 1 < end <= |s.queue.items| && RangeShuffled(s, start, end, items, s')
    ensures Moved(s.queue, s'.queue)
  {
    var q := s.queue;
    Stays(q);
    var inside := Inside(s, start, end);
    var s1 := if inside then PutFirst(s, start) else if s.playing then s else s.(current := -1);
    var lo := if inside then start + 1 else start;
    if inside {
      PutFirstChanges(s, start);
    }
    hide Refreshed, Evolves, IsPermutation, IsIdentity, DistinctIds, ShuffledItems, PutFirst;
    ChangedBy(q, s1.queue, R.ShuffleRange(lo, end, items));
    RefreshMoves(q, s1.(queue := s1.queue.(items := items)), QueuedSong(s), s');
  }

  lemma RandomChanges(s: State, random: bool, q: Queue, s': State)
    requires WellFormed(s) && random != s.queue.random && RandomSet(s, random, q, s')
    ensures Changed(s.queue, s'.queue)
  {
    Stays(s.queue);
    ChangedBy(s.queue, s.queue, R.SetRandom(random, q.order));
    var s1 := s.(queue := q, current := if random then (if s.playing then 0 else -1) else CurrentPosition(s));
    assert Changed(s.queue, s1.queue);
    hide Updated, Changed, Consistent;
    UpdateChanges(s.queue, s1, QueuedSong(s), s');
  }

  lemma ModesChange(s: State, repeat: bool, single: bool, s': State)
    requires WellFormed(s) && ModesSet(s, repeat, single, s')
    ensures Changed(s.queue, s'.queue)
  {
    Stays(s.queue);
    ChangedBy(s.queue, s.queue, R.SetModes(repeat, single, s.queue.consume));
    var s1 := s.(queue := s.queue.(repeat := repeat, single := single));
    assert Changed(s.queue, s1.queue);
    hide Updated, Changed, Consistent;
    UpdateChanges(s.queue, s1, QueuedSong(s), s');
  }

  lemma ConsumeChanges(s: State, consume: bool)
    requires WellFormed(s)
    ensures Changed(s.queue, s.queue.(consume := consume))
  {
    Stays(s.queue);
    ChangedBy(s.queue, s.queue, R.SetModes(s.queue.repeat, s.queue.single, consume));
  }

  lemma PlayChanges(s: State, n: nat, s': State)
    requires WellFormed(s) && n < |s.queue.items| && PlayedOrder(s, n, s')
    ensures Changed(s.queue, s'.queue)
  {
    Stays(s.queue);
    hide Evolves, DistinctIds;
    if s.queue.random {
      SwapKeepsPermutation(s.queue.order, n, if s.playing then s.current else 0);
      ChangedOrder(s.queue, s.queue, s'.queue);
    }
  }

  lemma SkipChanges(s: State, s': State)
    requires WellFormed(s) && s.playing && Skipped(s, s')
    ensures Changed(s.queue, s'.queue) && WellFormed(s')
  {
    Stays(s.queue);
    SkippedKeeps(s, s');
    hide Evolves, Skipped, DistinctIds;
    ChangedOrder(s.queue, s.queue, s'.queue);
  }

  lemma NextMoves(s: State, paused: bool, s': State)
    requires WellFormed(s) && Advanced(s, paused, s')
    ensures Moved(s.queue, s'.queue)
  {
    hide Skipped, SongDeleted, Changed, Moved, DeleteAborts, DistinctIds;
    if !s.playing {
      Unchanged(s.queue);
    } else if !s.queue.consume {
      SkipChanges(s, s');
      ChangedMoves(s.queue, s'.queue);
    } else {
      var m :| Skipped(s, m) && WellFormed(m) && |m.queue.items| == |s.queue.items|
        && var p := m.queue.order[s.current];
           p < |m.queue.items| && !DeleteAborts(m, p) && SongDeleted(m, p, paused, s');
      SkipChanges(s, m);
      DeleteMoves(s.queue, m, m.queue.order[s.current], paused, s');
    }
  }

  lemma Unchanged(q: Queue)
    requires Consistent(q)
    ensures Changed(q, q) && Moved(q, q)
  {
    Stays(q);
  }

  lemma StopMoves(s: State, s': State)
    requires WellFormed(s) && Stopped(s, s')
    ensures Changed(s.queue, s'.queue)
  {
    Unchanged(s.queue);
    hide Changed, Moved, Stopped;
    StopChanges(s.queue, s, s');
  }

  lemma ClearMoves(s: State, s': State)
    requires WellFormed(s) && Cleared(s, s')
    ensures Moved(s.queue, s'.queue)
  {
    var m :| Stopped(s, m)
      && s' == m.(queue := Incremented(m.queue.(items := [], order := [])), current := -1);
    StopMoves(s, m);
    ChangedBy(s.queue, m.queue, R.Clear);
    var q := m.queue.(items := [], order := []);
    assert q == R.Apply(m.queue, R.Clear);
    EvolvesBy(s.queue, 0, q, R.IncrementVersion);
  }

  lemma StartMoves(s: State, paused: bool, s': State)
    requires WellFormed(s) && s.playing && s.queued >= 0 && Started(s, paused, s')
    ensures Moved(s.queue, s'.queue)
  {
    Unchanged(s.queue);
    hide SongDeleted, Changed, Moved, DeleteAborts, DistinctIds;
    if s.queue.consume {
      DeleteMoves(s.queue, s.(current := s.queued, queued := -1), s.queue.order[s.current], paused, s');
    }
  }

  lemma ResumeMoves(s: State, failed: bool, fatal: bool, paused: bool, s': State)
    requires WellFormed(s) && s.playing && Resumed(s, failed, fatal, paused, s')
    ensures Moved(s.queue, s'.queue)
  {
    hide Advanced, Stopped, Changed, Moved, Consistent;
    var s1 := s.(errorCount := if failed then s.errorCount + 1 else 0);
    if (s.stopOnError && failed) || fatal || s1.errorCount >= |s.queue.items| {
      StopMoves(s1, s');
      ChangedMoves(s.queue, s'.queue);
    } else {
      NextMoves(s1, paused, s');
    }
  }

  lemma SeekChanges(s: State, p: nat, success: bool, s': State)
    requires WellFormed(s) && p < |s.queue.items| && Sought(s, p, success, s')
    ensures Changed(s.queue, s'.queue)
  {
    Unchanged(s.queue);
    hide Changed, Moved, Updated, Consistent;
    var s1 := if success then Seeking(s, p).(queued := -1) else Seeking(s, p);
    UpdateChanges(s.queue, s1, if success then None else AssumedQueued(s, p), s');
  }

  lemma TouchMoves(q: Queue, lo: nat, hi: nat)
    requires Consistent(q) && lo <= hi <= |q.items|
    ensures Moved(q, Incremented(q.(items := StampRange(q.items, lo, hi, q.version))))
  {
    Unchanged(q);
    ChangedBy(q, q, R.Touch(lo, hi));
    EvolvesBy(q, 0, R.Apply(q, R.Touch(lo, hi)), R.IncrementVersion);
  }

  lemma RetagMoves(s: State)
    requires WellFormed(s)
    ensures Moved(s.queue, Retagged(s).queue)
  {
    PermutationInRange(s.queue.items, s.queue.order);
    Unchanged(s.queue);
    hide Changed, Moved, Incremented, StampRange, IsPermutation, DistinctIds, IsIdentity;
    if s.playing {
      TouchMoves(s.queue, s.queue.order[s.current], s.queue.order[s.current] + 1);
    }
  }

  lemma AllRetagMoves(s: State)
    requires WellFormed(s)
    ensures Moved(s.queue, AllRetagged(s).queue)
  {
    hide Changed, Moved, Incremented, StampRange, IsPermutation, DistinctIds, IsIdentity;
    TouchMoves(s.queue, 0, |s.queue.items|);
  }

  /** Every command is a run of queue operations with at most one new version. */
  lemma StepMoves(s: State, c: P.Command, s': State)
    requires WellFormed(s) && P.Permitted(s, c) && P.Step(s, c, s')
    ensures Moved(s.queue, s'.queue)
  {
    hide Consistent, Appended, SongsSwapped, PrioritySet, SongDeleted, RangeDeleted, RangeMoved,
      RangeShuffled, RandomSet, ModesSet, PlayedOrder, Advanced, Stopped, Cleared, Started, Resumed,
      Updated, StaysInside, HasWayOut, DeleteAborts, Changed, Moved, Sought, Retagged, AllRetagged;
    Unchanged(s.queue);
    match c
    case Append(song, id, r) => AppendMoves(s, song, id, r, s');
    case Swap(i, j) => SwapMoves(s, i, j, s');
    case SetPriority(first, last, priority, o) => PriorityMoves(s, first, last, priority, o, s');
    case Delete(p, paused) => DeleteMoves(s.queue, s, p, paused, s');
    case DeleteRange(start, end, paused) => DeleteRangeMoves(s, start, end, paused, s');
    case Move(from, until, to) => MoveMoves(s, from, until, to, s');
    case Shuffle(lo, hi, items) => ShuffleMoves(s, lo, hi, items, s');
    case SetRandom(random, q) =>
      RandomChanges(s, random, q, s');
      ChangedMoves(s.queue, s'.queue);
    case SetModes(repeat, single) =>
      ModesChange(s, repeat, single, s');
      ChangedMoves(s.queue, s'.queue);
    case SetConsume(consume) =>
      ConsumeChanges(s, consume);
      ChangedMoves(s.queue, s'.queue);
    case Play(k) =>
      PlayChanges(s, k, s');
      ChangedMoves(s.queue, s'.queue);
    case Next(paused) => NextMoves(s, paused, s');
    case Previous => PreviousKeeps(s);
    case Stop =>
      StopMoves(s, s');
      ChangedMoves(s.queue, s'.queue);
    case Clear => ClearMoves(s, s');
    case SongStarted(paused) => StartMoves(s, paused, s');
    case PlayerStopped(failed, fatal, paused) => ResumeMoves(s, failed, fatal, paused, s');
    case Requeue =>
      UpdateChanges(s.queue, s, None, s');
      ChangedMoves(s.queue, s'.queue);
    case Seek(p, success) =>
      SeekChanges(s, p, success, s');
      ChangedMoves(s.queue, s'.queue);
    case TagChanged => RetagMoves(s);
    case VersionAll => AllRetagMoves(s);
  }

  // ---- the delta over a whole run ----

  /** How often the version number starts over in the first `k` steps of a run. */
  function Rounds(states: seq<State>, k: nat): nat
    requires k < |states|
  {
    if k == 0 then 0 else Rounds(states, k - 1) + Restarts(states[k - 1].queue, states[k].queue)
  }

  lemma {:induction false} RunMoves(states: seq<State>, cs: seq<P.Command>, k: nat)
    requires P.IsRun(states, cs) && WellFormed(states[0]) && k <= |cs|
    ensures Evolves(states[0].queue, Rounds(states, k), states[k].queue)
  {
    hide Evolves, P.Step, P.Permitted, Consistent;
    if k == 0 {
      Stays(states[0].queue);
    } else {
      RunMoves(states, cs, k - 1);
      P.RunKeeps(states, cs, k - 1);
      StepMoves(states[k - 1], cs[k - 1], states[k]);
      EvolvesOn(states[0].queue, Rounds(states, k - 1), states[k - 1].queue,
                Restarts(states[k - 1].queue, states[k].queue), states[k].queue);
    }
  }

  /** The client has the list of `live` once it has patched the list of `known`. */
  ghost predicate Synced(known: Queue, live: Queue) {
    var changes := R.ChangesBelow(live, known.version, |live.items|);
    R.Truncate(R.Patch(Entries(known.items), changes), |live.items|) == Entries(live.items)
  }

  lemma EvolvedSync(q: Queue, wraps: nat, q': Queue)
    requires Evolves(q, wraps, q') && R.NotLapped(q.version, wraps, q'.version)
    ensures Synced(q, q')
  {
    hide R.EnabledRun, R.Run, R.WrapCount, R.Patch, R.Truncate, R.ChangesBelow, Entries, Consistent;
    var ops :| R.EnabledRun(q, ops) && R.Run(q, ops) == q' && R.WrapCount(q, ops) == wraps;
    R.DeltaSync(q, ops);
  }

  /**
   After any run of playlist commands and player events, a client that patches the list it
   knew with the delta has the list of the server, unless the version number has lapped it.
   */
  lemma PlaylistDeltaSync(states: seq<State>, cs: seq<P.Command>, k: nat)
    requires P.IsRun(states, cs) && WellFormed(states[0]) && k <= |cs|
    requires R.NotLapped(states[0].queue.version, Rounds(states, k), states[k].queue.version)
    ensures Synced(states[0].queue, states[k].queue)
  {
    RunMoves(states, cs, k);
    hide Evolves, Synced, R.NotLapped, Rounds;
    EvolvedSync(states[0].queue, Rounds(states, k), states[k].queue);
  }
}

/**
 All outcomes that the random numbers inside a playlist operation allow: when each
 of them keeps the right song, in terms of the state before the call.
 */
module PlaylistOutcomes {
  import opened Basics
  import opened Permutations
  import opened QueueSpec
  import opened PriorityOrder
  import opened Shuffles
  import opened PlaylistSpec
  import opened PlaylistProofs

  // ---- every operation has an outcome ----

  lemma UpdateOutcome(s: State, prev: Option<Song>) returns (s': State)
    requires UpdateEntry(s, prev)
    ensures Updated(s, prev, s')
  {
    s' := s;
    if s.playing {
      if StartsOver(s) {
        var o := ShuffleExists(s.queue.items);
        s' := s.(queue := s.queue.(order := o), current := IndexOf(o, s.queue.order[s.current]));
      }
      var next := NextOrder(s.queue, s.current);
      s' := s'.(queued := next, calls := s.calls + Announce(prev, SongAt(s'.queue, next)));
    }
  }

  lemma RefreshOutcome(s: State, prev: Option<Song>) returns (s': State)
    requires UpdateEntry(s, prev)
    ensures Refreshed(s, prev, s')
  {
    Bumped(s.queue);
    hide Incremented, Updated;
    s' := UpdateOutcome(s.(queue := Incremented(s.queue)), prev);
  }

  // ---- starting over ----

  /** Whenever the order is shuffled to start over, another song than the current one is queued. */
  ghost predicate AlwaysQueuesAnother(s: State, prev: Option<Song>)
    requires UpdateEntry(s, prev)
  {
    forall s' :: Updated(s, prev, s') ==> s'.queued != s'.current
  }

  /** On starting over, the current song can be queued behind itself unless a song has a higher priority. */
  lemma QueuesAnotherExactlyWhen(s: State, prev: Option<Song>)
    requires UpdateEntry(s, prev) && StartsOver(s)
    ensures AlwaysQueuesAnother(s, prev) <==>
            exists q :: 0 <= q < |s.queue.items| && s.queue.items[q].priority > ItemAt(s.queue, s.current).priority
  {
    hide DistinctIds, IsIdentity;
    var items, x := s.queue.items, s.queue.order[s.current];
    if q :| 0 <= q < |items| && items[q].priority > items[x].priority {
      forall s' | Updated(s, prev, s') ensures s'.queued != s'.current {
        HigherComesFirst(items, s'.queue.order, q, x);
      }
    } else {
      var o := ShuffleFirst(items, x);
      assert Higher(items, x) == {};
      var q' := s.queue.(order := o);
      var s' := s.(queue := q', current := 0, queued := 0, calls := s.calls + Announce(prev, SongAt(q', 0)));
      assert Updated(s, prev, s');
    }
  }

  // ---- moving ----

  /** Of four songs the third one plays; the first two are moved on by one position. */
  lemma MoveLosesTrack() returns (s: State, s': State)
    ensures WellFormed(s) && s.playing && !s.queue.random && |s.queue.items| == 4 && s.current == 2
    ensures RangeMoved(s, 0, 2, 1, s') && WellFormed(s') && !SameSong(s, s')
  {
    s := FourSongs(2);
    hide Refreshed, Consistent, MovedQueue;
    var s1 := s.(queue := MovedQueue(s.queue, 0, 2, 1), current := MovedCurrent(2, 0, 2, 1));
    MovedEntry(s, 0, 2, 1);
    s' := RefreshOutcome(s1, QueuedSong(s));
    MoveKeepsCurrent(s, 0, 2, 1, s');
  }

  lemma FourSongs(c: nat) returns (s: State)
    requires c < 4
    ensures WellFormed(s) && s.playing && !s.queue.random && |s.queue.items| == 4 && s.current == c && s.queued == -1
  {
    var items := [Item(5, 0, 1, 0), Item(6, 1, 1, 0), Item(7, 2, 1, 0), Item(8, 3, 1, 0)];
    s := State(Queue(items, [0, 1, 2, 3], 1, false, false, false, false), true, c, -1, false, 0, []);
  }

  /** The first three of four songs, moved right before the last one, which plays, are sent to position 2. */
  lemma MoveTargetMisfits() returns (s: State)
    ensures WellFormed(s) && |s.queue.items| == 4 && s.current == 3
    ensures DecideMove(s, 0, 3, -4) == MoveTo(2) && 2 + 3 > |s.queue.items|
  {
    s := FourSongs(3);
  }

  // ---- appending ----

  /** Every outcome of an append keeps the current song. */
  ghost predicate AppendAlwaysKeeps(s: State, song: Song, id: nat)
    requires WellFormed(s)
  {
    forall r: nat, s' :: Appended(s, song, id, r, s') ==> WellFormed(s') && SameSong(s, s')
  }

  /** An append can displace the current song exactly if, in random mode, the queued song comes before it. */
  lemma AppendKeepsCurrentExactlyWhen(s: State, song: Song, id: nat)
    requires WellFormed(s) && forall p :: 0 <= p < |s.queue.items| ==> s.queue.items[p].id != id
    ensures AppendAlwaysKeeps(s, song, id) <==> !MayDisplace(s)
  {
    hide Appended, Refreshed, AppendedQueue;
    if MayDisplace(s) {
      var s1 := s.(queue := AppendedQueue(s, song, id, s.current));
      AppendEntry(s, song, id, s.current);
      var s' := RefreshOutcome(s1, QueuedSong(s));
      AppendedRefreshed(s, song, id, s.current, s');
      AppendKeepsCurrent(s, song, id, s.current, s');
    } else {
      forall r: nat, s' | Appended(s, song, id, r, s') ensures WellFormed(s') && SameSong(s, s') {
        AppendKeepsCurrent(s, song, id, r, s');
      }
    }
  }

  lemma AppendEntry(s: State, song: Song, id: nat, r: nat)
    requires WellFormed(s) && forall p :: 0 <= p < |s.queue.items| ==> s.queue.items[p].id != id
    ensures UpdateEntry(s.(queue := AppendedQueue(s, song, id, r)), QueuedSong(s))
  {
    AppendedConsistent(s, song, id, r);
  }

  // ---- consuming the song that "next" leaves ----

  /** Every outcome of `playlist_next()` deletes the song that it leaves, and only that song. */
  ghost predicate ConsumesSongLeft(s: State, paused: bool)
    requires WellFormed(s) && s.playing
  {
    forall s' :: Advanced(s, paused, s') ==>
      Entries(s'.queue.items) == RemoveAt(Entries(s.queue.items), s.queue.order[s.current])
  }

  predicate OnlyLowest(s: seq<Item>, p: nat)
    requires p < |s|
  {
    forall q :: 0 <= q < |s| && q != p ==> s[q].priority > s[p].priority
  }

  lemma SkipOutcome(s: State, o: seq<nat>) returns (m: State)
    requires WellFormed(s) && s.playing && s.queue.consume && s.queue.random
    requires s.current + 1 == |s.queue.items| && IsShuffle(s.queue.items, o)
    ensures Skipped(s, m) && m.queue == s.queue.(order := o)
  {
    var q := s.queue.(order := o);
    var s1 := s.(stopOnError := false);
    if NextOrder(s.queue, s.current) < 0 {
      var stopped := s1.(queue := q, current := IndexOf(o, s.queue.order[s.current]), queued := -1,
                         playing := false, calls := s.calls + [Stop]);
      assert Stopped(s1, stopped);
      m := stopped.(current := -1);
    } else {
      m := PlayOrder(s1.(queue := q), 0);
    }
  }

  lemma DeleteOtherOutcome(s: State, p: nat, paused: bool) returns (s': State)
    requires WellFormed(s) && p < |s.queue.items| && s.current != IndexOf(s.queue.order, p)
    ensures !DeleteAborts(s, p) && SongDeleted(s, p, paused, s')
  {
    var n := IndexOf(s.queue.order, p);
    var m := s.(queue := DeletedQueue(s.queue, p), current := if s.current > n then s.current - 1 else s.current);
    assert Vacated(s, p, paused, s);
    assert Removed(s, p, paused, m);
    RemovedRefreshable(s, p, paused, m);
    hide Removed, Refreshed, Finished, DeletedQueue;
    s' := RefreshOutcome(m, QueuedSong(s));
    FinishedIsRefreshed(m, QueuedSong(s), s');
    assert Removed(s, p, paused, m) && Finished(m, QueuedSong(s), s');
  }

  /** At the end of the order, `playlist_next()` can delete the last song of any shuffle. */
  lemma AdvanceOutcome(s: State, paused: bool, o: seq<nat>) returns (s': State)
    requires WellFormed(s) && s.playing && s.queue.consume && s.queue.random
    requires s.current + 1 == |s.queue.items| && IsShuffle(s.queue.items, o)
    ensures Advanced(s, paused, s')
    ensures Entries(s'.queue.items) == RemoveAt(Entries(s.queue.items), o[s.current])
    ensures NextOrder(s.queue, s.current) == 0 ==>
              && WellFormed(s') && s'.playing && s'.current >= 0
              && IdAt(s'.queue, s'.current) == s.queue.items[o[0]].id
  {
    var m := SkipOutcome(s, o);
    SkippedKeeps(s, m);
    ConsumedIsNotPlaying(s, m);
    hide Skipped, SongDeleted, Consistent, RemoveAt, Entries;
    s' := DeleteOtherOutcome(m, o[s.current], paused);
    ConsumedKeeps(s, m, paused, s');
  }

  /** Entries with distinct ids can be told apart by what is left without them. */
  lemma RemovedTellsApart(s: seq<Item>, i: nat, j: nat)
    requires DistinctIds(s) && i < |s| && j < |s| && i != j
    ensures RemoveAt(Entries(s), i) != RemoveAt(Entries(s), j)
  {
    var k := if i < j then i else j;
    assert Entries(s)[k].id != Entries(s)[k + 1].id;
    assert RemoveAt(Entries(s), i)[k] != RemoveAt(Entries(s), j)[k];
  }

  lemma SkippedLeaves(s: State, m: State)
    requires WellFormed(s) && s.playing && s.queue.consume && Skipped(s, m)
    requires !s.queue.random || s.current + 1 < |s.queue.items|
             || OnlyLowest(s.queue.items, s.queue.order[s.current])
    ensures s.current < |m.queue.order| && m.queue.order[s.current] == s.queue.order[s.current]
  {
    SkippedKeeps(s, m);
    if s.queue.random && s.current + 1 == |s.queue.items| {
      var left := s.queue.order[s.current];
      assert Reshuffled(s.queue, m.queue);
      var k := IndexOf(m.queue.order, left);
      assert PriorityAt(s.queue.items, m.queue.order, k) == s.queue.items[left].priority;
      assert PriorityAt(s.queue.items, m.queue.order, s.current) == s.queue.items[m.queue.order[s.current]].priority;
    }
  }

  /**
   In consume mode "next" deletes the song that it leaves, whatever the shuffle, exactly if
   the order is not shuffled, or the song has the lowest priority and no other song has it.
   */
  lemma ConsumesSongLeftExactlyWhen(s: State, paused: bool)
    requires WellFormed(s) && s.playing && s.queue.consume
    ensures ConsumesSongLeft(s, paused) <==>
            !s.queue.random || s.current + 1 < |s.queue.items|
            || OnlyLowest(s.queue.items, s.queue.order[s.current])
  {
    var left := s.queue.order[s.current];
    if !s.queue.random || s.current + 1 < |s.queue.items| || OnlyLowest(s.queue.items, left) {
      forall s' | Advanced(s, paused, s')
        ensures Entries(s'.queue.items) == RemoveAt(Entries(s.queue.items), left)
      {
        ConsumedLeft(s, paused, s');
      }
    } else {
      var q :| 0 <= q < |s.queue.items| && q != left && s.queue.items[q].priority <= s.queue.items[left].priority;
      var s' := AnotherConsumed(s, paused, q);
    }
  }

  lemma AnotherConsumed(s: State, paused: bool, q: nat) returns (s': State)
    requires WellFormed(s) && s.playing && s.queue.consume && s.queue.random
    requires s.current + 1 == |s.queue.items| && q < |s.queue.items| && q != s.queue.order[s.current]
    requires s.queue.items[q].priority <= s.queue.items[s.queue.order[s.current]].priority
    ensures Advanced(s, paused, s')
    ensures Entries(s'.queue.items) != RemoveAt(Entries(s.queue.items), s.queue.order[s.current])
  {
    hide Advanced, RemoveAt, Entries, IsShuffle;
    var o := ShuffleLast(s.queue.items, q);
    LastOfShuffle(s.queue.items, o);
    AnotherIsLast(s.queue.items, o, s.queue.order[s.current], q);
    s' := AdvanceOutcome(s, paused, o);
    RemovedTellsApart(s.queue.items, o[s.current], s.queue.order[s.current]);
  }

  lemma LastOfShuffle(s: seq<Item>, o: seq<nat>)
    requires IsShuffle(s, o) && |s| > 0
    ensures |o| == |s| && o[|s| - 1] < |s|
  {
  }

  lemma ConsumedLeft(s: State, paused: bool, s': State)
    requires WellFormed(s) && s.playing && s.queue.consume && Advanced(s, paused, s')
    requires !s.queue.random || s.current + 1 < |s.queue.items|
             || OnlyLowest(s.queue.items, s.queue.order[s.current])
    ensures Entries(s'.queue.items) == RemoveAt(Entries(s.queue.items), s.queue.order[s.current])
  {
    hide Skipped, SongDeleted, Entries, RemoveAt, DeleteAborts;
    var m :| Skipped(s, m) && WellFormed(m) && |m.queue.items| == |s.queue.items|
      && var p := m.queue.order[s.current];
         p < |m.queue.items| && !DeleteAborts(m, p) && SongDeleted(m, p, paused, s');
    SkippedLeaves(s, m);
    ConsumedKeeps(s, m, paused, s');
  }

  lemma AnotherIsLast(s: seq<Item>, o: seq<nat>, p: nat, q: nat)
    requires IsShuffle(s, o) && p < |s| && q < |s| && p != q && s[q].priority <= s[p].priority
    requires IndexOf(o, q) == |Higher(s, q)| + |Level(s, q)| - 1
    ensures o[|s| - 1] != p
  {
    var i, j := IndexOf(o, p), IndexOf(o, q);
    assert PriorityAt(s, o, i) == s[p].priority && PriorityAt(s, o, j) == s[q].priority;
    if s[p].priority == s[q].priority {
      ShuffleBounds(s, o, p);
      assert Higher(s, p) == Higher(s, q) && Level(s, p) == Level(s, q);
    }
  }

  /** Two songs, the second one playing, in random, repeat and consume mode: "next" deletes the other one. */
  lemma NextDeletesAnotherSong() returns (s: State, s': State)
    ensures WellFormed(s) && s.playing && s.queue.consume && |s.queue.items| == 2 && s.current == 1
    ensures Advanced(s, false, s') && WellFormed(s') && s'.playing && SameSong(s, s')
    ensures Entries(s'.queue.items) == [EntryOf(ItemAt(s.queue, s.current))]
  {
    var items := [Item(7, 0, 1, 0), Item(8, 1, 1, 0)];
    var q := Queue(items, [0, 1], 1, true, false, true, true);
    s := State(q, true, 1, -1, false, 0, []);
    assert DistinctIds(items) && IsPermutation(q.order) && Consistent(q);
    var o := [1, 0];
    assert IsShuffle(items, o);
    hide Advanced, DistinctIds, IsPermutation, Descending;
    s' := AdvanceOutcome(s, false, o);
    assert RemoveAt(Entries(items), 0) == [Entries(items)[1]];
  }

  // ---- deleting the paused song in random mode ----

  /** Playback is paused on song `p` in random mode, and another song is to follow it. */
  ghost predicate StaleDelete(s: State, p: nat) {
    && Consistent(s.queue) && -1 <= s.current < |s.queue.items| && p < |s.queue.items|
    && !DeleteAborts(s, p) && UsesStaleOrder(s, p, true)
  }

  /** The position of the song that is to follow. */
  ghost function Heir(s: State, p: nat): (x: nat)
    requires StaleDelete(s, p)
    ensures x < |s.queue.items| && x != p
  {
    s.queue.order[Successor(s)]
  }

  /**
   Stopping has shuffled the order to `o`, but `current` is compared with the order
   number that the deleted song had before.
   */
  ghost function StaleResult(s: State, p: nat, o: seq<nat>): State
    requires StaleDelete(s, p) && IsShuffle(s.queue.items, o)
  {
    var c := IndexOf(o, Heir(s, p));
    s.(queue := DeletedQueue(s.queue.(order := o), p), current := if c > s.current then c - 1 else c,
       queued := -1, playing := false, calls := s.calls + [Stop] + [Stop])
  }

  lemma StaleOutcome(s: State, p: nat, o: seq<nat>)
    requires StaleDelete(s, p) && IsShuffle(s.queue.items, o)
    ensures Removed(s, p, true, StaleResult(s, p, o))
  {
    hide DistinctIds, WithoutEntry, DeletedItems;
    var q := s.queue.(order := o);
    var stopped := s.(queue := q, current := IndexOf(o, Heir(s, p)), queued := -1, playing := false,
                      calls := s.calls + [Stop]);
    assert Stopped(s.(current := Successor(s)), stopped);
    var m := stopped.(calls := stopped.calls + [Stop]);
    assert Vacated(s, p, true, m);
  }

  lemma StaleOutcomes(s: State, p: nat, s': State) returns (o: seq<nat>)
    requires StaleDelete(s, p) && Removed(s, p, true, s')
    ensures IsShuffle(s.queue.items, o) && s' == StaleResult(s, p, o)
  {
    hide DistinctIds, WithoutEntry, DeletedItems;
    var n := IndexOf(s.queue.order, p);
    var m :| Vacated(s, p, true, m) && Consistent(m.queue) && |m.queue.items| == |s.queue.items|
      && s' == m.(queue := DeletedQueue(m.queue, p), current := if m.current > n then m.current - 1 else m.current);
    o := m.queue.order;
  }

  /** Every deletion that does not abort has an outcome. */
  lemma RemoveOutcome(s: State, p: nat, paused: bool) returns (m: State)
    requires Consistent(s.queue) && p < |s.queue.items| && -1 <= s.current < |s.queue.items| && !DeleteAborts(s, p)
    ensures Removed(s, p, paused, m)
  {
    if UsesStaleOrder(s, p, paused) {
      var o := ShuffleExists(s.queue.items);
      StaleOutcome(s, p, o);
      m := StaleResult(s, p, o);
    } else {
      hide DistinctIds, DeletedItems, WithoutEntry;
      var n := IndexOf(s.queue.order, p);
      var v := LeaveOutcome(s, p, paused);
      m := v.(queue := DeletedQueue(v.queue, p), current := if v.current > n then v.current - 1 else v.current);
    }
  }

  lemma LeaveOutcome(s: State, p: nat, paused: bool) returns (v: State)
    requires Consistent(s.queue) && p < |s.queue.items| && -1 <= s.current < |s.queue.items|
    requires !DeleteAborts(s, p) && !UsesStaleOrder(s, p, paused)
    ensures Vacated(s, p, paused, v) && v.queue == s.queue
  {
    if IsPlaying(s, p) {
      if Successor(s) >= 0 && !paused {
        v := PlayOrder(s.(current := Successor(s)), Successor(s));
      } else {
        var stopped := s.(current := Successor(s), queued := -1, playing := false, calls := s.calls + [Stop]);
        assert Stopped(s.(current := Successor(s)), stopped);
        v := stopped.(calls := stopped.calls + [Stop]);
      }
    } else if s.current == IndexOf(s.queue.order, p) {
      v := s.(current := -1);
    } else {
      v := s;
    }
  }

  /** `current` is on the song that was to follow. */
  ghost predicate OnHeir(s: State, p: nat, s': State)
    requires StaleDelete(s, p)
  {
    && Consistent(s'.queue) && 0 <= s'.current < |s'.queue.items|
    && IdAt(s'.queue, s'.current) == s.queue.items[Heir(s, p)].id
  }

  /** The old and the new order number of the deleted song have to lie on the same side. */
  lemma StaleFollows(s: State, p: nat, o: seq<nat>)
    requires StaleDelete(s, p) && IsShuffle(s.queue.items, o)
    ensures var c := IndexOf(o, Heir(s, p));
            OnHeir(s, p, StaleResult(s, p, o)) <==> (c > s.current <==> c > IndexOf(o, p))
  {
    var q := s.queue.(order := o);
    var c := IndexOf(o, Heir(s, p));
    var q' := DeletedQueue(q, p);
    assert Consistent(q) && c != IndexOf(o, p);
    DeletedQueueConsistent(q, p);
    DeleteFollows(q, p, c);
    hide IsIdentity, DeletedItems, WithoutEntry, DeleteAborts, UsesStaleOrder, Entries, IsShuffle;
    var right := if c > IndexOf(o, p) then c - 1 else c;
    var c' := if c > s.current then c - 1 else c;
    if c' < |q'.items| && c' != right {
      DistinctPlayIds(q', c', right);
    }
  }

  lemma DistinctPlayIds(q: Queue, i: nat, j: nat)
    requires Consistent(q) && i < |q.items| && j < |q.items| && i != j
    ensures IdAt(q, i) != IdAt(q, j)
  {
  }

  /** Every outcome leaves `current` on the song that was to follow. */
  ghost predicate StaleAlwaysFollows(s: State, p: nat)
    requires StaleDelete(s, p)
  {
    forall s' :: Removed(s, p, true, s') ==> OnHeir(s, p, s')
  }

  /** The priorities leave no doubt on which side of the old order number the next song will be. */
  ghost predicate OldOrderSuffices(s: State, p: nat)
    requires StaleDelete(s, p)
  {
    var items, x := s.queue.items, Heir(s, p);
    var a, g := |Higher(items, x)|, |Level(items, x)|;
    if items[x].priority > items[p].priority then a + g <= s.current + 1
    else if items[x].priority < items[p].priority then s.current < a
    else g == 2 && s.current == a
  }

  /** Deleting the paused song in random mode follows the next song exactly if the priorities leave no doubt. */
  lemma StaleDeleteExactlyWhen(s: State, p: nat)
    requires StaleDelete(s, p)
    ensures StaleAlwaysFollows(s, p) <==> OldOrderSuffices(s, p)
  {
    hide Removed, IsShuffle, DeletedQueue, OnHeir, OldOrderSuffices, DistinctIds, IsIdentity;
    if OldOrderSuffices(s, p) {
      forall s' | Removed(s, p, true, s') ensures OnHeir(s, p, s') {
        var o := StaleOutcomes(s, p, s');
        SameSide(s, p, o);
        StaleFollows(s, p, o);
      }
    } else {
      var o := OtherSide(s, p);
      StaleOutcome(s, p, o);
      StaleFollows(s, p, o);
    }
  }

  lemma SameSide(s: State, p: nat, o: seq<nat>)
    requires StaleDelete(s, p) && OldOrderSuffices(s, p) && IsShuffle(s.queue.items, o)
    ensures var c := IndexOf(o, Heir(s, p)); c > s.current <==> c > IndexOf(o, p)
  {
    var items, x := s.queue.items, Heir(s, p);
    var c, n := IndexOf(o, x), IndexOf(o, p);
    ShuffleBounds(items, o, x);
    assert PriorityAt(items, o, c) == items[x].priority && PriorityAt(items, o, n) == items[p].priority;
    if items[x].priority == items[p].priority {
      ShuffleBounds(items, o, p);
      assert Higher(items, p) == Higher(items, x) && Level(items, p) == Level(items, x);
    }
  }

  lemma OtherSide(s: State, p: nat) returns (o: seq<nat>)
    requires StaleDelete(s, p) && !OldOrderSuffices(s, p)
    ensures IsShuffle(s.queue.items, o)
    ensures var c := IndexOf(o, Heir(s, p)); !(c > s.current <==> c > IndexOf(o, p))
  {
    var items, x := s.queue.items, Heir(s, p);
    if items[x].priority > items[p].priority {
      o := ShuffleLast(items, x);
      HigherComesFirst(items, o, x, p);
    } else if items[x].priority < items[p].priority {
      o := ShuffleFirst(items, x);
      HigherComesFirst(items, o, p, x);
    } else if s.current > |Higher(items, x)| {
      o := ShuffleSecond(items, p, x);
    } else {
      TwoOfALevel(items, p, x);
      o := ShuffleLastButOne(items, p, x);
    }
  }

  lemma HigherComesFirst(s: seq<Item>, o: seq<nat>, x: nat, p: nat)
    requires IsShuffle(s, o) && x < |s| && p < |s| && s[x].priority > s[p].priority
    ensures IndexOf(o, x) < IndexOf(o, p)
  {
    assert PriorityAt(s, o, IndexOf(o, x)) > PriorityAt(s, o, IndexOf(o, p));
  }

  lemma TwoOfALevel(s: seq<Item>, p: nat, x: nat)
    requires p < |s| && x < |s| && p != x && s[p].priority == s[x].priority
    ensures |Level(s, x)| >= 2
  {
    SubsetCardinality({p, x}, Level(s, x));
  }

  // ---- when the order number even becomes invalid ----

  /** Every outcome leaves `current` inside the queue. */
  ghost predicate StaleAlwaysInside(s: State, p: nat)
    requires StaleDelete(s, p)
  {
    forall s' :: Removed(s, p, true, s') ==> s'.current < |s'.queue.items|
  }

  /** The paused song is not the last in the order, or the next song cannot become the last. */
  ghost predicate StaysInside(s: State, p: nat)
    requires StaleDelete(s, p)
  {
    s.current + 1 < |s.queue.items| ||
    exists q :: 0 <= q < |s.queue.items| && s.queue.items[q].priority < s.queue.items[Heir(s, p)].priority
  }

  lemma StaysInsideExactlyWhen(s: State, p: nat)
    requires StaleDelete(s, p)
    ensures StaleAlwaysInside(s, p) <==> StaysInside(s, p)
  {
    hide Removed, DistinctIds, IsIdentity;
    var x := Heir(s, p);
    if StaysInside(s, p) {
      forall s' | Removed(s, p, true, s') ensures s'.current < |s'.queue.items| {
        var o := StaleOutcomes(s, p, s');
        if s.current + 1 == |s.queue.items| {
          var q :| 0 <= q < |s.queue.items| && s.queue.items[q].priority < s.queue.items[x].priority;
          HigherComesFirst(s.queue.items, o, x, q);
        }
      }
    } else {
      var o := ShuffleLast(s.queue.items, x);
      WholeQueue(s.queue.items, x);
      StaleOutcome(s, p, o);
      assert StaleResult(s, p, o).current == |StaleResult(s, p, o).queue.items|;
    }
  }

  lemma WholeQueue(s: seq<Item>, x: nat)
    requires x < |s| && forall q :: 0 <= q < |s| ==> s[q].priority >= s[x].priority
    ensures |Higher(s, x)| + |Level(s, x)| == |s|
  {
    assert Higher(s, x) + Level(s, x) == Below(|s|) && Higher(s, x) !! Level(s, x);
  }

  /** Three songs, the last one playing but paused, in random and repeat mode: `current` runs past the end. */
  lemma StaleDeleteRunsPastTheEnd() returns (s: State, s': State)
    ensures WellFormed(s) && |s.queue.items| == 3 && !DeleteAborts(s, 2) && UsesStaleOrder(s, 2, true)
    ensures Removed(s, 2, true, s') && s'.current == |s'.queue.items| == 2
  {
    var items := [Item(7, 0, 1, 0), Item(8, 1, 1, 0), Item(9, 2, 1, 0)];
    var q := Queue(items, [0, 1, 2], 1, true, false, false, true);
    s := State(q, true, 2, -1, false, 0, []);
    assert DistinctIds(items) && IsPermutation(q.order) && Consistent(q);
    assert IndexOf(q.order, 2) == 2 && Successor(s) == 0;
    var q' := q.(order := [1, 2, 0]);
    assert IsPermutation(q'.order) && Consistent(q');
    assert IndexOf(q'.order, 0) == 2;
    assert Reshuffled(q, q');
    hide Descending, IsPermutation, DistinctIds, IsIdentity, WithoutEntry, Reshuffled;
    var stopped := s.(queue := q', current := 2, playing := false, calls := [Stop]);
    assert Stopped(s.(current := 0), stopped);
    var m := stopped.(calls := [Stop] + [Stop]);
    assert Vacated(s, 2, true, m);
    s' := m.(queue := DeletedQueue(q', 2));
    assert Removed(s, 2, true, s');
  }

  // ---- the deletions that leave a valid playlist ----

  /** The deletion neither aborts nor can leave `current` outside the queue. */
  ghost predicate DeletePermitted(s: State, p: nat, paused: bool)
    requires WellFormed(s) && p < |s.queue.items|
  {
    !DeleteAborts(s, p) && (UsesStaleOrder(s, p, paused) ==> StaysInside(s, p))
  }

  lemma StaleRefreshable(s: State, p: nat, m: State)
    requires StaleDelete(s, p) && StaysInside(s, p) && Removed(s, p, true, m)
    ensures UpdateEntry(m, None) && !m.playing && m.queued == -1
  {
    hide Removed, StaysInside, IsIdentity;
    StaysInsideExactlyWhen(s, p);
    var o := StaleOutcomes(s, p, m);
    DeletedQueueConsistent(s.queue.(order := o), p);
  }

  /** Every permitted deletion removes exactly one song and keeps the order numbers valid. */
  lemma DeleteKeeps(s: State, p: nat, paused: bool, s': State)
    requires WellFormed(s) && p < |s.queue.items| && DeletePermitted(s, p, paused) && SongDeleted(s, p, paused, s')
    ensures WellFormed(s') && s'.queue.random == s.queue.random
    ensures Entries(s'.queue.items) == RemoveAt(Entries(s.queue.items), p)
    ensures s'.playing && !s.queue.random ==> s'.queued == NextOrder(s'.queue, s'.current)
  {
    if UsesStaleOrder(s, p, paused) {
      var m :| Removed(s, p, paused, m) && Finished(m, None, s');
      hide Removed, Refreshed, Finished, RemoveAt, Entries, StaysInside, IsIdentity;
      StaleRefreshable(s, p, m);
      StaleRemoved(s, p, true, m);
      FinishedIsRefreshed(m, None, s');
      RefreshedKeeps(m, None, s');
    } else {
      DeleteKeepsCurrent(s, p, paused, s');
    }
  }

  // ---- playlist_sync() ----

  /** Consume mode deletes the song that has been left: is that unsafe? */
  ghost predicate StartTrips(s: State, paused: bool)
    requires WellFormed(s) && s.playing && s.queued >= 0
  {
    s.queue.consume && !DeletePermitted(s.(current := s.queued, queued := -1), s.queue.order[s.current], paused)
  }

  /** Does it reach the failing assertion? */
  ghost predicate StartAborts(s: State)
    requires WellFormed(s) && s.playing && s.queued >= 0
  {
    s.queue.consume && DeleteAborts(s.(current := s.queued, queued := -1), s.queue.order[s.current])
  }

  /** It is unsafe only if, in random mode, the song follows itself. */
  lemma StartTripsExactlyWhen(s: State, paused: bool)
    requires WellFormed(s) && s.playing && s.queued >= 0
    ensures StartAborts(s) <==>
      s.queue.random && s.queue.consume && s.queued == s.current && Successor(s) < 0
    ensures StartTrips(s, paused) <==>
      s.queue.random && s.queue.consume && s.queued == s.current &&
      (Successor(s) < 0 || (paused && !StaysInside(s.(queued := -1), s.queue.order[s.current])))
  {
    var p := s.queue.order[s.current];
    assert IndexOf(s.queue.order, p) == s.current;
  }

  lemma StartedKeeps(s: State, paused: bool, s': State)
    requires WellFormed(s) && s.playing && s.queued >= 0 && Started(s, paused, s') && !StartTrips(s, paused)
    ensures WellFormed(s') && s'.queue.random == s.queue.random
  {
    if s.queue.consume {
      var s1 := s.(current := s.queued, queued := -1);
      DeleteKeeps(s1, s.queue.order[s.current], paused, s');
    }
  }

  lemma ResumedKeeps(s: State, failed: bool, fatal: bool, paused: bool, s': State)
    requires WellFormed(s) && s.playing && Resumed(s, failed, fatal, paused, s')
    ensures WellFormed(s') && s'.queue.random == s.queue.random
  {
    hide Advanced, Stopped, IsPermutation, IsIdentity, DistinctIds;
    var s1 := s.(errorCount := if failed then s.errorCount + 1 else 0);
    if (s.stopOnError && failed) || fatal || s1.errorCount >= |s.queue.items| {
      StoppedKeeps(s1, s');
    } else {
      AdvancedKeeps(s1, paused, s');
    }
  }

  /**
   After `playlist_sync()` the order numbers are valid; without random and consume
   mode the song that the player has taken is current, and the one after it is queued.
   */
  lemma SyncedKeeps(s: State, stopped: bool, failed: bool, fatal: bool, paused: bool,
                    taken: bool, takenAgain: bool, s': State)
    requires WellFormed(s) && (s.playing && !stopped && taken && s.queued >= 0 ==> !StartTrips(s, paused))
    requires Synced(s, stopped, failed, fatal, paused, taken, takenAgain, s')
    ensures WellFormed(s') && s'.queue.random == s.queue.random
    ensures s.playing && !s.queue.random && !s.queue.consume && !stopped && taken && takenAgain ==>
              && s'.playing && s'.queue == s.queue && s'.current == (if s.queued >= 0 then s.queued else s.current)
              && s'.queued == NextOrder(s'.queue, s'.current)
  {
    hide Resumed, Updated, SongDeleted, DeleteAborts, IsPermutation, IsIdentity, DistinctIds;
    if s.playing && stopped {
      ResumedKeeps(s, failed, fatal, paused, s');
    } else if s.playing {
      var m :| (if taken && s.queued >= 0 then Started(s, paused, m) else m == s)
        && if takenAgain && m.queued < 0 && m.playing then UpdateEntry(m, None) && Updated(m, None, s') else s' == m;
      if taken && s.queued >= 0 {
        StartedKeeps(s, paused, m);
      }
      if takenAgain && m.queued < 0 && m.playing {
        UpdatedKeeps(m, None, s');
      }
    }
  }

  // ---- where the failing assertions are reached ----

  lemma OneSong(random: bool, repeat: bool, single: bool, queued: int) returns (s: State)
    requires -1 <= queued <= 0
    ensures WellFormed(s) && s.playing && |s.queue.items| == 1 && s.current == 0 && s.queued == queued
    ensures s.queue.random == random && s.queue.repeat == repeat && s.queue.single == single && !s.queue.consume
  {
    s := State(Queue([Item(5, 0, 1, 0)], [0], 1, repeat, single, false, random), true, 0, queued, false, 0, []);
  }

  /** The only song of a random-mode playlist plays and is deleted. */
  lemma DeleteAbortsExample() returns (s: State)
    ensures WellFormed(s) && |s.queue.items| == 1 && DeleteAborts(s, 0)
  {
    s := OneSong(true, false, false, -1);
    assert IndexOf(s.queue.order, 0) == 0;
  }

  /** The only song of a random-mode playlist is to repeat, and then consume mode is switched on. */
  lemma StartAbortsExample() returns (s: State, s': State)
    ensures WellFormed(s) && s.playing && s.queued == s.current && !s.queue.consume
    ensures s' == s.(queue := s.queue.(consume := true)) && WellFormed(s') && StartAborts(s')
  {
    s := OneSong(true, true, false, 0);
    s' := s.(queue := s.queue.(consume := true));
    assert IndexOf(s.queue.order, 0) == 0;
  }

  /** The third of four songs plays and the fourth is queued; seeking the first song fails. */
  lemma SeekTripsExample() returns (s: State)
    ensures WellFormed(s) && s.playing && s.queued == 3 && SeekTrips(s, 0, false)
  {
    s := FourSongs(2);
    s := s.(queued := 3);
  }
}

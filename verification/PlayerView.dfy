/**
 What the player thread makes of the calls of the playlist. In every run, the
 song that the player holds as its next one is exactly the queued song, the
 player's own assertions about its calls hold, and it plays the current song.
 */
module PlayerView {
  import opened Basics
  import opened Permutations
  import opened QueueSpec
  import opened PriorityOrder
  import opened PlaylistSpec
  import opened PlaylistProofs
  import opened PlaylistOutcomes
  import opened PlaylistRanges
  import Runs = PlaylistRuns

  /** The song that the player plays, and `pc->next_song`. */
  datatype View = View(playing: Option<Song>, next: Option<Song>)

  /** What a call of `player_control.c` does; all but `pc_enqueue_song()` leave no next song. */
  function Heard(v: View, call: Call): View {
    match call
    case Play(song) => View(Some(song), None)
    case Enqueue(song) => v.(next := Some(song))
    case Cancel => v.(next := None)
    case Stop => View(None, None)
    case Seek(song) => View(Some(song), None)
  }

  /** A song is enqueued only if there is no next song, and cancelled only if there is one. */
  predicate Allowed(v: View, call: Call) {
    match call
    case Enqueue(_) => v.next.None?
    case Cancel => v.next.Some?
    case _ => true
  }

  function HeardAll(v: View, calls: seq<Call>): View {
    if calls == [] then v else Heard(HeardAll(v, calls[..|calls| - 1]), calls[|calls| - 1])
  }

  predicate AllAllowed(v: View, calls: seq<Call>) {
    calls == [] ||
    (AllAllowed(v, calls[..|calls| - 1]) && Allowed(HeardAll(v, calls[..|calls| - 1]), calls[|calls| - 1]))
  }

  lemma {:induction false} HeardConcat(v: View, a: seq<Call>, b: seq<Call>)
    ensures HeardAll(v, a + b) == HeardAll(HeardAll(v, a), b)
    ensures AllAllowed(v, a + b) <==> AllAllowed(v, a) && AllAllowed(HeardAll(v, a), b)
    decreases |b|
  {
    if b == [] {
      assert a + b == a;
    } else {
      var n := |b| - 1;
      HeardConcat(v, a, b[..n]);
      assert (a + b)[..|a + b| - 1] == a + b[..n] && (a + b)[|a + b| - 1] == b[n];
    }
  }

  /** Between two states only such calls were made, and they took the player from `v` to `v'`. */
  ghost predicate Told(s: State, v: View, s': State, v': View) {
    s.calls <= s'.calls && AllAllowed(v, s'.calls[|s.calls|..]) && v' == HeardAll(v, s'.calls[|s.calls|..])
  }

  lemma ToldNothing(s: State, v: View, s': State)
    requires s'.calls == s.calls
    ensures Told(s, v, s', v)
  {
  }

  lemma ToldOne(s: State, v: View, s': State, call: Call)
    requires s'.calls == s.calls + [call] && Allowed(v, call)
    ensures Told(s, v, s', Heard(v, call))
  {
    assert s'.calls[|s.calls|..] == [call] && [call][..0] == [];
    assert HeardAll(v, []) == v && AllAllowed(v, []);
  }

  lemma ToldBoth(s: State, v: View, s1: State, v1: View, s': State, v': View)
    requires Told(s, v, s1, v1) && Told(s1, v1, s', v')
    ensures Told(s, v, s', v')
  {
    var a, b := s1.calls[|s.calls|..], s'.calls[|s1.calls|..];
    assert s'.calls[|s.calls|..] == a + b;
    HeardConcat(v, a, b);
  }

  /** The current song of a playing playlist. */
  function NowPlaying(s: State): Option<Song> {
    if s.playing && 0 <= s.current < |s.queue.order| && s.queue.order[s.current] < |s.queue.items|
    then Some(ItemAt(s.queue, s.current).song) else None
  }

  // ---- playlist_update_queued_song() ----

  /** The player learns of the next song, and holds it afterwards. */
  lemma AnnounceTells(s: State, v: View, s': State, next: Option<Song>)
    requires s'.calls == s.calls + Announce(v.next, next)
    ensures Told(s, v, s', v.(next := next))
    ensures s'.calls == s.calls <==> v.next == next
  {
    if v.next == next {
      ToldNothing(s, v, s');
    } else {
      var s1 := s.(calls := s.calls + if v.next.Some? then [Cancel] else []);
      var v1 := v.(next := None);
      if v.next.Some? { ToldOne(s, v, s1, Cancel); } else { ToldNothing(s, v, s1); }
      if next.Some? { ToldOne(s1, v1, s', Enqueue(next.value)); } else { ToldNothing(s1, v1, s'); }
      ToldBoth(s, v, s1, v1, s', v.(next := next));
    }
  }

  lemma UpdateTells(s: State, prev: Option<Song>, v: View, s': State)
    requires UpdateEntry(s, prev) && Updated(s, prev, s') && (!s.playing ==> s.queued == -1)
    requires v.next == if s.playing then prev else None
    ensures WellFormed(s') && s'.playing == s.playing && NowPlaying(s') == NowPlaying(s)
    ensures Told(s, v, s', v.(next := QueuedSong(s')))
  {
    UpdatedKeeps(s, prev, s');
    hide Told;
    if s.playing {
      AnnounceTells(s, v, s', QueuedSong(s'));
    } else {
      ToldNothing(s, v, s');
    }
  }

  lemma RefreshTells(s: State, prev: Option<Song>, v: View, s': State)
    requires Refreshed(s, prev, s') && (!s.playing ==> s.queued == -1) && Consistent(s.queue)
    requires v.next == if s.playing then prev else None
    ensures WellFormed(s') && s'.playing == s.playing && NowPlaying(s') == NowPlaying(s)
    ensures Told(s, v, s', v.(next := QueuedSong(s')))
  {
    var s1 := s.(queue := Incremented(s.queue));
    NewVersionKeepsSong(s);
    hide Incremented, Updated, Told;
    UpdateTells(s1, prev, v, s');
    ToldNothing(s, v, s1);
    ToldBoth(s, v, s1, v, s', v.(next := QueuedSong(s')));
  }

  lemma NewVersionKeepsSong(s: State)
    ensures NowPlaying(s.(queue := Incremented(s.queue))) == NowPlaying(s)
  {
  }

  /** A playing playlist without a current song hands the player the first song, so that none is skipped. */
  lemma FirstQueuedTells(s: State, prev: Option<Song>, v: View, n: nat)
    requires NoCurrentEntry(s, prev) && v.next == prev && n < |s.queue.items|
    ensures var s' := FirstQueued(s, prev);
            && 0 <= s'.queued < |s'.queue.items| && Told(s, v, s', v.(next := QueuedSong(s')))
            && s'.queued <= n
  {
    AnnounceTells(s, v, FirstQueued(s, prev), QueuedSong(FirstQueued(s, prev)));
  }

  // ---- starting and stopping ----

  lemma PlayTells(s: State, n: nat, v: View)
    requires n < |s.queue.order| && s.queue.order[n] < |s.queue.items|
    ensures var s' := PlayOrder(s, n);
            NowPlaying(s').Some? && QueuedSong(s') == None && Told(s, v, s', View(NowPlaying(s'), None))
  {
    ToldOne(s, v, PlayOrder(s, n), Call.Play(ItemAt(s.queue, n).song));
  }

  lemma StopTells(s: State, v: View, s': State)
    requires Consistent(s.queue) && s.current < |s.queue.items|
    requires (s.playing && s.queue.random ==> s.current >= 0) && Stopped(s, s')
    requires !s.playing ==> v == View(None, None)
    ensures !s'.playing && Told(s, v, s', View(None, None))
  {
    if s.playing {
      ToldOne(s, v, s', Call.Stop);
    } else {
      ToldNothing(s, v, s');
    }
  }

  // ---- deleting ----

  lemma DeletedSong(q: Queue, p: nat, c: nat)
    requires Consistent(q) && p < |q.items| && c < |q.items| && c != IndexOf(q.order, p)
    ensures Consistent(DeletedQueue(q, p))
    ensures var c' := if c > IndexOf(q.order, p) then c - 1 else c;
            && 0 <= c' < |DeletedQueue(q, p).items|
            && ItemAt(DeletedQueue(q, p), c').song == ItemAt(q, c).song
  {
    DeletedQueueConsistent(q, p);
    hide Consistent, DistinctIds, DeletedItems;
    var k := IndexOf(q.order, p);
    var c' := if c > k then c - 1 else c;
    var q' := DeletedQueue(q, p);
    assert Skip(c', k) == c && q.order[c] != p;
    assert q'.order[c'] == Renumber(q.order[c], p);
    assert RemoveAt(Entries(q.items), p)[q'.order[c']] == Entries(q.items)[q.order[c]];
    assert Entries(q'.items)[q'.order[c']] == EntryOf(ItemAt(q', c'));
  }

  /** What is left of `prev`, the song that the playlist takes for the queued one, after a removal. */
  ghost function Remaining(s: State, p: nat, prev: Option<Song>): Option<Song>
    requires Consistent(s.queue) && p < |s.queue.items|
  {
    if IsPlaying(s, p) then None else prev
  }

  /** The player has the next song that the playlist takes it to have and, if `exact`, plays the current one. */
  predicate InStep(s: State, prev: Option<Song>, v: View, exact: bool) {
    if s.playing
    then v.next == prev && v.playing.Some? && (exact ==> v.playing == NowPlaying(s))
    else v == View(None, None)
  }

  lemma VacateTells(s: State, p: nat, paused: bool, prev: Option<Song>, v: View, exact: bool, s': State)
    returns (v': View)
    requires Consistent(s.queue) && p < |s.queue.items| && -1 <= s.current && !DeleteAborts(s, p)
    requires s.playing ==> 0 <= s.current < |s.queue.items|
    requires Vacated(s, p, paused, s') && InStep(s, prev, v, exact)
    ensures Told(s, v, s', v') && InStep(s', Remaining(s, p, prev), v', exact)
    ensures s'.playing ==> s'.queue == s.queue && 0 <= s'.current < |s.queue.items|
    ensures s'.playing ==> s'.current != IndexOf(s.queue.order, p)
  {
    hide Told, DistinctIds, IsPermutation, IsIdentity, Reshuffled;
    PermutationInRange(s.queue.items, s.queue.order);
    if IsPlaying(s, p) {
      var next := Successor(s);
      if next >= 0 && !paused {
        PlayTells(s.(current := next), next, v);
        v' := View(NowPlaying(s'), None);
        ToldNothing(s, v, s.(current := next));
        ToldBoth(s, v, s.(current := next), v, s', v');
      } else {
        var s1 := s.(current := next);
        var m :| Stopped(s1, m) && s' == m.(calls := m.calls + [Call.Stop]);
        v' := View(None, None);
        ToldNothing(s, v, s1);
        StopTells(s1, v, m);
        ToldBoth(s, v, s1, v, m, v');
        ToldOne(m, v', s', Call.Stop);
        ToldBoth(s, v, m, v', s', v');
      }
    } else {
      v' := v;
      ToldNothing(s, v, s');
    }
  }

  lemma RemoveTells(s: State, p: nat, paused: bool, prev: Option<Song>, v: View, exact: bool, s': State)
    returns (v': View)
    requires Consistent(s.queue) && p < |s.queue.items| && -1 <= s.current && !DeleteAborts(s, p)
    requires s.playing ==> 0 <= s.current < |s.queue.items|
    requires Removed(s, p, paused, s') && InStep(s, prev, v, exact)
    ensures Told(s, v, s', v') && InStep(s', Remaining(s, p, prev), v', exact)
    ensures Consistent(s'.queue) && |s'.queue.items| == |s.queue.items| - 1
    ensures -1 <= s'.current && (s'.playing ==> 0 <= s'.current < |s'.queue.items|)
    ensures (!s.playing ==> s.queued == -1) ==> (!s'.playing ==> s'.queued == -1)
  {
    hide Told, DistinctIds, IsPermutation, IsIdentity, Vacated, DeletedQueue;
    var m :| Vacated(s, p, paused, m) && Consistent(m.queue) && |m.queue.items| == |s.queue.items|
      && s' == m.(queue := DeletedQueue(m.queue, p),
                  current := if m.current > IndexOf(s.queue.order, p) then m.current - 1 else m.current);
    v' := VacateTells(s, p, paused, prev, v, exact, m);
    VacatedCurrent(s, p, paused, m);
    DeletedQueueConsistent(m.queue, p);
    if m.playing {
      DeletedSong(m.queue, p, m.current);
      PermutationInRange(m.queue.items, m.queue.order);
      PermutationInRange(s'.queue.items, s'.queue.order);
      assert NowPlaying(s') == NowPlaying(m);
    }
    ToldNothing(m, v', s');
    ToldBoth(s, v, m, v', s', v');
  }

  lemma VacatedCurrent(s: State, p: nat, paused: bool, m: State)
    requires Consistent(s.queue) && p < |s.queue.items| && -1 <= s.current && !DeleteAborts(s, p)
    requires s.playing ==> 0 <= s.current < |s.queue.items|
    requires Vacated(s, p, paused, m) && Consistent(m.queue) && |m.queue.items| == |s.queue.items|
    ensures -1 <= m.current && (m.playing ==> m.current < |s.queue.items|)
    ensures |DeletedQueue(m.queue, p).items| == |s.queue.items| - 1
    ensures (!s.playing ==> s.queued == -1) ==> (!m.playing ==> m.queued == -1)
  {
  }

  lemma FinishTells(s: State, prev: Option<Song>, v: View, exact: bool, s': State) returns (v': View)
    requires Finished(s, prev, s') && InStep(s, prev, v, exact) && Consistent(s.queue)
    requires !s.playing ==> s.queued == -1
    ensures Told(s, v, s', v') && Agrees(s', v', exact)
  {
    hide Told, DistinctIds, IsIdentity;
    if s.playing {
      RefreshTells(s, prev, v, s');
      v' := v.(next := QueuedSong(s'));
    } else {
      ToldNothing(s, v, s');
      v' := v;
    }
  }

  /** The player has exactly the queued song as its next one and, if `exact`, plays the current one. */
  ghost predicate Agrees(s: State, v: View, exact: bool) {
    (s.playing ==> WellFormed(s)) && InStep(s, QueuedSong(s), v, exact)
  }

  lemma DeleteTells(s: State, p: nat, paused: bool, v: View, exact: bool, s': State) returns (v': View)
    requires WellFormed(s) && p < |s.queue.items| && !DeleteAborts(s, p) && SongDeleted(s, p, paused, s')
    requires Agrees(s, v, exact)
    ensures Told(s, v, s', v') && Agrees(s', v', exact)
  {
    hide Told, Removed, Finished, DeleteAborts, InStep, IsPlaying, DistinctIds, IsIdentity;
    var prev := if IsPlaying(s, p) then None else QueuedSong(s);
    var m :| Removed(s, p, paused, m) && Finished(m, prev, s');
    var v1 := RemoveTells(s, p, paused, QueuedSong(s), v, exact, m);
    v' := FinishTells(m, prev, v1, exact, s');
    ToldBoth(s, v, m, v1, s', v');
  }

  lemma {:induction false} RangeTells(s: State, start: nat, end: nat, paused: bool, prev: Option<Song>,
                                      v: View, exact: bool, s': State, prev': Option<Song>) returns (v': View)
    requires RangeRemoved(s, start, end, paused, prev, s', prev') && InStep(s, prev, v, exact)
    requires Consistent(s.queue)
    requires (s.playing ==> 0 <= s.current < |s.queue.items|) && (!s.playing ==> s.queued == -1)
    ensures Told(s, v, s', v') && InStep(s', prev', v', exact) && Consistent(s'.queue)
    ensures !s'.playing ==> s'.queued == -1
    decreases end
  {
    hide Told, Removed, DeleteAborts, InStep, Consistent, IsPlaying;
    if end <= start {
      v' := v;
      ToldNothing(s, v, s');
    } else {
      var m :| RemovedBefore(s, end, paused, m) &&
        RangeRemoved(m, start, end - 1, paused, if IsPlaying(s, end - 1) then None else prev, s', prev');
      var v1 := RemoveTells(s, end - 1, paused, prev, v, exact, m);
      v' := RangeTells(m, start, end - 1, paused, if IsPlaying(s, end - 1) then None else prev, v1, exact, s', prev');
      ToldBoth(s, v, m, v1, s', v');
    }
  }

  lemma DeleteRangeTells(s: State, start: nat, end: nat, paused: bool, v: View, exact: bool, s': State)
    returns (v': View)
    requires WellFormed(s) && RangeDeleted(s, start, end, paused, s') && Agrees(s, v, exact)
    ensures Told(s, v, s', v') && Agrees(s', v', exact)
  {
    hide Told, RangeRemoved, Finished, InStep, DistinctIds, IsIdentity;
    var m, prev :| RangeRemoved(s, start, end, paused, QueuedSong(s), m, prev) && Finished(m, prev, s');
    var v1 := RangeTells(s, start, end, paused, QueuedSong(s), v, exact, m, prev);
    v' := FinishTells(m, prev, v1, exact, s');
    ToldBoth(s, v, m, v1, s', v');
  }

  // ---- playback control ----

  lemma SkipTells(s: State, v: View, s': State) returns (v': View)
    requires WellFormed(s) && s.playing && Skipped(s, s')
    ensures WellFormed(s') && Told(s, v, s', v') && Agrees(s', v', true)
  {
    hide Told;
    SkippedKeeps(s, s');
    hide Skipped;
    var call := if s'.playing then Call.Play(ItemAt(s'.queue, s'.current).song) else Call.Stop;
    v' := Heard(v, call);
    ToldOne(s, v, s', call);
  }

  lemma NextTells(s: State, paused: bool, v: View, exact: bool, s': State) returns (v': View)
    requires WellFormed(s) && Advanced(s, paused, s') && (!s.playing ==> Agrees(s, v, exact))
    ensures Told(s, v, s', v') && Agrees(s', v', exact)
  {
    hide Told, Skipped, SongDeleted, DeleteAborts, DistinctIds, IsIdentity;
    if !s.playing {
      v' := v;
      ToldNothing(s, v, s');
    } else if !s.queue.consume {
      v' := SkipTells(s, v, s');
    } else {
      var m :| Skipped(s, m) && WellFormed(m) && |m.queue.items| == |s.queue.items|
        && var p := m.queue.order[s.current];
           p < |m.queue.items| && !DeleteAborts(m, p) && SongDeleted(m, p, paused, s');
      var v1 := SkipTells(s, v, m);
      v' := DeleteTells(m, m.queue.order[s.current], paused, v1, exact, s');
      ToldBoth(s, v, m, v1, s', v');
    }
  }

  lemma StopAgrees(s: State, v: View, exact: bool, s': State)
    requires WellFormed(s) && Stopped(s, s') && (!s.playing ==> Agrees(s, v, exact))
    ensures Told(s, v, s', View(None, None)) && Agrees(s', View(None, None), exact)
  {
    StopTells(s, v, s');
  }

  lemma ClearTells(s: State, v: View, exact: bool, s': State)
    requires WellFormed(s) && Cleared(s, s') && Agrees(s, v, exact)
    ensures Told(s, v, s', View(None, None)) && Agrees(s', View(None, None), exact)
  {
    hide Told, Consistent, Stopped;
    var m :| Stopped(s, m) && s' == m.(queue := Incremented(m.queue.(items := [], order := [])), current := -1);
    StopAgrees(s, v, exact, m);
    StoppedKeeps(s, m);
    ToldNothing(m, View(None, None), s');
    ToldBoth(s, v, m, View(None, None), s', View(None, None));
  }

  lemma PreviousTells(s: State, v: View, exact: bool) returns (v': View)
    requires WellFormed(s) && Agrees(s, v, exact)
    ensures Told(s, v, Previous(s), v') && Agrees(Previous(s), v', exact)
  {
    hide Told;
    PreviousKeeps(s);
    var s' := Previous(s);
    if s.playing {
      ToldOne(s, v, s', Call.Play(ItemAt(s'.queue, s'.current).song));
      v' := View(NowPlaying(s'), None);
    } else {
      ToldNothing(s, v, s');
      v' := v;
    }
  }

  lemma PlayAgrees(s: State, n: nat, v: View, exact: bool, s': State) returns (v': View)
    requires WellFormed(s) && n < |s.queue.items| && PlayedOrder(s, n, s')
    ensures Told(s, v, s', v') && Agrees(s', v', exact)
  {
    hide Told;
    PlayedOrderKeeps(s, n, s');
    v' := View(NowPlaying(s'), None);
    ToldOne(s, v, s', Call.Play(ItemAt(s.queue, n).song));
  }

  /** The player has gone on to its next song, or has stopped by itself. */
  function Went(c: Runs.Command, v: View): View {
    if c.SongStarted? then View(v.next, None)
    else if c.PlayerStopped? then View(None, None)
    else v
  }

  lemma StartTells(s: State, paused: bool, v: View, exact: bool, s': State) returns (v': View)
    requires WellFormed(s) && s.playing && s.queued >= 0 && Started(s, paused, s') && Agrees(s, v, exact)
    ensures Told(s, View(v.next, None), s', v') && Agrees(s', v', true)
  {
    hide Told, SongDeleted, DeleteAborts;
    var s1 := s.(current := s.queued, queued := -1);
    var v1 := View(v.next, None);
    ToldNothing(s, v1, s1);
    assert Agrees(s1, v1, true);
    if s.queue.consume {
      v' := DeleteTells(s1, s.queue.order[s.current], paused, v1, true, s');
      ToldBoth(s, v1, s1, v1, s', v');
    } else {
      v' := v1;
    }
  }

  lemma ResumeTells(s: State, failed: bool, fatal: bool, paused: bool, v: View, s': State) returns (v': View)
    requires WellFormed(s) && s.playing && Resumed(s, failed, fatal, paused, s')
    ensures Told(s, v, s', v') && Agrees(s', v', true)
  {
    hide Told, Stopped, Advanced, Consistent;
    var s1 := s.(errorCount := if failed then s.errorCount + 1 else 0);
    ToldNothing(s, v, s1);
    if (s.stopOnError && failed) || fatal || s1.errorCount >= |s.queue.items| {
      StopAgrees(s1, v, true, s');
      v' := View(None, None);
    } else {
      v' := NextTells(s1, paused, v, true, s');
    }
    ToldBoth(s, v, s1, v, s', v');
  }

  lemma SeekTells(s: State, p: nat, success: bool, v: View, s': State) returns (v': View)
    requires WellFormed(s) && p < |s.queue.items| && Sought(s, p, success, s') && (!success ==> s.queued < 0)
    ensures Told(s, v, s', v') && Agrees(s', v', true)
  {
    hide Told, Updated;
    var s1 := if success then Seeking(s, p).(queued := -1) else Seeking(s, p);
    var v1 := View(Some(s.queue.items[p].song), None);
    ToldOne(s, v, s1, Call.Seek(s.queue.items[p].song));
    UpdateTells(s1, None, v1, s');
    v' := v1.(next := QueuedSong(s'));
    ToldBoth(s, v, s1, v1, s', v');
  }

  /** A seek that fails while a song is queued takes the next song away from the player unnoticed. */
  lemma FailedSeekLosesNext(s: State, p: nat, v: View, s': State)
    requires WellFormed(s) && p < |s.queue.items| && s.playing && s.queued >= 0 && Agrees(s, v, false)
    requires Sought(s, p, false, s') && WellFormed(s')
    ensures forall v' :: Told(s, v, s', v') ==> v'.next != QueuedSong(s')
  {
    hide IsIdentity, DistinctIds, HeardAll, AllAllowed;
    var calls := [Call.Seek(s.queue.items[p].song)] + Announce(QueuedSong(s), QueuedSong(s'));
    SoughtCalls(s, p, s');
    assert s'.calls[|s.calls|..] == calls;
    SeekDisagrees(v, s.queue.items[p].song, QueuedSong(s), QueuedSong(s'));
  }

  lemma SoughtCalls(s: State, p: nat, s': State)
    requires WellFormed(s) && p < |s.queue.items| && s.playing && s.queued >= 0
    requires Sought(s, p, false, s') && WellFormed(s')
    ensures s'.calls == s.calls + ([Call.Seek(s.queue.items[p].song)] + Announce(QueuedSong(s), QueuedSong(s')))
  {
    hide DistinctIds, IsIdentity, Reshuffled;
    var next := QueuedSong(s');
    assert s'.calls == s.calls + [Call.Seek(s.queue.items[p].song)] + Announce(QueuedSong(s), next);
  }

  lemma SeekDisagrees(v: View, song: Song, prev: Option<Song>, next: Option<Song>)
    requires prev.Some?
    ensures var calls := [Call.Seek(song)] + Announce(prev, next);
            AllAllowed(v, calls) ==> HeardAll(v, calls).next != next
  {
    var seek, more := [Call.Seek(song)], Announce(prev, next);
    HeardConcat(v, seek, more);
    assert seek[..0] == [] && HeardAll(v, []) == v;
    var v1 := HeardAll(v, seek);
    assert v1.next == None;
    if prev != next {
      var cancel, rest := [Cancel], if next.Some? then [Enqueue(next.value)] else [];
      assert more == cancel + rest;
      HeardConcat(v1, cancel, rest);
      assert cancel[..0] == [] && HeardAll(v1, []) == v1;
    }
  }

  // ---- every command ----

  lemma EditTells(s: State, s1: State, v: View, exact: bool, s': State) returns (v': View)
    requires WellFormed(s) && s1.calls == s.calls && s1.playing == s.playing && s1.queued == s.queued
    requires UpdateEntry(s1, QueuedSong(s)) && Updated(s1, QueuedSong(s), s') && Agrees(s, v, exact)
    ensures Silently(s, v, exact, s', v')
  {
    hide Told, Updated, DistinctIds, IsIdentity;
    ToldNothing(s, v, s1);
    UpdateTells(s1, QueuedSong(s), v, s');
    v' := v.(next := QueuedSong(s'));
    ToldBoth(s, v, s1, v, s', v');
  }

  /** Commands that tell the player nothing but which song comes next. */
  predicate IsSilent(c: Runs.Command) {
    c.Append? || c.Swap? || c.SetPriority? || c.Move? || c.Shuffle? || c.SetRandom? || c.SetModes? || c.SetConsume?
    || c.Requeue? || c.TagChanged? || c.VersionAll?
  }

  ghost predicate Silently(s: State, v: View, exact: bool, s': State, v': View) {
    && Told(s, v, s', v') && v'.playing == v.playing && s'.playing == s.playing
    && Agrees(s', v', exact && NowPlaying(s') == NowPlaying(s))
  }

  lemma AppendTells(s: State, song: Song, id: nat, r: nat, v: View, exact: bool, s': State)
    returns (v': View)
    requires WellFormed(s) && Appended(s, song, id, r, s') && Agrees(s, v, exact)
    ensures Silently(s, v, exact, s', v')
  {
    hide Consistent, Updated, UpdateEntry, Told, Agrees, Incremented, AppendedQueue;
    v' := EditTells(s, s.(queue := Incremented(AppendedQueue(s, song, id, r))), v, exact, s');
  }

  lemma SwapTells(s: State, i: nat, j: nat, v: View, exact: bool, s': State)
    returns (v': View)
    requires WellFormed(s) && i < |s.queue.items| && j < |s.queue.items| && SongsSwapped(s, i, j, s') && Agrees(s, v, exact)
    ensures Silently(s, v, exact, s', v')
  {
    hide Updated, UpdateEntry, Told, Agrees, Incremented, SwappedQueue, DistinctIds, IsIdentity;
    v' := EditTells(s, s.(queue := Incremented(SwappedQueue(s.queue, i, j)),
                          current := SwappedCurrent(s.queue, s.current, i, j)), v, exact, s');
  }

  lemma PriorityTells(s: State, start: nat, end: nat, priority: Priority, o: seq<nat>, v: View, exact: bool, s': State)
    returns (v': View)
    requires WellFormed(s) && start < end <= |s.queue.items| && PrioritySet(s, start, end, priority, o, s')
    requires Agrees(s, v, exact)
    ensures Silently(s, v, exact, s', v')
  {
    hide Updated, UpdateEntry, Told, Agrees, Incremented, SetPriorityBetween, DistinctIds, IsIdentity;
    var items := SetPriorityBetween(s.queue.items, start, end, priority, s.queue.version);
    v' := EditTells(s, s.(queue := Incremented(s.queue.(items := items, order := o)),
                          current := OrderOf(o, CurrentPosition(s))), v, exact, s');
  }

  lemma MoveTells(s: State, start: nat, end: nat, to: nat, v: View, exact: bool, s': State)
    returns (v': View)
    requires WellFormed(s) && start <= end <= |s.queue.items| && to + (end - start) <= |s.queue.items|
    requires RangeMoved(s, start, end, to, s') && Agrees(s, v, exact)
    ensures Silently(s, v, exact, s', v')
  {
    hide Consistent, Updated, UpdateEntry, Told, Agrees, Incremented, MovedQueue, MovedCurrent;
    var current := if s.queue.random then s.current else MovedCurrent(s.current, start, end, to);
    v' := EditTells(s, s.(queue := Incremented(MovedQueue(s.queue, start, end, to)), current := current), v, exact, s');
  }

  lemma ShuffleTells(s: State, start: nat, end: nat, items: seq<Item>, v: View, exact: bool, s': State)
    returns (v': View)
    requires WellFormed(s) && start + 1 < end <= |s.queue.items| && RangeShuffled(s, start, end, items, s')
    requires Agrees(s, v, exact)
    ensures Silently(s, v, exact, s', v')
  {
    hide Updated, UpdateEntry, Told, Agrees, Incremented, DistinctIds, IsIdentity, ShuffledItems;
    var inside := s.playing && start <= CurrentPosition(s) < end;
    var s1 := if inside then PutFirst(s, start) else if s.playing then s else s.(current := -1);
    v' := EditTells(s, s1.(queue := Incremented(s1.queue.(items := items))), v, exact, s');
  }

  lemma RandomTells(s: State, random: bool, q: Queue, v: View, exact: bool, s': State)
    returns (v': View)
    requires WellFormed(s) && random != s.queue.random && RandomSet(s, random, q, s') && Agrees(s, v, exact)
    ensures Silently(s, v, exact, s', v')
  {
    hide Updated, UpdateEntry, Told, Agrees, DistinctIds, CurrentFirst;
    var current := if random then (if s.playing then 0 else -1) else CurrentPosition(s);
    v' := EditTells(s, s.(queue := q, current := current), v, exact, s');
  }

  lemma ModesTell(s: State, repeat: bool, single: bool, v: View, exact: bool, s': State)
    returns (v': View)
    requires WellFormed(s) && ModesSet(s, repeat, single, s') && Agrees(s, v, exact)
    ensures Silently(s, v, exact, s', v')
  {
    hide Consistent, Updated, UpdateEntry, Told, Agrees;
    v' := EditTells(s, s.(queue := s.queue.(repeat := repeat, single := single)), v, exact, s');
  }

  /** A new version, new stamps and new modes concern the clients alone. */
  lemma QueueTouched(s: State, v: View, exact: bool, s': State)
    requires WellFormed(s) && Agrees(s, v, exact) && s' == s.(queue := s'.queue) && s'.queue.order == s.queue.order
    requires |s'.queue.items| == |s.queue.items| && WellFormed(s')
    requires forall p :: 0 <= p < |s.queue.items| ==> s'.queue.items[p].song == s.queue.items[p].song
    ensures Silently(s, v, exact, s', v)
  {
    ToldNothing(s, v, s');
  }

  lemma TagsTell(s: State, v: View, exact: bool)
    requires WellFormed(s) && Agrees(s, v, exact)
    ensures Silently(s, v, exact, Retagged(s), v) && Silently(s, v, exact, AllRetagged(s), v)
  {
    hide Agrees, Silently, DistinctIds, IsIdentity, IsPermutation;
    RetaggedKeeps(s);
    QueueTouched(s, v, exact, Retagged(s));
    QueueTouched(s, v, exact, AllRetagged(s));
  }

  lemma SilentTells(s: State, c: Runs.Command, s': State, v: View, exact: bool) returns (v': View)
    requires WellFormed(s) && Runs.Permitted(s, c) && Runs.Step(s, c, s') && IsSilent(c) && Agrees(s, v, exact)
    ensures Silently(s, v, exact, s', v')
  {
    hide Consistent, Agrees, Silently, Appended, SongsSwapped, PrioritySet, RangeMoved, RangeShuffled, RandomSet, ModesSet,
      Updated, Retagged, AllRetagged, Runs.Safe;
    match c
    case Append(song, id, r) => v' := AppendTells(s, song, id, r, v, exact, s');
    case Swap(i, j) => v' := SwapTells(s, i, j, v, exact, s');
    case SetPriority(first, last, priority, o) => v' := PriorityTells(s, first, last, priority, o, v, exact, s');
    case Move(from, until, to) => v' := MoveTells(s, from, until, to, v, exact, s');
    case Shuffle(lo, hi, items) => v' := ShuffleTells(s, lo, hi, items, v, exact, s');
    case SetRandom(random, q) => v' := RandomTells(s, random, q, v, exact, s');
    case SetModes(repeat, single) => v' := ModesTell(s, repeat, single, v, exact, s');
    case SetConsume(consume) =>
      v' := v;
      Runs.ConsumeSetKeeps(s, consume);
      QueueTouched(s, v, exact, s');
    case Requeue => v' := EditTells(s, s, v, exact, s');
    case TagChanged =>
      v' := v;
      TagsTell(s, v, exact);
    case VersionAll =>
      v' := v;
      TagsTell(s, v, exact);
  }

  /** A seek that the player refuses leaves it with the song that is queued, because none is. */
  predicate SeekHarmless(s: State, c: Runs.Command) {
    c.Seek? && !c.success ==> s.queued < 0
  }

  /**
   After every command the player holds exactly the queued song as its next one, it never has
   to refuse a call, and it plays the current song, unless a silent command has changed that.
   */
  lemma StepTells(s: State, c: Runs.Command, s': State, v: View, exact: bool) returns (v': View)
    requires WellFormed(s) && Runs.Permitted(s, c) && Runs.Step(s, c, s') && SeekHarmless(s, c) && Agrees(s, v, exact)
    ensures Told(s, Went(c, v), s', v')
    ensures Agrees(s', v', exact && (IsSilent(c) ==> NowPlaying(s') == NowPlaying(s)))
    ensures IsSilent(c) ==> v'.playing == v.playing && s'.playing == s.playing
  {
    hide Consistent, Told, SongDeleted, RangeDeleted, PlayedOrder, Advanced, Stopped, Cleared, Started, Resumed,
      Sought, Previous, StartTrips, SeekTrips, Deletable;
    if IsSilent(c) {
      v' := SilentTells(s, c, s', v, exact);
    } else {
      match c
      case Delete(p, paused) => v' := DeleteTells(s, p, paused, v, exact, s');
      case DeleteRange(start, end, paused) => v' := DeleteRangeTells(s, start, end, paused, v, exact, s');
      case Play(n) => v' := PlayAgrees(s, n, v, exact, s');
      case Next(paused) => v' := NextTells(s, paused, v, exact, s');
      case Previous => v' := PreviousTells(s, v, exact);
      case Stop =>
        StopAgrees(s, v, exact, s');
        v' := View(None, None);
      case Clear =>
        ClearTells(s, v, exact, s');
        v' := View(None, None);
      case SongStarted(paused) => v' := StartTells(s, paused, v, exact, s');
      case PlayerStopped(failed, fatal, paused) => v' := ResumeTells(s, failed, fatal, paused, View(None, None), s');
      case Seek(p, success) => v' := SeekTells(s, p, success, v, s');
      case _ =>
    }
  }

  // ---- every run ----

  /** The calls that a command has made. */
  function NewCalls(s: State, s': State): seq<Call> {
    if s.calls <= s'.calls then s'.calls[|s.calls|..] else []
  }

  /** What the player makes of a run. */
  ghost predicate Watches(states: seq<State>, cs: seq<Runs.Command>, views: seq<View>) {
    && |views| == |states| == |cs| + 1
    && forall i :: 0 <= i < |cs| ==>
         views[i + 1] == HeardAll(Went(cs[i], views[i]), NewCalls(states[i], states[i + 1]))
  }

  ghost predicate NoneLost(states: seq<State>, cs: seq<Runs.Command>, k: nat)
    requires k <= |cs| < |states|
  {
    forall i :: 0 <= i < k && IsSilent(cs[i]) ==> NowPlaying(states[i + 1]) == NowPlaying(states[i])
  }

  /**
   In every run in which no seek is refused while a song is queued, the player always holds
   exactly the queued song, every call is one that it expects, and as long as no edit has
   lost track of the current song, it plays that song.
   */
  lemma {:induction false} RunTells(states: seq<State>, cs: seq<Runs.Command>, views: seq<View>, k: nat)
    requires Runs.IsRun(states, cs) && Watches(states, cs, views) && k <= |cs|
    requires WellFormed(states[0]) && Agrees(states[0], views[0], true)
    requires forall i :: 0 <= i < |cs| ==> SeekHarmless(states[i], cs[i])
    ensures WellFormed(states[k]) && views[k].next == QueuedSong(states[k])
    ensures Agrees(states[k], views[k], NoneLost(states, cs, k))
    ensures k > 0 ==> AllAllowed(Went(cs[k - 1], views[k - 1]), NewCalls(states[k - 1], states[k]))
  {
    hide Runs.Permitted, Runs.Step, Consistent, NowPlaying;
    Runs.RunKeeps(states, cs, k);
    if k > 0 {
      var i := k - 1;
      RunTells(states, cs, views, i);
      var exact := NoneLost(states, cs, i);
      var v' := StepTells(states[i], cs[i], states[i + 1], views[i], exact);
      assert views[i + 1] == v';
      assert NoneLost(states, cs, k) ==> exact && (IsSilent(cs[i]) ==> NowPlaying(states[i + 1]) == NowPlaying(states[i]));
      AgreesLess(states[k], views[k], exact && (IsSilent(cs[i]) ==> NowPlaying(states[i + 1]) == NowPlaying(states[i])),
                 NoneLost(states, cs, k));
    }
    AgreesNext(states[k], views[k], NoneLost(states, cs, k));
  }

  lemma AgreesLess(s: State, v: View, exact: bool, less: bool)
    requires Agrees(s, v, exact) && (less ==> exact)
    ensures Agrees(s, v, less)
  {
  }

  lemma AgreesNext(s: State, v: View, exact: bool)
    requires WellFormed(s) && Agrees(s, v, exact)
    ensures v.next == QueuedSong(s)
  {
  }
}

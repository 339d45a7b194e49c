/**
 Whole runs of the playlist: every run of commands keeps the order numbers
 valid, and repeated "next" plays exactly the songs that it should.
 */
module PlaylistRuns {
  import opened Basics
  import opened Permutations
  import opened QueueSpec
  import opened PriorityOrder
  import opened PlaylistSpec
  import opened PlaylistProofs
  import opened PlaylistOutcomes
  import opened PlaylistRanges

  /** A playlist command, with the outcome of its random choices and of the player's answers. */
  datatype Command =
    | Append(song: Song, id: nat, draw: nat)
    | Swap(song1: nat, song2: nat)
    | SetPriority(first: nat, last: nat, priority: Priority, order: seq<nat>)
    | Delete(position: nat, paused: bool)
    | DeleteRange(start: nat, end: nat, paused: bool)
    | Move(from: nat, until: nat, to: nat)
    | Shuffle(lo: nat, hi: nat, items: seq<Item>)
    | SetRandom(random: bool, queue: Queue)
    | SetModes(repeat: bool, single: bool)
    | SetConsume(consume: bool)
    | Play(n: nat)
    | Next(paused: bool)
    | Previous
    | Stop
    | Clear
    | SongStarted(paused: bool)
    | PlayerStopped(failed: bool, fatal: bool, paused: bool)
    | Requeue
    | Seek(song: nat, success: bool)
    | TagChanged
    | VersionAll

  /** The arguments name songs, and the player reports something that can have happened. */
  ghost predicate ValidArguments(s: State, c: Command)
    requires WellFormed(s)
  {
    var n := |s.queue.items|;
    match c
    case Append(_, _, _) => true
    case Swap(i, j) => i < n && j < n
    case SetPriority(first, last, _, _) => first < last <= n
    case Delete(p, _) => p < n
    case DeleteRange(start, end, _) => start < end <= n
    case Move(from, until, to) => from <= until <= n && to + (until - from) <= n
    case Shuffle(lo, hi, _) => lo + 1 < hi <= n
    case SetRandom(random, _) => random != s.queue.random
    case SetModes(_, _) => true
    case SetConsume(_) => true
    case Play(k) => k < n
    case Next(_) => true
    case Previous => true
    case Stop => true
    case Clear => true
    case SongStarted(_) => s.playing && s.queued >= 0
    case PlayerStopped(_, _, _) => s.playing
    case Requeue => s.playing && s.queued < 0
    case Seek(p, _) => p < n
    case TagChanged => true
    case VersionAll => true
  }

  /** The code does not trip over an order number in random mode, or over a seek that fails. */
  ghost predicate Safe(s: State, c: Command)
    requires WellFormed(s) && ValidArguments(s, c)
  {
    match c
    case Delete(p, paused) => DeletePermitted(s, p, paused)
    case DeleteRange(start, end, paused) => Deletable(s, start, end, paused)
    case SongStarted(paused) => !StartTrips(s, paused)
    case Seek(p, success) => !SeekTrips(s, p, success)
    case _ => true
  }

  ghost predicate Permitted(s: State, c: Command)
    requires WellFormed(s)
  {
    ValidArguments(s, c) && Safe(s, c)
  }

  /** Without random mode valid arguments are enough for everything but a seek that fails. */
  lemma SequentialIsPermitted(s: State, c: Command)
    requires WellFormed(s) && !s.queue.random && ValidArguments(s, c)
    ensures Permitted(s, c) <==> !(c.Seek? && SeekTrips(s, c.song, c.success))
  {
    hide Consistent, StaysInside, HasWayOut;
    match c
    case SongStarted(paused) => StartTripsExactlyWhen(s, paused);
    case _ =>
  }

  ghost predicate Step(s: State, c: Command, s': State)
    requires WellFormed(s) && Permitted(s, c)
  {
    match c
    case Append(song, id, r) => Appended(s, song, id, r, s')
    case Swap(i, j) => SongsSwapped(s, i, j, s')
    case SetPriority(first, last, priority, o) => PrioritySet(s, first, last, priority, o, s')
    case Delete(p, paused) => SongDeleted(s, p, paused, s')
    case DeleteRange(start, end, paused) => RangeDeleted(s, start, end, paused, s')
    case Move(from, until, to) => RangeMoved(s, from, until, to, s')
    case Shuffle(lo, hi, items) => RangeShuffled(s, lo, hi, items, s')
    case SetRandom(random, q) => RandomSet(s, random, q, s')
    case SetModes(repeat, single) => ModesSet(s, repeat, single, s')
    case SetConsume(consume) => s' == s.(queue := s.queue.(consume := consume))
    case Play(k) => PlayedOrder(s, k, s')
    case Next(paused) => Advanced(s, paused, s')
    case Previous => s' == PlaylistSpec.Previous(s)
    case Stop => Stopped(s, s')
    case Clear => Cleared(s, s')
    case SongStarted(paused) => Started(s, paused, s')
    case PlayerStopped(failed, fatal, paused) => Resumed(s, failed, fatal, paused, s')
    case Requeue => Updated(s, None, s')
    case Seek(p, success) => Sought(s, p, success, s')
    case TagChanged => s' == Retagged(s)
    case VersionAll => s' == AllRetagged(s)
  }

  /** Commands that edit the queue and then choose a new queued song. */
  predicate IsEdit(c: Command) {
    c.Append? || c.Swap? || c.SetPriority? || c.Delete? || c.DeleteRange? || c.Move? || c.Shuffle?
    || c.SetModes? || (c.SetRandom? && !c.random)
  }

  /** The one-step invariant, in every mode. */
  lemma StepKeeps(s: State, c: Command, s': State)
    requires WellFormed(s) && Permitted(s, c) && Step(s, c, s')
    ensures WellFormed(s')
    ensures !c.SetRandom? ==> s'.queue.random == s.queue.random
    ensures c.SetRandom? ==> s'.queue.random == c.random
    ensures IsEdit(c) && s'.playing && !s'.queue.random ==> s'.queued == NextOrder(s'.queue, s'.current)
  {
    hide Consistent, Appended, SongsSwapped, PrioritySet, SongDeleted, RangeDeleted, RangeMoved,
      RangeShuffled, RandomSet, ModesSet, PlayedOrder, Advanced, Stopped, Cleared, Started, Resumed, Updated, Sought, Retagged, AllRetagged,
      SameSong, MayDisplace, LosesTrack, StaysInside, HasWayOut, RangeSafe, DeleteAborts;
    match c
    case Append(song, id, r) => AppendKeeps(s, song, id, r, s');
    case Swap(i, j) => SwapKeepsCurrent(s, i, j, s');
    case SetPriority(first, last, priority, o) => PriorityKeepsCurrent(s, first, last, priority, o, s');
    case Delete(p, paused) => DeleteKeeps(s, p, paused, s');
    case DeleteRange(start, end, paused) =>
      DeletableIsSafe(s, start, end, paused);
      DeleteRangeKeeps(s, start, end, paused, s');
    case Move(from, until, to) => MoveKeepsCurrent(s, from, until, to, s');
    case Shuffle(lo, hi, items) => ShuffleKeepsCurrent(s, lo, hi, items, s');
    case SetRandom(random, q) => RandomKeepsCurrent(s, random, q, s');
    case SetModes(repeat, single) => ModesKeepCurrent(s, repeat, single, s');
    case SetConsume(consume) => ConsumeSetKeeps(s, consume);
    case Play(k) => PlayedOrderKeeps(s, k, s');
    case Next(paused) => AdvancedKeeps(s, paused, s');
    case Previous => PreviousKeeps(s);
    case Stop => StoppedKeeps(s, s');
    case Clear => ClearedKeeps(s, s');
    case SongStarted(paused) => StartedKeeps(s, paused, s');
    case PlayerStopped(failed, fatal, paused) => ResumedKeeps(s, failed, fatal, paused, s');
    case Requeue => UpdatedKeeps(s, None, s');
    case Seek(p, success) => SoughtKeeps(s, p, success, s');
    case TagChanged =>
      RetaggedKeeps(s);
      RetaggedModes(s);
    case VersionAll =>
      RetaggedKeeps(s);
      RetaggedModes(s);
  }

  lemma RetaggedModes(s: State)
    requires WellFormed(s)
    ensures Retagged(s).queue.random == s.queue.random && AllRetagged(s).queue.random == s.queue.random
  {
  }

  lemma ConsumeSetKeeps(s: State, consume: bool)
    requires WellFormed(s)
    ensures WellFormed(s.(queue := s.queue.(consume := consume)))
  {
  }

  /** `states` is a run of the commands `cs`. */
  ghost predicate IsRun(states: seq<State>, cs: seq<Command>) {
    && |states| == |cs| + 1
    && forall i :: 0 <= i < |cs| ==>
         (WellFormed(states[i]) ==> Permitted(states[i], cs[i]) && Step(states[i], cs[i], states[i + 1]))
  }

  /** Every run keeps the order numbers valid. */
  lemma {:induction false} RunKeeps(states: seq<State>, cs: seq<Command>, k: nat)
    requires IsRun(states, cs) && WellFormed(states[0]) && k <= |cs|
    ensures WellFormed(states[k])
  {
    if k > 0 {
      RunKeeps(states, cs, k - 1);
      StepKeeps(states[k - 1], cs[k - 1], states[k]);
    }
  }

  /** A command with valid arguments; nothing is said about what follows if it is unsafe. */
  ghost predicate ValidStep(s: State, c: Command, s': State) {
    WellFormed(s) ==> ValidArguments(s, c) && (Permitted(s, c) ==> Step(s, c, s'))
  }

  ghost predicate SeekFails(s: State, c: Command) {
    WellFormed(s) && ValidArguments(s, c) && c.Seek? && SeekTrips(s, c.song, c.success)
  }

  ghost predicate IsValidRun(states: seq<State>, cs: seq<Command>) {
    |states| == |cs| + 1 && forall i :: 0 <= i < |cs| ==> ValidStep(states[i], cs[i], states[i + 1])
  }

  /**
   In every run without random mode, of commands with valid arguments and without a seek that
   fails while another song is queued, each command is permitted, the order numbers stay valid, and an edit leaves the right song queued.
   */
  lemma {:induction false} SequentialRunKeeps(states: seq<State>, cs: seq<Command>, k: nat)
    requires IsValidRun(states, cs) && WellFormed(states[0]) && !states[0].queue.random && k <= |cs|
    requires forall i :: 0 <= i < |cs| ==> !cs[i].SetRandom? && !SeekFails(states[i], cs[i])
    ensures WellFormed(states[k]) && !states[k].queue.random
    ensures k < |cs| ==> Permitted(states[k], cs[k])
    ensures k > 0 && IsEdit(cs[k - 1]) && states[k].playing ==>
              states[k].queued == NextOrder(states[k].queue, states[k].current)
  {
    hide Consistent, Step, Safe;
    if k > 0 {
      SequentialRunKeeps(states, cs, k - 1);
      StepKeeps(states[k - 1], cs[k - 1], states[k]);
    }
    if k < |cs| {
      assert ValidStep(states[k], cs[k], states[k + 1]);
      SequentialIsPermitted(states[k], cs[k]);
    }
  }

  /** `playlist_sync()` is a run of at most two of the player's events. */
  lemma SyncIsRun(s: State, stopped: bool, failed: bool, fatal: bool, paused: bool,
                  taken: bool, takenAgain: bool, s': State) returns (states: seq<State>, cs: seq<Command>)
    requires WellFormed(s) && (s.playing && !stopped && taken && s.queued >= 0 ==> !StartTrips(s, paused))
    requires Synced(s, stopped, failed, fatal, paused, taken, takenAgain, s')
    ensures IsRun(states, cs) && |cs| <= 2 && states[0] == s && states[|cs|] == s'
    ensures forall i :: 0 <= i < |cs| ==> cs[i].SongStarted? || cs[i].PlayerStopped? || cs[i].Requeue?
  {
    hide Resumed, Updated, Started, StartTrips, Consistent, IsRun;
    NoSteps(s);
    states, cs := [s], [];
    if s.playing && stopped {
      OneStep(s, PlayerStopped(failed, fatal, paused), s');
      states, cs := [s, s'], [PlayerStopped(failed, fatal, paused)];
    } else if s.playing {
      var m :| (if taken && s.queued >= 0 then Started(s, paused, m) else m == s)
        && if takenAgain && m.queued < 0 && m.playing then UpdateEntry(m, None) && Updated(m, None, s') else s' == m;
      var requeue := takenAgain && m.queued < 0 && m.playing;
      if taken && s.queued >= 0 {
        StartedKeeps(s, paused, m);
        OneStep(s, SongStarted(paused), m);
        states, cs := [s, m], [SongStarted(paused)];
        if requeue {
          TwoSteps(s, SongStarted(paused), m, Requeue, s');
          states, cs := [s, m, s'], [SongStarted(paused), Requeue];
        }
      } else if requeue {
        OneStep(s, Requeue, s');
        states, cs := [s, s'], [Requeue];
      }
    }
  }

  lemma NoSteps(s: State)
    ensures IsRun([s], [])
  {
  }

  lemma OneStep(s: State, c: Command, s': State)
    requires WellFormed(s) && Permitted(s, c) && Step(s, c, s')
    ensures IsRun([s, s'], [c])
  {
    hide Permitted, Step, WellFormed;
  }

  lemma TwoSteps(s: State, c: Command, m: State, c': Command, s': State)
    requires WellFormed(s) && Permitted(s, c) && Step(s, c, m)
    requires WellFormed(m) && Permitted(m, c') && Step(m, c', s')
    ensures IsRun([s, m, s'], [c, c'])
  {
    hide Permitted, Step, WellFormed;
  }

  // ---- repeated "next" ----

  /** The songs that the player has been told to play, in order. */
  function PlayedSongs(calls: seq<Call>): seq<Song> {
    if calls == [] then []
    else
      var c := calls[|calls| - 1];
      PlayedSongs(calls[..|calls| - 1]) + if c.Play? then [c.song] else []
  }

  lemma {:induction false} PlayedSongsConcat(a: seq<Call>, b: seq<Call>)
    ensures PlayedSongs(a + b) == PlayedSongs(a) + PlayedSongs(b)
  {
    if b == [] {
      assert a + b == a;
    } else {
      var n := |b| - 1;
      PlayedSongsConcat(a, b[..n]);
      assert (a + b)[..|a + b| - 1] == a + b[..n];
    }
  }

  lemma AnnouncePlaysNothing(prev: Option<Song>, next: Option<Song>)
    ensures PlayedSongs(Announce(prev, next)) == []
  {
    assert Announce(prev, next) == [] || (|Announce(prev, next)| == 1 && !Announce(prev, next)[0].Play?)
      || (Announce(prev, next) == [Cancel, Enqueue(next.value)]);
    assert PlayedSongs([Cancel]) == [];
    if next.Some? {
      assert [Cancel, Enqueue(next.value)][..1] == [Cancel];
    }
  }

  /** The songs of a stretch of the play order. */
  ghost function SongsInOrder(q: Queue, lo: nat, hi: nat): (r: seq<Song>)
    requires lo <= hi <= |q.order| == |q.items| && IsPermutation(q.order)
    ensures |r| == hi - lo
  {
    seq<Song>(hi - lo, i requires 0 <= i < hi - lo => ItemAt(q, lo + i).song)
  }

  /** Consecutive calls of `playlist_next()`. */
  ghost predicate IsNextRun(states: seq<State>, paused: seq<bool>) {
    && |states| == |paused| + 1
    && forall i :: 0 <= i < |paused| ==> WellFormed(states[i]) && Advanced(states[i], paused[i], states[i + 1])
  }

  /** One call without repeat and consume mode. */
  lemma NextWithoutRepeat(s: State, paused: bool, s': State)
    requires WellFormed(s) && s.playing && !s.queue.repeat && !s.queue.consume && Advanced(s, paused, s')
    ensures WellFormed(s')
    ensures s.current + 1 < |s.queue.items| ==>
              && s'.playing && s'.queue == s.queue && s'.current == s.current + 1
              && PlayedSongs(s'.calls) == PlayedSongs(s.calls) + [ItemAt(s.queue, s.current + 1).song]
    ensures s.current + 1 == |s.queue.items| ==>
              !s'.playing && s'.current == -1 && PlayedSongs(s'.calls) == PlayedSongs(s.calls)
  {
    SkippedKeeps(s, s');
    assert s'.calls[..|s'.calls| - 1] == s.calls;
  }

  lemma {:induction false} PlaysInOrder(states: seq<State>, paused: seq<bool>, k: nat)
    requires IsNextRun(states, paused) && WellFormed(states[0]) && states[0].playing
    requires !states[0].queue.repeat && !states[0].queue.consume
    requires k <= |paused| && states[0].current + k < |states[0].queue.items|
    ensures WellFormed(states[k]) && states[k].playing
    ensures states[k].queue == states[0].queue && states[k].current == states[0].current + k
    ensures PlayedSongs(states[k].calls) == PlayedSongs(states[0].calls) +
              SongsInOrder(states[0].queue, states[0].current + 1, states[0].current + 1 + k)
  {
    hide Advanced, Consistent, PlayedSongs;
    if k > 0 {
      PlaysInOrder(states, paused, k - 1);
      NextWithoutRepeat(states[k - 1], paused[k - 1], states[k]);
    }
  }

  /**
   Without repeat and consume mode, in sequential and in random mode, repeated "next"
   plays each remaining entry of the play order once and then stops.
   */
  lemma PlaysRemainingOrder(states: seq<State>, paused: seq<bool>)
    requires IsNextRun(states, paused) && states[0].playing && WellFormed(states[0])
    requires !states[0].queue.repeat && !states[0].queue.consume
    requires |paused| == |states[0].queue.items| - states[0].current
    ensures var last := states[|paused|];
            var n := |states[0].queue.items|;
            && !last.playing && last.current == -1
            && PlayedSongs(last.calls) ==
               PlayedSongs(states[0].calls) + SongsInOrder(states[0].queue, states[0].current + 1, n)
  {
    var k := |paused| - 1;
    PlaysInOrder(states, paused, k);
    NextWithoutRepeat(states[k], paused[k], states[k + 1]);
  }

  // ---- repeat and consume mode ----

  /** Songs in the order in which they follow the one at position `c`, starting over at the end. */
  function Following(e: seq<Entry>, c: nat): seq<Entry>
    requires c < |e|
  {
    e[c + 1..] + e[..c]
  }

  function Songs(e: seq<Entry>): (r: seq<Song>)
    ensures |r| == |e|
  {
    seq<Song>(|e|, i requires 0 <= i < |e| => e[i].song)
  }

  /** Deleting a song that is not playing tells the player to play nothing. */
  lemma DeleteOtherPlaysNothing(s: State, p: nat, paused: bool, s': State)
    requires WellFormed(s) && p < |s.queue.items| && !DeleteAborts(s, p) && !IsPlaying(s, p)
    requires !s.queue.random && s.current != p && SongDeleted(s, p, paused, s')
    ensures PlayedSongs(s'.calls) == PlayedSongs(s.calls)
    ensures s'.queue == Incremented(DeletedQueue(s.queue, p))
    ensures s'.current == if s.current > p then s.current - 1 else s.current
  {
    assert IndexOf(s.queue.order, p) == p;
    var m :| Removed(s, p, paused, m) && Finished(m, QueuedSong(s), s');
    assert m == s.(queue := DeletedQueue(s.queue, p),
                   current := if s.current > p then s.current - 1 else s.current) by {
      RemovedOther(s, p, paused, m);
    }
    DeletedQueueConsistent(s.queue, p);
    Bumped(m.queue);
    hide Removed, Consistent, DeletedQueue, Incremented, Refreshed;
    if m.playing { RefreshedPlaysNothing(m, QueuedSong(s), s'); }
  }

  lemma RemovedOther(s: State, p: nat, paused: bool, m: State)
    requires Consistent(s.queue) && p < |s.queue.items| && -1 <= s.current < |s.queue.items|
    requires !DeleteAborts(s, p) && Removed(s, p, paused, m) && s.current != IndexOf(s.queue.order, p)
    ensures m == s.(queue := DeletedQueue(s.queue, p),
                    current := if s.current > IndexOf(s.queue.order, p) then s.current - 1 else s.current)
  {
  }

  lemma RefreshedPlaysNothing(s: State, prev: Option<Song>, s': State)
    requires Refreshed(s, prev, s') && !s.queue.random && Consistent(s.queue) && Consistent(Incremented(s.queue))
    ensures PlayedSongs(s'.calls) == PlayedSongs(s.calls)
    ensures s'.queue == Incremented(s.queue) && s'.current == s.current
  {
    if s.playing {
      var next := NextOrder(Incremented(s.queue), s.current);
      AnnouncePlaysNothing(prev, SongAt(s'.queue, next));
      PlayedSongsConcat(s.calls, Announce(prev, SongAt(s'.queue, next)));
    }
  }

  lemma DeletedModes(q: Queue, p: nat)
    requires Consistent(q) && p < |q.items|
    ensures var r := Incremented(DeletedQueue(q, p));
            r.repeat == q.repeat && r.consume == q.consume && r.random == q.random
    ensures Entries(Incremented(DeletedQueue(q, p)).items) == RemoveAt(Entries(q.items), p)
  {
    DeletedQueueConsistent(q, p);
    Bumped(DeletedQueue(q, p));
  }

  /** One call with repeat and consume mode: the song left is removed, the one after it plays. */
  lemma NextConsumes(s: State, paused: bool, s': State)
    requires WellFormed(s) && s.playing && s.queue.repeat && s.queue.consume && !s.queue.random
    requires Advanced(s, paused, s')
    ensures WellFormed(s') && s'.queue.repeat && s'.queue.consume && !s'.queue.random
    ensures Entries(s'.queue.items) == RemoveAt(Entries(s.queue.items), s.current)
    ensures |s.queue.items| == 1 ==> !s'.playing && PlayedSongs(s'.calls) == PlayedSongs(s.calls)
    ensures |s.queue.items| > 1 ==>
              && s'.playing && s'.current == (if s.current + 1 < |s.queue.items| then s.current else 0)
              && PlayedSongs(s'.calls) == PlayedSongs(s.calls) + [s'.queue.items[s'.current].song]
  {
    hide Skipped, SongDeleted, DeleteAborts, DeletedQueue, Incremented, PlayedSongs, IsPermutation, DistinctIds, RemoveAt;
    var m :| Skipped(s, m) && WellFormed(m) && |m.queue.items| == |s.queue.items|
      && var p := m.queue.order[s.current];
         p < |m.queue.items| && !DeleteAborts(m, p) && SongDeleted(m, p, paused, s');
    SkippedKeeps(s, m);
    ConsumedIsNotPlaying(s, m);
    assert m.queue.order[s.current] == s.current;
    ConsumedKeeps(s, m, paused, s');
    SkippedPlays(s, m);
    DeleteOtherPlaysNothing(m, s.current, paused, s');
    DeletedModes(m.queue, s.current);
    if m.playing {
      DeletedSongAt(m.queue, s.current, m.current);
    }
  }

  lemma SkippedPlays(s: State, m: State)
    requires WellFormed(s) && s.playing && !s.queue.random && Skipped(s, m)
    ensures PlayedSongs(m.calls) == PlayedSongs(s.calls) +
              if m.playing && 0 <= m.current < |s.queue.items| then [s.queue.items[m.current].song] else []
  {
  }

  lemma DeletedSongAt(q: Queue, p: nat, c: nat)
    requires Consistent(q) && p < |q.items| && c < |q.items| && c != p
    ensures var c' := if c > p then c - 1 else c;
            var r := Incremented(DeletedQueue(q, p));
            c' < |r.items| && r.items[c'].song == q.items[c].song
  {
  }

  lemma FollowingStep(e: seq<Entry>, c: nat)
    requires c < |e| && |e| > 1
    ensures var e' := RemoveAt(e, c);
            var c' := if c + 1 < |e| then c else 0;
            Songs(Following(e, c)) == [e'[c'].song] + Songs(Following(e', c'))
  {
    var e' := RemoveAt(e, c);
    var c' := if c + 1 < |e| then c else 0;
    if c + 1 < |e| {
      assert e'[c + 1..] == e[c + 2..] && e'[..c] == e[..c] && e[c + 1..] == [e[c + 1]] + e[c + 2..];
    } else {
      assert e' == e[..c] && e[..c] == [e[0]] + e'[1..] && e[c + 1..] == [];
    }
    assert Following(e, c) == [e'[c']] + Following(e', c');
    hide Following, RemoveAt;
    var rest := Following(e', c');
    assert Songs([e'[c']] + rest) == [e'[c'].song] + Songs(rest);
  }

  ghost predicate Consuming(s: State) {
    WellFormed(s) && s.playing && s.queue.repeat && s.queue.consume && !s.queue.random
  }

  /** Between `s` and `s'` the other songs of the queue were played once, and all were removed. */
  ghost predicate PlayedAll(s: State, s': State)
    requires Consuming(s)
  {
    && s'.queue.items == [] && !s'.playing
    && PlayedSongs(s'.calls) ==
       PlayedSongs(s.calls) + Songs(Following(Entries(s.queue.items), s.current))
  }

  lemma PlayedLast(s: State, paused: bool, s': State)
    requires Consuming(s) && |s.queue.items| == 1 && Advanced(s, paused, s')
    ensures PlayedAll(s, s')
  {
    NextConsumes(s, paused, s');
    RemoveOnly(Entries(s.queue.items));
  }

  lemma PlayedOneMore(s: State, paused: bool, s': State, last: State)
    requires Consuming(s) && |s.queue.items| > 1 && Advanced(s, paused, s')
    ensures Consuming(s') && |s'.queue.items| == |s.queue.items| - 1
    ensures PlayedAll(s', last) ==> PlayedAll(s, last)
  {
    hide Advanced, Consistent, PlayedSongs, Songs, Following, RemoveAt, Entries;
    NextConsumes(s, paused, s');
    FollowingStep(Entries(s.queue.items), s.current);
    var song := s'.queue.items[s'.current].song;
    if PlayedAll(s', last) {
      var rest := Songs(Following(Entries(s'.queue.items), s'.current));
      assert (PlayedSongs(s.calls) + [song]) + rest == PlayedSongs(s.calls) + ([song] + rest);
    }
  }

  /**
   With repeat and consume mode, starting at any song of a queue of n songs, n calls of
   "next" play every other song exactly once, in order, and end stopped with an empty queue.
   */
  lemma {:induction false} ConsumesWholeQueue(states: seq<State>, paused: seq<bool>)
    requires IsNextRun(states, paused) && Consuming(states[0])
    requires |paused| == |states[0].queue.items|
    ensures PlayedAll(states[0], states[|paused|])
    decreases |paused|
  {
    hide Advanced, PlayedAll, Consistent;
    assert Advanced(states[0], paused[0], states[0 + 1]);
    if |paused| == 1 {
      PlayedLast(states[0], paused[0], states[1]);
    } else {
      NextRunTail(states, paused);
      PlayedOneMore(states[0], paused[0], states[1], states[|paused|]);
      ConsumesWholeQueue(states[1..], paused[1..]);
    }
  }

  lemma NextRunTail(states: seq<State>, paused: seq<bool>)
    requires IsNextRun(states, paused) && |paused| > 0
    ensures IsNextRun(states[1..], paused[1..])
  {
  }

  lemma RemoveOnly(e: seq<Entry>)
    requires |e| == 1
    ensures RemoveAt(e, 0) == [] && Songs(Following(e, 0)) == []
  {
  }
}

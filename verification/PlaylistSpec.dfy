/**
 The playlist state on top of the queue: which order number is playing
 (`current`), which one has been handed to the player as the next song
 (`queued`), and what every playlist operation makes of them.
 */
module PlaylistSpec {
  import opened Basics
  import opened Permutations
  import opened QueueSpec
  import opened PriorityOrder
  import opened Shuffles

  /** What the playlist asks of the player thread. */
  datatype Call = Play(song: Song) | Enqueue(song: Song) | Cancel | Stop | Seek(song: Song)

  datatype State = State(
    queue: Queue,
    playing: bool,
    current: int,
    queued: int,
    stopOnError: bool,
    errorCount: nat,
    calls: seq<Call>)

  /** The order numbers denote songs; a playing playlist has a current song. */
  ghost predicate WellFormed(s: State) {
    && Consistent(s.queue)
    && -1 <= s.current < |s.queue.items|
    && -1 <= s.queued < |s.queue.items|
    && (s.playing ==> s.current >= 0)
    && (!s.playing ==> s.queued == -1)
  }

  /** `playlist_get_queued_song()` */
  function QueuedSong(s: State): Option<Song>
    requires s.playing && s.queued >= 0 ==>
               s.queued < |s.queue.order| && s.queue.order[s.queued] < |s.queue.items|
  {
    if !s.playing || s.queued < 0 then None else Some(ItemAt(s.queue, s.queued).song)
  }

  /** `q'` is `q` in a new random order, sorted by priority. */
  ghost predicate Reshuffled(q: Queue, q': Queue) {
    q' == q.(order := q'.order) && IsShuffle(q.items, q'.order)
  }

  // ---- playlist_update_queued_song() ----

  /** The entry assertions of `playlist_update_queued_song()`, for a well-formed queue. */
  ghost predicate UpdateEntry(s: State, prev: Option<Song>) {
    && Consistent(s.queue)
    && -1 <= s.current < |s.queue.items|
    && (s.playing ==> s.current >= 0 && -1 <= s.queued && (s.queued < 0 <==> prev.None?))
  }

  /** Does the queue start over, so that the order is shuffled again? */
  ghost predicate StartsOver(s: State)
    requires s.playing ==> 0 <= s.current < |s.queue.items|
  {
    s.playing && NextOrder(s.queue, s.current) == 0 && s.queue.random && !s.queue.single
  }

  /** The queue and the current song after an optional reshuffle. */
  ghost predicate Kept(s: State, q: Queue, current: int)
    requires Consistent(s.queue) && -1 <= s.current < |s.queue.items| && (s.playing ==> s.current >= 0)
  {
    if StartsOver(s)
    then Reshuffled(s.queue, q) && current == IndexOf(q.order, s.queue.order[s.current])
    else q == s.queue && current == s.current
  }

  /** The calls by which the player learns that `next` follows instead of `prev`. */
  function Announce(prev: Option<Song>, next: Option<Song>): seq<Call> {
    if prev == next then []
    else (if prev.Some? then [Cancel] else []) + (if next.Some? then [Enqueue(next.value)] else [])
  }

  ghost predicate Updated(s: State, prev: Option<Song>, s': State)
    requires UpdateEntry(s, prev)
  {
    if !s.playing then s' == s
    else
      var next := NextOrder(s.queue, s.current);
      && Kept(s, s'.queue, s'.current)
      && s' == s.(queue := s'.queue, current := s'.current, queued := next,
                  calls := s.calls + Announce(prev, SongAt(s'.queue, next)))
  }

  /** A playing playlist without a current song, where no shuffle has to look it up. */
  ghost predicate NoCurrentEntry(s: State, prev: Option<Song>) {
    && Consistent(s.queue) && s.queue.items != []
    && s.playing && s.current < 0 && -1 <= s.queued && (s.queued < 0 <==> prev.None?)
    && (s.queue.random ==> s.queue.single)
  }

  /** Then the first song is queued. */
  ghost function FirstQueued(s: State, prev: Option<Song>): State
    requires NoCurrentEntry(s, prev)
  {
    s.(queued := 0, calls := s.calls + Announce(prev, SongAt(s.queue, 0)))
  }

  function SongAt(q: Queue, n: int): Option<Song>
    requires n >= 0 ==> n < |q.order| && q.order[n] < |q.items|
  {
    if n < 0 then None else Some(ItemAt(q, n).song)
  }

  // ---- playback control ----

  /** `playlist_play_order()` */
  function PlayOrder(s: State, n: nat): State
    requires n < |s.queue.order| && s.queue.order[n] < |s.queue.items|
  {
    s.(playing := true, queued := -1, current := n, calls := s.calls + [Play(ItemAt(s.queue, n).song)])
  }

  /** `playlist_stop()`; in random mode the order is shuffled again. */
  ghost predicate Stopped(s: State, s': State)
    requires Consistent(s.queue) && s.current < |s.queue.items|
    requires s.playing && s.queue.random ==> s.current >= 0
  {
    if !s.playing then s' == s
    else
      && s' == s.(queue := s'.queue, current := s'.current, queued := -1, playing := false,
                  calls := s.calls + [Stop])
      && if s.queue.random
         then Reshuffled(s.queue, s'.queue) && s'.current == IndexOf(s'.queue.order, s.queue.order[s.current])
         else s'.queue == s.queue && s'.current == s.current
  }

  // ---- editing ----

  /** The queue once the song has been appended and, in random mode, drawn into the order. */
  ghost function AppendedQueue(s: State, song: Song, id: nat, r: nat): Queue {
    var q := s.queue;
    var n := |q.items|;
    var start := if s.queued >= 0 then s.queued + 1 else s.current + 1;
    var o := q.order + [n];
    q.(items := q.items + [Item(song, id, q.version, 0)],
       order := if q.random && start <= r <= n && |o| == n + 1 then Swapped(o, n, r) else o)
  }

  /** `playlist_append_song()`, where `r` is the random choice made in random mode. */
  ghost predicate Appended(s: State, song: Song, id: nat, r: nat, s': State)
    requires WellFormed(s)
  {
    var start := if s.queued >= 0 then s.queued + 1 else s.current + 1;
    && (forall p :: 0 <= p < |s.queue.items| ==> s.queue.items[p].id != id)
    && (s.queue.random ==> start <= r <= |s.queue.items|)
    && Refreshed(s.(queue := AppendedQueue(s, song, id, r)), QueuedSong(s), s')
  }

  /** The order number `n` after the songs at positions `i` and `j` have changed places. */
  function SwappedCurrent(q: Queue, n: int, i: nat, j: nat): int {
    if q.random then n else if n == i then j else if n == j then i else n
  }

  /** `queue_swap()` and the repair of the order array in random mode. */
  ghost function SwappedQueue(q: Queue, i: nat, j: nat): (q': Queue)
    requires Consistent(q) && i < |q.items| && j < |q.items|
  {
    q.(items := SwappedItems(q.items, i, j, q.version),
       order := if q.random then Swapped(q.order, IndexOf(q.order, i), IndexOf(q.order, j)) else q.order)
  }

  /** `playlist_swap_songs()` for valid positions. */
  ghost predicate SongsSwapped(s: State, i: nat, j: nat, s': State)
    requires WellFormed(s) && i < |s.queue.items| && j < |s.queue.items|
  {
    var s1 := s.(queue := Incremented(SwappedQueue(s.queue, i, j)),
                 current := SwappedCurrent(s.queue, s.current, i, j));
    UpdateEntry(s1, QueuedSong(s)) && Updated(s1, QueuedSong(s), s')
  }

  /** The position of the current song, or -1. */
  function CurrentPosition(s: State): int
    requires s.current < |s.queue.order|
  {
    if s.current >= 0 then s.queue.order[s.current] else -1
  }

  /** In random mode exactly the songs that have become more urgent are played again, by falling priority. */
  ghost predicate PrioritiesOrdered(s: State, start: nat, end: nat, priority: Priority, o: seq<nat>)
    requires WellFormed(s) && start < end <= |s.queue.items|
  {
    var c := CurrentPosition(s);
    var items := SetPriorityBetween(s.queue.items, start, end, priority, s.queue.version);
    |o| == |s.queue.items| && IsPermutation(o) &&
    (s.queue.random ==>
       && RangePlayedAgain(s.queue.items, s.queue.order, o, start, end, priority, c)
       && (TailDescending(s.queue.items, s.queue.order, c) ==> TailDescending(items, o, c)))
  }

  /** `playlist_set_priority()` for a valid, non-empty range of positions. */
  ghost predicate PrioritySet(s: State, start: nat, end: nat, priority: Priority, o: seq<nat>, s': State)
    requires WellFormed(s) && start < end <= |s.queue.items|
  {
    var q' := s.queue.(items := SetPriorityBetween(s.queue.items, start, end, priority, s.queue.version), order := o);
    && |o| == |s.queue.items| && IsPermutation(o) && (!s.queue.random ==> o == s.queue.order)
    && var s1 := s.(queue := Incremented(q'), current := OrderOf(o, CurrentPosition(s)));
       UpdateEntry(s1, QueuedSong(s)) && Updated(s1, QueuedSong(s), s')
  }

  /** The deleted queue: one song less, and its id unused. */
  ghost function DeletedQueue(q: Queue, p: nat): Queue
    requires Consistent(q) && p < |q.items|
  {
    q.(items := DeletedItems(q.items, p, q.version), order := WithoutEntry(q.order, IndexOf(q.order, p)))
  }

  /** The order number that plays after the current song has been deleted, or -1. */
  function Successor(s: State): int
    requires 0 <= s.current < |s.queue.items|
  {
    var next := NextOrder(s.queue, s.current);
    if next == s.current then -1 else next
  }

  /** Is the song at position `p` being played? */
  ghost predicate IsPlaying(s: State, p: nat)
    requires Consistent(s.queue) && p < |s.queue.items|
  {
    s.playing && s.current == IndexOf(s.queue.order, p)
  }

  /** `playlist_delete_internal()` would stop playback in random mode without a current song. */
  ghost predicate DeleteAborts(s: State, p: nat)
    requires Consistent(s.queue) && p < |s.queue.items|
  {
    IsPlaying(s, p) && s.queue.random && Successor(s) < 0
  }

  /** `playlist_delete_internal()` up to the removal: playback leaves the song. */
  ghost predicate Vacated(s: State, p: nat, paused: bool, s': State)
    requires Consistent(s.queue) && p < |s.queue.items| && -1 <= s.current
    requires !DeleteAborts(s, p)
  {
    if IsPlaying(s, p) then
      var next := Successor(s);
      if next >= 0 && !paused then s' == PlayOrder(s.(current := next), next)
      else
        exists m :: Stopped(s.(current := next), m) && s' == m.(calls := m.calls + [Stop])
    else if s.current == IndexOf(s.queue.order, p) then s' == s.(current := -1)
    else s' == s
  }

  /** `playlist_delete_internal()`; it may find `current` past the end of the queue. */
  ghost predicate Removed(s: State, p: nat, paused: bool, s': State)
    requires Consistent(s.queue) && p < |s.queue.items| && -1 <= s.current
    requires !DeleteAborts(s, p)
  {
    var n := IndexOf(s.queue.order, p);
    exists m :: Vacated(s, p, paused, m) && Consistent(m.queue) && |m.queue.items| == |s.queue.items|
      && s' == m.(queue := DeletedQueue(m.queue, p), current := if m.current > n then m.current - 1 else m.current)
  }

  /** `playlist_delete()` for a valid position. */
  ghost predicate SongDeleted(s: State, p: nat, paused: bool, s': State)
    requires WellFormed(s) && p < |s.queue.items| && !DeleteAborts(s, p)
  {
    var prev := if IsPlaying(s, p) then None else QueuedSong(s);
    exists m :: Removed(s, p, paused, m) && Finished(m, prev, s')
  }

  /** `playlist_increment_version()` followed by `playlist_update_queued_song()`. */
  ghost predicate Refreshed(s: State, prev: Option<Song>, s': State) {
    var s1 := s.(queue := Incremented(s.queue));
    UpdateEntry(s1, prev) && Updated(s1, prev, s')
  }

  /** The same after a deletion, which may have stopped playback with `current` past the end. */
  ghost predicate Finished(s: State, prev: Option<Song>, s': State) {
    if s.playing then Refreshed(s, prev, s') else s' == s.(queue := Incremented(s.queue))
  }

  /** Between the removal of songs and the choice of a new queued song. */
  ghost predicate Pending(s: State, prev: Option<Song>) {
    UpdateEntry(s, prev) && (!s.playing ==> s.queued == -1)
  }

  /** The queue holds the positions before `end`. */
  ghost predicate Holds(s: State, end: nat) {
    Consistent(s.queue) && -1 <= s.current && end <= |s.queue.items|
  }

  /** The song before position `end` has been removed. */
  ghost predicate RemovedBefore(s: State, end: nat, paused: bool, s': State)
    requires 0 < end && Holds(s, end)
    requires !DeleteAborts(s, end - 1)
  {
    Removed(s, end - 1, paused, s')
  }

  /** The loop of `playlist_delete_range()`, which removes `start..end` from the last to the first. */
  ghost predicate RangeRemoved(s: State, start: nat, end: nat, paused: bool, prev: Option<Song>,
                               s': State, prev': Option<Song>)
    decreases end
  {
    if end <= start then s' == s && prev' == prev
    else
      && Holds(s, end) && !DeleteAborts(s, end - 1)
      && exists m :: RemovedBefore(s, end, paused, m) &&
           RangeRemoved(m, start, end - 1, paused, if IsPlaying(s, end - 1) then None else prev, s', prev')
  }

  /** `playlist_delete_range()` for a valid, non-empty range. */
  ghost predicate RangeDeleted(s: State, start: nat, end: nat, paused: bool, s': State)
    requires WellFormed(s)
  {
    exists m, prev :: RangeRemoved(s, start, end, paused, QueuedSong(s), m, prev) && Finished(m, prev, s')
  }

  /** What `playlist_move_range()` makes of its arguments. */
  datatype MoveDecision = OutOfRange | Nothing | MoveTo(to: int)

  function DecideMove(s: State, start: nat, end: nat, to: int): MoveDecision
    requires start <= UINT_MAX && end <= UINT_MAX && -0x8000_0000 <= to < 0x8000_0000
    requires s.current < |s.queue.order| && |s.queue.items| <= UINT_MAX
  {
    var n := |s.queue.items|;
    if !(start < n) || !(Wrap(end - 1) < n) then OutOfRange
    else if to >= 0 && Wrap(Wrap(Wrap(to + end) - start) - 1) >= n then OutOfRange
    else if to < 0 && -to > n then OutOfRange
    else if start == to then Nothing
    else if to < 0 && s.current >= 0 then
      if start <= CurrentPosition(s) < end then Nothing
      else
        var t := (CurrentPosition(s) - to) % n;
        MoveTo(if start < t then t - 1 else t)
    else MoveTo(to)
  }

  /** How `playlist_move_range()` adjusts `current` outside random mode. */
  function MovedCurrent(c: int, start: nat, end: nat, to: int): int {
    if start <= c < end then c + to - start
    else if end <= c <= to then c - (end - start)
    else if to <= c < start then c + (end - start)
    else c
  }

  ghost function MovedQueue(q: Queue, start: nat, end: nat, to: nat): Queue
    requires start <= end <= |q.items| && to + (end - start) <= |q.items|
  {
    q.(items := MovedItems(q.items, start, end, to, q.version),
       order := if q.random then MovedOrder(q.order, start, end, to) else q.order)
  }

  /** `playlist_move_range()` once the target has been decided. */
  ghost predicate RangeMoved(s: State, start: nat, end: nat, to: nat, s': State)
    requires WellFormed(s) && start <= end <= |s.queue.items| && to + (end - start) <= |s.queue.items|
  {
    Refreshed(s.(queue := MovedQueue(s.queue, start, end, to),
                 current := if s.queue.random then s.current else MovedCurrent(s.current, start, end, to)),
              QueuedSong(s), s')
  }

  /** The playing song has been put first in the range to shuffle. */
  ghost function PutFirst(s: State, start: nat): State
    requires WellFormed(s) && s.current >= 0 && start < |s.queue.items|
  {
    var q := s.queue.(items := SwappedItems(s.queue.items, start, s.queue.order[s.current], s.queue.version));
    s.(queue := q, current := IndexOf(q.order, start))
  }

  /** `playlist_shuffle()` for a range of at least two songs; `items` is the outcome. */
  ghost predicate RangeShuffled(s: State, start: nat, end: nat, items: seq<Item>, s': State)
    requires WellFormed(s) && start + 1 < end <= |s.queue.items|
  {
    var inside := s.playing && start <= CurrentPosition(s) < end;
    var s1 := if inside then PutFirst(s, start) else if s.playing then s else s.(current := -1);
    && ShuffledItems(s1.queue.items, items, if inside then start + 1 else start, end, s.queue.version)
    && DistinctIds(items)
    && Refreshed(s1.(queue := s1.queue.(items := items)), QueuedSong(s), s')
  }

  // ---- seeking ----

  /** Is the song at position `p` already being played, so that seeking stays in it? */
  ghost predicate SeeksInside(s: State, p: nat)
    requires WellFormed(s) && p < |s.queue.items|
  {
    IsPlaying(s, p)
  }

  /** `playlist_seek_song()` up to the answer of the player. */
  ghost function Seeking(s: State, p: nat): State
    requires WellFormed(s) && p < |s.queue.items|
  {
    s.(stopOnError := true, errorCount := 0, playing := true, current := IndexOf(s.queue.order, p),
       calls := s.calls + [Seek(s.queue.items[p].song)])
  }

  /** The song that the code takes for the queued one when seeking has failed. */
  ghost function AssumedQueued(s: State, p: nat): Option<Song>
    requires WellFormed(s) && p < |s.queue.items|
  {
    if SeeksInside(s, p) then QueuedSong(s) else None
  }

  /** `playlist_seek_song()` for a valid position and the answer of the player. */
  ghost predicate Sought(s: State, p: nat, success: bool, s': State)
    requires WellFormed(s) && p < |s.queue.items|
  {
    var s1 := if success then Seeking(s, p).(queued := -1) else Seeking(s, p);
    var prev := if success then None else AssumedQueued(s, p);
    UpdateEntry(s1, prev) && Updated(s1, prev, s')
  }

  // ---- tags ----

  /** `playlist_tag_changed()` */
  function Retagged(s: State): State
    requires s.playing ==> 0 <= s.current < |s.queue.order|
  {
    if !s.playing then s
    else
      var q := s.queue;
      var p := q.order[s.current];
      s.(queue := Incremented(q.(items := StampRange(q.items, p, p + 1, q.version))))
  }

  /** `playlist_increment_version_all()` */
  function AllRetagged(s: State): State {
    var q := s.queue;
    s.(queue := Incremented(q.(items := StampRange(q.items, 0, |q.items|, q.version))))
  }

  // ---- modes ----

  /** `o` is a shuffle in which the playing song, if any, has changed places with the first one. */
  ghost predicate CurrentFirst(s: State, o: seq<nat>)
    requires s.current < |s.queue.order|
  {
    exists sh: seq<nat> :: IsShuffle(s.queue.items, sh) &&
      if s.playing && 0 <= CurrentPosition(s) < |sh|
      then o == Swapped(sh, 0, IndexOf(sh, CurrentPosition(s))) else o == sh
  }

  /** `playlist_set_random()` switching random mode on or off; `q` is the queue in its new order. */
  ghost predicate RandomSet(s: State, random: bool, q: Queue, s': State)
    requires WellFormed(s) && random != s.queue.random
  {
    var s1 := s.(queue := q, current := if random then (if s.playing then 0 else -1) else CurrentPosition(s));
    && q == s.queue.(random := random, order := q.order)
    && |q.order| == |q.items| && IsPermutation(q.order)
    && (!random ==> IsIdentity(q.order))
    && (random ==> CurrentFirst(s, q.order))
    && UpdateEntry(s1, QueuedSong(s)) && Updated(s1, QueuedSong(s), s')
  }

  /** `playlist_set_repeat()` and `playlist_set_single()`. */
  ghost predicate ModesSet(s: State, repeat: bool, single: bool, s': State)
    requires WellFormed(s)
  {
    var s1 := s.(queue := s.queue.(repeat := repeat, single := single));
    UpdateEntry(s1, QueuedSong(s)) && Updated(s1, QueuedSong(s), s')
  }

  // ---- more playback control ----

  /** `playlist_next()` before consume mode removes the song that has been left. */
  ghost predicate Skipped(s: State, s': State)
    requires WellFormed(s) && s.playing
  {
    var s1 := s.(stopOnError := false);
    var next := NextOrder(s.queue, s.current);
    if next < 0 then exists m :: Stopped(s1, m) && s' == m.(current := -1)
    else
      && s' == PlayOrderIn(s1, s'.queue, next)
      && if next == 0 && s.queue.random then Reshuffled(s.queue, s'.queue) else s'.queue == s.queue
  }

  /** `playlist_play_order()` in a queue that has just been reordered. */
  ghost function PlayOrderIn(s: State, q: Queue, n: nat): State {
    if n < |q.order| && q.order[n] < |q.items| then PlayOrder(s.(queue := q), n) else s
  }

  /** `playlist_next()` */
  ghost predicate Advanced(s: State, paused: bool, s': State)
    requires WellFormed(s)
  {
    if !s.playing then s' == s
    else if !s.queue.consume then Skipped(s, s')
    else
      exists m :: Skipped(s, m) && WellFormed(m) && |m.queue.items| == |s.queue.items|
        && var p := m.queue.order[s.current];
           p < |m.queue.items| && !DeleteAborts(m, p) && SongDeleted(m, p, paused, s')
  }

  /** `playlist_play()` of an order number that the arguments select. */
  ghost predicate PlayedOrder(s: State, n: nat, s': State)
    requires WellFormed(s) && n < |s.queue.items|
  {
    var s1 := s.(stopOnError := false, errorCount := 0);
    if s.queue.random then
      var c := if s.playing then s.current else 0;
      s' == PlayOrder(s1.(queue := s.queue.(order := Swapped(s.queue.order, n, c))), c)
    else s' == PlayOrder(s1, n)
  }

  /** `playlist_previous()` */
  function Previous(s: State): State
    requires s.playing ==> 0 <= s.current < |s.queue.items| == |s.queue.order|
    requires InRange(s.queue.items, s.queue.order)
  {
    if !s.playing then s
    else if s.current > 0 then PlayOrder(s, s.current - 1)
    else if s.queue.repeat then PlayOrder(s, |s.queue.items| - 1)
    else PlayOrder(s, s.current)
  }

  /** `playlist_clear()` */
  ghost predicate Cleared(s: State, s': State)
    requires WellFormed(s)
  {
    exists m :: Stopped(s, m)
      && s' == m.(queue := Incremented(m.queue.(items := [], order := [])), current := -1)
  }

  /** `playlist_song_started()`: the player has gone on to the queued song. */
  ghost predicate Started(s: State, paused: bool, s': State)
    requires WellFormed(s) && s.playing && s.queued >= 0
  {
    var s1 := s.(current := s.queued, queued := -1);
    if !s.queue.consume then s' == s1
    else
      var p := s.queue.order[s.current];
      p < |s.queue.items| && !DeleteAborts(s1, p) && SongDeleted(s1, p, paused, s')
  }

  /** `playlist_resume_playback()`: the player has stopped, perhaps because of an error. */
  ghost predicate Resumed(s: State, failed: bool, fatal: bool, paused: bool, s': State)
    requires WellFormed(s) && s.playing
  {
    var s1 := s.(errorCount := if failed then s.errorCount + 1 else 0);
    if (s.stopOnError && failed) || fatal || s1.errorCount >= |s.queue.items|
    then Stopped(s1, s')
    else Advanced(s1, paused, s')
  }

  /**
   `playlist_sync()`: the player has stopped, or it may have `taken` the queued
   song, and it may be without a next song when it is asked again.
   */
  ghost predicate Synced(s: State, stopped: bool, failed: bool, fatal: bool, paused: bool,
                         taken: bool, takenAgain: bool, s': State)
    requires WellFormed(s)
  {
    if !s.playing then s' == s
    else if stopped then Resumed(s, failed, fatal, paused, s')
    else
      exists m :: (if taken && s.queued >= 0 then Started(s, paused, m) else m == s)
        && if takenAgain && m.queued < 0 && m.playing then UpdateEntry(m, None) && Updated(m, None, s') else s' == m
  }
}

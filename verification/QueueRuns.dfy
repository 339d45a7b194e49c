/**
 Runs of queue operations. Every operation keeps the queue consistent, and
 the version stamps tell a client exactly which positions to fetch again.
 */
module QueueRuns {
  import opened Permutations
  import opened QueueSpec
  import opened PriorityOrder

  /** A queue operation, with the outcome of its random choices. */
  datatype Op =
    | Append(song: Song, id: nat, priority: Priority)
    | Swap(position1: nat, position2: nat)
    | MoveRange(start: nat, end: nat, to: nat)
    | Delete(position: nat)
    | Clear
    | SetPriorities(first: nat, last: nat, newPriority: Priority, reordered: seq<nat>)
    | ShuffleRange(lo: nat, hi: nat, shuffled: seq<Item>)
    | Reorder(order: seq<nat>)
    | SetModes(repeat: bool, single: bool, consume: bool)
    | SetRandom(random: bool, newOrder: seq<nat>)
    | Touch(from: nat, until: nat)
    | IncrementVersion

  ghost predicate IsOrderFor(q: Queue, random: bool, o: seq<nat>) {
    |o| == |q.items| && IsPermutation(o) && (!random ==> IsIdentity(o))
  }

  ghost predicate Enabled(q: Queue, op: Op) {
    match op
    case Append(_, id, _) => forall p :: 0 <= p < |q.items| ==> q.items[p].id != id
    case Swap(i, j) => i < |q.items| && j < |q.items|
    case MoveRange(start, end, to) => start <= end <= |q.items| && to + (end - start) <= |q.items|
    case Delete(p) => p < |q.items|
    case Clear => true
    case SetPriorities(first, last, _, o) => first <= last <= |q.items| && IsOrderFor(q, q.random, o)
    case ShuffleRange(lo, hi, s) =>
      ShuffledItems(q.items, s, lo, hi, q.version) && DistinctIds(s)
    case Reorder(o) => IsOrderFor(q, q.random, o)
    case SetModes(_, _, _) => true
    case SetRandom(random, o) => IsOrderFor(q, random, o)
    case Touch(from, until) => from <= until <= |q.items|
    case IncrementVersion => true
  }

  ghost function Apply(q: Queue, op: Op): Queue
    requires Consistent(q) && Enabled(q, op)
  {
    match op
    case Append(song, id, priority) =>
      q.(items := q.items + [Item(song, id, q.version, priority)], order := q.order + [|q.order|])
    case Swap(i, j) => q.(items := SwappedItems(q.items, i, j, q.version))
    case MoveRange(start, end, to) =>
      q.(items := MovedItems(q.items, start, end, to, q.version),
         order := if q.random then MovedOrder(q.order, start, end, to) else q.order)
    case Delete(p) =>
      q.(items := DeletedItems(q.items, p, q.version),
         order := WithoutEntry(q.order, IndexOf(q.order, p)))
    case Clear => q.(items := [], order := [])
    case SetPriorities(first, last, priority, o) =>
      q.(items := SetPriorityBetween(q.items, first, last, priority, q.version), order := o)
    case ShuffleRange(lo, hi, s) => q.(items := s)
    case Reorder(o) => q.(order := o)
    case SetModes(repeat, single, consume) => q.(repeat := repeat, single := single, consume := consume)
    case SetRandom(random, o) => q.(random := random, order := o)
    case Touch(from, until) => q.(items := StampRange(q.items, from, until, q.version))
    case IncrementVersion => Incremented(q)
  }

  /** `op` turns a consistent queue `q` into `q'`. */
  ghost predicate Applied(q: Queue, op: Op, q': Queue) {
    Consistent(q) ==> Enabled(q, op) && q' == Apply(q, op)
  }

  /** Stamping the positions `lo..hi` and a new version turn a consistent queue `q` into `q'`. */
  ghost predicate Touched(q: Queue, lo: nat, hi: nat, q': Queue) {
    Consistent(q) ==>
      Enabled(q, Touch(lo, hi)) && Consistent(Apply(q, Touch(lo, hi))) &&
      q' == Apply(Apply(q, Touch(lo, hi)), IncrementVersion)
  }

  lemma TouchApplied(q: Queue, lo: nat, hi: nat)
    requires lo <= hi <= |q.items|
    ensures Touched(q, lo, hi, Incremented(q.(items := StampRange(q.items, lo, hi, q.version))))
  {
    if Consistent(q) { ApplyConsistent(q, Touch(lo, hi)); }
  }

  lemma SetPrioritiesApplied(q: Queue, first: nat, last: nat, priority: Priority, o: seq<nat>)
    requires first <= last <= |q.items| && |o| == |q.items| && IsPermutation(o) && (q.random || o == q.order)
    ensures Applied(q, SetPriorities(first, last, priority, o),
                    q.(items := SetPriorityBetween(q.items, first, last, priority, q.version), order := o))
  {
  }

  // ---- every operation keeps the queue consistent ----

  lemma MovedDistinct(s: seq<Item>, start: nat, end: nat, to: nat, version: nat)
    requires DistinctIds(s) && start <= end <= |s| && to + (end - start) <= |s|
    ensures DistinctIds(MovedItems(s, start, end, to, version))
  {
    var r := MovedItems(s, start, end, to, version);
    forall i, j | 0 <= i < j < |r| ensures r[i].id != r[j].id {
      SpliceAt(s, start, end, to, i);
      SpliceAt(s, start, end, to, j);
      OriginInverse(start, end, to, |s|, i);
      OriginInverse(start, end, to, |s|, j);
      var i', j' := Origin(i, start, end, to), Origin(j, start, end, to);
      assert i' != j' && r[i].id == s[i'].id && r[j].id == s[j'].id;
    }
  }

  lemma DeletedDistinct(s: seq<Item>, p: nat, version: nat)
    requires DistinctIds(s) && p < |s|
    ensures DistinctIds(DeletedItems(s, p, version))
  {
  }

  lemma AppendedConsistent(q: Queue, item: Item)
    requires Consistent(q) && forall p :: 0 <= p < |q.items| ==> q.items[p].id != item.id
    ensures Consistent(q.(items := q.items + [item], order := q.order + [|q.order|]))
  {
  }

  lemma SwappedConsistent(q: Queue, i: nat, j: nat)
    requires Consistent(q) && i < |q.items| && j < |q.items|
    ensures Consistent(q.(items := SwappedItems(q.items, i, j, q.version)))
  {
  }

  lemma SameIdsConsistent(q: Queue, s: seq<Item>)
    requires Consistent(q) && |s| == |q.items| && forall p :: 0 <= p < |s| ==> s[p].id == q.items[p].id
    ensures DistinctIds(s)
  {
  }

  lemma StampedDistinct(q: Queue, lo: nat, hi: nat, version: nat)
    requires Consistent(q)
    ensures DistinctIds(StampRange(q.items, lo, hi, version))
  {
  }

  lemma PrioritizedDistinct(q: Queue, lo: nat, hi: nat, priority: Priority)
    requires Consistent(q)
    ensures DistinctIds(SetPriorityBetween(q.items, lo, hi, priority, q.version))
  {
  }

  lemma ApplyConsistent(q: Queue, op: Op)
    requires Consistent(q) && Enabled(q, op)
    ensures Consistent(Apply(q, op))
  {
    hide DistinctIds, IsPermutation, IsIdentity, MovedItems, MovedOrder, DeletedItems, WithoutEntry, SwappedItems,
      StampRange, SetPriorityBetween, Entries;
    match op
    case Append(song, id, priority) => AppendedConsistent(q, Item(song, id, q.version, priority));
    case Swap(i, j) => SwappedConsistent(q, i, j);
    case MoveRange(start, end, to) =>
      MovedDistinct(q.items, start, end, to, q.version);
      MovedOrderPermutation(q.order, start, end, to);
    case Delete(p) =>
      DeletedDistinct(q.items, p, q.version);
      WithoutEntryPermutation(q.order, IndexOf(q.order, p));
      if !q.random { WithoutEntryIdentity(q.order, IndexOf(q.order, p)); }
    case Clear => EmptyConsistent();
    case SetPriorities(first, last, priority, _) => PrioritizedDistinct(q, first, last, priority);
    case Touch(from, until) => StampedDistinct(q, from, until, q.version);
    case IncrementVersion => StampedDistinct(q, 0, |q.items|, 0);
    case _ =>
  }

  lemma EmptyConsistent()
    ensures DistinctIds([]) && IsPermutation([]) && IsIdentity([])
  {
  }

  ghost predicate EnabledRun(q: Queue, ops: seq<Op>)
    requires Consistent(q)
    decreases |ops|, 0
  {
    ops == [] ||
    (EnabledRun(q, ops[..|ops| - 1]) && Enabled(Run(q, ops[..|ops| - 1]), ops[|ops| - 1]))
  }

  /** The queue after a run of operations; it is consistent after every run. */
  ghost function Run(q: Queue, ops: seq<Op>): (r: Queue)
    requires Consistent(q) && EnabledRun(q, ops)
    ensures Consistent(r)
    decreases |ops|, 1
  {
    if ops == [] then q
    else
      var before := Run(q, ops[..|ops| - 1]);
      ApplyConsistent(before, ops[|ops| - 1]);
      Apply(before, ops[|ops| - 1])
  }

  // ---- what the operations mean for the three ways to address a song ----

  lemma DeletedEntries(s: seq<Item>, p: nat, version: nat)
    requires p < |s|
    ensures Entries(DeletedItems(s, p, version)) == RemoveAt(Entries(s), p)
  {
  }

  lemma DeletedPlayIds(q: Queue, q': Queue, p: nat)
    requires |q.order| == |q.items| && IsPermutation(q.order) && p < |q.items|
    requires q'.items == DeletedItems(q.items, p, q.version)
    requires q'.order == WithoutEntry(q.order, IndexOf(q.order, p)) && IsPermutation(q'.order)
    ensures PlayIds(q') == RemoveAt(PlayIds(q), IndexOf(q.order, p))
  {
  }

  /** Deleting a song takes its id, and no other, out of both the positions and the play order. */
  lemma DeleteRemovesOneId(q: Queue, p: nat)
    requires Consistent(q) && p < |q.items|
    ensures var q' := Apply(q, Delete(p));
            && Consistent(q')
            && Entries(q'.items) == RemoveAt(Entries(q.items), p)
            && PlayIds(q') == RemoveAt(PlayIds(q), IndexOf(q.order, p))
  {
    ApplyConsistent(q, Delete(p));
    DeletedEntries(q.items, p, q.version);
    DeletedPlayIds(q, Apply(q, Delete(p)), p);
  }

  lemma MovedEntries(s: seq<Item>, start: nat, end: nat, to: nat, version: nat)
    requires start <= end <= |s| && to + (end - start) <= |s|
    ensures Entries(MovedItems(s, start, end, to, version)) == Splice(Entries(s), start, end, to)
  {
    var r := MovedItems(s, start, end, to, version);
    forall p | 0 <= p < |s| ensures EntryOf(r[p]) == Splice(Entries(s), start, end, to)[p] {
      hide Splice;
      SpliceAt(s, start, end, to, p);
      SpliceAt(Entries(s), start, end, to, p);
    }
  }

  /** A song is found where `MovedPosition` says. */
  lemma MovedIdAt(s: seq<Item>, start: nat, end: nat, to: nat, version: nat, p: nat)
    requires start <= end <= |s| && to + (end - start) <= |s| && p < |s|
    ensures MovedPosition(p, start, end, to) < |s|
    ensures MovedItems(s, start, end, to, version)[MovedPosition(p, start, end, to)].id == s[p].id
  {
  }

  /** Moving songs moves entries and ids together; in random mode every order number keeps its id. */
  lemma MoveKeepsPlayOrder(q: Queue, start: nat, end: nat, to: nat)
    requires Consistent(q) && start <= end <= |q.items| && to + (end - start) <= |q.items|
    ensures var q' := Apply(q, MoveRange(start, end, to));
            && Consistent(q')
            && Entries(q'.items) == Splice(Entries(q.items), start, end, to)
            && (q.random ==> PlayIds(q') == PlayIds(q))
  {
    ApplyConsistent(q, MoveRange(start, end, to));
    hide MovedItems, Splice, DistinctIds, MovedPosition;
    MovedEntries(q.items, start, end, to, q.version);
    if q.random {
      var q' := Apply(q, MoveRange(start, end, to));
      forall n | 0 <= n < |q.order| ensures PlayIds(q')[n] == PlayIds(q)[n] {
        MovedIdAt(q.items, start, end, to, q.version, q.order[n]);
      }
    }
  }

  // ---- the version stamps ----

  /** `queue_song_newer()`: must a client that knows version `v` fetch position `p` again? */
  predicate SongNewer(q: Queue, p: nat, v: nat)
    requires p < |q.items|
  {
    v > q.version || q.items[p].version >= v || q.items[p].version == 0
  }

  /** Once the version number has started over, a song counts as newer than every version until it is touched again. */
  lemma NewerAfterWrap(q: Queue, p: nat, v: nat, later: nat)
    requires p < |q.items| && q.version + 1 >= MAX_VERSION
    ensures |Incremented(q).items| == |q.items| && SongNewer(Incremented(q).(version := later), p, v)
  {
  }

  /** Does the operation make the version counter start over? */
  predicate Wraps(q: Queue, op: Op) {
    op.IncrementVersion? && q.version + 1 >= MAX_VERSION
  }

  /** How often the version counter starts over during a run. */
  ghost function WrapCount(q: Queue, ops: seq<Op>): nat
    requires Consistent(q) && EnabledRun(q, ops)
    decreases |ops|
  {
    if ops == [] then 0
    else
      WrapCount(q, ops[..|ops| - 1]) +
      if Wraps(Run(q, ops[..|ops| - 1]), ops[|ops| - 1]) then 1 else 0
  }

  /** Position `p` holds what the snapshot has there. */
  ghost predicate Unchanged(snapshot: seq<Item>, s: seq<Item>, p: nat)
    requires p < |s|
  {
    p < |snapshot| && EntryOf(s[p]) == EntryOf(snapshot[p])
  }

  lemma ApplyVersion(q: Queue, op: Op)
    requires Consistent(q) && Enabled(q, op) && !Wraps(q, op)
    ensures Apply(q, op).version >= q.version
    ensures !op.IncrementVersion? ==> Apply(q, op).version == q.version
    ensures op.IncrementVersion? ==> Apply(q, op).items == q.items
  {
  }

  /** A position that an operation does not stamp is a position it does not change. */
  lemma ApplyStamps(q: Queue, op: Op, p: nat)
    requires Consistent(q) && Enabled(q, op) && !Wraps(q, op) && p < |Apply(q, op).items|
    ensures Apply(q, op).items[p].version == q.version
            || (p < |q.items| && Apply(q, op).items[p] == q.items[p])
  {
    hide IsPermutation, DistinctIds, IsIdentity, Splice;
    match op
    case MoveRange(start, end, to) => UnmovedItem(q.items, start, end, to, q.version, p);
    case Delete(position) => UndeletedItem(q.items, position, q.version, p);
    case _ =>
  }

  lemma UnmovedItem(s: seq<Item>, start: nat, end: nat, to: nat, version: nat, p: nat)
    requires start <= end <= |s| && to + (end - start) <= |s| && p < |s|
    ensures var r := MovedItems(s, start, end, to, version)[p]; r.version == version || r == s[p]
  {
  }

  lemma UndeletedItem(s: seq<Item>, position: nat, version: nat, p: nat)
    requires position < |s| && p < |s| - 1
    ensures var r := DeletedItems(s, position, version)[p]; r.version == version || r == s[p]
  {
  }

  /** The operation is one that changes places or priorities, and not by moving something to where it is. */
  predicate IsProperEdit(op: Op) {
    match op
    case Swap(i, j) => i != j
    case MoveRange(start, end, to) => start < end && start != to
    case Delete(_) => true
    case SetPriorities(_, _, _, _) => true
    case _ => false
  }

  /** Conversely, a position at which a client sees the same as before is not stamped, so no delta is too large. */
  lemma StampsOnlyChanges(q: Queue, op: Op, p: nat)
    requires Consistent(q) && Enabled(q, op) && IsProperEdit(op) && p < |Apply(q, op).items|
    requires p < |q.items| && EntryOf(Apply(q, op).items[p]) == EntryOf(q.items[p])
    ensures Apply(q, op).items[p] == q.items[p]
  {
    hide IsPermutation, IsIdentity, Splice;
    match op
    case MoveRange(start, end, to) => MovedIsAnother(q.items, start, end, to, q.version, p);
    case _ =>
  }

  lemma MovedIsAnother(s: seq<Item>, start: nat, end: nat, to: nat, version: nat, p: nat)
    requires DistinctIds(s) && start < end <= |s| && to + (end - start) <= |s| && start != to && p < |s|
    ensures var r := MovedItems(s, start, end, to, version)[p]; r.id == s[p].id ==> r == s[p]
  {
    hide MovedItems, DistinctIds;
    MovedItemsPointwise(s, MovedItems(s, start, end, to, version), start, end, to, version);
    OriginInverse(start, end, to, |s|, p);
    var o := Origin(p, start, end, to);
    assert MovedItems(s, start, end, to, version)[p] == MovedItemAt(s, start, end, to, version, p);
    if Min(start, to) <= p < Max(end, to + end - start) {
      assert o != p;
      DistinctPair(s, o, p);
    }
  }

  lemma DistinctPair(s: seq<Item>, i: nat, j: nat)
    requires DistinctIds(s) && i < |s| && j < |s| && i != j
    ensures s[i].id != s[j].id
  {
  }

  /** Until the counter starts over, whatever has changed since version `v` is stamped `v` or later. */
  lemma {:induction false} ChangesAreStamped(q: Queue, ops: seq<Op>, p: nat)
    requires Consistent(q) && EnabledRun(q, ops) && WrapCount(q, ops) == 0
    requires p < |Run(q, ops).items|
    ensures Run(q, ops).items[p].version >= q.version || Unchanged(q.items, Run(q, ops).items, p)
    decreases |ops|
  {
    hide Consistent, Enabled, Apply;
    if ops != [] {
      var n := |ops| - 1;
      var before := Run(q, ops[..n]);
      VersionGrows(q, ops[..n]);
      ApplyStamps(before, ops[n], p);
      if p < |before.items| {
        ChangesAreStamped(q, ops[..n], p);
      }
    }
  }

  lemma {:induction false} VersionGrows(q: Queue, ops: seq<Op>)
    requires Consistent(q) && EnabledRun(q, ops) && WrapCount(q, ops) == 0
    ensures Run(q, ops).version >= q.version
    decreases |ops|
  {
    hide Consistent, Enabled, Apply;
    if ops != [] {
      VersionGrows(q, ops[..|ops| - 1]);
      ApplyVersion(Run(q, ops[..|ops| - 1]), ops[|ops| - 1]);
    }
  }

  /** The counter has not passed `v` again after starting over. */
  predicate NotLapped(v: nat, wraps: nat, version: nat) {
    wraps == 0 || version < v || v <= 1
  }

  /**
   The delta a client asks for is complete: every position that is not reported
   still holds the song, id and priority that the client saw at version `q.version`.
   */
  lemma DeltaComplete(q: Queue, ops: seq<Op>, p: nat)
    requires Consistent(q) && EnabledRun(q, ops) && p < |Run(q, ops).items|
    requires NotLapped(q.version, WrapCount(q, ops), Run(q, ops).version)
    requires !SongNewer(Run(q, ops), p, q.version)
    ensures Unchanged(q.items, Run(q, ops).items, p)
  {
    assert WrapCount(q, ops) == 0;
    ChangesAreStamped(q, ops, p);
  }

  // ---- the client's side ----

  datatype Change = Change(position: nat, entry: Entry)

  /** What `queue_print_changes_info()` sends about the positions below `n`. */
  function ChangesBelow(q: Queue, v: nat, n: nat): (r: seq<Change>)
    requires n <= |q.items|
  {
    if n == 0 then []
    else if SongNewer(q, n - 1, v) then ChangesBelow(q, v, n - 1) + [Change(n - 1, EntryOf(q.items[n - 1]))]
    else ChangesBelow(q, v, n - 1)
  }

  /** A client that knows the present version is told nothing but what has been stamped with it or has no stamp. */
  lemma {:induction false} UpToDateIsToldNothing(q: Queue, n: nat)
    requires n <= |q.items| && forall p :: 0 <= p < n ==> 0 < q.items[p].version < q.version
    ensures ChangesBelow(q, q.version, n) == []
  {
    if n > 0 {
      UpToDateIsToldNothing(q, n - 1);
    }
  }

  /** The client applies the changes in the order of their positions, appending at the end. */
  function Patch(known: seq<Entry>, changes: seq<Change>): seq<Entry>
    decreases |changes|
  {
    if changes == [] then known
    else
      var c := changes[|changes| - 1];
      var s := Patch(known, changes[..|changes| - 1]);
      if c.position < |s| then s[c.position := c.entry] else s + [c.entry]
  }

  /** The client cuts what it knows to the new length before or after applying the changes. */
  function Truncate(s: seq<Entry>, n: nat): seq<Entry> {
    if n < |s| then s[..n] else s
  }

  lemma {:induction false} PatchedBelow(known: seq<Entry>, q: Queue, v: nat, n: nat)
    requires n <= |q.items|
    requires forall p :: 0 <= p < |q.items| && !SongNewer(q, p, v) ==>
               p < |known| && EntryOf(q.items[p]) == known[p]
    ensures PatchedTo(known, Patch(known, ChangesBelow(q, v, n)), q.items, n)
  {
    hide PatchedTo, Patch;
    if n == 0 {
      assert ChangesBelow(q, v, n) == [];
      PatchNothing(known, q.items);
    } else {
      PatchedBelow(known, q, v, n - 1);
      var before := ChangesBelow(q, v, n - 1);
      PatchedOneMore(known, Patch(known, before), q.items, n);
      if SongNewer(q, n - 1, v) {
        PatchOne(known, before, Change(n - 1, EntryOf(q.items[n - 1])));
      }
    }
  }

  lemma PatchNothing(known: seq<Entry>, items: seq<Item>)
    ensures PatchedTo(known, Patch(known, []), items, 0)
  {
  }

  lemma PatchedOneMore(known: seq<Entry>, s: seq<Entry>, items: seq<Item>, n: nat)
    requires 0 < n <= |items| && PatchedTo(known, s, items, n - 1)
    ensures var e := EntryOf(items[n - 1]);
            PatchedTo(known, if n - 1 < |s| then s[n - 1 := e] else s + [e], items, n)
    ensures n <= |known| && EntryOf(items[n - 1]) == known[n - 1] ==> PatchedTo(known, s, items, n)
  {
  }

  /** The first `n` entries of `s` are those of the queue, the rest is what the client knew. */
  ghost predicate PatchedTo(known: seq<Entry>, s: seq<Entry>, items: seq<Item>, n: nat) {
    && |s| == Max(|known|, n) && n <= |items|
    && (forall p :: 0 <= p < n ==> s[p] == EntryOf(items[p]))
    && (forall p :: n <= p < |known| ==> s[p] == known[p])
  }

  lemma PatchOne(known: seq<Entry>, changes: seq<Change>, c: Change)
    ensures Patch(known, changes + [c]) ==
            var s := Patch(known, changes);
            if c.position < |s| then s[c.position := c.entry] else s + [c.entry]
  {
  }

  /** Patching and truncating an old snapshot yields the live queue. */
  lemma DeltaSync(q: Queue, ops: seq<Op>)
    requires Consistent(q) && EnabledRun(q, ops)
    requires NotLapped(q.version, WrapCount(q, ops), Run(q, ops).version)
    ensures var live := Run(q, ops);
            var changes := ChangesBelow(live, q.version, |live.items|);
            Truncate(Patch(Entries(q.items), changes), |live.items|) == Entries(live.items)
  {
    var live := Run(q, ops);
    forall p | 0 <= p < |live.items| && !SongNewer(live, p, q.version)
      ensures p < |Entries(q.items)| && EntryOf(live.items[p]) == Entries(q.items)[p]
    {
      DeltaComplete(q, ops, p);
    }
    PatchedBelow(Entries(q.items), live, q.version, |live.items|);
  }

  // ---- beyond the guarantee: a counter that has passed `v` again ----

  lemma RunSnoc(q: Queue, ops: seq<Op>, op: Op)
    requires Consistent(q) && EnabledRun(q, ops) && Enabled(Run(q, ops), op)
    ensures EnabledRun(q, ops + [op]) && Run(q, ops + [op]) == Apply(Run(q, ops), op)
    ensures WrapCount(q, ops + [op]) == WrapCount(q, ops) + if Wraps(Run(q, ops), op) then 1 else 0
  {
  }

  /** `k` more increments, without the counter starting over. */
  lemma {:induction false} RunIncrements(q: Queue, ops: seq<Op>, k: nat) returns (r: seq<Op>)
    requires Consistent(q) && EnabledRun(q, ops) && Run(q, ops).version + k < MAX_VERSION
    ensures EnabledRun(q, r) && WrapCount(q, r) == WrapCount(q, ops)
    ensures Run(q, r) == Run(q, ops).(version := Run(q, ops).version + k)
    decreases k
  {
    if k == 0 {
      r := ops;
    } else {
      r := RunIncrements(q, ops, k - 1);
      RunSnoc(q, r, IncrementVersion);
      r := r + [IncrementVersion];
    }
  }

  /** `k` more rounds of the counter, up to the moment it has just started over. */
  lemma {:induction false} RunRounds(q: Queue, ops: seq<Op>, k: nat) returns (r: seq<Op>)
    requires Consistent(q) && EnabledRun(q, ops)
    ensures EnabledRun(q, r) && WrapCount(q, r) == WrapCount(q, ops) + k
    ensures k == 0 ==> Run(q, r) == Run(q, ops)
    ensures k > 0 ==> Run(q, r).version == 1
    decreases k
  {
    r := ops;
    if k > 0 {
      r := RunRounds(q, ops, k - 1);
      r := RunIncrements(q, r, MAX_VERSION - 1 - Run(q, r).version);
      RunSnoc(q, r, IncrementVersion);
      r := r + [IncrementVersion];
    }
  }

  /**
   A run that ends with version `w` after `wraps` rounds, and that has replaced a song
   without the change being reported to a client that knows version `v`.
   */
  lemma LappedDeltaIncomplete(v: nat, wraps: nat, w: nat) returns (q: Queue, ops: seq<Op>)
    requires 1 < v <= w < MAX_VERSION && wraps > 0
    ensures Consistent(q) && q.version == v && EnabledRun(q, ops)
    ensures Run(q, ops).version == w && WrapCount(q, ops) == wraps
    ensures |Run(q, ops).items| == 1 && !SongNewer(Run(q, ops), 0, v) && !Unchanged(q.items, Run(q, ops).items, 0)
  {
    hide Apply, Enabled, EnabledRun, WrapCount;
    q := Queue([Item(0, 0, 1, 0)], [0], v, false, false, false, false);
    RunNothing(q);
    ops := RunRounds(q, [], wraps);
    ops := RunReplace(q, ops, Item(1, 1, 1, 0));
    ops := RunIncrements(q, ops, w - 1);
  }

  lemma RunNothing(q: Queue)
    requires Consistent(q)
    ensures EnabledRun(q, []) && Run(q, []) == q && WrapCount(q, []) == 0
  {
  }

  /** Clearing the queue and appending one song. */
  lemma {:induction false} RunReplace(q: Queue, ops: seq<Op>, item: Item) returns (r: seq<Op>)
    requires Consistent(q) && EnabledRun(q, ops) && Run(q, ops).version == item.version
    ensures EnabledRun(q, r) && WrapCount(q, r) == WrapCount(q, ops)
    ensures Run(q, r).version == item.version && Run(q, r).items == [item]
  {
    hide EnabledRun, Run, WrapCount, IsPermutation, IsIdentity, DistinctIds;
    RunSnoc(q, ops, Clear);
    r := ops + [Clear];
    assert Run(q, r).items == [] && Run(q, r).version == item.version;
    var append := Append(item.song, item.id, item.priority);
    RunSnoc(q, r, append);
    r := r + [append];
  }

  /** No run from version `v` to version `w`, through `wraps` rounds, hides a change from the client. */
  ghost predicate AlwaysComplete(v: nat, wraps: nat, w: nat) {
    forall q: Queue, ops: seq<Op>, p: nat ::
      Consistent(q) && q.version == v && EnabledRun(q, ops)
      && WrapCount(q, ops) == wraps && Run(q, ops).version == w
      && p < |Run(q, ops).items| && !SongNewer(Run(q, ops), p, v) ==>
      Unchanged(q.items, Run(q, ops).items, p)
  }

  /** The delta can be relied on exactly as long as the counter has not passed `v` again. */
  lemma DeltaCompleteExactlyWhen(v: nat, wraps: nat, w: nat)
    requires 1 <= v < MAX_VERSION && 1 <= w < MAX_VERSION
    ensures AlwaysComplete(v, wraps, w) <==> NotLapped(v, wraps, w)
  {
    if NotLapped(v, wraps, w) {
      forall q: Queue, ops: seq<Op>, p: nat |
        Consistent(q) && q.version == v && EnabledRun(q, ops)
        && WrapCount(q, ops) == wraps && Run(q, ops).version == w
        && p < |Run(q, ops).items| && !SongNewer(Run(q, ops), p, v)
        ensures Unchanged(q.items, Run(q, ops).items, p)
      {
        DeltaComplete(q, ops, p);
      }
    } else {
      var q, ops := LappedDeltaIncomplete(v, wraps, w);
    }
  }
}

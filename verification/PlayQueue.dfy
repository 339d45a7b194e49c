/**
 The play queue: three arrays that address one list of songs by position,
 by id and by order number, kept consistent in place.
 */
module PlayQueue {
  import opened Permutations
  import opened QueueSpec
  import opened PriorityOrder
  import opened QueueArrays
  import opened Draws
  import opened Shuffles
  import QueueRuns

  /** `g_rand_int_range()`: any number in the range. */
  method RandIntRange(lo: nat, hi: nat) returns (r: nat)
    requires lo < hi
    ensures lo <= r < hi
  {
    r :| lo <= r < hi;
  }

  class PlayQueue {
    const maxLength: nat
    const items: array<Item>
    const order: array<nat>
    const idToPosition: array<int>
    var length: nat
    var version: nat
    var repeat: bool
    var single: bool
    var consume: bool
    var random: bool

    /** The static variable of `queue_generate_id()`. */
    var idCursor: nat

    ghost predicate Valid()
      reads this, items, order, idToPosition
    {
      && items.Length == order.Length == maxLength
      && idToPosition.Length == HASH_MULT * maxLength <= UINT_MAX
      && order as object != idToPosition as object
      && length <= maxLength
      && idCursor <= UINT_MAX
      && 1 <= version < MAX_VERSION
      && IsPermutation(order[..length])
      && Indexed(items[..length], idToPosition[..])
    }

    /** The value of the queue. */
    ghost function Value(): Queue
      reads this, items, order
      requires length <= items.Length && length <= order.Length
    {
      Queue(items[..length], order[..length], version, repeat, single, consume, random)
    }

    lemma ValidIsConsistent()
      requires Valid() && (!random ==> IsIdentity(order[..length]))
      ensures Consistent(Value())
    {
    }

    constructor (maxLength: nat)
      requires HASH_MULT * maxLength <= UINT_MAX
      ensures Valid() && fresh(items) && fresh(order) && fresh(idToPosition)
      ensures this.maxLength == maxLength
      ensures Value() == Queue([], [], 1, false, false, false, false)
    {
      this.maxLength := maxLength;
      items := new Item[maxLength](_ => Item(0, 0, 0, 0));
      order := new nat[maxLength](_ => 0);
      idToPosition := new int[HASH_MULT * maxLength](_ => -1);
      length, version, idCursor := 0, 1, UINT_MAX;
      repeat, single, consume, random := false, false, false, false;
    }

    /** Returns the first unused id after the cursor; never runs round more than once. */
    method GenerateId() returns (id: nat)
      requires Valid() && maxLength > 0
      modifies this`idCursor
      ensures id < idToPosition.Length && idToPosition[id] == -1 && idCursor == id
      ensures var first := if old(idCursor) + 1 < idToPosition.Length then old(idCursor) + 1 else 0;
              forall k :: 0 <= k < idToPosition.Length &&
                Offset(first, k, idToPosition.Length) < Offset(first, id, idToPosition.Length)
                ==> idToPosition[k] != -1
    {
      hide IsPermutation, Indexed, Offset;
      var n := idToPosition.Length;
      ghost var free := FreeIdExists(items[..length], idToPosition[..]);
      idCursor := Wrap(idCursor + 1);
      if idCursor >= n { idCursor := 0; }
      ghost var first := idCursor;
      FirstOffset(first, free, n);
      while idToPosition[idCursor] != -1
        invariant idCursor < n
        invariant Offset(first, idCursor, n) <= Offset(first, free, n)
        invariant forall k :: 0 <= k < n && Offset(first, k, n) < Offset(first, idCursor, n)
                              ==> idToPosition[k] != -1
        decreases Offset(first, free, n) - Offset(first, idCursor, n)
      {
        NextOffset(first, idCursor, free, n);
        idCursor := Wrap(idCursor + 1);
        if idCursor >= n { idCursor := 0; }
      }
      id := idCursor;
    }

    method IncrementVersion()
      requires Valid()
      modifies this`version, items
      ensures Valid() && Value() == Incremented(old(Value()))
      ensures QueueRuns.Applied(old(Value()), QueueRuns.IncrementVersion, Value())
    {
      hide Indexed, IsPermutation;
      StampIndexed(items[..length], idToPosition[..], 0, length, 0);
      version := version + 1;
      if version >= MAX_VERSION {
        for i := 0 to length
          invariant forall j {:trigger items[j]} :: 0 <= j < length ==>
            items[j] == if j < i then Stamp(old(items[j]), 0) else old(items[j])
        {
          items[i] := Stamp(items[i], 0);
        }
        version := 1;
      }
      assert items[..length] == Incremented(old(Value())).items;
    }

    /** Marks one song, addressed by order number, as modified. */
    method Modify(n: nat)
      requires Valid() && n < length
      modifies this`version, items
      ensures Valid()
      ensures var q := old(Value());
              Value() == Incremented(q.(items := StampRange(q.items, q.order[n], q.order[n] + 1, q.version)))
      ensures QueueRuns.Touched(old(Value()), old(order[n]), old(order[n]) + 1, Value())
    {
      hide Indexed, Incremented;
      ghost var s := items[..length];
      var position := order[n];
      assert position == order[..length][n];
      items[position] := Stamp(items[position], version);
      assert items[..length] == StampRange(s, position, position + 1, version);
      StampIndexed(s, idToPosition[..], position, position + 1, version);
      IncrementVersion();
      QueueRuns.TouchApplied(old(Value()), position, position + 1);
    }

    method ModifyAll()
      requires Valid()
      modifies this`version, items
      ensures Valid()
      ensures var q := old(Value());
              Value() == Incremented(q.(items := StampRange(q.items, 0, |q.items|, q.version)))
      ensures QueueRuns.Touched(old(Value()), 0, length, Value())
    {
      hide Indexed, IsPermutation, Incremented;
      StampIndexed(items[..length], idToPosition[..], 0, length, version);
      for i := 0 to length
        modifies items
        invariant forall j {:trigger items[j]} :: 0 <= j < length ==>
          items[j] == if j < i then Stamp(old(items[j]), version) else old(items[j])
      {
        items[i] := Stamp(items[i], version);
      }
      assert items[..length] == StampRange(old(items[..length]), 0, length, version);
      IncrementVersion();
      QueueRuns.TouchApplied(old(Value()), 0, length);
    }

    method Append(song: Song, priority: Priority) returns (id: nat)
      requires Valid() && length < maxLength
      modifies this`idCursor, this`length, items, order, idToPosition
      ensures Valid()
      ensures length == old(length) + 1
      ensures forall p :: 0 <= p < old(length) ==> old(items[p].id) != id
      ensures Value() == var q := old(Value());
                q.(items := q.items + [Item(song, id, version, priority)],
                   order := q.order + [|q.order|])
      ensures QueueRuns.Applied(old(Value()), QueueRuns.Append(song, id, priority), Value())
    {
      hide Consistent;
      id := GenerateId();
      ghost var s, o := items[..length], order[..length];
      items[length] := Item(song, id, version, priority);
      order[length] := length;
      idToPosition[id] := length;
      length := length + 1;
      assert items[..length] == s + [Item(song, id, version, priority)];
      assert order[..length] == o + [|o|];
    }

    method Swap(position1: nat, position2: nat)
      requires Valid() && position1 < length && position2 < length
      modifies items, idToPosition
      ensures Valid()
      ensures Value() == var q := old(Value());
                q.(items := SwappedItems(q.items, position1, position2, version))
      ensures QueueRuns.Applied(old(Value()), QueueRuns.Swap(position1, position2), Value())
    {
      hide Indexed, IsPermutation, Consistent;
      ghost var s, ids := items[..length], idToPosition[..];
      SwapIndexed(s, ids, position1, position2, version);
      var id1 := items[position1].id;
      var id2 := items[position2].id;
      items[position1], items[position2] := items[position2], items[position1];
      items[position1] := Stamp(items[position1], version);
      items[position2] := Stamp(items[position2], version);
      idToPosition[id1] := position2;
      idToPosition[id2] := position1;
      assert items[..length] == SwappedItems(s, position1, position2, version);
      assert idToPosition[..] == ids[id1 := position2][id2 := position1];
    }

    method MoveSongTo(from: nat, to: nat)
      requires from < items.Length && to < items.Length && items[from].id < idToPosition.Length
      modifies items, idToPosition
      ensures items[..] == old(items[..])[to := Stamp(old(items[from]), version)]
      ensures idToPosition[..] == old(idToPosition[..])[old(items[from].id) := to]
    {
      var fromId := items[from].id;
      items[to] := Stamp(items[from], version);
      idToPosition[fromId] := to;
    }

    /** Moves the songs at `a..b` to positions `k` lower, first to last. */
    method ShiftDown(a: nat, b: nat, k: nat)
      requires k <= a && (a < b ==> b <= items.Length)
      requires IndexedRange(items[..], idToPosition[..], a, b)
      modifies items, idToPosition
      ensures items[..] == ShiftedItems(old(items[..]), a, b, 0 - k, version)
      ensures idToPosition[..] == ShiftedIds(old(idToPosition[..]), a, b, 0 - k)
    {
      hide IndexedRange, ShiftedItems, ShiftedIds;
      ghost var s, ids := items[..], idToPosition[..];
      ShiftedNone(s, ids, a, 0 - k, version);
      var i := a;
      while i < b
        invariant a <= i <= Max(a, b)
        invariant items[..] == ShiftedItems(s, a, i, 0 - k, version)
        invariant idToPosition[..] == ShiftedIds(ids, a, i, 0 - k)
      {
        ShiftDownStep(s, ids, a, i, b, k, version);
        MoveSongTo(i, i - k);
        i := i + 1;
      }
      if b < a { ShiftedNothing(s, ids, a, b, 0 - k, version); }
    }

    /** Moves the songs at `a..b` to positions `k` higher, last to first. */
    method ShiftUp(a: nat, b: nat, k: nat)
      requires b <= UINT_MAX && (a < b ==> b + k <= items.Length)
      requires IndexedRange(items[..], idToPosition[..], a, b)
      modifies items, idToPosition
      ensures items[..] == ShiftedItems(old(items[..]), a, b, k, version)
      ensures idToPosition[..] == ShiftedIds(old(idToPosition[..]), a, b, k)
    {
      hide IndexedRange, ShiftedItems, ShiftedIds;
      ghost var s, ids := items[..], idToPosition[..];
      ShiftedNone(s, ids, b, k, version);
      var i := Wrap(b - 1);
      ghost var done: nat := b;  // songs at done..b have been moved
      while i >= a && i != UINT_MAX
        invariant 0 <= Min(a, b) <= done <= b && i == Wrap(done - 1)
        invariant items[..] == ShiftedItems(s, done, b, k, version)
        invariant idToPosition[..] == ShiftedIds(ids, done, b, k)
        decreases done
      {
        ShiftUpStep(s, ids, a, i, b, k, version);
        MoveSongTo(i, i + k);
        done := i;
        i := Wrap(i - 1);
      }
      if b < a { ShiftedNothing(s, ids, a, b, k, version); }
    }

    /** Writes a block of songs, which was at `start` according to `ids`, at position `to`. */
    method PutBlock(block: seq<Item>, to: nat, ghost start: nat, ghost ids: seq<int>)
      requires to + |block| <= items.Length && |ids| == idToPosition.Length
      requires forall i :: 0 <= i < |block| ==> block[i].id < |ids| && ids[block[i].id] == start + i
      requires forall id :: 0 <= id < |ids| && start <= ids[id] < start + |block| ==>
                 block[ids[id] - start].id == id
      modifies items, idToPosition
      ensures items[..] == PutItems(old(items[..]), block, to, version)
      ensures idToPosition[..] == PutIds(old(idToPosition[..]), ids, start, start + |block|, to - start)
    {
      ghost var s, r := items[..], idToPosition[..];
      for i := 0 to |block|
        invariant items[..] == PutItems(s, block[..i], to, version)
        invariant idToPosition[..] == PutIds(r, ids, start, start + i, to - start)
      {
        idToPosition[block[i].id] := to + i;
        items[to + i] := Stamp(block[i], version);
      }
      assert block[..|block|] == block;
    }

    /** The two loops of `queue_move_range()` that make room for the block. */
    method ShiftAround(start: nat, end: nat, to: nat)
      requires length <= items.Length <= UINT_MAX && start <= end <= length && to + (end - start) <= length
      requires IndexedRange(items[..], idToPosition[..], end, to + end - start)
      requires IndexedRange(ShiftedItems(items[..], end, to + end - start, start - end, version),
                            ShiftedIds(idToPosition[..], end, to + end - start, start - end), to, start)
      modifies items, idToPosition
      ensures items[..] == AroundItems(old(items[..]), start, end, to, version)
      ensures idToPosition[..] == AroundIds(old(idToPosition[..]), start, end, to)
    {
      hide IndexedRange, ShiftedItems, ShiftedIds;
      ShiftDown(end, Wrap(end + to - start), end - start);
      ShiftUp(to, start, end - start);
    }

    /** `queue_move_range()` on the arrays that are indexed by position and by id. */
    method MoveItems(start: nat, end: nat, to: nat)
      requires length <= items.Length <= UINT_MAX && Indexed(items[..length], idToPosition[..])
      requires start <= end <= length && to + (end - start) <= length
      modifies items, idToPosition
      ensures Indexed(items[..length], idToPosition[..])
      ensures items[..length] == MovedItems(old(items[..length]), start, end, to, version)
    {
      hide *;
      ghost var s, ids := items[..], idToPosition[..];
      var block := items[start..end];
      assert items[..length] == s[..length] && block == s[start..end];
      IndexedRanges(s, ids, length, start, end, to, version);
      ShiftAround(start, end, to);
      PutBlock(block, to, start, ids);
      assert items[..length] == items[..][..length];
      BlockMove(s, ids, length, start, end, to, version);
    }

    /** Cuts the songs at `start..end` out and splices them in at position `to`. */
    method MoveRange(start: nat, end: nat, to: nat)
      requires Valid() && start <= end <= length && to + (end - start) <= length
      modifies items, order, idToPosition
      ensures Valid()
      ensures Value() == var q := old(Value());
                q.(items := MovedItems(q.items, start, end, to, version),
                   order := if random then MovedOrder(q.order, start, end, to) else q.order)
      ensures QueueRuns.Applied(old(Value()), QueueRuns.MoveRange(start, end, to), Value())
    {
      hide Indexed, MovedItems, MovedOrder;
      MoveItems(start, end, to);
      if random {
        MovedOrderPermutation(order[..length], start, end, to);
        RemapOrderRange(start, end, to);
      }
    }

    method RemapOrderRange(start: nat, end: nat, to: nat)
      requires length <= order.Length && length < UINT_MAX
      requires forall i :: 0 <= i < length ==> order[i] < length
      requires start <= end <= length && to + (end - start) <= length
      modifies order
      ensures order[..length] == MovedOrder(old(order[..length]), start, end, to)
    {
      for i := 0 to length
        invariant forall j {:trigger order[j]} :: 0 <= j < length ==>
          order[j] == if j < i then MovedPosition(old(order[j]), start, end, to) else old(order[j])
      {
        if order[i] >= end && order[i] < Wrap(to + end - start) {
          order[i] := order[i] - (end - start);
        } else if order[i] < start && order[i] >= to {
          order[i] := Wrap(order[i] + (end - start));
        } else if start <= order[i] && order[i] < end {
          order[i] := Wrap(order[i] + Wrap(to - start));
        }
      }
    }

    /** `queue_move()` on the arrays that are indexed by position and by id. */
    method MoveItem(from: nat, to: nat)
      requires length <= items.Length <= UINT_MAX && Indexed(items[..length], idToPosition[..])
      requires from < length && to < length
      modifies items, idToPosition
      ensures Indexed(items[..length], idToPosition[..])
      ensures items[..length] == MovedItems(old(items[..length]), from, from + 1, to, version)
    {
      hide *;
      ghost var s, ids := items[..], idToPosition[..];
      assert items[..length] == s[..length];
      var item := items[from];
      assert [item] == s[from..from + 1];
      IndexedRanges(s, ids, length, from, from + 1, to, version);
      assert ids[item.id] == from;
      ShiftAround(from, from + 1, to);
      ghost var s2, ids2 := items[..], idToPosition[..];
      idToPosition[item.id] := to;
      items[to] := Stamp(item, version);
      PutOne(s2, ids2, ids, item, from, to, version);
      assert items[..] == s2[to := Stamp(item, version)] && idToPosition[..] == ids2[item.id := to];
      assert items[..length] == items[..][..length];
      BlockMove(s, ids, length, from, from + 1, to, version);
    }

    /** Moves one song; the result is that of moving the one-song range. */
    method Move(from: nat, to: nat)
      requires Valid() && from < length && to < length
      modifies items, order, idToPosition
      ensures Valid()
      ensures Value() == var q := old(Value());
                q.(items := MovedItems(q.items, from, from + 1, to, version),
                   order := if random then MovedOrder(q.order, from, from + 1, to) else q.order)
      ensures QueueRuns.Applied(old(Value()), QueueRuns.MoveRange(from, from + 1, to), Value())
    {
      hide Indexed, MovedItems, MovedOrder;
      MoveItem(from, to);
      if random {
        MovedOrderPermutation(order[..length], from, from + 1, to);
        RemapOrder(from, to);
      }
    }

    method RemapOrder(from: nat, to: nat)
      requires length <= order.Length && from < length && to < length
      modifies order
      ensures order[..length] == MovedOrder(old(order[..length]), from, from + 1, to)
    {
      for i := 0 to length
        invariant forall j {:trigger order[j]} :: 0 <= j < length ==>
          order[j] == if j < i then MovedPosition(old(order[j]), from, from + 1, to) else old(order[j])
      {
        if order[i] > from && order[i] <= to {
          order[i] := order[i] - 1;
        } else if order[i] < from && order[i] >= to {
          order[i] := order[i] + 1;
        } else if from == order[i] {
          order[i] := to;
        }
      }
    }

    /** The order number of a position; the search always ends within the queue. */
    method PositionToOrder(position: nat) returns (n: nat)
      requires Valid() && position < length
      ensures n < length && order[n] == position
      ensures n == IndexOf(order[..length], position)
    {
      Surjective(order[..length], position);
      n := 0;
      while order[n] != position
        invariant n < length && position !in order[..n]
        decreases length - n
      {
        n := n + 1;
      }
    }

    method Delete(position: nat)
      requires Valid() && position < length
      modifies this`length, items, order, idToPosition
      ensures Valid()
      ensures Value() == var q := old(Value());
                q.(items := DeletedItems(q.items, position, version),
                   order := WithoutEntry(q.order, IndexOf(q.order, position)))
      ensures QueueRuns.Applied(old(Value()), QueueRuns.Delete(position), Value())
    {
      hide Consistent, Indexed;
      ghost var o := order[..length];
      var n := PositionToOrder(position);
      RemoveItem(position);
      assert order[..length + 1] == o;
      CloseOrderGap(n, position, o);
      WithoutEntryPermutation(o, n);
    }

    /** `queue_delete()` on the arrays that are indexed by position and by id. */
    method RemoveItem(position: nat)
      requires position < length <= items.Length && Indexed(items[..length], idToPosition[..])
      modifies this`length, items, idToPosition
      ensures length == old(length) - 1
      ensures Indexed(items[..length], idToPosition[..])
      ensures items[..length] == DeletedItems(old(items[..length]), position, version)
    {
      hide *;
      ghost var s, ids, n := items[..], idToPosition[..], length;
      var id := items[position].id;
      assert items[..length] == s[..n];
      DeleteIndexed(s, ids, n, position, version);
      length := length - 1;
      idToPosition[id] := -1;
      assert idToPosition[..] == ids[id := -1];
      ShiftDown(position + 1, length + 1, 1);
      assert items[..length] == items[..][..n - 1];
    }

    /** The two order loops of `queue_delete()`. */
    method CloseOrderGap(n: nat, position: nat, ghost o: seq<nat>)
      requires length < order.Length && o == order[..length + 1] && n <= length && o[n] == position
      modifies order
      ensures order[..length] == WithoutEntry(o, n)
    {
      for i := n to length
        invariant forall j {:trigger order[j]} :: 0 <= j <= length ==>
          order[j] == if n <= j < i then o[j + 1] else o[j]
      {
        order[i] := order[i + 1];
      }
      ghost var gone := order[..length];
      for i := 0 to length
        invariant forall j {:trigger order[j]} :: 0 <= j < length ==>
          order[j] == if j < i then Renumber(gone[j], position) else gone[j]
      {
        if order[i] > position {
          order[i] := order[i] - 1;
        }
      }
      assert order[..length] == WithoutEntry(o, n);
    }

    method Clear()
      requires Valid()
      modifies this`length, idToPosition
      ensures Valid()
      ensures Value() == old(Value()).(items := [], order := [])
      ensures QueueRuns.Applied(old(Value()), QueueRuns.Clear, Value())
    {
      ghost var s := items[..length];
      for i := 0 to length
        modifies idToPosition
        invariant forall id {:trigger idToPosition[id]} :: 0 <= id < idToPosition.Length ==>
          idToPosition[id] == if 0 <= old(idToPosition[id]) < i then -1 else old(idToPosition[id])
      {
        assert items[i] == s[i];
        idToPosition[items[i].id] := -1;
      }
      length := 0;
    }

    method SwapOrder(n1: nat, n2: nat)
      requires Valid() && n1 < length && n2 < length
      modifies order
      ensures Valid()
      ensures Value() == var q := old(Value()); q.(order := Swapped(q.order, n1, n2))
      ensures random ==> QueueRuns.Applied(old(Value()), QueueRuns.Reorder(order[..length]), Value())
    {
      hide Indexed;
      ghost var o := order[..length];
      var tmp := order[n1];
      order[n1] := order[n2];
      order[n2] := tmp;
      assert order[..length] == Swapped(o, n1, n2);
      SwapKeepsPermutation(o, n1, n2);
    }

    method RestoreOrder()
      requires Valid()
      modifies order
      ensures Valid() && IsIdentity(order[..length])
      ensures Value() == old(Value()).(order := order[..length])
      ensures QueueRuns.Applied(old(Value()), QueueRuns.Reorder(order[..length]), Value())
    {
      hide Indexed;
      for i := 0 to length
        invariant forall j :: 0 <= j < i ==> order[j] == j
      {
        order[i] := i;
      }
    }

    /** Only the order numbers `start..end` have changed places. */
    twostate predicate Reordered(start: nat, end: nat)
      reads this, items, order, idToPosition
    {
      && Valid()
      && old(length <= items.Length && length <= order.Length)
      && Value() == old(Value()).(order := order[..length])
      && PermutedWithin(old(order[..length]), order[..length], start, end)
    }

    /** The order number in `i..end` of the highest priority. */
    method HighestPriority(i: nat, end: nat) returns (first: nat)
      requires Valid() && i < end <= length
      ensures InRange(items[..length], order[..length]) && i <= first < end
      ensures forall b :: i <= b < end ==>
        PriorityAt(items[..length], order[..length], first) >= PriorityAt(items[..length], order[..length], b)
    {
      hide Indexed;
      ghost var s, o := items[..length], order[..length];
      first := i;
      for j := i + 1 to end
        invariant i <= first < end
        invariant forall b :: i <= b < j ==> PriorityAt(s, o, first) >= PriorityAt(s, o, b)
      {
        assert o[j] == order[j] && s[o[j]] == items[order[j]] && s[o[first]] == items[order[first]];
        if items[order[j]].priority > items[order[first]].priority {
          first := j;
        }
      }
    }

    /** Stands for `g_qsort_with_data()` with the comparison by priority. */
    method SortOrderByPriority(start: nat, end: nat)
      requires Valid() && start <= end <= length
      modifies order
      ensures Reordered(start, end)
      ensures Descending(items[..length], order[..length], start, end)
    {
      hide Indexed, IsPermutation, PermutedWithin, Descending, InRange, Swapped;
      ghost var s, o := items[..length], order[..length];
      PermutationInRange(s, o);
      SelectionStart(s, o, start, end);
      for i := start to end
        invariant Valid() && Value() == old(Value()).(order := order[..length])
        invariant Selected(s, o, order[..length], start, i, end)
      {
        var first := HighestPriority(i, end);
        SelectionStep(s, o, order[..length], start, i, first, end);
        SwapOrder(i, first);
      }
    }

    /** Shuffles the order numbers `start..end`, ignoring priorities, by the random numbers `ds`. */
    method ShuffleOrderRange(start: nat, end: nat) returns (ghost ds: seq<nat>)
      requires Valid() && start <= end <= length
      modifies order
      ensures Reordered(start, end)
      ensures IsDraws(ds, start, end) && order[..length] == Drawn(old(order[..length]), ds, start)
    {
      hide Indexed, IsPermutation, Drawn, PermutedWithin, Swapped;
      ghost var o := order[..length];
      ds := [];
      DrawnNothing(o, start);
      for i := start to end
        invariant Valid() && Value() == old(Value()).(order := order[..length])
        invariant |ds| == i - start && forall k :: 0 <= k < |ds| ==> start + k <= ds[k] < end
        invariant order[..length] == Drawn(o, ds, start)
      {
        var r := RandIntRange(i, end);
        DrawnOneMore(o, ds, start, r);
        SwapOrder(i, r);
        ds := ds + [r];
      }
      DrawnRearranges(o, ds, start, end);
    }

    /** Sorts the range by priority, then shuffles each priority group. */
    method ShuffleOrderRangeWithPriority(start: nat, end: nat) returns (ghost sorted: seq<nat>, ghost gs: seq<Group>)
      requires Valid() && start <= end <= length
      modifies order
      ensures Reordered(start, end)
      ensures Descending(items[..length], order[..length], start, end)
      ensures InRange(items[..length], sorted) && PermutedWithin(old(order[..length]), sorted, start, end)
      ensures Descending(items[..length], sorted, start, end)
      ensures AreGroups(items[..length], sorted, gs, start, end) && order[..length] == Played(sorted, gs)
    {
      hide Indexed, IsPermutation, PermutedWithin, Descending, AreGroups, Played;
      ghost var s, o := items[..length], order[..length];
      PermutationInRange(s, o);
      gs := [];
      if start == end {
        EmptyRangeSorted(s, o, start);
        sorted := o;
        NothingPlayed(s, sorted, start);
        return;
      }
      SortOrderByPriority(start, end);
      sorted := order[..length];
      PermutationInRange(s, sorted);
      NothingPlayed(s, sorted, start);
      assert s[sorted[start]] == items[order[start]];
      var groupStart := start;
      var groupPriority := items[order[start]].priority;
      for i := start + 1 to end
        invariant Valid() && Value() == old(Value()).(order := order[..length])
        invariant PermutedWithin(o, order[..length], start, end)
        invariant GroupsPlayed(s, sorted, gs, start, groupStart, order[..length])
        invariant start <= groupStart < i
        invariant forall n :: groupStart <= n < i ==> PriorityAt(s, order[..length], n) == groupPriority
      {
        var priority := items[order[i]].priority;
        PriorityBound(s, sorted, order[..length], start, end, groupStart, i);
        assert priority <= groupPriority;
        if priority != groupPriority {
          gs := ShuffleGroup(groupStart, i, groupPriority, o, start, end, sorted, gs);
          groupStart, groupPriority := i, priority;
        }
      }
      gs := ShuffleGroup(groupStart, end, groupPriority, o, start, end, sorted, gs);
      SamePrioritiesDescending(s, sorted, order[..length], start, end);
    }

    /** Shuffles one priority group `lo..hi` of the range `start..end`. */
    method ShuffleGroup(lo: nat, hi: nat, priority: Priority, ghost o: seq<nat>, ghost start: nat, ghost end: nat,
                        ghost sorted: seq<nat>, ghost gs: seq<Group>) returns (ghost gs': seq<Group>)
      requires Valid() && start <= lo < hi <= end <= length
      requires PermutedWithin(o, order[..length], start, end)
      requires GroupsPlayed(items[..length], sorted, gs, start, lo, order[..length])
      requires forall n :: lo <= n < hi ==> PriorityAt(items[..length], order[..length], n) == priority
      requires hi < end ==> PriorityAt(items[..length], order[..length], hi) != priority
      modifies order
      ensures Valid() && Value() == old(Value()).(order := order[..length])
      ensures PermutedWithin(o, order[..length], start, end)
      ensures AreGroups(items[..length], sorted, gs', start, hi) && order[..length] == Played(sorted, gs')
      ensures InRange(items[..length], order[..length]) && SamePriorities(items[..length], sorted, order[..length])
      ensures hi < end ==> GroupsPlayed(items[..length], sorted, gs', start, hi, order[..length])
    {
      hide Indexed, IsPermutation, PermutedWithin, AreGroups, Played, Drawn, IsDraws;
      ghost var o' := order[..length];
      ghost var s := items[..length];
      GroupNext(s, sorted, gs, start, lo, hi, o', priority);
      var ds := ShuffleOrderRange(lo, hi);
      PermutedWithinTransitive(o, o', order[..length], start, end, lo, hi);
      GroupShuffled(s, o', order[..length], lo, hi, priority);
      gs' := gs + [Group(lo, hi, ds)];
      GroupDone(s, sorted, gs, start, lo, hi, o', ds, priority);
    }

    /** `queue_shuffle_order()` */
    method ShuffleOrder() returns (ghost sorted: seq<nat>, ghost gs: seq<Group>)
      requires Valid()
      modifies order
      ensures Reordered(0, length)
      ensures Descending(items[..length], order[..length], 0, length)
      ensures random ==> QueueRuns.Applied(old(Value()), QueueRuns.Reorder(order[..length]), Value())
      ensures IsShuffle(items[..length], sorted) && InRange(items[..length], sorted)
      ensures AreGroups(items[..length], sorted, gs, 0, length) && order[..length] == Played(sorted, gs)
    {
      ghost var o := order[..length];
      sorted, gs := ShuffleOrderRangeWithPriority(0, length);
      RearrangedPermutation(o, sorted);
    }

    /** Swaps the first order number of the range with any of the range. */
    method ShuffleOrderFirst(start: nat, end: nat) returns (r: nat)
      requires Valid() && start < end <= length
      modifies order
      ensures Valid() && start <= r < end
      ensures Value() == var q := old(Value()); q.(order := Swapped(q.order, start, r))
    {
      r := RandIntRange(start, end);
      SwapOrder(start, r);
    }

    /** Swaps the last order number of the range with any of the range. */
    method ShuffleOrderLast(start: nat, end: nat) returns (r: nat)
      requires Valid() && start < end <= length
      modifies order
      ensures Valid() && start <= r < end
      ensures Value() == var q := old(Value()); q.(order := Swapped(q.order, end - 1, r))
    {
      r := RandIntRange(start, end);
      SwapOrder(end - 1, r);
    }

    /** Shuffles the songs at positions `start..end` themselves. */
    method ShuffleRange(start: nat, end: nat)
      requires Valid() && start <= end <= length
      modifies items, idToPosition
      ensures Valid()
      ensures Value() == old(Value()).(items := items[..length])
      ensures ShuffledItems(old(items[..length]), items[..length], start, end, version)
      ensures QueueRuns.Applied(old(Value()), QueueRuns.ShuffleRange(start, end, items[..length]), Value())
    {
      hide Indexed, IsPermutation, SwappedItems, PartlyShuffled;
      ghost var s := items[..length];
      ShuffledReflexive(s, start, end, version);
      for i := start to end
        invariant Valid() && Value() == old(Value()).(items := items[..length])
        invariant PartlyShuffled(s, items[..length], start, i, end, version)
      {
        var ri := RandIntRange(i, end);
        ShuffledSwap(s, items[..length], start, i, end, ri, version);
        Swap(i, ri);
      }
      IndexedDistinct(items[..length], idToPosition[..]);
    }

    method FindPriorityOrder(start: nat, priority: Priority, exclude: nat) returns (n: nat)
      requires Valid() && start <= length
      ensures InRange(items[..length], order[..length])
      ensures n == InsertionPoint(items[..length], order[..length], start, priority, exclude)
    {
      hide Indexed;
      ghost var s, o := items[..length], order[..length];
      n := start;
      while n < length
        invariant start <= n <= length
        invariant InsertionPoint(s, o, start, priority, exclude) == InsertionPoint(s, o, n, priority, exclude)
      {
        assert o[n] == order[n] && s[o[n]] == items[order[n]];
        if items[order[n]].priority <= priority && n != exclude {
          return;
        }
        n := n + 1;
      }
    }

    method CountSamePriority(start: nat, priority: Priority) returns (k: nat)
      requires Valid() && start <= length
      ensures InRange(items[..length], order[..length])
      ensures k == GroupLength(items[..length], order[..length], start, priority)
    {
      hide Indexed;
      ghost var s, o := items[..length], order[..length];
      var n := start;
      while n < length
        invariant start <= n <= length
        invariant GroupLength(s, o, start, priority) == n - start + GroupLength(s, o, n, priority)
      {
        assert o[n] == order[n] && s[o[n]] == items[order[n]];
        if items[order[n]].priority != priority {
          return n - start;
        }
        n := n + 1;
      }
      return length - start;
    }

    /** Moves one entry of the order array. */
    method MoveOrder(from: nat, to: nat)
      requires Valid() && from < length && to < length
      modifies order
      ensures Valid()
      ensures Value() == var q := old(Value()); q.(order := MovedTo(q.order, from, to))
    {
      hide Indexed, IsPermutation, MovedTo;
      ghost var o := order[..length];
      ShiftOrder(from, to);
      forall i | 0 <= i < length ensures order[i] == MovedTo(o, from, to)[i] {
        MovedToIndex(o, from, to, i);
      }
      assert order[..length] == MovedTo(o, from, to);
      MoveKeepsPermutation(o, from, to);
    }

    method ShiftOrder(from: nat, to: nat)
      requires length <= order.Length && from < length && to < length
      modifies order
      ensures forall i {:trigger order[i]} :: 0 <= i < length ==>
        order[i] == old(if i == to then order[from]
                        else if from <= i < to then order[i + 1]
                        else if to < i <= from then order[i - 1]
                        else order[i])
    {
      var fromPosition := order[from];
      if from < to {
        for i := from to to
          invariant forall j {:trigger order[j]} :: 0 <= j < length ==>
            order[j] == old(if from <= j < i then order[j + 1] else order[j])
        {
          order[i] := order[i + 1];
        }
      } else {
        for i := from downto to
          invariant forall j {:trigger order[j]} :: 0 <= j < length ==>
            order[j] == old(if i < j <= from then order[j - 1] else order[j])
        {
          order[i + 1] := order[i];
        }
      }
      order[to] := fromPosition;
    }

    /** Changes one priority; in random mode the song moves into its new priority group. */
    method SetPriority(position: nat, priority: Priority, after: int) returns (changed: bool)
      requires Valid() && position < length && -1 <= after < length
      modifies items, order
      ensures Valid()
      ensures changed <==> old(items[position].priority) != priority
      ensures Value() == old(Value()).(items := items[..length], order := order[..length])
      ensures items[..length] == SetPriorityAt(old(items[..length]), position, priority, version)
      ensures !changed || !random ==> order[..length] == old(order[..length])
      ensures changed && random ==>
        Reprioritized(items[..length], old(order[..length]), order[..length],
                      IndexOf(old(order[..length]), position), old(items[position].priority), priority, after)
      ensures changed && random ==>
        OnlyUrgentMoves(old(items[..length]), old(order[..length]), order[..length], position, priority, after)
    {
      hide Indexed, IsPermutation, Reprioritized, OnlyUrgentMoves, SetPriorityAt;
      ghost var s, o := items[..length], order[..length];
      var oldPriority := items[position].priority;
      if oldPriority == priority {
        SamePriorityAt(s, position, priority, version);
        return false;
      }
      AssignPriority(position, priority);
      if random {
        PermutationInRange(items[..length], order[..length]);
        Reprioritize(position, oldPriority, priority, after);
        ReprioritizedPlayedAgain(s, o, order[..length], IndexOf(o, position), priority, after, version);
      }
      return true;
    }

    /** The part of `queue_set_priority()` that is specific to random mode. */
    method Reprioritize(position: nat, oldPriority: Priority, priority: Priority, after: int)
      requires Valid() && position < length && -1 <= after < length
      requires InRange(items[..length], order[..length]) && items[position].priority == priority
      modifies order
      ensures Valid() && Value() == old(Value()).(order := order[..length])
      ensures Reprioritized(items[..length], old(order[..length]), order[..length],
                            IndexOf(old(order[..length]), position), oldPriority, priority, after)
    {
      hide Indexed, IsPermutation, InsertionPoint, MovedTo, Swapped;
      var n := PositionToOrder(position);
      if after >= 0 {
        if n == after {
          return;
        }
        if n < after {
          ghost var s, o := items[..length], order[..length];
          var afterItem := items[order[after]];
          assert afterItem == s[o[after]];
          if oldPriority > afterItem.priority || priority <= afterItem.priority {
            return;
          }
        }
      }
      Regroup(n, priority, after);
    }

    method AssignPriority(position: nat, priority: Priority)
      requires Valid() && position < length && items[position].priority != priority
      modifies items
      ensures Valid() && Value() == old(Value()).(items := items[..length]) && items[position].priority == priority
      ensures items[..length] == SetPriorityAt(old(items[..length]), position, priority, version)
    {
      hide Indexed, IsPermutation;
      PriorityIndexed(items[..length], idToPosition[..], position, priority, version);
      items[position] := items[position].(priority := priority, version := version);
      assert items[..length] == SetPriorityAt(old(items[..length]), position, priority, version);
    }

    /** Moves the song at order number `n` into its priority group and shuffles it within the group. */
    method Regroup(n: nat, priority: Priority, after: int)
      requires Valid() && n < length && -1 <= after < length && n != after
      requires items[order[n]].priority == priority
      modifies order
      ensures Valid() && Value() == old(Value()).(order := order[..length])
      ensures InRange(items[..length], old(order[..length]))
      ensures var o := old(order[..length]);
              var m := NewOrder(items[..length], o, n, priority, after);
              exists r :: m <= r < |o| && SameGroup(items[..length], MovedTo(o, n, m), m, r, priority)
                          && order[..length] == Swapped(MovedTo(o, n, m), m, r)
    {
      hide Indexed, IsPermutation, InsertionPoint, GroupLength, MovedTo, Swapped;
      ghost var s, o := items[..length], order[..length];
      var before := FindPriorityOrder(after + 1, priority, n);
      var m := if before > n then before - 1 else before;
      assert s[o[n]].priority == priority;
      MoveOrder(n, m);
      MovedToIndex(o, n, m, m);
      assert order[m] == o[n];
      var count := CountSamePriority(m, priority);
      assert count >= 1 by { GroupNonEmpty(s, order[..length], m, priority); }
      var r := ShuffleOrderFirst(m, m + count);
      assert m == NewOrder(s, o, n, priority, after) && s == items[..length];
      assert SameGroup(s, MovedTo(o, n, m), m, r, priority);
      assert order[..length] == Swapped(MovedTo(o, n, m), m, r);
    }

    /** Changes one priority, given the position of the current song. */
    method SetPriorityAfter(position: nat, priority: Priority, afterPosition: int) returns (changed: bool)
      requires Valid() && position < length && -1 <= afterPosition < length
      modifies items, order
      ensures Valid()
      ensures changed <==> old(items[position].priority) != priority
      ensures Value() == old(Value()).(items := items[..length], order := order[..length])
      ensures items[..length] == SetPriorityAt(old(items[..length]), position, priority, version)
      ensures !random ==> order[..length] == old(order[..length])
      ensures random && old(TailDescending(items[..length], order[..length], afterPosition)) ==>
                TailDescending(items[..length], order[..length], afterPosition)
      ensures random ==>
        PlayedAgain(old(items[..length]), old(order[..length]), order[..length], position, priority, afterPosition)
    {
      hide Indexed, IsPermutation, Reprioritized, TailDescending, SetPriorityAt, OnlyUrgentMoves, PlayedAgain,
        BecomesUrgent;
      ghost var s, o := items[..length], order[..length];
      var after: int := -1;
      if afterPosition >= 0 {
        after := PositionToOrder(afterPosition);
      }
      assert after == OrderOf(o, afterPosition);
      changed := SetPriority(position, priority, after);
      PermutationInRange(items[..length], o);
      if random {
        PriorityStep(s, o, order[..length], position, priority, afterPosition, version);
      }
    }

    /** Changes the priorities of a range of positions, one after another. */
    method SetPriorityRange(start: nat, end: nat, priority: Priority, after: int) returns (modified: bool)
      requires Valid() && start <= end <= length && -1 <= after < length
      modifies items, order
      ensures Valid()
      ensures Value() == old(Value()).(items := items[..length], order := order[..length])
      ensures items[..length] == SetPriorityBetween(old(items[..length]), start, end, priority, version)
      ensures modified <==> exists p :: start <= p < end && old(items[p].priority) != priority
      ensures !random ==> order[..length] == old(order[..length])
      ensures var position: int := if after >= 0 then old(order[after]) else -1;
        random && old(TailDescending(items[..length], order[..length], if after >= 0 then order[after] else -1)) ==>
        TailDescending(items[..length], order[..length], position)
      ensures random ==>
        RangePlayedAgain(old(items[..length]), old(order[..length]), order[..length], start, end, priority,
                         if after >= 0 then old(order[after]) else -1)
      ensures QueueRuns.Applied(old(Value()), QueueRuns.SetPriorities(start, end, priority, order[..length]), Value())
    {
      hide Indexed, IsPermutation, Reprioritized, TailDescending, SetPriorityBetween, SetPriorityAt,
        PlayedAgain, RangePlayedAgain, QueueRuns.Applied;
      ghost var s, o := items[..length], order[..length];
      modified := false;
      var afterPosition: int := if after >= 0 then order[after] else -1;
      AfterPositionInRange(order[..length], after);
      ghost var sorted := TailDescending(s, order[..length], afterPosition);
      SetPriorityNone(s, start, priority, version);
      NonePlayedAgain(s, o, start, priority, afterPosition);
      for i := start to end
        invariant Valid() && Value() == old(Value()).(items := items[..length], order := order[..length])
        invariant items[..length] == SetPriorityBetween(s, start, i, priority, version)
        invariant modified <==> exists p :: start <= p < i && s[p].priority != priority
        invariant !random ==> order[..length] == old(order[..length])
        invariant random && sorted ==> TailDescending(items[..length], order[..length], afterPosition)
        invariant random ==> RangePlayedAgain(s, o, order[..length], start, i, priority, afterPosition)
      {
        ghost var o1 := order[..length];
        SetPriorityOneMore(s, start, i, priority, version);
        assert items[i].priority == s[i].priority by { assert items[i] == items[..length][i]; }
        var changed := SetPriorityAfter(i, priority, afterPosition);
        modified := modified || changed;
        if random {
          RangePlayedAgainStep(s, o, o1, order[..length], start, i, priority, afterPosition, version);
        }
      }
      QueueRuns.SetPrioritiesApplied(old(Value()), start, end, priority, order[..length]);
    }

    /** `queue_print_changes_info()`: everything a client that knows version `v` must fetch again. */
    method PrintChanges(v: nat) returns (out: seq<QueueRuns.Change>)
      requires Valid()
      ensures out == QueueRuns.ChangesBelow(Value(), v, length)
    {
      out := [];
      for i := 0 to length
        invariant out == QueueRuns.ChangesBelow(Value(), v, i)
      {
        if v > version || items[i].version >= v || items[i].version == 0 {
          out := out + [QueueRuns.Change(i, EntryOf(items[i]))];
        }
      }
    }
  }
}

/**
 The id index of the queue, and what the array updates of the queue
 operations do to it, stated on the contents of the arrays.
 */
module QueueArrays {
  import opened Permutations
  import opened QueueSpec
  import opened PriorityOrder

  /** `ids` maps each id in use to the position of its item, every other id to -1. */
  ghost predicate Indexed(s: seq<Item>, ids: seq<int>) {
    && (forall p :: 0 <= p < |s| ==> s[p].id < |ids| && ids[s[p].id] == p)
    && (forall id :: 0 <= id < |ids| ==>
          ids[id] == -1 || (0 <= ids[id] < |s| && s[ids[id]].id == id))
  }

  /** The items after the songs at `a..b` have been moved by `d` positions. */
  ghost function ShiftedItems(s: seq<Item>, a: int, b: int, d: int, version: nat): (r: seq<Item>)
    requires a < b ==> 0 <= a && b <= |s| && 0 <= a + d && b + d <= |s|
    ensures |r| == |s|
  {
    seq(|s|, j requires 0 <= j < |s| => if a + d <= j < b + d then Stamp(s[j - d], version) else s[j])
  }

  ghost function ShiftedIds(ids: seq<int>, a: int, b: int, d: int): (r: seq<int>)
    ensures |r| == |ids|
  {
    seq(|ids|, id requires 0 <= id < |ids| => if a <= ids[id] < b then ids[id] + d else ids[id])
  }

  /** Making room for the block `start..end` at position `to`. */
  ghost function AroundItems(s: seq<Item>, start: nat, end: nat, to: nat, version: nat): (r: seq<Item>)
    requires start <= end <= |s| && to + (end - start) <= |s|
    ensures |r| == |s|
  {
    ShiftedItems(ShiftedItems(s, end, to + end - start, start - end, version), to, start, end - start, version)
  }

  ghost function AroundIds(ids: seq<int>, start: nat, end: nat, to: nat): (r: seq<int>)
    requires start <= end
    ensures |r| == |ids|
  {
    ShiftedIds(ShiftedIds(ids, end, to + end - start, start - end), to, start, end - start)
  }

  /** The items after `block` has been written at position `to`. */
  ghost function PutItems(s: seq<Item>, block: seq<Item>, to: nat, version: nat): (r: seq<Item>)
    requires to + |block| <= |s|
    ensures |r| == |s|
  {
    seq(|s|, j requires 0 <= j < |s| => if to <= j < to + |block| then Stamp(block[j - to], version) else s[j])
  }

  /** The id index after the songs that `ids` has at `a..b` have been written at `a + d`. */
  ghost function PutIds(r: seq<int>, ids: seq<int>, a: int, b: int, d: int): (r': seq<int>)
    requires |r| == |ids|
    ensures |r'| == |ids|
  {
    seq(|ids|, id requires 0 <= id < |ids| => if a <= ids[id] < b then ids[id] + d else r[id])
  }

  /** The ids of positions `a..b` point back at them, and no other id does. */
  ghost predicate IndexedRange(s: seq<Item>, ids: seq<int>, a: int, b: int) {
    && (forall p :: a <= p < b && 0 <= p < |s| ==> s[p].id < |ids| && ids[s[p].id] == p)
    && (forall id :: 0 <= id < |ids| && a <= ids[id] < b && 0 <= ids[id] < |s| ==> s[ids[id]].id == id)
  }

  /** How many steps the id cursor takes from `first` to `id`, going round at `n`. */
  function Offset(first: nat, id: nat, n: nat): int {
    if id >= first then id - first else id + n - first
  }

  lemma FirstOffset(first: nat, free: nat, n: nat)
    requires first < n && free < n
    ensures Offset(first, first, n) == 0 <= Offset(first, free, n)
    ensures forall k :: 0 <= k < n ==> Offset(first, k, n) >= 0
  {
  }

  /** One step of the cursor raises the offset by one, unless the cursor was about to come back to `first`. */
  lemma NextOffset(first: nat, id: nat, free: nat, n: nat)
    requires first < n && id < n && free < n && id != free && Offset(first, id, n) <= Offset(first, free, n)
    ensures var next := if id + 1 < n then id + 1 else 0;
            Offset(first, next, n) == Offset(first, id, n) + 1 <= Offset(first, free, n)
    ensures forall k :: 0 <= k < n && Offset(first, k, n) == Offset(first, id, n) ==> k == id
  {
  }

  /** Fewer songs than ids: some id is unused. */
  lemma FreeIdExists(s: seq<Item>, ids: seq<int>) returns (free: nat)
    requires Indexed(s, ids) && |s| < |ids|
    ensures free < |ids| && ids[free] == -1
  {
    if forall id :: 0 <= id < |ids| ==> ids[id] != -1 {
      var used := seq(|ids|, id requires 0 <= id < |ids| => Max(ids[id], 0));
      assert Injective(used) by {
        forall i, j | 0 <= i < j < |used| ensures used[i] != used[j] {
          assert s[ids[i]].id == i && s[ids[j]].id == j;
        }
      }
      InjectiveCardinality(used);
      assert Elements(used) <= Below(|s|);
      SubsetCardinality(Elements(used), Below(|s|));
      assert false;
    }
    free :| 0 <= free < |ids| && ids[free] == -1;
  }

  lemma IndexedDistinct(s: seq<Item>, ids: seq<int>)
    requires Indexed(s, ids)
    ensures DistinctIds(s)
  {
  }

  lemma StampIndexed(s: seq<Item>, ids: seq<int>, lo: int, hi: int, version: nat)
    requires Indexed(s, ids)
    ensures Indexed(StampRange(s, lo, hi, version), ids)
  {
  }

  lemma PriorityIndexed(s: seq<Item>, ids: seq<int>, p: nat, priority: Priority, version: nat)
    requires Indexed(s, ids) && p < |s|
    ensures Indexed(SetPriorityAt(s, p, priority, version), ids)
  {
  }

  lemma SwapIndexed(s: seq<Item>, ids: seq<int>, i: nat, j: nat, version: nat)
    requires Indexed(s, ids) && i < |s| && j < |s|
    ensures s[i].id < |ids| && s[j].id < |ids|
    ensures Indexed(SwappedItems(s, i, j, version), ids[s[i].id := j][s[j].id := i])
  {
  }

  lemma AfterPositionInRange(o: seq<nat>, after: int)
    requires IsPermutation(o) && -1 <= after < |o|
    ensures after >= 0 ==> o[after] < |o|
  {
  }

  /** The parts of a block move may be shifted one after the other. */
  lemma IndexedRanges(s: seq<Item>, ids: seq<int>, n: nat, start: nat, end: nat, to: nat, version: nat)
    requires n <= |s| && Indexed(s[..n], ids) && start <= end <= n && to + (end - start) <= n
    ensures IndexedRange(s, ids, end, to + end - start)
    ensures IndexedRange(ShiftedItems(s, end, to + end - start, start - end, version),
                         ShiftedIds(ids, end, to + end - start, start - end), to, start)
    ensures forall i :: start <= i < end ==> s[i].id < |ids| && ids[s[i].id] == i
    ensures forall id :: 0 <= id < |ids| && start <= ids[id] < end ==> s[ids[id]].id == id
  {
    assert forall p :: 0 <= p < n ==> s[p] == s[..n][p];
  }

  /** Shifting down, shifting up and writing the block back, one after another, moves it. */
  lemma BlockMovedItem(s: seq<Item>, start: nat, end: nat, to: nat, version: nat, j: nat)
    requires start <= end <= |s| && to + (end - start) <= |s| && j < |s|
    ensures PutItems(AroundItems(s, start, end, to, version), s[start..end], to, version)[j] ==
            MovedItemAt(s, start, end, to, version, j)
  {
  }

  lemma BlockMovedIds(ids: seq<int>, start: nat, end: nat, to: nat)
    requires start <= end && forall id :: 0 <= id < |ids| ==> ids[id] >= -1
    ensures forall id :: 0 <= id < |ids| ==>
              PutIds(AroundIds(ids, start, end, to), ids, start, end, to - start)[id] ==
              if ids[id] >= 0 then MovedPosition(ids[id], start, end, to) else -1
  {
  }

  /** The three parts of a block move together. */
  lemma BlockMove(s: seq<Item>, ids: seq<int>, n: nat, start: nat, end: nat, to: nat, version: nat)
    requires n <= |s| && Indexed(s[..n], ids) && start <= end <= n && to + (end - start) <= n
    ensures var r := PutItems(AroundItems(s, start, end, to, version), s[start..end], to, version);
            && r[..n] == MovedItems(s[..n], start, end, to, version)
            && Indexed(r[..n], PutIds(AroundIds(ids, start, end, to), ids, start, end, to - start))
  {
    var r := PutItems(AroundItems(s, start, end, to, version), s[start..end], to, version);
    forall j | 0 <= j < n ensures r[j] == MovedItemAt(s[..n], start, end, to, version, j) {
      BlockMovedItem(s, start, end, to, version, j);
      assert s[..n][Origin(j, start, end, to)] == s[Origin(j, start, end, to)];
    }
    BlockMovedIds(ids, start, end, to);
    MovedIndexed(s[..n], ids, r[..n], PutIds(AroundIds(ids, start, end, to), ids, start, end, to - start),
                 start, end, to, version);
    MovedItemsPointwise(s[..n], r[..n], start, end, to, version);
  }

  lemma ShiftedNone(s: seq<Item>, ids: seq<int>, a: int, d: int, version: nat)
    ensures ShiftedItems(s, a, a, d, version) == s && ShiftedIds(ids, a, a, d) == ids
  {
  }

  lemma ShiftedNothing(s: seq<Item>, ids: seq<int>, a: int, b: int, d: int, version: nat)
    requires b < a
    ensures ShiftedItems(s, a, b, d, version) == s && ShiftedIds(ids, a, b, d) == ids
  {
  }

  lemma ShiftDownStep(s: seq<Item>, ids: seq<int>, a: nat, i: nat, b: nat, k: nat, version: nat)
    requires k <= a <= i < b <= |s| && IndexedRange(s, ids, a, b)
    ensures var s' := ShiftedItems(s, a, i, 0 - k, version);
            && s'[i] == s[i] && s[i].id < |ids|
            && ShiftedItems(s, a, i + 1, 0 - k, version) == s'[i - k := Stamp(s[i], version)]
    ensures ShiftedIds(ids, a, i + 1, 0 - k) == ShiftedIds(ids, a, i, 0 - k)[s[i].id := i - k]
  {
  }

  lemma ShiftUpStep(s: seq<Item>, ids: seq<int>, a: nat, i: nat, b: nat, k: nat, version: nat)
    requires a <= i < b && b + k <= |s| && IndexedRange(s, ids, a, b)
    ensures var s' := ShiftedItems(s, i + 1, b, k, version);
            && s'[i] == s[i] && s[i].id < |ids|
            && ShiftedItems(s, i, b, k, version) == s'[i + k := Stamp(s[i], version)]
    ensures ShiftedIds(ids, i, b, k) == ShiftedIds(ids, i + 1, b, k)[s[i].id := i + k]
  {
  }

  lemma PutOne(s: seq<Item>, r: seq<int>, ids: seq<int>, item: Item, from: nat, to: nat, version: nat)
    requires to < |s| && |r| == |ids| && item.id < |ids|
    requires forall id :: 0 <= id < |ids| ==> (ids[id] == from <==> id == item.id)
    ensures s[to := Stamp(item, version)] == PutItems(s, [item], to, version)
    ensures r[item.id := to] == PutIds(r, ids, from, from + 1, to - from)
  {
  }

  /** Releasing an id and closing the gap keeps the id index consistent. */
  lemma DeleteIndexed(s: seq<Item>, ids: seq<int>, n: nat, position: nat, version: nat)
    requires position < n <= |s| && Indexed(s[..n], ids)
    ensures s[position].id < |ids|
    ensures var freed := ids[s[position].id := -1];
            var r := ShiftedItems(s, position + 1, n, -1, version);
            && IndexedRange(s, freed, position + 1, n)
            && r[..n - 1] == DeletedItems(s[..n], position, version)
            && Indexed(r[..n - 1], ShiftedIds(freed, position + 1, n, -1))
  {
    assert forall p :: 0 <= p < n ==> s[p] == s[..n][p];
    var r := ShiftedItems(s, position + 1, n, -1, version)[..n - 1];
    assert r == DeletedItems(s[..n], position, version);
    DeletedIndex(s[..n], ids, position, version);
  }

  lemma DeletedIndex(s: seq<Item>, ids: seq<int>, position: nat, version: nat)
    requires position < |s| && Indexed(s, ids)
    ensures Indexed(DeletedItems(s, position, version),
                    ShiftedIds(ids[s[position].id := -1], position + 1, |s|, -1))
  {
  }

  /** Renaming the positions of a block move keeps the id index consistent. */
  lemma MovedIndexed(s: seq<Item>, ids: seq<int>, r: seq<Item>, ids': seq<int>,
                     start: nat, end: nat, to: nat, version: nat)
    requires Indexed(s, ids) && |ids'| == |ids| && |r| == |s|
    requires start <= end <= |s| && to + (end - start) <= |s|
    requires forall j :: 0 <= j < |s| ==> r[j] == MovedItemAt(s, start, end, to, version, j)
    requires forall id :: 0 <= id < |ids| ==>
               ids'[id] == if ids[id] >= 0 then MovedPosition(ids[id], start, end, to) else -1
    ensures Indexed(r, ids')
  {
    forall p | 0 <= p < |r| ensures r[p].id < |ids'| && ids'[r[p].id] == p {
      OriginInverse(start, end, to, |s|, p);
      var q := Origin(p, start, end, to);
      assert r[p].id == s[q].id && ids[s[q].id] == q;
    }
    forall id | 0 <= id < |ids'|
      ensures ids'[id] == -1 || (0 <= ids'[id] < |r| && r[ids'[id]].id == id)
    {
      if ids[id] >= 0 {
        OriginInverse(start, end, to, |s|, ids[id]);
        assert r[ids'[id]].id == s[ids[id]].id;
      }
    }
  }
}

/**
 The value of a play queue, and what each queue operation makes of it.
 A song is addressed by position (its index in `items`), by id (which it
 keeps until it is deleted) and by order number (its index in `order`).
 */
module QueueSpec {
  import opened Permutations

  /** `QUEUE_HASH_MULT`: ids are drawn from `4 * maxLength` numbers. */
  const HASH_MULT: nat := 4

  /** `queue_increment_version()` starts over before reaching this number. */
  const MAX_VERSION: nat := 0x7fff_ffff

  const UINT_MODULUS: int := 0x1_0000_0000
  const UINT_MAX: nat := 0xffff_ffff

  /** The value of a sum or difference of two `unsigned` numbers. */
  function Wrap(x: int): (r: nat)
    requires -UINT_MODULUS <= x < 2 * UINT_MODULUS
    ensures r <= UINT_MAX && (r - x) % UINT_MODULUS == 0
  {
    if x < 0 then x + UINT_MODULUS
    else if x > UINT_MAX then x - UINT_MODULUS
    else x
  }

  /** A song pointer; only its identity matters to the queue. */
  type Song = nat

  /** `uint8_t` */
  type Priority = x: nat | x < 256

  datatype Item = Item(song: Song, id: nat, version: nat, priority: Priority)

  datatype Queue = Queue(
    items: seq<Item>,
    order: seq<nat>,
    version: nat,
    repeat: bool,
    single: bool,
    consume: bool,
    random: bool)

  function Stamp(item: Item, version: nat): Item {
    item.(version := version)
  }

  /** Stamps the positions `lo..hi` as changed in `version`. */
  function StampRange(s: seq<Item>, lo: int, hi: int, version: nat): (r: seq<Item>)
    ensures |r| == |s|
  {
    seq(|s|, i requires 0 <= i < |s| => if lo <= i < hi then Stamp(s[i], version) else s[i])
  }

  /** What a client knows of an item. */
  datatype Entry = Entry(song: Song, id: nat, priority: Priority)

  function EntryOf(item: Item): Entry {
    Entry(item.song, item.id, item.priority)
  }

  ghost predicate DistinctIds(s: seq<Item>) {
    forall p, q :: 0 <= p < q < |s| ==> s[p].id != s[q].id
  }

  /** The invariant that every queue operation keeps. */
  ghost predicate Consistent(q: Queue) {
    && |q.order| == |q.items|
    && IsPermutation(q.order)
    && DistinctIds(q.items)
    && 1 <= q.version < MAX_VERSION
    && (!q.random ==> IsIdentity(q.order))
  }

  /** The item that order number `n` denotes. */
  function ItemAt(q: Queue, n: nat): Item
    requires n < |q.order| && q.order[n] < |q.items|
  {
    q.items[q.order[n]]
  }

  function IdAt(q: Queue, n: nat): nat
    requires n < |q.order| && q.order[n] < |q.items|
  {
    ItemAt(q, n).id
  }

  /** The ids in the order in which they are played. */
  ghost function PlayIds(q: Queue): (r: seq<nat>)
    requires |q.order| == |q.items| && IsPermutation(q.order)
    ensures |r| == |q.order|
    ensures forall n :: 0 <= n < |r| ==> r[n] == IdAt(q, n)
  {
    seq(|q.order|, n requires 0 <= n < |q.order| => IdAt(q, n))
  }

  // ---- queue_swap() ----

  function SwappedItems(s: seq<Item>, i: nat, j: nat, version: nat): (r: seq<Item>)
    requires i < |s| && j < |s|
    ensures |r| == |s|
  {
    s[i := Stamp(s[j], version)][j := Stamp(s[i], version)]
  }

  // ---- queue_move_range(): cut a block out and splice it in at `to` ----

  function Splice<T>(s: seq<T>, start: nat, end: nat, to: nat): (r: seq<T>)
    requires start <= end <= |s| && to + (end - start) <= |s|
    ensures |r| == |s|
  {
    var rest := s[..start] + s[end..];
    rest[..to] + s[start..end] + rest[to..]
  }

  function Min(a: int, b: int): int { if a < b then a else b }

  function Max(a: int, b: int): int { if a < b then b else a }

  function MovedItems(s: seq<Item>, start: nat, end: nat, to: nat, version: nat): (r: seq<Item>)
    requires start <= end <= |s| && to + (end - start) <= |s|
    ensures |r| == |s|
  {
    StampRange(Splice(s, start, end, to), Min(start, to), Max(end, to + end - start), version)
  }

  /** Where the song at position `p` is after the move. */
  function MovedPosition(p: nat, start: nat, end: nat, to: nat): (r: nat)
    requires start <= end
  {
    if start <= p < end then p - start + to
    else if end <= p < to + end - start then p - (end - start)
    else if to <= p < start then p + (end - start)
    else p
  }

  function MovedOrder(o: seq<nat>, start: nat, end: nat, to: nat): (r: seq<nat>)
    requires start <= end
    ensures |r| == |o|
  {
    seq(|o|, i requires 0 <= i < |o| => MovedPosition(o[i], start, end, to))
  }

  /** The inverse of `MovedPosition`. */
  function Origin(p: nat, start: nat, end: nat, to: nat): (q: nat)
    requires start <= end
    ensures MovedPosition(q, start, end, to) == p
  {
    if to <= p < to + end - start then p - to + start
    else if start <= p < to then p + (end - start)
    else if to + end - start <= p < end then p - (end - start)
    else p
  }

  lemma OriginInverse(start: nat, end: nat, to: nat, n: nat, p: nat)
    requires start <= end <= n && to + (end - start) <= n && p < n
    ensures MovedPosition(p, start, end, to) < n && Origin(p, start, end, to) < n
    ensures Origin(MovedPosition(p, start, end, to), start, end, to) == p
  {
  }

  /** `MovedPosition` and `Origin` describe `Splice`. */
  lemma SpliceAt<T>(s: seq<T>, start: nat, end: nat, to: nat, p: nat)
    requires start <= end <= |s| && to + (end - start) <= |s| && p < |s|
    ensures MovedPosition(p, start, end, to) < |s|
    ensures Splice(s, start, end, to)[MovedPosition(p, start, end, to)] == s[p]
    ensures Origin(p, start, end, to) < |s|
    ensures Splice(s, start, end, to)[p] == s[Origin(p, start, end, to)]
  {
  }

  /** One position of a block move, in terms of the items before it. */
  function MovedItemAt(s: seq<Item>, start: nat, end: nat, to: nat, version: nat, j: nat): Item
    requires start <= end <= |s| && to + (end - start) <= |s| && j < |s|
  {
    if Min(start, to) <= j < Max(end, to + end - start)
    then Stamp(s[Origin(j, start, end, to)], version)
    else s[j]
  }

  lemma MovedItemsPointwise(s: seq<Item>, r: seq<Item>, start: nat, end: nat, to: nat, version: nat)
    requires start <= end <= |s| && to + (end - start) <= |s| && |r| == |s|
    ensures r == MovedItems(s, start, end, to, version) <==>
            forall j :: 0 <= j < |s| ==> r[j] == MovedItemAt(s, start, end, to, version, j)
  {
    var m := MovedItems(s, start, end, to, version);
    forall j | 0 <= j < |s| ensures m[j] == MovedItemAt(s, start, end, to, version, j) {
      SpliceAt(s, start, end, to, j);
    }
  }

  lemma MovedOrderPermutation(o: seq<nat>, start: nat, end: nat, to: nat)
    requires start <= end <= |o| && to + (end - start) <= |o| && IsPermutation(o)
    ensures IsPermutation(MovedOrder(o, start, end, to))
  {
    MapKeepsPermutation(o, MovedOrder(o, start, end, to), p => MovedPosition(p, start, end, to));
  }

  // ---- queue_delete() ----

  function DeletedItems(s: seq<Item>, p: nat, version: nat): (r: seq<Item>)
    requires p < |s|
    ensures |r| == |s| - 1
  {
    StampRange(RemoveAt(s, p), p, |s|, version)
  }

  // ---- priorities ----

  function PriorityAt(s: seq<Item>, o: seq<nat>, n: nat): Priority
    requires n < |o| && o[n] < |s|
  {
    s[o[n]].priority
  }

  ghost predicate InRange(s: seq<Item>, o: seq<nat>) {
    forall i :: 0 <= i < |o| ==> o[i] < |s|
  }

  /** Order numbers `lo..hi` are in non-increasing priority order. */
  ghost predicate Descending(s: seq<Item>, o: seq<nat>, lo: int, hi: int)
    requires 0 <= lo && hi <= |o| && InRange(s, o)
  {
    forall i, j :: lo <= i < j < hi ==> PriorityAt(s, o, i) >= PriorityAt(s, o, j)
  }

  /** `o'` rearranges the order numbers `lo..hi` of `o` among themselves. */
  ghost predicate PermutedWithin(o: seq<nat>, o': seq<nat>, lo: int, hi: int) {
    && 0 <= lo <= hi <= |o| == |o'|
    && (forall i :: 0 <= i < lo || hi <= i < |o| ==> o'[i] == o[i])
    && multiset(o'[lo..hi]) == multiset(o[lo..hi])
  }

  // ---- queue_next_order() ----

  /** The order number played after `n`, or -1 at the end of the queue. */
  function NextOrder(q: Queue, n: nat): (r: int)
    requires n < |q.items|
    ensures -1 <= r < |q.items|
  {
    if q.single && q.repeat && !q.consume then n
    else if n + 1 < |q.items| then n + 1
    else if q.repeat && (n > 0 || !q.consume) then 0
    else -1
  }

  // ---- queue_increment_version() ----

  function Incremented(q: Queue): (r: Queue) {
    if q.version + 1 >= MAX_VERSION
    then q.(version := 1, items := StampRange(q.items, 0, |q.items|, 0))
    else q.(version := q.version + 1)
  }
}

/** Which play orders a shuffle by priority can produce, and where it can put a song. */
module Shuffles {
  import opened Permutations
  import opened QueueSpec
  import opened PriorityOrder

  /** `o` is a possible outcome of `queue_shuffle_order()`. */
  ghost predicate IsShuffle(s: seq<Item>, o: seq<nat>) {
    |o| == |s| && IsPermutation(o) && Descending(s, o, 0, |s|)
  }

  // ---- every sequence of keys can be sorted ----

  ghost predicate Ascending(keys: seq<int>, o: seq<nat>)
    requires forall i :: 0 <= i < |o| ==> o[i] < |keys|
  {
    forall i, j :: 0 <= i < j < |o| ==> keys[o[i]] <= keys[o[j]]
  }

  lemma InsertKeepsPermutation(o: seq<nat>, i: nat)
    requires IsPermutation(o) && i <= |o|
    ensures IsPermutation(o[..i] + [|o|] + o[i..])
  {
  }

  lemma {:induction false} SortedOrder(keys: seq<int>) returns (o: seq<nat>)
    ensures |o| == |keys| && IsPermutation(o) && Ascending(keys, o)
  {
    if keys == [] {
      o := [];
    } else {
      var n := |keys| - 1;
      var rest := SortedOrder(keys[..n]);
      var i := 0;
      while i < n && keys[rest[i]] <= keys[n]
        invariant i <= n && forall j :: 0 <= j < i ==> keys[rest[j]] <= keys[n]
      {
        i := i + 1;
      }
      InsertKeepsPermutation(rest, i);
      o := rest[..i] + [n] + rest[i..];
    }
  }

  // ---- counting ----

  /** The songs that come before song `x` in every shuffle. */
  ghost function Higher(s: seq<Item>, x: nat): set<nat>
    requires x < |s|
  {
    set p: nat | p < |s| && s[p].priority > s[x].priority
  }

  /** The songs of the same priority as song `x`. */
  ghost function Level(s: seq<Item>, x: nat): set<nat>
    requires x < |s|
  {
    set p: nat | p < |s| && s[p].priority == s[x].priority
  }

  lemma CountBefore(o: seq<nat>, c: nat, a: set<nat>)
    requires IsPermutation(o) && c <= |o|
    requires forall p :: p in a ==> p < |o| && IndexOf(o, p) < c
    ensures |a| <= c
  {
    InjectiveCardinality(o[..c]);
    forall p | p in a ensures p in Elements(o[..c]) {
      assert o[..c][IndexOf(o, p)] == p;
    }
    SubsetCardinality(a, Elements(o[..c]));
  }

  lemma CountUpTo(o: seq<nat>, c: nat, a: set<nat>)
    requires IsPermutation(o) && c <= |o|
    requires forall i :: 0 <= i < c ==> o[i] in a
    ensures c <= |a|
  {
    InjectiveCardinality(o[..c]);
    SubsetCardinality(Elements(o[..c]), a);
  }

  /** A shuffle puts a song behind all songs of higher priority and before all songs of lower priority. */
  lemma ShuffleBounds(s: seq<Item>, o: seq<nat>, x: nat)
    requires IsShuffle(s, o) && x < |s|
    ensures |Higher(s, x)| <= IndexOf(o, x) < |Higher(s, x)| + |Level(s, x)|
  {
    var c := IndexOf(o, x);
    var a, g := Higher(s, x), Level(s, x);
    forall p | p in a ensures IndexOf(o, p) < c {
      assert PriorityAt(s, o, IndexOf(o, p)) > PriorityAt(s, o, c);
    }
    CountBefore(o, c, a);
    forall i | 0 <= i < c + 1 ensures o[i] in a + g {
      assert PriorityAt(s, o, i) >= PriorityAt(s, o, c);
    }
    CountUpTo(o, c + 1, a + g);
    assert a !! g;
  }

  // ---- construction ----

  /** `t` decides among songs of the same priority. */
  ghost predicate Decided(s: seq<Item>, t: seq<nat>, o: seq<nat>) {
    && IsShuffle(s, o) && |t| == |s|
    && forall i, j :: 0 <= i < j < |o| && s[o[i]].priority == s[o[j]].priority ==> t[o[i]] <= t[o[j]]
  }

  lemma Arrange(s: seq<Item>, t: seq<nat>) returns (o: seq<nat>)
    requires |t| == |s| && forall p :: 0 <= p < |t| ==> t[p] < 3
    ensures Decided(s, t, o)
  {
    var keys := seq(|s|, p requires 0 <= p < |s| => t[p] - 3 * s[p].priority);
    o := SortedOrder(keys);
    forall i, j | 0 <= i < j < |o|
      ensures s[o[i]].priority >= s[o[j]].priority
      ensures s[o[i]].priority == s[o[j]].priority ==> t[o[i]] <= t[o[j]]
    {
      assert keys[o[i]] <= keys[o[j]];
    }
  }

  /** The songs of the same priority that `t` puts before song `x`. */
  ghost function Preferred(s: seq<Item>, t: seq<nat>, x: nat): set<nat>
    requires x < |s| == |t|
  {
    set p | p in Level(s, x) && t[p] < t[x]
  }

  /** If nothing else ties with song `x`, its place is determined. */
  lemma DecidedIndex(s: seq<Item>, t: seq<nat>, o: seq<nat>, x: nat)
    requires Decided(s, t, o) && x < |s|
    requires forall p :: p in Level(s, x) && t[p] == t[x] ==> p == x
    ensures IndexOf(o, x) == |Higher(s, x)| + |Preferred(s, t, x)|
  {
    var c := IndexOf(o, x);
    var a, f := Higher(s, x), Preferred(s, t, x);
    assert a !! f;
    forall p | p in a + f ensures IndexOf(o, p) < c {
      var i := IndexOf(o, p);
      assert PriorityAt(s, o, i) == s[p].priority && PriorityAt(s, o, c) == s[x].priority;
    }
    CountBefore(o, c, a + f);
    forall i | 0 <= i < c + 1 ensures o[i] in a + f + {x} {
      if i < c {
        assert PriorityAt(s, o, i) >= PriorityAt(s, o, c);
      }
    }
    CountUpTo(o, c + 1, a + f + {x});
    assert x !in a + f;
  }

  lemma ShuffleExists(s: seq<Item>) returns (o: seq<nat>)
    ensures IsShuffle(s, o)
  {
    o := Arrange(s, seq(|s|, _ => 0));
  }

  /** Song `x` can come right behind all songs of higher priority. */
  lemma ShuffleFirst(s: seq<Item>, x: nat) returns (o: seq<nat>)
    requires x < |s|
    ensures IsShuffle(s, o) && IndexOf(o, x) == |Higher(s, x)|
  {
    var t := seq(|s|, p => if p == x then 0 else 1);
    o := Arrange(s, t);
    DecidedIndex(s, t, o, x);
    assert Preferred(s, t, x) == {};
  }

  /** Song `x` can come last of its priority. */
  lemma ShuffleLast(s: seq<Item>, x: nat) returns (o: seq<nat>)
    requires x < |s|
    ensures IsShuffle(s, o) && IndexOf(o, x) == |Higher(s, x)| + |Level(s, x)| - 1
  {
    var t := seq(|s|, p => if p == x then 1 else 0);
    o := Arrange(s, t);
    DecidedIndex(s, t, o, x);
    assert Preferred(s, t, x) == Level(s, x) - {x};
  }

  /** Song `p` can come first and song `x` second of their priority. */
  lemma ShuffleSecond(s: seq<Item>, p: nat, x: nat) returns (o: seq<nat>)
    requires p < |s| && x < |s| && p != x && s[p].priority == s[x].priority
    ensures IsShuffle(s, o) && IndexOf(o, x) == |Higher(s, x)| + 1 && IndexOf(o, p) == |Higher(s, x)|
  {
    var t := seq(|s|, q => if q == p then 0 else if q == x then 1 else 2);
    o := Arrange(s, t);
    DecidedIndex(s, t, o, x);
    assert Preferred(s, t, x) == {p};
    DecidedIndex(s, t, o, p);
    assert Preferred(s, t, p) == {} && Higher(s, p) == Higher(s, x);
  }

  /** Song `p` can come last and song `x` last but one of their priority. */
  lemma ShuffleLastButOne(s: seq<Item>, p: nat, x: nat) returns (o: seq<nat>)
    requires p < |s| && x < |s| && p != x && s[p].priority == s[x].priority
    ensures IsShuffle(s, o)
    ensures IndexOf(o, x) == |Higher(s, x)| + |Level(s, x)| - 2 && IndexOf(o, p) == IndexOf(o, x) + 1
  {
    var t := seq(|s|, q => if q == p then 2 else if q == x then 1 else 0);
    o := Arrange(s, t);
    DecidedIndex(s, t, o, x);
    assert Preferred(s, t, x) == Level(s, x) - {x, p} && |Level(s, x) - {x, p}| == |Level(s, x)| - 2;
    DecidedIndex(s, t, o, p);
    assert Preferred(s, t, p) == Level(s, x) - {p} && Higher(s, p) == Higher(s, x);
  }
}

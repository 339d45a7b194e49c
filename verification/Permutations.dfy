/** Permutations of `0..n`, the shape of the queue's "order" array. */
module Permutations {

  ghost predicate Injective(o: seq<nat>) {
    forall i, j :: 0 <= i < j < |o| ==> o[i] != o[j]
  }

  /** `o` lists every number below `|o|` exactly once. */
  ghost predicate IsPermutation(o: seq<nat>) {
    && (forall i :: 0 <= i < |o| ==> o[i] < |o|)
    && Injective(o)
  }

  ghost predicate IsIdentity(o: seq<nat>) {
    forall i :: 0 <= i < |o| ==> o[i] == i
  }

  function Swapped<T>(s: seq<T>, i: nat, j: nat): (r: seq<T>)
    requires i < |s| && j < |s|
    ensures |r| == |s|
  {
    s[i := s[j]][j := s[i]]
  }

  function RemoveAt<T>(s: seq<T>, k: nat): (r: seq<T>)
    requires k < |s|
    ensures |r| == |s| - 1
  {
    s[..k] + s[k + 1..]
  }

  /** Moves the element at `from` so that it ends up at index `to`. */
  function MovedTo<T>(s: seq<T>, from: nat, to: nat): (r: seq<T>)
    requires from < |s| && to < |s|
    ensures |r| == |s|
  {
    RemoveAt(s, from)[..to] + [s[from]] + RemoveAt(s, from)[to..]
  }

  ghost function Elements(o: seq<nat>): set<nat> {
    set x | x in o
  }

  ghost function Below(n: nat): (s: set<nat>)
    ensures forall x: nat :: x in s <==> x < n
    ensures |s| == n
  {
    if n == 0 then {} else Below(n - 1) + {n - 1}
  }

  lemma {:induction false} InjectiveCardinality(o: seq<nat>)
    requires Injective(o)
    ensures |Elements(o)| == |o|
  {
    if o != [] {
      var n := |o| - 1;
      InjectiveCardinality(o[..n]);
      assert o == o[..n] + [o[n]];
      assert Elements(o) == Elements(o[..n]) + {o[n]};
      assert o[n] !in Elements(o[..n]);
    }
  }

  lemma SubsetCardinality(a: set<nat>, b: set<nat>)
    requires a <= b
    ensures |a| <= |b|
  {
    assert b == a + (b - a);
  }

  /** Pigeonhole: an injection of `|o|` indices into `|o|` values misses none. */
  lemma Surjective(o: seq<nat>, p: nat)
    requires IsPermutation(o) && p < |o|
    ensures p in o
  {
    if p !in o {
      InjectiveCardinality(o);
      assert Elements(o) <= Below(|o|) - {p};
      SubsetCardinality(Elements(o), Below(|o|) - {p});
      assert false;
    }
  }

  /** The index at which `p` occurs: the inverse permutation. */
  ghost function IndexOf(o: seq<nat>, p: nat): (i: nat)
    requires IsPermutation(o) && p < |o|
    ensures i < |o| && o[i] == p
    ensures forall j :: 0 <= j < |o| && o[j] == p ==> j == i
  {
    Surjective(o, p);
    var i :| 0 <= i < |o| && o[i] == p;
    i
  }

  lemma SwapKeepsPermutation(o: seq<nat>, i: nat, j: nat)
    requires IsPermutation(o) && i < |o| && j < |o|
    ensures IsPermutation(Swapped(o, i, j))
  {
  }

  /** Applying an injection of `0..n` into itself keeps a permutation. */
  lemma MapKeepsPermutation(o: seq<nat>, r: seq<nat>, f: nat -> nat)
    requires IsPermutation(o) && |r| == |o|
    requires forall p :: 0 <= p < |o| ==> f(p) < |o|
    requires forall p, q :: 0 <= p < q < |o| ==> f(p) != f(q)
    requires forall i :: 0 <= i < |o| ==> r[i] == f(o[i])
    ensures IsPermutation(r)
  {
  }

  lemma MovedToIndex<T>(s: seq<T>, from: nat, to: nat, i: nat)
    requires from < |s| && to < |s| && i < |s|
    ensures MovedTo(s, from, to)[i] ==
            if i == to then s[from]
            else if from <= i < to then s[i + 1]
            else if to < i <= from then s[i - 1]
            else s[i]
  {
  }

  lemma MoveKeepsPermutation(o: seq<nat>, from: nat, to: nat)
    requires IsPermutation(o) && from < |o| && to < |o|
    ensures IsPermutation(MovedTo(o, from, to))
  {
    var r := MovedTo(o, from, to);
    forall i | 0 <= i < |o| ensures r[i] < |o| {
      MovedToIndex(o, from, to, i);
    }
    forall i, j | 0 <= i < j < |o| ensures r[i] != r[j] {
      MovedToIndex(o, from, to, i);
      MovedToIndex(o, from, to, j);
    }
  }

  /** What is left of position `x` once position `p` has been deleted. */
  function Renumber(x: nat, p: nat): nat {
    if x > p then x - 1 else x
  }

  /** The index that moves to `i` when the entry at `k` is taken out. */
  function Skip(i: nat, k: nat): nat {
    if i < k then i else i + 1
  }

  /** The order array after position `o[k]` has been deleted. */
  function WithoutEntry(o: seq<nat>, k: nat): (r: seq<nat>)
    requires k < |o|
    ensures |r| == |o| - 1
    ensures forall i :: 0 <= i < |r| ==> r[i] == Renumber(o[Skip(i, k)], o[k])
  {
    seq(|o| - 1, i requires 0 <= i < |o| - 1 => Renumber(o[Skip(i, k)], o[k]))
  }

  lemma WithoutEntryPermutation(o: seq<nat>, k: nat)
    requires IsPermutation(o) && k < |o|
    ensures IsPermutation(WithoutEntry(o, k))
  {
  }

  lemma WithoutEntryIdentity(o: seq<nat>, k: nat)
    requires IsIdentity(o) && k < |o|
    ensures IsIdentity(WithoutEntry(o, k))
  {
  }
}

/**
 The queue of paths whose database entries are to be updated. It holds no path
 together with one of its ancestors.
 */
module InotifyQueue {

  type Path = string

  /** `path_in()`, for strings without NUL characters. */
  predicate PathIn(path: Path, parent: Path) {
    path == "" || (parent <= path && (|path| == |parent| || path[|parent|] == '/'))
  }

  /** `path` is `parent` or lies in it; the empty path is the root of the music directory. */
  predicate Under(path: Path, parent: Path) {
    parent == "" || path == parent || (|parent| < |path| && parent <= path && path[|parent|] == '/')
  }

  /** Updating the queued paths updates `p`. */
  ghost predicate Covered(q: seq<Path>, p: Path) {
    exists i :: 0 <= i < |q| && Under(p, q[i])
  }

  predicate Incomparable(a: Path, b: Path) {
    !Under(a, b) && !Under(b, a)
  }

  ghost predicate Antichain(q: seq<Path>) {
    forall i, j :: 0 <= i < j < |q| ==> Incomparable(q[i], q[j])
  }

  ghost predicate Apart(q: seq<Path>, r: seq<Path>) {
    forall i, j :: 0 <= i < |q| && 0 <= j < |r| ==> Incomparable(q[i], r[j])
  }

  /** What `mpd_inotify_enqueue()` makes of the paths it has looked at and those it has not. */
  function Rebuild(looked: seq<Path>, rest: seq<Path>, u: Path): seq<Path>
    decreases |rest|
  {
    if rest == [] then [u] + looked
    else if PathIn(u, rest[0]) then looked + rest
    else if PathIn(rest[0], u) then Rebuild(looked, rest[1..], u)
    else Rebuild([rest[0]] + looked, rest[1..], u)
  }

  function Enqueued(q: seq<Path>, u: Path): seq<Path> {
    Rebuild([], q, u)
  }

  class Queue {
    var queue: seq<Path>

    /** `mpd_inotify_enqueue()` */
    method Enqueue(u: Path)
      modifies this
      ensures queue == Enqueued(old(queue), u)
    {
      var oldQueue := queue;
      queue := [];
      while oldQueue != []
        invariant Rebuild(queue, oldQueue, u) == Enqueued(old(queue), u)
        decreases |oldQueue|
      {
        var path := oldQueue[0];
        if PathIn(u, path) {
          queue := queue + oldQueue;
          return;
        }
        oldQueue := oldQueue[1..];
        if !PathIn(path, u) {
          queue := [path] + queue;
        }
      }
      queue := [u] + queue;
    }
  }

  lemma UnderTransitive(a: Path, b: Path, c: Path)
    requires Under(a, b) && Under(b, c)
    ensures Under(a, c)
  {
  }

  /** Away from the root, the code's test is containment. */
  lemma PathInIsUnder(path: Path, parent: Path)
    requires path != "" && parent != ""
    ensures PathIn(path, parent) <==> Under(path, parent)
  {
  }

  lemma CoveredConcat(q: seq<Path>, r: seq<Path>, p: Path)
    ensures Covered(q + r, p) <==> Covered(q, p) || Covered(r, p)
  {
    if Covered(q, p) {
      var i :| 0 <= i < |q| && Under(p, q[i]);
      assert (q + r)[i] == q[i];
    }
    if Covered(r, p) {
      var i :| 0 <= i < |r| && Under(p, r[i]);
      assert (q + r)[|q| + i] == r[i];
    }
  }

  lemma CoveredSplit(q: seq<Path>, p: Path)
    requires q != []
    ensures Covered(q, p) <==> Under(p, q[0]) || Covered(q[1..], p)
  {
  }

  ghost predicate NonEmptyPaths(q: seq<Path>) {
    forall i :: 0 <= i < |q| ==> q[i] != ""
  }

  /** Rebuilding the queue loses and invents nothing, even if it ends early. */
  lemma {:induction false} RebuildCovers(looked: seq<Path>, rest: seq<Path>, u: Path, p: Path)
    requires u != "" && NonEmptyPaths(rest)
    ensures Covered(Rebuild(looked, rest, u), p) <==> Covered(looked, p) || Covered(rest, p) || Under(p, u)
    decreases |rest|
  {
    if rest == [] {
      CoveredSplit([u] + looked, p);
      assert ([u] + looked)[1..] == looked;
    } else {
      var path := rest[0];
      PathInIsUnder(u, path);
      PathInIsUnder(path, u);
      CoveredSplit(rest, p);
      if PathIn(u, path) {
        CoveredConcat(looked, rest, p);
        if Under(p, u) { UnderTransitive(p, u, path); }
      } else if PathIn(path, u) {
        RebuildCovers(looked, rest[1..], u, p);
        if Under(p, path) { UnderTransitive(p, path, u); }
      } else {
        RebuildCovers([path] + looked, rest[1..], u, p);
        CoveredSplit([path] + looked, p);
        assert ([path] + looked)[1..] == looked;
      }
    }
  }

  /** The queue stays an antichain, whatever non-empty path is enqueued. */
  lemma {:induction false} RebuildAntichain(looked: seq<Path>, rest: seq<Path>, u: Path)
    requires Antichain(looked) && Antichain(rest) && Apart(looked, rest)
    requires u != "" && NonEmptyPaths(rest) && Apart(looked, [u])
    ensures Antichain(Rebuild(looked, rest, u))
    decreases |rest|
  {
    if rest != [] {
      var path := rest[0];
      PathInIsUnder(u, path);
      PathInIsUnder(path, u);
      assert Apart(looked, rest[1..]) && Antichain(rest[1..]);
      if !PathIn(u, path) {
        if PathIn(path, u) {
          RebuildAntichain(looked, rest[1..], u);
        } else {
          assert Incomparable(path, u);
          LookedAntichain(looked, rest, u);
          RebuildAntichain([path] + looked, rest[1..], u);
        }
      }
    }
  }

  lemma LookedAntichain(looked: seq<Path>, rest: seq<Path>, u: Path)
    requires rest != [] && Antichain(looked) && Antichain(rest) && Apart(looked, rest)
    requires Apart(looked, [u]) && Incomparable(rest[0], u)
    ensures Antichain([rest[0]] + looked) && Apart([rest[0]] + looked, rest[1..]) && Apart([rest[0]] + looked, [u])
  {
  }

  /** An antichain that holds the root holds nothing else. */
  lemma RootStandsAlone(q: seq<Path>)
    requires Antichain(q) && !NonEmptyPaths(q)
    ensures q == [""]
  {
    var i :| 0 <= i < |q| && q[i] == "";
    if |q| > 1 {
      var j := if i == 0 then 1 else 0;
      assert Under(q[j], q[i]);
    }
  }

  /** Does the code handle the root correctly for this queue and this path? */
  predicate RootHandled(q: seq<Path>, u: Path) {
    && (u == "" ==> q == [] || "" in q)
    && (u != "" && "" in q ==> u[0] == '/')
  }

  lemma RootEnqueued(q: seq<Path>, u: Path)
    requires Antichain(q) && (u == "" || "" in q)
    ensures Enqueued(q, u) ==
              if q == [] then [u]
              else if u == "" || u[0] == '/' then q
              else [u]
  {
    if "" in q { RootStandsAlone(q); }
    if q == [""] && u != "" && u[0] != '/' {
      assert Rebuild([], q, u) == Rebuild([], q[1..], u);
      assert q[1..] == [];
    }
  }

  /** The queue is always an antichain. */
  lemma EnqueueKeepsAntichain(q: seq<Path>, u: Path)
    requires Antichain(q)
    ensures Antichain(Enqueued(q, u))
  {
    if u == "" || "" in q {
      RootEnqueued(q, u);
    } else {
      RebuildAntichain([], q, u);
    }
  }

  /** After `u` has been enqueued, exactly the paths covered before and those in `u` are covered. */
  ghost predicate CoversExactly(q: seq<Path>, u: Path) {
    forall p :: Covered(Enqueued(q, u), p) <==> Covered(q, p) || Under(p, u)
  }

  /** The code meets this exactly when the root is not involved, or is handled correctly. */
  lemma EnqueueCoversExactlyWhen(q: seq<Path>, u: Path)
    requires Antichain(q)
    ensures CoversExactly(q, u) <==> RootHandled(q, u)
  {
    if u == "" || "" in q {
      RootEnqueued(q, u);
      RootCoverage(q, u);
    } else {
      forall p ensures Covered(Enqueued(q, u), p) <==> Covered(q, p) || Under(p, u) {
        RebuildCovers([], q, u, p);
      }
    }
  }

  lemma RootCoverage(q: seq<Path>, u: Path)
    requires Antichain(q) && (u == "" || "" in q)
    requires Enqueued(q, u) == if q == [] then [u] else if u == "" || u[0] == '/' then q else [u]
    ensures CoversExactly(q, u) <==> RootHandled(q, u)
  {
    if RootHandled(q, u) {
      if "" in q { RootStandsAlone(q); }
      forall p ensures Covered(Enqueued(q, u), p) {
        assert Under(p, Enqueued(q, u)[0]);
      }
      forall p ensures Covered(q, p) || Under(p, u) {
        assert u != "" ==> Under(p, q[0]);
      }
    } else {
      assert Covered(q, "") || Under("", u) by {
        if u != "" { RootStandsAlone(q); assert Under("", q[0]); }
      }
      assert !Covered(Enqueued(q, u), "");
    }
  }

  /** The root is lost when it is enqueued after another path. */
  lemma RootIsLost()
    ensures Enqueued(["a"], "") == ["a"] && !Covered(Enqueued(["a"], ""), "b") && Under("b", "")
  {
  }
}

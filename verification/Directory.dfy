/** The directory tree of the database: looking songs up, and pruning empty directories. */
module Directory {
  import opened Basics

  datatype Song = Song(name: string, key: nat)

  /** A directory; only the number of its playlists matters here. */
  datatype Dir = Dir(name: string, children: seq<Dir>, songs: seq<Song>, playlists: nat)

  /** `directory_is_empty()` */
  predicate IsEmpty(d: Dir) {
    d.children == [] && d.songs == [] && d.playlists == 0
  }

  /** Does the subtree hold a song or a playlist? */
  ghost predicate HasContent(d: Dir) {
    d.songs != [] || d.playlists > 0 || exists c :: c in d.children && HasContent(c)
  }

  ghost predicate DistinctNames(s: seq<Dir>) {
    forall i, j :: 0 <= i < j < |s| ==> s[i].name != s[j].name
  }

  /** No two siblings have the same name, anywhere in the subtree. */
  ghost predicate UniqueNames(d: Dir) {
    DistinctNames(d.children) && forall c :: c in d.children ==> UniqueNames(c)
  }

  // ---- directory_prune_empty() ----

  function Pruned(d: Dir): (r: Dir)
    ensures r.name == d.name && r.songs == d.songs && r.playlists == d.playlists
    decreases d, 0
  {
    d.(children := PrunedAll(d, |d.children|))
  }

  /** What is left of the first `n` children. */
  function PrunedAll(d: Dir, n: nat): (r: seq<Dir>)
    requires n <= |d.children|
    decreases d, 0, n
  {
    if n == 0 then []
    else
      var c := Pruned(d.children[n - 1]);
      PrunedAll(d, n - 1) + if IsEmpty(c) then [] else [c]
  }

  method PruneEmpty(d: Dir) returns (r: Dir)
    ensures r == Pruned(d)
    decreases d
  {
    var kept := [];
    for i := 0 to |d.children|
      invariant kept == PrunedAll(d, i)
    {
      var child := PruneEmpty(d.children[i]);
      if !IsEmpty(child) {
        kept := kept + [child];
      }
    }
    r := d.(children := kept);
  }

  /** The children that are left are the pruned children with content, in their order. */
  lemma {:induction false} PrunedAllHolds(d: Dir, n: nat, c: Dir)
    requires n <= |d.children|
    ensures c in PrunedAll(d, n) <==>
            exists i :: 0 <= i < n && HasContent(d.children[i]) && c == Pruned(d.children[i])
    decreases d, 0, n
  {
    hide Pruned, HasContent, IsEmpty;
    if n > 0 {
      PrunedAllHolds(d, n - 1, c);
      EmptyExactlyWithoutContent(d.children[n - 1]);
    }
  }

  /** Pruning leaves nothing of a directory exactly when its subtree holds neither song nor playlist. */
  lemma {:induction false} EmptyExactlyWithoutContent(d: Dir)
    ensures IsEmpty(Pruned(d)) <==> !HasContent(d)
    decreases d, 1
  {
    var n := |d.children|;
    var kept := PrunedAll(d, n);
    if kept != [] {
      PrunedAllHolds(d, n, kept[0]);
      var i :| 0 <= i < n && HasContent(d.children[i]) && kept[0] == Pruned(d.children[i]);
      assert d.children[i] in d.children;
    } else {
      forall c | c in d.children ensures !HasContent(c) {
        PrunedAllHolds(d, n, Pruned(c));
        var i :| 0 <= i < n && d.children[i] == c;
      }
    }
  }

  /** No directory without a song or a playlist in its subtree is left anywhere below the root. */
  lemma {:induction false} PrunedHasOnlyContent(d: Dir, c: Dir)
    requires c in Pruned(d).children
    ensures exists k :: k in d.children && HasContent(k) && c == Pruned(k)
  {
    PrunedAllHolds(d, |d.children|, c);
    var i :| 0 <= i < |d.children| && HasContent(d.children[i]) && c == Pruned(d.children[i]);
    assert d.children[i] in d.children;
  }

  /** Pruning keeps the names of siblings distinct. */
  lemma {:induction false} PruningKeepsUniqueNames(d: Dir)
    requires UniqueNames(d)
    ensures UniqueNames(Pruned(d))
  {
    PrunedAllUnique(d, |d.children|);
    forall c | c in Pruned(d).children ensures UniqueNames(c) {
      PrunedHasOnlyContent(d, c);
      var k :| k in d.children && HasContent(k) && c == Pruned(k);
      PruningKeepsUniqueNames(k);
    }
  }

  lemma AppendDistinct(s: seq<Dir>, c: Dir)
    requires DistinctNames(s) && forall i :: 0 <= i < |s| ==> s[i].name != c.name
    ensures DistinctNames(s + [c])
  {
  }

  lemma {:induction false} PrunedAllUnique(d: Dir, n: nat)
    requires UniqueNames(d) && n <= |d.children|
    ensures DistinctNames(PrunedAll(d, n))
  {
    hide HasContent, IsEmpty, Pruned;
    if n > 0 {
      PrunedAllUnique(d, n - 1);
      var s := PrunedAll(d, n - 1);
      var c := d.children[n - 1];
      forall i | 0 <= i < |s| ensures s[i].name != c.name {
        PrunedAllHolds(d, n - 1, s[i]);
        var k :| 0 <= k < n - 1 && HasContent(d.children[k]) && s[i] == Pruned(d.children[k]);
      }
      AppendDistinct(s, Pruned(c));
    }
  }

  /** Nothing is left to prune after pruning. */
  lemma {:induction false} PrunedTwice(d: Dir)
    ensures Pruned(Pruned(d)) == Pruned(d)
    decreases d
  {
    var p := Pruned(d);
    PrunedTwiceAll(d, |p.children|);
    assert p.children[..|p.children|] == p.children;
  }

  lemma {:induction false} PrunedTwiceAll(d: Dir, n: nat)
    requires n <= |Pruned(d).children|
    ensures PrunedAll(Pruned(d), n) == Pruned(d).children[..n]
    decreases d, 0, n
  {
    if n > 0 {
      var p := Pruned(d);
      PrunedTwiceAll(d, n - 1);
      var c := p.children[n - 1];
      PrunedHasOnlyContent(d, c);
      var k :| k in d.children && HasContent(k) && c == Pruned(k);
      PrunedTwice(k);
      EmptyExactlyWithoutContent(k);
      assert p.children[..n] == p.children[..n - 1] + [c];
    }
  }

  // ---- lookups ----

  /** Among the children from index `i` the one at `k` is the first of this name. */
  predicate IsFirst(s: seq<Dir>, name: string, i: nat, k: nat)
    requires k < |s|
  {
    s[k].name == name && forall j :: i <= j < k ==> s[j].name != name
  }

  /** `directory_get_child()`: the first child of this name among those from index `i`. */
  function FindChild(s: seq<Dir>, name: string, i: nat): (r: Option<Dir>)
    requires i <= |s|
    ensures r.Some? ==> r.value in s && exists k :: i <= k < |s| && s[k] == r.value && IsFirst(s, name, i, k)
    ensures r.None? ==> forall j :: i <= j < |s| ==> s[j].name != name
    decreases |s| - i
  {
    if i == |s| then None else if s[i].name == name then Some(s[i]) else FindChild(s, name, i + 1)
  }

  function GetChild(d: Dir, name: string): (r: Option<Dir>) {
    FindChild(d.children, name, 0)
  }

  /** `strchr(s, '/')`: the index of the first slash, or the length. */
  function SlashAt(s: string): (i: nat)
    ensures i <= |s| && (i < |s| ==> s[i] == '/')
    ensures '/' !in s[..i]
  {
    if s == "" || s[0] == '/' then 0 else 1 + SlashAt(s[1..])
  }

  /** The loop of `directory_lookup_directory()`. */
  function Walk(d: Dir, path: string): Option<Dir>
    decreases |path|
  {
    var i := SlashAt(path);
    if i < |path| && i == 0 then None
    else
      match GetChild(d, path[..i])
      case None => None
      case Some(c) => if i == |path| then Some(c) else Walk(c, path[i + 1..])
  }

  /** `isRootDirectory()` */
  predicate IsRoot(uri: string) {
    uri == "" || uri == "/"
  }

  /** `directory_lookup_directory()` */
  function LookupDirectory(d: Dir, uri: string): Option<Dir> {
    if IsRoot(uri) then Some(d) else Walk(d, uri)
  }

  method FindDirectory(d: Dir, uri: string) returns (r: Option<Dir>)
    ensures r == LookupDirectory(d, uri)
  {
    if IsRoot(uri) {
      return Some(d);
    }
    var name, directory := uri, d;
    while true
      invariant Walk(directory, name) == Walk(d, uri)
      decreases |name|
    {
      var slash := SlashAt(name);
      if slash < |name| && slash == 0 {
        return None;
      }
      var child := GetChild(directory, name[..slash]);
      if child.None? || slash == |name| {
        return child;
      }
      directory := child.value;
      name := name[slash + 1..];
    }
  }

  predicate IsFirstSong(s: seq<Song>, name: string, k: nat)
    requires k < |s|
  {
    s[k].name == name && forall j :: 0 <= j < k ==> s[j].name != name
  }

  /** `directory_get_song()` */
  function FindSong(s: seq<Song>, name: string): (r: Option<Song>)
    ensures r.Some? ==> exists k :: 0 <= k < |s| && r.value == s[k] && IsFirstSong(s, name, k)
    ensures r.None? ==> forall j :: 0 <= j < |s| ==> s[j].name != name
  {
    if s == [] then None else if s[0].name == name then Some(s[0]) else FindSong(s[1..], name)
  }

  /** `strrchr(s, '/')`: one more than the index of the last slash, or 0. */
  function AfterLastSlash(s: string): (i: nat)
    ensures i <= |s| && '/' !in s[i..] && (i > 0 ==> s[i - 1] == '/')
  {
    if s == "" then 0 else if s[|s| - 1] == '/' then |s| else AfterLastSlash(s[..|s| - 1])
  }

  /** `directory_lookup_song()` */
  function LookupSong(d: Dir, uri: string): Option<Song> {
    var i := AfterLastSlash(uri);
    if i == 0 then FindSong(d.songs, uri)
    else
      match LookupDirectory(d, uri[..i - 1])
      case None => None
      case Some(k) => FindSong(k.songs, uri[i..])
  }

  // ---- what a lookup finds ----

  predicate IsName(s: string) {
    s != "" && '/' !in s
  }

  /** The names of directories, from the root down, separated by slashes. */
  function Joined(names: seq<string>): string
    requires names != []
  {
    if |names| == 1 then names[0] else names[0] + "/" + Joined(names[1..])
  }

  /** The URI of the song `name` in the directory that these names lead to. */
  function UriOf(names: seq<string>, name: string): string {
    if names == [] then name else Joined(names) + "/" + name
  }

  /** From `d` the names lead to directory `k`, by the first child of each name. */
  ghost predicate LeadTo(d: Dir, names: seq<string>, k: Dir) {
    if names == [] then k == d
    else exists i :: 0 <= i < |d.children| && IsFirst(d.children, names[0], 0, i)
                     && LeadTo(d.children[i], names[1..], k)
  }

  /** The song is the first of this name in the directory that the names lead to. */
  ghost predicate Denotes(d: Dir, names: seq<string>, name: string, song: Song) {
    exists k, i :: LeadTo(d, names, k) && 0 <= i < |k.songs| && IsFirstSong(k.songs, name, i) && song == k.songs[i]
  }

  lemma {:induction false} SlashAfter(s: string, rest: string)
    requires '/' !in s
    ensures SlashAt(s + "/" + rest) == |s| && SlashAt(s) == |s|
  {
    if s != "" {
      assert (s + "/" + rest)[1..] == s[1..] + "/" + rest;
      SlashAfter(s[1..], rest);
    }
  }

  lemma {:induction false} WalkFinds(d: Dir, names: seq<string>, k: Dir)
    requires names != [] && forall i :: 0 <= i < |names| ==> IsName(names[i])
    ensures Walk(d, Joined(names)) == Some(k) <==> LeadTo(d, names, k)
    decreases |names|
  {
    var path, name, more := Joined(names), names[0], names[1..];
    var c := GetChild(d, name);
    if more == [] {
      SlashAfter(name, "");
      assert path[..|path|] == path;
      OneName(d, name, k);
      assert names == [name];
    } else {
      SlashAfter(name, Joined(more));
      assert path[..|name|] == name && path[|name| + 1..] == Joined(more);
      if c.Some? {
        WalkFinds(c.value, more, k);
      }
    }
  }

  lemma OneName(d: Dir, name: string, k: Dir)
    ensures GetChild(d, name) == Some(k) <==> LeadTo(d, [name], k)
  {
    assert [name][1..] == [];
  }

  lemma {:induction false} LastSlash(s: string, name: string)
    requires '/' !in name
    ensures AfterLastSlash(s + "/" + name) == |s| + 1 && AfterLastSlash(name) == 0
    decreases |name|
  {
    var all := s + "/" + name;
    if name == "" {
      assert all[|all| - 1] == '/';
    } else {
      var n := |name| - 1;
      assert all[..|all| - 1] == s + "/" + name[..n] && all[|all| - 1] == name[n];
      LastSlash(s, name[..n]);
    }
  }

  /** Looking up a URI finds exactly the song that it denotes. */
  lemma LookupFinds(d: Dir, names: seq<string>, name: string, song: Song)
    requires '/' !in name && forall i :: 0 <= i < |names| ==> IsName(names[i])
    ensures LookupSong(d, UriOf(names, name)) == Some(song) <==> Denotes(d, names, name, song)
  {
    hide Denotes, LeadTo, Walk, AfterLastSlash, SlashAt, FindSong, Joined, IsFirst, IsFirstSong;
    var uri := UriOf(names, name);
    if names == [] {
      LastSlash("", name);
      AtRoot(d);
      SongFound(d, names, d, name, song);
    } else {
      var path := Joined(names);
      LastSlash(path, name);
      assert uri[..|path|] == path && uri[|path| + 1..] == name;
      JoinedIsNoRoot(names);
      DirectoryFound(d, names, name, song);
    }
  }

  lemma AtRoot(d: Dir)
    ensures LeadTo(d, [], d)
  {
  }

  lemma DirectoryFound(d: Dir, names: seq<string>, name: string, song: Song)
    requires names != [] && forall i :: 0 <= i < |names| ==> IsName(names[i])
    ensures var k := Walk(d, Joined(names));
            k.Some? && FindSong(k.value.songs, name) == Some(song) <==> Denotes(d, names, name, song)
  {
    hide LeadTo, Walk, FindSong, Joined, IsFirst;
    match Walk(d, Joined(names))
    case None =>
      forall k ensures !LeadTo(d, names, k) { WalkFinds(d, names, k); }
    case Some(k) =>
      WalkFinds(d, names, k);
      SongFound(d, names, k, name, song);
  }

  lemma JoinedIsNoRoot(names: seq<string>)
    requires names != [] && IsName(names[0])
    ensures !IsRoot(Joined(names))
  {
    assert Joined(names)[0] == names[0][0];
  }

  lemma SongFound(d: Dir, names: seq<string>, k: Dir, name: string, song: Song)
    requires LeadTo(d, names, k)
    ensures FindSong(k.songs, name) == Some(song) <==> Denotes(d, names, name, song)
  {
    forall k' | LeadTo(d, names, k') ensures k' == k { LeadToUnique(d, names, k, k'); }
  }

  lemma {:induction false} LeadToUnique(d: Dir, names: seq<string>, k: Dir, k': Dir)
    requires LeadTo(d, names, k) && LeadTo(d, names, k')
    ensures k == k'
    decreases |names|
  {
    if names != [] {
      var i :| 0 <= i < |d.children| && IsFirst(d.children, names[0], 0, i) && LeadTo(d.children[i], names[1..], k);
      var j :| 0 <= j < |d.children| && IsFirst(d.children, names[0], 0, j) && LeadTo(d.children[j], names[1..], k');
      assert i == j;
      LeadToUnique(d.children[i], names[1..], k, k');
    }
  }

  /** One or two slashes before the name of a song denote the root directory. */
  lemma LeadingSlashes(d: Dir, name: string)
    requires '/' !in name
    ensures LookupSong(d, "/" + name) == LookupSong(d, name) == LookupSong(d, "//" + name)
  {
    LastSlash("", name);
    LastSlash("/", name);
    assert "" + "/" + name == "/" + name && "/" + "/" + name == "//" + name;
    assert ("/" + name)[1..] == name && ("//" + name)[2..] == name && ("//" + name)[..1] == "/";
  }

  // ---- pruning and lookups ----

  lemma ContentOfChild(d: Dir, c: Dir)
    requires c in d.children && !HasContent(d)
    ensures !HasContent(c)
  {
  }

  /** Nothing in a subtree without content has content. */
  lemma {:induction false} WalkWithoutContent(d: Dir, path: string)
    requires !HasContent(d)
    ensures Walk(d, path).Some? ==> !HasContent(Walk(d, path).value)
    decreases |path|
  {
    var i := SlashAt(path);
    if !(i < |path| && i == 0) {
      var c := GetChild(d, path[..i]);
      if c.Some? {
        ContentOfChild(d, c.value);
        if i < |path| { WalkWithoutContent(c.value, path[i + 1..]); }
      }
    }
  }

  /** After pruning, a child is found exactly if it has content, and it is the pruned child. */
  ghost predicate PrunedMatch(before: Option<Dir>, after: Option<Dir>) {
    after == if before.Some? && HasContent(before.value) then Some(Pruned(before.value)) else None
  }

  lemma {:induction false} PrunedChild(d: Dir, name: string)
    requires UniqueNames(d)
    ensures PrunedMatch(GetChild(d, name), GetChild(Pruned(d), name))
  {
    var before, after := GetChild(d, name), GetChild(Pruned(d), name);
    if after.Some? {
      PrunedHasOnlyContent(d, after.value);
      var k :| k in d.children && HasContent(k) && after.value == Pruned(k);
      SameNameSameChild(d, k, before.value);
    } else if before.Some? && HasContent(before.value) {
      PrunedAllHolds(d, |d.children|, Pruned(before.value));
    }
  }

  lemma SameNameSameChild(d: Dir, a: Dir, b: Dir)
    requires UniqueNames(d) && a in d.children && b in d.children && a.name == b.name
    ensures a == b
  {
  }

  lemma {:induction false} PrunedWalk(d: Dir, path: string)
    requires UniqueNames(d)
    ensures PrunedMatch(Walk(d, path), Walk(Pruned(d), path))
    decreases |path|
  {
    var i := SlashAt(path);
    if !(i < |path| && i == 0) {
      PrunedChild(d, path[..i]);
      var c := GetChild(d, path[..i]);
      if c.Some? && i < |path| {
        if HasContent(c.value) {
          PrunedWalk(c.value, path[i + 1..]);
        } else {
          WalkWithoutContent(c.value, path[i + 1..]);
        }
      }
    }
  }

  lemma NoSongs(d: Dir, name: string)
    requires !HasContent(d)
    ensures FindSong(d.songs, name) == None
  {
  }

  /** Looking up any song gives the same answer before and after pruning. */
  lemma PruningKeepsSongs(d: Dir, uri: string)
    requires UniqueNames(d)
    ensures LookupSong(Pruned(d), uri) == LookupSong(d, uri)
  {
    var i := AfterLastSlash(uri);
    if i > 0 && !IsRoot(uri[..i - 1]) {
      PrunedWalk(d, uri[..i - 1]);
      var k := Walk(d, uri[..i - 1]);
      if k.Some? && !HasContent(k.value) {
        NoSongs(k.value, uri[i..]);
      }
    }
  }

  /** Every URI denotes the same song before and after pruning. */
  lemma PruningKeepsMeaning(d: Dir, names: seq<string>, name: string, song: Song)
    requires UniqueNames(d) && '/' !in name && forall i :: 0 <= i < |names| ==> IsName(names[i])
    ensures Denotes(Pruned(d), names, name, song) <==> Denotes(d, names, name, song)
  {
    hide UniqueNames, Denotes, LookupSong, Pruned, UriOf;
    LookupFinds(d, names, name, song);
    LookupFinds(Pruned(d), names, name, song);
    PruningKeepsSongs(d, UriOf(names, name));
  }

  /** With two siblings of the same name, pruning can change the answer. */
  lemma DuplicateNames()
    ensures var song := Song("s", 1);
            var root := Dir("", [Dir("a", [], [], 0), Dir("a", [], [song], 0)], [], 0);
            LookupSong(root, "a/s") == None && LookupSong(Pruned(root), "a/s") == Some(song)
  {
    var song := Song("s", 1);
    var full := Dir("a", [], [song], 0);
    var bare := Dir("a", [], [], 0);
    var root := Dir("", [bare, full], [], 0);
    assert Pruned(bare) == bare && Pruned(full) == full;
    assert PrunedAll(root, 0) == [] && PrunedAll(root, 1) == [] && PrunedAll(root, 2) == [full];
    assert Pruned(root) == Dir("", [full], [], 0);
    var uri := "a/s";
    assert uri[..2][1] == '/' && AfterLastSlash(uri[..2]) == 2 && AfterLastSlash(uri) == 2;
    assert uri[..1] == "a" && uri[2..] == "s";
    assert SlashAt("a") == 1 && "a"[..1] == "a";
  }
}

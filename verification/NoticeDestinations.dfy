/** Collision-free destinations: the check before the notices are written, and the writing itself.

    A destination is its non-empty list of segments, the split of its text at each slash. `fold` is
    the case folding of a segment and `portable` the rule for a single segment. */
module NoticeDestinations {

  import opened Options

  type Path = p: seq<string> | p != [] witness [""]
  type Bytes = seq<int>

  function Folded(path: Path, fold: string -> string): (f: Path)
    ensures |f| == |path|
  {
    seq(|path|, i requires 0 <= i < |path| => fold(path[i]))
  }

  /** The folders above a path. */
  function Above(path: seq<string>): set<seq<string>> {
    set depth | 0 < depth < |path| :: path[..depth]
  }

  predicate AllPortable(path: Path, portable: string -> bool) {
    forall part | part in path :: portable(part)
  }

  // ------------------------------------------------------------------- the check

  /** No two destinations are equal ignoring case. */
  ghost predicate Unique(paths: seq<Path>, fold: string -> string) {
    forall i, j | 0 <= i < j < |paths| :: Folded(paths[i], fold) != Folded(paths[j], fold)
  }

  /** None is a folder of another. */
  ghost predicate NoneAbove(paths: seq<Path>, fold: string -> string) {
    forall i, j | 0 <= i < |paths| && 0 <= j < |paths| :: Folded(paths[i], fold) !in Above(Folded(paths[j], fold))
  }

  method CheckDestinations(paths: seq<Path>, fold: string -> string, portable: string -> bool) returns (ok: bool)
    ensures ok <==> && (forall p | p in paths :: AllPortable(p, portable))
                    && Unique(paths, fold) && NoneAbove(paths, fold)
  {
    hide Folded, Above, AllPortable;
    var folded: set<Path> := {};
    for i := 0 to |paths|
      invariant forall f :: f in folded <==> exists k :: 0 <= k < i && Folded(paths[k], fold) == f
      invariant forall k | 0 <= k < i :: AllPortable(paths[k], portable)
      invariant forall j, k | 0 <= j < k < i :: Folded(paths[j], fold) != Folded(paths[k], fold)
    {
      if !AllPortable(paths[i], portable) {
        return false;
      }
      if Folded(paths[i], fold) in folded {
        return false;
      }
      folded := folded + {Folded(paths[i], fold)};
    }
    var prefixes := set p, above | p in paths && above in Above(Folded(p, fold)) :: above;
    ClashMeans(paths, fold, folded, prefixes);
    ok := forall f | f in folded :: f !in prefixes;
  }

  lemma ClashMeans(paths: seq<Path>, fold: string -> string, folded: set<Path>, prefixes: set<seq<string>>)
    requires forall f :: f in folded <==> exists k :: 0 <= k < |paths| && Folded(paths[k], fold) == f
    requires forall f :: f in prefixes <==> exists p :: p in paths && f in Above(Folded(p, fold))
    ensures NoneAbove(paths, fold) <==> forall f | f in folded :: f !in prefixes
  {
    hide Folded, Above;
    if NoneAbove(paths, fold) {
      forall f | f in folded ensures f !in prefixes {
        var k :| 0 <= k < |paths| && Folded(paths[k], fold) == f;
        forall p | p in paths ensures f !in Above(Folded(p, fold)) {
          var j :| 0 <= j < |paths| && paths[j] == p;
          assert Folded(paths[k], fold) !in Above(Folded(paths[j], fold));
        }
      }
    } else {
      var i, j :| 0 <= i < |paths| && 0 <= j < |paths| && Folded(paths[i], fold) in Above(Folded(paths[j], fold));
      assert paths[j] in paths && Folded(paths[i], fold) in folded;
    }
  }

  // ----------------------------------------------------------------- the writing

  /** A case-insensitive tree: its entries are named by their folded paths. */
  datatype Tree = Tree(files: map<seq<string>, Bytes>, folders: set<seq<string>>)

  datatype Item = Item(path: Path, data: Bytes)

  const EMPTY: Tree := Tree(map[], {})

  /** Creates the folders above, then the file exclusively. A file standing where a folder must be,
      or anything standing where the file must be, makes it fail. */
  function WriteNew(tree: Tree, key: Path, data: Bytes): Option<Tree> {
    if exists above | above in Above(key) :: above in tree.files then None
    else if key in tree.files || key in tree.folders then None
    else Some(Tree(tree.files[key := data], tree.folders + Above(key)))
  }

  function WriteAll(tree: Tree, items: seq<Item>, fold: string -> string): Option<Tree>
    decreases |items|
  {
    if items == [] then Some(tree)
    else
      var next := WriteNew(tree, Folded(items[0].path, fold), items[0].data);
      if next.None? then None else WriteAll(next.value, items[1..], fold)
  }

  function Paths(items: seq<Item>): (paths: seq<Path>)
    ensures |paths| == |items|
  {
    seq(|items|, i requires 0 <= i < |items| => items[i].path)
  }

  /** The tree holds exactly these files with their bytes, and the folders above them. */
  ghost predicate HoldsExactly(tree: Tree, items: seq<Item>, fold: string -> string) {
    && (forall i | 0 <= i < |items| ::
          var key := Folded(items[i].path, fold); key in tree.files && tree.files[key] == items[i].data)
    && (forall key | key in tree.files :: exists i :: 0 <= i < |items| && Folded(items[i].path, fold) == key)
    && (forall d :: d in tree.folders <==> exists i :: 0 <= i < |items| && d in Above(Folded(items[i].path, fold)))
  }

  /** Two destinations that cannot both exist. */
  ghost predicate Conflict(a: Path, b: Path, fold: string -> string) {
    var f, g := Folded(a, fold), Folded(b, fold);
    f == g || f in Above(g) || g in Above(f)
  }

  ghost predicate Harmless(paths: seq<Path>, fold: string -> string) {
    forall i, j | 0 <= i < j < |paths| :: !Conflict(paths[i], paths[j], fold)
  }

  lemma HarmlessIsTheCheck(paths: seq<Path>, fold: string -> string)
    ensures Harmless(paths, fold) <==> Unique(paths, fold) && NoneAbove(paths, fold)
  {
    if Unique(paths, fold) && NoneAbove(paths, fold) {
      assert Harmless(paths, fold);
    }
    if Harmless(paths, fold) {
      forall i, j | 0 <= i < |paths| && 0 <= j < |paths|
        ensures Folded(paths[i], fold) !in Above(Folded(paths[j], fold))
      {
        if i < j {
          assert !Conflict(paths[i], paths[j], fold);
        } else if j < i {
          assert !Conflict(paths[j], paths[i], fold);
        }
      }
      forall i, j | 0 <= i < j < |paths| ensures Folded(paths[i], fold) != Folded(paths[j], fold) {
        assert !Conflict(paths[i], paths[j], fold);
      }
    }
  }

  /** Writing one more file works exactly if it conflicts with none of those already there. */
  lemma WriteNewWorks(tree: Tree, items: seq<Item>, item: Item, fold: string -> string)
    requires HoldsExactly(tree, items, fold)
    ensures var next := WriteNew(tree, Folded(item.path, fold), item.data);
            && (next.Some? <==> forall i | 0 <= i < |items| :: !Conflict(items[i].path, item.path, fold))
            && (next.Some? ==> HoldsExactly(next.value, items + [item], fold))
  {
    var key := Folded(item.path, fold);
    var next := WriteNew(tree, key, item.data);
    if next.Some? {
      WriteNewHolds(tree, items, item, fold);
      forall i | 0 <= i < |items| ensures !Conflict(items[i].path, item.path, fold) {
        assert Folded(items[i].path, fold) in tree.files;
      }
    } else if above :| above in Above(key) && above in tree.files {
      var i :| 0 <= i < |items| && Folded(items[i].path, fold) == above;
      assert Conflict(items[i].path, item.path, fold);
    } else if key in tree.files {
      var i :| 0 <= i < |items| && Folded(items[i].path, fold) == key;
      assert Conflict(items[i].path, item.path, fold);
    } else {
      var i :| 0 <= i < |items| && key in Above(Folded(items[i].path, fold));
      assert Conflict(items[i].path, item.path, fold);
    }
  }

  lemma WriteNewHolds(tree: Tree, items: seq<Item>, item: Item, fold: string -> string)
    requires HoldsExactly(tree, items, fold) && WriteNew(tree, Folded(item.path, fold), item.data).Some?
    ensures HoldsExactly(WriteNew(tree, Folded(item.path, fold), item.data).value, items + [item], fold)
  {
    var key := Folded(item.path, fold);
    var next := WriteNew(tree, key, item.data).value;
    var more := items + [item];
    assert more[|items|] == item;
    forall k | k in next.files ensures exists i :: 0 <= i < |more| && Folded(more[i].path, fold) == k {
      if k == key {
        assert Folded(more[|items|].path, fold) == k;
      } else {
        var i :| 0 <= i < |items| && Folded(items[i].path, fold) == k;
        assert more[i] == items[i];
      }
    }
    forall d ensures d in next.folders <==> exists i :: 0 <= i < |more| && d in Above(Folded(more[i].path, fold)) {
      if d in Above(key) {
        assert d in Above(Folded(more[|items|].path, fold));
      } else if d in tree.folders {
        var i :| 0 <= i < |items| && d in Above(Folded(items[i].path, fold));
        assert more[i] == items[i];
      }
    }
  }

  lemma {:induction false} WriteAllWorks(tree: Tree, before: seq<Item>, items: seq<Item>, fold: string -> string)
    requires HoldsExactly(tree, before, fold) && Harmless(Paths(before), fold)
    ensures var done := WriteAll(tree, items, fold);
            && (done.Some? <==> Harmless(Paths(before + items), fold))
            && (done.Some? ==> HoldsExactly(done.value, before + items, fold))
    decreases |items|
  {
    if items == [] {
      assert before + items == before;
    } else {
      var item := items[0];
      WriteNewWorks(tree, before, item, fold);
      var next := WriteNew(tree, Folded(item.path, fold), item.data);
      assert before + items == before + [item] + items[1..];
      HarmlessAppend(before, item, fold);
      if next.Some? {
        WriteAllWorks(next.value, before + [item], items[1..], fold);
      } else {
        HarmlessPrefix(before + [item], items[1..], fold);
      }
    }
  }

  lemma HarmlessAppend(before: seq<Item>, item: Item, fold: string -> string)
    requires Harmless(Paths(before), fold)
    ensures Harmless(Paths(before + [item]), fold)
            <==> forall i | 0 <= i < |before| :: !Conflict(before[i].path, item.path, fold)
  {
    var more := before + [item];
    assert forall i | 0 <= i < |before| :: Paths(more)[i] == Paths(before)[i];
    assert Paths(more)[|before|] == item.path;
    if Harmless(Paths(more), fold) {
      forall i | 0 <= i < |before| ensures !Conflict(before[i].path, item.path, fold) {
        assert !Conflict(Paths(more)[i], Paths(more)[|before|], fold);
      }
    }
  }

  lemma HarmlessPrefix(a: seq<Item>, b: seq<Item>, fold: string -> string)
    ensures Harmless(Paths(a + b), fold) ==> Harmless(Paths(a), fold)
  {
    assert forall i | 0 <= i < |a| :: Paths(a + b)[i] == Paths(a)[i];
  }

  /** The check accepts portable destinations exactly if creating every file exclusively in an empty
      case-insensitive tree succeeds, and then every file holds its bytes and nothing else exists. */
  lemma CheckedExactlyWritable(items: seq<Item>, fold: string -> string)
    ensures Unique(Paths(items), fold) && NoneAbove(Paths(items), fold) <==> WriteAll(EMPTY, items, fold).Some?
    ensures WriteAll(EMPTY, items, fold).Some? ==> HoldsExactly(WriteAll(EMPTY, items, fold).value, items, fold)
  {
    HarmlessIsTheCheck(Paths(items), fold);
    assert [] + items == items;
    WriteAllWorks(EMPTY, [], items, fold);
  }

  /** Whether two entries of a list conflict does not depend on their order. */
  lemma HarmlessMeans(items: seq<Item>, fold: string -> string)
    ensures Harmless(Paths(items), fold)
            <==> forall a: Item, b: Item | multiset{a, b} <= multiset(items) :: !Conflict(a.path, b.path, fold)
  {
    if Harmless(Paths(items), fold) {
      forall a: Item, b: Item | multiset{a, b} <= multiset(items) ensures !Conflict(a.path, b.path, fold) {
        var i, j := TwoPlaces(items, a, b);
        assert !Conflict(Paths(items)[if i < j then i else j], Paths(items)[if i < j then j else i], fold);
      }
    }
    if forall a: Item, b: Item | multiset{a, b} <= multiset(items) :: !Conflict(a.path, b.path, fold) {
      forall i, j | 0 <= i < j < |items| ensures !Conflict(Paths(items)[i], Paths(items)[j], fold) {
        TwoOccurrences(items, i, j);
        assert multiset{items[i], items[j]} <= multiset(items);
      }
    }
  }

  lemma TwoOccurrences(items: seq<Item>, i: nat, j: nat)
    requires i < j < |items|
    ensures multiset{items[i], items[j]} <= multiset(items)
  {
    assert items == items[..i] + [items[i]] + items[i + 1..j] + [items[j]] + items[j + 1..];
  }

  lemma TwoPlaces(items: seq<Item>, a: Item, b: Item) returns (i: nat, j: nat)
    requires multiset{a, b} <= multiset(items)
    ensures i < |items| && j < |items| && i != j && items[i] == a && items[j] == b
  {
    assert a in multiset(items);
    i :| i < |items| && items[i] == a;
    var rest := items[..i] + items[i + 1..];
    assert items == items[..i] + [a] + items[i + 1..];
    assert multiset(items) == multiset(rest) + multiset{a};
    assert b in multiset(rest);
    var k :| 0 <= k < |rest| && rest[k] == b;
    j := if k < i then k else k + 1;
  }

  /** What a tree holds is settled by its items, not by their order. */
  lemma HeldOnce(t: Tree, u: Tree, items: seq<Item>, shuffled: seq<Item>, fold: string -> string)
    requires HoldsExactly(t, items, fold) && HoldsExactly(u, shuffled, fold)
    requires multiset(shuffled) == multiset(items)
    ensures t == u
  {
    HeldWithin(t, u, items, shuffled, fold);
    HeldWithin(u, t, shuffled, items, fold);
    assert t.files == u.files && t.folders == u.folders;
  }

  lemma HeldWithin(t: Tree, u: Tree, items: seq<Item>, shuffled: seq<Item>, fold: string -> string)
    requires HoldsExactly(t, items, fold) && HoldsExactly(u, shuffled, fold)
    requires multiset(items) == multiset(shuffled)
    ensures forall key | key in t.files :: key in u.files && u.files[key] == t.files[key]
    ensures t.folders <= u.folders
  {
    hide Folded, Above;
    forall key | key in t.files ensures key in u.files && u.files[key] == t.files[key] {
      var i :| 0 <= i < |items| && Folded(items[i].path, fold) == key;
      var j := Elsewhere(items, shuffled, i);
    }
    forall d | d in t.folders ensures d in u.folders {
      var i :| 0 <= i < |items| && d in Above(Folded(items[i].path, fold));
      var j := Elsewhere(items, shuffled, i);
    }
  }

  lemma Elsewhere(items: seq<Item>, shuffled: seq<Item>, i: nat) returns (j: nat)
    requires multiset(items) == multiset(shuffled) && i < |items|
    ensures j < |shuffled| && shuffled[j] == items[i]
  {
    assert items[i] in multiset(shuffled);
    j :| j < |shuffled| && shuffled[j] == items[i];
  }

  /** The writing succeeds in every order or in none, and every order leaves the same tree. */
  lemma AnyOrderWorks(items: seq<Item>, shuffled: seq<Item>, fold: string -> string)
    requires multiset(shuffled) == multiset(items)
    ensures WriteAll(EMPTY, shuffled, fold) == WriteAll(EMPTY, items, fold)
  {
    assert [] + items == items && [] + shuffled == shuffled;
    WriteAllWorks(EMPTY, [], items, fold);
    WriteAllWorks(EMPTY, [], shuffled, fold);
    HarmlessMeans(items, fold);
    HarmlessMeans(shuffled, fold);
    var done, other := WriteAll(EMPTY, items, fold), WriteAll(EMPTY, shuffled, fold);
    if done.Some? {
      HeldOnce(done.value, other.value, items, shuffled, fold);
    }
  }

  // --------------------------------------------------------- another case folding

  ghost predicate Passes(paths: seq<Path>, fold: string -> string) {
    Unique(paths, fold) && NoneAbove(paths, fold)
  }

  /** `tree` identifies only names that `check` identifies. */
  ghost predicate NoCoarser(tree: string -> string, check: string -> string) {
    forall a, b | tree(a) == tree(b) :: check(a) == check(b)
  }

  lemma ConflictCarries(a: Path, b: Path, tree: string -> string, check: string -> string)
    requires NoCoarser(tree, check) && Conflict(a, b, tree)
    ensures Conflict(a, b, check)
  {
    var f, g := Folded(a, tree), Folded(b, tree);
    if f == g {
      SameFolded(a, b, tree, check);
    } else if f in Above(g) {
      PrefixFolded(b, |a|, tree, check);
      SameFolded(a, b[..|a|], tree, check);
    } else {
      PrefixFolded(a, |b|, tree, check);
      SameFolded(b, a[..|b|], tree, check);
    }
  }

  lemma SameFolded(a: Path, b: Path, tree: string -> string, check: string -> string)
    requires NoCoarser(tree, check) && Folded(a, tree) == Folded(b, tree)
    ensures Folded(a, check) == Folded(b, check)
  {
    assert forall i | 0 <= i < |a| :: Folded(a, tree)[i] == tree(a[i]) && Folded(b, tree)[i] == tree(b[i]);
  }

  lemma PrefixFolded(b: Path, n: nat, tree: string -> string, check: string -> string)
    requires 0 < n < |b|
    ensures Folded(b[..n], tree) == Folded(b, tree)[..n] && Folded(b[..n], check) == Folded(b, check)[..n]
    ensures Folded(b[..n], check) in Above(Folded(b, check))
  {}

  /** The file system has its own idea of which names are the same. The check with one folding
      guarantees the writing under another exactly if that one identifies no more names. */
  lemma SoundForExactly(check: string -> string, tree: string -> string)
    ensures (forall items: seq<Item> | Passes(Paths(items), check) :: WriteAll(EMPTY, items, tree).Some?)
            <==> NoCoarser(tree, check)
  {
    if NoCoarser(tree, check) {
      forall items: seq<Item> | Passes(Paths(items), check) ensures WriteAll(EMPTY, items, tree).Some? {
        HarmlessIsTheCheck(Paths(items), check);
        forall i, j | 0 <= i < j < |items| ensures !Conflict(Paths(items)[i], Paths(items)[j], tree) {
          if Conflict(Paths(items)[i], Paths(items)[j], tree) {
            ConflictCarries(Paths(items)[i], Paths(items)[j], tree, check);
          }
        }
        HarmlessIsTheCheck(Paths(items), tree);
        CheckedExactlyWritable(items, tree);
      }
    } else {
      var a, b :| tree(a) == tree(b) && check(a) != check(b);
      var items := [Item([a], []), Item([b], [])];
      assert Folded([a], check)[0] != Folded([b], check)[0];
      assert Paths(items) == [[a], [b]];
      assert Passes(Paths(items), check);
      assert Folded(Paths(items)[0], tree) == Folded(Paths(items)[1], tree);
      CheckedExactlyWritable(items, tree);
    }
  }
}

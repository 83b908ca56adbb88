/** Which third-party components the desktop notices must cover: for npm what the root dependencies of the
    lock reach, for Rust what the desktop crate reaches by normal edges.

    An npm dependency is looked up in the `node_modules` folder of the entry that names it, then in those
    of the folders above. Both closures are worklists over a graph; what they return is the least set of
    `Reachability` that holds the roots and is closed under edges, or an error exactly when something in
    that set is missing or must not be shipped. */
module DesktopNotices {

  import opened Options
  import opened Reachability

  datatype Result<T> = Ok(value: T) | NoticeError

  // ------------------------------------------------------------- npm resolution

  const NODE_MODULES: string := "/node_modules/"

  datatype Entry = Entry(dependencies: seq<string>, optionalDependencies: seq<string>,
                         peerDependencies: seq<Peer>, dev: bool)
  datatype Peer = Peer(name: string, optional: bool)

  type Packages = map<string, Entry>

  predicate OccursAt(text: string, sep: string, i: int) {
    0 <= i <= |text| - |sep| && text[i..i + |sep|] == sep
  }

  predicate Contains(text: string, sep: string) {
    exists i | 0 <= i < |text| :: OccursAt(text, sep, i)
  }

  /** Everything before the last occurrence of `sep`, as `rsplit(sep, 1)[0]`; the search goes down
      from `i`. */
  function BeforeLast(text: string, sep: string, i: int): (before: string)
    requires i < |text| && exists k :: k <= i && OccursAt(text, sep, k)
    ensures |before| < |text|
    decreases i
  {
    if OccursAt(text, sep, i) then text[..i] else BeforeLast(text, sep, i - 1)
  }

  function Parent(base: string): (parent: string)
    requires base != ""
    ensures |parent| < |base|
  {
    if Contains(base, NODE_MODULES) then BeforeLast(base, NODE_MODULES, |base| - 1) else ""
  }

  function Candidate(base: string, name: string): string {
    if base != "" then base + NODE_MODULES + name else NODE_MODULES[1..] + name
  }

  /** A package lies in the folder it was looked up in: the folder above it is that one. */
  lemma CandidateLiesInItsFolder(base: string, name: string)
    requires forall k | 0 < k :: !OccursAt(NODE_MODULES + name, NODE_MODULES, k)
    ensures base == "" ==> Candidate(base, name)[0] != '/'
    ensures Parent(Candidate(base, name)) == base
  {
    var path, tail := Candidate(base, name), NODE_MODULES + name;
    if base == "" {
      forall k | 0 <= k < |path| ensures !OccursAt(path, NODE_MODULES, k) {
        assert path == tail[1..];
        OccursLater(tail, 1, k);
      }
    } else {
      assert path == base + tail && path[|base|..] == tail;
      assert path[|base|..|base| + |NODE_MODULES|] == NODE_MODULES;
      forall k | |base| < k ensures !OccursAt(path, NODE_MODULES, k) {
        OccursLater(path, |base|, k - |base|);
      }
      assert OccursAt(path, NODE_MODULES, |base|) && Contains(path, NODE_MODULES);
      LastBefore(path, |path| - 1, |base|);
      assert path[..|base|] == base;
    }
  }

  lemma OccursLater(text: string, d: nat, k: nat)
    requires d <= |text|
    ensures OccursAt(text[d..], NODE_MODULES, k) <==> OccursAt(text, NODE_MODULES, d + k)
  {
    if d + k + |NODE_MODULES| <= |text| {
      assert text[d..][k..k + |NODE_MODULES|] == text[d + k..d + k + |NODE_MODULES|];
    }
  }

  lemma {:induction false} LastBefore(text: string, i: int, last: nat)
    requires last <= i < |text| && OccursAt(text, NODE_MODULES, last)
    requires forall k | last < k :: !OccursAt(text, NODE_MODULES, k)
    ensures BeforeLast(text, NODE_MODULES, i) == text[..last]
    decreases i
  {
    if i > last {
      LastBefore(text, i - 1, last);
    }
  }

  /** The folders a dependency of `owner` is looked up in, nearest first. */
  function Bases(owner: string): seq<string>
    decreases |owner|
  {
    [owner] + if owner == "" then [] else Bases(Parent(owner))
  }

  function Resolved(packages: Packages, owner: string, name: string): Option<string>
    decreases |owner|
  {
    if Candidate(owner, name) in packages then Some(Candidate(owner, name))
    else if owner == "" then None
    else Resolved(packages, Parent(owner), name)
  }

  method Resolve(packages: Packages, owner: string, name: string) returns (key: Option<string>)
    ensures key == Resolved(packages, owner, name)
  {
    var base := owner;
    while true
      invariant Resolved(packages, base, name) == Resolved(packages, owner, name)
      decreases |base|
    {
      if Candidate(base, name) in packages {
        return Some(Candidate(base, name));
      }
      if base == "" {
        return None;
      }
      base := Parent(base);
    }
  }

  /** A dependency resolves to the nearest folder that has it, and not at all exactly if none does. */
  lemma {:induction false} ResolvesToTheNearest(packages: Packages, owner: string, name: string)
    ensures var key := Resolved(packages, owner, name); var bases := Bases(owner);
            && (key.None? <==> forall b | b in bases :: Candidate(b, name) !in packages)
            && (key.Some? ==> exists i ::
                  && 0 <= i < |bases| && key.value == Candidate(bases[i], name) && key.value in packages
                  && forall j | 0 <= j < i :: Candidate(bases[j], name) !in packages)
    decreases |owner|
  {
    hide Parent, Candidate;
    var bases := Bases(owner);
    if Candidate(owner, name) in packages {
      assert bases[0] == owner;
    } else if owner != "" {
      ResolvesToTheNearest(packages, Parent(owner), name);
      var rest := Bases(Parent(owner));
      assert bases == [owner] + rest;
      var key := Resolved(packages, owner, name);
      if key.Some? {
        var i :| 0 <= i < |rest| && key.value == Candidate(rest[i], name) && key.value in packages
                 && forall j | 0 <= j < i :: Candidate(rest[j], name) !in packages;
        assert bases[i + 1] == rest[i];
        assert forall j | 0 <= j < i + 1 :: bases[j] == if j == 0 then owner else rest[j - 1];
      }
    }
  }

  /** A cut of `owner`: the separator stands there, and no cut to the right takes its last slash. */
  predicate CutAt(owner: string, k: nat): (cut: bool)
    ensures cut ==> k + |NODE_MODULES| <= |owner|
    decreases |owner| - k
  {
    OccursAt(owner, NODE_MODULES, k) && !CutAt(owner, k + |NODE_MODULES| - 1)
  }

  /** Two occurrences of the separator share at most one slash. */
  lemma SharedSlash(text: string, k: nat, l: nat)
    requires OccursAt(text, NODE_MODULES, k) && OccursAt(text, NODE_MODULES, l)
    requires k < l < k + |NODE_MODULES|
    ensures l == k + |NODE_MODULES| - 1
  {
    var d := l - k;
    assert text[k..k + |NODE_MODULES|][d] == NODE_MODULES[d];
    assert text[l..l + |NODE_MODULES|][0] == '/';
  }

  lemma BeforeLastIsACut(owner: string, i: int)
    requires i < |owner| && exists k :: k <= i && OccursAt(owner, NODE_MODULES, k)
    requires forall k | i < k :: !OccursAt(owner, NODE_MODULES, k)
    ensures var last := |BeforeLast(owner, NODE_MODULES, i)|;
            && BeforeLast(owner, NODE_MODULES, i) == owner[..last] && OccursAt(owner, NODE_MODULES, last)
            && forall k | last < k :: !OccursAt(owner, NODE_MODULES, k)
    decreases i
  {
    if !OccursAt(owner, NODE_MODULES, i) {
      BeforeLastIsACut(owner, i - 1);
    }
  }

  /** The cuts of the part before the last cut are the remaining cuts. */
  lemma {:induction false} CutsBefore(owner: string, last: nat, k: nat)
    requires OccursAt(owner, NODE_MODULES, last) && forall l | last < l :: !OccursAt(owner, NODE_MODULES, l)
    ensures CutAt(owner, k) <==> k == last || (k < last && CutAt(owner[..last], k))
    decreases |owner| - k
  {
    var next := k + |NODE_MODULES| - 1;
    if k < last {
      CutsBefore(owner, last, next);
      if OccursAt(owner, NODE_MODULES, k) && last < k + |NODE_MODULES| {
        SharedSlash(owner, k, last);
      } else if k + |NODE_MODULES| <= last {
        assert owner[..last][k..k + |NODE_MODULES|] == owner[k..k + |NODE_MODULES|];
      }
    }
  }

  /** The folder of an entry that `owner` lies in: what stands before one of its cuts. */
  ghost predicate Encloses(owner: string, b: string) {
    exists k: nat :: CutAt(owner, k) && b == owner[..k]
  }

  lemma EnclosesParent(owner: string, b: string)
    requires owner != "" && Contains(owner, NODE_MODULES)
    ensures Encloses(owner, b) <==> b == Parent(owner) || Encloses(Parent(owner), b)
  {
    hide CutAt, OccursAt;
    var parent := Parent(owner);
    LastCut(owner);
    var last := |parent|;
    if k: nat :| CutAt(parent, k) && b == parent[..k] {
      CutsBefore(owner, last, k);
      assert b == owner[..k];
    }
    if k: nat :| CutAt(owner, k) && b == owner[..k] {
      CutsBefore(owner, last, k);
      assert k == last || b == parent[..k];
    }
    CutsBefore(owner, last, last);
  }

  lemma LastCut(owner: string)
    requires owner != "" && Contains(owner, NODE_MODULES)
    ensures var last := |Parent(owner)|;
            && Parent(owner) == owner[..last] && OccursAt(owner, NODE_MODULES, last)
            && forall k | last < k :: !OccursAt(owner, NODE_MODULES, k)
  {
    BeforeLastIsACut(owner, |owner| - 1);
  }

  /** The folders are the owner's own, then those of the entries it lies in, nearest first, then the root. */
  lemma {:induction false} BasesAreTheFoldersAbove(owner: string)
    ensures forall b :: b in Bases(owner) <==> b == owner || b == "" || Encloses(owner, b)
    ensures forall i, j | 0 <= i < j < |Bases(owner)| :: |Bases(owner)[i]| > |Bases(owner)[j]|
    decreases |owner|
  {
    hide Encloses, CutAt, OccursAt;
    if owner == "" {
      NoCut("");
    } else {
      BasesAreTheFoldersAbove(Parent(owner));
      var rest := Bases(Parent(owner));
      assert Bases(owner) == [owner] + rest;
      forall b ensures b in Bases(owner) <==> b == owner || b == "" || Encloses(owner, b) {
        if Contains(owner, NODE_MODULES) {
          EnclosesParent(owner, b);
        } else {
          NoCut(owner);
          NoCut("");
        }
      }
      forall j | 0 <= j < |rest| ensures |rest[j]| < |owner| {
        assert Bases(Parent(owner))[0] == Parent(owner);
      }
    }
  }

  lemma NoCut(owner: string)
    requires !Contains(owner, NODE_MODULES)
    ensures forall b :: !Encloses(owner, b)
  {}

  // ---------------------------------------------------------------- npm closure

  datatype Edge = Edge(owner: string, name: string, optional: bool)

  function Edges(owner: string, names: seq<string>, optional: bool): seq<Edge> {
    seq(|names|, i requires 0 <= i < |names| => Edge(owner, names[i], optional))
  }

  function PeerEdges(owner: string, peers: seq<Peer>): seq<Edge> {
    seq(|peers|, i requires 0 <= i < |peers| => Edge(owner, peers[i].name, peers[i].optional))
  }

  function RootEdges(packages: Packages): seq<Edge> {
    if "" in packages then
      Edges("", packages[""].dependencies, false) + Edges("", packages[""].optionalDependencies, true)
    else []
  }

  function EntryEdges(key: string, e: Entry): seq<Edge> {
    Edges(key, e.dependencies, false) + Edges(key, e.optionalDependencies, true) + PeerEdges(key, e.peerDependencies)
  }

  /** The edges of the root: its required and its optional dependencies. */
  lemma RootEdgesExactly(packages: Packages, e: Edge)
    ensures e in RootEdges(packages) <==>
              && "" in packages && e.owner == ""
              && if e.optional then e.name in packages[""].optionalDependencies
                 else e.name in packages[""].dependencies
  {
    if "" in packages {
      EdgesExactly("", packages[""].dependencies, false, e);
      EdgesExactly("", packages[""].optionalDependencies, true, e);
    }
  }

  /** The edges of an entry: those, and its peers. */
  lemma EntryEdgesExactly(key: string, entry: Entry, e: Edge)
    ensures e in EntryEdges(key, entry) <==>
              && e.owner == key
              && (Peer(e.name, e.optional) in entry.peerDependencies
                  || e.name in if e.optional then entry.optionalDependencies else entry.dependencies)
  {
    EdgesExactly(key, entry.dependencies, false, e);
    EdgesExactly(key, entry.optionalDependencies, true, e);
    var peers := PeerEdges(key, entry.peerDependencies);
    if e.owner == key && Peer(e.name, e.optional) in entry.peerDependencies {
      var i :| 0 <= i < |peers| && entry.peerDependencies[i] == Peer(e.name, e.optional);
      assert peers[i] == e;
    }
  }

  lemma EdgesExactly(owner: string, names: seq<string>, optional: bool, e: Edge)
    ensures e in Edges(owner, names, optional) <==> e.owner == owner && e.optional == optional && e.name in names
  {
    var edges := Edges(owner, names, optional);
    if e.owner == owner && e.optional == optional && e.name in names {
      var i :| 0 <= i < |names| && names[i] == e.name;
      assert edges[i] == e;
    }
  }

  function Target(packages: Packages, e: Edge): Option<string> {
    Resolved(packages, e.owner, e.name)
  }

  function Targets(packages: Packages, edges: seq<Edge>): set<string> {
    set e | e in edges && Target(packages, e).Some? :: Target(packages, e).value
  }

  /** The lock as a graph: every edge that resolves, whether required, optional or peer. */
  function NpmGraph(packages: Packages): Graph {
    Graph(Targets(packages, RootEdges(packages)),
          map k | k in packages :: Targets(packages, EntryEdges(k, packages[k])))
  }

  ghost predicate Unresolved(packages: Packages, edges: seq<Edge>) {
    exists e :: e in edges && !e.optional && Target(packages, e).None?
  }

  /** Why the closure must be refused: a required edge of something reachable leads nowhere, or
      something reachable is locked for development only. */
  ghost predicate Incomplete(packages: Packages) {
    || Unresolved(packages, RootEdges(packages))
    || exists k :: k in Reach(NpmGraph(packages)) && k in packages
                   && (packages[k].dev || Unresolved(packages, EntryEdges(k, packages[k])))
  }

  /** Where an edge on the worklist comes from. */
  ghost predicate FromSeen(packages: Packages, seen: set<string>, e: Edge) {
    || e in RootEdges(packages)
    || exists k :: k in seen && k in packages && e in EntryEdges(k, packages[k])
  }

  /** An edge that is done: it leads to something seen, or it is optional and leads nowhere. */
  ghost predicate Done(packages: Packages, seen: set<string>, e: Edge) {
    match Target(packages, e)
    case Some(key) => key in seen
    case None => e.optional
  }

  ghost predicate Worklist(packages: Packages, seen: set<string>, queue: seq<Edge>) {
    && seen <= Reach(NpmGraph(packages)) && seen <= packages.Keys
    && (forall k | k in seen :: !packages[k].dev)
    && (forall e | e in queue :: FromSeen(packages, seen, e))
    && (forall e | FromSeen(packages, seen, e) :: e in queue || Done(packages, seen, e))
  }

  /** Lock entries reachable from the root dependencies. The order of names in the lock only decides
      which of several problems is met first. */
  method NpmProductionKeys(lockfileVersion: int, packages: Packages) returns (r: Result<set<string>>)
    ensures lockfileVersion == 2 || lockfileVersion == 3 ==>
              if Incomplete(packages) then r == NoticeError else r == Ok(Reach(NpmGraph(packages)))
    ensures lockfileVersion != 2 && lockfileVersion != 3 ==> r == NoticeError
  {
    hide Reach, NpmGraph, EntryEdges, RootEdges, FromSeen, Resolved, Worklist, Incomplete;
    if lockfileVersion != 2 && lockfileVersion != 3 {
      return NoticeError;
    }
    var queue := RootEdges(packages);
    var seen := {};
    WorklistStart(packages);
    while queue != []
      invariant Worklist(packages, seen, queue)
      decreases packages.Keys - seen, |queue|
    {
      var e := queue[|queue| - 1];
      assert queue == queue[..|queue| - 1] + [e];
      queue := queue[..|queue| - 1];
      WorklistPop(packages, seen, queue, e);
      var key := Resolve(packages, e.owner, e.name);
      if key.None? {
        if !e.optional {
          return NoticeError;
        }
      } else if key.value !in seen {
        if packages[key.value].dev {
          return NoticeError;
        }
        seen := seen + {key.value};
        queue := queue + EntryEdges(key.value, packages[key.value]);
      }
    }
    WorklistEnd(packages, seen);
    return Ok(seen);
  }

  // --------------------------------------------------------------- Rust closure

  datatype Dependency = Dependency(pkg: string, normal: bool)
  type Nodes = map<string, seq<Dependency>>

  function NormalDeps(deps: seq<Dependency>): set<string> {
    set d | d in deps && d.normal :: d.pkg
  }

  /** What the desktop crate pulls in by normal edges, at any depth. */
  function RustGraph(nodes: Nodes, root: string): Graph {
    Graph(if root in nodes then NormalDeps(nodes[root]) else {}, map k | k in nodes :: NormalDeps(nodes[k]))
  }

  ghost predicate RustWorklist(nodes: Nodes, root: string, seen: set<string>, stack: seq<string>) {
    && seen <= Reach(RustGraph(nodes, root))
    && (forall k | k in stack :: k in seen || k == root)
    && (forall k | k in seen || k == root :: k in stack || (k in nodes && NormalDeps(nodes[k]) <= seen))
  }

  /** The normal-dependency closure without the workspace's own crates; metadata that names a package
      it does not describe makes the look-up fail. */
  method RustClosure(nodes: Nodes, root: string, workspaceMembers: set<string>) returns (r: Result<set<string>>)
    ensures var reach := Reach(RustGraph(nodes, root));
            if reach + {root} <= nodes.Keys then r == Ok(reach - (workspaceMembers + {root})) else r == NoticeError
  {
    hide RustWorklist, Reach, RustGraph, Universe, NormalDeps;
    var members := workspaceMembers + {root};
    var seen: set<string> := {};
    var stack := [root];
    RustStart(nodes, root);
    while stack != []
      invariant RustWorklist(nodes, root, seen, stack)
      decreases Universe(RustGraph(nodes, root)) - seen, |stack|
    {
      var current := stack[|stack| - 1];
      ghost var below, before := stack[..|stack| - 1], seen;
      assert stack == below + [current];
      RustPopped(nodes, root, seen, below, current);
      stack := stack[..|stack| - 1];
      if current !in nodes {
        return NoticeError;
      }
      var deps := nodes[current];
      NoNormalDeps();
      for i := 0 to |deps|
        invariant seen == before + NormalDeps(deps[..i])
        invariant below <= stack
        invariant forall k | k in stack :: k in below || (k in seen && k !in before)
        invariant forall k | k in seen && k !in before :: k in stack
        invariant seen == before ==> stack == below
      {
        assert deps[..i + 1] == deps[..i] + [deps[i]];
        NormalDepsAppend(deps[..i], deps[i]);
        if deps[i].normal && deps[i].pkg !in seen {
          seen := seen + {deps[i].pkg};
          stack := stack + [deps[i].pkg];
        }
      }
      assert deps[..|deps|] == deps;
      RustVisited(nodes, root, before, below, current, seen, stack);
    }
    RustDone(nodes, root, seen);
    return Ok(seen - members);
  }

  // ------------------------------------------------- steps of the npm worklist

  lemma {:induction false} ResolvedIsAPackage(packages: Packages, owner: string, name: string)
    ensures Resolved(packages, owner, name).Some? ==> Resolved(packages, owner, name).value in packages
    decreases |owner|
  {
    if Candidate(owner, name) !in packages && owner != "" {
      ResolvedIsAPackage(packages, Parent(owner), name);
    }
  }

  lemma TargetReached(packages: Packages, seen: set<string>, e: Edge)
    requires seen <= Reach(NpmGraph(packages)) && FromSeen(packages, seen, e)
    ensures Target(packages, e).Some? ==> Target(packages, e).value in Reach(NpmGraph(packages))
    ensures Target(packages, e).None? && !e.optional ==> Incomplete(packages)
  {
    var g := NpmGraph(packages);
    if Target(packages, e).Some? {
      var v := Target(packages, e).value;
      if e in RootEdges(packages) {
        assert v in g.roots;
        ReachRoot(g, v);
      } else {
        var k :| k in seen && k in packages && e in EntryEdges(k, packages[k]);
        assert v in Successors(g, k);
        ReachStep(g, k, v);
      }
    }
  }

  lemma WorklistStart(packages: Packages)
    ensures Worklist(packages, {}, RootEdges(packages))
  {}

  /** Replacing an edge by those of the new entry it leads to. */
  lemma WorklistGrow(packages: Packages, seen: set<string>, queue: seq<Edge>, e: Edge, key: string)
    requires Worklist(packages, seen, queue + [e])
    requires Target(packages, e) == Some(key) && key in packages && !packages[key].dev
    ensures Worklist(packages, seen + {key}, queue + EntryEdges(key, packages[key]))
  {
    assert FromSeen(packages, seen, e) by { assert e in queue + [e]; }
    TargetReached(packages, seen, e);
    hide Reach, NpmGraph;
    var more := queue + EntryEdges(key, packages[key]);
    forall d | d in more ensures FromSeen(packages, seen + {key}, d) {
      if d in queue {
        assert d in queue + [e];
        assert FromSeen(packages, seen, d);
      } else {
        assert key in seen + {key} && d in EntryEdges(key, packages[key]);
      }
    }
    forall d | FromSeen(packages, seen + {key}, d) ensures d in more || Done(packages, seen + {key}, d) {
      if d !in EntryEdges(key, packages[key]) {
        assert FromSeen(packages, seen, d);
        assert d in queue + [e] || Done(packages, seen, d);
      }
    }
  }

  /** What the next edge of the worklist means, whichever it is. */
  lemma WorklistPop(packages: Packages, seen: set<string>, queue: seq<Edge>, e: Edge)
    requires Worklist(packages, seen, queue + [e])
    ensures seen <= packages.Keys
    ensures match Resolved(packages, e.owner, e.name)
            case None => if e.optional then Worklist(packages, seen, queue) else Incomplete(packages)
            case Some(key) =>
              && key in packages
              && if key in seen then Worklist(packages, seen, queue)
                 else if packages[key].dev then Incomplete(packages)
                 else Worklist(packages, seen + {key}, queue + EntryEdges(key, packages[key]))
  {
    assert FromSeen(packages, seen, e) by { assert e in queue + [e]; }
    TargetReached(packages, seen, e);
    ResolvedIsAPackage(packages, e.owner, e.name);
    hide Reach, NpmGraph, EntryEdges, RootEdges, FromSeen, Resolved, Worklist;
    match Target(packages, e)
    case None =>
    case Some(key) =>
      if key !in seen && !packages[key].dev {
        WorklistGrow(packages, seen, queue, e, key);
      }
  }

  /** With nothing left on the worklist, what was seen is the whole closure, and it is complete. */
  lemma WorklistEnd(packages: Packages, seen: set<string>)
    requires Worklist(packages, seen, [])
    ensures seen == Reach(NpmGraph(packages)) && !Incomplete(packages)
  {
    var g := NpmGraph(packages);
    assert forall e | e in RootEdges(packages) :: FromSeen(packages, seen, e);
    forall k | k in seen ensures Successors(g, k) <= seen && !Unresolved(packages, EntryEdges(k, packages[k])) {
      assert forall e | e in EntryEdges(k, packages[k]) :: FromSeen(packages, seen, e);
    }
    FoundAll(g, seen);
  }

  // ------------------------------------------------ steps of the Rust worklist

  lemma NoNormalDeps()
    ensures NormalDeps([]) == {}
  {}

  lemma NormalDepsAppend(deps: seq<Dependency>, d: Dependency)
    ensures NormalDeps(deps + [d]) == NormalDeps(deps) + if d.normal then {d.pkg} else {}
  {
    assert forall x :: x in deps + [d] <==> x in deps || x == d;
  }

  lemma RustStart(nodes: Nodes, root: string)
    ensures RustWorklist(nodes, root, {}, [root])
  {}

  lemma RustPopped(nodes: Nodes, root: string, seen: set<string>, below: seq<string>, current: string)
    requires RustWorklist(nodes, root, seen, below + [current])
    ensures current !in nodes ==> !(Reach(RustGraph(nodes, root)) + {root} <= nodes.Keys)
  {
    assert current in below + [current];
  }

  lemma RustVisited(nodes: Nodes, root: string, before: set<string>, below: seq<string>, current: string,
                    seen: set<string>, stack: seq<string>)
    requires RustWorklist(nodes, root, before, below + [current]) && current in nodes
    requires seen == before + NormalDeps(nodes[current]) && below <= stack
    requires forall k | k in stack :: k in below || k in seen
    requires forall k | k in seen && k !in before :: k in stack
    ensures RustWorklist(nodes, root, seen, stack)
    ensures seen <= Universe(RustGraph(nodes, root))
  {
    var g := RustGraph(nodes, root);
    assert current in below + [current];
    forall v | v in NormalDeps(nodes[current]) ensures v in Reach(g) {
      if current == root {
        ReachRoot(g, v);
      } else {
        ReachStep(g, current, v);
      }
    }
    forall k | k in seen || k == root ensures k in stack || (k in nodes && NormalDeps(nodes[k]) <= seen) {
      if (k in before || k == root) && k != current {
        assert k in below + [current] || (k in nodes && NormalDeps(nodes[k]) <= before);
      }
    }
  }

  lemma RustDone(nodes: Nodes, root: string, seen: set<string>)
    requires RustWorklist(nodes, root, seen, [])
    ensures seen == Reach(RustGraph(nodes, root)) && seen + {root} <= nodes.Keys
  {
    FoundAll(RustGraph(nodes, root), seen);
  }
}

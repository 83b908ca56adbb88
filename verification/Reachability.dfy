/** The least set of nodes a graph reaches from its roots, as the dependency closures promise it. */
module Reachability {

  datatype Graph = Graph(roots: set<string>, succ: map<string, set<string>>)

  function Successors(g: Graph, k: string): set<string> {
    if k in g.succ then g.succ[k] else {}
  }

  function Universe(g: Graph): set<string> {
    g.roots + set k, v | k in g.succ && v in g.succ[k] :: v
  }

  ghost predicate Closed(g: Graph, s: set<string>) {
    g.roots <= s && forall k | k in s :: Successors(g, k) <= s
  }

  ghost function Reach(g: Graph): set<string> {
    set k | k in Universe(g) && forall s | Closed(g, s) :: k in s
  }

  /** `Reach` is itself closed, and below every closed set. */
  lemma ReachIsLeastClosed(g: Graph)
    ensures Closed(g, Reach(g))
    ensures forall s | Closed(g, s) :: Reach(g) <= s
  {
    forall k, v | k in Reach(g) && v in Successors(g, k) ensures v in Reach(g) {
      forall s | Closed(g, s) ensures v in s {
        assert k in s && Successors(g, k) <= s;
      }
    }
  }

  ghost predicate IsPath(g: Graph, path: seq<string>) {
    && path != [] && path[0] in g.roots
    && forall i | 0 < i < |path| :: path[i] in Successors(g, path[i - 1])
  }

  lemma {:induction false} PathStaysInside(g: Graph, path: seq<string>, s: set<string>, i: nat)
    requires IsPath(g, path) && Closed(g, s) && i < |path|
    ensures path[i] in s
  {
    if i > 0 {
      PathStaysInside(g, path, s, i - 1);
      assert Successors(g, path[i - 1]) <= s;
    }
  }

  ghost predicate HasPath(g: Graph, k: string) {
    exists path :: IsPath(g, path) && path[|path| - 1] == k
  }

  lemma PathToRoot(g: Graph, v: string)
    requires v in g.roots
    ensures HasPath(g, v)
  {
    assert IsPath(g, [v]) && [v][|[v]| - 1] == v;
  }

  lemma PathOn(g: Graph, u: string, v: string)
    requires HasPath(g, u) && v in Successors(g, u)
    ensures HasPath(g, v)
  {
    var path :| IsPath(g, path) && path[|path| - 1] == u;
    var longer := path + [v];
    assert IsPath(g, longer) && longer[|longer| - 1] == v;
  }

  lemma PathsClosed(g: Graph)
    ensures Closed(g, set v | v in Universe(g) && HasPath(g, v))
  {
    hide IsPath, HasPath;
    var s := set v | v in Universe(g) && HasPath(g, v);
    forall v | v in g.roots ensures v in s {
      PathToRoot(g, v);
    }
    forall u, v | u in s && v in Successors(g, u) ensures v in s {
      PathOn(g, u, v);
    }
  }

  /** A node is in the least closed set exactly if a path of edges leads to it from a root. */
  lemma ReachIffPath(g: Graph, k: string)
    ensures k in Reach(g) <==> HasPath(g, k)
  {
    ReachIsLeastClosed(g);
    PathsClosed(g);
    hide Reach, Closed;
    if k in Reach(g) {
      assert k in set v | v in Universe(g) && HasPath(g, v);
    }
    if HasPath(g, k) {
      PathEndReached(g, k);
    }
  }

  lemma PathEndReached(g: Graph, k: string)
    requires HasPath(g, k)
    ensures k in Reach(g)
  {
    ReachIsLeastClosed(g);
    var path :| IsPath(g, path) && path[|path| - 1] == k;
    PathStaysInside(g, path, Reach(g), |path| - 1);
  }

  /** What a worklist has found: it never leaves `Reach`, and once it is closed it is all of it. */
  lemma FoundAll(g: Graph, seen: set<string>)
    requires seen <= Reach(g) && Closed(g, seen)
    ensures seen == Reach(g)
  {
    ReachIsLeastClosed(g);
  }

  lemma ReachStep(g: Graph, k: string, v: string)
    requires k in Reach(g) && v in Successors(g, k)
    ensures v in Reach(g)
  {
    ReachIsLeastClosed(g);
  }

  lemma ReachRoot(g: Graph, v: string)
    requires v in g.roots
    ensures v in Reach(g)
  {
    ReachIsLeastClosed(g);
  }
}

/** Layered topologies: links come in pairs, one up and one down, and routes go up and then down. */
module Topology {
  import opened Options

  type NodeIx = nat
  type LinkIx = nat

  /** Hosts and switches, named as the builders name them. */
  datatype Name = Cloud | Spine(i: nat) | Tor(i: nat) | Host(i: nat)

  /** `parent` are the links up and `children` the links down, in the order in which they were added. */
  datatype Node = Node(name: Name, depth: nat, children: seq<LinkIx>, parent: seq<LinkIx>)

  datatype Edge = Edge(source: NodeIx, target: NodeIx, bandwidth: nat)

  datatype Graph = Graph(nodes: seq<Node>, edges: seq<Edge>)

  /** `get_reverse_link`: the index with its lowest bit flipped. */
  function Reverse(l: LinkIx): LinkIx {
    if l % 2 == 0 then l + 1 else l - 1
  }

  /** Exclusive or, bit by bit. */
  function Xor(a: nat, b: nat): nat {
    if a == 0 && b == 0 then 0 else (a % 2 + b % 2) % 2 + 2 * Xor(a / 2, b / 2)
  }

  lemma {:induction false} XorNothing(a: nat)
    ensures Xor(a, 0) == a
  {
    if a != 0 { XorNothing(a / 2); }
  }

  /** Which is what exclusive or with 1 does, whatever the width of the index. */
  lemma ReverseFlipsLowestBit(l: LinkIx)
    ensures Reverse(l) == Xor(l, 1)
  {
    XorNothing(l / 2);
  }

  /** Links come in pairs: an even one down and the odd one after it back up; both ends list them. */
  ghost predicate Paired(g: Graph) {
    && |g.edges| % 2 == 0
    && (forall l :: 0 <= l < |g.edges| ==> LinkOk(g, l))
    && (forall n, i :: 0 <= n < |g.nodes| && 0 <= i < |g.nodes[n].parent| ==> UpLink(g, n, g.nodes[n].parent[i]))
    && (forall n, i :: 0 <= n < |g.nodes| && 0 <= i < |g.nodes[n].children| ==> DownLink(g, n, g.nodes[n].children[i]))
  }

  ghost predicate LinkOk(g: Graph, l: LinkIx)
    requires l < |g.edges|
  {
    var s, t := g.edges[l].source, g.edges[l].target;
    && s < |g.nodes| && t < |g.nodes|
    && Reverse(l) < |g.edges| && g.edges[Reverse(l)].source == t && g.edges[Reverse(l)].target == s
    && (l % 2 == 1 ==> l in g.nodes[s].parent) && (l % 2 == 0 ==> l in g.nodes[s].children)
  }

  ghost predicate UpLink(g: Graph, n: NodeIx, l: LinkIx) {
    l < |g.edges| && l % 2 == 1 && g.edges[l].source == n
  }

  ghost predicate DownLink(g: Graph, n: NodeIx, l: LinkIx) {
    l < |g.edges| && l % 2 == 0 && g.edges[l].source == n
  }

  /** Following a link and then its reverse leads back; and reversing twice is the link itself. */
  lemma ReverseSwapsEnds(g: Graph, l: LinkIx)
    requires Paired(g) && l < |g.edges|
    ensures Reverse(l) < |g.edges| && Reverse(Reverse(l)) == l
    ensures g.edges[Reverse(l)].source == g.edges[l].target && g.edges[Reverse(l)].target == g.edges[l].source
  {
    assert LinkOk(g, l);
  }

  /** `path` leads from `x` to `y`. */
  ghost predicate Walk(g: Graph, x: NodeIx, path: seq<LinkIx>, y: NodeIx)
    decreases |path|
  {
    if path == [] then x == y
    else path[0] < |g.edges| && g.edges[path[0]].source == x && Walk(g, g.edges[path[0]].target, path[1..], y)
  }

  lemma {:induction false} WalkOn(g: Graph, x: NodeIx, p: seq<LinkIx>, y: NodeIx, q: seq<LinkIx>, z: NodeIx)
    requires Walk(g, x, p, y) && Walk(g, y, q, z)
    ensures Walk(g, x, p + q, z)
    decreases |p|
  {
    if p == [] {
      assert p + q == q;
    } else {
      WalkOn(g, g.edges[p[0]].target, p[1..], y, q, z);
      assert (p + q)[1..] == p[1..] + q;
    }
  }

  lemma OneLink(g: Graph, l: LinkIx)
    requires l < |g.edges|
    ensures Walk(g, g.edges[l].source, [l], g.edges[l].target)
  {
    assert [l][1..] == [];
  }

  /*** Depth ***/

  /** Links up lead one layer up. */
  ghost predicate Stepped(g: Graph) {
    && Paired(g)
    && (forall l :: 0 <= l < |g.edges| && l % 2 == 1 ==> StepsUp(g, l))
    && forall n :: 0 <= n < |g.nodes| ==> g.nodes[n].depth >= 1
  }

  /** Moreover every node below the top layer has one. */
  ghost predicate Layered(g: Graph) {
    Stepped(g) && forall n :: 0 <= n < |g.nodes| && g.nodes[n].depth > 1 ==> g.nodes[n].parent != []
  }

  ghost predicate StepsUp(g: Graph, l: LinkIx)
    requires l < |g.edges|
  {
    var s, t := g.edges[l].source, g.edges[l].target;
    s < |g.nodes| && t < |g.nodes| && g.nodes[t].depth + 1 == g.nodes[s].depth
  }

  /** A tree: one root, and one way up from every other node. */
  ghost predicate Tree(g: Graph) {
    && Layered(g)
    && (forall n :: 0 <= n < |g.nodes| ==> |g.nodes[n].parent| <= 1)
    && forall n, m :: 0 <= n < |g.nodes| && 0 <= m < |g.nodes| && g.nodes[n].depth == 1 && g.nodes[m].depth == 1 ==>
       n == m
  }

  /** The node above, by the first link up. */
  function Above(g: Graph, n: NodeIx): NodeIx
    requires n < |g.nodes| && g.nodes[n].parent != [] && g.nodes[n].parent[0] < |g.edges|
  {
    g.edges[g.nodes[n].parent[0]].target
  }

  lemma AboveIsHigher(g: Graph, n: NodeIx)
    requires Layered(g) && n < |g.nodes| && g.nodes[n].depth > 1
    ensures g.nodes[n].parent != [] && g.nodes[n].parent[0] < |g.edges|
    ensures Above(g, n) < |g.nodes| && g.nodes[Above(g, n)].depth + 1 == g.nodes[n].depth
    ensures g.edges[g.nodes[n].parent[0]].source == n && g.nodes[n].parent[0] % 2 == 1
  {
    var l := g.nodes[n].parent[0];
    assert UpLink(g, n, l);
    assert StepsUp(g, l);
  }

  /** The ancestor of `n` in layer `t`, by first links up. */
  ghost function Ancestor(g: Graph, n: NodeIx, t: nat): NodeIx
    requires Layered(g) && n < |g.nodes| && 1 <= t <= g.nodes[n].depth
    decreases g.nodes[n].depth
  {
    AboveHelps(g, n);
    if g.nodes[n].depth == t then n else Ancestor(g, Above(g, n), t)
  }

  lemma AboveHelps(g: Graph, n: NodeIx)
    requires Layered(g) && n < |g.nodes|
    ensures g.nodes[n].depth > 1 ==>
              && g.nodes[n].parent != [] && g.nodes[n].parent[0] < |g.edges|
              && Above(g, n) < |g.nodes| && g.nodes[Above(g, n)].depth + 1 == g.nodes[n].depth
  {
    if g.nodes[n].depth > 1 { AboveIsHigher(g, n); }
  }

  lemma {:induction false} AncestorIs(g: Graph, n: NodeIx, t: nat)
    requires Layered(g) && n < |g.nodes| && 1 <= t <= g.nodes[n].depth
    ensures Ancestor(g, n, t) < |g.nodes| && g.nodes[Ancestor(g, n, t)].depth == t
    decreases g.nodes[n].depth
  {
    if g.nodes[n].depth > t {
      AboveIsHigher(g, n);
      AncestorIs(g, Above(g, n), t);
    }
  }

  /** One more layer up. */
  lemma {:induction false} AncestorAbove(g: Graph, n: NodeIx, t: nat)
    requires Layered(g) && n < |g.nodes| && 1 < t <= g.nodes[n].depth
    ensures var a := Ancestor(g, n, t);
            a < |g.nodes| && g.nodes[a].depth == t && g.nodes[a].parent != [] && g.nodes[a].parent[0] < |g.edges|
            && Ancestor(g, n, t - 1) == Above(g, a)
    decreases g.nodes[n].depth
  {
    AncestorIs(g, n, t);
    AboveIsHigher(g, Ancestor(g, n, t));
    AboveIsHigher(g, n);
    if g.nodes[n].depth > t {
      AncestorAbove(g, Above(g, n), t);
    }
  }

  /*** Climbing by first links ***/

  /** The node `k` first links above `n`, if there are so many. */
  ghost function UpBy(g: Graph, n: NodeIx, k: nat): (up: Option<NodeIx>)
    requires Paired(g) && n < |g.nodes|
    ensures up.Some? ==> up.value < |g.nodes|
    decreases k
  {
    if k == 0 then Some(n)
    else
      match UpBy(g, n, k - 1)
      case None => None
      case Some(m) => if g.nodes[m].parent == [] then None else ParentLink(g, m, 0); Some(Above(g, m))
  }

  lemma {:induction false} UpByLess(g: Graph, n: NodeIx, k: nat, i: nat)
    requires Paired(g) && n < |g.nodes| && i <= k && UpBy(g, n, k).Some?
    ensures UpBy(g, n, i).Some?
    decreases k
  {
    hide Paired;
    if i < k { UpByLess(g, n, k - 1, i); }
  }

  lemma NoneAbove(g: Graph, n: NodeIx, i: nat, k: nat)
    requires Paired(g) && n < |g.nodes| && i <= k && UpBy(g, n, i).None?
    ensures UpBy(g, n, k).None?
  {
    hide Paired, UpBy;
    if UpBy(g, n, k).Some? { UpByLess(g, n, k, i); }
  }

  /** Where links up are one layer long, so many links lead up so many layers. */
  lemma {:induction false} UpByDepth(g: Graph, n: NodeIx, k: nat)
    requires Stepped(g) && n < |g.nodes| && UpBy(g, n, k).Some?
    ensures g.nodes[UpBy(g, n, k).value].depth + k == g.nodes[n].depth
    decreases k
  {
    hide Paired;
    if k > 0 {
      UpByDepth(g, n, k - 1);
      var m := UpBy(g, n, k - 1).value;
      ParentLink(g, m, 0);
      assert StepsUp(g, g.nodes[m].parent[0]);
    }
  }

  /** The climbs from `x` and `y` meet after `k` links each, and not before. */
  ghost predicate MeetAt(g: Graph, x: NodeIx, y: NodeIx, k: nat)
    requires Paired(g) && x < |g.nodes| && y < |g.nodes|
  {
    && UpBy(g, x, k).Some? && UpBy(g, x, k) == UpBy(g, y, k)
    && forall i: nat :: i < k ==> UpBy(g, x, i) != UpBy(g, y, i)
  }

  /** Up by `k` first links from `x`, and down along the `k` first links that lead up from `y`. */
  ghost predicate UpThenDown(g: Graph, x: NodeIx, y: NodeIx, k: nat, route: seq<LinkIx>)
    requires Paired(g) && x < |g.nodes| && y < |g.nodes|
  {
    && |route| == 2 * k
    && forall i: nat :: i < k ==>
         IsFirstUp(g, UpBy(g, x, i), route[i]) && IsFirstUp(g, UpBy(g, y, i), Reverse(route[2 * k - 1 - i]))
  }

  ghost predicate IsFirstUp(g: Graph, n: Option<NodeIx>, l: LinkIx) {
    n.Some? && n.value < |g.nodes| && g.nodes[n.value].parent != [] && l == g.nodes[n.value].parent[0]
  }

  /** What a route by first links is: there is one exactly if the climbs meet before the depth is used up, and
      then it goes up and down by as many links as each climb takes. */
  ghost predicate RouteIs(g: Graph, x: NodeIx, y: NodeIx, route: Option<seq<LinkIx>>)
    requires Paired(g) && x < |g.nodes| && y < |g.nodes|
  {
    match route
    case Some(r) => exists k: nat :: InReach(g, x, k) && MeetAt(g, x, y, k) && UpThenDown(g, x, y, k, r)
    case None => forall k: nat :: InReach(g, x, k) ==> !MeetAt(g, x, y, k)
  }

  ghost predicate InReach(g: Graph, x: NodeIx, k: nat)
    requires x < |g.nodes|
  {
    k == 0 || k < g.nodes[x].depth
  }

  /** The climbs meet for the first time only once. */
  lemma MeetOnce(g: Graph, x: NodeIx, y: NodeIx, k: nat, k': nat)
    requires Paired(g) && x < |g.nodes| && y < |g.nodes| && MeetAt(g, x, y, k) && MeetAt(g, x, y, k')
    ensures k == k'
  {
    hide Paired, UpBy;
  }

  /** Where links up are one layer long, the depth does not run out before the climbs meet: there is no route only
      if they never meet. */
  lemma NoRouteIsNoMeeting(g: Graph, x: NodeIx, y: NodeIx, route: Option<seq<LinkIx>>)
    requires Stepped(g) && x < |g.nodes| && y < |g.nodes| && RouteIs(g, x, y, route)
    ensures route.None? <==> forall k: nat :: !MeetAt(g, x, y, k)
  {
    hide Paired, UpBy, UpThenDown;
    forall k: nat | MeetAt(g, x, y, k) ensures InReach(g, x, k) { UpByDepth(g, x, k); }
  }

  /*** Routes in a tree are shortest ***/

  /** In a tree, both ends of a link have the same ancestors in the layers they both lie in or under. */
  lemma LinkKeepsAncestor(g: Graph, l: LinkIx, t: nat)
    requires Tree(g) && l < |g.edges| && LinkOk(g, l) && 1 <= t
    requires t <= g.nodes[g.edges[l].source].depth && t <= g.nodes[g.edges[l].target].depth
    ensures Ancestor(g, g.edges[l].source, t) == Ancestor(g, g.edges[l].target, t)
  {
    var up := if l % 2 == 1 then l else Reverse(l);
    assert LinkOk(g, up) && StepsUp(g, up);
    var n := g.edges[up].source;
    assert up in g.nodes[n].parent;
    assert g.nodes[n].parent == [up];
    AboveIsHigher(g, n);
  }

  ghost predicate StaysBelow(g: Graph, path: seq<LinkIx>, t: nat) {
    forall i :: 0 <= i < |path| ==>
        path[i] < |g.edges| && LinkOk(g, path[i]) && t <= g.nodes[g.edges[path[i]].target].depth
  }

  lemma {:induction false} WalkKeepsAncestor(g: Graph, x: NodeIx, path: seq<LinkIx>, y: NodeIx, t: nat)
    requires Tree(g) && Walk(g, x, path, y) && StaysBelow(g, path, t) && x < |g.nodes| && 1 <= t <= g.nodes[x].depth
    ensures y < |g.nodes| && t <= g.nodes[y].depth && Ancestor(g, x, t) == Ancestor(g, y, t)
    decreases |path|
  {
    if path != [] {
      LinkKeepsAncestor(g, path[0], t);
      forall i | 0 <= i < |path[1..]| ensures path[1..][i] == path[i + 1] {}
      WalkKeepsAncestor(g, g.edges[path[0]].target, path[1..], y, t);
    }
  }

  /** A walk changes the depth by at most one per link. */
  lemma {:induction false} DepthChangesSlowly(g: Graph, x: NodeIx, path: seq<LinkIx>, y: NodeIx)
    requires Layered(g) && Walk(g, x, path, y) && x < |g.nodes|
    ensures y < |g.nodes|
    ensures g.nodes[x].depth <= g.nodes[y].depth + |path| && g.nodes[y].depth <= g.nodes[x].depth + |path|
    decreases |path|
  {
    if path != [] {
      var l := path[0];
      assert LinkOk(g, l) && LinkOk(g, Reverse(l));
      assert StepsUp(g, if l % 2 == 1 then l else Reverse(l));
      DepthChangesSlowly(g, g.edges[l].target, path[1..], y);
    }
  }

  lemma {:induction false} WalkSplits(g: Graph, x: NodeIx, path: seq<LinkIx>, y: NodeIx, k: nat) returns (m: NodeIx)
    requires Walk(g, x, path, y) && k <= |path|
    ensures Walk(g, x, path[..k], m) && Walk(g, m, path[k..], y)
    ensures k > 0 ==> path[k - 1] < |g.edges| && m == g.edges[path[k - 1]].target
    decreases |path|
  {
    if k == 0 {
      m := x;
      assert path[..0] == [] && path[0..] == path;
    } else {
      m := WalkSplits(g, g.edges[path[0]].target, path[1..], y, k - 1);
      assert path[1..][..k - 1] == path[..k][1..] && path[1..][k - 1..] == path[k..];
      if k > 1 { assert path[1..][k - 2] == path[k - 1]; }
    }
  }

  lemma {:induction false} WalkLinks(g: Graph, x: NodeIx, path: seq<LinkIx>, y: NodeIx)
    requires Paired(g) && Walk(g, x, path, y)
    ensures forall i :: 0 <= i < |path| ==> path[i] < |g.edges| && LinkOk(g, path[i])
    decreases |path|
  {
    if path != [] {
      WalkLinks(g, g.edges[path[0]].target, path[1..], y);
      forall i | 0 <= i < |path| ensures path[i] < |g.edges| && LinkOk(g, path[i]) {
        if i > 0 { assert path[i] == path[1..][i - 1]; }
      }
    }
  }

  /** If the ancestors of `x` and `y`, equally deep, still differ in layer `t`, then any walk from `x`
      to `y` has to go up to layer `t - 1` and down again. */
  lemma WalksAreNotShorter(g: Graph, x: NodeIx, y: NodeIx, t: nat, path: seq<LinkIx>)
    requires Tree(g) && x < |g.nodes| && y < |g.nodes| && g.nodes[x].depth == g.nodes[y].depth
             && 1 <= t <= g.nodes[x].depth
    requires Ancestor(g, x, t) != Ancestor(g, y, t) && Walk(g, x, path, y)
    ensures |path| >= 2 * (g.nodes[x].depth - t + 1)
  {
    WalkLinks(g, x, path, y);
    if StaysBelow(g, path, t) {
      WalkKeepsAncestor(g, x, path, y, t);
      assert false;
    }
    var i :| 0 <= i < |path| && g.nodes[g.edges[path[i]].target].depth < t;
    var m := WalkSplits(g, x, path, y, i + 1);
    DepthChangesSlowly(g, x, path[..i + 1], m);
    DepthChangesSlowly(g, m, path[i + 1..], y);
  }

  /*** Building ***/

  function NodeAdded(g: Graph, name: Name, depth: nat): Graph {
    g.(nodes := g.nodes + [Node(name, depth, [], [])])
  }

  /** A pair of links between parent `p` and child `c`: down at an even index, up at the next. */
  function Linked(g: Graph, p: NodeIx, c: NodeIx, bandwidth: nat): Graph
    requires p < |g.nodes| && c < |g.nodes|
  {
    var l := |g.edges|;
    var nodes := g.nodes[p := g.nodes[p].(children := g.nodes[p].children + [l])];
    Graph(nodes[c := nodes[c].(parent := nodes[c].parent + [l + 1])], g.edges + [Edge(p, c, bandwidth),
        Edge(c, p, bandwidth)])
  }

  lemma NodeAddedPaired(g: Graph, name: Name, depth: nat)
    requires Paired(g)
    ensures Paired(NodeAdded(g, name, depth))
  {
    var g' := NodeAdded(g, name, depth);
    forall l | 0 <= l < |g'.edges| ensures LinkOk(g', l) { assert LinkOk(g, l); }
    forall n, i | 0 <= n < |g'.nodes| && 0 <= i < |g'.nodes[n].parent| ensures UpLink(g', n, g'.nodes[n].parent[i]) {
      assert UpLink(g, n, g.nodes[n].parent[i]);
    }
    forall n, i | 0 <= n < |g'.nodes| && 0 <= i < |g'.nodes[n].children|
        ensures DownLink(g', n, g'.nodes[n].children[i]) {
      assert DownLink(g, n, g.nodes[n].children[i]);
    }
  }

  lemma LinkedNode(g: Graph, p: NodeIx, c: NodeIx, bandwidth: nat, n: NodeIx)
    requires p < |g.nodes| && c < |g.nodes| && n < |g.nodes|
    ensures var g', l := Linked(g, p, c, bandwidth), |g.edges|;
            && |g'.nodes| == |g.nodes| && g'.nodes[n].name == g.nodes[n].name && g'.nodes[n].depth == g.nodes[n].depth
            && g'.nodes[n].parent == (if n == c then g.nodes[n].parent + [l + 1] else g.nodes[n].parent)
            && g'.nodes[n].children == (if n == p then g.nodes[n].children + [l] else g.nodes[n].children)
  {
  }

  /** Adding a pair of links keeps links in pairs. */
  lemma LinkedPaired(g: Graph, p: NodeIx, c: NodeIx, bandwidth: nat)
    requires Paired(g) && p < |g.nodes| && c < |g.nodes|
    ensures Paired(Linked(g, p, c, bandwidth))
  {
    hide LinkOk, UpLink, DownLink;
    var g' := Linked(g, p, c, bandwidth);
    forall l | 0 <= l < |g'.edges| ensures LinkOk(g', l) { LinkedLink(g, p, c, bandwidth, l); }
    forall n, i | 0 <= n < |g'.nodes| && 0 <= i < |g'.nodes[n].parent| ensures UpLink(g', n, g'.nodes[n].parent[i]) {
      LinkedUp(g, p, c, bandwidth, n, i);
    }
    forall n, i | 0 <= n < |g'.nodes| && 0 <= i < |g'.nodes[n].children|
        ensures DownLink(g', n, g'.nodes[n].children[i]) {
      LinkedDown(g, p, c, bandwidth, n, i);
    }
  }

  lemma LinkedLink(g: Graph, p: NodeIx, c: NodeIx, bandwidth: nat, l: LinkIx)
    requires Paired(g) && p < |g.nodes| && c < |g.nodes| && l < |g.edges| + 2
    ensures LinkOk(Linked(g, p, c, bandwidth), l)
  {
    hide Linked, UpLink, DownLink;
    LinkedEdges(g, p, c, bandwidth);
    if l < |g.edges| {
      assert LinkOk(g, l);
      LinkedNode(g, p, c, bandwidth, g.edges[l].source);
    } else {
      hide Paired;
      LinkedNode(g, p, c, bandwidth, c);
      LinkedNode(g, p, c, bandwidth, p);
    }
  }

  lemma LinkedEdges(g: Graph, p: NodeIx, c: NodeIx, bandwidth: nat)
    requires p < |g.nodes| && c < |g.nodes|
    ensures Linked(g, p, c, bandwidth).edges == g.edges + [Edge(p, c, bandwidth), Edge(c, p, bandwidth)]
    ensures |Linked(g, p, c, bandwidth).nodes| == |g.nodes|
  {
  }

  lemma LinkedUp(g: Graph, p: NodeIx, c: NodeIx, bandwidth: nat, n: NodeIx, i: nat)
    requires Paired(g) && p < |g.nodes| && c < |g.nodes| && n < |g.nodes|
    requires i < |Linked(g, p, c, bandwidth).nodes[n].parent|
    ensures UpLink(Linked(g, p, c, bandwidth), n, Linked(g, p, c, bandwidth).nodes[n].parent[i])
  {
    LinkedNode(g, p, c, bandwidth, n);
    if i < |g.nodes[n].parent| { assert UpLink(g, n, g.nodes[n].parent[i]); }
  }

  lemma LinkedDown(g: Graph, p: NodeIx, c: NodeIx, bandwidth: nat, n: NodeIx, i: nat)
    requires Paired(g) && p < |g.nodes| && c < |g.nodes| && n < |g.nodes|
    requires i < |Linked(g, p, c, bandwidth).nodes[n].children|
    ensures DownLink(Linked(g, p, c, bandwidth), n, Linked(g, p, c, bandwidth).nodes[n].children[i])
  {
    LinkedNode(g, p, c, bandwidth, n);
    if i < |g.nodes[n].children| { assert DownLink(g, n, g.nodes[n].children[i]); }
  }

  lemma NodeAddedStepped(g: Graph, name: Name, depth: nat)
    requires Stepped(g) && depth >= 1
    ensures Stepped(NodeAdded(g, name, depth))
  {
    hide Paired;
    NodeAddedPaired(g, name, depth);
    forall l | 0 <= l < |g.edges| && l % 2 == 1 ensures StepsUp(NodeAdded(g, name, depth), l) { assert StepsUp(g, l); }
  }

  /** A link between adjacent layers keeps links one layer long. */
  lemma LinkedStepped(g: Graph, p: NodeIx, c: NodeIx, bandwidth: nat)
    requires Stepped(g) && p < |g.nodes| && c < |g.nodes| && g.nodes[p].depth + 1 == g.nodes[c].depth
    ensures Stepped(Linked(g, p, c, bandwidth))
  {
    assert |g.edges| % 2 == 0 by { assert Paired(g); }
    hide Paired;
    var g' := Linked(g, p, c, bandwidth);
    LinkedPaired(g, p, c, bandwidth);
    forall l | 0 <= l < |g'.edges| && l % 2 == 1 ensures StepsUp(g', l) {
      LinkedNode(g, p, c, bandwidth, c);
      LinkedNode(g, p, c, bandwidth, p);
      if l < |g.edges| {
        assert StepsUp(g, l);
        LinkedNode(g, p, c, bandwidth, g.edges[l].source);
        LinkedNode(g, p, c, bandwidth, g.edges[l].target);
      }
    }
    forall n | 0 <= n < |g'.nodes| ensures g'.nodes[n].depth >= 1 { LinkedNode(g, p, c, bandwidth, n); }
  }

  /** A new node hung under a node of a tree makes a larger tree. */
  lemma HungUnder(g: Graph, name: Name, p: NodeIx, bandwidth: nat)
    requires Tree(g) && p < |g.nodes|
    ensures Tree(Linked(NodeAdded(g, name, g.nodes[p].depth + 1), p, |g.nodes|, bandwidth))
  {
    hide Paired;
    var g1 := NodeAdded(g, name, g.nodes[p].depth + 1);
    NodeAddedStepped(g, name, g.nodes[p].depth + 1);
    LinkedStepped(g1, p, |g.nodes|, bandwidth);
    var g' := Linked(g1, p, |g.nodes|, bandwidth);
    forall n | 0 <= n < |g'.nodes|
      ensures |g'.nodes[n].parent| <= 1 && (g'.nodes[n].depth > 1 ==> g'.nodes[n].parent != [])
      ensures g'.nodes[n].depth == 1 ==> n < |g.nodes| && g.nodes[n].depth == 1
    {
      LinkedNode(g1, p, |g.nodes|, bandwidth, n);
    }
  }

  /*** Many links up ***/

  /** Nodes of the graph. */
  ghost predicate Row(g: Graph, ys: seq<NodeIx>) {
    forall i :: 0 <= i < |ys| ==> ys[i] < |g.nodes|
  }

  /** All links up from nodes `ys`, in order. */
  function UpLinks(g: Graph, ys: seq<NodeIx>): seq<LinkIx>
    requires forall i :: 0 <= i < |ys| ==> ys[i] < |g.nodes|
  {
    if ys == [] then [] else UpLinks(g, ys[..|ys| - 1]) + g.nodes[ys[|ys| - 1]].parent
  }

  function Targets(g: Graph, links: seq<LinkIx>): seq<NodeIx>
    requires forall i :: 0 <= i < |links| ==> links[i] < |g.edges|
  {
    seq(|links|, i requires 0 <= i < |links| => g.edges[links[i]].target)
  }

  lemma {:induction false} UpLinksFrom(g: Graph, ys: seq<NodeIx>)
    requires Paired(g) && Row(g, ys)
    ensures forall i :: 0 <= i < |UpLinks(g, ys)| ==>
              && UpLinks(g, ys)[i] < |g.edges| && UpLinks(g, ys)[i] % 2 == 1 && g.edges[UpLinks(g, ys)[i]].source in ys
              && g.edges[UpLinks(g, ys)[i]].target < |g.nodes|
    decreases |ys|
  {
    hide Paired;
    if ys != [] {
      var last := ys[|ys| - 1];
      UpLinksFrom(g, ys[..|ys| - 1]);
      forall i | 0 <= i < |g.nodes[last].parent|
        ensures g.nodes[last].parent[i] < |g.edges| && g.nodes[last].parent[i] % 2 == 1
                && g.edges[g.nodes[last].parent[i]].source == last
        ensures g.edges[g.nodes[last].parent[i]].target < |g.nodes|
      {
        ParentLink(g, last, i);
      }
      var before := UpLinks(g, ys[..|ys| - 1]);
      forall i | 0 <= i < |UpLinks(g, ys)|
        ensures UpLinks(g, ys)[i] < |g.edges| && UpLinks(g, ys)[i] % 2 == 1 && g.edges[UpLinks(g, ys)[i]].source in ys
      {
        if i < |before| {
          assert UpLinks(g, ys)[i] == before[i];
          assert g.edges[before[i]].source in ys[..|ys| - 1];
        }
      }
    }
  }

  lemma ParentLink(g: Graph, n: NodeIx, i: nat)
    requires Paired(g) && n < |g.nodes| && i < |g.nodes[n].parent|
    ensures var l := g.nodes[n].parent[i];
            && l < |g.edges| && l % 2 == 1 && g.edges[l].source == n && g.edges[l].target < |g.nodes|
            && Reverse(l) < |g.edges| && Reverse(l) % 2 == 0 && g.edges[Reverse(l)].source == g.edges[l].target
               && g.edges[Reverse(l)].target == n
  {
    var l := g.nodes[n].parent[i];
    assert UpLink(g, n, l);
    assert LinkOk(g, l);
  }

  /** All nodes `k` links up from `y`, once for each way. */
  ghost function Level(g: Graph, y: NodeIx, k: nat): (ys: seq<NodeIx>)
    requires Paired(g) && y < |g.nodes|
    ensures Row(g, ys)
    decreases k
  {
    if k == 0 then [y]
    else
      var before := Level(g, y, k - 1);
      UpLinksFrom(g, before);
      Targets(g, UpLinks(g, before))
  }

  /** Where links up are one layer long, all of them are in the same layer. */
  lemma {:induction false} LevelDepth(g: Graph, y: NodeIx, k: nat, x: NodeIx)
    requires Stepped(g) && y < |g.nodes| && x in Level(g, y, k)
    ensures x < |g.nodes| && g.nodes[x].depth + k == g.nodes[y].depth
    decreases k
  {
    hide Paired;
    if k > 0 {
      var before := Level(g, y, k - 1);
      UpLinksFrom(g, before);
      var links := UpLinks(g, before);
      var i :| 0 <= i < |links| && g.edges[links[i]].target == x;
      LevelDepth(g, y, k - 1, g.edges[links[i]].source);
      assert StepsUp(g, links[i]);
    }
  }
}

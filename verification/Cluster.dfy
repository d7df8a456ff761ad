/** The cluster: a mutable topology, its builders and its routes. */
module Cluster {
  import opened Options
  import opened Topology

  /** Virtual addresses: given or not. */
  datatype RouteHint = VirtAddr(vsrc: Option<nat>, vdst: Option<nat>)

  function Reversed(s: seq<LinkIx>): (r: seq<LinkIx>) {
    if s == [] then [] else Reversed(s[1..]) + [s[0]]
  }

  lemma {:induction false} ReversedMore(s: seq<LinkIx>, l: LinkIx)
    ensures Reversed(s + [l]) == [l] + Reversed(s)
    decreases |s|
  {
    if s != [] {
      ReversedMore(s[1..], l);
      assert (s + [l])[1..] == s[1..] + [l];
    }
  }

  lemma {:induction false} ReversedLength(s: seq<LinkIx>)
    ensures |Reversed(s)| == |s| && forall l :: l in Reversed(s) <==> l in s
  {
    if s != [] { ReversedLength(s[1..]); }
  }

  lemma {:induction false} ReversedAt(s: seq<LinkIx>, i: nat)
    requires i < |s|
    ensures |Reversed(s)| == |s| && Reversed(s)[|s| - 1 - i] == s[i]
    decreases |s|
  {
    ReversedLength(s);
    ReversedLength(s[1..]);
    if i > 0 { ReversedAt(s[1..], i - 1); }
  }

  ghost predicate NamesOk(nodes: seq<Node>, nodeMap: map<Name, NodeIx>) {
    && (forall name :: name in nodeMap ==> nodeMap[name] < |nodes| && nodes[nodeMap[name]].name == name)
    && forall n :: 0 <= n < |nodes| ==> nodes[n].name in nodeMap && nodeMap[nodes[n].name] == n
  }

  class Cluster {
    var nodes: seq<Node>
    var edges: seq<Edge>
    var nodeMap: map<Name, NodeIx>

    ghost function TheGraph(): Graph
      reads this
    {
      Graph(nodes, edges)
    }

    ghost predicate Valid()
      reads this
    {
      Paired(TheGraph()) && NamesOk(nodes, nodeMap)
    }

    constructor ()
      ensures Valid() && nodes == [] && edges == [] && nodeMap == map[]
    {
      nodes, edges, nodeMap := [], [], map[];
    }

    /** `add_node`; a name may be used once. */
    method AddNode(name: Name, depth: nat) returns (n: NodeIx)
      requires Valid() && name !in nodeMap
      modifies this
      ensures Valid() && n == old(|nodes|) && TheGraph() == NodeAdded(old(TheGraph()), name, depth)
      ensures nodeMap == old(nodeMap)[name := n]
    {
      hide Paired;
      NodeAddedPaired(TheGraph(), name, depth);
      n := |nodes|;
      nodes := nodes + [Node(name, depth, [], [])];
      nodeMap := nodeMap[name := n];
    }

    /** `add_link_by_name`. */
    method AddLinkByName(parent: Name, child: Name, bandwidth: nat)
      requires Valid() && parent in nodeMap && child in nodeMap
      modifies this
      ensures Valid() && nodeMap == old(nodeMap)
      ensures TheGraph() == Linked(old(TheGraph()), nodeMap[parent], nodeMap[child], bandwidth)
    {
      hide Paired;
      ghost var g := TheGraph();
      var pnode, cnode := nodeMap[parent], nodeMap[child];
      LinkedPaired(g, pnode, cnode, bandwidth);
      var l1 := |edges|;
      edges := edges + [Edge(pnode, cnode, bandwidth)];
      var l2 := |edges|;
      edges := edges + [Edge(cnode, pnode, bandwidth)];
      nodes := nodes[pnode := nodes[pnode].(children := nodes[pnode].children + [l1])];
      nodes := nodes[cnode := nodes[cnode].(parent := nodes[cnode].parent + [l2])];
      assert edges == g.edges + [Edge(pnode, cnode, bandwidth), Edge(cnode, pnode, bandwidth)];
      forall n | 0 <= n < |nodes|
          ensures nodes[n].name == g.nodes[n].name { LinkedNode(g, pnode, cnode, bandwidth, n); }
    }

    /** `resolve_route`: up from both ends by first links until they meet.  `None` where the program
        gives up: there is no link up, or the ends do not meet. */
    method ResolveRoute(src: Name, dst: Name, hint: RouteHint) returns (route: Option<seq<LinkIx>>)
      requires Valid() && src in nodeMap && dst in nodeMap && nodes[nodeMap[src]].depth == nodes[nodeMap[dst]].depth
      ensures route.Some? ==> Walk(TheGraph(), nodeMap[src], route.value, nodeMap[dst])
      ensures route.Some? && Stepped(TheGraph()) ==> AllDifferent(route.value)
      ensures !Colocated(src, dst, hint) ==> RouteIs(TheGraph(), nodeMap[src], nodeMap[dst], route)
      ensures Colocated(src, dst, hint) ==> (route.Some? <==> nodes[nodeMap[src]].parent != [])
      ensures Colocated(src, dst, hint) && route.Some? ==>
                nodes[nodeMap[src]].parent != []
                    && route.value == [nodes[nodeMap[src]].parent[0], Reverse(nodes[nodeMap[src]].parent[0])]
      ensures Tree(TheGraph()) && (Colocated(src, dst, hint) ==> nodes[nodeMap[src]].depth > 1) ==> route.Some?
      ensures Tree(TheGraph()) && route.Some? && !Colocated(src, dst, hint) ==>
                forall p :: Walk(TheGraph(), nodeMap[src], p, nodeMap[dst]) ==> |route.value| <= |p|
    {
      hide Paired, Tree, Stepped, Walk, AllDifferent, Upwards, Downwards, RouteIs, Climbing;
      ghost var g := TheGraph();
      var srcId, dstId := nodeMap[src], nodeMap[dst];
      var depth := nodes[srcId].depth;
      if Colocated(src, dst, hint) {
        if nodes[srcId].parent == [] {
          if Tree(g) { TreeHasParents(g, srcId); }
          return None;
        }
        ThereAndBack(g, srcId);
        return Some([nodes[srcId].parent[0], Reverse(nodes[srcId].parent[0])]);
      }
      ghost var d := depth;
      var path1, path2: seq<LinkIx> := [], [];
      var x: NodeIx, y: NodeIx := srcId, dstId;
      StartRoute(g, x, y);
      while x != y && depth > 1
        invariant x < |nodes| && y < |nodes| && depth <= d
        invariant Walk(g, srcId, path1, x) && Walk(g, y, Reversed(path2), dstId) && |path1| == |path2| == d - depth
        invariant Climbing(g, srcId, dstId, path1, path2, x, y) && (path1 != [] ==> depth >= 1)
        invariant Stepped(g) ==> nodes[x].depth == depth == nodes[y].depth && Upwards(g, path1, d)
                                 && Downwards(g, path2, d)
        invariant Tree(g) ==> ClimbedTo(g, srcId, dstId, x, y, depth, d)
        decreases depth
      {
        if nodes[x].parent == [] || nodes[y].parent == [] {
          if Tree(g) {
            TreeIsStepped(g);
            TreeHasParents(g, x);
            TreeHasParents(g, y);
          }
          NoClimb(g, srcId, dstId, path1, path2, x, y);
          return None;
        }
        var parx, pary := nodes[x].parent[0], nodes[y].parent[0];
        ParentLink(g, x, 0);
        ParentLink(g, y, 0);
        ClimbOn(g, srcId, path1, x, y, path2, dstId);
        ClimbingOn(g, srcId, dstId, path1, path2, x, y);
        if Stepped(g) { ClimbInLayers(g, path1, x, y, path2, d); }
        if Tree(g) { TreeClimbs(g, srcId, dstId, x, y, depth, d); }
        x, y := edges[parx].target, edges[pary].target;
        depth := depth - 1;
        path1 := path1 + [parx];
        path2 := path2 + [Reverse(pary)];
      }
      if x != y {
        if Tree(g) {
          TreeIsStepped(g);
          OneRoot(g, x, y);
        }
        NoClimb(g, srcId, dstId, path1, path2, x, y);
        return None;
      }
      ClimbsMeet(g, srcId, dstId, path1, path2, x);
      WalkOn(g, srcId, path1, x, Reversed(path2), dstId);
      if Stepped(g) { UpThenDownDiffer(g, path1, path2, d); }
      ReversedLength(path2);
      if Tree(g) { RouteIsShortest(g, srcId, dstId, x, y, depth, d, path1 + Reversed(path2)); }
      return Some(path1 + Reversed(path2));
    }

    /** `resolve_route_multipath`: up from the source by links that the load balancer picks (any hash is
        possible), level by level up from the destination by all links, until they meet; and back down. */
    method ResolveRouteMultipath(balanced: bool, src: Name, dst: Name, hint: RouteHint)
        returns (route: Option<seq<LinkIx>>)
      requires Valid() && src in nodeMap && dst in nodeMap && nodes[nodeMap[src]].depth == nodes[nodeMap[dst]].depth
      ensures route.Some? ==> Walk(TheGraph(), nodeMap[src], route.value, nodeMap[dst])
      ensures !(balanced && src != dst) && !Colocated(src, dst, hint) ==>
                RouteIs(TheGraph(), nodeMap[src], nodeMap[dst], route)
      ensures !(balanced && src != dst) && Colocated(src, dst, hint) ==>
                (route.Some? <==> nodes[nodeMap[src]].parent != [])
      ensures balanced && src != dst ==> if route.Some? then Met(TheGraph(), nodeMap[src], nodeMap[dst], route.value)
                                         else Missed(TheGraph(), nodeMap[src], nodeMap[dst])
    {
      hide Paired, Walk, Met, Missed, Level, RouteIs;
      if !balanced || src == dst {
        route := ResolveRoute(src, dst, hint);
        SameName(nodes, nodeMap, src, dst);
        return;
      }
      SameName(nodes, nodeMap, src, dst);
      var srcId, dstId := nodeMap[src], nodeMap[dst];
      var path1, x, ys, ysFrom, found := ClimbToMeet(srcId, dstId);
      if !found {
        return None;
      }
      var path2 := Descend(srcId, dstId, path1, x, ys, ysFrom);
      return Some(path1 + path2);
    }

    /** The first pass: up from both ends.  `found` is false where the program gives up. */
    method ClimbToMeet(srcId: NodeIx, dstId: NodeIx)
      returns (path1: seq<LinkIx>, x: NodeIx, ys: seq<seq<NodeIx>>, ysFrom: seq<seq<LinkIx>>, found: bool)
      requires Paired(TheGraph()) && srcId < |nodes| && dstId < |nodes| && srcId != dstId
      ensures !found ==> Missed(TheGraph(), srcId, dstId)
      ensures found ==> Climbed(TheGraph(), srcId, dstId, path1, x) && |path1| > 0
                        && x in Level(TheGraph(), dstId, |path1|)
      ensures found ==> |ys| == |path1| + 1 && LevelsAre(TheGraph(), dstId, ys, ysFrom)
    {
      hide Paired, Walk, Missed, Level, Climbed, LevelsAre, Row;
      ghost var g := TheGraph();
      var depth := nodes[srcId].depth;
      path1, x, ys, ysFrom := [], srcId, [[dstId]], [[]];
      StartClimb(g, srcId, dstId);
      while x !in ys[|ys| - 1] && depth > 1
        invariant |ys| == |path1| + 1 && LevelsAre(g, dstId, ys, ysFrom) && Climbed(g, srcId, dstId, path1, x)
        invariant depth + |path1| == nodes[srcId].depth
        invariant x < |nodes| && ys[|ys| - 1] == Level(g, dstId, |path1|)
        decreases depth
      {
        if nodes[x].parent == [] {
          NoWayUp(g, srcId, dstId, path1, x);
          found := false;
          return;
        }
        var hash: nat := *;
        var choice := hash % |nodes[x].parent|;
        var parx := nodes[x].parent[choice];
        ParentLink(g, x, choice);
        ClimbOne(g, srcId, dstId, path1, x, choice);
        var ysNext, ysFromNext := OneLevelUp(ys[|ys| - 1]);
        LevelAbove(g, dstId, ys, ysFrom, ys[|ys| - 1], ysNext, ysFromNext);
        x := edges[parx].target;
        path1 := path1 + [parx];
        depth := depth - 1;
        ys := ys + [ysNext];
        ysFrom := ysFrom + [ysFromNext];
      }
      found := x in ys[|ys| - 1];
      if found {
        NotAtOnce(g, srcId, dstId, path1, x);
      } else {
        NoWayUp(g, srcId, dstId, path1, x);
      }
    }

    /** All nodes one link up from `ys`, and the links. */
    method OneLevelUp(ys: seq<NodeIx>) returns (ysNext: seq<NodeIx>, ysFromNext: seq<LinkIx>)
      requires Paired(TheGraph()) && Row(TheGraph(), ys)
      ensures forall i :: 0 <= i < |ys| ==> ys[i] < |nodes|
      ensures ysFromNext == UpLinks(TheGraph(), ys)
      ensures forall i :: 0 <= i < |ysFromNext| ==> ysFromNext[i] < |edges|
      ensures ysNext == Targets(TheGraph(), ysFromNext)
    {
      hide Paired;
      ghost var g := TheGraph();
      UpLinksFrom(g, ys);
      ysNext, ysFromNext := [], [];
      for i := 0 to |ys|
        invariant ysFromNext == UpLinks(g, ys[..i]) && (forall j :: 0 <= j < |ysFromNext| ==> ysFromNext[j] < |edges|)
        invariant ysNext == Targets(g, ysFromNext)
      {
        assert ys[..i + 1][..i] == ys[..i];
        var parents := nodes[ys[i]].parent;
        forall j | 0 <= j < |parents| ensures parents[j] < |edges| { ParentLink(g, ys[i], j); }
        TargetsOfBoth(g, ysFromNext, parents);
        ysNext := ysNext + Targets(Graph(nodes, edges), parents);
        ysFromNext := ysFromNext + parents;
      }
      assert ys[..|ys|] == ys;
    }

    /** The second pass: from the meeting point down to the destination. */
    method Descend(srcId: NodeIx, dstId: NodeIx, path1: seq<LinkIx>, meet: NodeIx, levels: seq<seq<NodeIx>>,
        levelsFrom: seq<seq<LinkIx>>)
      returns (path2: seq<LinkIx>)
      requires Paired(TheGraph()) && srcId < |nodes| && dstId < |nodes|
      requires Climbed(TheGraph(), srcId, dstId, path1, meet) && |path1| > 0
      requires |levels| == |path1| + 1 && LevelsAre(TheGraph(), dstId, levels, levelsFrom) && meet in levels[|path1|]
      ensures Walk(TheGraph(), srcId, path1 + path2, dstId) && Met(TheGraph(), srcId, dstId, path1 + path2)
    {
      hide Paired, Walk, Met, Climbed, LevelsAre, Row;
      ghost var g := TheGraph();
      var x, ys, ysFrom := meet, levels, levelsFrom;
      path2 := [];
      ClimbedWalks(g, srcId, dstId, path1, meet);
      SameLevels(g, dstId, levels, levelsFrom);
      while x != dstId && ys != []
        invariant 0 < |ys| == |ysFrom| <= |levels| && ys == levels[..|ys|] && ysFrom == levelsFrom[..|ys|]
        invariant x in ys[|ys| - 1] && Walk(g, meet, path2, x) && |path2| == |path1| + 1 - |ys|
        invariant forall i :: 0 <= i < |path2| ==> path2[i] % 2 == 0
        decreases |ys|
      {
        var m := |ys| - 1;
        var ysLast, ysFromLast := ys[m], ysFrom[m];
        ys, ysFrom := ys[..m], ysFrom[..m];
        LevelBelow(g, dstId, levels, levelsFrom, m, x);
        var pos := IndexOf(ysLast, x);
        StepDown(g, dstId, levels, levelsFrom, m, x, pos);
        var parx := ysFromLast[pos];
        OneLink(g, Reverse(parx));
        WalkOn(g, meet, path2, x, [Reverse(parx)], edges[parx].source);
        x := edges[parx].source;
        path2 := path2 + [Reverse(parx)];
      }
      if Stepped(g) { OnlyAtTheBottom(g, dstId, levels, levelsFrom, |ys| - 1, x); }
      WalkOn(g, srcId, path1, meet, path2, dstId);
      MetHere(g, srcId, dstId, path1, meet, path2)
          by { assert levels[|path1|] == LevelAt(g, dstId, levels, levelsFrom, |path1|); }
    }
  }

  function IndexOf(s: seq<NodeIx>, x: NodeIx): (i: nat)
    requires x in s
    ensures i < |s| && s[i] == x && x !in s[..i]
  {
    if s[0] == x then 0
    else
      assert x in s[1..];
      var i := IndexOf(s[1..], x);
      assert s[..i + 1] == [s[0]] + s[1..][..i];
      i + 1
  }

  lemma SameName(nodes: seq<Node>, nodeMap: map<Name, NodeIx>, a: Name, b: Name)
    requires NamesOk(nodes, nodeMap) && a in nodeMap && b in nodeMap
    ensures nodeMap[a] == nodeMap[b] <==> a == b
  {
  }

  /** Up by one link at a time from `src` to `x`, never yet at a node that is as many links above `dst`. */
  ghost predicate Climbed(g: Graph, src: NodeIx, dst: NodeIx, path: seq<LinkIx>, x: NodeIx)
    requires Paired(g) && dst < |g.nodes|
  {
    && Walk(g, src, path, x) && x < |g.nodes|
    && forall i :: 0 <= i < |path| ==>
         path[i] < |g.edges| && path[i] % 2 == 1 && g.edges[path[i]].source !in Level(g, dst, i)
  }

  /** The route goes up by `k` links, to the first node that is as many links above `dst`, and then down by no
      more; by as many, where links up are one layer long. */
  ghost predicate MetAfter(g: Graph, src: NodeIx, dst: NodeIx, route: seq<LinkIx>, k: nat)
    requires Paired(g) && dst < |g.nodes|
  {
    && 0 < k <= |route| <= 2 * k && (forall i :: k <= i < |route| ==> route[i] % 2 == 0)
    && (exists x: NodeIx :: Climbed(g, src, dst, route[..k], x) && x in Level(g, dst, k))
    && (Stepped(g) ==> |route| == 2 * k)
  }

  ghost predicate Met(g: Graph, src: NodeIx, dst: NodeIx, route: seq<LinkIx>)
    requires Paired(g) && dst < |g.nodes|
  {
    exists k: nat :: MetAfter(g, src, dst, route, k)
  }

  /** Some climb from `src` ends where there is no link up, or where the depth of `src` is used up, without
      meeting any climb from `dst`. */
  ghost predicate Missed(g: Graph, src: NodeIx, dst: NodeIx)
    requires Paired(g) && dst < |g.nodes| && src < |g.nodes|
  {
    exists path, x: NodeIx ::
      Climbed(g, src, dst, path, x) && x !in Level(g, dst, |path|) && (g.nodes[x].parent == []
          || g.nodes[src].depth <= |path| + 1)
  }

  /** `ys` are the levels above `dst`, and `ysFrom` the links that lead into them. */
  ghost predicate LevelsAre(g: Graph, dst: NodeIx, ys: seq<seq<NodeIx>>, ysFrom: seq<seq<LinkIx>>)
    requires Paired(g) && dst < |g.nodes|
  {
    && 0 < |ys| == |ysFrom|
    && forall k :: 0 <= k < |ys| ==>
       ys[k] == Level(g, dst, k) && (k > 0 ==> ysFrom[k] == UpLinks(g, Level(g, dst, k - 1)))
  }

  lemma StartClimb(g: Graph, src: NodeIx, dst: NodeIx)
    requires Paired(g) && src < |g.nodes| && dst < |g.nodes|
    ensures LevelsAre(g, dst, [[dst]], [[]]) && Climbed(g, src, dst, [], src) && Level(g, dst, 0) == [dst]
  {
  }

  lemma ClimbOne(g: Graph, src: NodeIx, dst: NodeIx, path: seq<LinkIx>, x: NodeIx, choice: nat)
    requires Paired(g) && dst < |g.nodes| && Climbed(g, src, dst, path, x) && x !in Level(g, dst, |path|)
    requires choice < |g.nodes[x].parent|
    ensures var l := g.nodes[x].parent[choice]; l < |g.edges| && Climbed(g, src, dst, path + [l], g.edges[l].target)
  {
    hide Paired, Walk, Level;
    ParentLink(g, x, choice);
    var l := g.nodes[x].parent[choice];
    OneLink(g, l);
    WalkOn(g, src, path, x, [l], g.edges[l].target);
  }

  /** Where links up are one layer long, a climb changes the layer by one per link. */
  lemma {:induction false} ClimbDepth(g: Graph, src: NodeIx, path: seq<LinkIx>, x: NodeIx)
    requires Stepped(g) && Walk(g, src, path, x) && src < |g.nodes|
    requires forall i :: 0 <= i < |path| ==> path[i] < |g.edges| && path[i] % 2 == 1
    ensures x < |g.nodes| && g.nodes[x].depth + |path| == g.nodes[src].depth
    decreases |path|
  {
    hide Paired;
    if path != [] {
      assert StepsUp(g, path[0]);
      ClimbDepth(g, g.edges[path[0]].target, path[1..], x);
    }
  }

  lemma NoWayUp(g: Graph, src: NodeIx, dst: NodeIx, path: seq<LinkIx>, x: NodeIx)
    requires Paired(g) && dst < |g.nodes| && src < |g.nodes| && Climbed(g, src, dst, path, x)
             && x !in Level(g, dst, |path|)
    requires g.nodes[x].parent == [] || g.nodes[src].depth <= |path| + 1
    ensures Missed(g, src, dst)
  {
  }

  lemma NotAtOnce(g: Graph, src: NodeIx, dst: NodeIx, path: seq<LinkIx>, x: NodeIx)
    requires Paired(g) && dst < |g.nodes| && Climbed(g, src, dst, path, x) && x in Level(g, dst, |path|) && src != dst
    ensures |path| > 0
  {
    hide Paired;
  }

  lemma TargetsOfBoth(g: Graph, links: seq<LinkIx>, more: seq<LinkIx>)
    requires (forall i :: 0 <= i < |links| ==> links[i] < |g.edges|) && (forall i :: 0 <= i < |more| ==>
             more[i] < |g.edges|)
    ensures Targets(g, links + more) == Targets(g, links) + Targets(g, more)
  {
  }

  lemma LevelAbove(g: Graph, dst: NodeIx, ys: seq<seq<NodeIx>>, ysFrom: seq<seq<LinkIx>>, top: seq<NodeIx>,
      next: seq<NodeIx>, nextFrom: seq<LinkIx>)
    requires Paired(g) && dst < |g.nodes| && LevelsAre(g, dst, ys, ysFrom)
    requires top == ys[|ys| - 1] && (forall i :: 0 <= i < |top| ==> top[i] < |g.nodes|) && nextFrom == UpLinks(g, top)
    requires (forall i :: 0 <= i < |nextFrom| ==> nextFrom[i] < |g.edges|) && next == Targets(g, nextFrom)
    ensures LevelsAre(g, dst, ys + [next], ysFrom + [nextFrom]) && next == Level(g, dst, |ys|)
  {
    hide Paired;
  }

  lemma ClimbedWalks(g: Graph, src: NodeIx, dst: NodeIx, path: seq<LinkIx>, x: NodeIx)
    requires Paired(g) && dst < |g.nodes| && Climbed(g, src, dst, path, x)
    ensures Walk(g, src, path, x) && Walk(g, x, [], x)
  {
  }

  lemma SameLevels(g: Graph, dst: NodeIx, ys: seq<seq<NodeIx>>, ysFrom: seq<seq<LinkIx>>)
    requires Paired(g) && dst < |g.nodes| && LevelsAre(g, dst, ys, ysFrom)
    ensures |ysFrom| == |ys| && ys[..|ys|] == ys && ysFrom[..|ys|] == ysFrom
  {
  }

  ghost function LevelAt(g: Graph, dst: NodeIx, ys: seq<seq<NodeIx>>, ysFrom: seq<seq<LinkIx>>,
      k: nat): (level: seq<NodeIx>)
    requires Paired(g) && dst < |g.nodes| && LevelsAre(g, dst, ys, ysFrom) && k < |ys|
    ensures level == ys[k] == Level(g, dst, k)
  {
    ys[k]
  }

  /** Only the destination itself is in its level 0. */
  lemma LevelBelow(g: Graph, dst: NodeIx, ys: seq<seq<NodeIx>>, ysFrom: seq<seq<LinkIx>>, m: nat, x: NodeIx)
    requires Paired(g) && dst < |g.nodes| && LevelsAre(g, dst, ys, ysFrom) && m < |ys| && x in ys[m] && x != dst
    ensures m > 0
  {
    hide Paired;
  }

  /** The link by which `x` was reached leads back to the level below. */
  lemma StepDown(g: Graph, dst: NodeIx, ys: seq<seq<NodeIx>>, ysFrom: seq<seq<LinkIx>>, m: nat, x: NodeIx, pos: nat)
    requires Paired(g) && dst < |g.nodes| && LevelsAre(g, dst, ys, ysFrom) && 0 < m < |ys| && pos < |ys[m]|
             && ys[m][pos] == x
    ensures pos < |ysFrom[m]| && ysFrom[m][pos] < |g.edges| && Reverse(ysFrom[m][pos]) < |g.edges|
            && Reverse(ysFrom[m][pos]) % 2 == 0
    ensures g.edges[Reverse(ysFrom[m][pos])].source == x
            && g.edges[Reverse(ysFrom[m][pos])].target == g.edges[ysFrom[m][pos]].source
    ensures g.edges[ysFrom[m][pos]].source in ys[m - 1]
  {
    hide Paired;
    UpLinksFrom(g, Level(g, dst, m - 1));
    var l := ysFrom[m][pos];
    ReverseSwapsEnds(g, l);
  }

  /** Where links up are one layer long, the destination is not above itself. */
  lemma OnlyAtTheBottom(g: Graph, dst: NodeIx, ys: seq<seq<NodeIx>>, ysFrom: seq<seq<LinkIx>>, m: nat, x: NodeIx)
    requires Stepped(g) && dst < |g.nodes| && LevelsAre(g, dst, ys, ysFrom) && m < |ys| && x in ys[m] && x == dst
    ensures m == 0
  {
    hide Paired;
    LevelDepth(g, dst, m, x);
  }

  lemma MetHere(g: Graph, src: NodeIx, dst: NodeIx, path1: seq<LinkIx>, x: NodeIx, path2: seq<LinkIx>)
    requires Paired(g) && dst < |g.nodes| && Climbed(g, src, dst, path1, x) && x in Level(g, dst, |path1|)
    requires |path2| <= |path1| && |path1| > 0 && (Stepped(g) ==> |path2| == |path1|)
             && forall i :: 0 <= i < |path2| ==> path2[i] % 2 == 0
    ensures Met(g, src, dst, path1 + path2)
  {
    hide Paired, Stepped, Climbed, Level;
    assert (path1 + path2)[..|path1|] == path1;
    assert MetAfter(g, src, dst, path1 + path2, |path1|);
  }

  predicate Colocated(src: Name, dst: Name, hint: RouteHint) {
    src == dst && hint.vsrc.Some? && hint.vdst.Some? && hint.vsrc != hint.vdst
  }

  ghost predicate AllDifferent(path: seq<LinkIx>) {
    forall i, j :: 0 <= i < j < |path| ==> path[i] != path[j]
  }

  /** The i-th link leads up out of layer `d - i`. */
  ghost predicate Upwards(g: Graph, path: seq<LinkIx>, d: nat) {
    forall i :: 0 <= i < |path| ==>
      path[i] < |g.edges| && path[i] % 2 == 1 && g.edges[path[i]].source < |g.nodes|
          && g.nodes[g.edges[path[i]].source].depth == d - i
  }

  /** The i-th link leads down into layer `d - i`. */
  ghost predicate Downwards(g: Graph, path: seq<LinkIx>, d: nat) {
    forall i :: 0 <= i < |path| ==>
      path[i] < |g.edges| && path[i] % 2 == 0 && g.edges[path[i]].target < |g.nodes|
          && g.nodes[g.edges[path[i]].target].depth == d - i
  }

  lemma ThereAndBack(g: Graph, n: NodeIx)
    requires Paired(g) && n < |g.nodes| && g.nodes[n].parent != []
    ensures var l := g.nodes[n].parent[0]; Walk(g, n, [l, Reverse(l)], n) && AllDifferent([l, Reverse(l)])
  {
    hide Paired;
    ParentLink(g, n, 0);
    var l := g.nodes[n].parent[0];
    OneLink(g, l);
    OneLink(g, Reverse(l));
    WalkOn(g, n, [l], g.edges[l].target, [Reverse(l)], n);
    assert [l] + [Reverse(l)] == [l, Reverse(l)];
  }

  lemma StartRoute(g: Graph, x: NodeIx, y: NodeIx)
    requires Paired(g) && x < |g.nodes| && y < |g.nodes| && g.nodes[x].depth == g.nodes[y].depth
    ensures Walk(g, x, [], x) && Walk(g, y, Reversed([]), y) && Upwards(g, [], g.nodes[x].depth)
            && Downwards(g, [], g.nodes[x].depth) && Climbing(g, x, y, [], [], x, y)
    ensures Tree(g) ==> ClimbedTo(g, x, y, x, y, g.nodes[x].depth, g.nodes[x].depth)
  {
  }

  /** Both climbs by first links so far, to `x` and `y`, which have not met before. */
  ghost predicate Climbing(g: Graph, src: NodeIx, dst: NodeIx, path1: seq<LinkIx>, path2: seq<LinkIx>, x: NodeIx,
      y: NodeIx)
    requires Paired(g) && src < |g.nodes| && dst < |g.nodes|
  {
    && |path1| == |path2| && UpBy(g, src, |path1|) == Some(x) && UpBy(g, dst, |path2|) == Some(y)
    && forall i: nat :: i < |path1| ==>
         && UpBy(g, src, i) != UpBy(g, dst, i) && IsFirstUp(g, UpBy(g, src, i), path1[i])
         && IsFirstUp(g, UpBy(g, dst, i), Reverse(path2[i]))
  }

  lemma ClimbingOn(g: Graph, src: NodeIx, dst: NodeIx, path1: seq<LinkIx>, path2: seq<LinkIx>, x: NodeIx, y: NodeIx)
    requires Paired(g) && src < |g.nodes| && dst < |g.nodes| && Climbing(g, src, dst, path1, path2, x, y) && x != y
    requires x < |g.nodes| && y < |g.nodes| && g.nodes[x].parent != [] && g.nodes[y].parent != []
    ensures g.nodes[x].parent[0] < |g.edges| && g.nodes[y].parent[0] < |g.edges|
    ensures var lx, ly := g.nodes[x].parent[0], g.nodes[y].parent[0];
            Climbing(g, src, dst, path1 + [lx], path2 + [Reverse(ly)], g.edges[lx].target, g.edges[ly].target)
  {
    hide Paired;
    ParentLink(g, x, 0);
    ParentLink(g, y, 0);
  }

  /** There is no way on, because a link up is missing or the depth is used up. */
  lemma NoClimb(g: Graph, src: NodeIx, dst: NodeIx, path1: seq<LinkIx>, path2: seq<LinkIx>, x: NodeIx, y: NodeIx)
    requires Paired(g) && src < |g.nodes| && dst < |g.nodes| && Climbing(g, src, dst, path1, path2, x, y) && x != y
    requires x < |g.nodes| && y < |g.nodes|
    requires g.nodes[x].parent == [] || g.nodes[y].parent == [] || g.nodes[src].depth <= |path1| + 1
    ensures RouteIs(g, src, dst, None)
  {
    hide Paired;
    forall k: nat | InReach(g, src, k) ensures !MeetAt(g, src, dst, k) {
      if k > |path1| && MeetAt(g, src, dst, k) {
        UpByLess(g, src, k, |path1| + 1);
        UpByLess(g, dst, k, |path1| + 1);
      }
    }
  }

  lemma ClimbsMeet(g: Graph, src: NodeIx, dst: NodeIx, path1: seq<LinkIx>, path2: seq<LinkIx>, x: NodeIx)
    requires Paired(g) && src < |g.nodes| && dst < |g.nodes| && Climbing(g, src, dst, path1, path2, x, x)
    requires InReach(g, src, |path1|)
    ensures RouteIs(g, src, dst, Some(path1 + Reversed(path2)))
  {
    hide Paired, UpBy;
    var k, r := |path1|, path1 + Reversed(path2);
    ReversedLength(path2);
    forall i: nat | i < k ensures r[2 * k - 1 - i] == path2[i] { ReversedAt(path2, i); }
    assert UpThenDown(g, src, dst, k, r);
  }

  lemma ClimbOn(g: Graph, src: NodeIx, path1: seq<LinkIx>, x: NodeIx, y: NodeIx, path2: seq<LinkIx>, dst: NodeIx)
    requires Paired(g) && x < |g.nodes| && y < |g.nodes| && g.nodes[x].parent != [] && g.nodes[y].parent != []
    requires Walk(g, src, path1, x) && Walk(g, y, Reversed(path2), dst)
    ensures g.nodes[x].parent[0] < |g.edges| && g.nodes[y].parent[0] < |g.edges|
    ensures var lx, ly := g.nodes[x].parent[0], g.nodes[y].parent[0];
            && Walk(g, src, path1 + [lx], g.edges[lx].target)
            && Walk(g, g.edges[ly].target, Reversed(path2 + [Reverse(ly)]), dst)
  {
    hide Paired, Walk;
    ParentLink(g, x, 0);
    ParentLink(g, y, 0);
    var lx, ly := g.nodes[x].parent[0], g.nodes[y].parent[0];
    OneLink(g, lx);
    WalkOn(g, src, path1, x, [lx], g.edges[lx].target);
    OneLink(g, Reverse(ly));
    WalkOn(g, g.edges[ly].target, [Reverse(ly)], y, Reversed(path2), dst);
    ReversedMore(path2, Reverse(ly));
  }

  /** Both climbs go up by one layer. */
  lemma ClimbInLayers(g: Graph, path1: seq<LinkIx>, x: NodeIx, y: NodeIx, path2: seq<LinkIx>, d: nat)
    requires Stepped(g) && x < |g.nodes| && y < |g.nodes| && g.nodes[x].parent != [] && g.nodes[y].parent != []
    requires |path1| == |path2| == d - g.nodes[x].depth && Upwards(g, path1, d) && Downwards(g, path2, d)
             && g.nodes[x].depth == g.nodes[y].depth <= d
    ensures g.nodes[x].parent[0] < |g.edges| && g.nodes[y].parent[0] < |g.edges|
    ensures var lx, ly := g.nodes[x].parent[0], g.nodes[y].parent[0];
            && Upwards(g, path1 + [lx], d) && Downwards(g, path2 + [Reverse(ly)], d)
            && g.edges[lx].target < |g.nodes| && g.nodes[g.edges[lx].target].depth + 1 == g.nodes[x].depth
            && g.edges[ly].target < |g.nodes| && g.nodes[g.edges[ly].target].depth + 1 == g.nodes[y].depth
  {
    hide Paired;
    ParentLink(g, x, 0);
    ParentLink(g, y, 0);
    assert StepsUp(g, g.nodes[x].parent[0]) && StepsUp(g, g.nodes[y].parent[0]);
  }

  lemma TreeIsStepped(g: Graph)
    requires Tree(g)
    ensures Stepped(g)
  {
  }

  lemma UpThenDownDiffer(g: Graph, path1: seq<LinkIx>, path2: seq<LinkIx>, d: nat)
    requires Upwards(g, path1, d) && Downwards(g, path2, d)
    ensures AllDifferent(path1 + Reversed(path2))
  {
    ReversedDiffers(g, path2, d);
    ReversedLength(path2);
    var r := Reversed(path2);
    forall i | 0 <= i < |r| ensures r[i] % 2 == 0 { assert r[i] in path2; }
  }

  lemma {:induction false} ReversedDiffers(g: Graph, path: seq<LinkIx>, d: int)
    requires forall i :: 0 <= i < |path| ==> path[i] < |g.edges| && g.edges[path[i]].target < |g.nodes|
                                             && g.nodes[g.edges[path[i]].target].depth == d - i
    ensures AllDifferent(Reversed(path))
    decreases |path|
  {
    if path != [] {
      ReversedDiffers(g, path[1..], d - 1);
      ReversedLength(path[1..]);
      var r := Reversed(path[1..]);
      forall i | 0 <= i < |r| ensures r[i] != path[0] {
        assert r[i] in path[1..];
        var j :| 0 <= j < |path[1..]| && path[1..][j] == r[i];
        assert path[j + 1] == r[i];
      }
    }
  }

  /*** In a tree ***/

  /** `x` and `y` are the ancestors of both ends in layer `depth`, and one layer below these still differed. */
  ghost predicate ClimbedTo(g: Graph, src: NodeIx, dst: NodeIx, x: NodeIx, y: NodeIx, depth: nat, d: nat)
    requires Tree(g)
  {
    && src < |g.nodes| && dst < |g.nodes| && 1 <= depth <= d && g.nodes[src].depth == d == g.nodes[dst].depth
    && x == Ancestor(g, src, depth) && y == Ancestor(g, dst, depth)
    && (depth < d ==> Ancestor(g, src, depth + 1) != Ancestor(g, dst, depth + 1))
  }

  lemma TreeHasParents(g: Graph, n: NodeIx)
    requires Tree(g) && n < |g.nodes|
    ensures g.nodes[n].depth > 1 ==> g.nodes[n].parent != []
  {
    hide Paired;
  }

  lemma TreeClimbs(g: Graph, src: NodeIx, dst: NodeIx, x: NodeIx, y: NodeIx, depth: nat, d: nat)
    requires Tree(g) && ClimbedTo(g, src, dst, x, y, depth, d) && x != y && depth > 1
    ensures x < |g.nodes| && y < |g.nodes| && g.nodes[x].parent != [] && g.nodes[y].parent != []
    ensures g.nodes[x].parent[0] < |g.edges| && g.nodes[y].parent[0] < |g.edges|
    ensures ClimbedTo(g, src, dst, g.edges[g.nodes[x].parent[0]].target, g.edges[g.nodes[y].parent[0]].target,
            depth - 1, d)
  {
    hide Paired;
    AncestorAbove(g, src, depth);
    AncestorAbove(g, dst, depth);
  }

  lemma OneRoot(g: Graph, x: NodeIx, y: NodeIx)
    requires Tree(g) && x < |g.nodes| && y < |g.nodes| && g.nodes[x].depth == g.nodes[y].depth <= 1
    ensures x == y
  {
    hide Paired;
  }

  lemma RouteIsShortest(g: Graph, src: NodeIx, dst: NodeIx, x: NodeIx, y: NodeIx, depth: nat, d: nat,
      route: seq<LinkIx>)
    requires Tree(g) && ClimbedTo(g, src, dst, x, y, depth, d) && |route| == 2 * (d - depth)
    ensures forall p :: Walk(g, src, p, dst) ==> |route| <= |p|
  {
    hide Paired;
    forall p | Walk(g, src, p, dst) ensures |route| <= |p| {
      if depth < d { WalksAreNotShorter(g, src, dst, depth + 1, p); }
    }
  }
}

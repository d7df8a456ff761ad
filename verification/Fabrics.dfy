/** The topologies that the builders make, and what routes on them look like. */
module Fabrics {
  import opened Cluster
  import opened Options
  import opened Topology

  /*** Two layers of switches, fully connected ***/

  function RackOf(j: nat, rackSize: nat): nat {
    if rackSize == 0 then 0 else j / rackSize
  }

  lemma RackIs(j: nat, i: nat, rackSize: nat)
    requires i * rackSize <= j < i * rackSize + rackSize
    ensures RackOf(j, rackSize) == i
  {
    var r := j - i * rackSize;
    assert j == i * rackSize + r && 0 <= r < rackSize;
    DivisionIs(j, i, rackSize, r);
  }

  lemma DivisionIs(j: nat, i: nat, d: nat, r: nat)
    requires j == i * d + r && r < d
    ensures j / d == i
  {
    var q := j / d;
    assert q * d + j % d == j;
    if q < i { TimesAtMost(q + 1, i, d); }
    if q > i { TimesAtMost(i + 1, q, d); }
  }

  lemma TimesAtMost(a: nat, b: nat, d: nat)
    requires a <= b
    ensures a * d <= b * d
  {
  }

  /** Which names are in use: all spines, the first `tors` racks and the first `hosts` hosts. */
  predicate InUse(name: Name, spines: nat, tors: nat, hosts: nat) {
    match name
    case Cloud => false
    case Spine(i) => i < spines
    case Tor(i) => i < tors
    case Host(i) => i < hosts
  }

  ghost predicate TorOk(g: Graph, m: map<Name, NodeIx>, i: nat, spines: nat) {
    && Tor(i) in m && m[Tor(i)] < |g.nodes| && g.nodes[m[Tor(i)]].depth == 2 && |g.nodes[m[Tor(i)]].parent| == spines
    && forall j :: 0 <= j < spines ==> LeadsTo(g, m, g.nodes[m[Tor(i)]].parent[j], Spine(j))
  }

  ghost predicate HostOk(g: Graph, m: map<Name, NodeIx>, j: nat, rack: nat) {
    && Host(j) in m && m[Host(j)] < |g.nodes| && g.nodes[m[Host(j)]].depth == 3 && |g.nodes[m[Host(j)]].parent| == 1
    && LeadsTo(g, m, g.nodes[m[Host(j)]].parent[0], Tor(rack))
  }

  ghost predicate LeadsTo(g: Graph, m: map<Name, NodeIx>, l: LinkIx, name: Name) {
    l < |g.edges| && name in m && g.edges[l].target == m[name]
  }

  /** Every leaf switch has a link to each spine, in order; every host has one to its rack's leaf. */
  ghost predicate TwoLayer(g: Graph, m: map<Name, NodeIx>, spines: nat, racks: nat, rackSize: nat, tors: nat,
      hosts: nat) {
    && Stepped(g) && NamesOk(g.nodes, m) && (forall name :: name in m <==> InUse(name, spines, tors, hosts))
    && (forall i :: 0 <= i < spines && Spine(i) in m ==> g.nodes[m[Spine(i)]].depth == 1)
    && (forall i :: 0 <= i < racks ==> TorOk(g, m, i, spines))
    && (forall j :: 0 <= j < hosts ==> HostOk(g, m, j, RackOf(j, rackSize)))
  }

  /** What is known about a node stays when a node is added, or a link to another child. */
  lemma TorStays(g: Graph, g': Graph, m: map<Name, NodeIx>, m': map<Name, NodeIx>, i: nat, spines: nat)
    requires TorOk(g, m, i, spines) && Later(g, g', m, m', m[Tor(i)])
    ensures TorOk(g', m', i, spines)
  {
  }

  lemma HostStays(g: Graph, g': Graph, m: map<Name, NodeIx>, m': map<Name, NodeIx>, j: nat, rack: nat)
    requires HostOk(g, m, j, rack) && Later(g, g', m, m', m[Host(j)])
    ensures HostOk(g', m', j, rack)
  {
  }

  /** The graph has grown, and node `n` has the links up it had. */
  ghost predicate Later(g: Graph, g': Graph, m: map<Name, NodeIx>, m': map<Name, NodeIx>, n: NodeIx) {
    && (forall name :: name in m ==> name in m' && m'[name] == m[name])
    && |g.edges| <= |g'.edges| && (forall l :: 0 <= l < |g.edges| ==> g'.edges[l] == g.edges[l])
    && n < |g.nodes| <= |g'.nodes| && g'.nodes[n].parent == g.nodes[n].parent && g'.nodes[n].depth == g.nodes[n].depth
  }

  lemma LaterNode(g: Graph, m: map<Name, NodeIx>, name: Name, depth: nat, n: NodeIx)
    requires n < |g.nodes| && name !in m
    ensures Later(g, NodeAdded(g, name, depth), m, m[name := |g.nodes|], n)
  {
  }

  lemma LaterLink(g: Graph, m: map<Name, NodeIx>, p: NodeIx, c: NodeIx, bandwidth: nat, n: NodeIx)
    requires p < |g.nodes| && c < |g.nodes| && n < |g.nodes| && n != c
    ensures Later(g, Linked(g, p, c, bandwidth), m, m, n)
  {
    LinkedNode(g, p, c, bandwidth, n);
  }

  /** Links under a leaf carry `hostBw`, links above one `uplinkBw`, in both directions. */
  ghost predicate Widths(g: Graph, hostBw: nat, uplinkBw: nat) {
    forall l :: 0 <= l < |g.edges| ==>
      match NameBelow(g, l)
      case Host(_) => g.edges[l].bandwidth == hostBw
      case Tor(_) => g.edges[l].bandwidth == uplinkBw
      case _ => false
  }

  /** The name at the lower end of a link. */
  function NameBelow(g: Graph, l: LinkIx): Name
    requires l < |g.edges|
  {
    var n := if l % 2 == 1 then g.edges[l].source else g.edges[l].target;
    if n < |g.nodes| then g.nodes[n].name else Cloud
  }

  lemma NodeAddedWidths(g: Graph, name: Name, depth: nat, hostBw: nat, uplinkBw: nat)
    requires Paired(g) && Widths(g, hostBw, uplinkBw)
    ensures Widths(NodeAdded(g, name, depth), hostBw, uplinkBw)
  {
    var g' := NodeAdded(g, name, depth);
    forall l | 0 <= l < |g.edges| ensures NameBelow(g', l) == NameBelow(g, l) { assert LinkOk(g, l); }
  }

  lemma LinkedWidths(g: Graph, p: NodeIx, c: NodeIx, bandwidth: nat, hostBw: nat, uplinkBw: nat)
    requires Paired(g) && Widths(g, hostBw, uplinkBw) && p < |g.nodes| && c < |g.nodes|
    requires match g.nodes[c].name case Host(_) => bandwidth == hostBw case Tor(_) => bandwidth == uplinkBw
             case _ => false
    ensures Widths(Linked(g, p, c, bandwidth), hostBw, uplinkBw)
  {
    var g' := Linked(g, p, c, bandwidth);
    forall l | 0 <= l < |g'.edges| ensures NameBelow(g', l) == if l < |g.edges| then NameBelow(g, l)
        else g.nodes[c].name {
      if l < |g.edges| {
        assert LinkOk(g, l);
        LinkedNode(g, p, c, bandwidth, if l % 2 == 1 then g.edges[l].source else g.edges[l].target);
      } else {
        LinkedNode(g, p, c, bandwidth, c);
      }
    }
  }

  lemma NameAt(nodes: seq<Node>, m: map<Name, NodeIx>, name: Name)
    requires NamesOk(nodes, m) && name in m
    ensures m[name] < |nodes| && nodes[m[name]].name == name
  {
  }

  /** `build_twolayer_multipath_cluster`. */
  method BuildTwoLayerMultipath(nspines: nat, nracks: nat, rackSize: nat, hostBw: nat, rackUplinkPortBw: nat)
      returns (c: Cluster)
    ensures fresh(c) && c.Valid()
            && TwoLayer(c.TheGraph(), c.nodeMap, nspines, nracks, rackSize, nracks, nracks * rackSize)
    ensures Widths(c.TheGraph(), hostBw, rackUplinkPortBw)
  {
    hide TwoLayer, Paired, Widths;
    c := AddSpines(nspines, rackSize);
    NoLinksYet(c.TheGraph(), hostBw, rackUplinkPortBw);
    var hostCnt := 0;
    for i := 0 to nracks
      invariant fresh(c) && c.Valid() && hostCnt == i * rackSize
      invariant TwoLayer(c.TheGraph(), c.nodeMap, nspines, i, rackSize, i, hostCnt)
      invariant Widths(c.TheGraph(), hostBw, rackUplinkPortBw)
    {
      AddTor(c, nspines, i, rackSize, hostCnt, rackUplinkPortBw, hostBw);
      AddHosts(c, nspines, i, rackSize, hostCnt, hostBw, rackUplinkPortBw);
      hostCnt := hostCnt + rackSize;
      assert hostCnt == (i + 1) * rackSize;
    }
  }

  method AddSpines(nspines: nat, rackSize: nat) returns (c: Cluster)
    ensures fresh(c) && c.Valid() && TwoLayer(c.TheGraph(), c.nodeMap, nspines, 0, rackSize, 0, 0) && c.edges == []
  {
    hide TwoLayer, Paired;
    c := new Cluster();
    NothingBuilt(c.TheGraph(), c.nodeMap, rackSize);
    for i := 0 to nspines
      invariant fresh(c) && c.Valid() && c.edges == [] && TwoLayer(c.TheGraph(), c.nodeMap, i, 0, rackSize, 0, 0)
    {
      SpineAdded(c.TheGraph(), c.nodeMap, i, rackSize);
      var _ := c.AddNode(Spine(i), 1);
    }
  }

  lemma NoLinksYet(g: Graph, hostBw: nat, uplinkBw: nat)
    requires g.edges == []
    ensures Widths(g, hostBw, uplinkBw)
  {
  }

  lemma NothingBuilt(g: Graph, m: map<Name, NodeIx>, rackSize: nat)
    requires g == Graph([], []) && m == map[]
    ensures TwoLayer(g, m, 0, 0, rackSize, 0, 0)
  {
  }

  lemma SpineAdded(g: Graph, m: map<Name, NodeIx>, i: nat, rackSize: nat)
    requires TwoLayer(g, m, i, 0, rackSize, 0, 0)
    ensures Spine(i) !in m
    ensures TwoLayer(NodeAdded(g, Spine(i), 1), m[Spine(i) := |g.nodes|], i + 1, 0, rackSize, 0, 0)
  {
    hide Paired;
    NodeAddedStepped(g, Spine(i), 1);
  }

  /** A leaf switch and its links to all spines. */
  method AddTor(c: Cluster, nspines: nat, i: nat, rackSize: nat, hosts: nat, bandwidth: nat, ghost hostBw: nat)
    requires c.Valid() && TwoLayer(c.TheGraph(), c.nodeMap, nspines, i, rackSize, i, hosts)
             && Widths(c.TheGraph(), hostBw, bandwidth)
    modifies c
    ensures c.Valid() && TwoLayer(c.TheGraph(), c.nodeMap, nspines, i + 1, rackSize, i + 1, hosts)
            && Widths(c.TheGraph(), hostBw, bandwidth)
  {
    hide TwoLayer, Paired, TorOk, Widths, NamesOk;
    TorAdded(c.TheGraph(), c.nodeMap, nspines, i, rackSize, hosts);
    NodeAddedWidths(c.TheGraph(), Tor(i), 2, hostBw, bandwidth);
    var _ := c.AddNode(Tor(i), 2);
    for j := 0 to nspines
      invariant c.Valid() && TwoLayer(c.TheGraph(), c.nodeMap, nspines, i, rackSize, i + 1, hosts)
      invariant TorOk(c.TheGraph(), c.nodeMap, i, j) && Widths(c.TheGraph(), hostBw, bandwidth)
    {
      UplinkAdded(c.TheGraph(), c.nodeMap, nspines, i, rackSize, hosts, j, bandwidth);
      NameAt(c.nodes, c.nodeMap, Tor(i));
      LinkedWidths(c.TheGraph(), c.nodeMap[Spine(j)], c.nodeMap[Tor(i)], bandwidth, hostBw, bandwidth);
      c.AddLinkByName(Spine(j), Tor(i), bandwidth);
    }
    TorDone(c.TheGraph(), c.nodeMap, nspines, i, rackSize, hosts);
  }

  lemma TorAdded(g: Graph, m: map<Name, NodeIx>, spines: nat, i: nat, rackSize: nat, hosts: nat)
    requires TwoLayer(g, m, spines, i, rackSize, i, hosts)
    ensures Tor(i) !in m
    ensures var g', m' := NodeAdded(g, Tor(i), 2), m[Tor(i) := |g.nodes|];
            TwoLayer(g', m', spines, i, rackSize, i + 1, hosts) && TorOk(g', m', i, 0)
  {
    hide Paired, Later;
    var g', m' := NodeAdded(g, Tor(i), 2), m[Tor(i) := |g.nodes|];
    NodeAddedStepped(g, Tor(i), 2);
    forall t | 0 <= t < i ensures TorOk(g', m', t, spines) { LaterNode(g, m, Tor(i), 2, m[Tor(t)]);
        TorStays(g, g', m, m', t, spines); }
    forall j | 0 <= j < hosts ensures HostOk(g', m', j, RackOf(j, rackSize)) {
      LaterNode(g, m, Tor(i), 2, m[Host(j)]);
      HostStays(g, g', m, m', j, RackOf(j, rackSize));
    }
  }

  lemma UplinkAdded(g: Graph, m: map<Name, NodeIx>, spines: nat, i: nat, rackSize: nat, hosts: nat, j: nat,
      bandwidth: nat)
    requires TwoLayer(g, m, spines, i, rackSize, i + 1, hosts) && TorOk(g, m, i, j) && j < spines
    ensures Spine(j) in m && Tor(i) in m && m[Spine(j)] < |g.nodes| && m[Tor(i)] < |g.nodes|
    ensures var g' := Linked(g, m[Spine(j)], m[Tor(i)], bandwidth);
            TwoLayer(g', m, spines, i, rackSize, i + 1, hosts) && TorOk(g', m, i, j + 1)
  {
    hide Paired, Later;
    assert Spine(j) in m;
    var p, c := m[Spine(j)], m[Tor(i)];
    var g' := Linked(g, p, c, bandwidth);
    LinkedStepped(g, p, c, bandwidth);
    LinkedNamesOk(g, m, p, c, bandwidth);
    LinkedNode(g, p, c, bandwidth, c);
    forall t | 0 <= t < spines && Spine(t) in m ensures g'.nodes[m[Spine(t)]].depth == 1 {
        LinkedNode(g, p, c, bandwidth, m[Spine(t)]); }
    forall t | 0 <= t < i ensures TorOk(g', m, t, spines) { LaterLink(g, m, p, c, bandwidth, m[Tor(t)]);
        TorStays(g, g', m, m, t, spines); }
    forall h | 0 <= h < hosts ensures HostOk(g', m, h, RackOf(h, rackSize)) {
      LaterLink(g, m, p, c, bandwidth, m[Host(h)]);
      HostStays(g, g', m, m, h, RackOf(h, rackSize));
    }
  }

  lemma LinkedNamesOk(g: Graph, m: map<Name, NodeIx>, p: NodeIx, c: NodeIx, bandwidth: nat)
    requires NamesOk(g.nodes, m) && p < |g.nodes| && c < |g.nodes|
    ensures NamesOk(Linked(g, p, c, bandwidth).nodes, m)
  {
    var g' := Linked(g, p, c, bandwidth);
    forall n | 0 <= n < |g'.nodes| ensures g'.nodes[n].name == g.nodes[n].name { LinkedNode(g, p, c, bandwidth, n); }
  }

  lemma TorDone(g: Graph, m: map<Name, NodeIx>, spines: nat, i: nat, rackSize: nat, hosts: nat)
    requires TwoLayer(g, m, spines, i, rackSize, i + 1, hosts) && TorOk(g, m, i, spines)
    ensures TwoLayer(g, m, spines, i + 1, rackSize, i + 1, hosts)
  {
    hide Paired, TorOk, HostOk;
  }

  /** The hosts of a rack. */
  method AddHosts(c: Cluster, nspines: nat, i: nat, rackSize: nat, hosts: nat, bandwidth: nat, ghost uplinkBw: nat)
    requires c.Valid() && TwoLayer(c.TheGraph(), c.nodeMap, nspines, i + 1, rackSize, i + 1, hosts)
             && hosts == i * rackSize && Widths(c.TheGraph(), bandwidth, uplinkBw)
    modifies c
    ensures c.Valid() && TwoLayer(c.TheGraph(), c.nodeMap, nspines, i + 1, rackSize, i + 1, hosts + rackSize)
            && Widths(c.TheGraph(), bandwidth, uplinkBw)
  {
    hide TwoLayer, Paired, Widths, NamesOk;
    for j := hosts to hosts + rackSize
      invariant c.Valid() && TwoLayer(c.TheGraph(), c.nodeMap, nspines, i + 1, rackSize, i + 1, j)
      invariant Widths(c.TheGraph(), bandwidth, uplinkBw)
    {
      RackIs(j, i, rackSize);
      HostAdded(c.TheGraph(), c.nodeMap, nspines, i, rackSize, j, bandwidth);
      NodeAddedWidths(c.TheGraph(), Host(j), 3, bandwidth, uplinkBw);
      var _ := c.AddNode(Host(j), 3);
      LinkedWidths(c.TheGraph(), c.nodeMap[Tor(i)], c.nodeMap[Host(j)], bandwidth, bandwidth, uplinkBw);
      c.AddLinkByName(Tor(i), Host(j), bandwidth);
    }
  }

  lemma HostAdded(g: Graph, m: map<Name, NodeIx>, spines: nat, i: nat, rackSize: nat, j: nat, bandwidth: nat)
    requires TwoLayer(g, m, spines, i + 1, rackSize, i + 1, j) && RackOf(j, rackSize) == i
    ensures Host(j) !in m && Tor(i) in m && m[Tor(i)] < |g.nodes|
    ensures var g', m' := Linked(NodeAdded(g, Host(j), 3), m[Tor(i)], |g.nodes|, bandwidth), m[Host(j) := |g.nodes|];
            TwoLayer(g', m', spines, i + 1, rackSize, i + 1, j + 1)
  {
    hide Paired, Later;
    var g1, m' := NodeAdded(g, Host(j), 3), m[Host(j) := |g.nodes|];
    assert TorOk(g, m, i, spines);
    var p, c := m[Tor(i)], |g.nodes|;
    var g' := Linked(g1, p, c, bandwidth);
    NodeAddedStepped(g, Host(j), 3);
    LinkedStepped(g1, p, c, bandwidth);
    LinkedNamesOk(g1, m', p, c, bandwidth);
    LinkedNode(g1, p, c, bandwidth, c);
    forall t | 0 <= t < spines && Spine(t) in m' ensures g'.nodes[m'[Spine(t)]].depth == 1 {
        LinkedNode(g1, p, c, bandwidth, m'[Spine(t)]); }
    forall t | 0 <= t < i + 1 ensures TorOk(g', m', t, spines) {
      LaterNode(g, m, Host(j), 3, m[Tor(t)]);
      TorStays(g, g1, m, m', t, spines);
      LaterLink(g1, m', p, c, bandwidth, m'[Tor(t)]);
      TorStays(g1, g', m', m', t, spines);
    }
    forall h | 0 <= h < j + 1 ensures HostOk(g', m', h, RackOf(h, rackSize)) {
      if h < j {
        LaterNode(g, m, Host(j), 3, m[Host(h)]);
        HostStays(g, g1, m, m', h, RackOf(h, rackSize));
        LaterLink(g1, m', p, c, bandwidth, m'[Host(h)]);
        HostStays(g1, g', m', m', h, RackOf(h, rackSize));
      }
    }
  }

  /*** Routes on two layers ***/

  /** From a host there is one link up, to its leaf. */
  lemma UpFromHost(g: Graph, m: map<Name, NodeIx>, j: nat, rack: nat, l: LinkIx)
    requires Stepped(g) && HostOk(g, m, j, rack) && l < |g.edges| && l % 2 == 1 && g.edges[l].source == m[Host(j)]
    ensures Tor(rack) in m && g.edges[l].target == m[Tor(rack)]
  {
    assert LinkOk(g, l);
  }

  /** From a leaf each link up leads to a spine. */
  lemma UpFromTor(g: Graph, m: map<Name, NodeIx>, i: nat, spines: nat, l: LinkIx)
    requires Stepped(g) && TorOk(g, m, i, spines) && l < |g.edges| && l % 2 == 1 && g.edges[l].source == m[Tor(i)]
    ensures exists j :: 0 <= j < spines && LeadsTo(g, m, l, Spine(j))
  {
    assert LinkOk(g, l);
    var j :| 0 <= j < spines && g.nodes[m[Tor(i)]].parent[j] == l;
    assert LeadsTo(g, m, l, Spine(j));
  }

  /** The levels above a host: its leaf, and then all spines. */
  lemma LevelsAboveHost(g: Graph, m: map<Name, NodeIx>, j: nat, rack: nat, spines: nat)
    requires Stepped(g) && HostOk(g, m, j, rack) && TorOk(g, m, rack, spines)
    ensures Level(g, m[Host(j)], 0) == [m[Host(j)]] && Level(g, m[Host(j)], 1) == [m[Tor(rack)]]
    ensures forall i :: 0 <= i < spines ==> Spine(i) in m && m[Spine(i)] in Level(g, m[Host(j)], 2)
  {
    hide Paired;
    var h, t := m[Host(j)], m[Tor(rack)];
    assert [h][..0] == [] && [t][..0] == [];
    assert UpLinks(g, [h]) == [] + g.nodes[h].parent;
    assert Level(g, h, 1) == [t];
    assert UpLinks(g, [t]) == [] + g.nodes[t].parent;
    forall i | 0 <= i < spines ensures Spine(i) in m && m[Spine(i)] in Level(g, h, 2) {
      assert LeadsTo(g, m, g.nodes[t].parent[i], Spine(i));
      assert Level(g, h, 2)[i] == m[Spine(i)];
    }
  }

  lemma FirstStep(g: Graph, x: NodeIx, path: seq<LinkIx>, y: NodeIx)
    requires Walk(g, x, path, y) && path != []
    ensures path[0] < |g.edges| && g.edges[path[0]].source == x
    ensures |path| == 1 ==> y == g.edges[path[0]].target
    ensures |path| > 1 ==> path[1] < |g.edges| && g.edges[path[1]].source == g.edges[path[0]].target
    ensures |path| == 2 ==> y == g.edges[path[1]].target
  {
    if |path| > 1 {
      assert path[1..][0] == path[1];
      assert Walk(g, g.edges[path[1]].target, path[1..][1..], y);
    }
  }

  lemma RootsAreHigh(g: Graph, x: NodeIx)
    requires Stepped(g) && x < |g.nodes|
    ensures g.nodes[x].depth >= 1
  {
    hide Paired;
  }

  /** Where a climb from a host stands: at the host, at its leaf, or at a spine. */
  lemma ClimbFromHost(g: Graph, m: map<Name, NodeIx>, spines: nat, i: nat, racki: nat, dst: NodeIx, path: seq<LinkIx>,
      x: NodeIx)
    requires Stepped(g) && HostOk(g, m, i, racki) && TorOk(g, m, racki, spines)
    requires dst < |g.nodes| && Climbed(g, m[Host(i)], dst, path, x)
    ensures |path| <= 2 && (|path| == 0 ==> x == m[Host(i)]) && (|path| == 1 ==> x == m[Tor(racki)])
    ensures |path| == 2 ==> exists j :: 0 <= j < spines && Spine(j) in m && x == m[Spine(j)]
    ensures |path| == 2 ==> m[Tor(racki)] !in Level(g, dst, 1)
  {
    hide Paired, Level, Stepped;
    ClimbDepth(g, m[Host(i)], path, x);
    RootsAreHigh(g, x);
    if path != [] {
      FirstStep(g, m[Host(i)], path, x);
      UpFromHost(g, m, i, racki, path[0]);
      if |path| == 2 { UpFromTor(g, m, racki, spines, path[1]); }
    }
  }

  lemma HostsAndLeaves(g: Graph, m: map<Name, NodeIx>, spines: nat, racks: nat, rackSize: nat, i: nat, j: nat)
    requires TwoLayer(g, m, spines, racks, rackSize, racks, racks * rackSize)
    requires i < racks * rackSize && j < racks * rackSize
    ensures var ri, rj := RackOf(i, rackSize), RackOf(j, rackSize);
            && Stepped(g) && HostOk(g, m, i, ri) && HostOk(g, m, j, rj) && TorOk(g, m, ri, spines)
               && TorOk(g, m, rj, spines)
            && (m[Tor(ri)] == m[Tor(rj)] <==> ri == rj) && (m[Host(i)] == m[Host(j)] <==> i == j)
  {
    hide Stepped, HostOk, TorOk;
    RackExists(i, racks, rackSize);
    RackExists(j, racks, rackSize);
    var ri, rj := RackOf(i, rackSize), RackOf(j, rackSize);
    SameName(g.nodes, m, Tor(ri), Tor(rj));
    SameName(g.nodes, m, Host(i), Host(j));
  }

  /** Between two hosts of one rack a route has two links, between racks four, whatever the load balancer picks. */
  lemma TwoLayerRoutes(g: Graph, m: map<Name, NodeIx>, spines: nat, racks: nat, rackSize: nat, i: nat, j: nat,
      route: seq<LinkIx>)
    requires TwoLayer(g, m, spines, racks, rackSize, racks, racks * rackSize)
    requires i < racks * rackSize && j < racks * rackSize && i != j
    requires Host(i) in m && Host(j) in m && m[Host(j)] < |g.nodes| && Met(g, m[Host(i)], m[Host(j)], route)
    ensures |route| == if RackOf(i, rackSize) == RackOf(j, rackSize) then 2 else 4
  {
    hide Stepped, Paired, Level, Climbed, TwoLayer, HostOk, TorOk, MetAfter;
    HostsAndLeaves(g, m, spines, racks, rackSize, i, j);
    SteppedIsPaired(g);
    var k: nat :| MetAfter(g, m[Host(i)], m[Host(j)], route, k);
    RouteOfTwoOrFour(g, m, spines, i, j, RackOf(i, rackSize), RackOf(j, rackSize), route, k);
  }

  lemma RouteOfTwoOrFour(g: Graph, m: map<Name, NodeIx>, spines: nat, i: nat, j: nat, ri: nat, rj: nat,
      route: seq<LinkIx>, k: nat)
    requires Stepped(g) && HostOk(g, m, i, ri) && HostOk(g, m, j, rj) && TorOk(g, m, ri, spines)
             && TorOk(g, m, rj, spines)
    requires m[Tor(ri)] == m[Tor(rj)] <==> ri == rj
    requires MetAfter(g, m[Host(i)], m[Host(j)], route, k)
    ensures |route| == if ri == rj then 2 else 4
  {
    hide Stepped, Paired, Level, Climbed, HostOk, TorOk;
    SteppedIsPaired(g);
    LevelsAboveHost(g, m, j, rj, spines);
    HostDepth(g, m, i, ri);
    HostDepth(g, m, j, rj);
    var d := m[Host(j)];
    var x: NodeIx :| Climbed(g, m[Host(i)], d, route[..k], x) && x in Level(g, d, k);
    ClimbFromHost(g, m, spines, i, ri, d, route[..k], x);
  }

  lemma SteppedIsPaired(g: Graph)
    requires Stepped(g)
    ensures Paired(g)
  {
    hide Paired;
  }

  lemma HostDepth(g: Graph, m: map<Name, NodeIx>, j: nat, rack: nat)
    requires HostOk(g, m, j, rack)
    ensures Host(j) in m && m[Host(j)] < |g.nodes| && g.nodes[m[Host(j)]].depth == 3 && g.nodes[m[Host(j)]].parent != []
  {
  }

  lemma TorParents(g: Graph, m: map<Name, NodeIx>, i: nat, spines: nat)
    requires TorOk(g, m, i, spines)
    ensures g.nodes[m[Tor(i)]].depth == 2 && |g.nodes[m[Tor(i)]].parent| == spines
  {
  }

  /** And there is a route, unless the hosts are in different racks and there is no spine. */
  lemma TwoLayerRoutesExist(g: Graph, m: map<Name, NodeIx>, spines: nat, racks: nat, rackSize: nat, i: nat, j: nat)
    requires TwoLayer(g, m, spines, racks, rackSize, racks, racks * rackSize)
    requires i < racks * rackSize && j < racks * rackSize && i != j
    requires Host(i) in m && Host(j) in m && m[Host(i)] < |g.nodes| && m[Host(j)] < |g.nodes|
             && Missed(g, m[Host(i)], m[Host(j)])
    ensures RackOf(i, rackSize) != RackOf(j, rackSize) && spines == 0
  {
    hide Stepped, Paired, Level, Walk, TwoLayer, HostOk, TorOk;
    HostsAndLeaves(g, m, spines, racks, rackSize, i, j);
    SteppedIsPaired(g);
    var path, x: NodeIx :| Climbed(g, m[Host(i)], m[Host(j)], path, x) && x !in Level(g, m[Host(j)], |path|)
      && (g.nodes[x].parent == [] || g.nodes[m[Host(i)]].depth <= |path| + 1);
    MissedWithoutSpines(g, m, spines, i, j, RackOf(i, rackSize), RackOf(j, rackSize), path, x);
  }

  lemma MissedWithoutSpines(g: Graph, m: map<Name, NodeIx>, spines: nat, i: nat, j: nat, ri: nat, rj: nat,
      path: seq<LinkIx>, x: NodeIx)
    requires Stepped(g) && HostOk(g, m, i, ri) && HostOk(g, m, j, rj) && TorOk(g, m, ri, spines)
             && TorOk(g, m, rj, spines)
    requires m[Tor(ri)] == m[Tor(rj)] <==> ri == rj
    requires Climbed(g, m[Host(i)], m[Host(j)], path, x) && x < |g.nodes| && x !in Level(g, m[Host(j)], |path|)
    requires g.nodes[x].parent == [] || g.nodes[m[Host(i)]].depth <= |path| + 1
    ensures ri != rj && spines == 0
  {
    hide Stepped, Paired, Level, Climbed, HostOk, TorOk, Walk;
    SteppedIsPaired(g);
    LevelsAboveHost(g, m, j, rj, spines);
    HostDepth(g, m, i, ri);
    HostDepth(g, m, j, rj);
    ClimbFromHost(g, m, spines, i, ri, m[Host(j)], path, x);
    TorParents(g, m, ri, spines);
  }

  /** First links from a host lead to its leaf, and from there to the first spine, if there is one. */
  lemma FirstLinksFromHost(g: Graph, m: map<Name, NodeIx>, spines: nat, j: nat, rack: nat)
    requires Stepped(g) && HostOk(g, m, j, rack) && TorOk(g, m, rack, spines)
    ensures UpBy(g, m[Host(j)], 0) == Some(m[Host(j)]) && UpBy(g, m[Host(j)], 1) == Some(m[Tor(rack)])
    ensures spines > 0 ==> Spine(0) in m && UpBy(g, m[Host(j)], 2) == Some(m[Spine(0)])
    ensures spines == 0 ==> UpBy(g, m[Host(j)], 2) == None
  {
    hide Paired;
    ParentLink(g, m[Host(j)], 0);
    if spines > 0 {
      assert LeadsTo(g, m, g.nodes[m[Tor(rack)]].parent[0], Spine(0));
      ParentLink(g, m[Tor(rack)], 0);
    }
  }

  /** Where the climbs by first links from two hosts meet. */
  lemma HostsMeet(g: Graph, m: map<Name, NodeIx>, spines: nat, i: nat, j: nat, ri: nat, rj: nat, k: nat)
    requires Stepped(g) && HostOk(g, m, i, ri) && HostOk(g, m, j, rj) && TorOk(g, m, ri, spines)
             && TorOk(g, m, rj, spines)
    requires (m[Tor(ri)] == m[Tor(rj)] <==> ri == rj) && (m[Host(i)] == m[Host(j)] <==> i == j) && (i == j ==> ri == rj)
    ensures MeetAt(g, m[Host(i)], m[Host(j)], k) <==>
            k == (if i == j then 0 else if ri == rj then 1 else 2) && (ri == rj || spines > 0)
  {
    hide Paired, Stepped, UpBy, HostOk, TorOk;
    SteppedIsPaired(g);
    HostDepth(g, m, i, ri);
    HostDepth(g, m, j, rj);
    FirstLinksFromHost(g, m, spines, i, ri);
    FirstLinksFromHost(g, m, spines, j, rj);
    var x, y := m[Host(i)], m[Host(j)];
    var at := if i == j then 0 else if ri == rj then 1 else 2;
    if ri == rj || spines > 0 {
      assert MeetAt(g, x, y, at);
      if MeetAt(g, x, y, k) { MeetOnce(g, x, y, at, k); }
    } else if k >= 2 {
      NoneAbove(g, x, 2, k);
    }
  }

  /** The route by first links on two layers: there is one if the hosts share a rack or there is a spine; it has no
      link from a host to itself, two within a rack, and four between racks, over the first spine. */
  lemma TwoLayerFirstLinkRoutes(g: Graph, m: map<Name, NodeIx>, spines: nat, racks: nat, rackSize: nat, i: nat, j: nat,
      route: Option<seq<LinkIx>>)
    requires TwoLayer(g, m, spines, racks, rackSize, racks, racks * rackSize)
    requires i < racks * rackSize && j < racks * rackSize
    requires Host(i) in m && Host(j) in m && m[Host(i)] < |g.nodes| && m[Host(j)] < |g.nodes|
             && RouteIs(g, m[Host(i)], m[Host(j)], route)
    ensures route.Some? <==> RackOf(i, rackSize) == RackOf(j, rackSize) || spines > 0
    ensures route.Some? ==>
              |route.value| == if i == j then 0 else if RackOf(i, rackSize) == RackOf(j, rackSize) then 2 else 4
    ensures route.Some? && RackOf(i, rackSize) != RackOf(j, rackSize) ==>
              && Spine(0) in m && route.value[1] < |g.edges| && g.edges[route.value[1]].target == m[Spine(0)]
  {
    hide Stepped, Paired, TwoLayer, HostOk, TorOk, UpBy, MeetAt;
    HostsAndLeaves(g, m, spines, racks, rackSize, i, j);
    SteppedIsPaired(g);
    var ri, rj := RackOf(i, rackSize), RackOf(j, rackSize);
    HostDepth(g, m, i, ri);
    assert InReach(g, m[Host(i)], if i == j then 0 else if ri == rj then 1 else 2);
    forall k: nat
      ensures MeetAt(g, m[Host(i)], m[Host(j)], k) <==>
              k == (if i == j then 0 else if ri == rj then 1 else 2) && (ri == rj || spines > 0)
    {
      HostsMeet(g, m, spines, i, j, ri, rj, k);
    }
    if route.Some? && ri != rj {
      FirstLinksFromHost(g, m, spines, i, ri);
      OverFirstSpine(g, m, spines, i, ri, route.value);
    }
  }

  lemma OverFirstSpine(g: Graph, m: map<Name, NodeIx>, spines: nat, i: nat, ri: nat, route: seq<LinkIx>)
    requires TorOk(g, m, ri, spines) && spines > 0 && |route| >= 2
    requires Stepped(g) && HostOk(g, m, i, ri) && IsFirstUp(g, UpBy(g, m[Host(i)], 1), route[1])
    ensures Spine(0) in m && route[1] < |g.edges| && g.edges[route[1]].target == m[Spine(0)]
  {
    hide Paired, Stepped, UpBy;
    SteppedIsPaired(g);
    FirstLinksFromHost(g, m, spines, i, ri);
    assert LeadsTo(g, m, g.nodes[m[Tor(ri)]].parent[0], Spine(0));
  }

  lemma RackExists(j: nat, racks: nat, rackSize: nat)
    requires j < racks * rackSize
    ensures RackOf(j, rackSize) < racks
  {
    var q := j / rackSize;
    assert q * rackSize + j % rackSize == j;
    if q >= racks { TimesAtMost(racks, q, rackSize); }
  }

  /*** A tree: one root, racks, hosts ***/

  predicate InTree(name: Name, tors: nat, hosts: nat) {
    match name
    case Cloud => true
    case Spine(_) => false
    case Tor(i) => i < tors
    case Host(i) => i < hosts
  }

  ghost predicate Racks(g: Graph, m: map<Name, NodeIx>, tors: nat, hosts: nat) {
    && Tree(g) && NamesOk(g.nodes, m) && (forall name :: name in m <==> InTree(name, tors, hosts))
    && g.nodes[m[Cloud]].depth == 1
    && (forall i :: 0 <= i < tors && Tor(i) in m ==> g.nodes[m[Tor(i)]].depth == 2)
    && (forall j :: 0 <= j < hosts && Host(j) in m ==> g.nodes[m[Host(j)]].depth == 3)
  }

  /** A node hung under another one keeps the tree, and all depths. */
  lemma NameHung(g: Graph, m: map<Name, NodeIx>, name: Name, under: Name, bandwidth: nat, tors: nat, hosts: nat,
      tors': nat, hosts': nat)
    requires Racks(g, m, tors, hosts) && name !in m && under in m
    requires match name
             case Tor(i) => i == tors && tors' == tors + 1 && hosts' == hosts && under == Cloud
             case Host(j) => j == hosts && hosts' == hosts + 1 && tors' == tors && under.Tor?
             case _ => false
    ensures m[under] < |g.nodes|
    ensures var g' := Linked(NodeAdded(g, name, g.nodes[m[under]].depth + 1), m[under], |g.nodes|, bandwidth);
            Racks(g', m[name := |g.nodes|], tors', hosts')
  {
    hide Tree;
    var depth := g.nodes[m[under]].depth + 1;
    var g1, m' := NodeAdded(g, name, depth), m[name := |g.nodes|];
    var g' := Linked(g1, m[under], |g.nodes|, bandwidth);
    HungUnder(g, name, m[under], bandwidth);
    LinkedNamesOk(g1, m', m[under], |g.nodes|, bandwidth);
    forall n | 0 <= n < |g'.nodes| ensures g'.nodes[n].depth == g1.nodes[n].depth {
        LinkedNode(g1, m[under], |g.nodes|, bandwidth, n); }
  }

  lemma RootOnly(g: Graph, m: map<Name, NodeIx>)
    requires g == NodeAdded(Graph([], []), Cloud, 1) && m == map[Cloud := 0]
    ensures Racks(g, m, 0, 0)
  {
  }

  /** A node's only link up, and the link back, lead to and from `under` with this bandwidth. */
  ghost predicate HangsUnder(g: Graph, m: map<Name, NodeIx>, name: Name, under: Name, bandwidth: nat) {
    && name in m && m[name] < |g.nodes| && |g.nodes[m[name]].parent| == 1
    && var l := g.nodes[m[name]].parent[0];
    && LeadsTo(g, m, l, under) && Reverse(l) < |g.edges|
       && g.edges[l].bandwidth == bandwidth == g.edges[Reverse(l)].bandwidth
  }

  /** Every rack hangs under the root, and every host under its rack, with their bandwidths. */
  ghost predicate Hung(g: Graph, m: map<Name, NodeIx>, tors: nat, hosts: nat, rackSize: nat, hostBw: nat, rackBw: nat) {
    && (forall i :: 0 <= i < tors ==> HangsUnder(g, m, Tor(i), Cloud, rackBw))
    && (forall j :: 0 <= j < hosts ==> HangsUnder(g, m, Host(j), Tor(RackOf(j, rackSize)), hostBw))
  }

  /** Hanging a new node under a tree leaves all others where they hang. */
  lemma HangingStays(g: Graph, m: map<Name, NodeIx>, name: Name, under: Name, bandwidth: nat, tors: nat, hosts: nat,
      rackSize: nat, hostBw: nat, rackBw: nat)
    requires Racks(g, m, tors, hosts) && Hung(g, m, tors, hosts, rackSize, hostBw, rackBw) && name !in m && under in m
             && m[under] < |g.nodes|
    ensures var g' := Linked(NodeAdded(g, name, g.nodes[m[under]].depth + 1), m[under], |g.nodes|, bandwidth);
            && Hung(g', m[name := |g.nodes|], tors, hosts, rackSize, hostBw, rackBw)
            && HangsUnder(g', m[name := |g.nodes|], name, under, bandwidth)
  {
    hide Tree, LeadsTo, NamesOk, HangsUnder;
    var depth := g.nodes[m[under]].depth + 1;
    var g', m' := Linked(NodeAdded(g, name, depth), m[under], |g.nodes|, bandwidth), m[name := |g.nodes|];
    forall i | 0 <= i < tors ensures HangsUnder(g', m', Tor(i), Cloud, rackBw) {
      StillHangs(g, m, name, under, depth, bandwidth, Tor(i), Cloud, rackBw);
    }
    forall j | 0 <= j < hosts ensures HangsUnder(g', m', Host(j), Tor(RackOf(j, rackSize)), hostBw) {
      StillHangs(g, m, name, under, depth, bandwidth, Host(j), Tor(RackOf(j, rackSize)), hostBw);
    }
    EvenLinks(g);
    NowHangs(g, m, name, under, depth, bandwidth);
  }

  lemma EvenLinks(g: Graph)
    requires Tree(g)
    ensures |g.edges| % 2 == 0
  {
  }

  lemma StillHangs(g: Graph, m: map<Name, NodeIx>, name: Name, under: Name, depth: nat, bandwidth: nat, other: Name,
      above: Name, bw: nat)
    requires HangsUnder(g, m, other, above, bw) && name !in m && under in m && m[under] < |g.nodes|
    ensures HangsUnder(Linked(NodeAdded(g, name, depth), m[under], |g.nodes|, bandwidth), m[name := |g.nodes|], other,
            above, bw)
  {
    LinkedNode(NodeAdded(g, name, depth), m[under], |g.nodes|, bandwidth, m[other]);
  }

  lemma NowHangs(g: Graph, m: map<Name, NodeIx>, name: Name, under: Name, depth: nat, bandwidth: nat)
    requires |g.edges| % 2 == 0 && name !in m && under in m && m[under] < |g.nodes|
    ensures HangsUnder(Linked(NodeAdded(g, name, depth), m[under], |g.nodes|, bandwidth), m[name := |g.nodes|], name,
            under, bandwidth)
  {
    LinkedNode(NodeAdded(g, name, depth), m[under], |g.nodes|, bandwidth, |g.nodes|);
  }

  /** `build_arbitrary_cluster`: a tree of uniform depth, so routes exist between any two hosts and are shortest. */
  method BuildArbitrary(nracks: nat, rackSize: nat, hostBw: nat, rackBw: nat) returns (c: Cluster)
    ensures fresh(c) && c.Valid() && Racks(c.TheGraph(), c.nodeMap, nracks, nracks * rackSize)
    ensures Hung(c.TheGraph(), c.nodeMap, nracks, nracks * rackSize, rackSize, hostBw, rackBw)
  {
    hide Racks, Paired, HangsUnder;
    c := new Cluster();
    var _ := c.AddNode(Cloud, 1);
    RootOnly(c.TheGraph(), c.nodeMap);
    var hostId := 0;
    for i := 0 to nracks
      invariant fresh(c) && c.Valid() && hostId == i * rackSize && Racks(c.TheGraph(), c.nodeMap, i, hostId)
      invariant Hung(c.TheGraph(), c.nodeMap, i, hostId, rackSize, hostBw, rackBw)
    {
      HangTor(c, i, hostId, rackSize, hostBw, rackBw);
      for j := hostId to hostId + rackSize
        invariant fresh(c) && c.Valid() && Racks(c.TheGraph(), c.nodeMap, i + 1, j)
        invariant Hung(c.TheGraph(), c.nodeMap, i + 1, j, rackSize, hostBw, rackBw)
      {
        RackIs(j, i, rackSize);
        HangHost(c, i, j, rackSize, hostBw, rackBw);
      }
      hostId := hostId + rackSize;
      assert hostId == (i + 1) * rackSize;
    }
  }

  method HangTor(c: Cluster, i: nat, hosts: nat, rackSize: nat, hostBw: nat, rackBw: nat)
    requires c.Valid() && Racks(c.TheGraph(), c.nodeMap, i, hosts)
             && Hung(c.TheGraph(), c.nodeMap, i, hosts, rackSize, hostBw, rackBw)
    modifies c
    ensures c.Valid() && Racks(c.TheGraph(), c.nodeMap, i + 1, hosts)
            && Hung(c.TheGraph(), c.nodeMap, i + 1, hosts, rackSize, hostBw, rackBw)
  {
    hide Paired, Tree, HangsUnder;
    NameHung(c.TheGraph(), c.nodeMap, Tor(i), Cloud, rackBw, i, hosts, i + 1, hosts);
    HangingStays(c.TheGraph(), c.nodeMap, Tor(i), Cloud, rackBw, i, hosts, rackSize, hostBw, rackBw);
    var _ := c.AddNode(Tor(i), 2);
    c.AddLinkByName(Cloud, Tor(i), rackBw);
  }

  method HangHost(c: Cluster, i: nat, j: nat, rackSize: nat, hostBw: nat, rackBw: nat)
    requires c.Valid() && Racks(c.TheGraph(), c.nodeMap, i + 1, j)
             && Hung(c.TheGraph(), c.nodeMap, i + 1, j, rackSize, hostBw, rackBw)
    requires RackOf(j, rackSize) == i
    modifies c
    ensures c.Valid() && Racks(c.TheGraph(), c.nodeMap, i + 1, j + 1)
            && Hung(c.TheGraph(), c.nodeMap, i + 1, j + 1, rackSize, hostBw, rackBw)
  {
    hide Paired, Tree, HangsUnder;
    NameHung(c.TheGraph(), c.nodeMap, Host(j), Tor(i), hostBw, i + 1, j, i + 1, j + 1);
    HangingStays(c.TheGraph(), c.nodeMap, Host(j), Tor(i), hostBw, i + 1, j, rackSize, hostBw, rackBw);
    var _ := c.AddNode(Host(j), 3);
    c.AddLinkByName(Tor(i), Host(j), hostBw);
  }

  /** What a rack's uplink carries when its hosts' bandwidth is oversubscribed by `ratio`, in whole bits per second. */
  function Oversubscribed(bandwidth: nat, hosts: nat, ratio: real): (bw: nat)
    requires ratio > 0.0
    ensures bw as real * ratio <= (bandwidth * hosts) as real < (bw + 1) as real * ratio
  {
    var all := (bandwidth * hosts) as real;
    var x := all / ratio;
    Divided(all, ratio, x, x.Floor);
    x.Floor
  }

  lemma Divided(all: real, ratio: real, x: real, n: int)
    requires all >= 0.0 && ratio > 0.0 && x * ratio == all && n as real <= x < (n + 1) as real
    ensures n >= 0 && n as real * ratio <= all < (n + 1) as real * ratio
  {
    if n < 0 { TimesRatio((n + 1) as real, 0.0, ratio); }
    TimesRatio(n as real, x, ratio);
    TimesRatio(x, (n + 1) as real, ratio);
  }

  lemma TimesRatio(a: real, b: real, ratio: real)
    requires ratio > 0.0
    ensures a <= b ==> a * ratio <= b * ratio
    ensures a < b ==> a * ratio < b * ratio
  {
  }

  /** `build_fatree_fake`: a fat tree of `nports`-port switches, folded into racks. */
  method BuildFatTreeFake(nports: nat, bandwidth: nat, oversubRatio: real) returns (c: Cluster)
    requires nports % 2 == 0 && oversubRatio > 0.0
    ensures fresh(c) && c.Valid()
            && Racks(c.TheGraph(), c.nodeMap, nports * (nports / 2), nports * (nports / 2) * (nports / 2))
    ensures Hung(c.TheGraph(), c.nodeMap, nports * (nports / 2), nports * (nports / 2) * (nports / 2), nports / 2,
                 bandwidth, Oversubscribed(bandwidth, nports / 2, oversubRatio))
  {
    hide Racks, Paired, Hung;
    c := BuildArbitrary(nports * (nports / 2), nports / 2, bandwidth, Oversubscribed(bandwidth, nports / 2,
        oversubRatio));
  }
}

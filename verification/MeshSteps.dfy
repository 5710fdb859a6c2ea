/** Meshes of the nodes 1, 2 and 3 with one incoming and one outgoing slot each, written out to step
    through runs by hand. */
module MeshSteps {
  import opened Forest
  import N = ClusterNode
  import M = Mesh

  // Links from the outgoing slot of node 1 to node 2 and from that of node 3 to node 1.
  const A := Port(1, 1)
  const B := Port(2, 0)
  const C := Port(3, 1)
  const D := Port(1, 0)

  const AB: Links := map[A := B, B := A]
  const BOTH: Links := map[A := B, B := A, C := D, D := C]

  function Idle(d: N.Direction): N.Conn {
    N.Conn(d, false, false, 0, 0, 0, false, [])
  }

  /** A connected slot before its handshake is done, */
  function Open(d: N.Direction, partner: nat, out: seq<N.Message>): N.Conn {
    N.Conn(d, true, false, partner, 0, 0, false, out)
  }

  /** and after it. */
  function Finished(d: N.Direction, partner: nat, cluster: int, size: int, out: seq<N.Message>): N.Conn {
    N.Conn(d, true, true, partner, cluster, size, false, out)
  }

  function Three(n1: N.Node, n2: N.Node, n3: N.Node, peer: Links): M.Net {
    M.Net(map[1 := n1, 2 := n2, 3 := n3], peer)
  }

  // ---- comparing states part by part ----------------------------------------------------------------

  predicate SameConn(c: N.Conn, d: N.Conn) {
    && c.direction == d.direction && c.isConnected == d.isConnected && c.handshakeDone == d.handshakeDone
    && c.partnerId == d.partnerId && c.connectedClusterId == d.connectedClusterId
    && c.connectedClusterSize == d.connectedClusterSize && c.closing == d.closing && c.out == d.out
  }

  predicate SameNode(n: N.Node, m: N.Node) {
    && n.id == m.id && n.clusterId == m.clusterId && n.clusterSize == m.clusterSize && n.lossCounter == m.lossCounter
    && |n.conns| == |m.conns| == 2 && SameConn(n.conns[0], m.conns[0]) && SameConn(n.conns[1], m.conns[1])
  }

  predicate SameNet(s: M.Net, t: M.Net) {
    && s.peer == t.peer && s.nodes.Keys == t.nodes.Keys == {1, 2, 3}
    && SameNode(s.nodes[1], t.nodes[1]) && SameNode(s.nodes[2], t.nodes[2]) && SameNode(s.nodes[3], t.nodes[3])
  }

  lemma SameIsEqual(s: M.Net, t: M.Net)
    requires SameNet(s, t)
    ensures s == t
  {
    forall x | x in s.nodes ensures s.nodes[x] == t.nodes[x] {
      assert s.nodes[x].conns == t.nodes[x].conns;
    }
  }

  lemma Delivers(s: M.Net, p: Port, t: M.Net)
    requires M.CanDeliver(s, p) && SameNet(M.Deliver(s, p), t)
    ensures M.Next(s, t)
  {
    SameIsEqual(M.Deliver(s, p), t);
  }

  lemma Connects(s: M.Net, p: Port, q: Port, t: M.Net)
    requires M.CanConnect(s, p, q) && SameNet(M.Connect(s, p, q), t)
    ensures M.Next(s, t)
  {
    SameIsEqual(M.Connect(s, p, q), t);
  }

  lemma Loses(s: M.Net, p: Port, t: M.Net)
    requires M.CanLose(s, p) && SameNet(M.Lose(s, p), t)
    ensures M.Next(s, t)
  {
    SameIsEqual(M.Lose(s, p), t);
  }
}

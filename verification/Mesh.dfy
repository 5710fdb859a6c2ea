/** The whole mesh: nodes, the physical links between their slots, and one step per event.
    A link is a pair of FIFO queues; any link may break at any time, and each end learns of it
    by an event of its own. */
module Mesh {
  import opened Sums
  import opened Forest
  import N = ClusterNode

  /** `peer` are the physical links; a port may still be `isConnected` after its link broke. */
  datatype Net = Net(nodes: map<nat, N.Node>, peer: Links)

  predicate InRange(net: Net, p: Port) {
    p.node in net.nodes && p.slot < |net.nodes[p.node].conns|
  }

  function ConnAt(net: Net, p: Port): N.Conn
    requires InRange(net, p)
  {
    net.nodes[p.node].conns[p.slot]
  }

  function SetNode(net: Net, x: nat, n: N.Node): Net {
    net.(nodes := net.nodes[x := n])
  }

  // ---- steps -------------------------------------------------------------------------------

  ghost predicate CanConnect(net: Net, p: Port, q: Port) {
    && InRange(net, p) && InRange(net, q) && p.node != q.node
    && ConnAt(net, p).direction == N.Out && ConnAt(net, q).direction == N.In
    && !ConnAt(net, p).isConnected && !ConnAt(net, q).isConnected
    && p !in net.peer && q !in net.peer
  }

  function Connect(net: Net, p: Port, q: Port): Net
    requires InRange(net, p) && InRange(net, q)
  {
    Net(net.nodes[p.node := N.OnConnected(net.nodes[p.node], p.slot)]
                 [q.node := N.OnConnected(net.nodes[q.node], q.slot)],
        Attach(net.peer, p, q))
  }

  function Break(net: Net, p: Port): Net
    requires p in net.peer
  {
    net.(peer := net.peer - {p, net.peer[p]})
  }

  ghost predicate CanLose(net: Net, p: Port) {
    InRange(net, p) && ConnAt(net, p).isConnected && p !in net.peer
  }

  function Lose(net: Net, p: Port): Net
    requires InRange(net, p)
  {
    SetNode(net, p.node, N.OnLoss(net.nodes[p.node], p.slot))
  }

  /** The packet at the head of the partner's queue may arrive at port `p`. */
  ghost predicate Arrives(net: Net, p: Port) {
    && p in net.peer && InRange(net, p) && InRange(net, net.peer[p])
    && p.node != net.peer[p].node
    && ConnAt(net, net.peer[p]).out != []
  }

  /** A node that joins another cluster has handled the loss of its old links, and joined no third
      node, by the time the final acknowledgement arrives. */
  ghost predicate CanDeliver(net: Net, p: Port) {
    Arrives(net, p) && (ConnAt(net, net.peer[p]).out[0].Ack2? ==> N.Alone(net.nodes[p.node], p.slot))
  }

  function Popped(net: Net, q: Port): Net
    requires InRange(net, q) && ConnAt(net, q).out != []
  {
    SetNode(net, q.node, N.Pop(net.nodes[q.node], q.slot))
  }

  function Received(net: Net, p: Port, m: N.Message): Net
    requires InRange(net, p)
  {
    SetNode(net, p.node, N.OnReceive(net.nodes[p.node], p.slot, m))
  }

  function Deliver(net: Net, p: Port): Net
    requires p in net.peer && InRange(net, p) && InRange(net, net.peer[p])
    requires p.node != net.peer[p].node && ConnAt(net, net.peer[p]).out != []
  {
    var q := net.peer[p];
    Received(Popped(net, q), p, ConnAt(net, q).out[0])
  }

  ghost predicate Next(s: Net, t: Net) {
    || (exists p, q :: CanConnect(s, p, q) && t == Connect(s, p, q))
    || (exists p :: p in s.peer && t == Break(s, p))
    || (exists p :: CanLose(s, p) && t == Lose(s, p))
    || (exists p :: CanDeliver(s, p) && t == Deliver(s, p))
  }

  /** Every node starts alone: size one, no connection. */
  ghost predicate Init(net: Net, k: nat) {
    && net.peer == map[]
    && forall x :: x in net.nodes ==>
         var n := net.nodes[x];
         && n.id == x != N.BROADCAST && n.clusterSize == 1 && |n.conns| == k
         && forall j :: 0 <= j < k ==> n.conns[j] == N.InitConn(n.conns[j])
  }

  // ---- the invariant of a link -----------------------------------------------------------------

  ghost predicate AllUpdates(ms: seq<N.Message>) {
    forall m :: m in ms ==> N.IsUpdate(m)
  }

  /** The handshake packets that may be on the way to end `a` before either end is done. */
  ghost predicate IsGreeting(m: N.Message, a: N.Node, b: N.Node, j: nat)
    requires j < |b.conns|
  {
    && m.sender == b.id
    && (|| (m.Welcome? && m.receiver == N.HOPS_BASE + 1)
        || (m.Ack1? && m.receiver == a.id && b.conns[j].partnerId == a.id))
  }

  /** What end `a` (slot `i`) knows of end `b` (slot `j`). Once `b` is done, the size `a` credits
      plus the changes still on their way to it is the size of the tree on `b`'s side. */
  ghost predicate HalfOk(a: N.Node, i: nat, b: N.Node, j: nat)
    requires i < |a.conns| && j < |b.conns|
  {
    var p, q := a.conns[i], b.conns[j];
    if q.handshakeDone then
      && p.partnerId == b.id
      && p.connectedClusterSize + N.Credit(q.out) == b.clusterSize - q.connectedClusterSize
      && (if p.handshakeDone then AllUpdates(q.out)
          else q.out != [] && q.out[0].Ack2? && q.out[0].receiver == a.id && AllUpdates(q.out[1..]))
    else if p.handshakeDone then
      q.out == [] && p.connectedClusterSize == 1 && p.partnerId == b.id
    else
      && |p.out| + |q.out| <= 1
      && forall m :: m in q.out ==> IsGreeting(m, a, b, j)
  }

  ghost predicate PairOk(a: N.Node, i: nat, b: N.Node, j: nat)
    requires i < |a.conns| && j < |b.conns|
  {
    HalfOk(a, i, b, j) && HalfOk(b, j, a, i)
  }

  /** A size change told to the other links keeps them in balance. */
  lemma ToldKeepsPair(b: N.Node, r: N.Node, k: nat, j: nat, a: N.Node, i: nat)
    requires i < |a.conns| && j < |b.conns| == |r.conns| && j != k && r.id == b.id
    requires N.Told(b, r, k, j) && PairOk(a, i, b, j)
    ensures PairOk(a, i, r, j)
  {
    var p, q, q' := a.conns[i], b.conns[j], r.conns[j];
    if q.handshakeDone && q'.out != q.out {
      assert q'.out == q.out + [q'.out[|q.out|]];
      if !p.handshakeDone {
        assert q'.out[1..] == q.out[1..] + [q'.out[|q.out|]];
      }
    }
  }

  // ---- delivering one packet keeps the balance of its own link ------------------------------------

  lemma PairWelcome(a: N.Node, i: nat, b: N.Node, j: nat)
    requires i < |a.conns| && j < |b.conns| && PairOk(a, i, b, j) && N.SlotOk(a.conns[i]) && N.SlotOk(b.conns[j])
    requires b.conns[j].out != [] && b.conns[j].out[0].Welcome?
    ensures PairOk(N.OnReceive(a, i, b.conns[j].out[0]), i, N.Pop(b, j), j)
  {
    assert b.conns[j].out[0] in b.conns[j].out;
    assert !a.conns[i].handshakeDone && !b.conns[j].handshakeDone;
  }

  lemma PairAck1(a: N.Node, i: nat, b: N.Node, j: nat)
    requires i < |a.conns| && j < |b.conns| && PairOk(a, i, b, j) && N.SlotOk(a.conns[i]) && N.SlotOk(b.conns[j])
    requires b.conns[j].out != [] && b.conns[j].out[0].Ack1?
    ensures PairOk(N.OnReceive(a, i, b.conns[j].out[0]), i, N.Pop(b, j), j)
  {
    var m := b.conns[j].out[0];
    assert m in b.conns[j].out;
    assert !a.conns[i].handshakeDone && !b.conns[j].handshakeDone;
    var r := N.OnReceive(a, i, m);
    var ack := N.Ack2(a.id, m.sender, a.clusterId, a.clusterSize + 1);
    assert a.conns[i].out == [];
    assert r.conns[i].out == [ack];
    assert [ack][1..] == [];
  }

  /** The final acknowledgement balances the host's side exactly when the joiner was alone. */
  lemma PairAck2(a: N.Node, i: nat, b: N.Node, j: nat)
    requires i < |a.conns| && j < |b.conns| && PairOk(a, i, b, j) && N.SlotOk(a.conns[i]) && N.SlotOk(b.conns[j])
    requires b.conns[j].out != [] && b.conns[j].out[0].Ack2?
    ensures PairOk(N.OnReceive(a, i, b.conns[j].out[0]), i, N.Pop(b, j), j) <==> a.clusterSize == 1
  {
    var m := b.conns[j].out[0];
    assert m in b.conns[j].out;
    assert b.conns[j].handshakeDone && !a.conns[i].handshakeDone;
    assert a.conns[i].out == [];
  }

  lemma PairInfoUpdate(a: N.Node, i: nat, b: N.Node, j: nat)
    requires i < |a.conns| && j < |b.conns| && PairOk(a, i, b, j) && N.SlotOk(a.conns[i]) && N.SlotOk(b.conns[j])
    requires b.conns[j].out != [] && b.conns[j].out[0].InfoUpdate? && a.id != N.BROADCAST
    ensures PairOk(N.OnReceive(a, i, b.conns[j].out[0]), i, N.Pop(b, j), j)
  {
    var m := b.conns[j].out[0];
    assert m in b.conns[j].out;
    assert a.conns[i].handshakeDone && b.conns[j].handshakeDone;
  }

  // ---- the invariant of the whole mesh -----------------------------------------------------------

  ghost predicate NodesOk(net: Net, k: nat) {
    forall x :: x in net.nodes ==> net.nodes[x].id == x && |net.nodes[x].conns| == k && N.NodeOk(net.nodes[x])
  }

  ghost predicate LinksUp(net: Net, k: nat) {
    && WellFormed(net.peer, k)
    && forall p :: p in net.peer ==> InRange(net, p) && ConnAt(net, p).isConnected
  }

  ghost predicate LinkOk(net: Net, p: Port)
    requires p in net.peer && InRange(net, p) && InRange(net, net.peer[p])
  {
    var q := net.peer[p];
    PairOk(net.nodes[p.node], p.slot, net.nodes[q.node], q.slot)
  }

  /** All links are in balance, save those with an end in `except`. */
  ghost predicate LinksOk(net: Net, k: nat, except: set<Port>) {
    && LinksUp(net, k)
    && forall p :: p in net.peer && p !in except && net.peer[p] !in except ==> LinkOk(net, p)
  }

  ghost predicate Done(net: Net, p: Port) {
    InRange(net, p) && ConnAt(net, p).handshakeDone
  }

  /** The link of `p` is up and both of its ends have finished the handshake. */
  ghost predicate Linked(net: Net, p: Port) {
    p in net.peer && Done(net, p) && Done(net, net.peer[p])
  }

  ghost function Tree(net: Net): Links {
    map p | p in net.peer && Linked(net, p) :: net.peer[p]
  }

  ghost predicate Inv(net: Net, k: nat) {
    NodesOk(net, k) && LinksOk(net, k, {}) && WellFormed(Tree(net), k) && IsForest(Tree(net))
  }

  lemma SetNodeKeepsLink(net: Net, x: nat, r: N.Node, i: nat, p: Port)
    requires x in net.nodes && i < |net.nodes[x].conns| && N.TellsOthers(net.nodes[x], r, i)
    requires p in net.peer && InRange(net, p) && InRange(net, net.peer[p]) && LinkOk(net, p)
    requires p.node != net.peer[p].node && p != Port(x, i) && net.peer[p] != Port(x, i)
    ensures InRange(SetNode(net, x, r), p) && InRange(SetNode(net, x, r), net.peer[p])
    ensures LinkOk(SetNode(net, x, r), p)
  {
    var q := net.peer[p];
    if q.node == x {
      ToldKeepsPair(net.nodes[x], r, i, q.slot, net.nodes[p.node], p.slot);
    } else if p.node == x {
      ToldKeepsPair(net.nodes[x], r, i, p.slot, net.nodes[q.node], q.slot);
    }
  }

  lemma SetNodeKeepsLinks(net: Net, k: nat, x: nat, r: N.Node, i: nat, except: set<Port>)
    requires NodesOk(net, k) && LinksOk(net, k, except) && x in net.nodes
    requires i < k && N.TellsOthers(net.nodes[x], r, i)
    requires Port(x, i) in net.peer ==> r.conns[i].isConnected
    ensures LinksOk(SetNode(net, x, r), k, except + {Port(x, i)})
  {
    var t := SetNode(net, x, r);
    forall p | p in t.peer ensures InRange(t, p) && ConnAt(t, p).isConnected {
      assert InRange(net, p) && ConnAt(net, p).isConnected;
      assert p.node == x && p.slot != i ==> N.Told(net.nodes[x], r, i, p.slot);
    }
    var ex := except + {Port(x, i)};
    forall p | p in t.peer && p !in ex && t.peer[p] !in ex ensures LinkOk(t, p) {
      SetNodeKeepsLink(net, x, r, i, p);
    }
  }

  lemma LinkRestored(net: Net, k: nat, p: Port)
    requires LinksUp(net, k) && p in net.peer && LinksOk(net, k, {p, net.peer[p]}) && LinkOk(net, p)
    ensures LinksOk(net, k, {})
  {
    forall r | r in net.peer ensures LinkOk(net, r) {
      if r == net.peer[p] {
        assert net.peer[r] == p;
      }
    }
  }

  // ---- each step keeps the invariant -------------------------------------------------------------

  lemma PopTells(n: N.Node, i: nat)
    requires i < |n.conns| && n.conns[i].out != []
    ensures N.TellsOthers(n, N.Pop(n, i), i)
  {
    forall j | 0 <= j < |n.conns| && j != i ensures N.Told(n, N.Pop(n, i), i, j) {
    }
  }

  lemma PopKeepsNode(n: N.Node, i: nat)
    requires N.NodeOk(n) && i < |n.conns| && n.conns[i].out != []
    ensures N.NodeOk(N.Pop(n, i))
  {
    N.LedgerUpdate(n, i, N.Pop(n, i));
    forall j | 0 <= j < |n.conns| ensures N.SlotOk(N.Pop(n, i).conns[j]) {
      assert N.SlotOk(n.conns[j]);
    }
  }

  /** What the balance of a link says about the packet that arrives on it. */
  lemma ArrivingPacket(a: N.Node, i: nat, b: N.Node, j: nat)
    requires i < |a.conns| && j < |b.conns| && PairOk(a, i, b, j) && b.conns[j].out != []
    ensures
      var m := b.conns[j].out[0];
      && (m.Welcome? ==> m.receiver == N.HOPS_BASE + 1)
      && (m.Ack1? || m.Ack2? ==> m.receiver == a.id)
      && (m.InfoUpdate? ==> N.IsUpdate(m) && a.conns[i].handshakeDone)
  {
    assert b.conns[j].out[0] in b.conns[j].out;
  }

  lemma DeliverKeepsPair(a: N.Node, i: nat, b: N.Node, j: nat)
    requires i < |a.conns| && j < |b.conns| && PairOk(a, i, b, j) && b.conns[j].out != []
    requires N.NodeOk(a) && N.NodeOk(b)
    requires b.conns[j].out[0].Ack2? ==> N.Alone(a, i)
    ensures PairOk(N.OnReceive(a, i, b.conns[j].out[0]), i, N.Pop(b, j), j)
  {
    var m := b.conns[j].out[0];
    assert N.SlotOk(a.conns[i]) && N.SlotOk(b.conns[j]);
    match m {
      case Welcome(_, _, _, _) => PairWelcome(a, i, b, j);
      case Ack1(_, _) => PairAck1(a, i, b, j);
      case Ack2(_, _, _, _) =>
        assert !a.conns[i].handshakeDone by { assert m in b.conns[j].out; }
        N.AloneSize(a, i);
        PairAck2(a, i, b, j);
      case InfoUpdate(_, _, _, _, _) => PairInfoUpdate(a, i, b, j);
    }
  }

  lemma ReceiveStaysConnected(n: N.Node, i: nat, m: N.Message)
    requires i < |n.conns|
    ensures N.OnReceive(n, i, m).id == n.id && |N.OnReceive(n, i, m).conns| == |n.conns|
    ensures N.OnReceive(n, i, m).conns[i].isConnected == n.conns[i].isConnected
  {
  }

  lemma PopKeepsLinks(net: Net, k: nat, q: Port)
    requires NodesOk(net, k) && LinksOk(net, k, {}) && q in net.peer && ConnAt(net, q).out != []
    ensures NodesOk(Popped(net, q), k) && LinksOk(Popped(net, q), k, {q})
  {
    PopTells(net.nodes[q.node], q.slot);
    PopKeepsNode(net.nodes[q.node], q.slot);
    assert ConnAt(net, q).isConnected;
    SetNodeKeepsLinks(net, k, q.node, N.Pop(net.nodes[q.node], q.slot), q.slot, {});
  }

  lemma ReceiveKeepsNodes(net: Net, k: nat, p: Port, m: N.Message)
    requires NodesOk(net, k) && InRange(net, p) && ConnAt(net, p).isConnected
    requires m.InfoUpdate? ==> ConnAt(net, p).handshakeDone
    ensures NodesOk(Received(net, p, m), k)
  {
    N.ReceiveKeepsNode(net.nodes[p.node], p.slot, m);
    ReceiveStaysConnected(net.nodes[p.node], p.slot, m);
  }

  lemma ReceiveKeepsLinks(net: Net, k: nat, p: Port, m: N.Message, q: Port)
    requires NodesOk(net, k) && LinksOk(net, k, {q}) && p in net.peer && InRange(net, p)
    requires m.Welcome? ==> m.receiver == N.HOPS_BASE + 1
    requires m.Ack1? || m.Ack2? ==> m.receiver == p.node
    requires m.InfoUpdate? ==> N.IsUpdate(m) && ConnAt(net, p).handshakeDone
    requires m.Ack2? ==> N.Alone(net.nodes[p.node], p.slot)
    ensures NodesOk(Received(net, p, m), k) && LinksOk(Received(net, p, m), k, {q} + {p})
  {
    var a := net.nodes[p.node];
    assert ConnAt(net, p).isConnected;
    N.ReceiveTells(a, p.slot, m);
    ReceiveKeepsNodes(net, k, p, m);
    ReceiveStaysConnected(a, p.slot, m);
    SetNodeKeepsLinks(net, k, p.node, N.OnReceive(a, p.slot, m), p.slot, {q});
  }

  lemma PoppedElsewhere(net: Net, q: Port, p: Port)
    requires InRange(net, q) && ConnAt(net, q).out != [] && InRange(net, p) && p.node != q.node
    ensures Popped(net, q).nodes[p.node] == net.nodes[p.node] && Popped(net, q).peer == net.peer
    ensures InRange(Popped(net, q), p) && ConnAt(Popped(net, q), p) == ConnAt(net, p)
  {
  }

  lemma DeliverKeepsOthers(net: Net, k: nat, p: Port, q: Port)
    requires NodesOk(net, k) && LinksOk(net, k, {}) && CanDeliver(net, p) && q == net.peer[p]
    ensures NodesOk(Deliver(net, p), k) && LinksOk(Deliver(net, p), k, {q} + {p})
  {
    var m := ConnAt(net, q).out[0];
    PopKeepsLinks(net, k, q);
    PoppedElsewhere(net, q, p);
    ArrivingOn(net, k, p, m);
    ReceiveKeepsLinks(Popped(net, q), k, p, m, q);
  }

  lemma ArrivingOn(net: Net, k: nat, p: Port, m: N.Message)
    requires NodesOk(net, k) && LinksOk(net, k, {}) && CanDeliver(net, p) && m == ConnAt(net, net.peer[p]).out[0]
    ensures m.Welcome? ==> m.receiver == N.HOPS_BASE + 1
    ensures m.Ack1? || m.Ack2? ==> m.receiver == p.node
    ensures m.InfoUpdate? ==> N.IsUpdate(m) && ConnAt(net, p).handshakeDone
  {
    var q := net.peer[p];
    assert LinkOk(net, p);
    ArrivingPacket(net.nodes[p.node], p.slot, net.nodes[q.node], q.slot);
  }

  lemma DeliverKeepsLinks(net: Net, k: nat, p: Port)
    requires NodesOk(net, k) && LinksOk(net, k, {}) && CanDeliver(net, p)
    ensures NodesOk(Deliver(net, p), k) && LinksOk(Deliver(net, p), k, {})
  {
    var q, t := net.peer[p], Deliver(net, p);
    DeliverKeepsOthers(net, k, p, q);
    DeliverKeepsLink(net, k, p);
    assert {q} + {p} == {p, t.peer[p]};
    LinkRestored(t, k, p);
  }

  lemma DeliverKeepsLink(net: Net, k: nat, p: Port)
    requires NodesOk(net, k) && LinksOk(net, k, {}) && CanDeliver(net, p)
    ensures
      var t := Deliver(net, p);
      p in t.peer && InRange(t, p) && InRange(t, t.peer[p]) && LinkOk(t, p)
  {
    var q, t := net.peer[p], Deliver(net, p);
    var a, b := net.nodes[p.node], net.nodes[q.node];
    assert LinkOk(net, p);
    DeliverKeepsPair(a, p.slot, b, q.slot);
    ReceiveStaysConnected(a, p.slot, b.conns[q.slot].out[0]);
    assert t.nodes[p.node] == N.OnReceive(a, p.slot, b.conns[q.slot].out[0]) && t.nodes[q.node] == N.Pop(b, q.slot);
  }

  lemma LoseKeepsLinks(net: Net, k: nat, p: Port)
    requires NodesOk(net, k) && LinksOk(net, k, {}) && CanLose(net, p)
    ensures NodesOk(Lose(net, p), k) && LinksOk(Lose(net, p), k, {})
  {
    var n := net.nodes[p.node];
    N.LossTells(n, p.slot);
    N.LossKeepsNode(n, p.slot);
    IdleKeepsLinks(net, k, p, N.OnLoss(n, p.slot));
  }

  lemma BreakKeepsLinks(net: Net, k: nat, p: Port)
    requires NodesOk(net, k) && LinksOk(net, k, {}) && p in net.peer
    ensures NodesOk(Break(net, p), k) && LinksOk(Break(net, p), k, {})
  {
    var t := Break(net, p);
    DropKeepsWellFormed(net.peer, k, p);
    forall r | r in t.peer ensures LinkOk(t, r) {
      assert LinkOk(net, r);
    }
  }

  lemma ConnectKeepsLinks(net: Net, k: nat, p: Port, q: Port)
    requires NodesOk(net, k) && LinksOk(net, k, {}) && CanConnect(net, p, q)
    ensures NodesOk(Connect(net, p, q), k) && LinksOk(Connect(net, p, q), k, {})
  {
    var a, b := net.nodes[p.node], net.nodes[q.node];
    var a', b' := N.OnConnected(a, p.slot), N.OnConnected(b, q.slot);
    ConnectedKeepsNode(a, p.slot);
    ConnectedKeepsNode(b, q.slot);
    IdleKeepsLinks(net, k, p, a');
    var s := SetNode(net, p.node, a');
    IdleKeepsLinks(s, k, q, b');
    ConnectedPair(a, p.slot, b, q.slot);
    LinkAdded(SetNode(s, q.node, b'), k, p, q);
    assert Connect(net, p, q) == LinkUp(SetNode(s, q.node, b'), p, q);
  }

  function LinkUp(net: Net, p: Port, q: Port): Net {
    net.(peer := Attach(net.peer, p, q))
  }

  lemma LinkAdded(net: Net, k: nat, p: Port, q: Port)
    requires LinksOk(net, k, {}) && InRange(net, p) && InRange(net, q) && p.node != q.node
    requires p !in net.peer && q !in net.peer && p.slot < k && q.slot < k
    requires ConnAt(net, p).isConnected && ConnAt(net, q).isConnected
    requires PairOk(net.nodes[p.node], p.slot, net.nodes[q.node], q.slot)
    ensures LinksOk(LinkUp(net, p, q), k, {})
  {
    var t := LinkUp(net, p, q);
    AttachKeepsWellFormed(net.peer, k, p, q);
    forall r | r in t.peer ensures InRange(t, r) && ConnAt(t, r).isConnected && InRange(t, t.peer[r]) && LinkOk(t, r) {
      if r != p && r != q {
        assert net.peer[r] in net.peer && LinkOk(net, r);
      }
    }
  }

  lemma IdleKeepsLinks(net: Net, k: nat, p: Port, n: N.Node)
    requires NodesOk(net, k) && LinksOk(net, k, {}) && InRange(net, p) && p !in net.peer
    requires N.NodeOk(n) && N.TellsOthers(net.nodes[p.node], n, p.slot)
    ensures NodesOk(SetNode(net, p.node, n), k) && LinksOk(SetNode(net, p.node, n), k, {})
  {
    SetNodeKeepsLinks(net, k, p.node, n, p.slot, {});
    var t := SetNode(net, p.node, n);
    forall r | r in t.peer ensures LinkOk(t, r) {
      assert t.peer[r] in t.peer;
    }
  }

  lemma ConnectedKeepsNode(n: N.Node, i: nat)
    requires i < |n.conns| && N.NodeOk(n) && !n.conns[i].isConnected
    ensures N.NodeOk(N.OnConnected(n, i)) && N.TellsOthers(n, N.OnConnected(n, i), i)
  {
    assert N.SlotOk(n.conns[i]);
    var r := N.OnConnected(n, i);
    N.LedgerUpdate(n, i, r);
    forall j | 0 <= j < |n.conns| ensures N.SlotOk(r.conns[j]) && (j != i ==> N.Told(n, r, i, j)) {
      assert N.SlotOk(n.conns[j]);
    }
  }

  lemma ConnectedPair(a: N.Node, i: nat, b: N.Node, j: nat)
    requires i < |a.conns| && j < |b.conns|
    requires a.conns[i].direction == N.Out && b.conns[j].direction == N.In
    requires N.SlotOk(b.conns[j]) && !b.conns[j].isConnected
    ensures PairOk(N.OnConnected(a, i), i, N.OnConnected(b, j), j)
  {
  }

  // ---- the finished links stay a forest -----------------------------------------------------------

  lemma ReceiveFinishes(n: N.Node, i: nat, m: N.Message, j: nat)
    requires i < |n.conns| && j < |n.conns|
    ensures |N.OnReceive(n, i, m).conns| == |n.conns|
    ensures N.OnReceive(n, i, m).conns[j].handshakeDone <==>
      n.conns[j].handshakeDone || (j == i && (m.Ack1? || m.Ack2?))
  {
  }

  lemma SameTree(s: Net, t: Net, k: nat)
    requires WellFormed(s.peer, k) && t.peer == s.peer
    requires forall r :: r in s.peer ==> (Done(t, r) <==> Done(s, r))
    ensures Tree(t) == Tree(s)
  {
  }

  lemma DeliverDone(net: Net, p: Port, r: Port)
    requires CanDeliver(net, p)
    ensures
      var m := ConnAt(net, net.peer[p]).out[0];
      Done(Deliver(net, p), r) <==> Done(net, r) || (r == p && (m.Ack1? || m.Ack2?))
  {
    if InRange(net, r) && r.node == p.node {
      ReceiveFinishes(net.nodes[p.node], p.slot, ConnAt(net, net.peer[p]).out[0], r.slot);
    } else {
      ReceiveStaysConnected(net.nodes[p.node], p.slot, ConnAt(net, net.peer[p]).out[0]);
    }
  }

  lemma ArrivingDone(net: Net, k: nat, p: Port, m: N.Message)
    requires Inv(net, k) && CanDeliver(net, p) && m == ConnAt(net, net.peer[p]).out[0]
    ensures m.Ack1? ==> !Done(net, net.peer[p])
    ensures m.Ack2? ==> !Done(net, p) && Done(net, net.peer[p])
  {
    assert m in ConnAt(net, net.peer[p]).out;
    assert LinkOk(net, p);
  }

  /** Only a final acknowledgement adds a link, and it adds it to a node that has no other. */
  lemma DeliverTree(net: Net, k: nat, p: Port)
    requires Inv(net, k) && CanDeliver(net, p)
    ensures
      var q := net.peer[p];
      if ConnAt(net, q).out[0].Ack2?
      then Tree(Deliver(net, p)) == Attach(Tree(net), p, q) && p.node !in Nodes(Tree(net)) && q !in Tree(net)
      else Tree(Deliver(net, p)) == Tree(net)
  {
    var m := ConnAt(net, net.peer[p]).out[0];
    ArrivingDone(net, k, p, m);
    if m.Ack2? {
      Ack2Tree(net, k, p);
    } else {
      forall r ensures Done(Deliver(net, p), r) <==> Done(net, r) || (r == p && m.Ack1?) {
        DeliverDone(net, p, r);
      }
      if m.Ack1? {
        TreeWithHalf(net, Deliver(net, p), k, p);
      } else {
        SameTree(net, Deliver(net, p), k);
      }
    }
  }

  lemma Ack2Tree(net: Net, k: nat, p: Port)
    requires WellFormed(net.peer, k) && CanDeliver(net, p) && ConnAt(net, net.peer[p]).out[0].Ack2?
    requires !Done(net, p) && Done(net, net.peer[p])
    ensures Tree(Deliver(net, p)) == Attach(Tree(net), p, net.peer[p])
    ensures p.node !in Nodes(Tree(net)) && net.peer[p] !in Tree(net)
  {
    var q, t := net.peer[p], Deliver(net, p);
    assert net.peer[q] == p;
    forall r ensures Done(t, r) <==> Done(net, r) || r == p {
      DeliverDone(net, p, r);
    }
    forall r | r in Tree(net) ensures r.node != p.node {
      assert Done(net, r);
    }
    TreeWith(net, t, k, p, q);
  }

  lemma TreeWith(s: Net, t: Net, k: nat, p: Port, q: Port)
    requires WellFormed(s.peer, k) && t.peer == s.peer && p in s.peer && q == s.peer[p]
    requires forall r :: Done(t, r) <==> Done(s, r) || r == p
    requires Done(s, q) && !Done(s, p)
    ensures Tree(t) == Attach(Tree(s), p, q)
  {
    assert s.peer[q] == p;
    forall r ensures Linked(t, r) <==> Linked(s, r) || r == p || r == q {
      assert r in s.peer ==> s.peer[s.peer[r]] == r;
    }
  }

  lemma TreeWithHalf(s: Net, t: Net, k: nat, p: Port)
    requires WellFormed(s.peer, k) && t.peer == s.peer && p in s.peer
    requires forall r :: Done(t, r) <==> Done(s, r) || r == p
    requires !Done(s, s.peer[p])
    ensures Tree(t) == Tree(s)
  {
    assert s.peer[p] != p;
    forall r | r in s.peer ensures s.peer[r] == p ==> r == s.peer[p] {
    }
  }

  lemma DeliverKeeps(net: Net, k: nat, p: Port)
    requires Inv(net, k) && CanDeliver(net, p)
    ensures Inv(Deliver(net, p), k)
  {
    DeliverKeepsLinks(net, k, p);
    DeliverTree(net, k, p);
    if ConnAt(net, net.peer[p]).out[0].Ack2? {
      assert net.peer[p] in net.peer;
      AttachKeepsForest(Tree(net), k, p, net.peer[p]);
    }
  }

  lemma LoseDone(net: Net, p: Port, r: Port)
    requires CanLose(net, p) && r != p
    ensures Done(Lose(net, p), r) <==> Done(net, r)
  {
  }

  lemma LoseKeeps(net: Net, k: nat, p: Port)
    requires Inv(net, k) && CanLose(net, p)
    ensures Inv(Lose(net, p), k)
  {
    LoseKeepsLinks(net, k, p);
    forall r | r in net.peer ensures Done(Lose(net, p), r) <==> Done(net, r) {
      LoseDone(net, p, r);
    }
    SameTree(net, Lose(net, p), k);
  }

  lemma BreakTree(net: Net, k: nat, p: Port)
    requires WellFormed(net.peer, k) && p in net.peer
    ensures Tree(Break(net, p)) == if p in Tree(net) then Tree(net) - {p, Tree(net)[p]} else Tree(net)
  {
    var q, t := net.peer[p], Break(net, p);
    assert net.peer[q] == p;
    forall r ensures Done(t, r) <==> Done(net, r) {
    }
  }

  lemma BreakKeeps(net: Net, k: nat, p: Port)
    requires Inv(net, k) && p in net.peer
    ensures Inv(Break(net, p), k)
  {
    BreakKeepsLinks(net, k, p);
    BreakTree(net, k, p);
    if p in Tree(net) {
      DropKeepsForest(Tree(net), k, p);
    }
  }

  lemma ConnectDone(net: Net, k: nat, p: Port, q: Port, r: Port)
    requires NodesOk(net, k) && CanConnect(net, p, q)
    ensures Done(Connect(net, p, q), r) <==> Done(net, r)
    ensures !Done(net, p) && !Done(net, q)
  {
    assert N.SlotOk(ConnAt(net, p)) && N.SlotOk(ConnAt(net, q));
  }

  lemma ConnectTree(net: Net, k: nat, p: Port, q: Port)
    requires NodesOk(net, k) && LinksUp(net, k) && CanConnect(net, p, q)
    ensures Tree(Connect(net, p, q)) == Tree(net)
  {
    forall r ensures (Done(Connect(net, p, q), r) <==> Done(net, r)) && !Done(net, p) && !Done(net, q) {
      ConnectDone(net, k, p, q, r);
    }
    FreshLinkNotInTree(net, Connect(net, p, q), k, p, q);
  }

  lemma FreshLinkNotInTree(s: Net, t: Net, k: nat, p: Port, q: Port)
    requires WellFormed(s.peer, k) && t.peer == Attach(s.peer, p, q) && p !in s.peer && q !in s.peer
    requires forall r :: Done(t, r) <==> Done(s, r)
    requires !Done(s, p) && !Done(s, q)
    ensures Tree(t) == Tree(s)
  {
    forall r ensures Linked(t, r) <==> Linked(s, r) {
      assert r in s.peer ==> s.peer[r] in s.peer;
    }
  }

  lemma ConnectKeeps(net: Net, k: nat, p: Port, q: Port)
    requires Inv(net, k) && CanConnect(net, p, q)
    ensures Inv(Connect(net, p, q), k)
  {
    ConnectKeepsLinks(net, k, p, q);
    ConnectTree(net, k, p, q);
  }

  lemma InitHolds(net: Net, k: nat)
    requires Init(net, k)
    ensures Inv(net, k)
  {
    forall x | x in net.nodes ensures N.NodeOk(net.nodes[x]) {
      var n := net.nodes[x];
      forall j | 0 <= j < k ensures N.SlotOk(n.conns[j]) && N.Ledger(n)[j] == 0 {
      }
      N.Zeros(N.Ledger(n));
    }
    assert Tree(net) == map[];
  }

  lemma NextKeeps(s: Net, k: nat, t: Net)
    requires Inv(s, k) && Next(s, t)
    ensures Inv(t, k)
  {
    if p, q :| CanConnect(s, p, q) && t == Connect(s, p, q) {
      ConnectKeeps(s, k, p, q);
    } else if p :| p in s.peer && t == Break(s, p) {
      BreakKeeps(s, k, p);
    } else if p :| CanLose(s, p) && t == Lose(s, p) {
      LoseKeeps(s, k, p);
    } else {
      var p :| CanDeliver(s, p) && t == Deliver(s, p);
      DeliverKeeps(s, k, p);
    }
  }

  ghost predicate IsRun(run: seq<Net>, k: nat) {
    run != [] && Init(run[0], k) && forall i :: 0 < i < |run| ==> Next(run[i - 1], run[i])
  }

  lemma {:induction false} RunKeeps(run: seq<Net>, k: nat)
    requires IsRun(run, k)
    ensures Inv(run[|run| - 1], k)
  {
    if |run| == 1 {
      InitHolds(run[0], k);
    } else {
      var before := run[..|run| - 1];
      RunKeeps(before, k);
      assert before[|before| - 1] == run[|run| - 2];
      NextKeeps(run[|run| - 2], k, run[|run| - 1]);
    }
  }

  // ---- main results --------------------------------------------------------------------------------

  /** Nothing is on its way, and no end has still to learn that its link broke. */
  ghost predicate Quiescent(net: Net) {
    && (forall p :: p in net.peer && InRange(net, p) ==> ConnAt(net, p).out == [])
    && (forall p :: InRange(net, p) && ConnAt(net, p).isConnected ==> p in net.peer)
  }

  lemma QuiescentPort(net: Net, k: nat, p: Port)
    requires Inv(net, k) && Quiescent(net) && InRange(net, p) && ConnAt(net, p).handshakeDone
    ensures p in Tree(net)
    ensures
      var q := net.peer[p];
      && InRange(net, q)
      && ConnAt(net, p).connectedClusterSize == net.nodes[q.node].clusterSize - ConnAt(net, q).connectedClusterSize
  {
    assert N.SlotOk(ConnAt(net, p));
    assert LinkOk(net, p);
    var q := net.peer[p];
    assert InRange(net, q) && ConnAt(net, q).out == [] && ConnAt(net, p).out == [];
  }

  ghost function Credited(net: Net): map<Port, int> {
    map p | p in net.peer && InRange(net, p) :: ConnAt(net, p).connectedClusterSize
  }

  lemma CreditIsLedger(net: Net, k: nat, ban: set<Port>, y: nat, i: nat)
    requires Inv(net, k) && Quiescent(net) && y in net.nodes && i < k
    ensures i < |net.nodes[y].conns|
    ensures Credits(Tree(net), k, Credited(net), ban, y)[i]
         == if Port(y, i) in ban then 0 else N.Ledger(net.nodes[y])[i]
  {
    var r := Port(y, i);
    assert InRange(net, r) && N.SlotOk(ConnAt(net, r));
    if ConnAt(net, r).handshakeDone {
      QuiescentPort(net, k, r);
    }
  }

  lemma CreditsAreLedger(net: Net, k: nat, ban: set<Port>, q: Port)
    requires Inv(net, k) && Quiescent(net) && InRange(net, q)
    requires ban == {} || (forall i :: Port(q.node, i) in ban <==> i == q.slot)
    ensures Sum(Credits(Tree(net), k, Credited(net), ban, q.node))
         == net.nodes[q.node].clusterSize - 1 - if ban == {} then 0 else ConnAt(net, q).connectedClusterSize
  {
    var n := net.nodes[q.node];
    var ledger := if ban == {} then N.Ledger(n) else N.Ledger(n)[q.slot := 0];
    var credits := Credits(Tree(net), k, Credited(net), ban, q.node);
    forall i | 0 <= i < k ensures credits[i] == ledger[i] {
      CreditIsLedger(net, k, ban, q.node, i);
    }
    assert credits == ledger;
    SumUpdate(N.Ledger(n), q.slot, 0);
  }

  lemma QuiescentBalancedAt(net: Net, k: nat, p: Port)
    requires Inv(net, k) && Quiescent(net) && p in Tree(net)
    ensures BalancedAt(Tree(net), k, Credited(net), p)
  {
    QuiescentPort(net, k, p);
    var q := net.peer[p];
    assert p.node != q.node;
    forall i ensures Port(q.node, i) in {p, q} <==> i == q.slot {
    }
    CreditsAreLedger(net, k, {p, q}, q);
  }

  lemma QuiescentBalanced(net: Net, k: nat)
    requires Inv(net, k) && Quiescent(net)
    ensures Balanced(Tree(net), k, Credited(net))
  {
    forall p | p in Tree(net) ensures BalancedAt(Tree(net), k, Credited(net), p) {
      QuiescentBalancedAt(net, k, p);
    }
  }

  /** Once nothing is in flight, every node knows the true size of its tree, and every end of a
      link the true number of nodes behind it. */
  lemma ClusterSizesAreExact(run: seq<Net>, k: nat, x: nat)
    requires IsRun(run, k) && Quiescent(run[|run| - 1]) && x in run[|run| - 1].nodes && k > 0
    ensures
      var net := run[|run| - 1];
      && net.nodes[x].clusterSize == |Cluster(Tree(net), x)|
      && |net.nodes[x].conns| == k
      && forall i :: 0 <= i < k && net.nodes[x].conns[i].handshakeDone ==>
           && Port(x, i) in Tree(net)
           && net.nodes[x].conns[i].connectedClusterSize == |FarSide(Tree(net), Port(x, i))|
  {
    var net := run[|run| - 1];
    RunKeeps(run, k);
    QuiescentBalanced(net, k);
    BalancedCountsCluster(Tree(net), k, Credited(net), x);
    CreditsAreLedger(net, k, {}, Port(x, 0));
    forall i | 0 <= i < k && net.nodes[x].conns[i].handshakeDone
      ensures Port(x, i) in Tree(net)
      ensures net.nodes[x].conns[i].connectedClusterSize == |FarSide(Tree(net), Port(x, i))|
    {
      QuiescentPort(net, k, Port(x, i));
      BalancedCountsFarSide(Tree(net), k, Credited(net), Port(x, i));
    }
  }

  /** In every reachable state the finished links form a forest, and on each of them the size one
      end credits plus the changes on their way to it is the size of the other end's side. */
  lemma LinksAlwaysBalance(run: seq<Net>, k: nat, p: Port)
    requires IsRun(run, k) && p in Tree(run[|run| - 1])
    ensures
      var net := run[|run| - 1];
      var q := Tree(net)[p];
      && IsForest(Tree(net)) && InRange(net, p) && InRange(net, q)
      && ConnAt(net, p).connectedClusterSize + N.Credit(ConnAt(net, q).out)
           == net.nodes[q.node].clusterSize - ConnAt(net, q).connectedClusterSize
      && net.nodes[q.node].clusterSize == 1 + Sum(N.Ledger(net.nodes[q.node]))
  {
    RunKeeps(run, k);
    var net := run[|run| - 1];
    assert net.peer[p] in net.peer && LinkOk(net, p);
  }
}

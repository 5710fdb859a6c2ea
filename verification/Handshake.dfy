/** The handshake of two nodes over one fresh link, run to its end. */
module Handshake {
  import opened Sums
  import N = ClusterNode

  /** The two ends of the link and the handshake packets queued on it so far. */
  datatype Pair = Pair(a: N.Node, i: nat, b: N.Node, j: nat, trace: seq<N.Message>)

  ghost predicate Wired(s: Pair) {
    s.i < |s.a.conns| && s.j < |s.b.conns|
  }

  /** Slot `i` of the central `a` connects to slot `j` of the peripheral `b`. */
  function Begin(a: N.Node, i: nat, b: N.Node, j: nat): Pair
    requires i < |a.conns| && j < |b.conns|
  {
    var a' := N.OnConnected(a, i);
    Pair(a', i, N.OnConnected(b, j), j, a'.conns[i].out)
  }

  function Swap(s: Pair): Pair {
    Pair(s.b, s.j, s.a, s.i, s.trace)
  }

  /** The packet at the head of `a`'s queue reaches `b`. */
  function Pass(s: Pair): Pair
    requires Wired(s) && s.a.conns[s.i].out != []
  {
    var b' := N.OnReceive(s.b, s.j, s.a.conns[s.i].out[0]);
    var before, after := s.b.conns[s.j].out, b'.conns[s.j].out;
    Pair(N.Pop(s.a, s.i), s.i, b', s.j, s.trace + if |before| <= |after| then after[|before|..] else [])
  }

  /** Lets the packets of the link arrive, at most `n` of them, until none is left. */
  function Settle(s: Pair, n: nat): Pair
    requires Wired(s)
    decreases n
  {
    if n == 0 then s
    else if s.a.conns[s.i].out != [] then Settle(Pass(s), n - 1)
    else if s.b.conns[s.j].out != [] then Swap(Settle(Pass(Swap(s)), n - 1))
    else s
  }

  /** An idle pair of slots of two different nodes. */
  ghost predicate Fresh(a: N.Node, i: nat, b: N.Node, j: nat) {
    && i < |a.conns| && j < |b.conns|
    && a.id != b.id
    && a.conns[i].direction == N.Out && b.conns[j].direction == N.In
    && a.conns[i] == N.InitConn(a.conns[i]) && b.conns[j] == N.InitConn(b.conns[j])
  }

  ghost predicate Finished(s: Pair)
    requires Wired(s)
  {
    && s.a.conns[s.i].handshakeDone && s.b.conns[s.j].handshakeDone
    && s.a.conns[s.i].out == [] && s.b.conns[s.j].out == []
    && s.a.clusterId == s.b.clusterId
    && s.a.conns[s.i].connectedClusterId == s.b.conns[s.j].connectedClusterId == s.a.clusterId
    && s.a.conns[s.i].partnerId == s.b.id && s.b.conns[s.j].partnerId == s.a.id
  }

  /** The cluster with more nodes stays, or of two with equally many the one with the greater id. */
  predicate Hosts(a: N.Node, b: N.Node) {
    b.clusterSize < a.clusterSize || (b.clusterSize == a.clusterSize && b.clusterId < a.clusterId)
  }

  /** Every other connection of the joiner is asked to close, */
  ghost predicate Sheds(n: N.Node, i: nat, r: N.Node) {
    && |r.conns| == |n.conns|
    && forall l :: 0 <= l < |n.conns| && l != i ==> (r.conns[l].closing <==> n.conns[l].closing || n.conns[l].isConnected)
  }

  /** and none of the host. */
  ghost predicate Keeps(n: N.Node, i: nat, r: N.Node) {
    && |r.conns| == |n.conns|
    && forall l :: 0 <= l < |n.conns| && l != i ==> (r.conns[l].closing <==> n.conns[l].closing)
  }

  /** The joiner `n` receives the host's greeting on slot `i`. */
  lemma GreetedSheds(n: N.Node, i: nat, m: N.Message)
    requires i < |n.conns| && m.Welcome? && m.receiver == N.HOPS_BASE + 1
    ensures m.clusterId != n.clusterId && N.IsBigger(m.clusterSize, m.clusterId, n.clusterSize, n.clusterId) ==>
      Sheds(n, i, N.OnReceive(n, i, m))
  {
    forall l | 0 <= l < |n.conns| && l != i
      ensures N.OnReceive(n, i, m).conns[l].closing <==>
        n.conns[l].closing
        || (n.conns[l].isConnected && m.clusterId != n.clusterId
            && (m.clusterSize > n.clusterSize || (m.clusterSize == n.clusterSize && m.clusterId > n.clusterId))) {
      N.JoinerShedsOthers(n, i, m, l);
    }
  }

  /** The joiner, at the first end, has queued its acknowledgement and nothing else is on the link. */
  ghost predicate Joining(s: Pair) {
    && Wired(s) && s.a.id != s.b.id
    && (var c, d := s.a.conns[s.i], s.b.conns[s.j];
        && c.out == [N.Ack1(s.a.id, s.b.id)] && c.partnerId == s.b.id && d.out == []
        && !c.handshakeDone && !d.handshakeDone && c.connectedClusterSize == d.connectedClusterSize == 0)
  }

  /** The host admits the joiner, */
  lemma HostAdmits(s: Pair)
    requires Joining(s)
    ensures
      var t := Pass(s);
      var ack := N.Ack2(s.b.id, s.a.id, s.b.clusterId, s.b.clusterSize + 1);
      && t.a == N.Pop(s.a, s.i) && t.a.conns[s.i].out == [] && t.trace == s.trace + [ack]
      && t.i == s.i && t.j == s.j && Wired(t) && Keeps(s.b, s.j, t.b)
      && t.b.id == s.b.id && t.b.clusterId == s.b.clusterId && t.b.clusterSize == s.b.clusterSize + 1
      && t.b.conns[s.j].out == [ack] && t.b.conns[s.j].handshakeDone && t.b.conns[s.j].partnerId == s.a.id
  {
  }

  /** and the joiner enters the host's cluster, which ends the exchange. */
  lemma JoinerEnters(s: Pair)
    requires Joining(s)
    ensures
      var t := Settle(Pass(s), 1);
      && t == Settle(Pass(s), 2)
      && Wired(t) && Finished(t) && t.i == s.i && t.j == s.j
      && t.a.clusterSize == s.a.clusterSize + s.b.clusterSize && t.b.clusterSize == s.b.clusterSize + 1
      && t.b.clusterId == s.b.clusterId
      && t.trace == s.trace + [N.Ack2(s.b.id, s.a.id, s.b.clusterId, s.b.clusterSize + 1)]
      && Keeps(s.a, s.i, t.a) && Keeps(s.b, s.j, t.b)
  {
    HostAdmits(s);
    var t := Pass(s);
    var u := Pass(Swap(t));
    assert u.a.conns[u.i].out == [] && u.b.conns[u.j].out == [];
    assert Settle(t, 1) == Swap(u) && Settle(t, 2) == Swap(Settle(u, 1)) && Settle(u, 1) == u;
  }

  /** The central greets a smaller peripheral, */
  lemma CentralGreets(a: N.Node, i: nat, b: N.Node, j: nat)
    requires Fresh(a, i, b, j) && a.clusterId != b.clusterId && Hosts(a, b)
    ensures
      var s := Pass(Begin(a, i, b, j));
      && Joining(Swap(s)) && s.i == i && s.j == j
      && s.a.clusterSize == a.clusterSize && s.b.clusterSize == b.clusterSize && s.a.clusterId == a.clusterId
      && s.a.id == a.id && s.b.id == b.id && Sheds(b, j, s.b) && Keeps(a, i, s.a)
      && s.trace == [N.Welcome(a.id, N.HOPS_BASE + 1, a.clusterId, a.clusterSize), N.Ack1(b.id, a.id)]
  {
    var s := Begin(a, i, b, j);
    GreetedSheds(s.b, j, s.a.conns[i].out[0]);
    assert Pass(s).b.conns[j].out == [N.Ack1(b.id, a.id)];
  }

  lemma CentralHosts(a: N.Node, i: nat, b: N.Node, j: nat)
    requires Fresh(a, i, b, j) && a.clusterId != b.clusterId && Hosts(a, b)
    ensures
      var s := Settle(Begin(a, i, b, j), 4);
      && Wired(s) && Finished(s)
      && s.a.clusterSize == a.clusterSize + 1 && s.b.clusterSize == b.clusterSize + a.clusterSize
      && s.a.clusterId == a.clusterId
      && s.trace == [N.Welcome(a.id, N.HOPS_BASE + 1, a.clusterId, a.clusterSize), N.Ack1(b.id, a.id),
                     N.Ack2(a.id, b.id, a.clusterId, a.clusterSize + 1)]
      && Sheds(b, j, s.b) && Keeps(a, i, s.a)
  {
    CentralGreets(a, i, b, j);
    var s := Pass(Begin(a, i, b, j));
    JoinerEnters(Swap(s));
    assert Settle(s, 3) == Swap(Settle(Pass(Swap(s)), 2));
  }

  /** or a bigger one, which greets in turn. */
  lemma PeripheralGreets(a: N.Node, i: nat, b: N.Node, j: nat)
    requires Fresh(a, i, b, j) && a.clusterId != b.clusterId && Hosts(b, a)
    ensures
      var s := Pass(Begin(a, i, b, j));
      && Wired(s) && s.i == i && s.j == j && s.a.conns[i].out == []
      && s.b.conns[j].out == [N.Welcome(b.id, N.HOPS_BASE + 1, b.clusterId, b.clusterSize)]
      && s.a == N.Pop(N.OnConnected(a, i), i) && s.b.conns[j] == N.InitConn(b.conns[j]).(isConnected := true, out := s.b.conns[j].out)
      && s.b.id == b.id && s.b.clusterSize == b.clusterSize && s.b.clusterId == b.clusterId && Keeps(b, j, s.b)
      && s.trace == [N.Welcome(a.id, N.HOPS_BASE + 1, a.clusterId, a.clusterSize),
                     N.Welcome(b.id, N.HOPS_BASE + 1, b.clusterId, b.clusterSize)]
  {
  }

  /** Then it is the central that joins. */
  lemma CentralJoins(a: N.Node, i: nat, b: N.Node, j: nat)
    requires Fresh(a, i, b, j) && a.clusterId != b.clusterId && Hosts(b, a)
    ensures
      var s := Swap(Pass(Swap(Pass(Begin(a, i, b, j)))));
      && Joining(s) && s.i == i && s.j == j
      && s.a.clusterSize == a.clusterSize && s.b.clusterSize == b.clusterSize && s.b.clusterId == b.clusterId
      && s.a.id == a.id && s.b.id == b.id && Sheds(a, i, s.a) && Keeps(b, j, s.b)
      && s.trace == [N.Welcome(a.id, N.HOPS_BASE + 1, a.clusterId, a.clusterSize),
                     N.Welcome(b.id, N.HOPS_BASE + 1, b.clusterId, b.clusterSize), N.Ack1(a.id, b.id)]
  {
    PeripheralGreets(a, i, b, j);
    var s := Pass(Begin(a, i, b, j));
    GreetedSheds(s.a, i, s.b.conns[j].out[0]);
    assert Pass(Swap(s)).b.conns[i].out == [N.Ack1(a.id, b.id)];
  }

  lemma PeripheralHosts(a: N.Node, i: nat, b: N.Node, j: nat)
    requires Fresh(a, i, b, j) && a.clusterId != b.clusterId && Hosts(b, a)
    ensures
      var s := Settle(Begin(a, i, b, j), 4);
      && Wired(s) && Finished(s)
      && s.b.clusterSize == b.clusterSize + 1 && s.a.clusterSize == a.clusterSize + b.clusterSize
      && s.a.clusterId == b.clusterId
      && s.trace == [N.Welcome(a.id, N.HOPS_BASE + 1, a.clusterId, a.clusterSize),
                     N.Welcome(b.id, N.HOPS_BASE + 1, b.clusterId, b.clusterSize),
                     N.Ack1(a.id, b.id), N.Ack2(b.id, a.id, b.clusterId, b.clusterSize + 1)]
      && Sheds(a, i, s.a) && Keeps(b, j, s.b)
  {
    PeripheralGreets(a, i, b, j);
    CentralJoins(a, i, b, j);
    var s := Pass(Begin(a, i, b, j));
    JoinerEnters(Swap(Pass(Swap(s))));
    assert Settle(s, 3) == Swap(Settle(Pass(Swap(s)), 2));
  }

  /** Two nodes end up linked exactly when they met in different clusters; a meeting within one
      cluster is broken off after the first packet. */
  lemma HandshakeFinishes(a: N.Node, i: nat, b: N.Node, j: nat)
    requires Fresh(a, i, b, j)
    ensures Wired(Settle(Begin(a, i, b, j), 4))
    ensures Finished(Settle(Begin(a, i, b, j), 4)) <==> a.clusterId != b.clusterId
    ensures a.clusterId == b.clusterId ==> Settle(Begin(a, i, b, j), 4).b.conns[j].closing
  {
    if a.clusterId == b.clusterId {
      var s1 := Pass(Begin(a, i, b, j));
      assert s1.a.conns[i].out == [] && s1.b.conns[j].out == [];
      assert Settle(s1, 3) == s1;
    } else if Hosts(a, b) {
      CentralHosts(a, i, b, j);
    } else {
      PeripheralHosts(a, i, b, j);
    }
  }

  ghost predicate SameOutcome(s: Pair, t: Pair, id: int) {
    && Wired(s) && Wired(t)
    && s.a.clusterId == t.b.clusterId == id
    && s.a.clusterSize == t.b.clusterSize && s.b.clusterSize == t.a.clusterSize
  }

  lemma HostWinsInBothRoles(a: N.Node, i: nat, b: N.Node, j: nat, i': nat, j': nat)
    requires Fresh(a, i, b, j) && Fresh(b, j', a, i') && a.clusterId != b.clusterId && Hosts(a, b)
    ensures SameOutcome(Settle(Begin(a, i, b, j), 4), Settle(Begin(b, j', a, i'), 4), a.clusterId)
    ensures SameOutcome(Settle(Begin(b, j', a, i'), 4), Settle(Begin(a, i, b, j), 4), a.clusterId)
  {
    CentralHosts(a, i, b, j);
    PeripheralHosts(b, j', a, i');
  }

  /** Who joins whom does not depend on which of the two is the central. */
  lemma RolesDoNotDecide(a: N.Node, i: nat, b: N.Node, j: nat, i': nat, j': nat)
    requires Fresh(a, i, b, j) && Fresh(b, j', a, i') && a.clusterId != b.clusterId
    ensures SameOutcome(Settle(Begin(a, i, b, j), 4), Settle(Begin(b, j', a, i'), 4),
                        if Hosts(a, b) then a.clusterId else b.clusterId)
  {
    if Hosts(a, b) {
      HostWinsInBothRoles(a, i, b, j, i', j');
    } else {
      HostWinsInBothRoles(b, j', a, i', j, i);
    }
  }

  /** What the central may turn into while its first packet is on its way: events on its other links
      change its cluster, but not the new link. */
  ghost predicate Meanwhile(a: N.Node, i: nat, a': N.Node) {
    i < |a.conns| == |a'.conns| && a'.id == a.id && a'.conns[i] == a.conns[i]
  }

  /** Such events are a size change that arrives on another finished link, and the loss of one. */
  lemma OtherLinksAct(a: N.Node, i: nat, l: nat, m: N.Message)
    requires i < |a.conns| && l < |a.conns| && l != i && !a.conns[i].handshakeDone && N.IsUpdate(m)
    ensures Meanwhile(a, i, N.OnReceive(a, l, m)) && N.OnReceive(a, l, m).clusterSize == a.clusterSize + m.sizeChange
    ensures Meanwhile(a, i, N.OnLoss(a, l))
  {
  }

  /** If the central has become `a'` when its first packet arrives, the handshake stalls, with no
      packet left and no end done, exactly when the peripheral takes itself for bigger than the stale
      data say, and the central finds itself bigger than the answer says or, by then, in the same
      cluster. */
  lemma StaleWelcomeStalls(a: N.Node, i: nat, b: N.Node, j: nat, a': N.Node)
    requires Fresh(a, i, b, j) && a.clusterId != b.clusterId && Meanwhile(Pass(Begin(a, i, b, j)).a, i, a')
    ensures
      var t := Settle(Pass(Begin(a, i, b, j)).(a := a'), 3);
      && Wired(t)
      && (Finished(t) || (!t.a.conns[i].handshakeDone && !t.b.conns[j].handshakeDone))
      && (!Finished(t) <==>
            Hosts(b, a) && (a'.clusterId == b.clusterId || Hosts(a', b)))
  {
    var s := Pass(Begin(a, i, b, j)).(a := a');
    if Hosts(b, a) {
      StaleAnswer(a, i, b, j, a');
    } else {
      CentralGreets(a, i, b, j);
      JoinerEnters(Swap(s));
      assert Settle(s, 3) == Swap(Settle(Pass(Swap(s)), 2));
    }
  }

  /** The peripheral answered with its own greeting. */
  lemma StaleAnswer(a: N.Node, i: nat, b: N.Node, j: nat, a': N.Node)
    requires Fresh(a, i, b, j) && a.clusterId != b.clusterId && Hosts(b, a) && Meanwhile(Pass(Begin(a, i, b, j)).a, i, a')
    ensures
      var t := Settle(Pass(Begin(a, i, b, j)).(a := a'), 3);
      && Wired(t)
      && (Finished(t) || (!t.a.conns[i].handshakeDone && !t.b.conns[j].handshakeDone))
      && (!Finished(t) <==>
            a'.clusterId == b.clusterId || Hosts(a', b))
  {
    PeripheralGreets(a, i, b, j);
    var s := Pass(Begin(a, i, b, j)).(a := a');
    var t := Pass(Swap(s));
    assert Settle(s, 3) == Swap(Settle(t, 2));
    if a'.clusterId == b.clusterId || Hosts(a', b) {
      assert t.a.conns[j].out == [] && t.b.conns[i].out == [];
      assert Settle(t, 2) == t;
    } else {
      assert t.b.conns[i].out == [N.Ack1(a.id, b.id)];
      JoinerEnters(Swap(t));
      assert Settle(t, 2) == Swap(Settle(Pass(Swap(t)), 1));
    }
  }

  lemma TwoSlots(n: N.Node)
    requires |n.conns| == 2 && N.SlotOk(n.conns[0]) && N.SlotOk(n.conns[1]) && n.id != N.BROADCAST
    requires n.clusterSize == 1 + n.conns[0].connectedClusterSize + n.conns[1].connectedClusterSize
    ensures N.NodeOk(n)
  {
    assert N.Ledger(n) == [n.conns[0].connectedClusterSize] + [n.conns[1].connectedClusterSize];
    SumAppend([n.conns[0].connectedClusterSize], [n.conns[1].connectedClusterSize]);
    forall j | 0 <= j < 2 ensures N.SlotOk(n.conns[j]) {
      assert j == 0 || j == 1;
    }
  }

  /** It happens: a central of size 2 meets a peripheral of size 3, and before the answer arrives two
      more nodes have joined on the central's other link. */
  lemma HandshakesDoStall()
    ensures exists a, i, b, j, l, m :: Fresh(a, i, b, j) && N.NodeOk(a) && N.NodeOk(b) && StalledBy(a, i, b, j, l, m)
  {
    var idle := N.Conn(N.Out, false, false, 0, 0, 0, false, []);
    var a := N.Node(1, 9, 2, 0, [N.Conn(N.In, true, true, 4, 9, 1, false, []), idle]);
    var b := N.Node(2, 5, 3, 0, [idle.(direction := N.In), N.Conn(N.Out, true, true, 7, 5, 2, false, [])]);
    var m := N.InfoUpdate(4, N.BROADCAST, 9, 0, 2);
    TwoSlots(a);
    TwoSlots(b);
    OtherLinksAct(Pass(Begin(a, 1, b, 0)).a, 1, 0, m);
    StaleWelcomeStalls(a, 1, b, 0, N.OnReceive(Pass(Begin(a, 1, b, 0)).a, 0, m));
    assert StalledBy(a, 1, b, 0, 0, m);
  }

  /** An update arriving on the finished link `l` of the central leaves the handshake unfinished. */
  ghost predicate StalledBy(a: N.Node, i: nat, b: N.Node, j: nat, l: nat, m: N.Message)
    requires Fresh(a, i, b, j)
  {
    var s := Pass(Begin(a, i, b, j));
    && a.clusterId != b.clusterId && l < |s.a.conns| && l != i && s.a.conns[l].handshakeDone && N.IsUpdate(m)
    && Wired(s.(a := N.OnReceive(s.a, l, m)))
    && Wired(Settle(s.(a := N.OnReceive(s.a, l, m)), 3)) && !Finished(Settle(s.(a := N.OnReceive(s.a, l, m)), 3))
  }
}

/** The node object of the firmware: handlers that update the connection slots in place, proved
    against the functions of `ClusterNode`. */
module MeshNode {
  import N = ClusterNode

  class Connection {
    const direction: N.Direction
    var isConnected: bool
    var handshakeDone: bool
    var partnerId: nat
    var connectedClusterId: int
    var connectedClusterSize: int
    var closing: bool
    var out: seq<N.Message>

    constructor (direction: N.Direction)
      ensures this.direction == direction && Value() == N.InitConn(Value())
    {
      this.direction := direction;
      isConnected, handshakeDone, closing := false, false, false;
      partnerId, connectedClusterId, connectedClusterSize, out := 0, 0, 0, [];
    }

    function Value(): N.Conn
      reads this
    {
      N.Conn(direction, isConnected, handshakeDone, partnerId, connectedClusterId, connectedClusterSize, closing, out)
    }

    method Init()
      modifies this
      ensures Value() == N.InitConn(old(Value()))
    {
      isConnected, handshakeDone, closing := false, false, false;
      partnerId, connectedClusterId, connectedClusterSize, out := 0, 0, 0, [];
    }

    method QueuePacket(m: N.Message)
      modifies this
      ensures Value() == N.Send(old(Value()), m)
    {
      out := out + [m];
    }
  }

  class Node {
    const id: nat
    const connections: seq<Connection>
    var clusterId: int
    var clusterSize: int
    var lossCounter: nat

    ghost predicate Valid() {
      forall i, j :: 0 <= i < j < |connections| ==> connections[i] != connections[j]
    }

    ghost function Slots(): (s: seq<N.Conn>)
      reads connections
      ensures |s| == |connections|
    {
      seq(|connections|, j requires 0 <= j < |connections| reads connections => connections[j].Value())
    }

    ghost function State(): N.Node
      reads this, connections
    {
      N.Node(id, clusterId, clusterSize, lossCounter, Slots())
    }

    constructor (id: nat, clusterId: int, connections: seq<Connection>)
      requires forall i, j :: 0 <= i < j < |connections| ==> connections[i] != connections[j]
      ensures Valid() && this.connections == connections
      ensures State() == N.Node(id, clusterId, 1, 0, Slots())
    {
      this.id, this.clusterId, this.connections := id, clusterId, connections;
      clusterSize, lossCounter := 1, 0;
    }

    method SendMessageOverConnections(i: nat, m: N.Message)
      requires Valid()
      modifies connections
      ensures Slots() == N.SendOthers(old(Slots()), i, m)
    {
      for j := 0 to |connections|
        invariant forall l :: 0 <= l < j ==> Slots()[l] == N.SendOthers(old(Slots()), i, m)[l]
        invariant forall l :: j <= l < |connections| ==> Slots()[l] == old(Slots())[l]
      {
        if j != i && connections[j].handshakeDone {
          connections[j].QueuePacket(m);
        }
      }
    }

    method DisconnectOtherConnections(i: nat)
      requires Valid()
      modifies connections
      ensures Slots() == N.CloseOthers(old(Slots()), i)
    {
      for j := 0 to |connections|
        invariant forall l :: 0 <= l < j ==> Slots()[l] == N.CloseOthers(old(Slots()), i)[l]
        invariant forall l :: j <= l < |connections| ==> Slots()[l] == old(Slots())[l]
      {
        if j != i && connections[j].isConnected {
          connections[j].closing := true;
        }
      }
    }

    method StartHandshake(i: nat)
      requires Valid() && i < |connections|
      modifies connections
      ensures State() == N.StartHandshake(old(State()), i)
    {
      if connections[i].handshakeDone {
        return;
      }
      connections[i].QueuePacket(N.Welcome(id, N.HOPS_BASE + 1, clusterId, clusterSize));
      assert Slots() == N.StartHandshake(old(State()), i).conns;
    }

    method ReceiveWelcome(i: nat, m: N.Message)
      requires Valid() && i < |connections| && m.Welcome?
      modifies connections
      ensures State() == N.OnWelcome(old(State()), i, m)
    {
      if m.clusterId == clusterId {
        connections[i].closing := true;
        assert Slots() == N.OnWelcome(old(State()), i, m).conns;
      } else if m.clusterSize < clusterSize || (m.clusterSize == clusterSize && m.clusterId < clusterId) {
        if connections[i].direction == N.In {
          StartHandshake(i);
        }
      } else {
        DisconnectOtherConnections(i);
        connections[i].partnerId := m.sender;
        connections[i].QueuePacket(N.Ack1(id, m.sender));
        assert Slots() == N.OnWelcome(old(State()), i, m).conns;
      }
    }

    method ReceiveAck1(i: nat, m: N.Message)
      requires Valid() && i < |connections| && m.Ack1?
      modifies this, connections
      ensures State() == N.OnAck1(old(State()), i, m)
    {
      var c := connections[i];
      clusterSize := clusterSize + 1;
      c.connectedClusterId := clusterId;
      c.partnerId := m.sender;
      c.connectedClusterSize := c.connectedClusterSize + 1;
      c.handshakeDone := true;
      label updated:
      SendMessageOverConnections(i, N.InfoUpdate(id, N.BROADCAST, clusterId, 0, 1));
      assert old@updated(Slots()) == old(Slots())[i := old@updated(Slots())[i]];
      label told:
      c.QueuePacket(N.Ack2(id, m.sender, clusterId, clusterSize));
      assert old@told(Slots())[i] == old@updated(Slots())[i];
      assert forall l :: 0 <= l < |connections| && l != i ==> Slots()[l] == old@told(Slots())[l];
      assert Slots() == N.OnAck1(old(State()), i, m).conns;
    }

    method ReceiveAck2(i: nat, m: N.Message)
      requires Valid() && i < |connections| && m.Ack2?
      modifies this, connections
      ensures State() == N.OnAck2(old(State()), i, m)
    {
      var c := connections[i];
      c.connectedClusterId := m.clusterId;
      c.connectedClusterSize := c.connectedClusterSize + m.clusterSize - 1;
      clusterId := m.clusterId;
      clusterSize := clusterSize + m.clusterSize - 1;
      c.handshakeDone := true;
      assert Slots() == N.OnAck2(old(State()), i, m).conns;
    }

    method UpdateClusterInfo(i: nat, m: N.Message)
      requires Valid() && i < |connections| && m.InfoUpdate?
      modifies this, connections
      ensures State() == N.OnInfoUpdate(old(State()), i, m)
      ensures clusterSize == old(clusterSize) + m.sizeChange
      ensures clusterId ==
        if m.currentClusterId == old(clusterId) && m.newClusterId != 0 then m.newClusterId else old(clusterId)
    {
      var c := connections[i];
      if m.sizeChange != 0 {
        clusterSize := clusterSize + m.sizeChange;
        c.connectedClusterSize := c.connectedClusterSize + m.sizeChange;
      }
      if m.currentClusterId == clusterId {
        if m.newClusterId != 0 {
          clusterId := m.newClusterId;
          c.connectedClusterId := m.newClusterId;
        }
      }
      assert Slots() == N.OnInfoUpdate(old(State()), i, m).conns;
    }

    method ReceivePacket(i: nat, m: N.Message)
      requires Valid() && i < |connections|
      modifies this, connections
      ensures State() == N.OnReceive(old(State()), i, m)
    {
      if !(m.receiver == id || m.receiver == N.HOPS_BASE + 1) {
        SendMessageOverConnections(i, m);
      }
      match m
      case Welcome(_, _, _, _) => ReceiveWelcome(i, m);
      case Ack1(_, _) => ReceiveAck1(i, m);
      case Ack2(_, _, _, _) => ReceiveAck2(i, m);
      case InfoUpdate(_, _, _, _, _) =>
        if m.receiver == id || m.receiver == N.BROADCAST || N.HOPS_BASE <= m.receiver < N.HOPS_BASE + 1000 {
          UpdateClusterInfo(i, m);
        }
    }

    method ConnectionSuccessful(i: nat)
      requires Valid() && i < |connections|
      modifies connections
      ensures State() == N.OnConnected(old(State()), i)
    {
      var c := connections[i];
      if c.direction == N.Out {
        c.Init();
        c.isConnected := true;
        assert Slots() == old(Slots())[i := N.InitConn(old(Slots())[i]).(isConnected := true)];
        StartHandshake(i);
      } else {
        c.isConnected := true;
        assert Slots() == N.OnConnected(old(State()), i).conns;
      }
    }

    method DisconnectionHandler(i: nat)
      requires Valid() && i < |connections|
      modifies this, connections
      ensures State() == N.OnLoss(old(State()), i)
      ensures
        var far := old(connections[i].connectedClusterSize);
        clusterId ==
          if old(connections[i].handshakeDone)
             && (old(clusterSize) - far < far || (old(clusterSize) - far == far && id < old(connections[i].partnerId)))
          then (id + (old(lossCounter) + 1) % 0x1_0000) * 0x1_0000 % 0x1_0000_0000
          else old(clusterId)
    {
      var c := connections[i];
      lossCounter := (lossCounter + 1) % 0x1_0000;
      if c.handshakeDone {
        var far := c.connectedClusterSize;
        if clusterSize - far < far || (clusterSize - far == far && id < c.partnerId) {
          clusterId := N.NewClusterId(id, lossCounter);
          clusterSize := clusterSize - far;
          SendMessageOverConnections(i, N.InfoUpdate(id, N.BROADCAST, c.connectedClusterId, clusterId, -far));
        } else {
          clusterSize := clusterSize - far;
          SendMessageOverConnections(i, N.InfoUpdate(id, N.BROADCAST, c.connectedClusterId, 0, -far));
        }
      }
      c.Init();
      assert Slots() == N.OnLoss(old(State()), i).conns;
    }
  }
}

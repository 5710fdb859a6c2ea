/** The mesh handlers of one node, as functions on its state: the handshake, the flooding of
    size changes and the reaction to a lost link. `MeshNode` runs them on mutable objects. */
module ClusterNode {
  import opened Sums

  const BROADCAST: nat := 0
  const HOPS_BASE: nat := 30000
  // Packets for the nearest sink take a path of their own, which is not modelled.
  const SHORTEST_SINK: nat := 31001

  datatype Message =
    | Welcome(sender: nat, receiver: nat, clusterId: int, clusterSize: int)
    | Ack1(sender: nat, receiver: nat)
    | Ack2(sender: nat, receiver: nat, clusterId: int, clusterSize: int)
    | InfoUpdate(sender: nat, receiver: nat, currentClusterId: int, newClusterId: int, sizeChange: int)

  datatype Direction = In | Out

  /** One connection slot. `out` holds the packets accepted for the link and not yet handled by
      the partner; `closing` says that a disconnect was requested. */
  datatype Conn = Conn(
    direction: Direction, isConnected: bool, handshakeDone: bool, partnerId: nat,
    connectedClusterId: int, connectedClusterSize: int, closing: bool, out: seq<Message>)

  datatype Node = Node(id: nat, clusterId: int, clusterSize: int, lossCounter: nat, conns: seq<Conn>)

  function InitConn(c: Conn): Conn {
    Conn(c.direction, false, false, 0, 0, 0, false, [])
  }

  function Send(c: Conn, m: Message): Conn {
    c.(out := c.out + [m])
  }

  /** Queues a packet on every handshaken connection but slot `i`. */
  function SendOthers(conns: seq<Conn>, i: nat, m: Message): seq<Conn> {
    seq(|conns|, j requires 0 <= j < |conns| =>
      if j != i && conns[j].handshakeDone then Send(conns[j], m) else conns[j])
  }

  function CloseOthers(conns: seq<Conn>, i: nat): seq<Conn> {
    seq(|conns|, j requires 0 <= j < |conns| =>
      if j != i && conns[j].isConnected then conns[j].(closing := true) else conns[j])
  }

  function NewClusterId(id: nat, lossCounter: nat): int {
    (id + lossCounter) * 0x1_0000 % 0x1_0000_0000
  }

  function StartHandshake(n: Node, i: nat): Node
    requires i < |n.conns|
  {
    if n.conns[i].handshakeDone then n
    else n.(conns := n.conns[i := Send(n.conns[i], Welcome(n.id, HOPS_BASE + 1, n.clusterId, n.clusterSize))])
  }

  /** Does a node with this cluster keep its place when it meets the other cluster? */
  predicate IsBigger(size: int, id: int, otherSize: int, otherId: int) {
    otherSize < size || (otherSize == size && otherId < id)
  }

  function OnWelcome(n: Node, i: nat, m: Message): Node
    requires i < |n.conns| && m.Welcome?
  {
    if m.clusterId == n.clusterId then
      n.(conns := n.conns[i := n.conns[i].(closing := true)])
    else if IsBigger(n.clusterSize, n.clusterId, m.clusterSize, m.clusterId) then
      if n.conns[i].direction == In then StartHandshake(n, i) else n
    else
      var conns := CloseOthers(n.conns, i);
      n.(conns := conns[i := Send(conns[i].(partnerId := m.sender), Ack1(n.id, m.sender))])
  }

  function OnAck1(n: Node, i: nat, m: Message): Node
    requires i < |n.conns| && m.Ack1?
  {
    var size := n.clusterSize + 1;
    var c := n.conns[i].(connectedClusterId := n.clusterId, partnerId := m.sender, handshakeDone := true,
                         connectedClusterSize := n.conns[i].connectedClusterSize + 1);
    var conns := SendOthers(n.conns, i, InfoUpdate(n.id, BROADCAST, n.clusterId, 0, 1));
    n.(clusterSize := size, conns := conns[i := Send(c, Ack2(n.id, m.sender, n.clusterId, size))])
  }

  function OnAck2(n: Node, i: nat, m: Message): Node
    requires i < |n.conns| && m.Ack2?
  {
    var c := n.conns[i].(connectedClusterId := m.clusterId, handshakeDone := true,
                         connectedClusterSize := n.conns[i].connectedClusterSize + m.clusterSize - 1);
    n.(clusterId := m.clusterId, clusterSize := n.clusterSize + m.clusterSize - 1, conns := n.conns[i := c])
  }

  function OnInfoUpdate(n: Node, i: nat, m: Message): Node
    requires i < |n.conns| && m.InfoUpdate?
  {
    var c := n.conns[i].(connectedClusterSize := n.conns[i].connectedClusterSize + m.sizeChange);
    var renamed := m.currentClusterId == n.clusterId && m.newClusterId != 0;
    n.(clusterSize := n.clusterSize + m.sizeChange,
       clusterId := if renamed then m.newClusterId else n.clusterId,
       conns := n.conns[i := if renamed then c.(connectedClusterId := m.newClusterId) else c])
  }

  /** Does node `id` relay a packet for `receiver`? */
  predicate PassesOn(id: nat, receiver: nat) {
    receiver != id && receiver != HOPS_BASE + 1
  }

  /** Does it process one? */
  predicate CaresFor(id: nat, receiver: nat) {
    receiver == id || receiver == BROADCAST || HOPS_BASE <= receiver < HOPS_BASE + 1000
  }

  /** Routing: a packet that is not only for us is passed on unchanged to the other connections. */
  function Routed(n: Node, i: nat, m: Message): (r: Node)
    ensures |r.conns| == |n.conns|
  {
    if PassesOn(n.id, m.receiver) then n.(conns := SendOthers(n.conns, i, m)) else n
  }

  function OnReceive(n: Node, i: nat, m: Message): Node
    requires i < |n.conns|
  {
    var r := Routed(n, i, m);
    match m
    case Welcome(_, _, _, _) => OnWelcome(r, i, m)
    case Ack1(_, _) => OnAck1(r, i, m)
    case Ack2(_, _, _, _) => OnAck2(r, i, m)
    case InfoUpdate(_, _, _, _, _) => if CaresFor(n.id, m.receiver) then OnInfoUpdate(r, i, m) else r
  }

  /** The test by which an end of a lost link takes itself for the smaller half. */
  predicate InSmallerHalf(n: Node, i: nat)
    requires i < |n.conns|
  {
    var far := n.conns[i].connectedClusterSize;
    n.clusterSize - far < far || (n.clusterSize - far == far && n.id < n.conns[i].partnerId)
  }

  function OnLoss(n: Node, i: nat): Node
    requires i < |n.conns|
  {
    var c := n.conns[i];
    var loss := (n.lossCounter + 1) % 0x1_0000;
    if c.handshakeDone then
      var newId := if InSmallerHalf(n, i) then NewClusterId(n.id, loss) else n.clusterId;
      var m := InfoUpdate(n.id, BROADCAST, c.connectedClusterId,
                          if InSmallerHalf(n, i) then newId else 0, -c.connectedClusterSize);
      n.(lossCounter := loss, clusterId := newId, clusterSize := n.clusterSize - c.connectedClusterSize,
         conns := SendOthers(n.conns, i, m)[i := InitConn(c)])
    else
      n.(lossCounter := loss, conns := n.conns[i := InitConn(c)])
  }

  function OnConnected(n: Node, i: nat): Node
    requires i < |n.conns|
  {
    if n.conns[i].direction == Out then
      StartHandshake(n.(conns := n.conns[i := InitConn(n.conns[i]).(isConnected := true)]), i)
    else
      n.(conns := n.conns[i := n.conns[i].(isConnected := true)])
  }

  /** The packet at the head of slot `i` has been handled by the partner. */
  function Pop(n: Node, i: nat): Node
    requires i < |n.conns| && n.conns[i].out != []
  {
    n.(conns := n.conns[i := n.conns[i].(out := n.conns[i].out[1..])])
  }

  // ---- what one node always keeps ----------------------------------------------------------

  function Ledger(n: Node): seq<int> {
    seq(|n.conns|, j requires 0 <= j < |n.conns| => n.conns[j].connectedClusterSize)
  }

  /** A node's size is itself plus what it credits to its links; unused slots credit nothing. */
  ghost predicate NodeOk(n: Node) {
    && n.id != BROADCAST
    && n.clusterSize == 1 + Sum(Ledger(n))
    && forall j :: 0 <= j < |n.conns| ==> SlotOk(n.conns[j])
  }

  ghost predicate SlotOk(c: Conn) {
    && (!c.handshakeDone ==> c.connectedClusterSize == 0)
    && (!c.isConnected ==> !c.handshakeDone && c.out == [])
  }

  /** No slot other than `i` has finished its handshake. */
  ghost predicate Alone(n: Node, i: nat) {
    forall j :: 0 <= j < |n.conns| && j != i ==> !n.conns[j].handshakeDone
  }

  lemma LedgerUpdate(n: Node, i: nat, r: Node)
    requires i < |n.conns| && |r.conns| == |n.conns|
    requires forall j :: 0 <= j < |n.conns| && j != i ==>
      r.conns[j].connectedClusterSize == n.conns[j].connectedClusterSize
    ensures Sum(Ledger(r)) == Sum(Ledger(n)) - n.conns[i].connectedClusterSize + r.conns[i].connectedClusterSize
  {
    assert Ledger(r) == Ledger(n)[i := r.conns[i].connectedClusterSize];
    SumUpdate(Ledger(n), i, r.conns[i].connectedClusterSize);
  }

  lemma AloneSize(n: Node, i: nat)
    requires NodeOk(n) && i < |n.conns| && Alone(n, i) && !n.conns[i].handshakeDone
    ensures n.clusterSize == 1
  {
    forall j | 0 <= j < |n.conns| ensures Ledger(n)[j] == 0 {
      assert SlotOk(n.conns[j]);
    }
    Zeros(Ledger(n));
  }

  lemma {:induction false} Zeros(s: seq<int>)
    requires forall j :: 0 <= j < |s| ==> s[j] == 0
    ensures Sum(s) == 0
  {
    if s == [] {
    } else {
      Zeros(s[1..]);
    }
  }

  /** Slot `j` stays well formed, and only slot `i` may change its size: by the node's change. */
  ghost predicate KeepsSlot(n: Node, r: Node, i: nat, j: nat)
    requires j < |n.conns|
  {
    && |r.conns| == |n.conns|
    && (SlotOk(n.conns[j]) ==> SlotOk(r.conns[j]))
    && r.conns[j].connectedClusterSize - n.conns[j].connectedClusterSize
         == (if j == i then r.clusterSize - n.clusterSize else 0)
  }

  lemma RoutedKeepsSlot(n: Node, i: nat, m: Message, j: nat)
    requires i < |n.conns| && j < |n.conns|
    ensures KeepsSlot(n, Routed(n, i, m), i, j) && Routed(n, i, m).conns[i] == n.conns[i]
  {
  }

  lemma WelcomeKeepsSlot(n: Node, i: nat, m: Message, j: nat)
    requires i < |n.conns| && j < |n.conns| && n.conns[i].isConnected && m.Welcome?
    ensures KeepsSlot(n, OnWelcome(n, i, m), i, j)
  {
  }

  lemma Ack1KeepsSlot(n: Node, i: nat, m: Message, j: nat)
    requires i < |n.conns| && j < |n.conns| && n.conns[i].isConnected && m.Ack1?
    ensures KeepsSlot(n, OnAck1(n, i, m), i, j)
  {
  }

  lemma InfoUpdateKeepsSlot(n: Node, i: nat, m: Message, j: nat)
    requires i < |n.conns| && j < |n.conns| && n.conns[i].handshakeDone && m.InfoUpdate?
    ensures KeepsSlot(n, OnInfoUpdate(n, i, m), i, j)
  {
  }

  lemma ReceiveKeepsSlot(n: Node, i: nat, m: Message, j: nat)
    requires i < |n.conns| && j < |n.conns|
    requires n.conns[i].isConnected && (m.InfoUpdate? ==> n.conns[i].handshakeDone)
    ensures KeepsSlot(n, OnReceive(n, i, m), i, j)
  {
    var r := Routed(n, i, m);
    RoutedKeepsSlot(n, i, m, j);
    if m.Welcome? {
      WelcomeKeepsSlot(r, i, m, j);
    } else if m.Ack1? {
      Ack1KeepsSlot(r, i, m, j);
    } else if m.InfoUpdate? {
      InfoUpdateKeepsSlot(r, i, m, j);
    }
  }

  lemma ReceiveKeepsNode(n: Node, i: nat, m: Message)
    requires NodeOk(n) && i < |n.conns| && n.conns[i].isConnected
    requires m.InfoUpdate? ==> n.conns[i].handshakeDone
    ensures NodeOk(OnReceive(n, i, m))
  {
    forall j | 0 <= j < |n.conns| ensures KeepsSlot(n, OnReceive(n, i, m), i, j) {
      ReceiveKeepsSlot(n, i, m, j);
    }
    assert OnReceive(n, i, m).id == n.id;
    KeepingSlotsKeepsNode(n, i, OnReceive(n, i, m));
  }

  lemma KeepingSlotsKeepsNode(n: Node, i: nat, r: Node)
    requires NodeOk(n) && i < |n.conns| && r.id == n.id
    requires forall j :: 0 <= j < |n.conns| ==> KeepsSlot(n, r, i, j)
    ensures NodeOk(r)
  {
    assert KeepsSlot(n, r, i, i);
    forall j | 0 <= j < |n.conns|
      ensures SlotOk(r.conns[j]) && (j != i ==> r.conns[j].connectedClusterSize == n.conns[j].connectedClusterSize) {
      assert KeepsSlot(n, r, i, j) && SlotOk(n.conns[j]);
    }
    LedgerUpdate(n, i, r);
  }

  lemma LossKeepsNode(n: Node, i: nat)
    requires NodeOk(n) && i < |n.conns|
    ensures NodeOk(OnLoss(n, i))
  {
    var r := OnLoss(n, i);
    assert SlotOk(n.conns[i]);
    LedgerUpdate(n, i, r);
    forall j | 0 <= j < |r.conns| ensures SlotOk(r.conns[j]) {
      assert SlotOk(n.conns[j]);
    }
  }

  /** A node sheds its other links exactly when it meets a different cluster that is bigger. */
  lemma JoinerShedsOthers(n: Node, i: nat, m: Message, j: nat)
    requires i < |n.conns| && j < |n.conns| && j != i && m.Welcome? && m.receiver == HOPS_BASE + 1
    ensures OnReceive(n, i, m).conns[j].closing <==>
      n.conns[j].closing
      || (n.conns[j].isConnected && m.clusterId != n.clusterId
          && (m.clusterSize > n.clusterSize || (m.clusterSize == n.clusterSize && m.clusterId > n.clusterId)))
  {
    var r := OnReceive(n, i, m);
    if m.clusterId == n.clusterId || IsBigger(n.clusterSize, n.clusterId, m.clusterSize, m.clusterId) {
      assert r.conns[j] == n.conns[j];
    } else {
      assert r.conns[j] == CloseOthers(n.conns, i)[j];
    }
  }

  // ---- what a handler on slot `i` does to the other slots --------------------------------------

  function CreditOf(m: Message): int {
    match m
    case Ack2(_, _, _, size) => size - 1
    case InfoUpdate(_, _, _, _, change) => change
    case _ => 0
  }

  function Credit(ms: seq<Message>): int {
    if ms == [] then 0 else CreditOf(ms[0]) + Credit(ms[1..])
  }

  lemma {:induction false} CreditAppend(ms: seq<Message>, m: Message)
    ensures Credit(ms + [m]) == Credit(ms) + CreditOf(m)
  {
    if ms == [] {
      assert [m][1..] == [];
    } else {
      assert (ms + [m])[1..] == ms[1..] + [m];
      CreditAppend(ms[1..], m);
    }
  }

  ghost predicate IsUpdate(m: Message) {
    m.InfoUpdate? && m.receiver == BROADCAST
  }

  /** The handshaken slots other than `i` were told exactly by how much the node's size changed;
      nothing else changed there. */
  ghost predicate Told(n: Node, r: Node, i: nat, j: nat)
    requires j < |n.conns| == |r.conns|
  {
    var c, d := n.conns[j], r.conns[j];
    && d == c.(closing := d.closing, out := d.out)
    && (d.out == c.out || (c.handshakeDone && |d.out| == |c.out| + 1 && d.out[..|c.out|] == c.out && IsUpdate(d.out[|c.out|])))
    && (c.handshakeDone ==> Credit(d.out) - Credit(c.out) == r.clusterSize - n.clusterSize)
  }

  ghost predicate TellsOthers(n: Node, r: Node, i: nat) {
    && r.id == n.id
    && |r.conns| == |n.conns|
    && forall j :: 0 <= j < |n.conns| && j != i ==> Told(n, r, i, j)
  }

  lemma SendOthersTells(n: Node, i: nat, m: Message, r: Node)
    requires i < |n.conns| && IsUpdate(m)
    requires r.id == n.id && r.clusterSize == n.clusterSize + m.sizeChange
    requires |r.conns| == |n.conns|
    requires forall j :: 0 <= j < |n.conns| && j != i ==> r.conns[j] == SendOthers(n.conns, i, m)[j]
    ensures TellsOthers(n, r, i)
  {
    forall j | 0 <= j < |n.conns| && j != i ensures Told(n, r, i, j) {
      CreditAppend(n.conns[j].out, m);
    }
  }

  lemma ReceiveTells(n: Node, i: nat, m: Message)
    requires i < |n.conns| && n.id != BROADCAST
    requires m.Welcome? ==> m.receiver == HOPS_BASE + 1
    requires m.Ack1? || m.Ack2? ==> m.receiver == n.id
    requires m.Ack2? ==> Alone(n, i)
    requires m.InfoUpdate? ==> IsUpdate(m)
    ensures TellsOthers(n, OnReceive(n, i, m), i)
  {
    var r := OnReceive(n, i, m);
    match m
    case Welcome(_, _, _, _) =>
    case Ack1(_, _) => SendOthersTells(n, i, InfoUpdate(n.id, BROADCAST, n.clusterId, 0, 1), r);
    case Ack2(_, _, _, _) =>
    case InfoUpdate(_, _, _, _, _) => SendOthersTells(n, i, m, r);
  }

  lemma LossTells(n: Node, i: nat)
    requires i < |n.conns|
    ensures TellsOthers(n, OnLoss(n, i), i)
  {
    var c, r := n.conns[i], OnLoss(n, i);
    if c.handshakeDone {
      SendOthersTells(n, i, InfoUpdate(n.id, BROADCAST, c.connectedClusterId,
        if InSmallerHalf(n, i) then r.clusterId else 0, -c.connectedClusterSize), r);
    }
  }

  // ---- what a handler does, to the last field -----------------------------------------------------

  /** Slot `j` of `r` is that of `n`, with `ms` queued behind everything else if the slot is finished. */
  ghost predicate SentTo(n: Node, r: Node, j: nat, ms: seq<Message>)
    requires j < |n.conns| == |r.conns|
  {
    r.conns[j] == if n.conns[j].handshakeDone then n.conns[j].(out := n.conns[j].out + ms) else n.conns[j]
  }

  /** A packet for somebody else, or for all, is passed on as it came. */
  ghost function Relay(n: Node, m: Message): seq<Message> {
    if m.receiver == n.id || m.receiver == 30001 then [] else [m]
  }

  lemma RelaySends(n: Node, i: nat, m: Message, j: nat)
    requires i < |n.conns| && j < |n.conns|
    ensures
      var r := Routed(n, i, m);
      && |r.conns| == |n.conns| && r == n.(conns := r.conns) && r.conns[i] == n.conns[i]
      && (j != i ==> SentTo(n, r, j, Relay(n, m)))
  {
    assert n.conns[j].out + [] == n.conns[j].out;
  }

  /** The end of a lost link that is left with fewer nodes, or with as many and the smaller id, takes a
      new cluster id, made of its id and its loss counter, and tells it to its half as the successor of
      the lost link's cluster. The other end keeps its id and announces none. */
  lemma LossRenames(n: Node, i: nat)
    requires i < |n.conns|
    ensures
      var r, c := OnLoss(n, i), n.conns[i];
      var far, loss := c.connectedClusterSize, (n.lossCounter + 1) % 0x1_0000;
      var smaller := n.clusterSize - far < far || (n.clusterSize - far == far && n.id < c.partnerId);
      var newId := (n.id + loss) * 0x1_0000 % 0x1_0000_0000;
      && r.id == n.id && r.lossCounter == loss && |r.conns| == |n.conns|
      && r.conns[i] == Conn(c.direction, false, false, 0, 0, 0, false, [])
      && r.clusterSize == n.clusterSize - (if c.handshakeDone then far else 0)
      && r.clusterId == (if c.handshakeDone && smaller then newId else n.clusterId)
      && forall j :: 0 <= j < |n.conns| && j != i ==>
           if c.handshakeDone
           then SentTo(n, r, j, [InfoUpdate(n.id, 0, c.connectedClusterId, if smaller then newId else 0, -far)])
           else r.conns[j] == n.conns[j]
  {
    var r, c := OnLoss(n, i), n.conns[i];
    var loss := (n.lossCounter + 1) % 0x1_0000;
    assert r.lossCounter == loss && |r.conns| == |n.conns|;
    assert r.conns[i] == InitConn(c);
    if c.handshakeDone {
      var newId := if InSmallerHalf(n, i) then r.clusterId else 0;
      var m := InfoUpdate(n.id, 0, c.connectedClusterId, newId, -c.connectedClusterSize);
      forall j | 0 <= j < |n.conns| && j != i ensures SentTo(n, r, j, [m]) {
      }
    }
  }

  /** A size change is passed on as it came. At a node that cares for it it renames the node, and the link
      it came over, exactly if the node is in the cluster named and a successor is announced. */
  lemma UpdateRenames(n: Node, i: nat, m: Message)
    requires i < |n.conns| && m.InfoUpdate?
    ensures
      var r, c := OnReceive(n, i, m), n.conns[i];
      var cares := m.receiver == n.id || m.receiver == 0 || 30000 <= m.receiver < 31000;
      var renamed := cares && m.currentClusterId == n.clusterId && m.newClusterId != 0;
      var change := if cares then m.sizeChange else 0;
      && r.id == n.id && r.lossCounter == n.lossCounter && |r.conns| == |n.conns|
      && r.clusterSize == n.clusterSize + change
      && r.clusterId == (if renamed then m.newClusterId else n.clusterId)
      && r.conns[i] == c.(connectedClusterSize := c.connectedClusterSize + change,
                          connectedClusterId := if renamed then m.newClusterId else c.connectedClusterId)
      && forall j :: 0 <= j < |n.conns| && j != i ==> SentTo(n, r, j, Relay(n, m))
  {
    forall j | 0 <= j < |n.conns| ensures j != i ==> SentTo(n, Routed(n, i, m), j, Relay(n, m)) {
      RelaySends(n, i, m, j);
    }
  }

  /** A host keeps its cluster id, counts the joiner, and announces a growth by one without a rename. */
  lemma HostAnnounces(n: Node, i: nat, m: Message)
    requires i < |n.conns| && m.Ack1?
    ensures
      var r, c := OnReceive(n, i, m), n.conns[i];
      && r.id == n.id && r.lossCounter == n.lossCounter && |r.conns| == |n.conns|
      && r.clusterSize == n.clusterSize + 1 && r.clusterId == n.clusterId
      && r.conns[i] == c.(connectedClusterId := n.clusterId, partnerId := m.sender, handshakeDone := true,
                          connectedClusterSize := c.connectedClusterSize + 1,
                          out := c.out + [Ack2(n.id, m.sender, n.clusterId, n.clusterSize + 1)])
      && forall j :: 0 <= j < |n.conns| && j != i ==>
           SentTo(n, r, j, Relay(n, m) + [InfoUpdate(n.id, 0, n.clusterId, 0, 1)])
  {
    var r, news := OnReceive(n, i, m), InfoUpdate(n.id, 0, n.clusterId, 0, 1);
    forall j | 0 <= j < |n.conns| && j != i ensures SentTo(n, r, j, Relay(n, m) + [news]) {
      RelaySends(n, i, m, j);
      assert n.conns[j].out + Relay(n, m) + [news] == n.conns[j].out + (Relay(n, m) + [news]);
    }
  }

  /** A joiner takes over the host's cluster id and, with itself not counted twice, its size. */
  lemma JoinerFollows(n: Node, i: nat, m: Message)
    requires i < |n.conns| && m.Ack2?
    ensures
      var r, c := OnReceive(n, i, m), n.conns[i];
      && r.id == n.id && r.lossCounter == n.lossCounter && |r.conns| == |n.conns|
      && r.clusterSize == n.clusterSize + m.clusterSize - 1 && r.clusterId == m.clusterId
      && r.conns[i] == c.(connectedClusterId := m.clusterId, handshakeDone := true,
                          connectedClusterSize := c.connectedClusterSize + m.clusterSize - 1)
      && forall j :: 0 <= j < |n.conns| && j != i ==> SentTo(n, r, j, Relay(n, m))
  {
    forall j | 0 <= j < |n.conns| ensures j != i ==> SentTo(n, Routed(n, i, m), j, Relay(n, m)) {
      RelaySends(n, i, m, j);
    }
  }

  /** A greeting from the own cluster ends the link; the node with the bigger cluster answers if it is the
      peripheral and has not finished; the other one asks to join and closes its other links. */
  lemma GreetingDecides(n: Node, i: nat, m: Message)
    requires i < |n.conns| && m.Welcome? && m.receiver == 30001
    ensures
      var r, c := OnReceive(n, i, m), n.conns[i];
      var bigger := m.clusterSize < n.clusterSize || (m.clusterSize == n.clusterSize && m.clusterId < n.clusterId);
      && |r.conns| == |n.conns| && r == n.(conns := r.conns)
      && r.conns[i] ==
           (if m.clusterId == n.clusterId then c.(closing := true)
            else if !bigger then c.(partnerId := m.sender, out := c.out + [Ack1(n.id, m.sender)])
            else if c.direction == In && !c.handshakeDone
            then c.(out := c.out + [Welcome(n.id, 30001, n.clusterId, n.clusterSize)])
            else c)
      && forall j :: 0 <= j < |n.conns| && j != i ==>
           r.conns[j] == if m.clusterId != n.clusterId && !bigger && n.conns[j].isConnected
                         then n.conns[j].(closing := true) else n.conns[j]
  {
  }

  /** A new link comes up empty at the central, which greets; the peripheral waits. */
  lemma CentralGreetsFirst(n: Node, i: nat)
    requires i < |n.conns|
    ensures
      var r, c := OnConnected(n, i), n.conns[i];
      && |r.conns| == |n.conns| && r == n.(conns := r.conns)
      && r.conns[i] ==
           (if c.direction == Out
            then Conn(Out, true, false, 0, 0, 0, false, [Welcome(n.id, 30001, n.clusterId, n.clusterSize)])
            else c.(isConnected := true))
      && forall j :: 0 <= j < |n.conns| && j != i ==> r.conns[j] == n.conns[j]
  {
  }
}

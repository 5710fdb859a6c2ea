/** The transmit side of the connection manager: queues, buffer counts and the pending counter,
    changed in place by the event handlers. */
module ConnectionManager {
  import opened Bytes
  import opened Sums
  import opened PacketQueue
  import opened Transport

  const COUNTER_RANGE: nat := 0x1_0000

  /** The transmit fields of a connection. `air` are the writes given to the radio since the link
      came up. */
  class Channel {
    const packetSendQueue: PacketQueue
    const txBuffers: nat
    var isConnected: bool
    var handshakeDone: bool
    var sendPosition: nat
    var reliableFree: nat
    var unreliableFree: nat
    var air: seq<Write>

    ghost function Repr(): set<object> {
      {this, packetSendQueue, packetSendQueue.buffer}
    }

    /** The sender of `Transport` that this channel holds. */
    ghost function Tx(): Sender
      reads this, packetSendQueue
    {
      Sender(packetSendQueue.Contents(), sendPosition, reliableFree, unreliableFree)
    }

    ghost predicate Valid()
      reads Repr()
    {
      && txBuffers > 0
      && packetSendQueue.Valid()
      && SenderOk(Tx())
      && unreliableFree <= txBuffers
      && (reliableFree == 0 ==> packetSendQueue.Peeked())
    }

    /** Packets queued or, as commands, under way: what the pending counter counts for this link. */
    ghost function Load(): int
      reads this, packetSendQueue
    {
      |packetSendQueue.Contents()| + txBuffers - unreliableFree
    }

    /** Nothing can be sent now, and what is queued waits for a write that is out. */
    ghost predicate Waits()
      reads this, packetSendQueue
    {
      && Exhausted(Tx())
      && (packetSendQueue.Contents() != [] ==> reliableFree == 0 || unreliableFree < txBuffers)
    }

    constructor (queue: PacketQueue, txBuffers: nat)
      requires queue.Valid() && queue.Contents() == [] && txBuffers > 0
      ensures Valid() && !isConnected && !handshakeDone && air == []
      ensures Tx() == Sender([], 0, 1, txBuffers) && Load() == 0 && packetSendQueue == queue
    {
      packetSendQueue, this.txBuffers := queue, txBuffers;
      isConnected, handshakeDone, sendPosition, reliableFree, unreliableFree := false, false, 0, 1, txBuffers;
      air := [];
    }

    /** Writes the next part of the head packet, with its header, as a request. */
    method SendRequest(size: nat, first: u8)
      requires Valid() && packetSendQueue.Peeked() && reliableFree > 0
      requires CanStep(Tx()) && NeedsRequest(Tx().queue[0]) && size == |Tx().queue[0].data|
      requires first == Tx().queue[0].data[0]
      modifies `sendPosition, `reliableFree, `unreliableFree, `air, packetSendQueue, packetSendQueue.buffer
      ensures Valid()
      ensures Tx() == SendStep(old(Tx())).tx && air == old(air) + SendStep(old(Tx())).writes
    {
      StepKeepsSender(Tx());
      var from, more := 0, false;
      if size > MTU {
        if sendPosition != 0 {
          from, more := sendPosition, size - sendPosition > MTU;
        } else {
          more := true;
        }
      }
      packetSendQueue.SetHeadByte(from, Marked(first, more));
      var bytes := packetSendQueue.HeadSlice(from, if more then from + MTU else size);
      air := air + [Write(bytes, true)];
      reliableFree := reliableFree - 1;
    }

    /** Takes the head packet off the queue, with the new first byte. */
    method TakeHead(size: nat, first: u8) returns (bytes: seq<u8>)
      requires packetSendQueue.Valid() && packetSendQueue.Peeked()
      requires size == |packetSendQueue.Contents()[0].data| > 0
      modifies packetSendQueue, packetSendQueue.buffer
      ensures packetSendQueue.Valid() && packetSendQueue.Contents() == old(packetSendQueue.Contents())[1..]
      ensures bytes == old(packetSendQueue.Contents())[0].data[0 := first]
    {
      packetSendQueue.SetHeadByte(0, first);
      bytes := packetSendQueue.HeadSlice(0, size);
      packetSendQueue.DiscardNext();
    }

    /** Writes the head packet as a command and drops it. */
    method SendCommand(size: nat, first: u8)
      requires Valid() && packetSendQueue.Peeked() && unreliableFree > 0
      requires CanStep(Tx()) && !NeedsRequest(Tx().queue[0]) && size == |Tx().queue[0].data|
      requires first == Marked(Tx().queue[0].data[0], false)
      modifies `sendPosition, `reliableFree, `unreliableFree, `air, packetSendQueue, packetSendQueue.buffer
      ensures Valid()
      ensures Tx() == SendStep(old(Tx())).tx && air == old(air) + SendStep(old(Tx())).writes
    {
      CommandStep(Tx());
      StepKeepsSender(Tx());
      var bytes := TakeHead(size, first);
      air := air + [Write(bytes, false)];
      unreliableFree := unreliableFree - 1;
    }

    /** One pass of the transmit loop on a non-empty queue. */
    method SendNext() returns (blocked: bool)
      requires Valid() && packetSendQueue.Contents() != []
      modifies `sendPosition, `reliableFree, `unreliableFree, `air, packetSendQueue, packetSendQueue.buffer
      ensures Valid()
      ensures CanStep(old(Tx()))
      ensures Tx() == SendStep(old(Tx())).tx && air == old(air) + SendStep(old(Tx())).writes
      ensures blocked == SendStep(old(Tx())).blocked
      ensures old(air) <= air && IsPass(old(Tx()), Pass(Tx(), air[|old(air)|..], blocked))
    {
      StepIsPass(Tx());
      StepKeepsSender(Tx());
      var at, length := packetSendQueue.PeekNext();
      var size := length - 1;
      var reliable := packetSendQueue.buffer[at] != 0;
      var first := packetSendQueue.buffer[at + 1];
      assert first == packetSendQueue.buffer[at + 1..at + length][0];
      if size > MTU {
        reliable := true;
      }
      if reliable && reliableFree > 0 {
        SendRequest(size, first);
        return false;
      } else if !reliable && unreliableFree > 0 {
        SendCommand(size, Marked(first, false));
        return false;
      }
      if size <= MTU {
        packetSendQueue.SetHeadByte(0, Marked(first, false));
      }
      return true;
    }

    /** One pass, seen from the end of the transmit loop. */
    method Advance() returns (blocked: bool)
      requires Valid() && packetSendQueue.Contents() != []
      modifies `sendPosition, `reliableFree, `unreliableFree, `air, packetSendQueue, packetSendQueue.buffer
      ensures Valid()
      ensures blocked ==> Drain(old(Tx())).tx == Tx() && air == old(air) + Drain(old(Tx())).writes
      ensures !blocked ==>
        && Drain(old(Tx())).tx == Drain(Tx()).tx
        && air + Drain(Tx()).writes == old(air) + Drain(old(Tx())).writes
        && reliableFree + unreliableFree < old(reliableFree + unreliableFree)
    {
      PassAdvances(Tx(), air);
      blocked := SendNext();
    }

    /** The transmit loop for this connection. */
    method Fill()
      requires Valid()
      modifies `sendPosition, `reliableFree, `unreliableFree, `air, packetSendQueue, packetSendQueue.buffer
      ensures Valid() && Load() == old(Load()) && Waits()
      ensures Tx() == Drain(old(Tx())).tx && air == old(air) + Drain(old(Tx())).writes
    {
      DrainExhausts(Tx());
      while packetSendQueue.numElements > 0
        invariant Valid()
        invariant Drain(old(Tx())).tx == Drain(Tx()).tx
        invariant air + Drain(Tx()).writes == old(air) + Drain(old(Tx())).writes
        decreases reliableFree + unreliableFree
      {
        var blocked := Advance();
        if blocked {
          return;
        }
      }
    }

    /** The header at the send position says that no part follows it. */
    method LastPartSent() returns (last: bool)
      requires packetSendQueue.Valid() && packetSendQueue.Peeked() && CanStep(Tx())
      ensures last == !HasMore(Tx().queue[0].data[sendPosition])
    {
      var header := packetSendQueue.HeadSlice(sendPosition, sendPosition + 1);
      last := !HasMore(header[0]);
    }

    /** The response to the outstanding request arrived; says whether its packet is complete. */
    method Respond() returns (complete: bool)
      requires Valid() && reliableFree == 0
      modifies `sendPosition, `reliableFree, `unreliableFree, `air, packetSendQueue, packetSendQueue.buffer
      ensures Valid() && CanStep(old(Tx())) && Tx() == OnResponse(old(Tx()))
      ensures complete <==> old(Tx()).queue[0].data[old(sendPosition)] % 2 == 0
      ensures complete <==> |Tx().queue| < |old(Tx()).queue|
      ensures reliableFree == old(reliableFree) + 1
    {
      ghost var before := Tx();
      ResponseKeepsSender(before);
      var at, length := packetSendQueue.PeekNext();
      complete := LastPartSent();
      if complete {
        sendPosition := 0;
        packetSendQueue.DiscardNext();
      } else {
        sendPosition := sendPosition + MTU - SPLIT_HEADER;
      }
      reliableFree := reliableFree + 1;
      assert Tx() == OnResponse(before);
    }

    method Queue(data: Payload, reliable: bool) returns (ok: bool)
      requires Valid() && Sendable(Record(reliable, data))
      modifies `sendPosition, `reliableFree, `unreliableFree, `air, packetSendQueue, packetSendQueue.buffer
      ensures Valid()
      ensures ok == Fits(old(packetSendQueue.readPointer), old(packetSendQueue.writePointer), packetSendQueue.buffer.Length, |data|)
      ensures Tx() == old(Tx()).(queue := old(Tx()).queue + if ok then [Record(reliable, data)] else [])
    {
      ok := packetSendQueue.Put(data, reliable);
      if ok {
        QueuePending(old(Tx()), Record(reliable, data));
      }
    }

    method Complete(count: nat)
      requires Valid() && unreliableFree + count <= txBuffers
      modifies `unreliableFree
      ensures Valid()
      ensures Tx() == old(Tx()).(unreliableFree := old(unreliableFree) + count)
    {
      unreliableFree := unreliableFree + count;
    }

    /** The link is gone: whatever was queued or under way is dropped. */
    method Init()
      requires Valid()
      modifies Repr()
      ensures Valid() && !isConnected && !handshakeDone && air == [] && Load() == 0
      ensures Tx() == Sender([], 0, 1, txBuffers)
    {
      isConnected, handshakeDone, sendPosition, reliableFree, unreliableFree := false, false, 0, 1, txBuffers;
      air := [];
      packetSendQueue.Clean();
    }
  }

  /** What the manager knows of one connection; the bytes behind `tx` are those of a `Channel`. */
  datatype LinkState = LinkState(isConnected: bool, handshakeDone: bool, tx: Sender, txBuffers: nat)

  /** Packets queued or, as commands, under way. */
  function Load(l: LinkState): int {
    |l.tx.queue| + l.txBuffers - l.tx.unreliableFree
  }

  function Loads(ls: seq<LinkState>): seq<int> {
    seq(|ls|, i requires 0 <= i < |ls| => Load(ls[i]))
  }

  ghost predicate LinkStateOk(l: LinkState) {
    && SenderOk(l.tx) && l.txBuffers > 0 && l.tx.unreliableFree <= l.txBuffers
    && (!l.isConnected ==> Load(l) == 0 && l.tx.reliableFree == 1)
    && (l.handshakeDone ==> l.isConnected)
  }

  /** Nothing can be sent now, and what is queued waits for a write that is out. */
  ghost predicate Waits(l: LinkState) {
    && Exhausted(l.tx)
    && (l.tx.queue != [] ==> l.tx.reliableFree == 0 || l.tx.unreliableFree < l.txBuffers)
  }

  function Drained(l: LinkState): LinkState
    requires SenderOk(l.tx)
  {
    if l.isConnected then l.(tx := Drain(l.tx).tx) else l
  }

  function Queued(l: LinkState, r: Record): LinkState {
    l.(tx := l.tx.(queue := l.tx.queue + [r]))
  }

  /** What flooding does to one link: the packet is queued if the link is finished and may have it, and
      the link sends what it can. */
  ghost predicate SentOver(l: LinkState, m: LinkState, may: bool, r: Record) {
    var queue := if l.handshakeDone && may then l.tx.queue + [r] else l.tx.queue;
    var tx := l.tx.(queue := queue);
    SenderOk(tx) && m == l.(tx := if l.isConnected then Drain(tx).tx else tx)
  }

  lemma DrainedWaits(l: LinkState)
    requires LinkStateOk(l)
    ensures LinkStateOk(Drained(l)) && Load(Drained(l)) == Load(l)
    ensures l.isConnected ==> Waits(Drained(l))
  {
    DrainExhausts(l.tx);
  }

  /** No wake-up is lost: what a connected link has queued waits for a write that is out, and the
      completion event of that write runs the transmit loop again. */
  ghost predicate AllWait(ls: seq<LinkState>) {
    forall i :: 0 <= i < |ls| && ls[i].isConnected ==> Waits(ls[i])
  }

  ghost predicate AllOk(ls: seq<LinkState>) {
    forall i :: 0 <= i < |ls| ==> LinkStateOk(ls[i])
  }

  /** The links after the packet was put in the queues below link `n` of all finished links but
      `ignore`; `fits` says which rings take it. */
  function QueueBelow(ls: seq<LinkState>, n: nat, ignore: nat, r: Record, fits: seq<bool>): seq<LinkState>
    requires |fits| == |ls|
  {
    seq(|ls|, i requires 0 <= i < |ls| =>
      if i < n && i != ignore && ls[i].handshakeDone && fits[i] then Queued(ls[i], r) else ls[i])
  }

  /** A finished link that is not ignored and whose ring takes the packet has it behind all others; the
      other links are as they were. */
  lemma QueueBelowAt(ls: seq<LinkState>, n: nat, ignore: nat, r: Record, fits: seq<bool>, i: nat)
    requires |fits| == |ls| && i < |ls|
    ensures |QueueBelow(ls, n, ignore, r, fits)| == |ls|
    ensures QueueBelow(ls, n, ignore, r, fits)[i] ==
      if i < n && i != ignore && ls[i].handshakeDone && fits[i] then ls[i].(tx := ls[i].tx.(queue := ls[i].tx.queue + [r]))
      else ls[i]
  {
  }

  /** The links after the transmit loop has run over the first `n` of them. */
  function DrainFirst(ls: seq<LinkState>, n: nat): seq<LinkState>
    requires n <= |ls| && forall i :: 0 <= i < |ls| ==> SenderOk(ls[i].tx)
  {
    seq(|ls|, i requires 0 <= i < |ls| && SenderOk(ls[i].tx) => if i < n then Drained(ls[i]) else ls[i])
  }

  lemma DrainFirstAt(ls: seq<LinkState>, n: nat, i: nat)
    requires AllSendersOk(ls) && n <= |ls| && i < |ls|
    ensures |DrainFirst(ls, n)| == |ls|
    ensures DrainFirst(ls, n)[i] == if i < n && ls[i].isConnected then ls[i].(tx := Drain(ls[i].tx).tx) else ls[i]
  {
  }

  ghost predicate AllSendersOk(ls: seq<LinkState>) {
    forall i :: 0 <= i < |ls| ==> SenderOk(ls[i].tx)
  }

  /** The links after a handler: the loop ran over all of them unless the counter showed zero. */
  ghost function Refilled(ls: seq<LinkState>, pending: nat): seq<LinkState>
    requires AllSendersOk(ls)
  {
    if pending == 0 then ls else DrainFirst(ls, |ls|)
  }

  lemma {:induction false} DrainFirstKeeps(ls: seq<LinkState>, n: nat)
    requires n <= |ls| && AllOk(ls)
    ensures Sum(Loads(DrainFirst(ls, n))) == Sum(Loads(ls)) && AllOk(DrainFirst(ls, n))
    ensures forall i :: 0 <= i < n && ls[i].isConnected ==> Waits(DrainFirst(ls, n)[i])
  {
    forall i | 0 <= i < |ls| ensures LinkStateOk(DrainFirst(ls, n)[i]) && Load(DrainFirst(ls, n)[i]) == Load(ls[i])
      && (i < n && ls[i].isConnected ==> Waits(DrainFirst(ls, n)[i])) {
      DrainedWaits(ls[i]);
    }
    assert Loads(DrainFirst(ls, n)) == Loads(ls);
  }

  lemma LoadsUpdate(ls: seq<LinkState>, i: nat, l: LinkState)
    requires i < |ls|
    ensures Sum(Loads(ls[i := l])) == Sum(Loads(ls)) - Load(ls[i]) + Load(l)
  {
    assert Loads(ls[i := l]) == Loads(ls)[i := Load(l)];
    SumUpdate(Loads(ls), i, Load(l));
  }

  lemma {:induction false} SumOfNaturals(s: seq<int>, i: nat)
    requires i < |s| && forall j :: 0 <= j < |s| ==> s[j] >= 0
    ensures Sum(s) >= s[i]
  {
    if |s| == 1 {
    } else {
      SumOfNaturals(s[1..], if i > 0 then i - 1 else 0);
    }
  }

  lemma ShiftMod(a: int, b: int)
    ensures (a % COUNTER_RANGE + b) % COUNTER_RANGE == (a + b) % COUNTER_RANGE
  {
    var q := a / COUNTER_RANGE;
    assert a == COUNTER_RANGE * q + a % COUNTER_RANGE;
    var r := (a % COUNTER_RANGE + b) / COUNTER_RANGE;
    assert a + b == COUNTER_RANGE * (q + r) + (a % COUNTER_RANGE + b) % COUNTER_RANGE;
  }

  class Manager {
    var links: seq<LinkState>
    var pendingPackets: nat
    // Write commands whose completion was never reported because their link broke.
    ghost var lost: nat

    /** All packets the counter should count: queued, under way as commands, or lost with a link. */
    ghost function Total(): int
      reads this
    {
      Sum(Loads(links)) + lost
    }

    /** The 16-bit counter shows the total, less what has overflowed. */
    ghost predicate Valid()
      reads this
    {
      && AllOk(links)
      && pendingPackets == Total() % COUNTER_RANGE
    }

    ghost predicate NothingStuck()
      reads this
    {
      AllWait(links)
    }

    /** Has the 16-bit counter wrapped to zero although packets are pending? */
    ghost predicate CounterLies()
      reads this
    {
      Total() != 0 && Total() % COUNTER_RANGE == 0
    }

    constructor (count: nat, txBuffers: nat)
      requires txBuffers > 0
      ensures Valid() && NothingStuck() && Total() == 0 && lost == 0
      ensures links == seq(count, i => LinkState(false, false, Sender([], 0, 1, txBuffers), txBuffers))
    {
      links := seq(count, i => LinkState(false, false, Sender([], 0, 1, txBuffers), txBuffers));
      pendingPackets, lost := 0, 0;
      new;
      Idle(links);
    }

    static lemma {:induction false} Idle(ls: seq<LinkState>)
      requires forall i :: 0 <= i < |ls| ==> Load(ls[i]) == 0
      ensures Sum(Loads(ls)) == 0
    {
      if ls == [] {
      } else {
        assert Loads(ls)[1..] == Loads(ls[1..]);
        Idle(ls[1..]);
      }
    }

    /** Every connected link sends until its queue is empty or its head waits for a buffer. */
    method FillTransmitBuffers()
      requires Valid()
      modifies this`links
      ensures Valid() && NothingStuck() && Total() == old(Total())
      ensures links == DrainFirst(old(links), |old(links)|)
    {
      for i := 0 to |links|
        invariant links == DrainFirst(old(links), i)
      {
        if links[i].isConnected && links[i].tx.queue != [] {
          links := links[i := Drained(links[i])];
        }
      }
      DrainFirstKeeps(old(links), |links|);
    }

    /** Puts a packet in one queue, if the ring takes it. */
    method QueuePacket(i: nat, r: Record, fits: bool)
      requires Valid() && i < |links| && links[i].isConnected && Sendable(r)
      modifies this`links, this`pendingPackets
      ensures Valid() && Total() == old(Total()) + if fits then 1 else 0
      ensures links == if fits then old(links)[i := Queued(old(links)[i], r)] else old(links)
      ensures forall j :: 0 <= j < |links| ==>
        links[j].tx.queue == old(links)[j].tx.queue + if j == i && fits then [r] else []
    {
      if fits {
        QueuePending(links[i].tx, r);
        LoadsUpdate(links, i, Queued(links[i], r));
        ShiftMod(Total(), 1);
        links := links[i := Queued(links[i], r)];
        pendingPackets := (pendingPackets + 1) % COUNTER_RANGE;
      }
    }

    method SendMessage(i: nat, r: Record, fits: bool)
      requires Valid() && i < |links| && links[i].isConnected && Sendable(r)
      modifies this`links, this`pendingPackets
      ensures Valid() && NothingStuck() && Total() == old(Total()) + if fits then 1 else 0
      ensures
        var queued := if fits then old(links)[i := Queued(old(links)[i], r)] else old(links);
        AllSendersOk(queued) && links == DrainFirst(queued, |queued|)
    {
      QueuePacket(i, r, fits);
      FillTransmitBuffers();
    }

    /** Queues the packet on every finished link but `ignore`, where its ring takes it. */
    method SendMessageOverConnections(ignore: nat, r: Record, fits: seq<bool>)
      requires Valid() && Sendable(r) && |fits| == |links|
      modifies this`links, this`pendingPackets
      ensures Valid() && NothingStuck()
      ensures
        var queued := QueueBelow(old(links), |fits|, ignore, r, fits);
        AllSendersOk(queued) && links == DrainFirst(queued, |queued|)
      ensures |links| == |old(links)| && forall i :: 0 <= i < |links| ==>
        SentOver(old(links)[i], links[i], i != ignore && fits[i], r)
    {
      for j := 0 to |links|
        invariant Valid() && |links| == |old(links)|
        invariant links == QueueBelow(old(links), j, ignore, r, fits)
      {
        if j != ignore && links[j].handshakeDone {
          assert LinkStateOk(links[j]);
          QueuePacket(j, r, fits[j]);
        }
      }
      assert AllOk(links);
      ghost var queued := links;
      FillTransmitBuffers();
      forall i | 0 <= i < |links| ensures SentOver(old(links)[i], links[i], i != ignore && fits[i], r) {
        QueueBelowAt(old(links), |fits|, ignore, r, fits, i);
        assert links[i] == Drained(queued[i]);
      }
    }

    /** Ends an event handler: the loop runs again unless the counter shows zero. */
    method Continue()
      requires Valid()
      modifies this`links
      ensures Valid() && Total() == old(Total())
      ensures links == Refilled(old(links), pendingPackets)
      ensures NothingStuck() <==> pendingPackets != 0 || AllWait(old(links))
      ensures pendingPackets == 0 ==> links == old(links)
      ensures !CounterLies() ==> NothingStuck()
    {
      if pendingPackets != 0 {
        FillTransmitBuffers();
      } else if Total() == 0 {
        NothingPending();
      }
    }

    lemma NothingPending()
      requires AllOk(links) && Total() == 0
      ensures NothingStuck()
    {
      forall i | 0 <= i < |links| ensures links[i].tx.queue == [] {
        SumOfNaturals(Loads(links), i);
      }
    }

    /** The radio reports `count` write commands of link `i` as sent. */
    method TxComplete(i: nat, count: nat)
      requires Valid() && i < |links| && links[i].tx.unreliableFree + count <= links[i].txBuffers
      requires links[i].isConnected
      modifies this`links, this`pendingPackets
      ensures Valid() && Total() == old(Total()) - count
      ensures
        var l := old(links)[i];
        var freed := old(links)[i := l.(tx := l.tx.(unreliableFree := l.tx.unreliableFree + count))];
        && AllSendersOk(freed) && links == Refilled(freed, pendingPackets)
        && (NothingStuck() <==> pendingPackets != 0 || AllWait(freed))
      ensures !CounterLies() ==> NothingStuck()
    {
      var l := links[i].(tx := links[i].tx.(unreliableFree := links[i].tx.unreliableFree + count));
      LoadsUpdate(links, i, l);
      ShiftMod(Total(), 0 - count);
      links := links[i := l];
      pendingPackets := (pendingPackets - count) % COUNTER_RANGE;
      Continue();
    }

    /** The response to the outstanding request of link `i` arrived. */
    method WriteResponse(i: nat)
      requires Valid() && i < |links| && links[i].isConnected && links[i].tx.reliableFree == 0
      modifies this`links, this`pendingPackets
      ensures Valid() && CanStep(old(links)[i].tx)
      ensures
        var l := old(links)[i];
        var answered := old(links)[i := l.(tx := OnResponse(l.tx))];
        && Total() == old(Total()) - (|l.tx.queue| - |OnResponse(l.tx).queue|)
        && AllSendersOk(answered) && links == Refilled(answered, pendingPackets)
        && (NothingStuck() <==> pendingPackets != 0 || AllWait(answered))
      ensures !CounterLies() ==> NothingStuck()
    {
      ResponseKeepsSender(links[i].tx);
      var l := links[i].(tx := OnResponse(links[i].tx));
      var complete := |l.tx.queue| < |links[i].tx.queue|;
      LoadsUpdate(links, i, l);
      ShiftMod(Total(), -1);
      links := links[i := l];
      if complete {
        pendingPackets := (pendingPackets - 1) % COUNTER_RANGE;
      }
      Continue();
    }

    method ConnectionSuccessful(i: nat)
      requires Valid() && i < |links| && !links[i].isConnected
      modifies this`links
      ensures Valid() && Total() == old(Total()) && links == old(links)[i := old(links)[i].(isConnected := true)]
      ensures old(NothingStuck()) ==> NothingStuck()
    {
      var l := links[i].(isConnected := true);
      LoadsUpdate(links, i, l);
      links := links[i := l];
    }

    /** The handshake of link `i` is done; from now on it takes part in flooding. */
    method HandshakeDone(i: nat)
      requires Valid() && i < |links| && links[i].isConnected
      modifies this`links
      ensures Valid() && Total() == old(Total()) && links == old(links)[i := old(links)[i].(handshakeDone := true)]
      ensures NothingStuck() <==> old(NothingStuck())
    {
      var l := links[i].(handshakeDone := true);
      LoadsUpdate(links, i, l);
      links := links[i := l];
      assert forall j :: 0 <= j < |links| ==> Waits(links[j]) == Waits(old(links)[j]);
      assert forall j :: 0 <= j < |links| ==> links[j].isConnected == old(links)[j].isConnected;
    }

    /** Link `i` broke: its queue is dropped and counted off, its commands under way stay counted. */
    method Disconnected(i: nat)
      requires Valid() && i < |links| && links[i].isConnected
      modifies this
      ensures Valid() && Total() == old(Total()) - |old(links)[i].tx.queue|
      ensures lost == old(lost) + old(links)[i].txBuffers - old(links)[i].tx.unreliableFree
      ensures links == old(links)[i := LinkState(false, false, Sender([], 0, 1, old(links)[i].txBuffers), old(links)[i].txBuffers)]
      ensures old(NothingStuck()) ==> NothingStuck()
    {
      var l := LinkState(false, false, Sender([], 0, 1, links[i].txBuffers), links[i].txBuffers);
      LoadsUpdate(links, i, l);
      ShiftMod(Total(), -|links[i].tx.queue|);
      pendingPackets := (pendingPackets - |links[i].tx.queue|) % COUNTER_RANGE;
      lost := lost + (links[i].txBuffers - links[i].tx.unreliableFree);
      links := links[i := l];
    }
  }

  // ---- the loop over all links, on the ring bytes -------------------------------------------------------

  ghost function LinkOf(c: Channel): LinkState
    reads c, c.packetSendQueue
  {
    LinkState(c.isConnected, c.handshakeDone, c.Tx(), c.txBuffers)
  }

  /** The connections share no memory, and all of it is in `footprint`. */
  ghost predicate Apart(cs: seq<Channel>, footprint: set<object>) {
    && (forall i :: 0 <= i < |cs| ==> cs[i].Repr() <= footprint)
    && (forall i, j :: 0 <= i < j < |cs| ==> cs[i].Repr() !! cs[j].Repr())
  }

  method FillOne(c: Channel)
    requires c.Valid()
    modifies c.Repr()
    ensures c.Valid() && SenderOk(old(LinkOf(c)).tx) && LinkOf(c) == Drained(old(LinkOf(c)))
  {
    if c.isConnected && c.packetSendQueue.numElements > 0 {
      c.Fill();
    }
  }

  /** These connections hold these links. */
  ghost predicate Hold(cs: seq<Channel>, ls: seq<LinkState>)
    reads set i, o | 0 <= i < |cs| && o in cs[i].Repr() :: o
  {
    |cs| == |ls| && forall i :: 0 <= i < |cs| ==> cs[i].Valid() && LinkOf(cs[i]) == ls[i]
  }

  /** The loop over all connections, each sending out of its own ring, does what `DrainFirst` says. */
  method FillTransmitBuffers(cs: seq<Channel>, ghost ls: seq<LinkState>, ghost footprint: set<object>)
    requires Apart(cs, footprint) && Hold(cs, ls)
    modifies footprint
    ensures AllSendersOk(ls) && Hold(cs, DrainFirst(ls, |ls|))
  {
    for i := 0 to |cs|
      invariant AllSendersOk(ls) && Hold(cs, DrainFirst(ls, i))
    {
      FillNext(cs, ls, footprint, i);
    }
  }

  method FillNext(cs: seq<Channel>, ghost ls: seq<LinkState>, ghost footprint: set<object>, i: nat)
    requires Apart(cs, footprint) && i < |cs| == |ls| && AllSendersOk(ls) && Hold(cs, DrainFirst(ls, i))
    modifies footprint
    ensures Hold(cs, DrainFirst(ls, i + 1))
  {
    label before:
    FillOne(cs[i]);
    forall j | 0 <= j < |cs| && j != i ensures cs[j].Valid() && LinkOf(cs[j]) == old@before(LinkOf(cs[j])) {
      assert cs[j].Repr() !! cs[i].Repr();
    }
  }

  // ---- a lost wake-up -----------------------------------------------------------------------------

  /** An unreliable packet in one write. */
  const PING := Record(false, [5])

  function Quiet(free: nat, queue: seq<Record>): LinkState {
    LinkState(true, false, Sender(queue, 0, 1, free), 1)
  }

  lemma PingGoesOut()
    ensures Sendable(PING)
    ensures SenderOk(Quiet(1, [PING]).tx) && Drained(Quiet(1, [PING])) == Quiet(0, [])
  {
    CommandStep(Quiet(1, [PING]).tx);
    assert [PING][1..] == [];
    assert Drain(Quiet(0, []).tx).tx == Quiet(0, []).tx;
  }

  /** The second packet finds no buffer; only its header byte is rewritten. */
  lemma PingWaits() returns (r: Record)
    ensures SenderOk(Quiet(0, [PING]).tx) && Drained(Quiet(0, [PING])) == Quiet(0, [r])
    ensures !NeedsRequest(r)
  {
    var s := Quiet(0, [PING]).tx;
    assert SendStep(s).blocked;
    r := Drain(s).tx.queue[0];
    assert Drain(s).tx.queue == [r];
  }

  lemma OneLoad(l: LinkState)
    ensures Sum(Loads([l])) == Load(l)
  {
    assert Loads([l])[1..] == [];
  }

  /** Sending over the only link. */
  method Ping(m: Manager, ghost free: nat)
    requires m.Valid() && m.links == [Quiet(free, [])]
    modifies m`links, m`pendingPackets
    ensures m.Valid() && m.Total() == old(m.Total()) + 1
    ensures SenderOk(Quiet(free, [PING]).tx) && m.links == [Drained(Quiet(free, [PING]))]
  {
    m.SendMessage(0, PING, true);
    assert Queued(Quiet(free, []), PING) == Quiet(free, [PING]) by { assert [] + [PING] == [PING]; }
    assert m.links == DrainFirst([Quiet(free, [PING])], 1);
  }

  /** One link, one packet sent, and the link breaks before its completion is reported. */
  method LoseOne(m: Manager)
    requires m.Valid() && m.links == [Quiet(1, []).(isConnected := false)]
    modifies m
    ensures m.Valid() && m.links == old(m.links) && m.lost == old(m.lost) + 1
  {
    PingGoesOut();
    m.ConnectionSuccessful(0);
    Ping(m, 1);
    m.Disconnected(0);
  }

  /** After 65535 such losses a completion event brings the counter to zero while a packet waits, and
      the transmit loop does not run: the packet stays although nothing is under way. */
  method LostWakeUp() returns (m: Manager)
    ensures m.Valid() && m.pendingPackets == 0 && !m.NothingStuck()
    ensures |m.links| == 1 && m.links[0].isConnected && |m.links[0].tx.queue| == 1
    ensures m.links[0].tx.reliableFree == 1 && m.links[0].tx.unreliableFree == m.links[0].txBuffers
  {
    m := new Manager(1, 1);
    for i := 0 to COUNTER_RANGE - 1
      invariant fresh(m) && m.Valid() && m.lost == i
      invariant m.links == [Quiet(1, []).(isConnected := false)]
    {
      LoseOne(m);
    }
    PingGoesOut();
    m.ConnectionSuccessful(0);
    Ping(m, 1);
    ghost var r := PingWaits();
    Ping(m, 0);
    assert m.links == [Quiet(0, [r])];
    OneLoad(Quiet(0, [r]));
    m.TxComplete(0, 1);
    OneLoad(Quiet(1, [r]));
    assert !Waits(Quiet(1, [r]));
  }
}

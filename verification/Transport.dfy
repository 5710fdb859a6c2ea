/** One direction of a link: the sender splits packets into writes of at most 20 bytes by rewriting
    bytes of the head packet that are already sent; the receiver puts the parts together again. */
module Transport {
  import opened Bytes
  import opened PacketQueue

  const MTU: nat := 20
  const SPLIT_HEADER: nat := 1
  const REASSEMBLY_BUFFER: nat := 200

  /** Bit 0 of the first byte says whether more parts follow; the rest is the message type. */
  predicate HasMore(b: u8) {
    b % 2 == 1
  }

  function Marked(b: u8, more: bool): u8 {
    b - b % 2 + if more then 1 else 0
  }

  lemma {:induction false} MarkedKeepsType(b: u8, more: bool)
    ensures Marked(b, more) / 2 == b / 2
    ensures HasMore(Marked(b, more)) <==> more
  {
  }

  /** A write request is answered by a response, a write command is not. */
  datatype Write = Write(bytes: seq<u8>, request: bool)

  datatype Sender = Sender(queue: seq<Record>, sendPosition: nat, reliableFree: nat, unreliableFree: nat)

  /** One pass of the transmit loop. */
  datatype Pass = Pass(tx: Sender, writes: seq<Write>, blocked: bool)

  function WithHead(s: Sender, d: Payload): Sender
    requires s.queue != []
  {
    s.(queue := s.queue[0 := Record(s.queue[0].reliable, d)])
  }

  predicate NeedsRequest(r: Record) {
    r.reliable || |r.data| > MTU
  }

  /** Is the part that starts at `pos` followed by another one? */
  predicate MoreAfter(n: nat, pos: nat) {
    n > pos + MTU
  }

  function PartEnd(n: nat, pos: nat): nat {
    if MoreAfter(n, pos) then pos + MTU else n
  }

  predicate CanStep(s: Sender) {
    s.queue != [] && |s.queue[0].data| > 0 && s.sendPosition < |s.queue[0].data|
    && (|s.queue[0].data| <= MTU ==> s.sendPosition == 0)
  }

  function SendStep(s: Sender): Pass
    requires CanStep(s)
  {
    var r := s.queue[0];
    var n := |r.data|;
    if NeedsRequest(r) && s.reliableFree > 0 then
      var d := SetByte(r.data, s.sendPosition, Marked(r.data[0], MoreAfter(n, s.sendPosition)));
      Pass(WithHead(s, d).(reliableFree := s.reliableFree - 1),
           [Write(d[s.sendPosition..PartEnd(n, s.sendPosition)], true)], false)
    else
      var d := if n > MTU then r.data else SetByte(r.data, 0, Marked(r.data[0], false));
      if NeedsRequest(r) || s.unreliableFree == 0 then Pass(WithHead(s, d), [], true)
      else Pass(s.(queue := s.queue[1..], unreliableFree := s.unreliableFree - 1), [Write(d, false)], false)
  }

  /** The write request was answered. */
  function OnResponse(s: Sender): Sender
    requires CanStep(s)
  {
    if !HasMore(s.queue[0].data[s.sendPosition]) then
      Sender(s.queue[1..], 0, s.reliableFree + 1, s.unreliableFree)
    else
      s.(sendPosition := s.sendPosition + MTU - SPLIT_HEADER, reliableFree := s.reliableFree + 1)
  }

  // ---- one pass, written out --------------------------------------------------------------------------

  /** The write carries the bytes of `d` from `from` on, 20 of them or as many as are left, behind a
      first byte with the packet's message type that says whether more follow. */
  ghost predicate Carries(w: Write, d: seq<u8>, from: nat)
    requires from < |d|
  {
    && w.bytes != []
    && w.bytes[0] / 2 == d[0] / 2
    && (w.bytes[0] % 2 == 1 <==> |d| > from + 20)
    && w.bytes[1..] == d[from + 1..if |d| > from + 20 then from + 20 else |d|]
  }

  /** What a pass does: a packet that is reliable or longer than 20 bytes goes out by requests, another
      by a command, as soon as there is a buffer of its kind; a request leaves the packet at the head
      with one byte rewritten, a command takes it off. */
  ghost predicate IsPass(s: Sender, p: Pass)
    requires CanStep(s)
  {
    var r := s.queue[0];
    var asRequest := r.reliable || |r.data| > 20;
    && (p.blocked <==> if asRequest then s.reliableFree == 0 else s.unreliableFree == 0)
    && (p.blocked <==> p.writes == [])
    && p.tx.sendPosition == s.sendPosition
    && p.tx.reliableFree == s.reliableFree - (if asRequest && !p.blocked then 1 else 0)
    && p.tx.unreliableFree == s.unreliableFree - (if !asRequest && !p.blocked then 1 else 0)
    && (!p.blocked ==> |p.writes| == 1 && p.writes[0].request == asRequest && Carries(p.writes[0], r.data, s.sendPosition))
    && (if !asRequest && !p.blocked then p.tx.queue == s.queue[1..]
        else
          && |p.tx.queue| == |s.queue| && p.tx.queue[1..] == s.queue[1..]
          && (var q := p.tx.queue[0];
              && q.reliable == r.reliable && |q.data| == |r.data| && q.data[0] / 2 == r.data[0] / 2
              && (forall k :: 0 < k < |r.data| && k != s.sendPosition ==> q.data[k] == r.data[k])
              && (s.sendPosition != 0 && p.blocked ==> q.data[s.sendPosition] == r.data[s.sendPosition])))
  }

  lemma {:induction false} RequestIsPass(s: Sender)
    requires CanStep(s) && NeedsRequest(s.queue[0]) && s.reliableFree > 0
    ensures IsPass(s, SendStep(s))
  {
    var r := s.queue[0];
    MarkedKeepsType(r.data[0], MoreAfter(|r.data|, s.sendPosition));
    var d := SetByte(r.data, s.sendPosition, Marked(r.data[0], MoreAfter(|r.data|, s.sendPosition)));
    assert SendStep(s).tx.queue[0] == Record(r.reliable, d);
    assert SendStep(s).writes[0].bytes[1..] == r.data[s.sendPosition + 1..PartEnd(|r.data|, s.sendPosition)];
  }

  lemma {:induction false} StepIsPass(s: Sender)
    requires CanStep(s)
    ensures IsPass(s, SendStep(s))
  {
    var r := s.queue[0];
    if NeedsRequest(r) && s.reliableFree > 0 {
      RequestIsPass(s);
    } else {
      MarkedKeepsType(r.data[0], false);
    }
  }

  /** What every sender keeps: a partly sent packet is at the head, its parts start at multiples of
      19, and while a request is out the head's current header says whether more parts follow. */
  ghost predicate SenderOk(s: Sender) {
    && (forall r :: r in s.queue ==> 0 < |r.data| <= REASSEMBLY_BUFFER)
    && s.reliableFree <= 1
    && (s.sendPosition != 0 ==>
         s.queue != [] && |s.queue[0].data| > MTU && s.sendPosition % (MTU - SPLIT_HEADER) == 0
         && s.sendPosition + 2 <= |s.queue[0].data|)
    && (s.reliableFree == 0 ==>
         s.queue != [] && NeedsRequest(s.queue[0])
         && (HasMore(s.queue[0].data[s.sendPosition]) <==> MoreAfter(|s.queue[0].data|, s.sendPosition)))
  }

  /** The transmit loop for one connection. */
  function Drain(s: Sender): (r: Pass)
    requires SenderOk(s)
    ensures SenderOk(r.tx)
    decreases s.reliableFree + s.unreliableFree
  {
    if s.queue == [] then Pass(s, [], true)
    else
      var step := SendStep(s);
      StepKeepsSender(s);
      if step.blocked then step
      else
        var rest := Drain(step.tx);
        Pass(rest.tx, step.writes + rest.writes, true)
  }

  lemma {:induction false} CommandStep(s: Sender)
    requires CanStep(s) && !NeedsRequest(s.queue[0]) && s.unreliableFree > 0
    ensures SendStep(s) == Pass(s.(queue := s.queue[1..], unreliableFree := s.unreliableFree - 1),
                                [Write(SetByte(s.queue[0].data, 0, Marked(s.queue[0].data[0], false)), false)], false)
  {
  }

  lemma {:induction false} StepKeepsSender(s: Sender)
    requires SenderOk(s) && s.queue != []
    ensures CanStep(s) && SenderOk(SendStep(s).tx)
  {
    var t := SendStep(s).tx;
    assert s.queue[0] in s.queue;
    forall r | r in t.queue ensures 0 < |r.data| <= REASSEMBLY_BUFFER {
      var i :| 0 <= i < |t.queue| && t.queue[i] == r;
      if |t.queue| == |s.queue| && i > 0 {
        assert r == s.queue[i];
      }
    }
  }

  /** One pass, seen from the end of the loop; `sent` was written before. */
  lemma {:induction false} PassAdvances(s: Sender, sent: seq<Write>)
    requires SenderOk(s) && s.queue != []
    ensures CanStep(s) && SenderOk(SendStep(s).tx)
    ensures SendStep(s).blocked ==>
      Drain(s).tx == SendStep(s).tx && sent + SendStep(s).writes == sent + Drain(s).writes
    ensures !SendStep(s).blocked ==>
      && Drain(s).tx == Drain(SendStep(s).tx).tx
      && sent + SendStep(s).writes + Drain(SendStep(s).tx).writes == sent + Drain(s).writes
      && SendStep(s).tx.reliableFree + SendStep(s).tx.unreliableFree < s.reliableFree + s.unreliableFree
  {
    StepKeepsSender(s);
  }

  lemma {:induction false} ResponseKeepsSender(s: Sender)
    requires SenderOk(s) && s.reliableFree == 0
    ensures CanStep(s) && SenderOk(OnResponse(s))
  {
    assert s.queue[0] in s.queue;
  }

  /** Nothing more can be sent now: the queue is empty, or its head waits for a buffer of its kind. */
  predicate Exhausted(s: Sender) {
    s.queue == [] || (if NeedsRequest(s.queue[0]) then s.reliableFree == 0 else s.unreliableFree == 0)
  }

  lemma {:induction false} DrainExhausts(s: Sender)
    requires SenderOk(s)
    ensures Exhausted(Drain(s).tx)
    ensures Exhausted(s) ==> Drain(s).writes == []
    ensures |Drain(s).writes| == s.reliableFree + s.unreliableFree - Drain(s).tx.reliableFree - Drain(s).tx.unreliableFree
    ensures |s.queue| - |Drain(s).tx.queue| == s.unreliableFree - Drain(s).tx.unreliableFree
    decreases s.reliableFree + s.unreliableFree
  {
    if s.queue == [] {
    } else {
      StepKeepsSender(s);
      if !SendStep(s).blocked {
        DrainExhausts(SendStep(s).tx);
      }
    }
  }

  // ---- the writes a packet becomes -----------------------------------------------------------------

  function Parts(r: Record, pos: nat): seq<Write>
    requires pos < |r.data|
    decreases |r.data| - pos
  {
    var n := |r.data|;
    var part := Write([Marked(r.data[0], MoreAfter(n, pos))] + r.data[pos + 1..PartEnd(n, pos)], NeedsRequest(r));
    if MoreAfter(n, pos) then [part] + Parts(r, pos + MTU - SPLIT_HEADER) else [part]
  }

  function AllParts(rs: seq<Record>): seq<Write>
    requires forall r :: r in rs ==> |r.data| > 0
  {
    if rs == [] then [] else Parts(rs[0], 0) + AllParts(rs[1..])
  }

  /** Packets above 20 bytes take one write per 19 bytes after the first byte. */
  lemma {:induction false} PartCount(r: Record, pos: nat)
    requires |r.data| > MTU && pos + 2 <= |r.data|
    ensures |Parts(r, pos)| == (|r.data| - pos - 1 + 18) / 19
    decreases |r.data| - pos
  {
    if !MoreAfter(|r.data|, pos) {
    } else {
      PartCount(r, pos + 19);
    }
  }

  /** The parts from `pos` on depend on the message type and on the bytes behind `pos` only, so
      rewriting bytes up to `pos` does not change them. */
  lemma {:induction false} PartsIgnoreSentBytes(r: Record, q: Record, pos: nat)
    requires |r.data| == |q.data| && pos < |r.data| && NeedsRequest(r) == NeedsRequest(q)
    requires r.data[0] / 2 == q.data[0] / 2 && r.data[pos + 1..] == q.data[pos + 1..]
    ensures Parts(r, pos) == Parts(q, pos)
    decreases |r.data| - pos
  {
    var n := |r.data|;
    assert r.data[pos + 1..PartEnd(n, pos)] == r.data[pos + 1..][..PartEnd(n, pos) - pos - 1];
    assert q.data[pos + 1..PartEnd(n, pos)] == q.data[pos + 1..][..PartEnd(n, pos) - pos - 1];
    if MoreAfter(n, pos) {
      assert r.data[pos + 20..] == r.data[pos + 1..][19..];
      assert q.data[pos + 20..] == q.data[pos + 1..][19..];
      PartsIgnoreSentBytes(r, q, pos + 19);
    }
  }

  // ---- what is still to be written -----------------------------------------------------------------

  /** The writes that will follow if nothing else is queued. */
  ghost function Pending(s: Sender): seq<Write>
    requires SenderOk(s)
  {
    if s.queue == [] then []
    else
      assert s.queue[0] in s.queue;
      HeadParts(s.queue[0], s.sendPosition, s.reliableFree > 0) + AllParts(s.queue[1..])
  }

  /** What is still to be written of the head packet, whose part at `pos` is out or not. */
  function HeadParts(r: Record, pos: nat, ready: bool): seq<Write>
    requires pos < |r.data|
  {
    if ready then Parts(r, pos)
    else if MoreAfter(|r.data|, pos) then Parts(r, pos + MTU - SPLIT_HEADER)
    else []
  }

  /** The header written over a sent byte makes the part that the receiver expects. */
  lemma {:induction false} PartWritten(r: Record, pos: nat)
    requires pos < |r.data| && NeedsRequest(r)
    ensures
      var n := |r.data|;
      var d := SetByte(r.data, pos, Marked(r.data[0], MoreAfter(n, pos)));
      Parts(r, pos) == [Write(d[pos..PartEnd(n, pos)], true)]
                       + if MoreAfter(n, pos) then Parts(Record(r.reliable, d), pos + 19) else []
  {
    var n := |r.data|;
    var d := SetByte(r.data, pos, Marked(r.data[0], MoreAfter(n, pos)));
    assert d[pos..PartEnd(n, pos)] == [Marked(r.data[0], MoreAfter(n, pos))] + r.data[pos + 1..PartEnd(n, pos)];
    if MoreAfter(n, pos) {
      assert d[pos + 20..] == r.data[pos + 20..];
      PartsIgnoreSentBytes(r, Record(r.reliable, d), pos + 19);
    }
  }

  lemma {:induction false} SendPartPending(s: Sender)
    requires SenderOk(s) && s.queue != [] && NeedsRequest(s.queue[0]) && s.reliableFree > 0
    ensures CanStep(s) && SenderOk(SendStep(s).tx)
    ensures Pending(s) == SendStep(s).writes + Pending(SendStep(s).tx)
  {
    StepKeepsSender(s);
    var r, t := s.queue[0], SendStep(s).tx;
    PartWritten(r, s.sendPosition);
    assert t.queue[1..] == s.queue[1..] && t.reliableFree == 0 && t.sendPosition == s.sendPosition;
    Regroup(SendStep(s).writes, HeadParts(t.queue[0], t.sendPosition, false), AllParts(s.queue[1..]));
  }

  lemma {:induction false} SendWholePending(s: Sender)
    requires SenderOk(s) && s.queue != [] && !NeedsRequest(s.queue[0]) && s.unreliableFree > 0
    ensures CanStep(s) && SenderOk(SendStep(s).tx)
    ensures Pending(s) == SendStep(s).writes + Pending(SendStep(s).tx)
  {
    StepKeepsSender(s);
    var r, t := s.queue[0], SendStep(s).tx;
    var d := SetByte(r.data, 0, Marked(r.data[0], false));
    assert d == [Marked(r.data[0], false)] + r.data[1..|r.data|];
    assert Parts(r, 0) == [Write(d, false)];
    PendingFromStart(t);
  }

  lemma {:induction false} BlockedPending(s: Sender)
    requires SenderOk(s) && s.queue != [] && Exhausted(s)
    ensures CanStep(s) && SenderOk(SendStep(s).tx) && SendStep(s).writes == []
    ensures Pending(s) == Pending(SendStep(s).tx)
  {
    StepKeepsSender(s);
    var r, t := s.queue[0], SendStep(s).tx;
    assert t.queue[1..] == s.queue[1..];
    if |r.data| <= MTU {
      PartsIgnoreSentBytes(r, t.queue[0], 0);
    }
  }

  lemma {:induction false} StepPending(s: Sender)
    requires SenderOk(s) && s.queue != []
    ensures CanStep(s) && SenderOk(SendStep(s).tx)
    ensures Pending(s) == SendStep(s).writes + Pending(SendStep(s).tx)
  {
    if Exhausted(s) {
      BlockedPending(s);
    } else if NeedsRequest(s.queue[0]) {
      SendPartPending(s);
    } else {
      SendWholePending(s);
    }
  }

  lemma {:induction false} PendingFromStart(s: Sender)
    requires SenderOk(s) && s.reliableFree > 0 && s.sendPosition == 0
    ensures Pending(s) == AllParts(s.queue)
  {
  }

  lemma {:induction false} DrainPending(s: Sender)
    requires SenderOk(s)
    ensures Pending(s) == Drain(s).writes + Pending(Drain(s).tx)
    decreases s.reliableFree + s.unreliableFree
  {
    if s.queue == [] {
    } else {
      StepPending(s);
      var step := SendStep(s);
      if !step.blocked {
        PassAdvances(s, []);
        DrainPending(step.tx);
        Regroup(step.writes, Drain(step.tx).writes, Pending(Drain(s).tx));
      }
    }
  }

  lemma {:induction false} ResponsePending(s: Sender)
    requires SenderOk(s) && s.reliableFree == 0
    ensures CanStep(s) && SenderOk(OnResponse(s)) && Pending(OnResponse(s)) == Pending(s)
    ensures
      var t := OnResponse(s);
      && t.reliableFree == s.reliableFree + 1 && t.unreliableFree == s.unreliableFree
      && if s.queue[0].data[s.sendPosition] % 2 == 0 then t.queue == s.queue[1..] && t.sendPosition == 0
         else t.queue == s.queue && t.sendPosition == s.sendPosition + 19
  {
    ResponseKeepsSender(s);
    if !HasMore(s.queue[0].data[s.sendPosition]) {
      PendingFromStart(OnResponse(s));
    }
  }

  lemma {:induction false} AllPartsAppend(rs: seq<Record>, r: Record)
    requires |r.data| > 0 && forall x :: x in rs ==> |x.data| > 0
    ensures AllParts(rs + [r]) == AllParts(rs) + Parts(r, 0)
  {
    if rs == [] {
      assert [r][1..] == [];
    } else {
      assert (rs + [r])[1..] == rs[1..] + [r];
      AllPartsAppend(rs[1..], r);
      Regroup(Parts(rs[0], 0), AllParts(rs[1..]), Parts(r, 0));
    }
  }

  lemma {:induction false} QueueKeepsSender(s: Sender, r: Record)
    requires SenderOk(s) && 0 < |r.data| <= REASSEMBLY_BUFFER
    ensures SenderOk(s.(queue := s.queue + [r]))
  {
  }

  lemma {:induction false} QueuePending(s: Sender, r: Record)
    requires SenderOk(s) && 0 < |r.data| <= REASSEMBLY_BUFFER
    ensures
      var t := s.(queue := s.queue + [r]);
      SenderOk(t) && Pending(t) == Pending(s) + Parts(r, 0)
  {
    QueueKeepsSender(s, r);
    var q := s.queue + [r];
    if s.queue == [] {
      assert q == [r] && [r][1..] == [];
      assert Pending(s.(queue := q)) == Parts(r, 0) + AllParts([]);
    } else {
      assert q[0] == s.queue[0] && q[1..] == s.queue[1..] + [r];
      AllPartsAppend(s.queue[1..], r);
      Regroup(HeadParts(s.queue[0], s.sendPosition, s.reliableFree > 0), AllParts(s.queue[1..]), Parts(r, 0));
    }
  }

  // ---- the receiver ----------------------------------------------------------------------------------

  /** `partial` is what the reassembly buffer holds up to the reassembly position. */
  datatype Receiver = Receiver(partial: seq<u8>, delivered: seq<Record>)

  function Receive(rx: Receiver, w: Write): Receiver
    requires w.bytes != []
  {
    if rx.partial == [] && !HasMore(w.bytes[0]) then Delivered(rx, w.request, w.bytes)
    else if rx.partial == [] then rx.(partial := w.bytes)
    else if HasMore(w.bytes[0]) then rx.(partial := rx.partial + w.bytes[SPLIT_HEADER..])
    else Delivered(rx, w.request, rx.partial + w.bytes[SPLIT_HEADER..])
  }

  /** Packets longer than the reassembly buffer cannot come out of it. */
  function Delivered(rx: Receiver, request: bool, d: seq<u8>): Receiver {
    if |d| <= REASSEMBLY_BUFFER then Receiver([], rx.delivered + [Record(request, d)]) else Receiver([], rx.delivered)
  }

  function ReceiveAll(rx: Receiver, ws: seq<Write>): Receiver
    requires forall w :: w in ws ==> w.bytes != []
    decreases ws
  {
    if ws == [] then rx else ReceiveAll(Receive(rx, ws[0]), ws[1..])
  }

  /** How a packet looks to the receiver: the original up to the more-parts bit of its first byte,
      marked as reliable if it was sent so or had to be split. */
  function Arrived(r: Record): Record
    requires |r.data| > 0
  {
    Record(NeedsRequest(r), SetByte(r.data, 0, Marked(r.data[0], |r.data| > MTU)))
  }

  /** The record has the packet's bytes and message type, and says whether it was sent by requests. */
  ghost predicate IsCopy(d: Record, r: Record)
    requires |r.data| > 0
  {
    && (d.reliable <==> r.reliable || |r.data| > 20)
    && |d.data| == |r.data| && d.data[0] / 2 == r.data[0] / 2 && d.data[1..] == r.data[1..]
  }

  lemma {:induction false} ArrivedIsCopy(r: Record)
    requires |r.data| > 0
    ensures IsCopy(Arrived(r), r)
  {
    MarkedKeepsType(r.data[0], |r.data| > MTU);
  }

  lemma {:induction false} AllArrivedAt(rs: seq<Record>, i: nat)
    requires (forall r :: r in rs ==> |r.data| > 0) && i < |rs|
    ensures |AllArrived(rs)| == |rs| && AllArrived(rs)[i] == Arrived(rs[i]) && IsCopy(AllArrived(rs)[i], rs[i])
  {
    ArrivedIsCopy(rs[0]);
    if |rs| == 1 {
    } else {
      AllArrivedAt(rs[1..], if i > 0 then i - 1 else 0);
    }
  }

  lemma {:induction false} PrefixCopies(ds: seq<Record>, rs: seq<Record>)
    requires (forall r :: r in rs ==> |r.data| > 0) && ds <= AllArrived(rs)
    ensures |ds| <= |rs| && (|ds| == |AllArrived(rs)| ==> |ds| == |rs|)
    ensures forall i :: 0 <= i < |ds| ==> IsCopy(ds[i], rs[i])
  {
    if rs == [] {
    } else {
      AllArrivedAt(rs, 0);
    }
    forall i | 0 <= i < |ds| ensures IsCopy(ds[i], rs[i]) {
      AllArrivedAt(rs, i);
    }
  }

  function AllArrived(rs: seq<Record>): seq<Record>
    requires forall r :: r in rs ==> |r.data| > 0
  {
    if rs == [] then [] else [Arrived(rs[0])] + AllArrived(rs[1..])
  }

  lemma {:induction false} PartsNotEmpty(r: Record, pos: nat)
    requires pos < |r.data|
    ensures forall w :: w in Parts(r, pos) ==> w.bytes != []
    decreases |r.data| - pos
  {
    if !MoreAfter(|r.data|, pos) {
    } else {
      PartsNotEmpty(r, pos + 19);
    }
  }

  lemma {:induction false} AllPartsNotEmpty(rs: seq<Record>)
    requires forall r :: r in rs ==> |r.data| > 0
    ensures forall w :: w in AllParts(rs) ==> w.bytes != []
  {
    if rs == [] {
    } else {
      PartsNotEmpty(rs[0], 0);
      AllPartsNotEmpty(rs[1..]);
    }
  }

  lemma {:induction false} ReceiveAllAppend(rx: Receiver, vs: seq<Write>, ws: seq<Write>)
    requires (forall w :: w in vs ==> w.bytes != []) && (forall w :: w in ws ==> w.bytes != [])
    requires forall w :: w in vs + ws ==> w.bytes != []
    ensures ReceiveAll(rx, vs + ws) == ReceiveAll(ReceiveAll(rx, vs), ws)
    decreases vs
  {
    if vs == [] {
      assert vs + ws == ws;
    } else {
      assert (vs + ws)[0] == vs[0] && (vs + ws)[1..] == vs[1..] + ws;
      ReceiveAllAppend(Receive(rx, vs[0]), vs[1..], ws);
    }
  }

  /** Reassembly undoes the split, from any part on. */
  lemma {:induction false} PartsReassemble(r: Record, pos: nat, rx: Receiver)
    requires pos < |r.data| <= REASSEMBLY_BUFFER
    requires if pos == 0 then rx.partial == [] else rx.partial == Arrived(r).data[..pos + 1] && |r.data| > MTU
    requires forall w :: w in Parts(r, pos) ==> w.bytes != []
    ensures ReceiveAll(rx, Parts(r, pos)) == Receiver([], rx.delivered + [Arrived(r)]) && IsCopy(Arrived(r), r)
    decreases |r.data| - pos
  {
    ArrivedIsCopy(r);
    var n, ps := |r.data|, Parts(r, pos);
    var rx' := Receive(rx, ps[0]);
    if MoreAfter(n, pos) {
      assert rx'.partial == Arrived(r).data[..pos + 20];
      assert ps[1..] == Parts(r, pos + 19);
      PartsReassemble(r, pos + 19, rx');
    } else {
      assert ps[1..] == [];
      assert rx' == Receiver([], rx.delivered + [Arrived(r)]) by {
        if pos == 0 {
          assert ps[0].bytes == Arrived(r).data;
        } else {
          assert rx.partial + ps[0].bytes[1..] == Arrived(r).data;
        }
      }
    }
  }

  lemma {:induction false} FirstReassembles(r: Record, rest: seq<Write>, rx: Receiver)
    requires rx.partial == [] && 0 < |r.data| <= REASSEMBLY_BUFFER
    requires (forall w :: w in rest ==> w.bytes != []) && forall w :: w in Parts(r, 0) + rest ==> w.bytes != []
    ensures ReceiveAll(rx, Parts(r, 0) + rest) == ReceiveAll(Receiver([], rx.delivered + [Arrived(r)]), rest)
  {
    PartsNotEmpty(r, 0);
    PartsReassemble(r, 0, rx);
    ReceiveAllAppend(rx, Parts(r, 0), rest);
  }

  lemma {:induction false} AllPartsReassemble(rs: seq<Record>, rx: Receiver)
    requires rx.partial == [] && forall r :: r in rs ==> 0 < |r.data| <= REASSEMBLY_BUFFER
    requires forall w :: w in AllParts(rs) ==> w.bytes != []
    ensures ReceiveAll(rx, AllParts(rs)) == Receiver([], rx.delivered + AllArrived(rs))
    decreases rs
  {
    if rs == [] {
    } else {
      AllPartsNotEmpty(rs[1..]);
      FirstReassembles(rs[0], AllParts(rs[1..]), rx);
      var next := Receiver([], rx.delivered + [Arrived(rs[0])]);
      AllPartsReassemble(rs[1..], next);
      assert next.delivered + AllArrived(rs[1..]) == rx.delivered + AllArrived(rs);
    }
  }

  lemma {:induction false} ReceiveOnlyAdds(rx: Receiver, ws: seq<Write>)
    requires forall w :: w in ws ==> w.bytes != []
    ensures rx.delivered <= ReceiveAll(rx, ws).delivered
    decreases ws
  {
    if ws == [] {
    } else {
      ReceiveOnlyAdds(Receive(rx, ws[0]), ws[1..]);
    }
  }

  // ---- runs of one direction of a link -----------------------------------------------------------------

  /** `air` are the writes under way, in order; `answered` says that a response is under way back;
      `accepted` and `arrived` record what was queued and what has arrived so far. */
  datatype Link = Link(tx: Sender, air: seq<Write>, answered: bool, rx: Receiver, accepted: seq<Record>, arrived: seq<Write>)

  predicate Sendable(r: Record) {
    0 < |r.data| <= REASSEMBLY_BUFFER
  }

  datatype Event = Queue(r: Record) | Fill | Arrive | Respond | TxComplete(count: nat)

  ghost predicate Enabled(l: Link, e: Event) {
    match e
    case Queue(r) => Sendable(r)
    case Fill => SenderOk(l.tx)
    case Arrive => l.air != [] && l.air[0].bytes != []
    case Respond => l.answered && CanStep(l.tx)
    case TxComplete(_) => true
  }

  function Apply(l: Link, e: Event): Link
    requires Enabled(l, e)
  {
    match e
    case Queue(r) => l.(tx := l.tx.(queue := l.tx.queue + [r]), accepted := l.accepted + [r])
    case Fill => l.(tx := Drain(l.tx).tx, air := l.air + Drain(l.tx).writes)
    case Arrive => l.(air := l.air[1..], answered := l.answered || l.air[0].request,
                      rx := Receive(l.rx, l.air[0]), arrived := l.arrived + [l.air[0]])
    case Respond => l.(tx := OnResponse(l.tx), answered := false)
    case TxComplete(count) => l.(tx := l.tx.(unreliableFree := l.tx.unreliableFree + count))
  }

  function Idle(buffers: nat): Link {
    Link(Sender([], 0, 1, buffers), [], false, Receiver([], []), [], [])
  }

  function Requests(ws: seq<Write>): nat {
    if ws == [] then 0 else (if ws[0].request then 1 else 0) + Requests(ws[1..])
  }

  /** Arrived, under way and still to be sent: together always exactly the parts of what was accepted. */
  ghost predicate LinkOk(l: Link) {
    && SenderOk(l.tx)
    && (forall r :: r in l.accepted ==> Sendable(r))
    && (forall w :: w in l.arrived ==> w.bytes != [])
    && l.arrived + l.air + Pending(l.tx) == AllParts(l.accepted)
    && l.rx == ReceiveAll(Receiver([], []), l.arrived)
    && l.tx.reliableFree + Requests(l.air) + (if l.answered then 1 else 0) == 1
  }

  lemma {:induction false} RequestsAppend(vs: seq<Write>, ws: seq<Write>)
    ensures Requests(vs + ws) == Requests(vs) + Requests(ws)
  {
    if vs == [] {
      assert vs + ws == ws;
    } else {
      assert (vs + ws)[1..] == vs[1..] + ws;
      RequestsAppend(vs[1..], ws);
    }
  }

  lemma {:induction false} DrainRequests(s: Sender)
    requires SenderOk(s)
    ensures Drain(s).tx.reliableFree + Requests(Drain(s).writes) == s.reliableFree
    decreases s.reliableFree + s.unreliableFree
  {
    if s.queue == [] {
    } else {
      StepKeepsSender(s);
      var step := SendStep(s);
      if !step.blocked {
        DrainRequests(step.tx);
        assert step.writes[1..] == [];
        RequestsAppend(step.writes, Drain(step.tx).writes);
      }
    }
  }

  lemma {:induction false} QueueKeeps(l: Link, r: Record)
    requires LinkOk(l) && Sendable(r)
    ensures LinkOk(Apply(l, Queue(r)))
  {
    QueuePending(l.tx, r);
    AllPartsAppend(l.accepted, r);
  }

  lemma {:induction false} FillKeeps(l: Link)
    requires LinkOk(l)
    ensures LinkOk(Apply(l, Fill))
  {
    var p := Drain(l.tx);
    DrainPending(l.tx);
    DrainRequests(l.tx);
    RequestsAppend(l.air, p.writes);
    Regroup(l.arrived, l.air, p.writes);
    Regroup(l.arrived + l.air, p.writes, Pending(p.tx));
  }

  lemma {:induction false} ArriveKeeps(l: Link)
    requires LinkOk(l) && l.air != []
    ensures l.air[0].bytes != [] && LinkOk(Apply(l, Arrive))
  {
    var w := l.air[0];
    AllPartsNotEmpty(l.accepted);
    assert w == AllParts(l.accepted)[|l.arrived|];
    assert l.arrived + l.air == l.arrived + [w] + l.air[1..];
    ReceiveAllAppend(Receiver([], []), l.arrived, [w]);
    assert ReceiveAll(l.rx, [w]) == Receive(l.rx, w) by {
      assert [w][1..] == [];
    }
  }

  lemma {:induction false} RespondKeeps(l: Link)
    requires LinkOk(l) && l.answered
    ensures CanStep(l.tx) && LinkOk(Apply(l, Respond))
  {
    ResponsePending(l.tx);
  }

  lemma {:induction false} ApplyKeeps(l: Link, e: Event)
    requires LinkOk(l) && Enabled(l, e)
    ensures LinkOk(Apply(l, e))
  {
    match e
    case Queue(r) => QueueKeeps(l, r);
    case Fill => FillKeeps(l);
    case Arrive => ArriveKeeps(l);
    case Respond => RespondKeeps(l);
    case TxComplete(_) =>
  }

  ghost predicate IsRun(run: seq<Link>, es: seq<Event>) {
    && |run| == |es| + 1
    && (exists buffers: nat :: run[0] == Idle(buffers))
    && forall i :: 0 <= i < |es| ==> Enabled(run[i], es[i]) && run[i + 1] == Apply(run[i], es[i])
  }

  lemma {:induction false} RunKeeps(run: seq<Link>, es: seq<Event>)
    requires IsRun(run, es)
    ensures LinkOk(run[|es|])
  {
    if es == [] {
    } else {
      RunKeeps(run[..|es|], es[..|es| - 1]);
      ApplyKeeps(run[|es| - 1], es[|es| - 1]);
    }
  }

  /** On every run the packets handed over are, in order, a prefix of those accepted, each equal to
      the original up to the more-parts bit, whatever mix of reliable and unreliable packets. */
  lemma {:induction false} DeliveredIsPrefix(run: seq<Link>, es: seq<Event>)
    requires IsRun(run, es)
    ensures
      var l := run[|es|];
      && (forall r :: r in l.accepted ==> Sendable(r)) && l.rx.delivered <= AllArrived(l.accepted)
      && |l.rx.delivered| <= |l.accepted|
      && forall i :: 0 <= i < |l.rx.delivered| ==> IsCopy(l.rx.delivered[i], l.accepted[i])
  {
    RunKeeps(run, es);
    var l, start := run[|es|], Receiver([], []);
    AllPartsNotEmpty(l.accepted);
    var rest := l.air + Pending(l.tx);
    assert AllParts(l.accepted) == l.arrived + rest;
    assert forall w :: w in rest ==> w in AllParts(l.accepted);
    ReceiveAllAppend(start, l.arrived, rest);
    ReceiveOnlyAdds(l.rx, rest);
    AllPartsReassemble(l.accepted, start);
    PrefixCopies(l.rx.delivered, l.accepted);
  }

  /** Once the queue has run empty and nothing is under way, every accepted packet was delivered. */
  lemma {:induction false} DrainedDeliversAll(run: seq<Link>, es: seq<Event>)
    requires IsRun(run, es) && run[|es|].tx.queue == [] && run[|es|].air == []
    ensures
      var l := run[|es|];
      && (forall r :: r in l.accepted ==> Sendable(r)) && l.rx == Receiver([], AllArrived(l.accepted))
      && |l.rx.delivered| == |l.accepted|
      && forall i :: 0 <= i < |l.accepted| ==> IsCopy(l.rx.delivered[i], l.accepted[i])
  {
    RunKeeps(run, es);
    var l := run[|es|];
    AllPartsNotEmpty(l.accepted);
    assert l.arrived == AllParts(l.accepted);
    AllPartsReassemble(l.accepted, Receiver([], []));
    PrefixCopies(l.rx.delivered, l.accepted);
  }

  /** Every packet of 1 to 200 bytes can be queued at any time, and on every run there is one request
      buffer, one request or one response under way. */
  lemma {:induction false} OneRequestAtATime(run: seq<Link>, es: seq<Event>, r: Record)
    requires IsRun(run, es)
    ensures 0 < |r.data| <= 200 ==> Enabled(run[|es|], Queue(r))
    ensures
      var l := run[|es|];
      && (if l.tx.reliableFree == 1 then !l.answered && (forall w :: w in l.air ==> !w.request)
          else l.tx.reliableFree == 0 && (l.answered <==> forall w :: w in l.air ==> !w.request))
  {
    RunKeeps(run, es);
    NoRequests(run[|es|].air);
  }

  lemma {:induction false} NoRequests(ws: seq<Write>)
    ensures Requests(ws) == 0 <==> forall w :: w in ws ==> !w.request
  {
    if ws == [] {
    } else {
      NoRequests(ws[1..]);
    }
  }
}

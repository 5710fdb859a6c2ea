/** Votes are kept in the retry storage and sent again until a gateway acknowledges them. */
module Voting {
  import opened Bytes
  import opened R = RetryStorage

  datatype Message = Vote(sender: nat, data: seq<u8>) | Ack(receiver: nat, data: seq<u8>)

  function IdBytes(id: nat): seq<u8> {
    [id % 256, id / 256 % 256]
  }

  function TimeBytes(time: nat): seq<u8> {
    [time / 0x100_0000 % 256, time / 0x1_0000 % 256, time / 0x100 % 256, time % 256]
  }

  function DecodeId(data: seq<u8>): nat
    requires |data| >= 2
  {
    data[1] as nat * 256 + data[0] as nat
  }

  function VoteMessage(sender: nat, id: nat, time: nat): Message {
    Vote(sender, IdBytes(id) + TimeBytes(time))
  }

  /** The gateway reads the time from the highest byte down. */
  function DecodeTime(data: seq<u8>): nat
    requires |data| >= 6
  {
    data[2] as nat * 0x100_0000 + data[3] as nat * 0x1_0000 + data[4] as nat * 0x100 + data[5] as nat
  }

  lemma HighBytesFirst(t: nat)
    requires t < 0x1_0000_0000
    ensures t == t / 0x100_0000 % 256 * 0x100_0000 + t / 0x1_0000 % 256 * 0x1_0000 + t / 0x100 % 256 * 0x100 + t % 256
  {
    var a := t / 0x100;
    var b := a / 0x100;
    var c := b / 0x100;
    assert b == t / 0x1_0000 && c == t / 0x100_0000 && c < 0x100;
  }

  /** What a voter puts into a vote is what a gateway reads from it. */
  lemma VoteSurvives(sender: nat, id: nat, time: nat)
    requires id < 0x1_0000 && time < 0x1_0000_0000
    ensures
      var m := VoteMessage(sender, id, time);
      && m.Vote? && m.sender == sender && |m.data| == 6
      && m.data[1] as nat * 256 + m.data[0] as nat == id
      && DecodeId(m.data) == id && DecodeTime(m.data) == time
      && m.data[2] as nat * 0x100_0000 + m.data[3] as nat * 0x1_0000 + m.data[4] as nat * 0x100 + m.data[5] as nat == time
  {
    HighBytesFirst(time);
    assert VoteMessage(sender, id, time).data[2..] == TimeBytes(time);
    IdSurvives(sender, id, time);
  }

  lemma IdSurvives(sender: nat, id: nat, time: nat)
    requires id < 0x1_0000
    ensures DecodeId(VoteMessage(sender, id, time).data) == id
    ensures DecodeId(VoteMessage(sender, id, time).data[..2]) == id
  {
    assert VoteMessage(sender, id, time).data[..2] == IdBytes(id);
  }

  /** Does `vote` report success and send the vote out? */
  predicate Accepts(es: seq<Entry>, id: nat) {
    if id == 0 then |es| < CAPACITY else Takes(es, id)
  }

  /** A vote is accepted exactly if its id is stored already or there is room, and an accepted one is
      kept for a retry exactly when its id is not 0. */
  lemma AcceptedIsStored(es: seq<Entry>, id: nat, now: nat)
    requires Distinct(es) && |es| <= CAPACITY
    ensures Accepts(es, id) <==> HasId(es, id) || |es| < 96
    ensures Accepts(es, id) ==> (HasId(With(es, id, now), id) <==> id != 0)
  {
    WithHas(es, id, now, id);
  }

  // ---- one node --------------------------------------------------------------------------------

  function Renewed(es: seq<Entry>, n: nat, now: nat): seq<Entry>
    requires n <= |es|
  {
    seq(|es|, i requires 0 <= i < |es| => if i < n then Entry(es[i].id, now) else es[i])
  }

  /** One vote message for each of the first `n` stored ids. */
  function Resent(sender: nat, es: seq<Entry>, n: nat, now: nat): seq<Message>
    requires n <= |es|
  {
    seq(n, i requires 0 <= i < |es| => VoteMessage(sender, es[i].id, now))
  }

  lemma RenewedNext(es: seq<Entry>, n: nat, now: nat)
    requires Distinct(es) && n < |es|
    ensures With(Renewed(es, n, now), es[n].id, now) == Renewed(es, n + 1, now)
    ensures Accepts(Renewed(es, n, now), es[n].id)
  {
    var r := Renewed(es, n, now);
    assert r[n].id == es[n].id;
    assert forall i :: 0 <= i < |es| ==> r[i].id == es[i].id;
  }

  class VotingNode {
    const id: nat
    const isGateway: bool
    const storage: RetryStorage
    var outbox: seq<Message>

    ghost predicate Valid()
      reads this, storage, storage.retry, storage.time
    {
      storage.Valid()
    }

    constructor (id: nat, isGateway: bool)
      ensures Valid() && storage.Entries() == [] && outbox == []
    {
      this.id, this.isGateway, outbox := id, isGateway, [];
      storage := new RetryStorage();
    }

    /** Stores a vote and sends it with the time stored; for id 0 that is whatever a free slot holds. */
    method Vote(userId: nat, now: nat) returns (ghost sentTime: nat)
      requires Valid()
      modifies this, storage, storage.retry, storage.time
      ensures Valid() && storage.Entries() == With(old(storage.Entries()), userId, now)
      ensures userId != 0 ==> sentTime == now
      ensures outbox == old(outbox)
        + if Accepts(old(storage.Entries()), userId) then [VoteMessage(id, userId, sentTime)] else []
      ensures |outbox| > |old(outbox)| <==> HasId(old(storage.Entries()), userId) || |old(storage.Entries())| < 96
    {
      WithHas(storage.Entries(), userId, now, userId);
      sentTime := now;
      var success := storage.Put(userId, now);
      if success {
        var time := storage.GetTimeFor(userId);
        sentTime := time;
        outbox := outbox + [VoteMessage(id, userId, time)];
      }
    }

    /** The retry timer fired: every stored vote is sent once more, in order, with the new time. */
    method TimerEvent(now: nat)
      requires Valid()
      modifies this, storage, storage.retry, storage.time
      ensures Valid()
      ensures
        var es := old(storage.Entries());
        if isGateway then storage.Entries() == es && outbox == old(outbox)
        else storage.Entries() == Renewed(es, |es|, now) && outbox == old(outbox) + Resent(id, es, |es|, now)
      ensures
        var es := old(storage.Entries());
        && |storage.Entries()| == |es|
        && |outbox| == |old(outbox)| + (if isGateway then 0 else |es|)
        && forall i :: 0 <= i < |es| && !isGateway ==>
             && storage.Entries()[i] == Entry(es[i].id, now)
             && outbox[|old(outbox)| + i] == VoteMessage(id, es[i].id, now)
    {
      if isGateway {
        return;
      }
      ghost var es := storage.Entries();
      for i := 0 to CAPACITY
        invariant Valid()
        invariant var n := if i < |es| then i else |es|;
          storage.Entries() == Renewed(es, n, now) && outbox == old(outbox) + Resent(id, es, n, now)
      {
        ghost var was := storage.Entries();
        assert i < |es| ==> storage.retry[i] == was[i].id == es[i].id != 0;
        if storage.retry[i] != 0 {
          RenewedNext(es, i, now);
          ghost var time := Vote(storage.retry[i], now);
          assert Resent(id, es, i + 1, now) == Resent(id, es, i, now) + [VoteMessage(id, es[i].id, now)];
        }
      }
    }

    /** A gateway answers a vote with the two id bytes as they came. */
    method OnVote(sender: nat, data: seq<u8>)
      requires Valid() && |data| >= 2
      modifies this
      ensures outbox == old(outbox) + if isGateway then [Ack(sender, data[..2])] else []
    {
      if isGateway {
        outbox := outbox + [Ack(sender, data[..2])];
      }
    }

    method OnAck(data: seq<u8>)
      requires Valid() && |data| >= 2
      modifies storage, storage.retry, storage.time
      ensures Valid() && storage.Entries() == Without(old(storage.Entries()), DecodeId(data))
      ensures OthersStay(old(storage.Entries()), storage.Entries(), data[1] as nat * 256 + data[0] as nat)
    {
      storage.Remove(data[1] as nat * 256 + data[0] as nat);
    }
  }

  // ---- a network of voters and gateways ----------------------------------------------------------

  /** A message on the way; `cast` is the number of the accepted vote that it carries or acknowledges.
      The number is not in the packet: it only serves to tell votes with the same id apart here. */
  datatype Packet = Packet(m: Message, cast: nat)

  /** `sent` are all packets ever sent. A packet may arrive late, often, or never; a node may act on
      any packet sent before. `casts` are the voters and ids of all accepted votes, `latest` the last
      of them for each voter and id, `received` those that reached a gateway, and `overtaken` those
      whose voter, having none later, handled the acknowledgement of an earlier one. */
  datatype Net = Net(
    stores: map<nat, seq<Entry>>, gateways: set<nat>, sent: set<Packet>,
    casts: seq<(nat, nat)>, latest: map<(nat, nat), nat>, received: set<nat>, overtaken: set<nat>)

  datatype Event =
    | Voted(voter: nat, id: nat, now: nat, time: nat)
    | Retried(voter: nat, now: nat)
    | AtGateway(gateway: nat, p: Packet)
    | AtVoter(p: Packet)

  ghost predicate Enabled(s: Net, e: Event) {
    match e
    case Voted(voter, id, now, time) => voter in s.stores && id < 0x1_0000 && (id != 0 ==> time == now)
    case Retried(voter, _) => voter in s.stores && voter !in s.gateways
    case AtGateway(gateway, p) => gateway in s.gateways && p in s.sent && p.m.Vote? && |p.m.data| >= 2
    case AtVoter(p) => p in s.sent && p.m.Ack? && |p.m.data| >= 2 && p.m.receiver in s.stores
  }

  function Latest(s: Net, voter: nat, id: nat): nat {
    if (voter, id) in s.latest then s.latest[(voter, id)] else 0
  }

  /** The packets of a retry, numbered by the votes they repeat. */
  function Repeats(s: Net, voter: nat, es: seq<Entry>, now: nat): seq<Packet> {
    seq(|es|, i requires 0 <= i < |es| => Packet(VoteMessage(voter, es[i].id, now), Latest(s, voter, es[i].id)))
  }

  function Apply(s: Net, e: Event): Net
    requires Enabled(s, e)
  {
    match e
    case Voted(voter, id, now, time) =>
      var es := s.stores[voter];
      var t := s.(stores := s.stores[voter := With(es, id, now)]);
      if Accepts(es, id) then
        t.(sent := s.sent + {Packet(VoteMessage(voter, id, time), |s.casts|)},
           casts := s.casts + [(voter, id)], latest := s.latest[(voter, id) := |s.casts|])
      else t
    case Retried(voter, now) =>
      var es := s.stores[voter];
      s.(stores := s.stores[voter := Renewed(es, |es|, now)],
         sent := s.sent + set p | p in Repeats(s, voter, es, now))
    case AtGateway(_, p) =>
      s.(received := s.received + {p.cast}, sent := s.sent + {Packet(Ack(p.m.sender, p.m.data[..2]), p.cast)})
    case AtVoter(p) =>
      var v, id := p.m.receiver, DecodeId(p.m.data);
      s.(stores := s.stores[v := Without(s.stores[v], id)],
         overtaken := if Latest(s, v, id) == p.cast then s.overtaken else s.overtaken + {Latest(s, v, id)})
  }

  // ---- a node object takes the steps of the network ----------------------------------------------

  /** The store of `n` is the one that the network state has for it. */
  ghost predicate Represents(s: Net, n: VotingNode)
    reads n, n.storage, n.storage.retry, n.storage.time
    requires n.Valid()
  {
    n.id in s.stores && s.stores[n.id] == n.storage.Entries() && (n.isGateway <==> n.id in s.gateways)
  }

  function Messages(ps: set<Packet>): set<Message> {
    set p | p in ps :: p.m
  }

  /** The packets sent in this step carry exactly the messages that the node put in its outbox. */
  ghost predicate Sends(s: Net, t: Net, before: seq<Message>, after: seq<Message>) {
    before <= after && Messages(t.sent) == Messages(s.sent) + set m | m in after[|before|..]
  }

  method StepVote(n: VotingNode, userId: nat, now: nat, ghost s: Net) returns (ghost e: Event)
    requires n.Valid() && Represents(s, n) && userId < 0x1_0000
    modifies n, n.storage, n.storage.retry, n.storage.time
    ensures n.Valid() && Enabled(s, e) && e.Voted? && e.voter == n.id && e.id == userId && e.now == now
    ensures Represents(Apply(s, e), n) && Sends(s, Apply(s, e), old(n.outbox), n.outbox)
  {
    ghost var time := n.Vote(userId, now);
    e := Voted(n.id, userId, now, time);
  }

  method StepTimer(n: VotingNode, now: nat, ghost s: Net)
    requires n.Valid() && Represents(s, n)
    modifies n, n.storage, n.storage.retry, n.storage.time
    ensures n.Valid() && (Enabled(s, Retried(n.id, now)) <==> !n.isGateway)
    ensures
      var t := if n.isGateway then s else Apply(s, Retried(n.id, now));
      Represents(t, n) && Sends(s, t, old(n.outbox), n.outbox)
  {
    ghost var es := n.storage.Entries();
    n.TimerEvent(now);
    if !n.isGateway {
      RepeatsCarry(s, n.id, es, now);
    }
  }

  lemma RepeatsCarry(s: Net, voter: nat, es: seq<Entry>, now: nat)
    ensures Messages(set p | p in Repeats(s, voter, es, now)) == set m | m in Resent(voter, es, |es|, now)
  {
    var ps, ms := Repeats(s, voter, es, now), Resent(voter, es, |es|, now);
    assert forall i :: 0 <= i < |es| ==> ps[i].m == ms[i];
    forall m | m in ms ensures m in Messages(set p | p in ps) {
      var i :| 0 <= i < |es| && ms[i] == m;
      assert ps[i] in ps;
    }
  }

  method StepReceiveVote(n: VotingNode, p: Packet, ghost s: Net)
    requires n.Valid() && Represents(s, n) && p in s.sent && p.m.Vote? && |p.m.data| >= 2
    modifies n
    ensures n.Valid() && (Enabled(s, AtGateway(n.id, p)) <==> n.isGateway)
    ensures
      var t := if n.isGateway then Apply(s, AtGateway(n.id, p)) else s;
      Represents(t, n) && Sends(s, t, old(n.outbox), n.outbox)
  {
    n.OnVote(p.m.sender, p.m.data);
  }

  method StepReceiveAck(n: VotingNode, p: Packet, ghost s: Net)
    requires n.Valid() && Represents(s, n) && p in s.sent && p.m.Ack? && |p.m.data| >= 2 && p.m.receiver == n.id
    modifies n.storage, n.storage.retry, n.storage.time
    ensures n.Valid() && Enabled(s, AtVoter(p)) && Represents(Apply(s, AtVoter(p)), n)
    ensures Sends(s, Apply(s, AtVoter(p)), old(n.outbox), n.outbox)
  {
    n.OnAck(p.m.data);
  }

  // ---- what every run keeps ----------------------------------------------------------------------

  ghost predicate Pending(s: Net, voter: nat, id: nat) {
    voter in s.stores && HasId(s.stores[voter], id)
  }

  ghost predicate Accepted(s: Net, voter: nat, id: nat) {
    (voter, id) in s.casts
  }

  /** Has some vote of this voter with this id reached a gateway? */
  ghost predicate Received(s: Net, voter: nat, id: nat) {
    exists c :: c in s.received && c < |s.casts| && s.casts[c] == (voter, id)
  }

  /** A packet belongs to a vote of its voter with its id; an acknowledgement to one that a gateway has. */
  ghost predicate PacketOk(s: Net, p: Packet) {
    && |p.m.data| >= 2 && p.cast < |s.casts|
    && s.casts[p.cast] == (if p.m.Vote? then p.m.sender else p.m.receiver, DecodeId(p.m.data))
    && (p.m.Ack? ==> p.cast in s.received)
  }

  /** The latest vote is pending or received, unless it was overtaken. */
  ghost predicate CastOk(s: Net, k: (nat, nat))
    requires k in s.latest
  {
    var c := s.latest[k];
    && c < |s.casts| && s.casts[c] == k && (forall d :: c < d < |s.casts| ==> s.casts[d] != k)
    && (k.1 != 0 ==> Received(s, k.0, k.1) || Pending(s, k.0, k.1))
    && (k.1 != 0 && c !in s.received ==> (Pending(s, k.0, k.1) <==> c !in s.overtaken))
  }

  ghost predicate Inv(s: Net) {
    && (forall v :: v in s.stores ==> Distinct(s.stores[v]) && |s.stores[v]| <= CAPACITY)
    && (forall v: nat, id: nat :: Pending(s, v, id) ==> (v, id) in s.latest && id < 0x1_0000)
    && (forall p :: p in s.sent ==> PacketOk(s, p))
    && (forall c :: c in s.received || c in s.overtaken ==> c < |s.casts|)
    && (forall k :: k in s.latest ==> CastOk(s, k))
    && (forall k :: k in s.casts ==> k in s.latest)
  }

  lemma PacketsStayOk(s: Net, t: Net, p: Packet)
    requires PacketOk(s, p) && s.casts <= t.casts && s.received <= t.received
    ensures PacketOk(t, p)
  {
  }

  lemma ReceivedStays(s: Net, t: Net, v: nat, id: nat)
    requires Received(s, v, id) && s.casts <= t.casts && s.received <= t.received
    ensures Received(t, v, id)
  {
    var c :| c in s.received && c < |s.casts| && s.casts[c] == (v, id);
    assert t.casts[c] == (v, id);
  }

  lemma VotedKeepsCast(s: Net, voter: nat, id: nat, now: nat, time: nat, k: (nat, nat))
    requires Inv(s) && Enabled(s, Voted(voter, id, now, time))
    requires k in Apply(s, Voted(voter, id, now, time)).latest
    ensures CastOk(Apply(s, Voted(voter, id, now, time)), k)
  {
    var es, t := s.stores[voter], Apply(s, Voted(voter, id, now, time));
    WithHas(es, id, now, k.1);
    if k in s.latest {
      assert CastOk(s, k);
      if Received(s, k.0, k.1) {
        ReceivedStays(s, t, k.0, k.1);
      }
    }
  }

  lemma VotedKeeps(s: Net, voter: nat, id: nat, now: nat, time: nat)
    requires Inv(s) && Enabled(s, Voted(voter, id, now, time))
    ensures Inv(Apply(s, Voted(voter, id, now, time)))
  {
    var es, t := s.stores[voter], Apply(s, Voted(voter, id, now, time));
    IdSurvives(voter, id, time);
    forall v: nat, other: nat | Pending(t, v, other) ensures (v, other) in t.latest && other < 0x1_0000 {
      WithHas(es, id, now, other);
      assert Pending(s, v, other) || (v, other) == (voter, id);
    }
    WithHas(es, id, now, id);
    forall p | p in s.sent ensures PacketOk(t, p) {
      PacketsStayOk(s, t, p);
    }
    forall k | k in t.latest ensures CastOk(t, k) {
      VotedKeepsCast(s, voter, id, now, time, k);
    }
  }

  lemma RenewedHas(es: seq<Entry>, now: nat, id: nat)
    ensures HasId(Renewed(es, |es|, now), id) <==> HasId(es, id)
  {
    var r := Renewed(es, |es|, now);
    assert forall i :: 0 <= i < |es| ==> r[i].id == es[i].id;
  }

  lemma RetriedKeeps(s: Net, voter: nat, now: nat)
    requires Inv(s) && Enabled(s, Retried(voter, now))
    ensures Inv(Apply(s, Retried(voter, now)))
  {
    var es, t := s.stores[voter], Apply(s, Retried(voter, now));
    forall v, id ensures Pending(t, v, id) <==> Pending(s, v, id) {
      RenewedHas(es, now, id);
    }
    forall p | p in t.sent ensures PacketOk(t, p) {
      if p in s.sent {
        PacketsStayOk(s, t, p);
      } else {
        var i :| 0 <= i < |es| && p == Repeats(s, voter, es, now)[i];
        assert HasId(es, es[i].id) && Pending(s, voter, es[i].id) && CastOk(s, (voter, es[i].id));
        IdSurvives(voter, es[i].id, now);
      }
    }
    forall k | k in t.latest ensures CastOk(t, k) {
      SameCast(s, t, k);
    }
  }

  lemma SameCast(s: Net, t: Net, k: (nat, nat))
    requires k in s.latest && CastOk(s, k) && t.latest == s.latest && t.casts == s.casts && t.overtaken == s.overtaken
    requires s.received <= t.received && (Pending(t, k.0, k.1) <==> Pending(s, k.0, k.1))
    ensures CastOk(t, k)
  {
    if Received(s, k.0, k.1) {
      ReceivedStays(s, t, k.0, k.1);
    }
  }

  lemma AtGatewayKeeps(s: Net, gateway: nat, p: Packet)
    requires Inv(s) && Enabled(s, AtGateway(gateway, p))
    ensures Inv(Apply(s, AtGateway(gateway, p)))
  {
    var t := Apply(s, AtGateway(gateway, p));
    assert PacketOk(s, p);
    forall q | q in s.sent ensures PacketOk(t, q) {
      PacketsStayOk(s, t, q);
    }
    forall v, id ensures Pending(t, v, id) <==> Pending(s, v, id) {
    }
    forall k | k in t.latest ensures CastOk(t, k) {
      SameCast(s, t, k);
    }
  }

  lemma AtVoterKeepsCast(s: Net, p: Packet, k: (nat, nat))
    requires Inv(s) && Enabled(s, AtVoter(p)) && k in s.latest
    ensures CastOk(Apply(s, AtVoter(p)), k)
  {
    var v, id := p.m.receiver, DecodeId(p.m.data);
    var t := Apply(s, AtVoter(p));
    assert PacketOk(s, p) && CastOk(s, k) && s.casts[p.cast] in s.casts;
    WithoutHas(s.stores[v], id, k.1);
    if k == (v, id) {
      assert Received(t, v, id);
    } else {
      assert CastOk(s, (v, id));
      assert Pending(t, k.0, k.1) <==> Pending(s, k.0, k.1);
      if Received(s, k.0, k.1) {
        ReceivedStays(s, t, k.0, k.1);
      }
    }
  }

  lemma AtVoterKeeps(s: Net, p: Packet)
    requires Inv(s) && Enabled(s, AtVoter(p))
    ensures Inv(Apply(s, AtVoter(p)))
  {
    var v, id := p.m.receiver, DecodeId(p.m.data);
    var t := Apply(s, AtVoter(p));
    assert PacketOk(s, p) && s.casts[p.cast] in s.casts && CastOk(s, (v, id));
    WithoutDistinct(s.stores[v], id);
    WithoutHas(s.stores[v], id, id);
    forall w: nat, other: nat | Pending(t, w, other) ensures Pending(s, w, other) {
      WithoutHas(s.stores[v], id, other);
    }
    forall q | q in s.sent ensures PacketOk(t, q) {
      PacketsStayOk(s, t, q);
    }
    forall k | k in t.latest ensures CastOk(t, k) {
      AtVoterKeepsCast(s, p, k);
    }
  }

  lemma ApplyKeeps(s: Net, e: Event)
    requires Inv(s) && Enabled(s, e)
    ensures Inv(Apply(s, e))
  {
    match e
    case Voted(voter, id, now, time) => VotedKeeps(s, voter, id, now, time);
    case Retried(voter, now) => RetriedKeeps(s, voter, now);
    case AtGateway(gateway, p) => AtGatewayKeeps(s, gateway, p);
    case AtVoter(p) => AtVoterKeeps(s, p);
  }

  ghost predicate IsRun(run: seq<Net>, es: seq<Event>) {
    && |run| == |es| + 1
    && (forall v :: v in run[0].stores ==> run[0].stores[v] == [])
    && run[0].sent == {} && run[0].casts == [] && run[0].latest == map[] && run[0].received == run[0].overtaken == {}
    && forall i :: 0 <= i < |es| ==> Enabled(run[i], es[i]) && run[i + 1] == Apply(run[i], es[i])
  }

  lemma {:induction false} RunKeeps(run: seq<Net>, es: seq<Event>)
    requires IsRun(run, es)
    ensures Inv(run[|es|])
  {
    if es == [] {
    } else {
      RunKeeps(run[..|es|], es[..|es| - 1]);
      ApplyKeeps(run[|es| - 1], es[|es| - 1]);
    }
  }

  // ---- main results --------------------------------------------------------------------------------

  /** Over any run with loss, duplication and reordering, an accepted vote with an id other than 0
      has reached a gateway or is still stored; gateways receive accepted votes only. */
  lemma NoVoteIsLost(run: seq<Net>, es: seq<Event>, voter: nat, id: nat)
    requires IsRun(run, es)
    ensures Accepted(run[|es|], voter, id) && id != 0 ==> Received(run[|es|], voter, id) || Pending(run[|es|], voter, id)
    ensures Received(run[|es|], voter, id) ==> Accepted(run[|es|], voter, id)
  {
    RunKeeps(run, es);
    if Accepted(run[|es|], voter, id) {
      assert CastOk(run[|es|], (voter, id));
    }
  }

  /** Votes cast again with the same id are told apart by nothing in the packets. While the last of
      them has not reached a gateway it is still stored exactly if the voter, since casting it, has
      handled no acknowledgement of an earlier one. */
  lemma LatestVoteIsKept(run: seq<Net>, es: seq<Event>, voter: nat, id: nat)
    requires IsRun(run, es) && Accepted(run[|es|], voter, id) && id != 0
    ensures
      var s := run[|es|];
      && (voter, id) in s.latest && s.latest[(voter, id)] < |s.casts| && s.casts[s.latest[(voter, id)]] == (voter, id)
      && (forall c :: s.latest[(voter, id)] < c < |s.casts| ==> s.casts[c] != (voter, id))
      && (s.latest[(voter, id)] !in s.received ==>
            (Pending(s, voter, id) <==> s.latest[(voter, id)] !in s.overtaken))
  {
    RunKeeps(run, es);
    assert CastOk(run[|es|], (voter, id));
  }

  /** The next retry of a voter that is no gateway sends every accepted vote that no gateway has. */
  lemma MissingVotesAreResent(run: seq<Net>, es: seq<Event>, voter: nat, id: nat, now: nat)
    requires IsRun(run, es) && voter in run[|es|].stores && voter !in run[|es|].gateways && id != 0
    requires Accepted(run[|es|], voter, id) && !Received(run[|es|], voter, id)
    ensures Enabled(run[|es|], Retried(voter, now))
    ensures Packet(VoteMessage(voter, id, now), Latest(run[|es|], voter, id)) in Apply(run[|es|], Retried(voter, now)).sent
  {
    RunKeeps(run, es);
    var s := run[|es|];
    assert CastOk(s, (voter, id));
    var store := s.stores[voter];
    var i :| 0 <= i < |store| && store[i].id == id;
    assert Repeats(s, voter, store, now)[i] == Packet(VoteMessage(voter, id, now), Latest(s, voter, id));
  }

  lemma RunExtends(run: seq<Net>, es: seq<Event>, s: Net, e: Event)
    requires IsRun(run, es) && run[|es|] == s && Enabled(s, e)
    ensures IsRun(run + [Apply(s, e)], es + [e])
  {
  }

  lemma OneVoteStored(id: nat, now: nat)
    requires id != 0
    ensures With([], id, now) == [Entry(id, now)] && Accepts([], id) && Without([Entry(id, now)], id) == []
  {
    assert [Entry(id, now)][1..] == [];
  }

  /** A vote with id 7 is received and acknowledged, */
  lemma FirstVote(s0: Net) returns (run: seq<Net>, es: seq<Event>, ack: Packet)
    requires IsRun([s0], []) && s0.stores == map[1 := []] && s0.gateways == {2}
    ensures IsRun(run, es) && |es| == 3 && run[0] == s0 && ack.m == Ack(1, IdBytes(7))
    ensures
      var s := run[3];
      && s.stores == map[1 := []] && ack in s.sent && ack.cast == 0
      && s.casts == [(1, 7)] && s.received == {0} && s.latest == map[(1, 7) := 0]
  {
    var vote := Packet(VoteMessage(1, 7, 0), 0);
    ack := Packet(Ack(1, vote.m.data[..2]), 0);
    IdSurvives(1, 7, 0);
    OneVoteStored(7, 0);
    var s1 := Apply(s0, Voted(1, 7, 0, 0));
    RunExtends([s0], [], s0, Voted(1, 7, 0, 0));
    var s2 := Apply(s1, AtGateway(2, vote));
    RunExtends([s0] + [s1], [] + [Voted(1, 7, 0, 0)], s1, AtGateway(2, vote));
    RunExtends([s0] + [s1] + [s2], [] + [Voted(1, 7, 0, 0)] + [AtGateway(2, vote)], s2, AtVoter(ack));
    run := [s0] + [s1] + [s2] + [Apply(s2, AtVoter(ack))];
    es := [] + [Voted(1, 7, 0, 0)] + [AtGateway(2, vote)] + [AtVoter(ack)];
  }

  /** cast anew, and then the acknowledgement arrives a second time: the new vote is dropped before any
      gateway has it. */
  lemma LateAcknowledgementDropsVote(s0: Net) returns (run: seq<Net>, es: seq<Event>)
    requires IsRun([s0], []) && s0.stores == map[1 := []] && s0.gateways == {2}
    ensures IsRun(run, es) && run[0] == s0
    ensures
      var s := run[|es|];
      && Accepted(s, 1, 7) && (1, 7) in s.latest
      && s.latest[(1, 7)] !in s.received && !Pending(s, 1, 7)
  {
    var first, events, ack := FirstVote(s0);
    OneVoteStored(7, 1);
    var s3 := first[3];
    var s4 := Apply(s3, Voted(1, 7, 1, 1));
    RunExtends(first, events, s3, Voted(1, 7, 1, 1));
    RunExtends(first + [s4], events + [Voted(1, 7, 1, 1)], s4, AtVoter(ack));
    run := first + [s4] + [Apply(s4, AtVoter(ack))];
    es := events + [Voted(1, 7, 1, 1)] + [AtVoter(ack)];
  }
}

/** How the two ends of a broken tree link decide which of them is left with the smaller half. */
module Split {
  import opened Forest
  import N = ClusterNode
  import M = Mesh

  /** What node `p.node` takes for the size of its own half. */
  ghost function Near(net: M.Net, p: Port): int
    requires M.InRange(net, p)
  {
    net.nodes[p.node].clusterSize - M.ConnAt(net, p).connectedClusterSize
  }

  /** Size changes of the half of `p` that were on their way over its link. */
  ghost function Unheard(net: M.Net, p: Port): int
    requires M.InRange(net, p)
  {
    N.Credit(M.ConnAt(net, p).out)
  }

  /** The end takes its half for the smaller one: by its count, or by its id if the counts agree. */
  ghost predicate Claims(net: M.Net, p: Port)
    requires M.InRange(net, p)
  {
    var c := M.ConnAt(net, p);
    Near(net, p) < c.connectedClusterSize || (Near(net, p) == c.connectedClusterSize && p.node < c.partnerId)
  }

  /** The last packet on every finished slot of `x` but `i` announces this new cluster id; 0 is none. */
  ghost predicate Announces(n: N.Node, r: N.Node, i: nat, newId: int) {
    && |r.conns| == |n.conns|
    && forall j :: 0 <= j < |n.conns| && j != i && n.conns[j].handshakeDone ==>
         var out := r.conns[j].out;
         out != [] && out[|out| - 1].InfoUpdate? && out[|out| - 1].newClusterId == newId
         && (i < |n.conns| ==> out[|out| - 1].currentClusterId == n.conns[i].connectedClusterId)
  }

  /** The end renames itself and its half in the step in which it learns of the break, */
  ghost predicate Renames(net: M.Net, p: Port)
    requires M.InRange(net, p)
  {
    var n, r := net.nodes[p.node], M.Lose(net, p).nodes[p.node];
    var newId := (p.node + (n.lossCounter + 1) % 0x1_0000) * 0x1_0000 % 0x1_0000_0000;
    r.clusterId == newId && Announces(n, r, p.slot, newId)
  }

  /** or keeps its id and announces no other. */
  ghost predicate KeepsName(net: M.Net, p: Port)
    requires M.InRange(net, p)
  {
    var n, r := net.nodes[p.node], M.Lose(net, p).nodes[p.node];
    r.clusterId == n.clusterId && Announces(n, r, p.slot, 0)
  }

  lemma ClaimRenames(net: M.Net, k: nat, p: Port)
    requires M.Inv(net, k) && M.InRange(net, p) && M.ConnAt(net, p).handshakeDone
    ensures if Claims(net, p) then Renames(net, p) else KeepsName(net, p)
  {
    N.LossRenames(net.nodes[p.node], p.slot);
  }

  /** Twice the lead of the half of `q` over that of `p`, by each end's own count, with the node ids
      to break a tie; never even. */
  ghost function Lead(net: M.Net, p: Port, q: Port): int
    requires M.InRange(net, p) && M.InRange(net, q)
  {
    2 * (Near(net, q) - Near(net, p)) + if p.node < q.node then 1 else -1
  }

  // ---- between the break and the event by which an end learns of it --------------------------------

  /** The end of the broken link still credits what it did, to the same partner. */
  ghost predicate SameEnd(s: M.Net, t: M.Net, p: Port) {
    && M.InRange(s, p) && M.InRange(t, p)
    && M.ConnAt(t, p) == M.ConnAt(s, p).(closing := M.ConnAt(t, p).closing, out := M.ConnAt(t, p).out)
  }

  lemma ReceiveSparesOthers(n: N.Node, i: nat, m: N.Message, j: nat)
    requires i < |n.conns| && j < |n.conns| && j != i
    ensures
      var r := N.OnReceive(n, i, m);
      && |r.conns| == |n.conns|
      && r.conns[j] == n.conns[j].(closing := r.conns[j].closing, out := r.conns[j].out)
  {
  }

  lemma DeliverSparesEnd(s: M.Net, r: Port, p: Port)
    requires M.CanDeliver(s, r) && M.CanLose(s, p) && s.peer[r] in s.peer
    ensures SameEnd(s, M.Deliver(s, r), p)
  {
    var m := M.ConnAt(s, s.peer[r]).out[0];
    if p.node == r.node {
      ReceiveSparesOthers(s.nodes[r.node], r.slot, m, p.slot);
    } else {
      M.ReceiveStaysConnected(s.nodes[r.node], r.slot, m);
    }
  }

  lemma LoseSparesEnd(s: M.Net, r: Port, p: Port)
    requires M.CanLose(s, r) && M.CanLose(s, p) && r != p
    ensures SameEnd(s, M.Lose(s, r), p)
  {
  }

  lemma ConnectSparesEnd(s: M.Net, r: Port, q: Port, p: Port)
    requires M.CanConnect(s, r, q) && M.CanLose(s, p)
    ensures SameEnd(s, M.Connect(s, r, q), p)
  {
  }

  lemma LoseIsOnce(s: M.Net, p: Port)
    requires M.CanLose(s, p)
    ensures !M.CanLose(M.Lose(s, p), p)
  {
  }

  lemma StepSparesEnd(s: M.Net, k: nat, t: M.Net, p: Port)
    requires M.Inv(s, k) && M.Next(s, t) && M.CanLose(s, p) && M.CanLose(t, p)
    ensures SameEnd(s, t, p)
  {
    if r, q :| M.CanConnect(s, r, q) && t == M.Connect(s, r, q) {
      ConnectSparesEnd(s, r, q, p);
    } else if r :| r in s.peer && t == M.Break(s, r) {
    } else if r :| M.CanLose(s, r) && t == M.Lose(s, r) {
      LoseIsOnce(s, p);
      LoseSparesEnd(s, r, p);
    } else {
      var r :| M.CanDeliver(s, r) && t == M.Deliver(s, r);
      DeliverSparesEnd(s, r, p);
    }
  }

  /** Did the link of `p` break in step `b`, and has its end not learned of it until state `i`? */
  ghost predicate Unaware(run: seq<M.Net>, b: nat, p: Port, i: nat) {
    b < i < |run| && forall m :: b < m <= i ==> M.CanLose(run[m], p)
  }

  lemma StateKeeps(run: seq<M.Net>, k: nat, i: nat)
    requires M.IsRun(run, k) && i < |run|
    ensures M.Inv(run[i], k)
  {
    M.RunKeeps(run[..i + 1], k);
  }

  lemma {:induction false} UnawareEndStays(run: seq<M.Net>, k: nat, b: nat, p: Port, i: nat)
    requires M.IsRun(run, k) && Unaware(run, b, p, i)
    ensures SameEnd(run[b + 1], run[i], p)
    decreases i
  {
    if i == b + 1 {
      assert M.CanLose(run[i], p);
    } else {
      UnawareEndStays(run, k, b, p, i - 1);
      StateKeeps(run, k, i - 1);
      StepSparesEnd(run[i - 1], k, run[i], p);
    }
  }

  /** What an end claims when it learns of the break, from the state `s` in which the link broke. */
  lemma ClaimOf(s: M.Net, k: nat, p: Port, t: M.Net)
    requires M.Inv(s, k) && M.Inv(t, k) && M.Linked(s, p) && SameEnd(s, t, p)
    ensures
      var q := s.peer[p];
      && M.InRange(s, p) && M.InRange(s, q)
      && (Claims(t, p) <==> 2 * (Unheard(s, q) + Near(t, p) - Near(s, p)) < Lead(s, p, q))
  {
    assert s.peer[p] in s.peer && M.LinkOk(s, p);
  }

  // ---- main results --------------------------------------------------------------------------------

  /** How the ends decide: `s` is the mesh in which the link of `p` broke, and `t` and `u` those in which
      `p` and its partner `q` learn of it, when other packets may have changed what they know. Growth that
      an end has missed, or that its own half has seen since, speaks against its claim. Both ends claim,
      or neither does, exactly when the lead lies strictly between the two bounds so shifted; exactly one
      claims when it lies beyond both, as it does whenever all these changes cancel out. And those ends
      that claim take a new cluster id and announce it. */
  ghost predicate Decided(s: M.Net, p: Port, t: M.Net, u: M.Net)
    requires M.Linked(s, p) && M.InRange(t, p) && M.InRange(u, s.peer[p])
  {
    var q := s.peer[p];
    var lead := Lead(s, p, q);
    var x := Unheard(s, q) + Near(t, p) - Near(s, p);
    var y := Unheard(s, p) + Near(u, q) - Near(s, q);
    var here, there := Claims(t, p), Claims(u, q);
    && (here && there <==> 2 * x < lead < -2 * y)
    && (!here && !there <==> -2 * y < lead < 2 * x)
    && ((here <==> !there) <==> (2 * x < lead <==> -2 * y < lead))
    && (x + y == 0 ==> (here <==> !there))
    && (if 2 * x < lead then Renames(t, p) else KeepsName(t, p))
    && (if lead < -2 * y then Renames(u, q) else KeepsName(u, q))
  }

  /** A link of the tree breaks in step `b`; its ends learn of it in the states `i` and `j`. */
  lemma OneEndIsSmaller(run: seq<M.Net>, k: nat, b: nat, p: Port, i: nat, j: nat)
    requires M.IsRun(run, k) && b + 1 < |run| && M.Linked(run[b], p) && run[b + 1] == M.Break(run[b], p)
    requires Unaware(run, b, p, i) && Unaware(run, b, run[b].peer[p], j)
    ensures M.InRange(run[i], p) && M.InRange(run[j], run[b].peer[p])
    ensures Decided(run[b], p, run[i], run[j])
  {
    BreakToEvent(run, k, b, p, p, i);
    BreakToEvent(run, k, b, p, run[b].peer[p], j);
    EndsDecide(run[b], k, p, run[i], run[j]);
  }

  lemma EndsDecide(s: M.Net, k: nat, p: Port, t: M.Net, u: M.Net)
    requires M.Inv(s, k) && M.Inv(t, k) && M.Inv(u, k) && M.Linked(s, p)
    requires SameEnd(s, t, p) && SameEnd(s, u, s.peer[p])
    ensures Decided(s, p, t, u)
  {
    ClaimsOf(s, k, p, t, u);
    ClaimRenames(t, k, p);
    ClaimRenames(u, k, s.peer[p]);
  }

  lemma ClaimsOf(s: M.Net, k: nat, p: Port, t: M.Net, u: M.Net)
    requires M.Inv(s, k) && M.Inv(t, k) && M.Inv(u, k) && M.Linked(s, p)
    requires SameEnd(s, t, p) && SameEnd(s, u, s.peer[p])
    ensures
      var q := s.peer[p];
      && (Claims(t, p) <==> 2 * (Unheard(s, q) + Near(t, p) - Near(s, p)) < Lead(s, p, q))
      && (Claims(u, q) <==> Lead(s, p, q) < -2 * (Unheard(s, p) + Near(u, q) - Near(s, q)))
  {
    var q := s.peer[p];
    assert s.peer[q] == p && p.node != q.node;
    ClaimOf(s, k, p, t);
    ClaimOf(s, k, q, u);
    assert Lead(s, q, p) == -Lead(s, p, q);
  }

  lemma BreakToEvent(run: seq<M.Net>, k: nat, b: nat, p: Port, e: Port, i: nat)
    requires M.IsRun(run, k) && b + 1 < |run| && M.Linked(run[b], p) && run[b + 1] == M.Break(run[b], p)
    requires Unaware(run, b, e, i)
    ensures M.Inv(run[b], k) && M.Inv(run[i], k) && SameEnd(run[b], run[i], e)
  {
    UnawareEndStays(run, k, b, e, i);
    StateKeeps(run, k, b);
    StateKeeps(run, k, i);
    BreakSparesEnd(run[b], p, e, run[i]);
  }

  lemma BreakSparesEnd(s: M.Net, p: Port, e: Port, t: M.Net)
    requires p in s.peer && SameEnd(M.Break(s, p), t, e)
    ensures SameEnd(s, t, e)
  {
  }
}

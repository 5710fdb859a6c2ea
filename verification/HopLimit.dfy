/** Packets addressed to a number of hops: relays do not count the number down, so only the one-hop
    packet is sure to keep its limit. */
module HopLimit {
  import opened Forest
  import N = ClusterNode
  import F = Flood

  /** Can `v` be reached from `u` over at most `n` links? */
  ghost predicate Within(g: Links, u: nat, v: nat, n: nat) {
    exists w :: |w| <= n && Walk(g, {}, w, u, v)
  }

  function Neighbours(g: Links, u: nat): set<nat> {
    set p | p in g && p.node == u :: g[p].node
  }

  lemma OneHopIsNeighbour(g: Links, u: nat, v: nat)
    requires v != u
    ensures Within(g, u, v, 1) <==> v in Neighbours(g, u)
  {
    if w :| |w| <= 1 && Walk(g, {}, w, u, v) {
      assert w != [] && Walk(g, {}, w[1..], g[w[0]].node, v);
    }
    if p :| p in g && p.node == u && g[p].node == v {
      assert [p][1..] == [];
      assert Walk(g, {}, [], v, v);
      assert Walk(g, {}, [p], u, v);
    }
  }

  // ---- the one-hop packet ------------------------------------------------------------------------

  const ONE_HOP: nat := N.HOPS_BASE + 1

  /** All copies leave the origin, and all of its links are used. */
  ghost predicate LeavesOrigin(g: Links, origin: nat, s: F.State) {
    && (forall p :: p in s.flight ==> p in g && p.node == origin)
    && (forall p :: p in g && p.node == origin ==> p in s.flight || g[p].node in s.visited)
    && (forall v :: v in s.visited ==> v == origin || v in Neighbours(g, origin))
  }

  lemma StartLeavesOrigin(g: Links, k: nat, origin: nat)
    requires WellFormed(g, k) && origin != ONE_HOP
    ensures LeavesOrigin(g, origin, F.Start(g, k, origin, ONE_HOP))
  {
    forall p ensures p in F.OpenPorts(g, k, {}, origin) <==> p in g && p.node == origin {
      F.OpenPortsOf(g, k, {}, origin, p);
      assert p in multiset(F.OpenPorts(g, k, {}, origin)) <==> p in F.OpenPorts(g, k, {}, origin);
    }
  }

  lemma ArriveLeavesOrigin(g: Links, k: nat, origin: nat, s: F.State, c: nat)
    requires LeavesOrigin(g, origin, s) && c < |s.flight|
    ensures LeavesOrigin(g, origin, F.Arrive(g, k, ONE_HOP, s, c))
  {
    var t := F.Arrive(g, k, ONE_HOP, s, c);
    assert F.Forwarded(g, k, ONE_HOP, s.flight[c]) == [];
    F.FlightAfter(s.flight, c, []);
    assert g[s.flight[c]].node in Neighbours(g, origin);
  }

  lemma {:induction false} RunLeavesOrigin(g: Links, k: nat, origin: nat, run: seq<F.State>)
    requires WellFormed(g, k) && origin != ONE_HOP && F.IsRun(g, k, origin, ONE_HOP, run)
    ensures LeavesOrigin(g, origin, run[|run| - 1])
  {
    if |run| == 1 {
      StartLeavesOrigin(g, k, origin);
    } else {
      var before := run[..|run| - 1];
      RunLeavesOrigin(g, k, origin, before);
      var s, t := run[|run| - 2], run[|run| - 1];
      assert before[|before| - 1] == s;
      assert F.Next(g, k, ONE_HOP, s, t);
      var c :| 0 <= c < |s.flight| && s.flight[c] in g && t == F.Arrive(g, k, ONE_HOP, s, c);
      ArriveLeavesOrigin(g, k, origin, s, c);
    }
  }

  /** A one-hop packet is processed exactly once by each neighbour of its origin, and by no other. */
  lemma OneHopReachesNeighbours(g: Links, k: nat, origin: nat, run: seq<F.State>)
    requires WellFormed(g, k) && IsForest(g) && N.BROADCAST !in Nodes(g) + {origin}
    requires ONE_HOP !in Nodes(g) + {origin}
    requires F.IsRun(g, k, origin, ONE_HOP, run) && run[|run| - 1].flight == []
    ensures run[|run| - 1].handled == multiset(Neighbours(g, origin))
  {
    F.RunKeeps(g, k, origin, ONE_HOP, run);
    RunLeavesOrigin(g, k, origin, run);
    OneHopEnd(g, k, origin, run[|run| - 1]);
  }

  lemma OneHopEnd(g: Links, k: nat, origin: nat, s: F.State)
    requires WellFormed(g, k) && ONE_HOP != origin && origin != N.BROADCAST
    requires F.Counted(g, origin, ONE_HOP, s) && LeavesOrigin(g, origin, s) && s.flight == []
    ensures s.handled == multiset(Neighbours(g, origin))
  {
    forall v ensures s.handled[v] == multiset(Neighbours(g, origin))[v] {
      assert F.Due(g, s, v) == s.visited[v];
    }
  }

  // ---- any number of hops ------------------------------------------------------------------------

  /** Nobody processed the packet who is farther from its origin than the address says. */
  ghost predicate KeepsLimit(g: Links, origin: nat, hops: nat, s: F.State) {
    forall v :: v in s.handled ==> Within(g, origin, v, hops)
  }

  /** The packet keeps its limit exactly if it was for one hop, or the limit reaches the whole tree. */
  lemma LimitIsKept(g: Links, k: nat, origin: nat, hops: nat, run: seq<F.State>)
    requires WellFormed(g, k) && IsForest(g) && N.BROADCAST !in Nodes(g) + {origin}
    requires hops < 1000 && N.HOPS_BASE + hops !in Nodes(g) + {origin}
    requires F.IsRun(g, k, origin, N.HOPS_BASE + hops, run) && run[|run| - 1].flight == []
    ensures KeepsLimit(g, origin, hops, run[|run| - 1]) <==>
      hops == 1 || forall v :: v in Cluster(g, origin) && v != origin ==> Within(g, origin, v, hops)
  {
    if hops == 1 {
      OneHopReachesNeighbours(g, k, origin, run);
      NeighboursAreWithin(g, k, origin, run[|run| - 1]);
    } else {
      F.HopsAreNotCounted(g, k, origin, N.HOPS_BASE + hops, run);
      WholeTreeWithin(g, origin, hops, run[|run| - 1]);
    }
  }

  lemma NeighboursAreWithin(g: Links, k: nat, origin: nat, s: F.State)
    requires WellFormed(g, k) && s.handled == multiset(Neighbours(g, origin))
    ensures KeepsLimit(g, origin, 1, s)
  {
    forall v | v in s.handled ensures Within(g, origin, v, 1) {
      assert v in Neighbours(g, origin) && v != origin;
      OneHopIsNeighbour(g, origin, v);
    }
  }

  lemma WholeTreeWithin(g: Links, origin: nat, hops: nat, s: F.State)
    requires s.handled == multiset(Cluster(g, origin) - {origin})
    ensures KeepsLimit(g, origin, hops, s) <==>
      forall v :: v in Cluster(g, origin) && v != origin ==> Within(g, origin, v, hops)
  {
    assert forall v :: v in s.handled <==> v in Cluster(g, origin) && v != origin;
  }

  // ---- every other limit fails on some tree ----------------------------------------------------------

  /** The nodes 1 to n + 1 in a row. */
  function Row(n: nat): Links {
    if n == 0 then map[] else Attach(Row(n - 1), Port(n + 1, 0), Port(n, 1))
  }

  /** A row ends at node n + 1, whose second slot is free. */
  ghost predicate IsRow(g: Links, n: nat) {
    && WellFormed(g, 2) && IsForest(g) && Port(n + 1, 1) !in g
    && forall p :: p in g ==> 1 <= p.node <= n + 1 && g[p].node <= p.node + 1
  }

  lemma RowGrows(g: Links, n: nat)
    requires IsRow(g, n)
    ensures IsRow(Attach(g, Port(n + 2, 0), Port(n + 1, 1)), n + 1)
  {
    AttachKeepsForest(g, 2, Port(n + 2, 0), Port(n + 1, 1));
  }

  lemma {:induction false} RowIsForest(n: nat)
    ensures IsRow(Row(n), n)
  {
    if n == 0 {
    } else {
      RowIsForest(n - 1);
      RowGrows(Row(n - 1), n - 1);
    }
  }

  lemma {:induction false} RowReaches(n: nat)
    ensures n + 1 in Cluster(Row(n), 1)
  {
    if n == 0 {
      assert Walk(Row(0), {}, [], 1, 1);
    } else {
      RowReaches(n - 1);
      RowIsForest(n - 1);
      AttachReaches(Row(n - 1), Port(n + 1, 0), Port(n, 1), 1);
    }
  }

  lemma AttachReaches(g: Links, p: Port, q: Port, u: nat)
    requires p !in g && q !in g && p != q && q.node in Cluster(g, u)
    ensures p.node in Cluster(Attach(g, p, q), u)
  {
    var h := Attach(g, p, q);
    var w :| Walk(g, {}, w, u, q.node);
    WalkGrows(g, h, w, u, q.node);
    WalkExtend(h, {}, w, u, q);
    assert p in h && p.node in Nodes(h);
  }

  lemma {:induction false} WalkGrows(g: Links, h: Links, w: seq<Port>, u: nat, v: nat)
    requires Walk(g, {}, w, u, v) && forall p :: p in g ==> p in h && h[p] == g[p]
    ensures Walk(h, {}, w, u, v)
  {
    if w == [] {
    } else {
      WalkGrows(g, h, w[1..], g[w[0]].node, v);
    }
  }

  lemma {:induction false} WalkIsLong(g: Links, w: seq<Port>, u: nat, v: nat)
    requires Walk(g, {}, w, u, v) && forall p :: p in g ==> g[p].node <= p.node + 1
    ensures v <= u + |w|
  {
    if w == [] {
    } else {
      WalkIsLong(g, w[1..], g[w[0]].node, v);
    }
  }

  lemma FloodAdvances(g: Links, k: nat, origin: nat, receiver: nat, run: seq<F.State>) returns (t: F.State)
    requires WellFormed(g, k) && IsForest(g) && N.BROADCAST !in Nodes(g) + {origin}
    requires F.IsRun(g, k, origin, receiver, run) && run[|run| - 1].flight != []
    ensures F.IsRun(g, k, origin, receiver, run + [t])
    ensures F.Weight(g, t.flight) < F.Weight(g, run[|run| - 1].flight)
  {
    var s := run[|run| - 1];
    F.RunKeeps(g, k, origin, receiver, run);
    assert s.flight[0] in g;
    F.ArriveUses(g, k, origin, receiver, s, 0);
    t := F.Arrive(g, k, receiver, s, 0);
    FloodExtends(g, k, origin, receiver, run, 0);
  }

  lemma FloodExtends(g: Links, k: nat, origin: nat, receiver: nat, run: seq<F.State>, c: nat)
    requires F.IsRun(g, k, origin, receiver, run)
    requires c < |run[|run| - 1].flight| && run[|run| - 1].flight[c] in g
    ensures F.IsRun(g, k, origin, receiver, run + [F.Arrive(g, k, receiver, run[|run| - 1], c)])
  {
    assert F.Next(g, k, receiver, run[|run| - 1], F.Arrive(g, k, receiver, run[|run| - 1], c));
  }

  /** Every packet can be flooded to the end. */
  lemma {:induction false} FloodsFinish(g: Links, k: nat, origin: nat, receiver: nat, run: seq<F.State>) returns (full: seq<F.State>)
    requires WellFormed(g, k) && IsForest(g) && N.BROADCAST !in Nodes(g) + {origin}
    requires F.IsRun(g, k, origin, receiver, run)
    ensures F.IsRun(g, k, origin, receiver, full) && full[|full| - 1].flight == []
    decreases F.Weight(g, run[|run| - 1].flight)
  {
    if run[|run| - 1].flight == [] {
      full := run;
    } else {
      var t := FloodAdvances(g, k, origin, receiver, run);
      full := FloodsFinish(g, k, origin, receiver, run + [t]);
    }
  }

  /** A finished flood on a tree, and a node that processed the packet beyond its limit. */
  ghost predicate GoesTooFar(g: Links, k: nat, origin: nat, hops: nat, run: seq<F.State>) {
    && WellFormed(g, k) && IsForest(g) && F.IsRun(g, k, origin, N.HOPS_BASE + hops, run)
    && run[|run| - 1].flight == [] && !KeepsLimit(g, origin, hops, run[|run| - 1])
  }

  lemma FarNodeIsReached(g: Links, k: nat, origin: nat, hops: nat, v: nat) returns (run: seq<F.State>)
    requires WellFormed(g, k) && IsForest(g) && N.BROADCAST !in Nodes(g) + {origin}
    requires hops < 1000 && hops != 1 && N.HOPS_BASE + hops !in Nodes(g) + {origin}
    requires v in Cluster(g, origin) && v != origin && !Within(g, origin, v, hops)
    ensures GoesTooFar(g, k, origin, hops, run)
  {
    var receiver := N.HOPS_BASE + hops;
    run := FloodsFinish(g, k, origin, receiver, [F.Start(g, k, origin, receiver)]);
    LimitIsKept(g, k, origin, hops, run);
  }

  lemma RowEndIsFar(hops: nat)
    ensures hops + 2 in Cluster(Row(hops + 1), 1) && !Within(Row(hops + 1), 1, hops + 2, hops)
  {
    RowIsForest(hops + 1);
    RowReaches(hops + 1);
    if w :| |w| <= hops && Walk(Row(hops + 1), {}, w, 1, hops + 2) {
      WalkIsLong(Row(hops + 1), w, 1, hops + 2);
    }
  }

  /** For every limit but one there is a tree on which a packet with this limit goes too far. */
  lemma LimitFails(hops: nat)
    requires hops < 1000 && hops != 1
    ensures exists g, run :: GoesTooFar(g, 2, 1, hops, run)
  {
    RowIsForest(hops + 1);
    RowEndIsFar(hops);
    RowOverruns(Row(hops + 1), hops);
  }

  lemma RowOverruns(g: Links, hops: nat)
    requires hops < 1000 && hops != 1 && IsRow(g, hops + 1)
    requires hops + 2 in Cluster(g, 1) && !Within(g, 1, hops + 2, hops)
    ensures exists run :: GoesTooFar(g, 2, 1, hops, run)
  {
    var run := FarNodeIsReached(g, 2, 1, hops, hops + 2);
  }
}

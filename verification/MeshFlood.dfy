/** Flooding on the links that the mesh protocol has finished. */
module MeshFlood {
  import opened Forest
  import M = Mesh
  import N = ClusterNode
  import F = Flood

  /** Every slot that sends floods has a link that is up, with a partner that sends floods too. */
  ghost predicate Settled(net: M.Net) {
    forall p :: M.Done(net, p) ==> p in net.peer && M.Done(net, net.peer[p])
  }

  /** The links over which nodes send floods: those of their own finished slots. */
  ghost function Sends(net: M.Net): Links {
    map p | p in net.peer && M.Done(net, p) :: net.peer[p]
  }

  ghost predicate Acknowledging(net: M.Net, p: Port)
    requires M.InRange(net, p)
  {
    exists m :: m in M.ConnAt(net, p).out && m.Ack2?
  }

  lemma HalfDoneAcknowledges(net: M.Net, k: nat, p: Port)
    requires M.Inv(net, k) && p in net.peer
    ensures M.InRange(net, p) && M.InRange(net, net.peer[p])
    ensures Acknowledging(net, p) <==> M.Done(net, p) && !M.Done(net, net.peer[p])
  {
    assert net.peer[net.peer[p]] == p;
    assert M.LinkOk(net, p) && M.LinkOk(net, net.peer[p]);
    var out := M.ConnAt(net, p).out;
    if M.Done(net, p) && !M.Done(net, net.peer[p]) {
      assert out[0] in out;
    } else if m :| m in out && m.Ack2? {
      assert M.Done(net, p);
    }
  }

  /** In a reachable mesh the slots over which nodes send floods are exactly the ends of the tree's
      links if no acknowledgement is under way and no end of a finished link has still to learn that it
      broke; and only then. */
  lemma SettledSendsOverTree(run: seq<M.Net>, k: nat)
    requires M.IsRun(run, k)
    ensures
      var net := run[|run| - 1];
      && (Settled(net) <==>
            && (forall p :: p in net.peer && M.InRange(net, p) ==> !Acknowledging(net, p))
            && (forall p :: M.CanLose(net, p) ==> !M.Done(net, p)))
      && (Settled(net) <==> forall p :: M.Done(net, p) <==> p in M.Tree(net))
      && (Settled(net) ==> Sends(net) == M.Tree(net))
  {
    M.RunKeeps(run, k);
    SettledIff(run[|run| - 1], k);
  }

  lemma SettledIff(net: M.Net, k: nat)
    requires M.Inv(net, k)
    ensures Settled(net) <==>
      && (forall p :: p in net.peer && M.InRange(net, p) ==> !Acknowledging(net, p))
      && (forall p :: M.CanLose(net, p) ==> !M.Done(net, p))
    ensures Settled(net) <==> forall p :: M.Done(net, p) <==> p in M.Tree(net)
    ensures Settled(net) ==> Sends(net) == M.Tree(net)
  {
    forall p | p in net.peer
      ensures M.InRange(net, p) && (Acknowledging(net, p) <==> M.Done(net, p) && !M.Done(net, net.peer[p])) {
      HalfDoneAcknowledges(net, k, p);
    }
    forall p | M.Done(net, p) ensures M.ConnAt(net, p).isConnected {
      assert N.SlotOk(M.ConnAt(net, p));
    }
  }

  lemma QuiescentIsSettled(run: seq<M.Net>, k: nat)
    requires M.IsRun(run, k) && M.Quiescent(run[|run| - 1])
    ensures Settled(run[|run| - 1])
  {
    M.RunKeeps(run, k);
    var net := run[|run| - 1];
    forall p | M.Done(net, p) ensures p in M.Tree(net) {
      M.QuiescentPort(net, k, p);
    }
  }

  lemma TreeCarriesFloods(run: seq<M.Net>, k: nat)
    requires M.IsRun(run, k)
    ensures
      var g := M.Tree(run[|run| - 1]);
      WellFormed(g, k) && IsForest(g) && N.BROADCAST !in Nodes(g)
  {
    M.RunKeeps(run, k);
    var net := run[|run| - 1];
    forall p | p in M.Tree(net) ensures p.node != N.BROADCAST {
      assert M.InRange(net, p);
    }
  }

  /** In every reachable mesh that is settled, a broadcast over the links the nodes send on, once it
      has come to rest, was processed exactly once by each node of the origin's tree and by no other.
      A quiescent mesh is settled, and these are as many nodes as the origin counts. */
  lemma BroadcastReachesTheCluster(run: seq<M.Net>, k: nat, origin: nat, flood: seq<F.State>)
    requires M.IsRun(run, k) && k > 0 && origin in run[|run| - 1].nodes
    requires F.IsRun(Sends(run[|run| - 1]), k, origin, N.BROADCAST, flood) && flood[|flood| - 1].flight == []
    ensures Settled(run[|run| - 1]) ==>
      flood[|flood| - 1].handled == multiset(Cluster(M.Tree(run[|run| - 1]), origin))
    ensures M.Quiescent(run[|run| - 1]) ==>
      Settled(run[|run| - 1]) && |flood[|flood| - 1].handled| == run[|run| - 1].nodes[origin].clusterSize
  {
    if M.Quiescent(run[|run| - 1]) {
      QuiescentIsSettled(run, k);
      M.ClusterSizesAreExact(run, k, origin);
    }
    if Settled(run[|run| - 1]) {
      TreeCarriesFloods(run, k);
      SettledSendsOverTree(run, k);
      KnownNode(run, k, origin);
      F.BroadcastHandledOnce(M.Tree(run[|run| - 1]), k, origin, flood);
    }
  }

  lemma KnownNode(run: seq<M.Net>, k: nat, x: nat)
    requires M.IsRun(run, k) && x in run[|run| - 1].nodes
    ensures x != N.BROADCAST
  {
    M.RunKeeps(run, k);
  }
}

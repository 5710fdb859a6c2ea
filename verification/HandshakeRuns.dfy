/** Two runs of three nodes on which handshakes overlap. */
module HandshakeRuns {
  import opened Forest
  import N = ClusterNode
  import M = Mesh
  import opened MeshSteps

  const E := Port(2, 1)
  const F := Port(3, 0)

  const CHAIN: Links := map[A := B, B := A, E := F, F := E]

  // ---- a handshake that stalls ------------------------------------------------------------------------

  function S0(): M.Net {
    Three(N.Node(1, 9, 1, 0, [Idle(N.In), Idle(N.Out)]),
          N.Node(2, 10, 1, 0, [Idle(N.In), Idle(N.Out)]),
          N.Node(3, 6, 1, 0, [Idle(N.In), Idle(N.Out)]),
          map[])
  }

  // Node 1 greets node 2, which takes itself for the bigger one and answers.
  function S1(): M.Net {
    Three(N.Node(1, 9, 1, 0, [Idle(N.In), Open(N.Out, 0, [N.Welcome(1, 30001, 9, 1)])]),
          N.Node(2, 10, 1, 0, [Open(N.In, 0, []), Idle(N.Out)]),
          N.Node(3, 6, 1, 0, [Idle(N.In), Idle(N.Out)]),
          AB)
  }

  function S2(): M.Net {
    Three(N.Node(1, 9, 1, 0, [Idle(N.In), Open(N.Out, 0, [])]),
          N.Node(2, 10, 1, 0, [Open(N.In, 0, [N.Welcome(2, 30001, 10, 1)]), Idle(N.Out)]),
          N.Node(3, 6, 1, 0, [Idle(N.In), Idle(N.Out)]),
          AB)
  }

  // Before the answer arrives, node 3 joins node 1.
  function S3(): M.Net {
    Three(N.Node(1, 9, 1, 0, [Open(N.In, 0, []), Open(N.Out, 0, [])]),
          N.Node(2, 10, 1, 0, [Open(N.In, 0, [N.Welcome(2, 30001, 10, 1)]), Idle(N.Out)]),
          N.Node(3, 6, 1, 0, [Idle(N.In), Open(N.Out, 0, [N.Welcome(3, 30001, 6, 1)])]),
          BOTH)
  }

  function S4(): M.Net {
    Three(N.Node(1, 9, 1, 0, [Open(N.In, 0, [N.Welcome(1, 30001, 9, 1)]), Open(N.Out, 0, [])]),
          N.Node(2, 10, 1, 0, [Open(N.In, 0, [N.Welcome(2, 30001, 10, 1)]), Idle(N.Out)]),
          N.Node(3, 6, 1, 0, [Idle(N.In), Open(N.Out, 0, [])]),
          BOTH)
  }

  function S5(): M.Net {
    Three(N.Node(1, 9, 1, 0, [Open(N.In, 0, []), Open(N.Out, 0, [])]),
          N.Node(2, 10, 1, 0, [Open(N.In, 0, [N.Welcome(2, 30001, 10, 1)]), Idle(N.Out)]),
          N.Node(3, 6, 1, 0, [Idle(N.In), Open(N.Out, 1, [N.Ack1(3, 1)])]),
          BOTH)
  }

  function S6(): M.Net {
    Three(N.Node(1, 9, 2, 0, [Finished(N.In, 3, 9, 1, [N.Ack2(1, 3, 9, 2)]), Open(N.Out, 0, [])]),
          N.Node(2, 10, 1, 0, [Open(N.In, 0, [N.Welcome(2, 30001, 10, 1)]), Idle(N.Out)]),
          N.Node(3, 6, 1, 0, [Idle(N.In), Open(N.Out, 1, [])]),
          BOTH)
  }

  // Now node 1 takes itself for the bigger one too, and as the central says nothing.
  function S7(): M.Net {
    Three(N.Node(1, 9, 2, 0, [Finished(N.In, 3, 9, 1, [N.Ack2(1, 3, 9, 2)]), Open(N.Out, 0, [])]),
          N.Node(2, 10, 1, 0, [Open(N.In, 0, []), Idle(N.Out)]),
          N.Node(3, 6, 1, 0, [Idle(N.In), Open(N.Out, 1, [])]),
          BOTH)
  }

  function S8(): M.Net {
    Three(N.Node(1, 9, 2, 0, [Finished(N.In, 3, 9, 1, []), Open(N.Out, 0, [])]),
          N.Node(2, 10, 1, 0, [Open(N.In, 0, []), Idle(N.Out)]),
          N.Node(3, 9, 2, 0, [Idle(N.In), Finished(N.Out, 1, 9, 1, [])]),
          BOTH)
  }

  lemma StepS1()
    ensures M.Next(S0(), S1())
  {
    Connects(S0(), A, B, S1());
  }

  lemma StepS2()
    ensures M.Next(S1(), S2())
  {
    Delivers(S1(), B, S2());
  }

  lemma StepS3()
    ensures M.Next(S2(), S3())
  {
    Connects(S2(), C, D, S3());
  }

  lemma StepS4()
    ensures M.Next(S3(), S4())
  {
    Delivers(S3(), D, S4());
  }

  lemma StepS5()
    ensures M.Next(S4(), S5())
  {
    Delivers(S4(), C, S5());
  }

  lemma StepS6()
    ensures M.Next(S5(), S6())
  {
    Delivers(S5(), D, S6());
  }

  lemma StepS7()
    ensures M.Next(S6(), S7())
  {
    Delivers(S6(), A, S7());
  }

  lemma StepS8()
    ensures M.Next(S7(), S8())
  {
    Delivers(S7(), C, S8());
  }

  function Stall(n: nat): M.Net {
    match n
    case 0 => S0()
    case 1 => S1()
    case 2 => S2()
    case 3 => S3()
    case 4 => S4()
    case 5 => S5()
    case 6 => S6()
    case 7 => S7()
    case _ => S8()
  }

  lemma StallSteps(n: nat)
    requires 0 < n <= 8
    ensures M.Next(Stall(n - 1), Stall(n))
  {
    match n
    case 1 => StepS1();
    case 2 => StepS2();
    case 3 => StepS3();
    case 4 => StepS4();
    case 5 => StepS5();
    case 6 => StepS6();
    case 7 => StepS7();
    case _ => StepS8();
  }

  lemma StallStarts()
    ensures M.Init(Stall(0), 2)
  {
  }

  /** The mesh is at rest, but the ends of a link that is up have not finished the handshake, although
      their clusters differ. */
  ghost predicate IsStalled(net: M.Net, p: Port) {
    && M.Quiescent(net) && p in net.peer && M.InRange(net, p) && M.InRange(net, net.peer[p])
    && !M.Done(net, p) && !M.Done(net, net.peer[p])
    && net.nodes[p.node].clusterId != net.nodes[net.peer[p].node].clusterId
  }

  ghost predicate EndsStalled(run: seq<M.Net>, p: Port) {
    M.IsRun(run, 2) && IsStalled(run[|run| - 1], p)
  }

  lemma EndIsStalled()
    ensures IsStalled(S8(), A)
  {
    forall p | M.InRange(S8(), p) && M.ConnAt(S8(), p).isConnected
      ensures p in S8().peer && M.ConnAt(S8(), p).out == [] {
      assert p == A || p == B || p == C || p == D;
    }
  }

  /** A reachable mesh can come to rest with a handshake unfinished. */
  lemma MeshMayStall()
    ensures exists run, p :: EndsStalled(run, p)
  {
    StallStarts();
    var run := seq(9, i requires 0 <= i => Stall(i));
    forall i | 0 < i < 9 ensures M.Next(run[i - 1], run[i]) {
      StallSteps(i);
    }
    EndIsStalled();
    assert run[|run| - 1] == S8();
    assert EndsStalled(run, A);
  }

  // ---- a joiner that admits another node ------------------------------------------------------------------

  /** A step of the mesh, or an acknowledgement that reaches a joiner before it is alone. */
  ghost predicate NextAnyhow(s: M.Net, t: M.Net) {
    M.Next(s, t) || exists p :: M.Arrives(s, p) && t == M.Deliver(s, p)
  }

  ghost predicate IsLooseRun(run: seq<M.Net>, k: nat) {
    run != [] && M.Init(run[0], k) && forall i :: 0 < i < |run| ==> NextAnyhow(run[i - 1], run[i])
  }

  function R0(): M.Net {
    Three(N.Node(1, 9, 1, 0, [Idle(N.In), Idle(N.Out)]),
          N.Node(2, 5, 1, 0, [Idle(N.In), Idle(N.Out)]),
          N.Node(3, 3, 1, 0, [Idle(N.In), Idle(N.Out)]),
          map[])
  }

  // Node 2 has asked to join node 1,
  function R1(): M.Net {
    Three(N.Node(1, 9, 1, 0, [Idle(N.In), Open(N.Out, 0, [N.Welcome(1, 30001, 9, 1)])]),
          N.Node(2, 5, 1, 0, [Open(N.In, 0, []), Idle(N.Out)]),
          N.Node(3, 3, 1, 0, [Idle(N.In), Idle(N.Out)]),
          AB)
  }

  function R2(): M.Net {
    Three(N.Node(1, 9, 1, 0, [Idle(N.In), Open(N.Out, 0, [])]),
          N.Node(2, 5, 1, 0, [Open(N.In, 1, [N.Ack1(2, 1)]), Idle(N.Out)]),
          N.Node(3, 3, 1, 0, [Idle(N.In), Idle(N.Out)]),
          AB)
  }

  // but connects to node 3 and admits it
  function R3(): M.Net {
    Three(N.Node(1, 9, 1, 0, [Idle(N.In), Open(N.Out, 0, [])]),
          N.Node(2, 5, 1, 0, [Open(N.In, 1, [N.Ack1(2, 1)]), Open(N.Out, 0, [N.Welcome(2, 30001, 5, 1)])]),
          N.Node(3, 3, 1, 0, [Open(N.In, 0, []), Idle(N.Out)]),
          CHAIN)
  }

  function R4(): M.Net {
    Three(N.Node(1, 9, 1, 0, [Idle(N.In), Open(N.Out, 0, [])]),
          N.Node(2, 5, 1, 0, [Open(N.In, 1, [N.Ack1(2, 1)]), Open(N.Out, 0, [])]),
          N.Node(3, 3, 1, 0, [Open(N.In, 2, [N.Ack1(3, 2)]), Idle(N.Out)]),
          CHAIN)
  }

  function R5(): M.Net {
    Three(N.Node(1, 9, 1, 0, [Idle(N.In), Open(N.Out, 0, [])]),
          N.Node(2, 5, 2, 0, [Open(N.In, 1, [N.Ack1(2, 1)]), Finished(N.Out, 3, 5, 1, [N.Ack2(2, 3, 5, 2)])]),
          N.Node(3, 3, 1, 0, [Open(N.In, 2, []), Idle(N.Out)]),
          CHAIN)
  }

  // before the acknowledgement of node 1 arrives.
  function R6(): M.Net {
    Three(N.Node(1, 9, 2, 0, [Idle(N.In), Finished(N.Out, 2, 9, 1, [N.Ack2(1, 2, 9, 2)])]),
          N.Node(2, 5, 2, 0, [Open(N.In, 1, []), Finished(N.Out, 3, 5, 1, [N.Ack2(2, 3, 5, 2)])]),
          N.Node(3, 3, 1, 0, [Open(N.In, 2, []), Idle(N.Out)]),
          CHAIN)
  }

  function R7(): M.Net {
    Three(N.Node(1, 9, 2, 0, [Idle(N.In), Finished(N.Out, 2, 9, 1, [])]),
          N.Node(2, 9, 3, 0, [Finished(N.In, 1, 9, 1, []), Finished(N.Out, 3, 5, 1, [N.Ack2(2, 3, 5, 2)])]),
          N.Node(3, 3, 1, 0, [Open(N.In, 2, []), Idle(N.Out)]),
          CHAIN)
  }

  function R8(): M.Net {
    Three(N.Node(1, 9, 2, 0, [Idle(N.In), Finished(N.Out, 2, 9, 1, [])]),
          N.Node(2, 9, 3, 0, [Finished(N.In, 1, 9, 1, []), Finished(N.Out, 3, 5, 1, [])]),
          N.Node(3, 5, 2, 0, [Finished(N.In, 2, 5, 1, []), Idle(N.Out)]),
          CHAIN)
  }

  lemma StepR1()
    ensures NextAnyhow(R0(), R1())
  {
    Connects(R0(), A, B, R1());
  }

  lemma StepR2()
    ensures NextAnyhow(R1(), R2())
  {
    Delivers(R1(), B, R2());
  }

  lemma StepR3()
    ensures NextAnyhow(R2(), R3())
  {
    Connects(R2(), E, F, R3());
  }

  lemma StepR4()
    ensures NextAnyhow(R3(), R4())
  {
    Delivers(R3(), F, R4());
  }

  lemma StepR5()
    ensures NextAnyhow(R4(), R5())
  {
    Delivers(R4(), E, R5());
  }

  lemma StepR6()
    ensures NextAnyhow(R5(), R6())
  {
    Delivers(R5(), A, R6());
  }

  lemma StepR7()
    ensures NextAnyhow(R6(), R7())
  {
    assert M.Arrives(R6(), B) && SameNet(M.Deliver(R6(), B), R7());
    SameIsEqual(M.Deliver(R6(), B), R7());
  }

  lemma StepR8()
    ensures NextAnyhow(R7(), R8())
  {
    Delivers(R7(), F, R8());
  }

  function Race(n: nat): M.Net {
    match n
    case 0 => R0()
    case 1 => R1()
    case 2 => R2()
    case 3 => R3()
    case 4 => R4()
    case 5 => R5()
    case 6 => R6()
    case 7 => R7()
    case _ => R8()
  }

  lemma RaceSteps(n: nat)
    requires 0 < n <= 8
    ensures NextAnyhow(Race(n - 1), Race(n))
  {
    match n
    case 1 => StepR1();
    case 2 => StepR2();
    case 3 => StepR3();
    case 4 => StepR4();
    case 5 => StepR5();
    case 6 => StepR6();
    case 7 => StepR7();
    case _ => StepR8();
  }

  ghost predicate Miscounts(net: M.Net, x: nat) {
    M.Quiescent(net) && x in net.nodes && net.nodes[x].clusterSize != |Cluster(M.Tree(net), x)|
  }

  ghost predicate EndsMiscounting(run: seq<M.Net>, x: nat) {
    IsLooseRun(run, 2) && Miscounts(run[|run| - 1], x)
  }

  lemma RaceStarts()
    ensures M.Init(Race(0), 2)
  {
  }

  lemma RaceIsQuiet()
    ensures M.Quiescent(R8())
  {
    forall p | M.InRange(R8(), p) && M.ConnAt(R8(), p).isConnected
      ensures p in R8().peer && M.ConnAt(R8(), p).out == [] {
      assert p == A || p == B || p == E || p == F;
    }
  }

  lemma TreeOfThree(net: M.Net)
    requires net.peer == CHAIN && M.Done(net, A) && M.Done(net, B) && M.Done(net, E) && M.Done(net, F)
    ensures |Cluster(M.Tree(net), 1)| >= 3
  {
    var g := M.Tree(net);
    assert A in g && E in g && g[A] == B && g[E] == F && B in g && F in g;
    assert Walk(g, {}, [], 1, 1);
    WalkExtend(g, {}, [], 1, A);
    WalkExtend(g, {}, [] + [A], 1, E);
    assert {1, 2, 3} <= Cluster(g, 1);
    SubsetSize({1, 2, 3}, Cluster(g, 1));
  }

  lemma RaceEnds()
    ensures Miscounts(R8(), 1)
  {
    RaceIsQuiet();
    TreeOfThree(R8());
  }

  /** Without the assumption that a joiner is alone when the acknowledgement of its host arrives, the
      mesh can come to rest with a node that miscounts its cluster. */
  lemma RaceMiscounts()
    ensures exists run, x :: EndsMiscounting(run, x)
  {
    RaceStarts();
    var run := seq(9, i requires 0 <= i => Race(i));
    forall i | 0 < i < 9 ensures NextAnyhow(run[i - 1], run[i]) {
      RaceSteps(i);
    }
    RaceEnds();
    assert run[|run| - 1] == R8();
    assert EndsMiscounting(run, 1);
  }
}

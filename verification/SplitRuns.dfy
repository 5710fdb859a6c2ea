/** Three nodes, and two runs on which the ends of a broken link disagree. */
module SplitRuns {
  import opened Forest
  import N = ClusterNode
  import M = Mesh
  import opened MeshSteps
  import S = Split

  function One(size: int, loss: nat, inward: N.Conn, outward: N.Conn): N.Node {
    N.Node(1, 9, size, loss, [inward, outward])
  }

  function Two(cluster: int, size: int, inward: N.Conn): N.Node {
    N.Node(2, cluster, size, 0, [inward, Idle(N.Out)])
  }

  function Third(outward: N.Conn): N.Node {
    N.Node(3, 6, 1, 0, [Idle(N.In), outward])
  }

  const GROWN := N.InfoUpdate(1, N.BROADCAST, 9, 0, 1)
  const SHRUNK := N.InfoUpdate(1, N.BROADCAST, 9, 0, -1)

  function S0(): M.Net {
    Three(One(1, 0, Idle(N.In), Idle(N.Out)), Two(5, 1, Idle(N.In)), Third(Idle(N.Out)), map[])
  }

  // Node 2 joins node 1.
  function S1(): M.Net {
    Three(One(1, 0, Idle(N.In), Open(N.Out, 0, [N.Welcome(1, 30001, 9, 1)])), Two(5, 1, Open(N.In, 0, [])), Third(Idle(N.Out)), AB)
  }

  function S2(): M.Net {
    Three(One(1, 0, Idle(N.In), Open(N.Out, 0, [])), Two(5, 1, Open(N.In, 1, [N.Ack1(2, 1)])), Third(Idle(N.Out)), AB)
  }

  function S3(): M.Net {
    Three(One(2, 0, Idle(N.In), Finished(N.Out, 2, 9, 1, [N.Ack2(1, 2, 9, 2)])), Two(5, 1, Open(N.In, 1, [])), Third(Idle(N.Out)), AB)
  }

  function S4(): M.Net {
    Three(One(2, 0, Idle(N.In), Finished(N.Out, 2, 9, 1, [])), Two(9, 2, Finished(N.In, 1, 9, 1, [])), Third(Idle(N.Out)), AB)
  }

  // Node 3 joins node 1, which tells node 2.
  function S5(): M.Net {
    Three(One(2, 0, Open(N.In, 0, []), Finished(N.Out, 2, 9, 1, [])), Two(9, 2, Finished(N.In, 1, 9, 1, [])),
          Third(Open(N.Out, 0, [N.Welcome(3, 30001, 6, 1)])), BOTH)
  }

  function S6(): M.Net {
    Three(One(2, 0, Open(N.In, 0, [N.Welcome(1, 30001, 9, 2)]), Finished(N.Out, 2, 9, 1, [])), Two(9, 2, Finished(N.In, 1, 9, 1, [])),
          Third(Open(N.Out, 0, [])), BOTH)
  }

  function S7(): M.Net {
    Three(One(2, 0, Open(N.In, 0, []), Finished(N.Out, 2, 9, 1, [])), Two(9, 2, Finished(N.In, 1, 9, 1, [])),
          Third(Open(N.Out, 1, [N.Ack1(3, 1)])), BOTH)
  }

  function S8(): M.Net {
    Three(One(3, 0, Finished(N.In, 3, 9, 1, [N.Ack2(1, 3, 9, 3)]), Finished(N.Out, 2, 9, 1, [GROWN])), Two(9, 2, Finished(N.In, 1, 9, 1, [])),
          Third(Open(N.Out, 1, [])), BOTH)
  }

  // The news arrives; the link to node 3 breaks, and node 1 tells node 2.
  function S9(): M.Net {
    Three(One(3, 0, Finished(N.In, 3, 9, 1, [N.Ack2(1, 3, 9, 3)]), Finished(N.Out, 2, 9, 1, [])), Two(9, 3, Finished(N.In, 1, 9, 2, [])),
          Third(Open(N.Out, 1, [])), BOTH)
  }

  function S10(): M.Net {
    S9().(peer := AB)
  }

  function S11(): M.Net {
    Three(One(2, 1, Idle(N.In), Finished(N.Out, 2, 9, 1, [SHRUNK])), Two(9, 3, Finished(N.In, 1, 9, 2, [])), Third(Open(N.Out, 1, [])), AB)
  }

  // ---- the runs ---------------------------------------------------------------------------------------

  lemma Step1()
    ensures M.Next(S0(), S1())
  {
    Connects(S0(), A, B, S1());
  }

  lemma Step2()
    ensures M.Next(S1(), S2())
  {
    Delivers(S1(), B, S2());
  }

  lemma Step3()
    ensures M.Next(S2(), S3())
  {
    Delivers(S2(), A, S3());
  }

  lemma Step4()
    ensures M.Next(S3(), S4())
  {
    Delivers(S3(), B, S4());
  }

  lemma Step5()
    ensures M.Next(S4(), S5())
  {
    Connects(S4(), C, D, S5());
  }

  lemma Step6()
    ensures M.Next(S5(), S6())
  {
    Delivers(S5(), D, S6());
  }

  lemma Step7()
    ensures M.Next(S6(), S7())
  {
    Delivers(S6(), C, S7());
  }

  lemma Step8()
    ensures M.Next(S7(), S8())
  {
    Delivers(S7(), D, S8());
  }

  lemma Step9()
    ensures M.Next(S8(), S9())
  {
    Delivers(S8(), B, S9());
  }

  lemma Step10()
    ensures M.Next(S9(), S10())
  {
    assert D in S9().peer && S10() == M.Break(S9(), D);
  }

  lemma Step11()
    ensures M.Next(S10(), S11())
  {
    Loses(S10(), D, S11());
  }

  /** A run that ends with the break of the tree link of `p`, of which no end has learned yet. */
  ghost predicate EndsInBreak(run: seq<M.Net>, p: Port) {
    && M.IsRun(run, 2) && |run| > 1
    && M.Linked(run[|run| - 2], p) && run[|run| - 1] == M.Break(run[|run| - 2], p)
    && M.CanLose(run[|run| - 1], p) && M.CanLose(run[|run| - 1], run[|run| - 2].peer[p])
  }

  ghost predicate NobodyClaims(run: seq<M.Net>, p: Port)
    requires EndsInBreak(run, p)
  {
    !S.Claims(run[|run| - 1], p) && !S.Claims(run[|run| - 1], run[|run| - 2].peer[p])
  }

  ghost predicate BothClaim(run: seq<M.Net>, p: Port)
    requires EndsInBreak(run, p)
  {
    S.Claims(run[|run| - 1], p) && S.Claims(run[|run| - 1], run[|run| - 2].peer[p])
  }

  /** The link of `p` and `q` is up and finished. */
  ghost predicate Up(s: M.Net, p: Port, q: Port) {
    && M.Linked(s, p) && s.peer[p] == q
    && M.ConnAt(s, p).isConnected && M.ConnAt(s, q).isConnected
  }

  lemma BreakEnds(run: seq<M.Net>, s: M.Net, p: Port, q: Port)
    requires M.IsRun(run, 2) && run[|run| - 1] == s && Up(s, p, q)
    ensures EndsInBreak(run + [M.Break(s, p)], p)
    ensures BothClaim(run + [M.Break(s, p)], p) <==> S.Claims(s, p) && S.Claims(s, q)
    ensures NobodyClaims(run + [M.Break(s, p)], p) <==> !S.Claims(s, p) && !S.Claims(s, q)
  {
    assert M.Next(s, M.Break(s, p));
    RunExtends(run, s, M.Break(s, p));
  }

  lemma RunExtends(run: seq<M.Net>, s: M.Net, t: M.Net)
    requires M.IsRun(run, 2) && run[|run| - 1] == s && M.Next(s, t)
    ensures M.IsRun(run + [t], 2)
  {
  }

  function State(n: nat): M.Net {
    match n
    case 0 => S0()
    case 1 => S1()
    case 2 => S2()
    case 3 => S3()
    case 4 => S4()
    case 5 => S5()
    case 6 => S6()
    case 7 => S7()
    case 8 => S8()
    case 9 => S9()
    case 10 => S10()
    case _ => S11()
  }

  lemma Steps(n: nat)
    requires 0 < n <= 11
    ensures M.Next(State(n - 1), State(n))
  {
    match n
    case 1 => Step1();
    case 2 => Step2();
    case 3 => Step3();
    case 4 => Step4();
    case 5 => Step5();
    case 6 => Step6();
    case 7 => Step7();
    case 8 => Step8();
    case 9 => Step9();
    case 10 => Step10();
    case _ => Step11();
  }

  function Run(n: nat): seq<M.Net> {
    seq(n + 1, i requires 0 <= i => State(i))
  }

  lemma StartsAlone()
    ensures M.Init(State(0), 2)
  {
  }

  lemma RunIsRun(n: nat)
    requires n <= 11
    ensures M.IsRun(Run(n), 2) && Run(n)[|Run(n)| - 1] == State(n)
  {
    StartsAlone();
    forall i | 0 < i <= n ensures M.Next(Run(n)[i - 1], Run(n)[i]) {
      Steps(i);
    }
  }

  lemma GrownUnheard()
    ensures Up(S8(), A, B) && !S.Claims(S8(), A) && !S.Claims(S8(), B)
  {
  }

  lemma ShrunkUnheard()
    ensures Up(S11(), A, B) && S.Claims(S11(), A) && S.Claims(S11(), B)
  {
  }

  /** Growth lost on the link: node 1 counts node 3, node 2 does not, and neither takes its half for
      the smaller one. */
  lemma NeitherMayClaim()
    ensures exists run, p :: EndsInBreak(run, p) && NobodyClaims(run, p)
  {
    RunIsRun(8);
    GrownUnheard();
    BreakEnds(Run(8), S8(), A, B);
  }

  /** Shrinking lost on the link: node 2 still counts node 3, node 1 does not, and both claim. */
  lemma BothMayClaim()
    ensures exists run, p :: EndsInBreak(run, p) && BothClaim(run, p)
  {
    RunIsRun(11);
    ShrunkUnheard();
    BreakEnds(Run(11), S11(), A, B);
  }
}

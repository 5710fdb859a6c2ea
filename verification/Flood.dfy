/** Flooding of a packet over the handshaken links, relayed by every node that is not its receiver.
    Links deliver at any speed: a step may pick any copy that is under way. */
module Flood {
  import opened Sums
  import opened Forest
  import N = ClusterNode

  /** `visited` are the nodes the packet came to, `handled` those that processed it, `flight` the
      ports over which a copy left and has not arrived yet, `sent` those over which one ever left. */
  datatype State = State(visited: multiset<nat>, handled: multiset<nat>, flight: seq<Port>, sent: multiset<Port>)

  /** The handshaken ports of `y` below slot `n`, in slot order, without those in `ban`. */
  function OpenPorts(g: Links, n: nat, ban: set<Port>, y: nat): seq<Port> {
    if n == 0 then []
    else OpenPorts(g, n - 1, ban, y) + if Port(y, n - 1) in g && Port(y, n - 1) !in ban then [Port(y, n - 1)] else []
  }

  /** Does a node process a packet of its own? */
  predicate CaresForOwn(origin: nat, receiver: nat) {
    receiver == origin || receiver == N.BROADCAST
  }

  function Start(g: Links, k: nat, origin: nat, receiver: nat): State {
    var out := if receiver != origin then OpenPorts(g, k, {}, origin) else [];
    State(multiset{origin}, if CaresForOwn(origin, receiver) then multiset{origin} else multiset{}, out, multiset(out))
  }

  /** The copies made of one that arrives over the link of port `p`. */
  function Forwarded(g: Links, k: nat, receiver: nat, p: Port): seq<Port>
    requires p in g
  {
    if N.PassesOn(g[p].node, receiver) then OpenPorts(g, k, {p, g[p]}, g[p].node) else []
  }

  function Arrive(g: Links, k: nat, receiver: nat, s: State, c: nat): State
    requires c < |s.flight| && s.flight[c] in g
  {
    var y := g[s.flight[c]].node;
    var out := Forwarded(g, k, receiver, s.flight[c]);
    State(s.visited + multiset{y},
          s.handled + if N.CaresFor(y, receiver) then multiset{y} else multiset{},
          s.flight[..c] + s.flight[c + 1..] + out,
          s.sent + multiset(out))
  }

  ghost predicate Next(g: Links, k: nat, receiver: nat, s: State, t: State) {
    exists c :: 0 <= c < |s.flight| && s.flight[c] in g && t == Arrive(g, k, receiver, s, c)
  }

  ghost predicate IsRun(g: Links, k: nat, origin: nat, receiver: nat, run: seq<State>) {
    && run != []
    && run[0] == Start(g, k, origin, receiver)
    && forall i :: 0 < i < |run| ==> Next(g, k, receiver, run[i - 1], run[i])
  }

  // ---- what the copies under way can still reach -------------------------------------------

  ghost function Behind(g: Links, ps: seq<Port>, v: nat): int {
    if ps == [] then 0
    else (if ps[0] in g then Has(FarSide(g, ps[0]), v) else 0) + Behind(g, ps[1..], v)
  }

  ghost function Weight(g: Links, ps: seq<Port>): nat {
    if ps == [] then 0
    else (if ps[0] in g then |FarSide(g, ps[0])| else 0) + Weight(g, ps[1..])
  }

  lemma {:induction false} BehindAppend(g: Links, ps: seq<Port>, qs: seq<Port>, v: nat)
    ensures Behind(g, ps + qs, v) == Behind(g, ps, v) + Behind(g, qs, v)
    ensures Weight(g, ps + qs) == Weight(g, ps) + Weight(g, qs)
  {
    if ps == [] {
      assert ps + qs == qs;
    } else {
      assert (ps + qs)[1..] == ps[1..] + qs;
      BehindAppend(g, ps[1..], qs, v);
    }
  }

  lemma BehindRemove(g: Links, ps: seq<Port>, c: nat, v: nat)
    requires c < |ps| && ps[c] in g
    ensures Behind(g, ps, v) == Behind(g, ps[..c] + ps[c + 1..], v) + Has(FarSide(g, ps[c]), v)
    ensures Weight(g, ps) == Weight(g, ps[..c] + ps[c + 1..]) + |FarSide(g, ps[c])|
  {
    assert ps == ps[..c] + ([ps[c]] + ps[c + 1..]);
    assert ([ps[c]] + ps[c + 1..])[1..] == ps[c + 1..];
    BehindAppend(g, ps[..c], [ps[c]] + ps[c + 1..], v);
    BehindAppend(g, ps[..c], ps[c + 1..], v);
  }

  lemma {:induction false} OpenPortsAreBranches(g: Links, n: nat, ban: set<Port>, y: nat, v: nat)
    ensures Behind(g, OpenPorts(g, n, ban, y), v) == Sum(Members(Branches(g, n, ban, y), v))
    ensures Weight(g, OpenPorts(g, n, ban, y)) == Sum(Sizes(Branches(g, n, ban, y)))
    ensures forall q :: q in OpenPorts(g, n, ban, y) ==> q in g
  {
    if n == 0 {
    } else {
      OpenPortsAreBranches(g, n - 1, ban, y, v);
      LastBranch(g, n, ban, y, v);
      LastPort(g, n, ban, y, v);
    }
  }

  lemma LastBranch(g: Links, n: nat, ban: set<Port>, y: nat, v: nat)
    requires n > 0
    ensures Sum(Members(Branches(g, n, ban, y), v)) == Sum(Members(Branches(g, n - 1, ban, y), v)) + Has(Branch(g, ban, y, n - 1), v)
    ensures Sum(Sizes(Branches(g, n, ban, y))) == Sum(Sizes(Branches(g, n - 1, ban, y))) + |Branch(g, ban, y, n - 1)|
  {
    var bs, b := Branches(g, n - 1, ban, y), Branch(g, ban, y, n - 1);
    assert Branches(g, n, ban, y) == bs + [b];
    BranchAppend(bs, b, v);
  }

  lemma BranchAppend(bs: seq<set<nat>>, b: set<nat>, v: nat)
    ensures Sum(Members(bs + [b], v)) == Sum(Members(bs, v)) + Has(b, v)
    ensures Sum(Sizes(bs + [b])) == Sum(Sizes(bs)) + |b|
  {
    assert Members(bs + [b], v) == Members(bs, v) + [Has(b, v)];
    assert Sizes(bs + [b]) == Sizes(bs) + [|b|];
    SumAppend(Members(bs, v), [Has(b, v)]);
    SumAppend(Sizes(bs), [|b|]);
  }

  lemma LastPort(g: Links, n: nat, ban: set<Port>, y: nat, v: nat)
    requires n > 0
    ensures Behind(g, OpenPorts(g, n, ban, y), v) == Behind(g, OpenPorts(g, n - 1, ban, y), v) + Has(Branch(g, ban, y, n - 1), v)
    ensures Weight(g, OpenPorts(g, n, ban, y)) == Weight(g, OpenPorts(g, n - 1, ban, y)) + |Branch(g, ban, y, n - 1)|
  {
    var q := Port(y, n - 1);
    if q in g && q !in ban {
      assert [q][1..] == [];
      BehindAppend(g, OpenPorts(g, n - 1, ban, y), [q], v);
    } else {
      assert OpenPorts(g, n, ban, y) == OpenPorts(g, n - 1, ban, y);
    }
  }

  lemma {:induction false} BehindNotNegative(g: Links, ps: seq<Port>, v: nat)
    ensures Behind(g, ps, v) >= 0
  {
    if ps == [] {
    } else {
      BehindNotNegative(g, ps[1..], v);
    }
  }

  /** What lies behind a copy, or behind two of them, lies behind all copies together. */
  lemma BehindOne(g: Links, ps: seq<Port>, c: nat, v: nat)
    requires c < |ps| && ps[c] in g
    ensures Behind(g, ps, v) >= Has(FarSide(g, ps[c]), v)
  {
    BehindRemove(g, ps, c, v);
    BehindNotNegative(g, ps[..c] + ps[c + 1..], v);
  }

  lemma BehindTwo(g: Links, ps: seq<Port>, c: nat, d: nat, v: nat)
    requires c < |ps| && d < |ps| && c != d && ps[c] in g && ps[d] in g
    ensures Behind(g, ps, v) >= Has(FarSide(g, ps[c]), v) + Has(FarSide(g, ps[d]), v)
  {
    BehindRemove(g, ps, c, v);
    var rest := ps[..c] + ps[c + 1..];
    var e := if d < c then d else d - 1;
    assert rest[e] == ps[d];
    BehindOne(g, rest, e, v);
  }

  lemma {:induction false} OpenPortsOf(g: Links, n: nat, ban: set<Port>, y: nat, q: Port)
    ensures multiset(OpenPorts(g, n, ban, y))[q] == if q.node == y && q.slot < n && q in g && q !in ban then 1 else 0
  {
    if n == 0 {
    } else {
      OpenPortsOf(g, n - 1, ban, y, q);
      var ps, last := OpenPorts(g, n - 1, ban, y), Port(y, n - 1);
      if last in g && last !in ban {
        CountAppend(ps, last, q);
      } else {
        assert ps + [] == ps;
      }
    }
  }

  lemma CountAppend(ps: seq<Port>, last: Port, q: Port)
    ensures multiset(ps + [last])[q] == multiset(ps)[q] + if q == last then 1 else 0
  {
  }

  // ---- counting visits -----------------------------------------------------------------------

  /** Does every node of the tree but `v` pass the packet on? */
  ghost predicate Sought(g: Links, origin: nat, receiver: nat, v: nat) {
    forall y :: y in Nodes(g) + {origin} && y != v ==> N.PassesOn(y, receiver)
  }

  /** How often `v` was visited or still will be. */
  ghost function Due(g: Links, s: State, v: nat): int {
    s.visited[v] + Behind(g, s.flight, v)
  }

  /** The links already used or still to be used. */
  ghost function Uses(g: Links, s: State): int {
    |s.sent| + Weight(g, s.flight) - |s.flight|
  }

  /** Each node of the tree was visited once or is behind one copy under way, unless the packet was
      stopped before it; who was visited has processed the packet if it cares for it. */
  ghost predicate Counted(g: Links, origin: nat, receiver: nat, s: State) {
    && (forall p :: p in s.flight ==> p in g)
    && (forall v :: Due(g, s, v) <= Has(Cluster(g, origin), v))
    && (forall v :: Sought(g, origin, receiver, v) ==> Due(g, s, v) == Has(Cluster(g, origin), v))
    && s.visited[origin] == 1
    && (forall v :: v != origin ==> s.handled[v] == if N.CaresFor(v, receiver) then s.visited[v] else 0)
    && s.handled[origin] == (if CaresForOwn(origin, receiver) then 1 else 0)
    && Uses(g, s) <= |Cluster(g, origin)| - 1
    && (receiver == N.BROADCAST ==> Uses(g, s) == |Cluster(g, origin)| - 1)
  }

  lemma StartSplits(g: Links, k: nat, origin: nat, receiver: nat, v: nat)
    requires WellFormed(g, k) && IsForest(g)
    ensures Due(g, Start(g, k, origin, receiver), v) <= Has(Cluster(g, origin), v)
    ensures receiver != origin || v == origin ==> Due(g, Start(g, k, origin, receiver), v) == Has(Cluster(g, origin), v)
  {
    TreeSplits(g, k, {}, origin, v);
    OpenPortsAreBranches(g, k, {}, origin, v);
    BehindNotNegative(g, OpenPorts(g, k, {}, origin), v);
  }

  lemma StartUses(g: Links, k: nat, origin: nat, receiver: nat)
    requires WellFormed(g, k) && IsForest(g)
    ensures
      var s := Start(g, k, origin, receiver);
      && Uses(g, s) <= |Cluster(g, origin)| - 1
      && (receiver != origin ==> Uses(g, s) == |Cluster(g, origin)| - 1)
      && forall p :: p in s.flight ==> p in g
  {
    TreeSplits(g, k, {}, origin, origin);
    OpenPortsAreBranches(g, k, {}, origin, origin);
  }

  lemma StartCounted(g: Links, k: nat, origin: nat, receiver: nat)
    requires WellFormed(g, k) && IsForest(g) && N.BROADCAST !in Nodes(g) + {origin}
    ensures Counted(g, origin, receiver, Start(g, k, origin, receiver))
  {
    var s := Start(g, k, origin, receiver);
    StartUses(g, k, origin, receiver);
    forall v ensures Due(g, s, v) <= Has(Cluster(g, origin), v)
             ensures Sought(g, origin, receiver, v) ==> Due(g, s, v) == Has(Cluster(g, origin), v) {
      StartSplits(g, k, origin, receiver, v);
    }
  }

  /** The forwarded copies take over what the arriving copy had behind it, except the node itself. */
  lemma ForwardSplits(g: Links, k: nat, receiver: nat, p: Port, v: nat)
    requires WellFormed(g, k) && IsForest(g) && p in g
    ensures
      var y, out := g[p].node, Forwarded(g, k, receiver, p);
      && Behind(g, out, v) + (if v == y then 1 else 0) <= Has(FarSide(g, p), v)
      && (N.PassesOn(y, receiver) || v == y ==> Behind(g, out, v) + (if v == y then 1 else 0) == Has(FarSide(g, p), v))
      && Weight(g, out) < |FarSide(g, p)|
      && (N.PassesOn(y, receiver) ==> Weight(g, out) == |FarSide(g, p)| - 1)
      && forall q :: q in out ==> q in g
  {
    var y, ban := g[p].node, {p, g[p]};
    assert g[p] in g;
    TreeSplits(g, k, ban, y, v);
    OpenPortsAreBranches(g, k, ban, y, v);
    BehindNotNegative(g, OpenPorts(g, k, ban, y), v);
    ReachIsLeastClosed(g, k, ban, y);
  }

  lemma ArriveSplits(g: Links, k: nat, receiver: nat, s: State, c: nat, v: nat)
    requires WellFormed(g, k) && IsForest(g) && c < |s.flight| && s.flight[c] in g
    ensures
      var t, y := Arrive(g, k, receiver, s, c), g[s.flight[c]].node;
      && Due(g, t, v) <= Due(g, s, v)
      && (N.PassesOn(y, receiver) || v == y ==> Due(g, t, v) == Due(g, s, v))
      && Weight(g, t.flight) < Weight(g, s.flight)
      && Uses(g, t) <= Uses(g, s)
      && (N.PassesOn(y, receiver) ==> Uses(g, t) == Uses(g, s))
  {
    var p := s.flight[c];
    ForwardSplits(g, k, receiver, p, v);
    BehindRemove(g, s.flight, c, v);
    BehindAppend(g, s.flight[..c] + s.flight[c + 1..], Forwarded(g, k, receiver, p), v);
  }

  /** A copy arrives at a node the packet has not come to before. */
  lemma ArrivesFresh(g: Links, k: nat, origin: nat, receiver: nat, s: State, c: nat)
    requires WellFormed(g, k) && Counted(g, origin, receiver, s) && c < |s.flight|
    ensures var y := g[s.flight[c]].node; s.visited[y] == 0 && y in Nodes(g)
  {
    var p := s.flight[c];
    assert p in g && g[p] in g;
    ReachIsLeastClosed(g, k, {p, g[p]}, g[p].node);
    BehindOne(g, s.flight, c, g[p].node);
    assert Due(g, s, g[p].node) <= 1;
  }

  lemma ArriveDue(g: Links, k: nat, origin: nat, receiver: nat, s: State, c: nat, v: nat)
    requires WellFormed(g, k) && IsForest(g) && Counted(g, origin, receiver, s) && c < |s.flight|
    ensures Due(g, Arrive(g, k, receiver, s, c), v) <= Has(Cluster(g, origin), v)
    ensures Sought(g, origin, receiver, v) ==> Due(g, Arrive(g, k, receiver, s, c), v) == Has(Cluster(g, origin), v)
  {
    ArrivesFresh(g, k, origin, receiver, s, c);
    ArriveSplits(g, k, receiver, s, c, v);
    assert Due(g, s, v) <= Has(Cluster(g, origin), v);
  }

  /** The node that is reached counts as visited, and as one that processed the packet if it cares. */
  lemma ArriveHandles(g: Links, k: nat, origin: nat, receiver: nat, s: State, c: nat)
    requires WellFormed(g, k) && N.BROADCAST !in Nodes(g) && Counted(g, origin, receiver, s) && c < |s.flight|
    ensures
      var t := Arrive(g, k, receiver, s, c);
      && t.visited[origin] == 1
      && (forall v :: v != origin ==> t.handled[v] == if N.CaresFor(v, receiver) then t.visited[v] else 0)
      && t.handled[origin] == (if CaresForOwn(origin, receiver) then 1 else 0)
  {
    ArrivesFresh(g, k, origin, receiver, s, c);
  }

  lemma ArriveUses(g: Links, k: nat, origin: nat, receiver: nat, s: State, c: nat)
    requires WellFormed(g, k) && IsForest(g) && N.BROADCAST !in Nodes(g)
    requires Counted(g, origin, receiver, s) && c < |s.flight|
    ensures
      var t := Arrive(g, k, receiver, s, c);
      && (forall p :: p in t.flight ==> p in g)
      && Weight(g, t.flight) < Weight(g, s.flight)
      && Uses(g, t) <= |Cluster(g, origin)| - 1
      && (receiver == N.BROADCAST ==> Uses(g, t) == |Cluster(g, origin)| - 1)
  {
    var y := g[s.flight[c]].node;
    ArrivesFresh(g, k, origin, receiver, s, c);
    ArriveSplits(g, k, receiver, s, c, y);
    ForwardSplits(g, k, receiver, s.flight[c], y);
  }

  lemma ArriveCounted(g: Links, k: nat, origin: nat, receiver: nat, s: State, c: nat)
    requires WellFormed(g, k) && IsForest(g) && N.BROADCAST !in Nodes(g)
    requires Counted(g, origin, receiver, s) && c < |s.flight|
    ensures Counted(g, origin, receiver, Arrive(g, k, receiver, s, c))
    ensures Weight(g, Arrive(g, k, receiver, s, c).flight) < Weight(g, s.flight)
  {
    var t := Arrive(g, k, receiver, s, c);
    ArriveHandles(g, k, origin, receiver, s, c);
    ArriveUses(g, k, origin, receiver, s, c);
    forall v ensures Due(g, t, v) <= Has(Cluster(g, origin), v)
             ensures Sought(g, origin, receiver, v) ==> Due(g, t, v) == Has(Cluster(g, origin), v) {
      ArriveDue(g, k, origin, receiver, s, c, v);
    }
  }

  // ---- links crossed ---------------------------------------------------------------------------

  /** Copies that left over the link of `p`, in either direction. */
  ghost function Crossings(g: Links, s: State, p: Port): nat
    requires p in g
  {
    s.sent[p] + s.sent[g[p]]
  }

  /** A copy was sent by a node that was visited, to one that was or still will be; no link is
      crossed twice; and who was visited and is no end of the road has used all of its links. */
  ghost predicate TracedAt(g: Links, receiver: nat, s: State, p: Port) {
    && (p in s.flight ==> p in s.sent)
    && (p in s.sent ==> p in g && p.node in s.visited && (p in s.flight || g[p].node in s.visited))
    && (p in g ==> Crossings(g, s, p) <= 1)
    && (p in g && p.node in s.visited && N.PassesOn(p.node, receiver) ==> Crossings(g, s, p) == 1)
  }

  ghost predicate Traced(g: Links, receiver: nat, s: State) {
    forall p :: TracedAt(g, receiver, s, p)
  }

  lemma StartCrossings(g: Links, k: nat, origin: nat, receiver: nat, p: Port)
    requires WellFormed(g, k)
    ensures
      var s := Start(g, k, origin, receiver);
      && (p in s.sent ==> p in g && p.node == origin)
      && (p in g ==> Crossings(g, s, p) <= 1)
      && (p in g && p.node == origin != receiver ==> Crossings(g, s, p) == 1)
  {
    OpenPortsOf(g, k, {}, origin, p);
    if p in g {
      OpenPortsOf(g, k, {}, origin, g[p]);
    }
  }

  lemma StartTraced(g: Links, k: nat, origin: nat, receiver: nat)
    requires WellFormed(g, k)
    ensures Traced(g, receiver, Start(g, k, origin, receiver))
  {
    forall p ensures TracedAt(g, receiver, Start(g, k, origin, receiver), p) {
      StartCrossings(g, k, origin, receiver, p);
    }
  }

  /** Two copies under way never head for the same node. */
  lemma CopiesApart(g: Links, k: nat, origin: nat, receiver: nat, s: State, c: nat, d: nat)
    requires WellFormed(g, k) && Counted(g, origin, receiver, s) && c < |s.flight| && d < |s.flight| && c != d
    ensures g[s.flight[c]].node != g[s.flight[d]].node
  {
    var p, q := s.flight[c], s.flight[d];
    var y := g[p].node;
    ReachIsLeastClosed(g, k, {p, g[p]}, y);
    ReachIsLeastClosed(g, k, {q, g[q]}, g[q].node);
    BehindTwo(g, s.flight, c, d, y);
    assert Due(g, s, y) <= 1;
  }

  lemma ForwardedOnce(g: Links, k: nat, receiver: nat, p: Port, q: Port)
    requires WellFormed(g, k) && p in g && q in Forwarded(g, k, receiver, p)
    ensures q in g && q.node == g[p].node && q != g[p] && multiset(Forwarded(g, k, receiver, p))[q] == 1
  {
    OpenPortsOf(g, k, {p, g[p]}, g[p].node, q);
  }

  /** What is forwarded goes over links that no copy has crossed. */
  lemma ForwardsFresh(g: Links, k: nat, origin: nat, receiver: nat, s: State, c: nat, q: Port)
    requires WellFormed(g, k) && Counted(g, origin, receiver, s) && Traced(g, receiver, s) && c < |s.flight|
    requires q in g && q.node == g[s.flight[c]].node && q != g[s.flight[c]]
    ensures Crossings(g, s, q) == 0
  {
    ArrivesFresh(g, k, origin, receiver, s, c);
    assert g[g[q]] == q;
    assert TracedAt(g, receiver, s, q) && TracedAt(g, receiver, s, g[q]);
    if g[q] in s.sent {
      var d :| 0 <= d < |s.flight| && s.flight[d] == g[q];
      CopiesApart(g, k, origin, receiver, s, c, d);
    }
  }

  lemma ForwardsAll(g: Links, k: nat, receiver: nat, p: Port, q: Port)
    requires WellFormed(g, k) && p in g && q in g && q.node == g[p].node && N.PassesOn(q.node, receiver)
    ensures q in Forwarded(g, k, receiver, p) || q == g[p]
  {
    OpenPortsOf(g, k, {p, g[p]}, q.node, q);
  }

  lemma ArriveSources(g: Links, k: nat, receiver: nat, s: State, c: nat, q: Port)
    requires WellFormed(g, k) && TracedAt(g, receiver, s, q) && c < |s.flight| && s.flight[c] in g
    ensures
      var t := Arrive(g, k, receiver, s, c);
      && (q in t.flight ==> q in t.sent)
      && (q in t.sent ==> q in g && q.node in t.visited && (q in t.flight || g[q].node in t.visited))
  {
    var p := s.flight[c];
    var out := Forwarded(g, k, receiver, p);
    FlightAfter(s.flight, c, out);
    if q in out {
      ForwardedOnce(g, k, receiver, p, q);
    }
  }

  lemma ArriveCrossings(g: Links, k: nat, origin: nat, receiver: nat, s: State, c: nat, q: Port)
    requires WellFormed(g, k) && Counted(g, origin, receiver, s) && Traced(g, receiver, s) && c < |s.flight|
    requires q in g
    ensures Crossings(g, Arrive(g, k, receiver, s, c), q) <= 1
  {
    var p := s.flight[c];
    var out := Forwarded(g, k, receiver, p);
    assert g[g[q]] == q && TracedAt(g, receiver, s, q);
    if q in out {
      ForwardedOnce(g, k, receiver, p, q);
      ForwardsFresh(g, k, origin, receiver, s, c, q);
    }
    if g[q] in out {
      ForwardedOnce(g, k, receiver, p, g[q]);
      ForwardsFresh(g, k, origin, receiver, s, c, g[q]);
    }
  }

  lemma VisitedUsesAll(g: Links, k: nat, receiver: nat, s: State, c: nat, q: Port)
    requires WellFormed(g, k) && Traced(g, receiver, s) && c < |s.flight| && s.flight[c] in g && q in g
    requires q.node in Arrive(g, k, receiver, s, c).visited && N.PassesOn(q.node, receiver)
    ensures Crossings(g, Arrive(g, k, receiver, s, c), q) >= 1
  {
    var p := s.flight[c];
    assert g[g[p]] == p && TracedAt(g, receiver, s, p) && TracedAt(g, receiver, s, q);
    if q.node == g[p].node {
      ForwardsAll(g, k, receiver, p, q);
    }
  }

  lemma ArriveTraced(g: Links, k: nat, origin: nat, receiver: nat, s: State, c: nat)
    requires WellFormed(g, k) && Counted(g, origin, receiver, s) && Traced(g, receiver, s) && c < |s.flight|
    ensures Traced(g, receiver, Arrive(g, k, receiver, s, c))
  {
    var t := Arrive(g, k, receiver, s, c);
    forall q ensures TracedAt(g, receiver, t, q) {
      assert TracedAt(g, receiver, s, q);
      ArriveSources(g, k, receiver, s, c, q);
      if q in g {
        ArriveCrossings(g, k, origin, receiver, s, c, q);
        if q.node in t.visited && N.PassesOn(q.node, receiver) {
          VisitedUsesAll(g, k, receiver, s, c, q);
        }
      }
    }
  }

  lemma FlightAfter(ps: seq<Port>, c: nat, out: seq<Port>)
    requires c < |ps|
    ensures forall q :: q in ps[..c] + ps[c + 1..] + out ==> q in ps || q in out
    ensures forall q :: q in out || (q in ps && q != ps[c]) ==> q in ps[..c] + ps[c + 1..] + out
  {
  }

  /** When nothing is under way any more, a node that nothing shields was visited if it is in the tree. */
  lemma AllVisited(g: Links, origin: nat, receiver: nat, s: State, v: nat)
    requires Counted(g, origin, receiver, s) && s.flight == [] && Sought(g, origin, receiver, v)
    ensures s.visited[v] == Has(Cluster(g, origin), v)
    ensures v != origin ==> s.handled[v] == if N.CaresFor(v, receiver) then Has(Cluster(g, origin), v) else 0
  {
    assert Due(g, s, v) == s.visited[v];
  }

  lemma BroadcastCameToAll(g: Links, k: nat, origin: nat, s: State)
    requires N.BROADCAST !in Nodes(g) + {origin} && Counted(g, origin, N.BROADCAST, s) && s.flight == []
    ensures s.visited == s.handled == multiset(Cluster(g, origin))
  {
    forall v ensures s.visited[v] == s.handled[v] == Has(Cluster(g, origin), v) {
      AllVisited(g, origin, N.BROADCAST, s, v);
    }
  }

  lemma BroadcastCrossedAll(g: Links, k: nat, origin: nat, s: State)
    requires N.BROADCAST !in Nodes(g) + {origin} && Traced(g, N.BROADCAST, s)
    requires s.visited == multiset(Cluster(g, origin))
    ensures forall p :: p in g && p.node in Cluster(g, origin) ==> Crossings(g, s, p) == 1
  {
    forall p | p in g && p.node in Cluster(g, origin) ensures Crossings(g, s, p) == 1 {
      assert p.node in Nodes(g) && p.node in s.visited && TracedAt(g, N.BROADCAST, s, p);
    }
  }

  lemma HopsCameToAll(g: Links, origin: nat, receiver: nat, s: State)
    requires N.HOPS_BASE <= receiver < N.HOPS_BASE + 1000 && receiver != N.HOPS_BASE + 1
    requires receiver !in Nodes(g) + {origin} && Counted(g, origin, receiver, s) && s.flight == []
    ensures s.handled == multiset(Cluster(g, origin) - {origin})
  {
    forall v ensures s.handled[v] == multiset(Cluster(g, origin) - {origin})[v] {
      AllVisited(g, origin, receiver, s, v);
    }
  }

  // ---- main results ------------------------------------------------------------------------

  lemma {:induction false} RunKeeps(g: Links, k: nat, origin: nat, receiver: nat, run: seq<State>)
    requires WellFormed(g, k) && IsForest(g) && N.BROADCAST !in Nodes(g) + {origin}
    requires IsRun(g, k, origin, receiver, run)
    ensures Counted(g, origin, receiver, run[|run| - 1]) && Traced(g, receiver, run[|run| - 1])
    ensures |run| - 1 + Weight(g, run[|run| - 1].flight) <= Weight(g, run[0].flight)
  {
    if |run| == 1 {
      StartCounted(g, k, origin, receiver);
      StartTraced(g, k, origin, receiver);
    } else {
      var before := run[..|run| - 1];
      RunKeeps(g, k, origin, receiver, before);
      var s, t := run[|run| - 2], run[|run| - 1];
      assert before[|before| - 1] == s;
      assert Next(g, k, receiver, s, t);
      var c :| 0 <= c < |s.flight| && s.flight[c] in g && t == Arrive(g, k, receiver, s, c);
      ArriveCounted(g, k, origin, receiver, s, c);
      ArriveTraced(g, k, origin, receiver, s, c);
    }
  }

  /** No run is longer than the tree, and at no time has more than one copy crossed a link, in
      either direction. */
  lemma FloodingEnds(g: Links, k: nat, origin: nat, receiver: nat, run: seq<State>)
    requires WellFormed(g, k) && IsForest(g) && N.BROADCAST !in Nodes(g) + {origin}
    requires receiver != N.SHORTEST_SINK && IsRun(g, k, origin, receiver, run)
    ensures |run| <= |Cluster(g, origin)|
    ensures forall p :: p in g ==> Crossings(g, run[|run| - 1], p) <= 1
    ensures run[|run| - 1].flight == [] ==> |run[|run| - 1].sent| <= |Cluster(g, origin)| - 1
  {
    RunKeeps(g, k, origin, receiver, run);
    var s := run[|run| - 1];
    forall p | p in g ensures Crossings(g, s, p) <= 1 {
      assert TracedAt(g, receiver, s, p);
    }
    StartCounted(g, k, origin, receiver);
    TreeSplits(g, k, {}, origin, origin);
    OpenPortsAreBranches(g, k, {}, origin, origin);
  }

  /** A finished broadcast was processed exactly once by each node of the tree, and by no other, and
      crossed each link of the tree exactly once. */
  lemma BroadcastHandledOnce(g: Links, k: nat, origin: nat, run: seq<State>)
    requires WellFormed(g, k) && IsForest(g) && N.BROADCAST !in Nodes(g) + {origin}
    requires IsRun(g, k, origin, N.BROADCAST, run) && run[|run| - 1].flight == []
    ensures run[|run| - 1].handled == multiset(Cluster(g, origin))
    ensures forall p :: p in g && p.node in Cluster(g, origin) ==> Crossings(g, run[|run| - 1], p) == 1
    ensures |run[|run| - 1].sent| == |Cluster(g, origin)| - 1
  {
    RunKeeps(g, k, origin, N.BROADCAST, run);
    BroadcastCameToAll(g, k, origin, run[|run| - 1]);
    BroadcastCrossedAll(g, k, origin, run[|run| - 1]);
  }

  /** A finished unicast was processed exactly once if its receiver is in the tree, else never. */
  lemma UnicastHandledOnce(g: Links, k: nat, origin: nat, receiver: nat, run: seq<State>)
    requires WellFormed(g, k) && IsForest(g) && N.BROADCAST !in Nodes(g) + {origin}
    requires 0 < receiver < 30000 || (31000 <= receiver && receiver != N.SHORTEST_SINK)
    requires IsRun(g, k, origin, receiver, run) && run[|run| - 1].flight == []
    ensures run[|run| - 1].handled == if receiver in Cluster(g, origin) then multiset{receiver} else multiset{}
  {
    RunKeeps(g, k, origin, receiver, run);
    var s := run[|run| - 1];
    AllVisited(g, origin, receiver, s, receiver);
  }

  /** A packet addressed to a number of hops is processed by the whole tree but its origin, whatever
      the number unless it is one: relays do not count it down. */
  lemma HopsAreNotCounted(g: Links, k: nat, origin: nat, receiver: nat, run: seq<State>)
    requires WellFormed(g, k) && IsForest(g) && N.BROADCAST !in Nodes(g) + {origin}
    requires N.HOPS_BASE <= receiver < N.HOPS_BASE + 1000 && receiver != N.HOPS_BASE + 1
    requires receiver !in Nodes(g) + {origin}
    requires IsRun(g, k, origin, receiver, run) && run[|run| - 1].flight == []
    ensures run[|run| - 1].handled == multiset(Cluster(g, origin) - {origin})
  {
    RunKeeps(g, k, origin, receiver, run);
    HopsCameToAll(g, origin, receiver, run[|run| - 1]);
  }
}

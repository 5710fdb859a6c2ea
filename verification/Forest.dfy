/** Sums over sequences of integers, one entry per connection slot of a node. */
module Sums {
  function Sum(s: seq<int>): int {
    if s == [] then 0 else s[0] + Sum(s[1..])
  }

  lemma {:induction false} SumUpdate(s: seq<int>, i: nat, v: int)
    requires i < |s|
    ensures Sum(s[i := v]) == Sum(s) - s[i] + v
  {
    if i == 0 {
      assert s[0 := v][1..] == s[1..];
    } else {
      assert s[i := v][1..] == s[1..][i - 1 := v];
      SumUpdate(s[1..], i - 1, v);
    }
  }

  lemma {:induction false} SumAppend(s: seq<int>, t: seq<int>)
    ensures Sum(s + t) == Sum(s) + Sum(t)
  {
    if s == [] {
      assert s + t == t;
    } else {
      assert (s + t)[1..] == s[1..] + t;
      SumAppend(s[1..], t);
    }
  }
}

/** The graph theory of mesh links. A link is a pair of ports (a node and one of its connection
    slots). A set of links is a forest when each link is the only one that crosses some cut. */
module Forest {
  import opened Sums

  datatype Port = Port(node: nat, slot: nat)

  /** The partner port of every port that has a link. */
  type Links = map<Port, Port>

  ghost predicate WellFormed(g: Links, k: nat) {
    forall p :: p in g ==> p.slot < k && g[p] in g && g[g[p]] == p && g[p].node != p.node
  }

  ghost predicate OnlyCrossing(g: Links, p: Port, s: set<nat>)
    requires p in g
  {
    && p.node !in s
    && g[p].node in s
    && forall q :: q in g && q != p && q != g[p] ==> (q.node in s <==> g[q].node in s)
  }

  ghost predicate IsForest(g: Links) {
    forall p :: p in g ==> exists s :: OnlyCrossing(g, p, s)
  }

  function Nodes(g: Links): set<nat> {
    set p | p in g :: p.node
  }

  // ---- reachability ----------------------------------------------------------------------

  /** `w` lists the ports by which a walk from `u` to `v` leaves each node; it avoids `ban`. */
  ghost predicate Walk(g: Links, ban: set<Port>, w: seq<Port>, u: nat, v: nat) {
    if w == [] then u == v
    else w[0] in g && w[0] !in ban && w[0].node == u && Walk(g, ban, w[1..], g[w[0]].node, v)
  }

  ghost function Reach(g: Links, ban: set<Port>, u: nat): set<nat> {
    set v | v in Nodes(g) + {u} && exists w :: Walk(g, ban, w, u, v)
  }

  /** The nodes in one tree with `u`. */
  ghost function Cluster(g: Links, u: nat): set<nat> {
    Reach(g, {}, u)
  }

  /** The nodes that hang behind the link of port `p`. */
  ghost function FarSide(g: Links, p: Port): set<nat>
    requires p in g
  {
    Reach(g, {p, g[p]}, g[p].node)
  }

  ghost predicate Closed(g: Links, ban: set<Port>, s: set<nat>) {
    forall q :: q in g && q !in ban && q.node in s ==> g[q].node in s
  }

  lemma {:induction false} WalkExtend(g: Links, ban: set<Port>, w: seq<Port>, u: nat, q: Port)
    requires q in g && q !in ban && Walk(g, ban, w, u, q.node)
    ensures Walk(g, ban, w + [q], u, g[q].node)
  {
    if w == [] {
      assert (w + [q])[1..] == [];
      assert Walk(g, ban, [], g[q].node, g[q].node);
    } else {
      WalkExtend(g, ban, w[1..], g[w[0]].node, q);
      assert (w + [q])[1..] == w[1..] + [q];
    }
  }

  lemma {:induction false} WalkStays(g: Links, ban: set<Port>, w: seq<Port>, u: nat, v: nat, s: set<nat>)
    requires Closed(g, ban, s) && u in s && Walk(g, ban, w, u, v)
    ensures v in s
  {
    if w == [] {
    } else {
      WalkStays(g, ban, w[1..], g[w[0]].node, v, s);
    }
  }

  /** `Reach` is the least set that holds `u` and is closed under the links outside `ban`. */
  lemma ReachIsLeastClosed(g: Links, k: nat, ban: set<Port>, u: nat)
    requires WellFormed(g, k)
    ensures u in Reach(g, ban, u) && Closed(g, ban, Reach(g, ban, u))
    ensures forall s :: u in s && Closed(g, ban, s) ==> Reach(g, ban, u) <= s
  {
    assert Walk(g, ban, [], u, u);
    forall q | q in g && q !in ban && q.node in Reach(g, ban, u)
      ensures g[q].node in Reach(g, ban, u)
    {
      var w :| Walk(g, ban, w, u, q.node);
      WalkExtend(g, ban, w, u, q);
      assert g[q] in g;
    }
    forall s, v | u in s && Closed(g, ban, s) && v in Reach(g, ban, u)
      ensures v in s
    {
      var w :| Walk(g, ban, w, u, v);
      WalkStays(g, ban, w, u, v, s);
    }
  }

  // ---- how a tree splits at a node -------------------------------------------------------

  /** What a walk that reaches `y` over `ban` can still find: one branch for every slot of `y`. */
  ghost function Branch(g: Links, ban: set<Port>, y: nat, i: nat): set<nat> {
    if Port(y, i) in g && Port(y, i) !in ban then FarSide(g, Port(y, i)) else {}
  }

  ghost function Branches(g: Links, k: nat, ban: set<Port>, y: nat): seq<set<nat>> {
    seq(k, i requires 0 <= i => Branch(g, ban, y, i))
  }

  /** `ban` is nothing, or a link with one end at `y`. */
  ghost predicate EntersAt(g: Links, ban: set<Port>, y: nat) {
    forall r :: r in ban ==> r in g && g[r] in ban && (r.node == y || g[r].node == y)
  }

  /** A cut that only the link of `q` crosses bounds what lies behind `q`. */
  lemma FarSideInCut(g: Links, k: nat, q: Port, t: set<nat>, s: set<nat>)
    requires WellFormed(g, k) && q in g && OnlyCrossing(g, q, t) && g[q].node in s
    requires forall r :: r in g && r != q && r != g[q] && r.node in s * t ==> g[r].node in s
    ensures FarSide(g, q) <= s * t
  {
    ReachIsLeastClosed(g, k, {q, g[q]}, g[q].node);
    assert Closed(g, {q, g[q]}, s * t);
  }

  lemma BranchInside(g: Links, k: nat, ban: set<Port>, y: nat, i: nat)
    requires WellFormed(g, k) && IsForest(g) && EntersAt(g, ban, y)
    ensures Branch(g, ban, y, i) <= Reach(g, ban, y)
    ensures y !in Branch(g, ban, y, i)
  {
    var q := Port(y, i);
    if q in g && q !in ban {
      var t :| OnlyCrossing(g, q, t);
      var s := Reach(g, ban, y);
      ReachIsLeastClosed(g, k, ban, y);
      forall r | r in g && r != q && r != g[q] && r.node in s * t ensures g[r].node in s {
        if r in ban {
          assert r.node != y && g[r].node == y;
        }
      }
      FarSideInCut(g, k, q, t, s);
    }
  }

  lemma BranchesApart(g: Links, k: nat, ban: set<Port>, y: nat, i: nat, j: nat)
    requires WellFormed(g, k) && IsForest(g) && i != j
    ensures Branch(g, ban, y, i) !! Branch(g, ban, y, j)
  {
    var p, q := Port(y, i), Port(y, j);
    if p in g && q in g && p !in ban && q !in ban {
      var t :| OnlyCrossing(g, p, t);
      var u :| OnlyCrossing(g, q, u);
      assert g[q] != p && g[p] != q && (q.node in t <==> g[q].node in t);
      FarSideInCut(g, k, p, t, t);
      var s := u - t;
      forall r | r in g && r != q && r != g[q] && r.node in s * u ensures g[r].node in s {
        assert r != g[p] && (r == p ==> p.node !in u);
      }
      FarSideInCut(g, k, q, u, s);
    }
  }

  ghost function Union(bs: seq<set<nat>>): set<nat> {
    if bs == [] then {} else bs[0] + Union(bs[1..])
  }

  lemma {:induction false} UnionMember(bs: seq<set<nat>>, v: nat)
    ensures v in Union(bs) <==> exists i :: 0 <= i < |bs| && v in bs[i]
  {
    if bs == [] {
    } else {
      UnionMember(bs[1..], v);
      if v in Union(bs[1..]) {
        var i :| 0 <= i < |bs[1..]| && v in bs[1..][i];
        assert v in bs[i + 1];
      }
      if i :| 0 < i < |bs| && v in bs[i] {
        assert v in bs[1..][i - 1];
      }
    }
  }

  lemma BranchesMember(g: Links, k: nat, ban: set<Port>, y: nat, v: nat)
    ensures v in Union(Branches(g, k, ban, y)) <==> exists i :: 0 <= i < k && v in Branch(g, ban, y, i)
  {
    var bs := Branches(g, k, ban, y);
    UnionMember(bs, v);
    if i :| 0 <= i < k && v in Branch(g, ban, y, i) {
      assert v in bs[i];
    }
  }

  lemma BranchesClosed(g: Links, k: nat, ban: set<Port>, y: nat, q: Port)
    requires WellFormed(g, k) && q in g && q !in ban
    requires q.node == y || q.node in Union(Branches(g, k, ban, y))
    ensures g[q].node == y || g[q].node in Union(Branches(g, k, ban, y))
  {
    BranchesMember(g, k, ban, y, g[q].node);
    if q.node == y {
      ReachIsLeastClosed(g, k, {q, g[q]}, g[q].node);
      assert g[q].node in Branch(g, ban, y, q.slot);
    } else {
      BranchesMember(g, k, ban, y, q.node);
      var i :| 0 <= i < k && q.node in Branch(g, ban, y, i);
      var p := Port(y, i);
      if q != g[p] {
        ReachIsLeastClosed(g, k, {p, g[p]}, g[p].node);
        assert g[q].node in Branch(g, ban, y, i);
      }
    }
  }

  lemma BranchesInside(g: Links, k: nat, ban: set<Port>, y: nat, v: nat)
    requires WellFormed(g, k) && IsForest(g) && EntersAt(g, ban, y)
    requires v in Union(Branches(g, k, ban, y))
    ensures v in Reach(g, ban, y) && v != y
  {
    BranchesMember(g, k, ban, y, v);
    var i :| 0 <= i < k && v in Branch(g, ban, y, i);
    BranchInside(g, k, ban, y, i);
  }

  lemma BranchesReachAll(g: Links, k: nat, ban: set<Port>, y: nat)
    requires WellFormed(g, k)
    ensures y in Reach(g, ban, y) && Reach(g, ban, y) <= {y} + Union(Branches(g, k, ban, y))
  {
    var u := {y} + Union(Branches(g, k, ban, y));
    assert Closed(g, ban, u) by {
      forall q | q in g && q !in ban && q.node in u ensures g[q].node in u {
        BranchesClosed(g, k, ban, y, q);
      }
    }
    ReachIsLeastClosed(g, k, ban, y);
  }

  lemma BranchesCover(g: Links, k: nat, ban: set<Port>, y: nat)
    requires WellFormed(g, k) && IsForest(g) && EntersAt(g, ban, y)
    ensures Reach(g, ban, y) == {y} + Union(Branches(g, k, ban, y))
    ensures y !in Union(Branches(g, k, ban, y))
  {
    BranchesReachAll(g, k, ban, y);
    forall v | v in Union(Branches(g, k, ban, y)) ensures v in Reach(g, ban, y) && v != y {
      BranchesInside(g, k, ban, y, v);
    }
  }

  function Has(s: set<nat>, v: nat): int {
    if v in s then 1 else 0
  }

  ghost function Sizes(bs: seq<set<nat>>): seq<int> {
    seq(|bs|, i requires 0 <= i < |bs| => |bs[i]|)
  }

  ghost function Members(bs: seq<set<nat>>, v: nat): seq<int> {
    seq(|bs|, i requires 0 <= i < |bs| => Has(bs[i], v))
  }

  lemma FirstIsApart(bs: seq<set<nat>>)
    requires bs != [] && forall i, j :: 0 <= i < j < |bs| ==> bs[i] !! bs[j]
    ensures bs[0] !! Union(bs[1..])
  {
    forall x | x in bs[0] ensures x !in Union(bs[1..]) {
      UnionMember(bs[1..], x);
      assert forall i :: 0 <= i < |bs[1..]| ==> bs[1..][i] == bs[i + 1];
    }
  }

  lemma {:induction false} DisjointUnion(bs: seq<set<nat>>, v: nat)
    requires forall i, j :: 0 <= i < j < |bs| ==> bs[i] !! bs[j]
    ensures |Union(bs)| == Sum(Sizes(bs))
    ensures Has(Union(bs), v) == Sum(Members(bs, v))
  {
    if bs == [] {
    } else {
      var rest := bs[1..];
      assert forall i, j :: 0 <= i < j < |rest| ==> rest[i] !! rest[j] by {
        assert forall i :: 0 <= i < |rest| ==> rest[i] == bs[i + 1];
      }
      DisjointUnion(rest, v);
      FirstIsApart(bs);
      assert Sizes(bs)[1..] == Sizes(rest);
      assert Members(bs, v)[1..] == Members(rest, v);
    }
  }

  /** The tree seen from `y` is `y` itself and its branches, each node counted once. */
  lemma TreeSplits(g: Links, k: nat, ban: set<Port>, y: nat, v: nat)
    requires WellFormed(g, k) && IsForest(g) && EntersAt(g, ban, y)
    ensures |Reach(g, ban, y)| == 1 + Sum(Sizes(Branches(g, k, ban, y)))
    ensures Has(Reach(g, ban, y), v) == (if v == y then 1 else 0) + Sum(Members(Branches(g, k, ban, y), v))
  {
    var bs := Branches(g, k, ban, y);
    BranchesCover(g, k, ban, y);
    forall i, j | 0 <= i < j < k ensures bs[i] !! bs[j] {
      BranchesApart(g, k, ban, y, i, j);
    }
    DisjointUnion(bs, v);
  }

  // ---- ledgers ---------------------------------------------------------------------------

  /** What node `y` credits to its slots other than those in `ban`. */
  ghost function Credits(g: Links, k: nat, c: map<Port, int>, ban: set<Port>, y: nat): seq<int> {
    seq(k, i requires 0 <= i => if Port(y, i) in g && Port(y, i) in c && Port(y, i) !in ban then c[Port(y, i)] else 0)
  }

  /** Every port credits its link with one plus what the partner credits to its other links. */
  ghost predicate Balanced(g: Links, k: nat, c: map<Port, int>) {
    forall p :: p in g ==> BalancedAt(g, k, c, p)
  }

  ghost predicate BalancedAt(g: Links, k: nat, c: map<Port, int>, p: Port)
    requires p in g
  {
    p in c && c[p] == 1 + Sum(Credits(g, k, c, {p, g[p]}, g[p].node))
  }

  lemma CreditsAreSizes(g: Links, k: nat, c: map<Port, int>, ban: set<Port>, y: nat)
    requires WellFormed(g, k) && IsForest(g) && EntersAt(g, ban, y)
    requires forall i :: 0 <= i < k ==> Credits(g, k, c, ban, y)[i] == |Branch(g, ban, y, i)|
    ensures 1 + Sum(Credits(g, k, c, ban, y)) == |Reach(g, ban, y)|
  {
    assert Credits(g, k, c, ban, y) == Sizes(Branches(g, k, ban, y));
    TreeSplits(g, k, ban, y, y);
  }

  /** Tree induction: in a forest the balance equations force the true sizes. */
  lemma {:induction false} BalancedCountsFarSide(g: Links, k: nat, c: map<Port, int>, p: Port)
    requires WellFormed(g, k) && IsForest(g) && Balanced(g, k, c)
    ensures p in g ==> p in c && c[p] == |FarSide(g, p)|
    decreases if p in g then |FarSide(g, p)| else 0, 1
  {
    if p in g {
      assert BalancedAt(g, k, c, p);
      LinkEnters(g, k, p);
      BalancedCountsReach(g, k, c, {p, g[p]}, g[p].node);
    }
  }

  lemma {:induction false} BalancedCountsReach(g: Links, k: nat, c: map<Port, int>, ban: set<Port>, y: nat)
    requires WellFormed(g, k) && IsForest(g) && Balanced(g, k, c) && EntersAt(g, ban, y)
    ensures 1 + Sum(Credits(g, k, c, ban, y)) == |Reach(g, ban, y)|
    decreases |Reach(g, ban, y)|, 0
  {
    forall i | 0 <= i < k ensures Credits(g, k, c, ban, y)[i] == |Branch(g, ban, y, i)| {
      var q := Port(y, i);
      if q in g && q !in ban {
        BranchIsSmaller(g, k, ban, y, i);
        BalancedCountsFarSide(g, k, c, q);
      }
    }
    CreditsAreSizes(g, k, c, ban, y);
  }

  lemma LinkEnters(g: Links, k: nat, p: Port)
    requires WellFormed(g, k) && p in g
    ensures EntersAt(g, {p, g[p]}, g[p].node) && FarSide(g, p) == Reach(g, {p, g[p]}, g[p].node)
  {
  }

  lemma BranchIsSmaller(g: Links, k: nat, ban: set<Port>, y: nat, i: nat)
    requires WellFormed(g, k) && IsForest(g) && EntersAt(g, ban, y)
    ensures |Branch(g, ban, y, i)| < |Reach(g, ban, y)|
  {
    BranchInside(g, k, ban, y, i);
    ReachIsLeastClosed(g, k, ban, y);
    SubsetSize(Branch(g, ban, y, i), Reach(g, ban, y) - {y});
  }

  lemma {:induction false} SubsetSize(a: set<nat>, b: set<nat>)
    requires a <= b
    ensures |a| <= |b|
  {
    if a == {} {
    } else {
      var x :| x in a;
      SubsetSize(a - {x}, b - {x});
    }
  }

  lemma BalancedCountsCluster(g: Links, k: nat, c: map<Port, int>, y: nat)
    requires WellFormed(g, k) && IsForest(g) && Balanced(g, k, c)
    ensures 1 + Sum(Credits(g, k, c, {}, y)) == |Cluster(g, y)|
  {
    BalancedCountsReach(g, k, c, {}, y);
  }

  // ---- how the forest changes ------------------------------------------------------------

  lemma DropKeepsWellFormed(g: Links, k: nat, p: Port)
    requires WellFormed(g, k) && p in g
    ensures WellFormed(g - {p, g[p]}, k)
  {
    var h := g - {p, g[p]};
    forall q | q in h ensures h[q] in h {
      assert g[g[q]] == q;
    }
  }

  lemma DropKeepsForest(g: Links, k: nat, p: Port)
    requires WellFormed(g, k) && IsForest(g) && p in g
    ensures WellFormed(g - {p, g[p]}, k) && IsForest(g - {p, g[p]})
  {
    var h := g - {p, g[p]};
    DropKeepsWellFormed(g, k, p);
    forall q | q in h ensures exists s :: OnlyCrossing(h, q, s) {
      var s :| OnlyCrossing(g, q, s);
      assert OnlyCrossing(h, q, s);
    }
  }

  function Attach(g: Links, p: Port, q: Port): Links {
    g[p := q][q := p]
  }

  lemma AttachKeepsWellFormed(g: Links, k: nat, p: Port, q: Port)
    requires WellFormed(g, k)
    requires p.slot < k && q.slot < k && p.node != q.node && p !in g && q !in g
    ensures WellFormed(Attach(g, p, q), k)
  {
  }

  lemma AttachKeepsCut(g: Links, k: nat, p: Port, q: Port, r: Port)
    requires WellFormed(g, k) && IsForest(g)
    requires p.node != q.node && q !in g && p.node !in Nodes(g) && r in g
    ensures exists s :: OnlyCrossing(Attach(g, p, q), r, s)
  {
    var s :| OnlyCrossing(g, r, s);
    var t := if q.node in s then s + {p.node} else s - {p.node};
    var h := Attach(g, p, q);
    assert r.node in Nodes(g) && g[r].node in Nodes(g);
    forall x | x in h && x != r && x != h[r] ensures x.node in t <==> h[x].node in t {
      if x != p && x != q {
        assert x.node in Nodes(g) && g[x].node in Nodes(g);
      }
    }
    assert OnlyCrossing(h, r, t);
  }

  lemma AttachedIsBridge(g: Links, k: nat, p: Port, q: Port)
    requires WellFormed(g, k)
    requires p.node != q.node && q !in g && p.node !in Nodes(g)
    ensures OnlyCrossing(Attach(g, p, q), p, Nodes(g) + {q.node})
    ensures OnlyCrossing(Attach(g, p, q), q, {p.node})
  {
    var h := Attach(g, p, q);
    forall x | x in h && x != p && x != q
      ensures x.node in Nodes(g) && h[x].node in Nodes(g) {
      assert g[x] in g;
    }
  }

  /** Linking a node that has no link to any other node keeps the forest. */
  lemma AttachKeepsForest(g: Links, k: nat, p: Port, q: Port)
    requires WellFormed(g, k) && IsForest(g)
    requires p.slot < k && q.slot < k && p.node != q.node && q !in g
    requires p.node !in Nodes(g)
    ensures WellFormed(Attach(g, p, q), k) && IsForest(Attach(g, p, q))
  {
    AttachKeepsWellFormed(g, k, p, q);
    AttachedIsBridge(g, k, p, q);
    forall r | r in Attach(g, p, q) ensures exists s :: OnlyCrossing(Attach(g, p, q), r, s) {
      if r != p && r != q {
        AttachKeepsCut(g, k, p, q, r);
      }
    }
  }
}

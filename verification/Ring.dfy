/** The graph that peer selection builds when every node knows all the others. */
module Ring {
  import opened Order
  import opened Selection

  /** What node `r` of the ring sees: every id but its own, in order. */
  function Others(ring: seq<Id>, r: nat): (s: seq<Id>)
    requires r < |ring|
    ensures |s| == |ring| - 1
  {
    ring[..r] + ring[r + 1..]
  }

  /** The rank in the ring of slot `i` of node r's peer list. */
  function RankOf(r: nat, i: nat): nat
  {
    if i < r then i else i + 1
  }

  lemma OthersSorting(ring: seq<Id>, r: nat)
    requires Ascending(ring) && r < |ring|
    ensures Sorting(Others(ring, r), Elements(ring) - {ring[r]})
    ensures Position(Others(ring, r), ring[r]) == r
  {
    var s := Others(ring, r);
    forall x | x in Elements(ring) - {ring[r]}
      ensures x in s
    {
      var i :| 0 <= i < |ring| && ring[i] == x;
      assert x == s[if i < r then i else i - 1];
    }
    forall i | 0 <= i < |s|
      ensures s[i] in Elements(ring) - {ring[r]}
    {
      assert s[i] == ring[RankOf(r, i)];
      if s[i] == ring[r] {
        AscendingDistinct(ring, RankOf(r, i), r);
      }
    }
    forall j | 0 <= j < r
      ensures !Less(ring[r], s[j])
    {
      if Less(ring[r], s[j]) {
        LessTransitive(ring[j], ring[r], ring[j]);
        LessIrreflexive(ring[j]);
      }
    }
    PositionIs(s, ring[r], r);
  }

  /** Going right `e` slots in node r's list is going right `e + 1` places in the ring. */
  lemma SlotRank(r: nat, e: nat, n: nat)
    requires 0 < n && r <= n && e < n
    ensures (r + e) % n == At(r % n, e, n)
    ensures RankOf(r, At(r % n, e, n)) == At(r, e + 1, n + 1)
  {
    ModSmall(r, n);
    ModSmall(r + e, n);
  }

  /** Node `a` talks to node `b`. */
  ghost predicate Edge(ring: seq<Id>, bad: set<Id>, max: int, a: nat, b: nat)
  {
    a < |ring| && b < |ring| && ring[b] in ActiveIds(ring[a], Others(ring, a), bad, max)
  }

  /** A route whose consecutive nodes talk to each other and whose nodes are all good. */
  ghost predicate Route(ring: seq<Id>, bad: set<Id>, max: int, p: seq<nat>, a: nat, b: nat)
  {
    && |p| > 0 && p[0] == a && p[|p| - 1] == b
    && (forall i :: 0 <= i < |p| ==> p[i] < |ring| && ring[p[i]] !in bad)
    && (forall i :: 0 <= i < |p| - 1 ==> Edge(ring, bad, max, p[i], p[i + 1]))
  }

  lemma RouteCons(ring: seq<Id>, bad: set<Id>, max: int, p: seq<nat>, a: nat, m: nat, b: nat)
    requires Route(ring, bad, max, p, m, b) && Edge(ring, bad, max, a, m) && ring[a] !in bad
    ensures Route(ring, bad, max, [a] + p, a, b)
  {
    var q := [a] + p;
    forall i | 0 <= i < |q| - 1
      ensures Edge(ring, bad, max, q[i], q[i + 1])
    {
      if i > 0 {
        assert q[i] == p[i - 1] && q[i + 1] == p[i - 1 + 1];
      }
    }
  }

  /** An active slot of node a's list is an edge to the node of that rank. */
  lemma SlotEdge(ring: seq<Id>, bad: set<Id>, max: int, a: nat, k: nat, i: nat)
    requires Ascending(ring) && a < |ring| && i < |ring| - 1 && max >= 0
    requires k <= |ring| - 1 && (max == 0 || k <= max)
    requires Chosen(BadFlags(Others(ring, a), bad), a, k)[i]
    ensures Edge(ring, bad, max, a, RankOf(a, i))
  {
    hide Chosen;
    var s := Others(ring, a);
    OthersSorting(ring, a);
    assert s[i] == ring[RankOf(a, i)];
    assert s[i] in Elements(s);
    if !(max == 0 || |s| <= max) {
      ChosenGrows(BadFlags(s, bad), a, k, max, i);
    }
  }

  /** Round 0 takes the nearest good slot, if there is one. */
  lemma FirstRound(bad: seq<bool>, a: nat) returns (i: nat, e: nat)
    requires false in bad && a <= |bad|
    ensures e < |bad| && i == At(a % |bad|, e, |bad|) && Chosen(bad, a, 1)[i] && !bad[i]
    ensures forall f :: 0 <= f < e ==> bad[At(a % |bad|, f, |bad|)]
  {
    var none := Chosen(bad, a, 0);
    var ok := FreeGood(none, bad);
    i := ChosenStep(bad, a, 0);
    assert Probe(a, 0, |bad|) == a % |bad|;
    var g :| 0 <= g < |bad| && bad[g] == false;
    assert ok[g];
    SomeSlot(ok, a % |bad|);
    e := NearestFirst(ok, a % |bad|, 0);
  }

  /** The first pick of a node is its nearest good neighbour to the right. */
  lemma FirstPick(ring: seq<Id>, bad: set<Id>, max: int, a: nat, b: nat) returns (d: nat)
    requires Ascending(ring) && max >= 0
    requires a < |ring| && b < |ring| && a != b && ring[b] !in bad
    ensures 0 < d < |ring| && ring[At(a, d, |ring|)] !in bad
    ensures Edge(ring, bad, max, a, At(a, d, |ring|))
    ensures forall e :: 0 < e < d ==> ring[At(a, e, |ring|)] in bad
  {
    hide Chosen, ActiveIds, Edge, Ascending;
    var s := Others(ring, a);
    var n := |s|;
    var flags := BadFlags(s, bad);
    assert flags[if b < a then b else b - 1] == false;
    var i, e := FirstRound(flags, a);
    SlotRank(a, e, n);
    SlotEdge(ring, bad, max, a, 1, i);
    assert s[i] == ring[RankOf(a, i)];
    d := e + 1;
    forall f | 0 < f < d
      ensures ring[At(a, f, |ring|)] in bad
    {
      SlotRank(a, f - 1, n);
      assert flags[At(a % n, f - 1, n)];
      assert s[At(a % n, f - 1, n)] == ring[RankOf(a, At(a % n, f - 1, n))];
    }
  }

  /** With an agreed set of bad nodes, every good node reaches every good node through good nodes. */
  lemma {:induction false} StronglyConnected(ring: seq<Id>, bad: set<Id>, max: int, a: nat, b: nat)
    returns (p: seq<nat>)
    requires Ascending(ring) && max >= 0
    requires a < |ring| && b < |ring| && ring[a] !in bad && ring[b] !in bad
    ensures Route(ring, bad, max, p, a, b)
    decreases Distance(a, b, |ring|)
  {
    if a == b {
      p := [a];
    } else {
      var d := FirstPick(ring, bad, max, a, b);
      var m := At(a, d, |ring|);
      assert d <= Distance(a, b, |ring|);
      p := StronglyConnected(ring, bad, max, m, b);
      RouteCons(ring, bad, max, p, a, m, b);
      p := [a] + p;
    }
  }

  /** The slot that round `i` probes, when 2^i does not go round the ring. */
  lemma ProbeSlot(a: nat, i: nat, n: nat)
    requires 0 < n && a <= n && i < 32 && Pow2(i) <= n
    ensures Probe(a, i, n) == At(a % n, Pow2(i) - 1, n)
    ensures RankOf(a, Probe(a, i, n)) == At(a, Pow2(i), n + 1)
  {
    SlotRank(a, Pow2(i) - 1, n);
  }

  lemma {:induction false} Pow2Strict(j: nat, k: nat)
    requires j < k
    ensures Pow2(j) < Pow2(k)
  {
    Pow2Monotone(j, k - 1);
  }

  /** The slots that the first `k` rounds probe. */
  ghost predicate Probed(n: nat, a: nat, k: nat, s: nat)
    requires 0 < n
  {
    exists i :: 0 <= i < k && s == Probe(a, i, n)
  }

  /** While 2^i fits on the ring, the probes are distinct. */
  lemma FreshProbe(n: nat, a: nat, k: nat)
    requires 0 < n && a <= n && k < 32 && Pow2(k) <= n
    ensures !Probed(n, a, k, Probe(a, k, n))
  {
    forall i | 0 <= i < k
      ensures Probe(a, i, n) != Probe(a, k, n)
    {
      Pow2Strict(i, k);
      ProbeSlot(a, i, n);
      ProbeSlot(a, k, n);
    }
  }

  /** A free good probe is taken as it is. */
  lemma PickProbe(active: seq<bool>, bad: seq<bool>, start: nat)
    requires |active| == |bad| && start < |active| && !active[start] && !bad[start]
    ensures false in active && Pick(active, bad, start) == start
  {
    var ok := FreeGood(active, bad);
    assert ok[start];
    assert active[start] in active;
    NearestIs(ok, start, 0, 0);
  }

  /** While 2^i fits on the ring and no peer is bad, round i takes exactly its probe. */
  lemma {:induction false} ExactProbes(bad: seq<bool>, a: nat, k: nat)
    requires bad != [] && true !in bad
    requires a <= |bad| && k <= 32 && k <= |bad| && (k > 0 ==> Pow2(k - 1) <= |bad|)
    ensures forall s :: 0 <= s < |bad| ==> (Chosen(bad, a, k)[s] <==> Probed(|bad|, a, k, s))
  {
    hide Pick;
    var n := |bad|;
    if k > 0 {
      if k > 1 {
        Pow2Monotone(k - 2, k - 1);
      }
      ExactProbes(bad, a, k - 1);
      var start := Probe(a, k - 1, n);
      FreshProbe(n, a, k - 1);
      assert bad[start] in bad;
      PickProbe(Chosen(bad, a, k - 1), bad, start);
      var p := ChosenStep(bad, a, k - 1);
      forall s
        ensures Probed(n, a, k, s) <==> Probed(n, a, k - 1, s) || s == start
      {
        ProbedStep(n, a, k - 1, s);
      }
    }
  }

  lemma ProbedStep(n: nat, a: nat, k: nat, s: nat)
    requires 0 < n
    ensures Probed(n, a, k + 1, s) <==> Probed(n, a, k, s) || s == Probe(a, k, n)
  {
    assert 0 <= k < k + 1 && Probe(a, k, n) == Probe(a, k, n);
  }

  lemma {:induction false} BelowPow2(k: nat)
    ensures k < Pow2(k)
  {
    if k > 0 {
      BelowPow2(k - 1);
    }
  }

  /** With no bad peer, a node with room for i + 1 peers talks to the node at distance exactly 2^i. */
  lemma PowerEdge(ring: seq<Id>, max: int, a: nat, i: nat)
    requires Ascending(ring) && a < |ring| && i < 32 && Pow2(i) < |ring|
    requires max == 0 || i < max
    ensures Edge(ring, {}, max, a, At(a, Pow2(i), |ring|))
  {
    hide Chosen, ActiveIds, Edge, Ascending;
    var n := |ring| - 1;
    BelowPow2(i);
    var flags := BadFlags(Others(ring, a), {});
    assert flags[0] == false;
    ExactProbes(flags, a, i + 1);
    ProbedStep(n, a, i, Probe(a, i, n));
    ProbeSlot(a, i, n);
    SlotEdge(ring, {}, max, a, i + 1, Probe(a, i, n));
  }

  /** Number of binary digits. */
  function BitLength(x: nat): (k: nat)
    ensures x < Pow2(k)
    ensures x > 0 ==> k > 0 && Pow2(k - 1) <= x
  {
    if x == 0 then 0 else
      var k := 1 + BitLength(x / 2);
      assert x > 1 ==> Pow2(k - 1) == 2 * Pow2(k - 2);
      k
  }

  lemma ShortRing(x: nat)
    requires x < 0x1_0000_0000
    ensures BitLength(x) <= 32
  {
    Pow2Of32();
    if BitLength(x) > 32 {
      Pow2Monotone(32, BitLength(x) - 1);
    }
  }

  /** A node at distance below 2^k is at most k pushes away. */
  lemma {:induction false} ReachWithin(ring: seq<Id>, max: int, a: nat, b: nat, k: nat) returns (p: seq<nat>)
    requires Ascending(ring) && a < |ring| && b < |ring|
    requires k <= 32 && (max == 0 || k <= max)
    requires Distance(a, b, |ring|) < Pow2(k)
    ensures Route(ring, {}, max, p, a, b) && |p| <= k + 1
    decreases k
  {
    if a == b {
      p := [a];
    } else if Distance(a, b, |ring|) < Pow2(k - 1) {
      p := ReachWithin(ring, max, a, b, k - 1);
    } else {
      PowerEdge(ring, max, a, k - 1);
      var m := At(a, Pow2(k - 1), |ring|);
      p := ReachWithin(ring, max, m, b, k - 1);
      RouteCons(ring, {}, max, p, a, m, b);
      p := [a] + p;
    }
  }

  /** With no bad peer and room for BitLength(N-1) peers, any node is at most that many pushes away. */
  lemma LogarithmicReach(ring: seq<Id>, max: int, a: nat, b: nat) returns (p: seq<nat>)
    requires Ascending(ring) && a < |ring| && b < |ring|
    requires |ring| - 1 < 0x1_0000_0000
    requires max == 0 || BitLength(|ring| - 1) <= max
    ensures Route(ring, {}, max, p, a, b) && |p| - 1 <= BitLength(|ring| - 1)
    ensures forall i: nat :: Pow2(i) < |ring| ==> Edge(ring, {}, max, a, At(a, Pow2(i), |ring|))
  {
    var k := BitLength(|ring| - 1);
    ShortRing(|ring| - 1);
    p := ReachWithin(ring, max, a, b, k);
    forall i: nat | Pow2(i) < |ring|
      ensures Edge(ring, {}, max, a, At(a, Pow2(i), |ring|))
    {
      if k <= i {
        Pow2Monotone(k, i);
      }
      PowerEdge(ring, max, a, i);
    }
  }
}

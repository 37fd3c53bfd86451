/** Peer selection: which peers a node talks to (checkActivePeers). */
module Selection {
  import opened Order

  const PEER_ERROR_THRESHOLD := 10

  function Pow2(k: nat): (p: nat)
    ensures p >= 1
  {
    if k == 0 then 1 else 2 * Pow2(k - 1)
  }

  /** The slot `d` places clockwise of `start` among `n` slots. */
  function At(start: nat, d: nat, n: nat): (i: nat)
    requires start < n && d <= n
    ensures i < n
  {
    if start + d < n then start + d else start + d - n
  }

  lemma ModSmall(x: nat, n: nat)
    requires 0 < n && x < 2 * n
    ensures x % n == if x < n then x else x - n
  {
    if n <= x {
      assert x == n * 1 + (x - n);
    }
  }

  /** First slot probed by round `i`: distance 2^(i mod 32) to the right of this node. */
  function Probe(offset: nat, i: nat, n: nat): (s: nat)
    requires 0 < n
    ensures s < n
  {
    (offset + (Pow2(i % 32) - 1)) % n
  }

  /** The nearest slot, `d` or more places clockwise of `start`, that `ok` allows. */
  function Nearest(ok: seq<bool>, start: nat, d: nat): (i: nat)
    requires start < |ok| && d < |ok|
    requires exists e :: d <= e < |ok| && ok[At(start, e, |ok|)]
    ensures i < |ok| && ok[i]
    decreases |ok| - d
  {
    if ok[At(start, d, |ok|)] then At(start, d, |ok|) else Nearest(ok, start, d + 1)
  }

  lemma {:induction false} NearestFirst(ok: seq<bool>, start: nat, d: nat) returns (e: nat)
    requires start < |ok| && d < |ok|
    requires exists e :: d <= e < |ok| && ok[At(start, e, |ok|)]
    ensures d <= e < |ok| && Nearest(ok, start, d) == At(start, e, |ok|)
    ensures forall f :: d <= f < e ==> !ok[At(start, f, |ok|)]
    decreases |ok| - d
  {
    if ok[At(start, d, |ok|)] {
      e := d;
    } else {
      e := NearestFirst(ok, start, d + 1);
    }
  }

  function FreeGood(active: seq<bool>, bad: seq<bool>): (ok: seq<bool>)
    requires |active| == |bad|
  {
    seq(|active|, i requires 0 <= i < |active| => !active[i] && !bad[i])
  }

  function Free(active: seq<bool>): seq<bool>
  {
    seq(|active|, i requires 0 <= i < |active| => !active[i])
  }

  /** How many places clockwise of `a` slot `b` is. */
  function Distance(a: nat, b: nat, n: nat): (d: nat)
    requires a < n && b < n
    ensures d < n && At(a, d, n) == b
  {
    if a <= b then b - a else b + n - a
  }

  lemma SomeSlot(ok: seq<bool>, start: nat)
    requires start < |ok| && true in ok
    ensures exists e :: 0 <= e < |ok| && ok[At(start, e, |ok|)]
  {
    var i :| 0 <= i < |ok| && ok[i];
    var d := Distance(start, i, |ok|);
  }

  lemma SomeFree(active: seq<bool>)
    requires false in active
    ensures true in Free(active)
  {
    var k :| 0 <= k < |active| && active[k] == false;
    assert Free(active)[k];
  }

  lemma NoGoodFree(active: seq<bool>, bad: seq<bool>)
    requires |active| == |bad| && true !in FreeGood(active, bad)
    ensures forall j :: 0 <= j < |active| ==> active[j] || bad[j]
  {
    forall j | 0 <= j < |active|
      ensures active[j] || bad[j]
    {
      assert FreeGood(active, bad)[j] in FreeGood(active, bad);
    }
  }

  /** One round: nearest free good slot, or nearest free slot if no good one is free. */
  function Pick(active: seq<bool>, bad: seq<bool>, start: nat): (i: nat)
    requires |active| == |bad| && start < |active| && false in active
    ensures i < |active| && !active[i]
    ensures bad[i] ==> forall j :: 0 <= j < |active| ==> active[j] || bad[j]
  {
    if true in FreeGood(active, bad) then
      SomeSlot(FreeGood(active, bad), start);
      Nearest(FreeGood(active, bad), start, 0)
    else
      NoGoodFree(active, bad);
      SomeFree(active);
      SomeSlot(Free(active), start);
      Nearest(Free(active), start, 0)
  }

  ghost function Marked(s: seq<bool>): set<nat>
  {
    set i | 0 <= i < |s| && s[i]
  }

  ghost function Slots(n: nat): set<nat>
  {
    Marked(seq(n, _ => true))
  }

  lemma {:induction false} SlotCount(n: nat)
    ensures |Slots(n)| == n
  {
    if n > 0 {
      SlotCount(n - 1);
      assert Slots(n) == Slots(n - 1) + {n - 1};
    }
  }

  lemma HasFree(active: seq<bool>)
    requires |Marked(active)| < |active|
    ensures false in active
  {
    var n := |active|;
    SlotCount(n);
    assert Slots(n) * Marked(active) == Marked(active);
    assert |Slots(n) - Marked(active)| > 0;
    var i :| i in Slots(n) - Marked(active);
    assert active[i] == false;
  }

  /** The active flags after `k` rounds. */
  function Chosen(bad: seq<bool>, offset: nat, k: nat): (active: seq<bool>)
    requires k <= |bad|
    ensures |active| == |bad|
    ensures |Marked(active)| == k
  {
    if k == 0 then
      var none := seq(|bad|, _ => false);
      assert Marked(none) == {};
      none
    else
      var before := Chosen(bad, offset, k - 1);
      HasFree(before);
      var i := Pick(before, bad, Probe(offset, k - 1, |bad|));
      assert Marked(before[i := true]) == Marked(before) + {i};
      before[i := true]
  }

  /** One more round marks exactly the slot that `Pick` names. */
  lemma ChosenStep(bad: seq<bool>, offset: nat, k: nat) returns (i: nat)
    requires k < |bad|
    ensures false in Chosen(bad, offset, k)
    ensures i == Pick(Chosen(bad, offset, k), bad, Probe(offset, k, |bad|))
    ensures Chosen(bad, offset, k + 1) == Chosen(bad, offset, k)[i := true]
  {
    HasFree(Chosen(bad, offset, k));
    i := Pick(Chosen(bad, offset, k), bad, Probe(offset, k, |bad|));
  }

  /** Once active, a slot stays active in later rounds. */
  lemma {:induction false} ChosenGrows(bad: seq<bool>, offset: nat, j: nat, k: nat, i: nat)
    requires j <= k <= |bad| && i < |bad| && Chosen(bad, offset, j)[i]
    ensures Chosen(bad, offset, k)[i]
    decreases k - j
  {
    if j < k {
      var p := ChosenStep(bad, offset, j);
      ChosenGrows(bad, offset, j + 1, k, i);
    }
  }

  /** A bad peer is active only when every good peer is active. */
  ghost predicate GoodFirst(active: seq<bool>, bad: seq<bool>)
    requires |active| == |bad|
  {
    forall i, j :: 0 <= i < |bad| && 0 <= j < |bad| && active[i] && bad[i] && !bad[j] ==> active[j]
  }

  lemma GoodFirstStep(active: seq<bool>, bad: seq<bool>, start: nat)
    requires |active| == |bad| && start < |active| && false in active && GoodFirst(active, bad)
    ensures GoodFirst(active[Pick(active, bad, start) := true], bad)
  {
  }

  lemma {:induction false} ChosenGoodFirst(bad: seq<bool>, offset: nat, k: nat)
    requires k <= |bad|
    ensures GoodFirst(Chosen(bad, offset, k), bad)
  {
    if k > 0 {
      ChosenGoodFirst(bad, offset, k - 1);
      var p := ChosenStep(bad, offset, k - 1);
      GoodFirstStep(Chosen(bad, offset, k - 1), bad, Probe(offset, k - 1, |bad|));
    }
  }

  lemma {:induction false} Pow2Monotone(j: nat, k: nat)
    requires j <= k
    ensures Pow2(j) <= Pow2(k)
  {
    if j < k {
      Pow2Monotone(j, k - 1);
    }
  }

  lemma {:induction false} Pow2Add(j: nat, k: nat)
    ensures Pow2(j + k) == Pow2(j) * Pow2(k)
  {
    if j > 0 {
      Pow2Add(j - 1, k);
      assert Pow2(j - 1 + k) == Pow2(j - 1) * Pow2(k);
      DoubleFirst(Pow2(j - 1), Pow2(k));
    }
  }

  lemma DoubleFirst(x: nat, y: nat)
    ensures 2 * (x * y) == (2 * x) * y
  {
  }

  lemma Pow2Of32()
    ensures Pow2(32) == 0x1_0000_0000
  {
    assert Pow2(8) == 0x100;
    Pow2Add(8, 8);
    Pow2Add(16, 16);
  }

  /** The index expression stays inside a signed 64-bit int for any slice that fits in memory. */
  lemma ProbeFits(offset: nat, i: nat, n: nat)
    requires offset <= n < 0x4000_0000_0000_0000
    ensures offset + (Pow2(i % 32) - 1) < 0x8000_0000_0000_0000
  {
    Pow2Monotone(i % 32, 32);
    Pow2Of32();
  }

  /** The two inner loops of one round, which move `idx` clockwise by one slot at a time. */
  method FindSlot(active: array<bool>, bad: array<bool>, start: nat) returns (idx: nat)
    requires active.Length == bad.Length && start < active.Length && false in active[..]
    ensures idx == Pick(active[..], bad[..], start)
  {
    hide Pick, Nearest;
    var n := active.Length;
    ghost var a, b := active[..], bad[..];
    idx := start;
    var j := 0;
    while j < n
      invariant 0 <= j <= n && idx == At(start, j, n)
      invariant forall f :: 0 <= f < j ==> active[At(start, f, n)] || bad[At(start, f, n)]
    {
      if !active[idx] && !bad[idx] {
        break;
      }
      ModSmall(idx + 1, n);
      idx := (idx + 1) % n;
      j := j + 1;
    }
    if j < n {
      PickGood(a, b, start, j);
      return;
    }
    assert idx == At(start, 0, n);
    ghost var stop := FreeSlot(a, start);
    ghost var d := 0;
    while active[idx]
      invariant 0 <= d <= stop && idx == At(start, d, n)
      invariant forall f :: 0 <= f < d ==> active[At(start, f, n)]
      decreases stop - d
    {
      ModSmall(idx + 1, n);
      idx := (idx + 1) % n;
      d := d + 1;
    }
    PickFree(a, b, start, d);
  }

  lemma FreeSlot(active: seq<bool>, start: nat) returns (d: nat)
    requires start < |active| && false in active
    ensures d < |active| && !active[At(start, d, |active|)]
  {
    var i :| 0 <= i < |active| && active[i] == false;
    d := Distance(start, i, |active|);
  }

  /** The first loop stopped early: at the nearest free good slot. */
  lemma PickGood(active: seq<bool>, bad: seq<bool>, start: nat, j: nat)
    requires |active| == |bad| && start < |active| && j < |active| && false in active
    requires var i := At(start, j, |active|); !active[i] && !bad[i]
    requires forall f :: 0 <= f < j ==> active[At(start, f, |active|)] || bad[At(start, f, |active|)]
    ensures Pick(active, bad, start) == At(start, j, |active|)
  {
    var good := FreeGood(active, bad);
    assert good[At(start, j, |active|)] in good;
    NearestIs(good, start, 0, j);
  }

  /** It went all the way round: the second loop stops at the nearest free slot. */
  lemma PickFree(active: seq<bool>, bad: seq<bool>, start: nat, d: nat)
    requires |active| == |bad| && start < |active| && d < |active| && false in active
    requires forall f :: 0 <= f < |active| ==> active[At(start, f, |active|)] || bad[At(start, f, |active|)]
    requires !active[At(start, d, |active|)] && forall f :: 0 <= f < d ==> active[At(start, f, |active|)]
    ensures Pick(active, bad, start) == At(start, d, |active|)
  {
    var good := FreeGood(active, bad);
    forall i | 0 <= i < |active|
      ensures !good[i]
    {
      var f := Distance(start, i, |active|);
    }
    assert true !in good;
    NearestIs(Free(active), start, 0, d);
  }

  lemma {:induction false} NearestIs(ok: seq<bool>, start: nat, from: nat, d: nat)
    requires start < |ok| && from <= d < |ok| && ok[At(start, d, |ok|)]
    requires forall f :: from <= f < d ==> !ok[At(start, f, |ok|)]
    ensures Nearest(ok, start, from) == At(start, d, |ok|)
    decreases d - from
  {
    if from < d {
      NearestIs(ok, start, from + 1, d);
    }
  }

  /** The selection loop. */
  method SelectActive(bad: array<bool>, offset: nat, max: int) returns (active: array<bool>)
    requires max <= bad.Length && offset <= bad.Length
    ensures fresh(active) && active.Length == bad.Length
    ensures active[..] == Chosen(bad[..], offset, if max < 0 then 0 else max)
  {
    hide Pick, Probe;
    var n := bad.Length;
    active := new bool[n](_ => false);
    assert active[..] == Chosen(bad[..], offset, 0);
    hide Chosen;
    var i := 0;
    while i < n && i < max
      invariant 0 <= i <= n && (i <= max || i == 0)
      invariant active[..] == Chosen(bad[..], offset, i)
    {
      ghost var picked := ChosenStep(bad[..], offset, i);
      var idx := FindSlot(active, bad, Probe(offset, i, n));
      active[idx] := true;
      i := i + 1;
    }
  }

  /** Going clockwise one slot at a time, round and round. */
  function Walk(start: nat, steps: nat, n: nat): (i: nat)
    requires start < n
    ensures i < n
    decreases steps
  {
    if steps == 0 then start else Walk(if start + 1 == n then 0 else start + 1, steps - 1, n)
  }

  /** Going round is what the remainder does. */
  lemma {:induction false} WalkWraps(start: nat, steps: nat, n: nat)
    requires start < n
    ensures Walk(start, steps, n) == (start + steps) % n
    decreases steps
  {
    if steps == 0 {
      ModSmall(start, n);
    } else if start + 1 == n {
      WalkWraps(0, steps - 1, n);
      OnceRound(steps - 1, n);
    } else {
      WalkWraps(start + 1, steps - 1, n);
    }
  }

  lemma OnceRound(x: nat, n: nat)
    requires 0 < n
    ensures (x + n) % n == x % n
  {
    var q := x / n;
    assert x + n == n * (q + 1) + x % n;
    DivUnique(x + n, n, q + 1, x % n);
  }

  lemma DivUnique(x: nat, n: nat, q: nat, r: nat)
    requires 0 < n && x == n * q + r && r < n
    ensures x % n == r
  {
    var d := x / n - q;
    assert n * d == r - x % n;
    if d > 0 {
      AtLeast(n, d);
    } else if d < 0 {
      AtLeast(n, -d);
    }
  }

  lemma AtLeast(n: nat, d: int)
    requires d > 0
    ensures n * d >= n
  {
  }

  lemma {:induction false} WalkIsAt(start: nat, d: nat, n: nat)
    requires start < n && d < n
    ensures Walk(start, d, n) == At(start, d, n)
  {
    WalkWraps(start, d, n);
    ModSmall(start + d, n);
  }

  /** A slot that a round may take: free, and good unless no good one is free. */
  predicate Eligible(active: seq<bool>, bad: seq<bool>, i: nat)
    requires |active| == |bad| && i < |active|
  {
    !active[i] && (!bad[i] || forall j :: 0 <= j < |active| ==> active[j] || bad[j])
  }

  /** What a round takes: the first eligible slot clockwise of where it starts. */
  lemma PickIsNearest(active: seq<bool>, bad: seq<bool>, start: nat) returns (e: nat)
    requires |active| == |bad| && start < |active| && false in active
    ensures e < |active| && Pick(active, bad, start) == Walk(start, e, |active|)
    ensures Eligible(active, bad, Walk(start, e, |active|))
    ensures forall f :: 0 <= f < e ==> !Eligible(active, bad, Walk(start, f, |active|))
  {
    var n, good := |active|, FreeGood(active, bad);
    if true in good {
      SomeSlot(good, start);
      e := NearestFirst(good, start, 0);
      var g :| 0 <= g < n && good[g];
      assert !active[g] && !bad[g];
      FirstEligible(active, bad, start, e, good);
    } else {
      NoGoodFree(active, bad);
      SomeFree(active);
      SomeSlot(Free(active), start);
      e := NearestFirst(Free(active), start, 0);
      FirstEligible(active, bad, start, e, Free(active));
    }
  }

  lemma FirstEligible(active: seq<bool>, bad: seq<bool>, start: nat, e: nat, ok: seq<bool>)
    requires |active| == |bad| == |ok| && start < |active| && e < |active|
    requires forall i :: 0 <= i < |ok| ==> (ok[i] <==> Eligible(active, bad, i))
    requires forall f :: 0 <= f < e ==> !ok[At(start, f, |ok|)]
    ensures Walk(start, e, |active|) == At(start, e, |active|)
    ensures forall f :: 0 <= f < e ==> !Eligible(active, bad, Walk(start, f, |active|))
  {
    WalkIsAt(start, e, |active|);
    forall f | 0 <= f < e
      ensures !Eligible(active, bad, Walk(start, f, |active|))
    {
      WalkIsAt(start, f, |active|);
    }
  }

  /**
   * Round k in terms of the ring: walk 2^(k mod 32) - 1 slots from this node's
   * place, going round as often as that takes, and on to the first eligible slot.
   */
  lemma RoundTakes(bad: seq<bool>, offset: nat, k: nat) returns (e: nat)
    requires k < |bad| && offset <= |bad|
    ensures var n, here, active := |bad|, if offset == |bad| then 0 else offset, Chosen(bad, offset, k);
            here < n && e < n
            && var start := Walk(here, Pow2(k % 32) - 1, n);
            && Chosen(bad, offset, k + 1) == active[Walk(start, e, n) := true]
            && Eligible(active, bad, Walk(start, e, n))
            && forall f :: 0 <= f < e ==> !Eligible(active, bad, Walk(start, f, n))
  {
    hide Pick, Chosen, Walk, Eligible, Pow2;
    var n, here, active := |bad|, if offset == |bad| then 0 else offset, Chosen(bad, offset, k);
    var i := ChosenStep(bad, offset, k);
    ProbeWalks(offset, k, n);
    e := PickIsNearest(active, bad, Probe(offset, k, n));
  }

  lemma ProbeWalks(offset: nat, k: nat, n: nat)
    requires 0 < n && offset <= n
    ensures Probe(offset, k, n) == Walk(if offset == n then 0 else offset, Pow2(k % 32) - 1, n)
  {
    WalkWraps(if offset == n then 0 else offset, Pow2(k % 32) - 1, n);
    if offset == n {
      OnceRound(Pow2(k % 32) - 1, n);
    }
  }

  /** The number of leading peers not above this node's id: its would-be position. */
  function Position(sorted: seq<Id>, id: Id): (k: nat)
    ensures k <= |sorted|
    ensures forall j :: 0 <= j < k ==> !Less(id, sorted[j])
    ensures k < |sorted| ==> Less(id, sorted[k])
  {
    if sorted == [] || Less(id, sorted[0]) then 0 else 1 + Position(sorted[1..], id)
  }

  lemma {:induction false} PositionIs(sorted: seq<Id>, id: Id, k: nat)
    requires k <= |sorted|
    requires forall j :: 0 <= j < k ==> !Less(id, sorted[j])
    requires k < |sorted| ==> Less(id, sorted[k])
    ensures Position(sorted, id) == k
  {
    if k > 0 {
      assert sorted[0] in sorted;
      PositionIs(sorted[1..], id, k - 1);
    }
  }

  function BadFlags(sorted: seq<Id>, bad: set<Id>): (flags: seq<bool>)
    ensures |flags| == |sorted|
  {
    seq(|sorted|, i requires 0 <= i < |sorted| => sorted[i] in bad)
  }

  /** The peers that `id` talks to, given its peers in sorted order and those in error. */
  ghost function ActiveIds(id: Id, sorted: seq<Id>, bad: set<Id>, max: int): set<Id>
  {
    if max == 0 || |sorted| <= max then Elements(sorted)
    else
      var flags := Chosen(BadFlags(sorted, bad), Position(sorted, id), if max < 0 then 0 else max);
      set i | 0 <= i < |sorted| && flags[i] :: sorted[i]
  }

  /** What the manager keeps per peer: errors in the last hour, and whether its loops run. */
  datatype PeerState = PeerState(errors: nat, running: bool)

  class PeerManager {
    const id: Id
    const maxActivePeers: int
    var peers: map<Id, PeerState>

    constructor (id: Id, maxActivePeers: int)
      ensures this.id == id && this.maxActivePeers == maxActivePeers && peers == map[]
    {
      this.id := id;
      this.maxActivePeers := maxActivePeers;
      peers := map[];
    }

    ghost function Bad(): set<Id>
      reads this
    {
      set p | p in peers && peers[p].errors >= PEER_ERROR_THRESHOLD
    }

    /** This node's (would-be) position in the sorted list. */
    method Locate(s: seq<Id>) returns (offset: nat)
      ensures offset == Position(s, id) && offset <= |s|
      ensures forall j :: 0 <= j < offset ==> !Before(id, s[j])
      ensures offset < |s| ==> Before(id, s[offset])
    {
      offset := 0;
      while offset < |s|
        invariant 0 <= offset <= |s|
        invariant forall j :: 0 <= j < offset ==> !Less(id, s[j])
      {
        if Less(id, s[offset]) {
          break;
        }
        offset := offset + 1;
      }
      PositionIs(s, id, offset);
    }

    method FlagBad(s: seq<Id>) returns (bad: array<bool>)
      requires forall j :: 0 <= j < |s| ==> s[j] in peers
      ensures fresh(bad) && bad[..] == BadFlags(s, Bad())
      ensures forall j :: 0 <= j < |s| ==> (bad[j] <==> peers[s[j]].errors >= 10)
    {
      bad := new bool[|s|](_ => false);
      var i := 0;
      while i < |s|
        invariant 0 <= i <= |s|
        invariant forall j :: 0 <= j < i ==> bad[j] == (s[j] in Bad())
        invariant forall j :: i <= j < |s| ==> !bad[j]
      {
        if peers[s[i]].errors >= PEER_ERROR_THRESHOLD {
          bad[i] := true;
        }
        i := i + 1;
      }
    }

    /** Starts peer i if active[i], and stops it otherwise. */
    method StartStop(s: seq<Id>, active: array<bool>)
      requires active.Length == |s| && Sorting(s, peers.Keys)
      modifies this`peers
      ensures peers.Keys == old(peers).Keys
      ensures forall j :: 0 <= j < |s| ==> s[j] in Elements(s) && peers[s[j]] == old(peers)[s[j]].(running := active[j])
    {
      var i := 0;
      while i < |s|
        invariant 0 <= i <= |s|
        invariant peers.Keys == old(peers).Keys
        invariant forall j :: 0 <= j < |s| ==> s[j] in Elements(s)
        invariant forall j :: 0 <= j < i ==> peers[s[j]] == old(peers)[s[j]].(running := active[j])
        invariant forall j :: i <= j < |s| ==> peers[s[j]] == old(peers)[s[j]]
      {
        forall j | 0 <= j < |s| && s[j] == s[i]
          ensures j == i
        {
          AscendingDistinct(s, i, j);
        }
        peers := peers[s[i] := peers[s[i]].(running := active[i])];
        i := i + 1;
      }
    }

    /** Starts the selected peers and stops the others; nothing else changes. */
    method CheckActivePeers(ghost sorted: seq<Id>)
      requires Sorting(sorted, peers.Keys)
      modifies this`peers
      ensures peers.Keys == old(peers).Keys
      ensures forall p :: p in peers ==>
                peers[p] == old(peers)[p].(running := p in ActiveIds(id, sorted, old(Bad()), maxActivePeers))
    {
      hide Chosen, Position, Ascending;
      var numPeers := |peers.Keys|;
      SortingLength(sorted, peers.Keys);
      if maxActivePeers == 0 || numPeers <= maxActivePeers {
        peers := map p | p in peers :: peers[p].(running := true);
        return;
      }
      var s := SortKeys(peers.Keys);
      SortingUnique(s, sorted, peers.Keys);
      assert forall j :: 0 <= j < |s| ==> s[j] in Elements(s);
      var offset := Locate(s);
      var bad := FlagBad(s);
      var active := SelectActive(bad, offset, maxActivePeers);
      ghost var flags := active[..];
      ghost var ids := ActiveIds(id, s, Bad(), maxActivePeers);
      StartStop(s, active);
      SelectedAll(s, flags);
      hide BadFlags, Elements;
      forall p | p in peers
        ensures peers[p] == old(peers)[p].(running := p in ids)
      {
        ghost var j := PlaceOf(s, p);
      }
    }
  }

  lemma PlaceOf(s: seq<Id>, p: Id) returns (j: nat)
    requires p in Elements(s)
    ensures j < |s| && s[j] == p
  {
    j :| 0 <= j < |s| && s[j] == p;
  }

  lemma SelectedAll(s: seq<Id>, flags: seq<bool>)
    requires Ascending(s) && |flags| == |s|
    ensures forall j :: 0 <= j < |s| ==> (s[j] in set i | 0 <= i < |s| && flags[i] :: s[i]) == flags[j]
  {
    forall j | 0 <= j < |s|
      ensures (s[j] in set i | 0 <= i < |s| && flags[i] :: s[i]) == flags[j]
    {
      SelectedIs(s, flags, j);
    }
  }

  lemma SelectedIs(s: seq<Id>, flags: seq<bool>, j: nat)
    requires Ascending(s) && |flags| == |s| && j < |s|
    ensures (s[j] in set i | 0 <= i < |s| && flags[i] :: s[i]) == flags[j]
  {
    if s[j] in set i | 0 <= i < |s| && flags[i] :: s[i] {
      var k :| 0 <= k < |s| && flags[k] && s[k] == s[j];
      AscendingDistinct(s, j, k);
    }
  }

  ghost function IdsAt(s: seq<Id>, slots: set<nat>): set<Id>
    requires forall i :: i in slots ==> i < |s|
  {
    set i | i in slots :: s[i]
  }

  /** Different slots hold different ids. */
  lemma {:induction false} IdCount(s: seq<Id>, slots: set<nat>)
    requires Ascending(s) && forall i :: i in slots ==> i < |s|
    ensures |IdsAt(s, slots)| == |slots|
    decreases |slots|
  {
    if slots != {} {
      var k :| k in slots;
      var rest := slots - {k};
      IdCount(s, rest);
      assert s[k] !in IdsAt(s, rest) by {
        forall i | i in rest
          ensures s[i] != s[k]
        {
          if s[i] == s[k] {
            AscendingDistinct(s, i, k);
          }
        }
      }
      assert IdsAt(s, slots) == IdsAt(s, rest) + {s[k]};
    }
  }

  /** With room for all, all are active; with a negative limit, none. */
  lemma ActiveOtherwise(id: Id, sorted: seq<Id>, peers: set<Id>, bad: set<Id>, max: int)
    requires Sorting(sorted, peers)
    ensures max == 0 || |peers| <= max ==> ActiveIds(id, sorted, bad, max) == peers
    ensures max < 0 ==> ActiveIds(id, sorted, bad, max) == {}
  {
    SortingLength(sorted, peers);
  }

  /**
   * The selection in terms of peers: with more peers than MaxActivePeers allows,
   * exactly that many are active, and a bad one only if every good one is.
   */
  lemma ActiveContract(id: Id, sorted: seq<Id>, peers: set<Id>, bad: set<Id>, max: int)
    requires Sorting(sorted, peers) && 0 < max < |peers|
    ensures var active := ActiveIds(id, sorted, bad, max);
            && active <= peers && |active| == max
            && (forall p, q :: p in active && p in bad && q in peers && q !in bad ==> q in active)
  {
    hide Chosen, Pick;
    SortingLength(sorted, peers);
    var offset, marks := Position(sorted, id), BadFlags(sorted, bad);
    var flags := Chosen(marks, offset, max);
    ChosenGoodFirst(marks, offset, max);
    var active := ActiveIds(id, sorted, bad, max);
    IdCount(sorted, Marked(flags));
    assert active == IdsAt(sorted, Marked(flags));
    forall p, q | p in active && p in bad && q in peers && q !in bad
      ensures q in active
    {
      var i :| 0 <= i < |sorted| && flags[i] && sorted[i] == p;
      assert q in Elements(sorted);
      var j :| 0 <= j < |sorted| && sorted[j] == q;
      assert marks[i] && !marks[j];
    }
  }
}

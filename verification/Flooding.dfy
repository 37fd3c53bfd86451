/** What holds of every run of the network that starts with empty stores. */
module Flooding {
  import opened Order
  import opened Selection
  import opened Ring
  import opened Message
  import opened Storage
  import Delivery
  import Diff
  import opened Network
  import opened NetworkInv

  // ---------- What no step takes back ----------

  /** Later states: no node leaves, completions and publications stay, and neither time nor a slip is undone. */
  ghost predicate Later(net: Net, net': Net)
  {
    && net'.stores.Keys == net.stores.Keys && net.completed <= net'.completed && net.clock <= net'.clock
    && net.published <= net'.published && (net.slipped ==> net'.slipped)
  }

  /** Later, with nothing completed or published meanwhile. */
  ghost predicate Steady(net: Net, net': Net)
  {
    Later(net, net') && net'.completed == net.completed && net'.published == net.published
  }

  lemma ScanLater(w: World, net: Net, n: Id, to: Id, order: seq<MsgId>, has: set<MsgId>, broke: Option<nat>)
    ensures Steady(net, ApplyScan(w, net, n, to, order, has, broke))
  {
    hide Diff.UpTo, Diff.StopAt, StoreInfos;
  }

  lemma MsgLoopLater(w: World, net: Net, n: Id, to: Id, k: nat, i: nat)
    ensures Steady(net, ApplyPop(net, k, n, to, i))
    ensures Steady(net, ApplyRecord(net, k, i)) && Steady(net, ApplySub(w, net, n, to))
  {
    hide Engaged, SetPeerInfo, OpenRead, GetPeerInfo, Delivery.AfterPush;
  }

  lemma CallLater(w: World, net: Net, k: nat, size: nat)
    ensures Steady(net, ApplyCall(w, net, k)) && Steady(net, ApplyAsk(net, k))
    ensures Steady(net, ApplySend(net, k, size)) && Steady(net, ApplyReceive(net, k))
  {
    hide ServePush, Write, Offset;
  }

  lemma CloseLater(w: World, net: Net, k: nat, failed: bool, heard: bool)
    requires Streams(net, k)
    ensures Later(net, ServeClose(w, net, k, failed, heard))
  {
    hide Close, IsComplete;
  }

  lemma InjectLater(w: World, net: Net, n: Id, id: MsgId)
    ensures Later(net, Apply(w, net, Inject(n, id)))
  {
    hide Transfer, IsComplete;
  }

  /** Only Inject, Finish and Interrupt complete or publish anything. */
  lemma ApplySteady(w: World, net: Net, a: Action)
    requires !a.Inject? && !a.Finish? && !a.Interrupt?
    ensures Steady(net, Apply(w, net, a))
  {
    hide ApplyScan, ApplyPop, ApplyRecord, ApplySub, ApplyCall, ApplyAsk, ApplySend, ApplyReceive, ServeClose;
    hide ApplySelect, Steady;
    match a
    case DiffScan(n, to, order, has, broke) => ScanLater(w, net, n, to, order, has, broke);
    case Pop(k, n, to, i) => MsgLoopLater(w, net, n, to, k, i);
    case Record(k, draw) => MsgLoopLater(w, net, "", "", k, draw);
    case SubLoop(n, to) => MsgLoopLater(w, net, n, to, 0, 0);
    case CallPush(k) => CallLater(w, net, k, 0);
    case AskOffset(k) => CallLater(w, net, k, 0);
    case SendPacket(k, size) => CallLater(w, net, k, size);
    case Receive(k) => CallLater(w, net, k, 0);
    case SelectPeers(n, peers) => SelectLater(net, n, peers);
    case _ => MarkLater(w, net, a);
  }

  lemma ApplyLater(w: World, net: Net, a: Action)
    ensures Later(net, Apply(w, net, a))
  {
    hide ServeClose;
    match a
    case Finish(k) => if Streams(net, k) { CloseLater(w, net, k, false, true); }
    case Interrupt(k, heard) =>
      if Streams(net, k) { CloseLater(w, net, k, net.calls[k].phase.size != net.calls[k].msg.signed.length, heard); }
    case Inject(n, id) => InjectLater(w, net, n, id);
    case _ => hide Apply; ApplySteady(w, net, a);
  }

  lemma MarkLater(w: World, net: Net, a: Action)
    requires a.Tick? || a.EndStream? || a.Fail? || a.LoseReply? || a.Retry? || a.SweepStore?
    ensures Steady(net, Apply(w, net, a))
  {
    hide Sweep, ApplyScan, ApplyPop, ApplyRecord, ApplySub;
    hide ApplyCall, ApplyAsk, ApplySend, ApplyReceive, ServeClose, ApplySelect;
  }

  lemma SelectLater(net: Net, n: Id, peers: set<Id>)
    ensures Steady(net, ApplySelect(net, n, peers))
  {
  }

  lemma {:induction false} RunLater(w: World, net: Net, actions: seq<Action>)
    ensures Later(net, Run(w, net, actions))
    decreases actions
  {
    if actions != [] {
      hide Apply;
      ApplyLater(w, net, actions[0]);
      RunLater(w, Apply(w, net, actions[0]), actions[1..]);
    }
  }

  lemma {:induction false} RunAppend(w: World, net: Net, first: seq<Action>, second: seq<Action>)
    ensures Run(w, net, first + second) == Run(w, Run(w, net, first), second)
    decreases first
  {
    hide Apply;
    if first == [] {
      assert first + second == second;
    } else {
      assert (first + second)[1..] == first[1..] + second;
      RunAppend(w, Apply(w, net, first[0]), first[1..], second);
    }
  }

  /** Every state that a run from empty stores reaches satisfies the invariant, on the same nodes. */
  lemma Reachable(w: World, nodes: set<Id>, clock: int, actions: seq<Action>)
    requires WorldOk(w)
    ensures Inv(w, Run(w, Init(nodes, clock), actions))
    ensures Run(w, Init(nodes, clock), actions).stores.Keys == nodes
  {
    hide Inv, Apply, Run;
    InitInv(w, nodes, clock);
    RunKeeps(w, Init(nodes, clock), actions);
    RunLater(w, Init(nodes, clock), actions);
  }

  // ---------- Hop lists ----------

  /**
   * Every stored copy, complete or partial, has as its hops a simple path of
   * nodes that completed the message, not including the node that stores it.
   */
  lemma HopListsAreSimplePaths(w: World, nodes: set<Id>, clock: int, actions: seq<Action>, n: Id, id: MsgId)
    requires WorldOk(w)
    requires var net := Run(w, Init(nodes, clock), actions); n in net.stores && id in net.stores[n].dirs
    ensures var net := Run(w, Init(nodes, clock), actions);
            && net.stores[n].dirs[id].record.Stored?
            && var hops := net.stores[n].dirs[id].record.msg.hops;
            && NoRepeats(hops) && n !in hops && |hops| <= |nodes| - 1
            && (w.maxHops > 0 ==> |hops| <= w.maxHops)
            && forall i :: 0 <= i < |hops| ==> hops[i] in nodes && (hops[i], id) in net.completed
  {
    hide Run, Inv;
    var net := Run(w, Init(nodes, clock), actions);
    Reachable(w, nodes, clock, actions);
    NodeFacts(w, net, n);
    HopsShort(w, net, n, net.stores[n].dirs[id].record.msg);
    assert |net.stores.Keys| == |net.stores|;
  }

  // ---------- Sent and FatalError marks ----------

  /** A node that completed a message keeps it until it expires, with its genuine content unless a push slipped. */
  lemma CompletedReads(w: World, net: Net, n: Id, id: MsgId)
    requires Inv(w, net) && (n, id) in net.completed
    ensures n in net.stores && id in w.truth
    ensures !w.truth[id].signed.Expired(net.clock) ==>
              && OpenRead(net.stores[n], id).Ok?
              && OpenRead(net.stores[n], id).value.0.signed == w.truth[id].signed
              && (!net.slipped ==> OpenRead(net.stores[n], id).value.1 == w.truth[id].content)
  {
    assert n in net.stores by { hide NodesOk, CallsOk, HistoryOk, LoopsOk, WorldOk; assert (n, id).0 in net.stores; }
    hide Inv;
    NodeFacts(w, net, n);
    hide RecordsOk;
    if id in net.stores[n].dirs {
      assert CopyOk(w, net.stores[n], id, !net.slipped);
    }
  }

  /**
   * Over every run in which no stream was opened whose packets start elsewhere
   * than at its offset: a Sent mark, whether it came from a nil Push, AlreadySeen
   * or an answer of Diff, means that the peer completed the message, with
   * identical content.
   */
  lemma SentIsSound(w: World, nodes: set<Id>, clock: int, actions: seq<Action>, n: Id, id: MsgId, to: Id)
    requires WorldOk(w)
    requires var net := Run(w, Init(nodes, clock), actions);
             n in net.stores && GetPeerInfo(net.stores[n], id, to).sent && !net.slipped
    ensures var net := Run(w, Init(nodes, clock), actions);
            && to in nodes && to in net.stores && (to, id) in net.completed && id in w.truth
            && (!w.truth[id].signed.Expired(net.clock) ==>
                  && OpenRead(net.stores[to], id).Ok?
                  && OpenRead(net.stores[to], id).value.1 == w.truth[id].content
                  && (OpenRead(net.stores[n], id).Ok? ==>
                        OpenRead(net.stores[n], id).value.1 == OpenRead(net.stores[to], id).value.1))
  {
    hide Run, Inv, OpenRead, GetPeerInfo;
    var net := Run(w, Init(nodes, clock), actions);
    Reachable(w, nodes, clock, actions);
    PeerSent(w, net, n, id, to);
    CompletedReads(w, net, to, id);
    if OpenRead(net.stores[n], id).Ok? {
      ReadersCompleted(w, net, n, id);
      CompletedReads(w, net, n, id);
    }
  }

  /**
   * Over the same runs, a push fails for good only if the message expired or hops
   * are limited below the number of nodes.
   */
  lemma FatalOnlyIfGivenUp(w: World, nodes: set<Id>, clock: int, actions: seq<Action>, n: Id, id: MsgId, to: Id)
    requires WorldOk(w)
    requires var net := Run(w, Init(nodes, clock), actions);
             n in net.stores && GetPeerInfo(net.stores[n], id, to).fatal && !net.slipped
    ensures var net := Run(w, Init(nodes, clock), actions);
            (id in w.truth && w.truth[id].signed.Expired(net.clock)) || 0 < w.maxHops < |nodes|
  {
    hide Run, Inv, GetPeerInfo;
    var net := Run(w, Init(nodes, clock), actions);
    Reachable(w, nodes, clock, actions);
    PeerFacts(w, net, n, id, to);
    assert |net.stores.Keys| == |net.stores|;
  }

  lemma ReadersCompleted(w: World, net: Net, n: Id, id: MsgId)
    requires Inv(w, net) && n in net.stores && OpenRead(net.stores[n], id).Ok?
    ensures (n, id) in net.completed
  {
    hide Inv, StoreOk, RecordsOk;
    NodeFacts(w, net, n);
  }

  // ---------- Coverage ----------

  /** Every good node knows all the others, agrees on the bad ones, and has started the peers it selects. */
  ghost predicate FullViews(net: Net, ring: seq<Id>, bad: set<Id>, max: int)
  {
    && Ascending(ring) && Elements(ring) == net.stores.Keys
    && forall r :: 0 <= r < |ring| && ring[r] !in bad ==>
         ActivePeers(net, ring[r]) == ActiveIds(ring[r], Others(ring, r), bad, max)
  }

  /** Every good holder is through with every good active peer: the message is marked Sent, or checkHops refused it. */
  ghost predicate Quiescent(net: Net, id: MsgId, bad: set<Id>)
  {
    forall n, q :: n in net.stores && n !in bad && q !in bad && IsComplete(net.stores[n], id) && (n, q) in net.loops ==>
      GetPeerInfo(net.stores[n], id, q).sent || (n, id, q) in net.refused
  }

  /** The message can still travel: it has not expired, and hops are not limited below the number of nodes. */
  ghost predicate Travels(w: World, net: Net, id: MsgId)
  {
    id in w.truth && !w.truth[id].signed.Expired(net.clock) && (w.maxHops <= 0 || w.maxHops >= |net.stores|)
  }

  /** A peer that a holder is through with has completed the message. */
  lemma PeerHolds(w: World, net: Net, n: Id, id: MsgId, q: Id, bad: set<Id>)
    requires Inv(w, net) && !net.slipped && Quiescent(net, id, bad) && (n, q) in net.loops && n !in bad && q !in bad
    requires (n, id) in net.completed && Travels(w, net, id)
    ensures (q, id) in net.completed
  {
    hide Inv, GetPeerInfo, OpenRead;
    Parts(w, net);
    CompletedReads(w, net, n, id);
    NodeFacts(w, net, n);
    if GetPeerInfo(net.stores[n], id, q).sent {
      PeerSent(w, net, n, id, q);
    } else {
      assert (n, id, q) in net.refused;
    }
  }

  /** Along a route of active peers, everyone has completed the message. */
  lemma {:induction false} RouteHolds(w: World, net: Net, ring: seq<Id>, bad: set<Id>, max: int, id: MsgId,
                                      p: seq<nat>, k: nat)
    requires Inv(w, net) && !net.slipped && FullViews(net, ring, bad, max) && Quiescent(net, id, bad)
    requires k < |p| && Route(ring, bad, max, p, p[0], p[|p| - 1])
    requires (ring[p[0]], id) in net.completed && Travels(w, net, id)
    ensures (ring[p[k]], id) in net.completed
  {
    hide Inv, Quiescent, ActiveIds, Travels;
    if k > 0 {
      RouteHolds(w, net, ring, bad, max, id, p, k - 1);
      EdgeLoop(net, ring, bad, max, p[k - 1], p[k - 1 + 1]);
      PeerHolds(w, net, ring[p[k - 1]], id, ring[p[k]], bad);
    }
  }

  /** An edge of the selection graph is a started peer. */
  lemma EdgeLoop(net: Net, ring: seq<Id>, bad: set<Id>, max: int, a: nat, b: nat)
    requires FullViews(net, ring, bad, max) && Edge(ring, bad, max, a, b) && ring[a] !in bad
    ensures (ring[a], ring[b]) in net.loops
  {
    hide ActiveIds;
    assert ring[b] in ActivePeers(net, ring[a]);
  }

  /** From one good holder to all good nodes, in any state that satisfies the invariant. */
  lemma Covers(w: World, net: Net, ring: seq<Id>, bad: set<Id>, max: int, id: MsgId, n0: Id, n: Id)
    requires Inv(w, net) && !net.slipped && FullViews(net, ring, bad, max) && Quiescent(net, id, bad) && max >= 0
    requires (n0, id) in net.completed && Travels(w, net, id)
    requires n0 in net.stores && n in net.stores && n0 !in bad && n !in bad
    ensures (n, id) in net.completed
  {
    hide Inv, Quiescent, Route, Travels;
    var a :| 0 <= a < |ring| && ring[a] == n0;
    var b :| 0 <= b < |ring| && ring[b] == n;
    hide FullViews;
    assert Ascending(ring);
    var p := StronglyConnected(ring, bad, max, a, b);
    assert |p| > 0 && p[0] == a && p[|p| - 1] == b by {
      RouteEnds(ring, bad, max, p, a, b);
    }
    RouteHolds(w, net, ring, bad, max, id, p, |p| - 1);
  }

  lemma RouteEnds(ring: seq<Id>, bad: set<Id>, max: int, p: seq<nat>, a: nat, b: nat)
    requires Route(ring, bad, max, p, a, b)
    ensures |p| > 0 && p[0] == a && p[|p| - 1] == b && b < |ring| && a < |ring|
  {
  }

  /**
   * A message that a good node authored, at any moment of any run without slips,
   * is complete and genuine on every good node once every good holder is through
   * with its good active peers.
   */
  lemma CoverageAtQuiescence(w: World, nodes: set<Id>, clock: int, before: seq<Action>, n0: Id, id: MsgId,
                             after: seq<Action>, ring: seq<Id>, bad: set<Id>, max: int, n: Id)
    requires WorldOk(w) && max >= 0 && n0 in nodes && n in nodes && n0 !in bad && n !in bad
    requires MayInject(w, Run(w, Init(nodes, clock), before), n0, id)
    requires var net := Run(w, Init(nodes, clock), before + [Inject(n0, id)] + after);
             !net.slipped && FullViews(net, ring, bad, max) && Quiescent(net, id, bad) && Travels(w, net, id)
    ensures var net := Run(w, Init(nodes, clock), before + [Inject(n0, id)] + after);
            && n in net.stores && OpenRead(net.stores[n], id).Ok?
            && OpenRead(net.stores[n], id).value.1 == w.truth[id].content
  {
    hide Inv, Apply, FullViews, Quiescent, OpenRead;
    var net := Run(w, Init(nodes, clock), before + [Inject(n0, id)] + after);
    AuthorHolds(w, nodes, clock, before, n0, id, after);
    hide Run;
    Reachable(w, nodes, clock, before + [Inject(n0, id)] + after);
    Covers(w, net, ring, bad, max, id, n0, n);
    CompletedReads(w, net, n, id);
  }

  /** The author of a message has completed and published it, ever after. */
  lemma AuthorHolds(w: World, nodes: set<Id>, clock: int, before: seq<Action>, n0: Id, id: MsgId, after: seq<Action>)
    requires WorldOk(w) && MayInject(w, Run(w, Init(nodes, clock), before), n0, id)
    ensures var net := Run(w, Init(nodes, clock), before + [Inject(n0, id)] + after);
            (n0, id) in net.completed && (n0, Message([], w.truth[id].signed)) in net.published
  {
    hide Inv, Apply;
    var init := Init(nodes, clock);
    var start := Run(w, init, before);
    var mid := Apply(w, start, Inject(n0, id));
    Reachable(w, nodes, clock, before);
    InjectKeeps(w, start, n0, id);
    RunAppend(w, init, before + [Inject(n0, id)], after);
    RunAppend(w, init, before, [Inject(n0, id)]);
    assert Run(w, start, [Inject(n0, id)]) == Run(w, mid, []);
    RunLater(w, mid, after);
  }
}

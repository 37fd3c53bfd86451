/** When a message can still reach every node: exactly when no set of nodes is cut off from it. */
module Cuts {
  import opened Order
  import opened Selection
  import opened Ring
  import opened Message
  import opened Storage
  import opened Diff
  import Delivery
  import opened Network
  import opened NetworkInv
  import opened Flooding
  import opened Accounting
  import opened Publication
  import opened Progress

  /**
   * The message cannot leave the set: all holders are in it, and so is every
   * node that a holder is about to push to, or that another member has started
   * as a peer and will hear of the message.
   */
  ghost predicate Closed(net: Net, id: MsgId, s: set<Id>)
  {
    && (forall n :: (n, id) in net.completed ==> n in s)
    && (forall n, p :: n in s && (n, p) in net.loops && p in net.stores ==>
          p in s || ((n, id) in net.completed && !UnderWay(net, n, id, p)))
    && (forall k :: k in net.calls && net.calls[k].msg.signed.id == id ==> net.calls[k].to in s)
  }

  /** Every closed set of nodes includes the goal. */
  ghost predicate NoCut(net: Net, id: MsgId, goal: set<Id>)
  {
    forall s :: Closed(net, id, s) ==> goal <= s
  }

  /** Neither peers are started or stopped nor is the message authored again. */
  ghost predicate Ordinary(id: MsgId, a: Action)
  {
    !a.SelectPeers? && !(a.Inject? && a.id == id)
  }

  ghost predicate OrdinaryRun(id: MsgId, actions: seq<Action>)
  {
    forall i :: 0 <= i < |actions| ==> Ordinary(id, actions[i])
  }

  ghost predicate AllComplete(net: Net, id: MsgId, goal: set<Id>)
  {
    forall n :: n in goal ==> (n, id) in net.completed
  }

  // ---------- A closed set stays closed ----------

  /** No loop hears of the message but one that had, or whose node had not completed it. */
  ghost predicate Traced(net: Net, net': Net, id: MsgId)
  {
    && net'.stores.Keys == net.stores.Keys && net'.loops.Keys == net.loops.Keys && net.completed <= net'.completed
    && (forall n, p :: (n, p) in net.loops && UnderWay(net', n, id, p) ==>
          UnderWay(net, n, id, p) || (n, id) !in net.completed)
    && (forall k :: k in net'.calls && net'.calls[k].msg.signed.id == id ==>
          var c := net'.calls[k];
          || (k in net.calls && net.calls[k].msg.signed.id == id && net.calls[k].to == c.to)
          || ((c.from, c.to) in net.loops && (c.from, id) in net.completed && c.to in net.stores
              && UnderWay(net, c.from, id, c.to)))
    && (forall n :: (n, id) in net'.completed && (n, id) !in net.completed ==>
          exists k :: k in net.calls && net.calls[k].msg.signed.id == id && net.calls[k].to == n)
  }

  lemma TracedCloses(net: Net, net': Net, id: MsgId, s: set<Id>)
    requires Closed(net, id, s) && Traced(net, net', id)
    ensures Closed(net', id, s)
  {
    hide UnderWay;
  }

  /** The loops are as they were, and so are the messages and ends of the calls. */
  lemma SteadyTraced(w: World, net: Net, net': Net, id: MsgId)
    requires net'.stores.Keys == net.stores.Keys && net'.loops == net.loops && net'.completed == net.completed
    requires net'.calls.Keys == net.calls.Keys
    requires forall k :: k in net.calls ==>
               net'.calls[k].from == net.calls[k].from && net'.calls[k].to == net.calls[k].to
                                            && net'.calls[k].msg == net.calls[k].msg
    ensures Traced(net, net', id)
  {
    assert forall n, p :: Pushing(net', n, id, p) ==> Pushing(net, n, id, p);
    hide Pushing, InBox;
  }

  /** At most one call changes, keeping its message and its ends. */
  ghost predicate OneCall(net: Net, net': Net, k: nat)
  {
    && net'.stores.Keys == net.stores.Keys && net'.loops == net.loops && net'.completed == net.completed
    && (net'.calls == net.calls
        || (k in net.calls && k in net'.calls && net'.calls == net.calls[k := net'.calls[k]]
            && net'.calls[k].from == net.calls[k].from && net'.calls[k].to == net.calls[k].to
            && net'.calls[k].msg == net.calls[k].msg))
  }

  lemma OneCallTraced(w: World, net: Net, net': Net, k: nat, id: MsgId)
    requires OneCall(net, net', k)
    ensures Traced(net, net', id)
  {
    hide Traced;
    SteadyTraced(w, net, net', id);
  }

  lemma MarkTraced(w: World, net: Net, a: Action, id: MsgId)
    requires a.Tick? || a.EndStream? || a.Fail? || a.LoseReply? || a.Retry? || a.SweepStore?
    ensures Traced(net, Apply(w, net, a), id)
  {
    hide Traced, Sweep, ApplyScan, ApplyPop, ApplyRecord, ApplySub;
    hide ApplyCall, ApplyAsk, ApplySend, ApplyReceive, ServeClose, ApplySelect;
    var net', k := Apply(w, net, a), if a.Tick? || a.SweepStore? then 0 else a.k;
    assert OneCall(net, net', k);
    OneCallTraced(w, net, net', k, id);
  }

  lemma CallTraced(w: World, net: Net, k: nat, id: MsgId)
    ensures Traced(net, ApplyCall(w, net, k), id) && Traced(net, ApplyAsk(net, k), id)
  {
    hide Traced, ServePush, Offset;
    assert OneCall(net, ApplyCall(w, net, k), k) && OneCall(net, ApplyAsk(net, k), k);
    hide OneCall;
    OneCallTraced(w, net, ApplyCall(w, net, k), k, id);
    OneCallTraced(w, net, ApplyAsk(net, k), k, id);
  }

  lemma PacketTraced(w: World, net: Net, k: nat, size: nat, id: MsgId)
    ensures Traced(net, ApplySend(net, k, size), id) && Traced(net, ApplyReceive(net, k), id)
  {
    hide Traced, Write;
    assert OneCall(net, ApplySend(net, k, size), k) && OneCall(net, ApplyReceive(net, k), k);
    hide OneCall;
    OneCallTraced(w, net, ApplySend(net, k, size), k, id);
    OneCallTraced(w, net, ApplyReceive(net, k), k, id);
  }

  /** A publication reaches the loops of its node only. */
  lemma PublishTraced(net: Net, net': Net, id: MsgId, q: Id, m: Message)
    requires net'.stores.Keys == net.stores.Keys
    requires || net'.loops == net.loops
             || (net'.loops == Publish(net, q, m).loops && (m.signed.id == id ==> (q, id) !in net.completed))
    requires net.completed <= net'.completed <= net.completed + {(q, m.signed.id)}
    requires (q, m.signed.id) in net'.completed && (q, m.signed.id) !in net.completed && m.signed.id == id ==>
               exists k :: k in net.calls && net.calls[k].msg.signed.id == id && net.calls[k].to == q
    requires net'.calls.Keys == net.calls.Keys
    requires forall k :: k in net.calls ==>
               net'.calls[k].from == net.calls[k].from && net'.calls[k].to == net.calls[k].to
                                            && net'.calls[k].msg == net.calls[k].msg
    ensures Traced(net, net', id)
  {
    assert forall n, p :: Pushing(net', n, id, p) ==> Pushing(net, n, id, p);
    hide Pushing;
    forall n, p | (n, p) in net.loops && UnderWay(net', n, id, p)
      ensures UnderWay(net, n, id, p) || (n, id) !in net.completed
    {
      if net'.loops != net.loops && InBox(net'.loops[(n, p)].inbox, id) {
        LastInBox(net.loops[(n, p)].inbox, m, id);
      }
    }
  }

  lemma LastInBox(inbox: seq<Message>, m: Message, id: MsgId)
    ensures InBox(inbox + [m], id) ==> InBox(inbox, id) || m.signed.id == id
  {
  }

  lemma CloseTraced(w: World, net: Net, k: nat, failed: bool, heard: bool, id: MsgId)
    requires Inv(w, net) && Streams(net, k)
    ensures Traced(net, ServeClose(w, net, k, failed, heard), id)
  {
    hide Inv, Close, ServeClose, Publish, Traced, StoreOk, RecordsOk, CompletedOk, HopsOk, HopsDone, StreamOk;
    var c := net.calls[k];
    ServeCloseShape(w, net, k, failed, heard);
    StreamFacts(w, net, k);
    PublishTraced(net, ServeClose(w, net, k, failed, heard), id, c.to, c.msg);
  }

  lemma InjectTraced(w: World, net: Net, n: Id, x: MsgId, id: MsgId)
    requires Inv(w, net) && x != id
    ensures Traced(net, Apply(w, net, Inject(n, x)), id)
  {
    hide Inv, Apply, Traced;
    if MayInject(w, net, n, x) {
      Parts(w, net);
      hide NodesOk, CallsOk, HistoryOk, LoopsOk;
      InjectShape(w, net, n, x);
      var m := Message([], w.truth[x].signed);
      var mid := net.(stores := Apply(w, net, Inject(n, x)).stores, completed := net.completed + {(n, x)});
      assert Publish(mid, n, m).loops == Publish(net, n, m).loops;
      PublishTraced(net, Apply(w, net, Inject(n, x)), id, n, m);
    } else {
      NotInjected(w, net, n, x);
      SteadyTraced(w, net, net, id);
    }
  }

  /** Only loop x changes, and what it now has it had, as a Diff to come, a message, an entry or a push. */
  lemma LoopTraced(net: Net, net': Net, x: (Id, Id), id: MsgId)
    requires net'.stores.Keys == net.stores.Keys && net'.loops.Keys == net.loops.Keys && net'.completed == net.completed
    requires x in net.loops && forall y :: y in net.loops && y != x ==> net'.loops[y] == net.loops[y]
    requires var l, l' := net.loops[x], net'.loops[x];
             && (l'.diffing ==> l.diffing)
             && (id in l'.queue ==> UnderWay(net, x.0, id, x.1)) && (InBox(l'.inbox, id) ==> InBox(l.inbox, id))
    requires forall k :: k in net'.calls ==>
               || (k in net.calls && net'.calls[k].from == net.calls[k].from && net'.calls[k].to == net.calls[k].to
                   && net'.calls[k].msg == net.calls[k].msg)
               || (net'.calls[k].from == x.0 && net'.calls[k].to == x.1
                   && (net'.calls[k].msg.signed.id == id ==>
                         UnderWay(net, x.0, id, x.1) && (x.0, id) in net.completed && x.1 in net.stores))
    ensures Traced(net, net', id)
  {
    hide InBox;
    assert x == (x.0, x.1);
    forall n, p | (n, p) in net.loops && UnderWay(net', n, id, p)
      ensures UnderWay(net, n, id, p)
    {
      if Pushing(net', n, id, p) {
        var k :| k in net'.calls && net'.calls[k].from == n && net'.calls[k].to == p
                 && net'.calls[k].msg.signed.id == id;
        if k in net.calls && net.calls[k].from == n && net.calls[k].to == p && net.calls[k].msg.signed.id == id {
          assert Pushing(net, n, id, p);
        }
      }
    }
  }

  lemma BoxHead(inbox: seq<Message>, id: MsgId)
    requires inbox != []
    ensures InBox(inbox, id) <==> inbox[0].signed.id == id || InBox(inbox[1..], id)
  {
    if InBox(inbox[1..], id) {
      var i :| 0 <= i < |inbox[1..]| && inbox[1..][i].signed.id == id;
      assert inbox[i + 1].signed.id == id;
    }
    if InBox(inbox, id) && inbox[0].signed.id != id {
      BoxTail(inbox, id);
    }
  }

  lemma SubTraced(w: World, net: Net, n: Id, to: Id, id: MsgId)
    ensures Traced(net, ApplySub(w, net, n, to), id)
  {
    hide Traced;
    var net', x := ApplySub(w, net, n, to), (n, to);
    if x in net.loops && net.loops[x].inbox != [] {
      BoxHead(net.loops[x].inbox, id);
      hide InBox, CheckHops, Pushing;
      LoopTraced(net, net', x, id);
    } else {
      SteadyTraced(w, net, net, id);
    }
  }

  lemma ScanTraced(w: World, net: Net, n: Id, to: Id, order: seq<MsgId>, has: set<MsgId>, broke: Option<nat>, id: MsgId)
    ensures Traced(net, ApplyScan(w, net, n, to, order, has, broke), id)
  {
    hide Traced, InBox;
    if MayScan(net, n, to, order) {
      ScanShape(w, net, n, to, order, has, broke);
      ScanLater(w, net, n, to, order, has, broke);
      hide ApplyScan;
      LoopTraced(net, ApplyScan(w, net, n, to, order, has, broke), (n, to), id);
    } else {
      SteadyTraced(w, net, net, id);
    }
  }

  lemma PopTraced(w: World, net: Net, k: nat, n: Id, to: Id, i: nat, id: MsgId)
    requires Inv(w, net) && !net.slipped
    ensures Traced(net, ApplyPop(net, k, n, to, i), id)
  {
    hide Inv, Traced, InBox, ApplyPop;
    var net', x := ApplyPop(net, k, n, to, i), (n, to);
    if net' != net {
      PopShape(w, net, k, n, to, i);
      TakenKeeps(w, net, x, i);
      LoopTraced(net, net', x, id);
    } else {
      SteadyTraced(w, net, net, id);
    }
  }

  lemma RecordTraced(w: World, net: Net, k: nat, draw: nat, id: MsgId)
    ensures Traced(net, ApplyRecord(net, k, draw), id)
  {
    hide Traced, InBox, SetPeerInfo, GetPeerInfo, Delivery.AfterPush;
    var net' := ApplyRecord(net, k, draw);
    if k in net.calls && net.calls[k].phase.Replied? && net.calls[k].from in net.stores {
      var c := net.calls[k];
      var x := (c.from, c.to);
      if c.msg.signed.id == id {
        assert Pushing(net, c.from, id, c.to);
      }
      if x in net.loops {
        LoopTraced(net, net', x, id);
      } else {
        EndTraced(net, net', id);
      }
    } else {
      SteadyTraced(w, net, net, id);
    }
  }

  lemma EndTraced(net: Net, net': Net, id: MsgId)
    requires net'.stores.Keys == net.stores.Keys && net'.loops == net.loops && net'.completed == net.completed
    requires forall k :: k in net'.calls ==> k in net.calls && net'.calls[k] == net.calls[k]
    ensures Traced(net, net', id)
  {
    assert forall n, p :: Pushing(net', n, id, p) ==> Pushing(net, n, id, p);
    hide Pushing, InBox;
  }

  lemma StepTraced(w: World, net: Net, a: Action, id: MsgId)
    requires Inv(w, net) && !net.slipped && Ordinary(id, a)
    ensures Traced(net, Apply(w, net, a), id)
  {
    hide Inv, Traced, ApplyScan, ApplyPop, ApplyRecord;
    hide ApplySub, ApplyCall, ApplyAsk, ApplySend, ApplyReceive, ServeClose;
    match a
    case Inject(n, x) => InjectTraced(w, net, n, x, id);
    case SubLoop(n, to) => SubTraced(w, net, n, to, id);
    case DiffScan(n, to, order, has, broke) => ScanTraced(w, net, n, to, order, has, broke, id);
    case Pop(k, n, to, i) => PopTraced(w, net, k, n, to, i, id);
    case CallPush(k) => CallTraced(w, net, k, id);
    case AskOffset(k) => CallTraced(w, net, k, id);
    case SendPacket(k, size) => PacketTraced(w, net, k, size, id);
    case Receive(k) => PacketTraced(w, net, k, 0, id);
    case Finish(k) =>
      if Streams(net, k) { CloseTraced(w, net, k, false, true, id); }
      SteadyTraced(w, net, net, id);
    case Interrupt(k, heard) =>
      if Streams(net, k) {
        CloseTraced(w, net, k, net.calls[k].phase.size != net.calls[k].msg.signed.length, heard, id);
      }
      SteadyTraced(w, net, net, id);
    case Record(k, draw) => RecordTraced(w, net, k, draw, id);
    case _ => MarkTraced(w, net, a, id);
  }

  /** A closed set stays closed in every ordinary run without slips. */
  lemma {:induction false} StaysClosed(w: World, net: Net, actions: seq<Action>, id: MsgId, s: set<Id>)
    requires Inv(w, net) && Closed(net, id, s) && OrdinaryRun(id, actions) && !Run(w, net, actions).slipped
    ensures Closed(Run(w, net, actions), id, s)
    decreases actions
  {
    if actions != [] {
      hide Inv, Closed, Apply, Traced;
      var net1 := Apply(w, net, actions[0]);
      RunLater(w, net1, actions[1..]);
      ApplyLater(w, net, actions[0]);
      ApplyKeeps(w, net, actions[0]);
      StepTraced(w, net, actions[0], id);
      TracedCloses(net, net1, id, s);
      StaysClosed(w, net1, actions[1..], id, s);
    }
  }

  // ---------- Without a cut the message gets through ----------

  /** Nothing stands between a holder and a peer without the message: not checkHops, nor a mark. */
  lemma NotRefusedYet(w: World, net: Net, n: Id, m: Message, p: Id)
    requires HopsOk(w, net, n, m) && (p, m.signed.id) !in net.completed && Travels(w, net, m.signed.id)
    ensures CheckHops(m.hops, p, w.maxHops) == NotRefused
  {
    HopsShort(w, net, n, m);
  }

  lemma NotSettledYet(w: World, net: Net, n: Id, id: MsgId, p: Id)
    requires Inv(w, net) && !net.slipped && Unhindered(net, id) && n in net.stores && (p, id) !in net.completed
    ensures !Delivery.Terminal(GetPeerInfo(net.stores[n], id, p))
    ensures GetPeerInfo(net.stores[n], id, p).nextAttempt <= net.clock
  {
    hide Inv;
    if GetPeerInfo(net.stores[n], id, p).sent {
      PeerSent(w, net, n, id, p);
    }
  }

  /** Only one loop and the history of refusals and misses change. */
  ghost predicate Prepared(net: Net, net': Net, x: (Id, Id))
  {
    && x in net.loops && x in net'.loops
    && net' == net.(loops := net.loops[x := net'.loops[x]], refused := net'.refused, missed := net'.missed)
  }

  lemma PreparedTwice(net: Net, mid: Net, net': Net, x: (Id, Id))
    requires Prepared(net, mid, x) && Prepared(mid, net', x)
    ensures Prepared(net, net', x)
  {
    assert net.loops[x := mid.loops[x]][x := net'.loops[x]] == net.loops[x := net'.loops[x]];
  }

  lemma {:induction false} Enumerate(s: set<MsgId>) returns (q: seq<MsgId>)
    ensures forall i, j :: 0 <= i < j < |q| ==> q[i] != q[j]
    ensures forall x :: x in q <==> x in s
    decreases |s|
  {
    if s == {} {
      q := [];
    } else {
      var x :| x in s;
      var rest := Enumerate(s - {x});
      q := [x] + rest;
    }
  }

  /** A listing that begins with the message. */
  lemma ListFirst(w: World, net: Net, n: Id, id: MsgId) returns (order: seq<MsgId>)
    requires Inv(w, net) && n in net.stores && (n, id) in net.completed && Travels(w, net, id)
    ensures Listing(net.stores[n], net.clock, order) && |order| > 0 && order[0] == id
  {
    hide Inv;
    var fs := net.stores[n];
    Readable(w, net, n, id);
    var listed := set x | x in fs.dirs && fs.dirs[x].done && fs.dirs[x].record.Stored?
                          && !fs.dirs[x].record.msg.signed.Expired(net.clock);
    var rest := Enumerate(listed - {id});
    order := [id] + rest;
    assert forall x :: x in order <==> x in listed;
    forall i | 0 <= i < |order|
      ensures order[i] in listed
    {
      assert order[i] in order;
    }
  }

  /** The first entry, if not filtered, is dealt with. */
  lemma FirstDealt(c: Setting, manifest: seq<Message>)
    requires |manifest| > 0 && !Filtered(c, manifest[0])
    ensures DealtWith(c, manifest, None) > 0
  {
    assert !AllFiltered(c, manifest, 0);
  }

  /** The message is not filtered from a Diff that lists it first. */
  lemma NotFilteredYet(w: World, net: Net, n: Id, p: Id, id: MsgId, order: seq<MsgId>)
    requires Inv(w, net) && !net.slipped && Unhindered(net, id) && Travels(w, net, id) && n in net.stores
    requires (p, id) !in net.completed && Listing(net.stores[n], net.clock, order) && |order| > 0 && order[0] == id
    ensures !Filtered(SettingOf(w, net, n, p, {}), Manifest(net.stores[n], order)[0])
  {
    hide Inv, UpTo, Unhindered;
    var c, fs := SettingOf(w, net, n, p, {}), net.stores[n];
    var manifest := Manifest(fs, order);
    ListedHops(w, net, n, order, 0);
    NotRefusedYet(w, net, n, manifest[0], p);
    NotSettledYet(w, net, n, id, p);
    ScanFile(fs, p, c, manifest, 0, id);
  }

  /** Writing back what is on record changes nothing. */
  lemma SameInfos(fs: Fs, to: Id)
    ensures StoreInfos(fs, to, InfosOf(fs, to)) == fs
  {
    assert forall x :: x in fs.dirs && to in fs.dirs[x].peers ==>
        fs.dirs[x].peers[to := fs.dirs[x].peers[to]] == fs.dirs[x].peers;
  }

  /** What such a Diff queues. */
  lemma ScanInsertsFirst(w: World, net: Net, n: Id, p: Id, id: MsgId, order: seq<MsgId>) returns (k: nat)
    requires Inv(w, net) && !net.slipped && Unhindered(net, id) && Travels(w, net, id) && n in net.stores
    requires (p, id) !in net.completed && Listing(net.stores[n], net.clock, order) && |order| > 0 && order[0] == id
    ensures var c, manifest := SettingOf(w, net, n, p, {}), Manifest(net.stores[n], order);
            var done := UpTo(c, manifest, DealtWith(c, manifest, None));
            k < |done.inserts| && done.inserts[k].id == id && done.infos == InfosOf(net.stores[n], p)
  {
    hide Inv, UpTo, StopAt, Count, Unhindered;
    var c, manifest := SettingOf(w, net, n, p, {}), Manifest(net.stores[n], order);
    ListedIds(w, net, n, order);
    NotFilteredYet(w, net, n, p, id, order);
    FirstDealt(c, manifest);
    var e := DealtWith(c, manifest, None);
    Partition(c, manifest, e, 0);
    NothingThere(c, manifest, e);
    k := CountSome(UpTo(c, manifest, e).inserts, id);
  }

  /** What a Diff that does not break leaves of the state. */
  lemma ScanLeaves(w: World, net: Net, n: Id, p: Id, order: seq<MsgId>)
    requires MayScan(net, n, p, order)
    ensures var net', x := Apply(w, net, DiffScan(n, p, order, {}, None)), (n, p);
            var c, manifest := SettingOf(w, net, n, p, {}), Manifest(net.stores[n], order);
            var done := UpTo(c, manifest, DealtWith(c, manifest, None));
            && x in net'.loops && !net'.loops[x].diffing
            && net'.loops[x].queue
               == net.loops[x].queue + seq(|done.inserts|, i requires 0 <= i < |done.inserts| => done.inserts[i].id)
            && net' == net.(stores := net.stores[n := StoreInfos(net.stores[n], p, done.infos)],
                            loops := net.loops[x := net'.loops[x]], refused := net'.refused, missed := net'.missed)
  {
    hide UpTo, DealtWith, StoreInfos, InfosOf, CheckHops;
  }

  /** A Diff to a peer that answers that it has nothing queues the message. */
  lemma ScanQueues(w: World, net: Net, n: Id, p: Id, id: MsgId) returns (a: Action)
    requires Inv(w, net) && !net.slipped && Unhindered(net, id) && Travels(w, net, id)
    requires (n, p) in net.loops && net.loops[(n, p)].diffing && n in net.stores
    requires (n, id) in net.completed && (p, id) !in net.completed
    ensures Ordinary(id, a)
    ensures var net' := Apply(w, net, a);
            Prepared(net, net', (n, p)) && !net'.loops[(n, p)].diffing && id in net'.loops[(n, p)].queue
  {
    hide Inv, UpTo, DealtWith, Unhindered, Travels, Apply, StoreInfos, InfosOf;
    var order := ListFirst(w, net, n, id);
    a := DiffScan(n, p, order, {}, None);
    var net' := Apply(w, net, a);
    var k := ScanInsertsFirst(w, net, n, p, id, order);
    ScanLeaves(w, net, n, p, order);
    SameInfos(net.stores[n], p);
    var l, l' := net.loops[(n, p)], net'.loops[(n, p)];
    assert l'.queue[|l.queue| + k] == id;
    assert net.stores[n := net.stores[n]] == net.stores;
  }

  /** The subscription is read until the message is queued. */
  lemma {:induction false} BoxQueues(w: World, net: Net, n: Id, p: Id, id: MsgId) returns (actions: seq<Action>)
    requires Inv(w, net) && !net.slipped && Travels(w, net, id) && (p, id) !in net.completed
    requires (n, p) in net.loops && !net.loops[(n, p)].diffing
    requires id in net.loops[(n, p)].queue || InBox(net.loops[(n, p)].inbox, id)
    ensures OrdinaryRun(id, actions)
    ensures var net' := Run(w, net, actions);
            Inv(w, net') && Prepared(net, net', (n, p)) && !net'.loops[(n, p)].diffing && id in net'.loops[(n, p)].queue
    decreases |net.loops[(n, p)].inbox|
  {
    hide Inv, Run, InBox;
    var x := (n, p);
    var l := net.loops[x];
    if id in l.queue {
      actions := [];
      RunNone(w, net);
      assert net.loops[x := l] == net.loops;
    } else {
      assert l.inbox != [] by { EmptyBox(id); }
      BoxHead(l.inbox, id);
      var a := SubLoop(n, p);
      var net1 := Apply(w, net, a);
      if l.inbox[0].signed.id == id {
        assert HopsOk(w, net, n, l.inbox[0]) by {
          Parts(w, net);
          hide NodesOk, CallsOk;
          assert LoopOk(net, x);
          assert l.inbox[0] in l.inbox;
        }
        NotRefusedYet(w, net, n, l.inbox[0], p);
        assert net1.loops[x].queue[|l.queue|] == id;
      }
      assert Prepared(net, net1, x);
      hide Apply, CheckHops;
      ApplyKeeps(w, net, a);
      var rest := BoxQueues(w, net1, n, p, id);
      RunFirst(w, net, a, rest);
      PreparedTwice(net, net1, Run(w, net1, rest), x);
      actions := [a] + rest;
    }
  }

  lemma EmptyBox(id: MsgId)
    ensures !InBox([], id)
  {
  }

  /**
   * A step of the flood: one more node has completed and published the message, and
   * every other loop has what it had.
   */
  ghost predicate Forward(net: Net, net': Net, n: Id, p: Id, id: MsgId)
  {
    && net'.stores.Keys == net.stores.Keys && |net'.stores| == |net.stores| && net'.clock == net.clock
    && net'.slipped == net.slipped && net'.calls == net.calls
    && net'.completed == net.completed + {(p, id)} && net'.loops.Keys == net.loops.Keys
    && (forall y :: y in net.loops && y != (n, p) ==> LoopKept(net.loops[y], net'.loops[y]))
    && (forall q :: (p, q) in net.loops ==> InBox(net'.loops[(p, q)].inbox, id))
    && Unhindered(net', id)
  }

  lemma QueuedIsDue(w: World, net: Net, n: Id, p: Id, id: MsgId, i: nat)
    requires Inv(w, net) && !net.slipped && Unhindered(net, id) && Travels(w, net, id) && net.calls == map[]
    requires (n, p) in net.loops && !net.loops[(n, p)].diffing
    requires i < |net.loops[(n, p)].queue| && net.loops[(n, p)].queue[i] == id
    requires n in net.stores && p in net.stores && (n, id) in net.completed && (p, id) !in net.completed
    ensures Due(w, net, n, p, i)
  {
    hide Inv;
    Readable(w, net, n, id);
    NotSettledYet(w, net, n, id, p);
    NodeFacts(w, net, n);
    hide CompletedOk, StoreOk;
    HopsShort(w, net, n, net.stores[n].dirs[id].record.msg);
  }

  lemma UnhinderedSame(net: Net, net': Net, id: MsgId)
    requires net'.stores == net.stores && net'.clock == net.clock && Unhindered(net, id)
    ensures Unhindered(net', id)
  {
  }

  lemma PreparedRefl(net: Net, x: (Id, Id))
    requires x in net.loops
    ensures Prepared(net, net, x)
  {
    assert net.loops[x := net.loops[x]] == net.loops;
  }

  lemma TravelsSame(w: World, net: Net, net': Net, id: MsgId)
    requires Travels(w, net, id) && net'.clock == net.clock && |net'.stores| == |net.stores|
    ensures Travels(w, net', id)
  {
  }

  lemma ForwardIs(net: Net, mid: Net, net': Net, n: Id, p: Id, i: nat, id: MsgId)
    requires Prepared(net, mid, (n, p)) && i < |mid.loops[(n, p)].queue| && mid.loops[(n, p)].queue[i] == id
    requires n in mid.stores && id in mid.stores[n].dirs && mid.stores[n].dirs[id].record.Stored?
    requires Outgoing(mid, n, id).signed.id == id && (p, id) !in net.completed
    requires Delivered(mid, net', n, p, i) && Unhindered(net', id)
    ensures Forward(net, net', n, p, id)
  {
    hide Unhindered, GetPeerInfo, IsComplete;
    assert |net'.stores.Keys| == |net.stores.Keys|;
    var m := Outgoing(mid, n, id);
    forall y | y in net.loops && y != (n, p)
      ensures LoopKept(net.loops[y], net'.loops[y])
    {
      forall z
        ensures InBox(net.loops[y].inbox, z) ==> InBox(net'.loops[y].inbox, z)
      {
        BoxGrows(net.loops[y].inbox, m, z);
      }
    }
    forall q | (p, q) in net.loops
      ensures InBox(net'.loops[(p, q)].inbox, id)
    {
      BoxGrows(mid.loops[(p, q)].inbox, m, id);
      if (p, q) == (n, p) {
        BoxGrows(Taken(mid, (n, p), i).loops[(n, p)].inbox, m, id);
      }
    }
  }

  /** From a loop in which the message is under way, to the peer. */
  lemma Advance(w: World, net: Net, n: Id, p: Id, id: MsgId) returns (actions: seq<Action>)
    requires Inv(w, net) && !net.slipped && Unhindered(net, id) && Travels(w, net, id) && net.calls == map[]
    requires (n, p) in net.loops && UnderWay(net, n, id, p)
    requires n in net.stores && p in net.stores && (n, id) in net.completed && (p, id) !in net.completed
    ensures OrdinaryRun(id, actions)
    ensures var net' := Run(w, net, actions); Inv(w, net') && Forward(net, net', n, p, id)
  {
    hide Inv, Run, InBox, Unhindered, Due, Apply, Travels;
    var x := (n, p);
    var net1, scan := net, [];
    RunNone(w, net);
    PreparedRefl(net, x);
    if net.loops[x].diffing {
      var a := ScanQueues(w, net, n, p, id);
      scan := [a];
      net1 := Apply(w, net, a);
      RunOne(w, net, a);
      ApplyKeeps(w, net, a);
    }
    TravelsSame(w, net, net1, id);
    assert id in net1.loops[x].queue || InBox(net1.loops[x].inbox, id) by {
      assert net.calls == map[];
    }
    var sub := BoxQueues(w, net1, n, p, id);
    var net2 := Run(w, net1, sub);
    PreparedTwice(net, net1, net2, x);
    RunAppend(w, net, scan, sub);
    UnhinderedSame(net, net2, id);
    TravelsSame(w, net, net2, id);
    var i :| 0 <= i < |net2.loops[x].queue| && net2.loops[x].queue[i] == id;
    QueuedIsDue(w, net2, n, p, id, i);
    DueFacts(w, net2, n, p, i);
    var push := PushDelivers(w, net2, 0, n, p, i, 0);
    RunKeeps(w, net2, push);
    RunAppend(w, net, scan + sub, push);
    actions := scan + sub + push;
    ForwardIs(net, net2, Run(w, net2, push), n, p, i, id);
  }

  // ---------- The theorem ----------

  /** What is closed after a step of the flood was closed before. */
  lemma ForwardCloses(net: Net, net': Net, n: Id, p: Id, id: MsgId, s: set<Id>)
    requires Forward(net, net', n, p, id) && net.calls == map[] && (n, p) in net.loops && Closed(net', id, s)
    ensures Closed(net, id, s)
  {
    hide Unhindered, InBox;
    assert forall a, b :: !Pushing(net, a, id, b);
    hide Pushing;
    forall a, b | a in s && (a, b) in net.loops && b in net.stores && b !in s
      ensures (a, id) in net.completed && !UnderWay(net, a, id, b)
    {
      assert (a, id) in net'.completed && !UnderWay(net', a, id, b);
      assert LoopKept(net.loops[(a, b)], net'.loops[(a, b)]);
    }
  }

  /** Some holder has the message under way to a node that lacks it. */
  lemma SomeStep(w: World, net: Net, id: MsgId, goal: set<Id>) returns (n: Id, p: Id)
    requires Inv(w, net) && NoCut(net, id, goal) && net.calls == map[] && !AllComplete(net, id, goal)
    ensures (n, p) in net.loops && UnderWay(net, n, id, p) && n in net.stores && p in net.stores
    ensures (n, id) in net.completed && (p, id) !in net.completed
  {
    hide Inv, UnderWay;
    Completers(w, net);
    var holders := set n | n in net.stores && (n, id) in net.completed;
    assert !Closed(net, id, holders);
    forall k | (k, id) in net.completed
      ensures k in holders
    {
      assert (k, id).0 in net.stores;
    }
    n, p :| n in holders && (n, p) in net.loops && p in net.stores && p !in holders && UnderWay(net, n, id, p);
  }

  lemma Completers(w: World, net: Net)
    requires Inv(w, net)
    ensures forall x :: x in net.completed ==> x.0 in net.stores
  {
    hide WorldOk, NodesOk, CallsOk, HistoryOk, LoopsOk;
  }

  ghost function Lacking(net: Net, id: MsgId): set<Id>
  {
    set n | n in net.stores && (n, id) !in net.completed
  }

  /**
   * Nothing hinders the message for now: no push of it is being made, no lock, mark
   * or delay is in its way, and it can travel.
   */
  ghost predicate Unimpeded(w: World, net: Net, id: MsgId)
  {
    && !net.slipped && Unhindered(net, id) && Travels(w, net, id)
    && forall k :: k in net.calls ==> net.calls[k].msg.signed.id != id
  }

  /** Without a cut, and with no call under way, some ordinary run brings the message to the goal. */
  lemma {:induction false} Floods(w: World, net: Net, id: MsgId, goal: set<Id>) returns (actions: seq<Action>)
    requires Inv(w, net) && Unimpeded(w, net, id) && NoCut(net, id, goal) && net.calls == map[]
    ensures OrdinaryRun(id, actions)
    ensures var net' := Run(w, net, actions); !net'.slipped && AllComplete(net', id, goal)
    decreases |Lacking(net, id)|
  {
    hide Inv, Run, Unhindered, Travels;
    if AllComplete(net, id, goal) {
      actions := [];
      RunNone(w, net);
    } else {
      var n, p := SomeStep(w, net, id, goal);
      var step := Advance(w, net, n, p, id);
      var net1 := Run(w, net, step);
      assert NoCut(net1, id, goal) by {
        hide Closed, Forward;
        forall s | Closed(net1, id, s)
          ensures goal <= s
        {
          ForwardCloses(net, net1, n, p, id, s);
        }
      }
      hide NoCut, Closed, UnderWay, AllComplete;
      Smaller(Lacking(net1, id), Lacking(net, id), p);
      TravelsSame(w, net, net1, id);
      var rest := Floods(w, net1, id, goal);
      RunAppend(w, net, step, rest);
      actions := step + rest;
    }
  }

  lemma Smaller(a: set<Id>, b: set<Id>, x: Id)
    requires a <= b - {x} && x in b
    ensures |a| < |b|
  {
    var rest := b - {x} - a;
    assert b == a + rest + {x};
    assert |a + rest| == |a| + |rest|;
  }

  // ---------- Pushes of other messages end first ----------

  /** Nothing that concerns the message is lost: completions, locks, peer files, and what the loops have of it. */
  ghost predicate Apart(net: Net, net': Net, id: MsgId)
  {
    && net'.stores.Keys == net.stores.Keys && net'.clock == net.clock && net'.slipped == net.slipped
    && (forall n :: (n, id) in net'.completed <==> (n, id) in net.completed)
    && (forall n :: n in net.stores ==> SamePeerFiles(net.stores[n], net'.stores[n], id))
    && (forall n :: n in net.stores ==> (id in net'.stores[n].busy <==> id in net.stores[n].busy))
    && net'.loops.Keys == net.loops.Keys && (forall x :: x in net.loops ==> LoopKept(net.loops[x], net'.loops[x]))
  }

  lemma ApartTwice(net: Net, mid: Net, net': Net, id: MsgId)
    requires Apart(net, mid, id) && Apart(mid, net', id)
    ensures Apart(net, net', id)
  {
    hide InBox, GetPeerInfo;
  }

  lemma ApartRefl(net: Net, id: MsgId)
    ensures Apart(net, net, id)
  {
    hide InBox;
  }

  lemma FailApart(w: World, net: Net, k: nat, id: MsgId)
    requires k in net.calls && (net.calls[k].phase.Calling? || net.calls[k].phase.Asking?)
    ensures var net' := Apply(w, net, Fail(k));
            Apart(net, net', id) && net'.calls == net.calls[k := net.calls[k].(phase := Replied(Broken))]
  {
    hide InBox, GetPeerInfo;
  }

  /** A Close of another message leaves this one alone. */
  lemma CloseOther(w: World, fs: Fs, wr: Writer, id: MsgId)
    requires wr.msg.signed.id != id
    ensures var fs' := Close(w.sha, fs, wr).0; SamePeerFiles(fs, fs', id) && (id in fs'.busy <==> id in fs.busy)
  {
  }

  /** Only one store changes, apart from the message, and only another message may be completed or published. */
  lemma CloseApart(net: Net, net': Net, q: Id, m: Message, id: MsgId)
    requires q in net.stores && q in net'.stores && net'.stores == net.stores[q := net'.stores[q]] && m.signed.id != id
    requires net'.clock == net.clock && net'.slipped == net.slipped
    requires net.completed <= net'.completed <= net.completed + {(q, m.signed.id)}
    requires net'.loops == net.loops || net'.loops == Publish(net, q, m).loops
    requires SamePeerFiles(net.stores[q], net'.stores[q], id)
    requires id in net'.stores[q].busy <==> id in net.stores[q].busy
    ensures Apart(net, net', id)
  {
    PublishKept(net, net', q, m);
    hide SamePeerFiles, InBox, LoopKept, Publish;
    forall n | n in net.stores
      ensures SamePeerFiles(net.stores[n], net'.stores[n], id)
    {
      SameFiles(net.stores[n], id);
    }
  }

  lemma InterruptApart(w: World, net: Net, k: nat, id: MsgId)
    requires Inv(w, net) && Streams(net, k) && net.calls[k].msg.signed.id != id
    ensures var net' := Apply(w, net, Interrupt(k, true));
            && Apart(net, net', id) && k in net'.calls && net'.calls[k].phase.Replied?
            && net'.calls == net.calls[k := net.calls[k].(phase := net'.calls[k].phase)]
  {
    hide Inv, ServeClose, Close, Publish, Apart, SamePeerFiles;
    var c := net.calls[k];
    var failed := c.phase.size != c.msg.signed.length;
    WriterIs(w, net, k);
    ServeCloseShape(w, net, k, failed, true);
    CloseOther(w, net.stores[c.to], c.phase.w, id);
    CloseApart(net, ServeClose(w, net, k, failed, true), c.to, c.msg, id);
  }

  lemma SameFiles(fs: Fs, id: MsgId)
    ensures SamePeerFiles(fs, fs, id)
  {
  }

  lemma WriterIs(w: World, net: Net, k: nat)
    requires Inv(w, net) && Streams(net, k)
    ensures net.calls[k].phase.w.msg == net.calls[k].msg
  {
    hide Inv, HopsOk, HopsDone, StoreOk, RecordsOk, CompletedOk;
    StreamFacts(w, net, k);
  }

  /** A publication takes nothing from any loop. */
  lemma PublishKept(net: Net, net': Net, q: Id, m: Message)
    requires net'.loops == net.loops || net'.loops == Publish(net, q, m).loops
    ensures net'.loops.Keys == net.loops.Keys && forall x :: x in net.loops ==> LoopKept(net.loops[x], net'.loops[x])
  {
    forall x | x in net.loops
      ensures LoopKept(net.loops[x], net'.loops[x])
    {
      forall id
        ensures InBox(net.loops[x].inbox, id) ==> InBox(net'.loops[x].inbox, id)
      {
        BoxGrows(net.loops[x].inbox, m, id);
      }
    }
  }

  /** So does a peer file of another message. */
  lemma SetOther(fs: Fs, other: MsgId, p: Id, pi: PeerInfo, id: MsgId)
    requires other != id
    ensures SamePeerFiles(fs, SetPeerInfo(fs, other, p, pi), id) && SetPeerInfo(fs, other, p, pi).busy == fs.busy
  {
  }

  lemma RecordApart(w: World, net: Net, k: nat, id: MsgId)
    requires k in net.calls && net.calls[k].phase.Replied?
    requires net.calls[k].from in net.stores && net.calls[k].msg.signed.id != id
    ensures var net' := Apply(w, net, Record(k, 0)); Apart(net, net', id) && net'.calls == net.calls - {k}
  {
    hide InBox, GetPeerInfo, SetPeerInfo, Delivery.AfterPush, SamePeerFiles;
    var c, net' := net.calls[k], Apply(w, net, Record(k, 0));
    var other := c.msg.signed.id;
    var pi := Delivery.AfterPush(GetPeerInfo(net.stores[c.from], other, c.to), ResultOf(c.phase.reply), net.clock, 0);
    SetOther(net.stores[c.from], other, c.to, pi, id);
    forall n | n in net.stores
      ensures SamePeerFiles(net.stores[n], net'.stores[n], id)
    {
      SameFiles(net.stores[n], id);
    }
  }

  /** A push of another message breaks and goes on record. */
  lemma EndCall(w: World, net: Net, k: nat, id: MsgId) returns (actions: seq<Action>)
    requires Inv(w, net) && k in net.calls && net.calls[k].msg.signed.id != id
    ensures OrdinaryRun(id, actions)
    ensures var net' := Run(w, net, actions); Inv(w, net') && Apart(net, net', id) && net'.calls == net.calls - {k}
  {
    hide Inv, Run, Apart, Apply;
    var c := net.calls[k];
    CallFacts(w, net, k);
    hide HopsDone, HopsOk, LiveOk, InStep;
    var first, net1 := [], net;
    RunNone(w, net);
    ApartRefl(net, id);
    if !c.phase.Replied? {
      var a := if c.phase.Streaming? then Interrupt(k, true) else Fail(k);
      if c.phase.Streaming? {
        InterruptApart(w, net, k, id);
      } else {
        FailApart(w, net, k, id);
      }
      first, net1 := [a], Apply(w, net, a);
      RunOne(w, net, a);
      ApplyKeeps(w, net, a);
    }
    var last := Record(k, 0);
    CallFacts(w, net1, k);
    RecordApart(w, net1, k, id);
    ApplyKeeps(w, net1, last);
    RunOne(w, net1, last);
    RunAppend(w, net, first, [last]);
    actions := first + [last];
    ApartTwice(net, net1, Run(w, net, actions), id);
  }

  /** All pushes under way, none of them of this message, can end without touching it. */
  lemma {:induction false} Disengage(w: World, net: Net, id: MsgId) returns (actions: seq<Action>)
    requires Inv(w, net) && forall k :: k in net.calls ==> net.calls[k].msg.signed.id != id
    ensures OrdinaryRun(id, actions)
    ensures var net' := Run(w, net, actions); Inv(w, net') && Apart(net, net', id) && net'.calls == map[]
    decreases |net.calls|
  {
    hide Inv, Run, Apart, Apply;
    if net.calls == map[] {
      actions := [];
      RunNone(w, net);
      ApartRefl(net, id);
    } else {
      var k :| k in net.calls;
      var first := EndCall(w, net, k, id);
      var net1 := Run(w, net, first);
      var rest := Disengage(w, net1, id);
      RunAppend(w, net, first, rest);
      actions := first + rest;
      ApartTwice(net, net1, Run(w, net, actions), id);
    }
  }

  lemma ApartCloses(net: Net, net': Net, id: MsgId, s: set<Id>)
    requires Apart(net, net', id) && (forall k :: k in net.calls ==> net.calls[k].msg.signed.id != id)
    requires Closed(net', id, s)
    ensures Closed(net, id, s)
  {
    hide InBox;
    assert forall a, b :: !Pushing(net, a, id, b);
    hide Pushing;
    forall a, b | a in s && (a, b) in net.loops && b in net.stores && b !in s
      ensures (a, id) in net.completed && !UnderWay(net, a, id, b)
    {
      assert (a, id) in net'.completed && !UnderWay(net', a, id, b);
      assert LoopKept(net.loops[(a, b)], net'.loops[(a, b)]);
    }
  }

  lemma ApartUnimpeded(w: World, net: Net, net': Net, id: MsgId)
    requires Apart(net, net', id) && Unimpeded(w, net, id) && net'.calls == map[]
    ensures Unimpeded(w, net', id)
  {
    hide GetPeerInfo;
    assert |net'.stores.Keys| == |net.stores.Keys|;
    forall n, p | n in net'.stores
      ensures var pi := GetPeerInfo(net'.stores[n], id, p); !pi.fatal && pi.nextAttempt <= net'.clock
    {
      assert SamePeerFiles(net.stores[n], net'.stores[n], id);
    }
  }

  // ---------- The theorem itself ----------

  /** In the run no peer is started or stopped, nothing slips, and the message reaches the goal. */
  ghost predicate Brings(w: World, net: Net, actions: seq<Action>, id: MsgId, goal: set<Id>)
  {
    OrdinaryRun(id, actions) && !Run(w, net, actions).slipped && AllComplete(Run(w, net, actions), id, goal)
  }

  /** Some run in which no peer is started or stopped brings the message to the goal. */
  ghost predicate CanReach(w: World, net: Net, id: MsgId, goal: set<Id>)
  {
    exists actions :: Brings(w, net, actions, id, goal)
  }

  /**
   * From any state in which nothing hinders the message for now, whatever else is
   * being pushed: some run, in which no peer is started or stopped, makes it
   * complete on every node of the goal, if and only if no set of nodes that the
   * message cannot leave lacks one of them.
   */
  lemma FloodsIff(w: World, net: Net, id: MsgId, goal: set<Id>)
    requires Inv(w, net) && Unimpeded(w, net, id)
    ensures CanReach(w, net, id, goal) <==> NoCut(net, id, goal)
  {
    hide Inv, Run, Closed;
    if NoCut(net, id, goal) {
      var free := Disengage(w, net, id);
      var net1 := Run(w, net, free);
      ApartUnimpeded(w, net, net1, id);
      forall s | Closed(net1, id, s)
        ensures goal <= s
      {
        ApartCloses(net, net1, id, s);
      }
      hide Unimpeded;
      var actions := Floods(w, net1, id, goal);
      RunAppend(w, net, free, actions);
      assert Brings(w, net, free + actions, id, goal);
    }
    hide Unimpeded;
    if CanReach(w, net, id, goal) {
      var actions :| Brings(w, net, actions, id, goal);
      forall s | Closed(net, id, s)
        ensures goal <= s
      {
        StaysClosed(w, net, actions, id, s);
        AllInside(Run(w, net, actions), id, goal, s);
      }
    }
  }

  lemma AllInside(net: Net, id: MsgId, goal: set<Id>, s: set<Id>)
    requires Closed(net, id, s) && AllComplete(net, id, goal)
    ensures goal <= s
  {
  }

  // ---------- Runs from the start ----------

  /** Every good holder has dealt with, or will deal with, every good peer it started. */
  ghost predicate Forwarding(net: Net, id: MsgId, bad: set<Id>)
  {
    forall n, p :: (n, p) in net.loops && n in net.stores && n !in bad && p !in bad && (n, id) in net.completed ==>
      UnderWay(net, n, id, p) || GetPeerInfo(net.stores[n], id, p).sent || (n, id, p) in net.refused
  }

  /** Along a route of active peers, everyone is in a closed set. */
  lemma {:induction false} RouteInside(w: World, net: Net, ring: seq<Id>, bad: set<Id>, max: int, id: MsgId,
                                       p: seq<nat>,
                                       k: nat, s: set<Id>)
    requires Inv(w, net) && !net.slipped && FullViews(net, ring, bad, max)
    requires Forwarding(net, id, bad) && Travels(w, net, id)
    requires k < |p| && Route(ring, bad, max, p, p[0], p[|p| - 1]) && Closed(net, id, s) && ring[p[0]] in s
    ensures ring[p[k]] in s
  {
    hide Inv, ActiveIds, UnderWay, GetPeerInfo, Travels;
    if k > 0 {
      RouteInside(w, net, ring, bad, max, id, p, k - 1, s);
      var a, b := ring[p[k - 1]], ring[p[k - 1 + 1]];
      EdgeLoop(net, ring, bad, max, p[k - 1], p[k - 1 + 1]);
      assert a in Elements(ring) && b in Elements(ring);
      if (a, id) in net.completed && !UnderWay(net, a, id, b) {
        ThroughMeansHas(w, net, a, id, b);
      }
    }
  }

  /** A peer that a holder is through with has completed the message. */
  lemma ThroughMeansHas(w: World, net: Net, n: Id, id: MsgId, p: Id)
    requires Inv(w, net) && !net.slipped && Travels(w, net, id) && n in net.stores
    requires GetPeerInfo(net.stores[n], id, p).sent || (n, id, p) in net.refused
    ensures (p, id) in net.completed
  {
    hide Inv, GetPeerInfo;
    Parts(w, net);
    hide NodesOk, CallsOk, LoopsOk;
    if GetPeerInfo(net.stores[n], id, p).sent {
      PeerSent(w, net, n, id, p);
    }
  }

  /** If every good holder forwards, no good node is cut off. */
  lemma ForwardingNoCut(w: World, net: Net, ring: seq<Id>, bad: set<Id>, max: int, id: MsgId, n0: Id)
    requires Inv(w, net) && !net.slipped && FullViews(net, ring, bad, max) && max >= 0 && Forwarding(net, id, bad)
    requires Travels(w, net, id) && (n0, id) in net.completed && n0 !in bad
    ensures NoCut(net, id, net.stores.Keys - bad)
  {
    hide Inv, Route, Forwarding, Travels, ActiveIds;
    Completers(w, net);
    assert (n0, id).0 in net.stores;
    var a :| 0 <= a < |ring| && ring[a] == n0;
    forall s, n | Closed(net, id, s) && n in net.stores && n !in bad
      ensures n in s
    {
      assert n in Elements(ring);
      var b :| 0 <= b < |ring| && ring[b] == n;
      var p := StronglyConnected(ring, bad, max, a, b);
      RouteEnds(ring, bad, max, p, a, b);
      hide FullViews;
      RouteInside(w, net, ring, bad, max, id, p, |p| - 1, s);
    }
  }

  /** The message is published wherever it is complete, and no good peer's last Diff stopped short of it. */
  ghost predicate Heard(net: Net, id: MsgId, bad: set<Id>)
  {
    && (forall n :: (n, id) in net.completed && n !in bad ==> Published(net, n, id))
    && (forall n, p :: n !in bad && p !in bad ==> (n, id, p) !in net.missed)
  }

  /** In every run without slips, good holders forward a message that their peers could hear of. */
  lemma HeardForwards(w: World, nodes: set<Id>, clock: int, actions: seq<Action>, id: MsgId, bad: set<Id>)
    requires WorldOk(w)
    requires var net := Run(w, Init(nodes, clock), actions); !net.slipped && Heard(net, id, bad) && Travels(w, net, id)
    ensures Forwarding(Run(w, Init(nodes, clock), actions), id, bad)
  {
    hide Run, UnderWay, GetPeerInfo, Travels;
    var net := Run(w, Init(nodes, clock), actions);
    forall n, p | (n, p) in net.loops && n in net.stores && n !in bad && p !in bad && (n, id) in net.completed
      ensures UnderWay(net, n, id, p) || GetPeerInfo(net.stores[n], id, p).sent || (n, id, p) in net.refused
    {
      var m :| (n, m) in net.published && m.signed.id == id;
      NothingForgotten(w, nodes, clock, actions, n, m, p);
    }
  }

  /**
   * From every state that a run reaches, if all good nodes have full views and
   * agree on the bad ones, the message is published wherever a good node has it
   * complete, no good peer's last Diff stopped short of it, and nothing hinders
   * it for now: some run brings it to every good node.
   */
  lemma FloodReaches(w: World, nodes: set<Id>, clock: int, actions: seq<Action>, ring: seq<Id>, bad: set<Id>, max: int,
                     id: MsgId, n0: Id)
    requires WorldOk(w) && max >= 0 && n0 !in bad
    requires var net := Run(w, Init(nodes, clock), actions);
             && FullViews(net, ring, bad, max) && Heard(net, id, bad)
             && Unimpeded(w, net, id) && (n0, id) in net.completed
    ensures CanReach(w, Run(w, Init(nodes, clock), actions), id, nodes - bad)
  {
    hide Run, Inv, FullViews, Heard, Forwarding, NoCut, CanReach;
    var net := Run(w, Init(nodes, clock), actions);
    Flooding.Reachable(w, nodes, clock, actions);
    HeardForwards(w, nodes, clock, actions, id, bad);
    ForwardingNoCut(w, net, ring, bad, max, id, n0);
    FloodsIff(w, net, id, nodes - bad);
  }

  /** Nothing more will happen to the message by itself. */
  ghost predicate Idle(net: Net, id: MsgId, bad: set<Id>)
  {
    forall n, p :: (n, p) in net.loops && n !in bad && p !in bad ==> !UnderWay(net, n, id, p)
  }

  /**
   * In every state that a run without slips reaches, if the message is published
   * wherever a good node has it complete, no good peer's last Diff stopped short
   * of it, and no loop between good nodes has it under way any more, then every
   * good node has its true content.
   */
  lemma IdleMeansCovered(w: World, nodes: set<Id>, clock: int, actions: seq<Action>, ring: seq<Id>, bad: set<Id>,
                         max: int,
                         id: MsgId, n0: Id, n: Id)
    requires WorldOk(w) && max >= 0 && n in nodes && n0 !in bad && n !in bad
    requires var net := Run(w, Init(nodes, clock), actions);
             && !net.slipped && FullViews(net, ring, bad, max) && Heard(net, id, bad) && Idle(net, id, bad)
             && Travels(w, net, id) && (n0, id) in net.completed
    ensures var net := Run(w, Init(nodes, clock), actions);
            && n in net.stores && OpenRead(net.stores[n], id).Ok?
            && OpenRead(net.stores[n], id).value.1 == w.truth[id].content
  {
    hide Run, Inv, FullViews, Heard, OpenRead, UnderWay, GetPeerInfo;
    var net := Run(w, Init(nodes, clock), actions);
    Reachable(w, nodes, clock, actions);
    HeardForwards(w, nodes, clock, actions, id, bad);
    forall q, p | q in net.stores && q !in bad && p !in bad && IsComplete(net.stores[q], id) && (q, p) in net.loops
      ensures GetPeerInfo(net.stores[q], id, p).sent || (q, id, p) in net.refused
    {
      CompletedNow(w, net, q, id);
    }
    assert Quiescent(net, id, bad);
    hide Forwarding, Quiescent, Idle;
    Completers(w, net);
    assert (n0, id).0 in net.stores;
    Covers(w, net, ring, bad, max, id, n0, n);
    CompletedReads(w, net, n, id);
  }
}

/** No message is lost between its publication and its delivery to the node's peers. */
module Accounting {
  import opened Order
  import opened Message
  import opened Storage
  import opened Diff
  import Delivery
  import opened Network
  import opened NetworkInv
  import opened Flooding

  /** Some message of the subscription has the id. */
  ghost predicate InBox(inbox: seq<Message>, id: MsgId)
  {
    exists i :: 0 <= i < |inbox| && inbox[i].signed.id == id
  }

  /** A push of the message to the peer is being made. */
  ghost predicate Pushing(net: Net, n: Id, id: MsgId, p: Id)
  {
    exists k :: k in net.calls && net.calls[k].from == n && net.calls[k].to == p && net.calls[k].msg.signed.id == id
  }

  /** The peer's Diff is still to come, or the message is in its subscription or queue, or being pushed. */
  ghost predicate UnderWay(net: Net, n: Id, id: MsgId, p: Id)
    requires (n, p) in net.loops
  {
    var l := net.loops[(n, p)];
    l.diffing || id in l.queue || InBox(l.inbox, id) || Pushing(net, n, id, p)
  }

  /** The message is marked Sent or FatalError, or checkHops refused it. */
  ghost predicate Settled(net: Net, n: Id, id: MsgId, p: Id)
  {
    n in net.stores && (Delivery.Terminal(GetPeerInfo(net.stores[n], id, p)) || (n, id, p) in net.refused)
  }

  /** Where a published message can be with respect to a peer. */
  ghost predicate Accounted(net: Net, n: Id, id: MsgId, p: Id)
    requires (n, p) in net.loops
  {
    UnderWay(net, n, id, p) || Settled(net, n, id, p) || (n, id, p) in net.missed
  }

  /**
   * Every message that a node published, and that has not expired, is accounted for
   * with respect to every started peer.
   */
  ghost predicate AccountOk(w: World, net: Net)
  {
    forall n, m, p :: (n, m) in net.published && (n, p) in net.loops ==>
      m.signed.id in w.truth && !w.truth[m.signed.id].signed.Expired(net.clock) ==> Accounted(net, n, m.signed.id, p)
  }

  // ---------- Steps that keep what there is ----------

  /** Marks of messages that have not expired stay. */
  ghost predicate MarksKept(w: World, net: Net, net': Net)
  {
    forall n, id, p :: n in net.stores && Delivery.Terminal(GetPeerInfo(net.stores[n], id, p)) ==>
      || (id in w.truth && w.truth[id].signed.Expired(net'.clock))
      || (n in net'.stores && Delivery.Terminal(GetPeerInfo(net'.stores[n], id, p)))
  }

  /** Calls other than k stay, with their message and ends. */
  ghost predicate CallsKept(net: Net, net': Net, k: nat)
  {
    forall j :: j in net.calls && j != k ==>
      && j in net'.calls && net'.calls[j].from == net.calls[j].from && net'.calls[j].to == net.calls[j].to
      && net'.calls[j].msg == net.calls[j].msg
  }

  ghost predicate HistoryKept(net: Net, net': Net)
  {
    && net'.stores.Keys == net.stores.Keys && net.clock <= net'.clock
    && net.refused <= net'.refused && net.missed <= net'.missed
  }

  /** A loop has at least what it had. */
  ghost predicate LoopKept(l: Loop, l': Loop)
  {
    && (l.diffing ==> l'.diffing)
    && (forall id :: id in l.queue ==> id in l'.queue)
    && (forall id :: InBox(l.inbox, id) ==> InBox(l'.inbox, id))
  }

  /** The message is accounted for after a step that keeps marks, calls and this loop. */
  lemma StillAccounted(w: World, net: Net, net': Net, n: Id, id: MsgId, p: Id)
    requires (n, p) in net.loops && (n, p) in net'.loops && Accounted(net, n, id, p)
    requires id in w.truth && !w.truth[id].signed.Expired(net'.clock)
    requires HistoryKept(net, net') && MarksKept(w, net, net') && LoopKept(net.loops[(n, p)], net'.loops[(n, p)])
    requires Pushing(net, n, id, p) ==> Accounted(net', n, id, p)
    ensures Accounted(net', n, id, p)
  {
    hide Pushing, InBox;
  }

  lemma StillPushing(net: Net, net': Net, n: Id, id: MsgId, p: Id, k: nat)
    requires CallsKept(net, net', k) && Pushing(net, n, id, p)
    requires k in net.calls ==> net.calls[k].from != n || net.calls[k].to != p || net.calls[k].msg.signed.id != id
    ensures Pushing(net', n, id, p)
  {
    var j :| j in net.calls && net.calls[j].from == n && net.calls[j].to == p && net.calls[j].msg.signed.id == id;
    assert net'.calls[j].from == n;
  }

  /** A step that publishes nothing, keeps all calls, marks and loops. */
  lemma SteadyKeeps(w: World, net: Net, net': Net)
    requires AccountOk(w, net) && HistoryKept(net, net') && MarksKept(w, net, net') && net'.published == net.published
    requires forall j :: j in net.calls ==>
               && j in net'.calls && net'.calls[j].from == net.calls[j].from && net'.calls[j].to == net.calls[j].to
               && net'.calls[j].msg == net.calls[j].msg
    requires forall x :: x in net'.loops ==> x in net.loops && net'.loops[x] == net.loops[x]
    ensures AccountOk(w, net')
  {
    hide MarksKept, Accounted;
    var k := Above(net.calls.Keys);
    forall n, m, p | (n, m) in net'.published && (n, p) in net'.loops && m.signed.id in w.truth
                     && !w.truth[m.signed.id].signed.Expired(net'.clock)
      ensures Accounted(net', n, m.signed.id, p)
    {
      assert (n, p) in net.loops && Accounted(net, n, m.signed.id, p);
      Carried(w, net, net', n, m.signed.id, p, k);
    }
  }

  lemma Carried(w: World, net: Net, net': Net, n: Id, id: MsgId, p: Id, k: nat)
    requires (n, p) in net.loops && (n, p) in net'.loops && Accounted(net, n, id, p)
    requires id in w.truth && !w.truth[id].signed.Expired(net'.clock)
    requires HistoryKept(net, net') && MarksKept(w, net, net') && LoopKept(net.loops[(n, p)], net'.loops[(n, p)])
    requires CallsKept(net, net', k)
    requires k in net.calls ==> net.calls[k].from != n || net.calls[k].to != p || net.calls[k].msg.signed.id != id
    ensures Accounted(net', n, id, p)
  {
    hide MarksKept, LoopKept, HistoryKept;
    if Pushing(net, n, id, p) {
      StillPushing(net, net', n, id, p, k);
    }
    StillAccounted(w, net, net', n, id, p);
  }

  /** The same stores but for one, whose peer files are the same. */
  lemma MarksSame(w: World, net: Net, net': Net, q: Id)
    requires net.clock <= net'.clock && net'.stores.Keys == net.stores.Keys
    requires forall n :: n in net.stores && n != q ==> net'.stores[n] == net.stores[n]
    requires q in net.stores ==>
               forall id :: id in net.stores[q].dirs ==>
                 || (id in net'.stores[q].dirs && net'.stores[q].dirs[id].peers == net.stores[q].dirs[id].peers)
                 || (id in w.truth && w.truth[id].signed.Expired(net'.clock))
    ensures MarksKept(w, net, net')
  {
  }

  /** The stores, loops and history stay; calls go on. */
  lemma CallsMove(w: World, net: Net, net': Net)
    requires AccountOk(w, net) && net.clock <= net'.clock
    requires net'.stores == net.stores && net'.loops == net.loops && net'.published == net.published
    requires net'.refused == net.refused && net'.missed == net.missed
    requires forall j :: j in net.calls ==>
               && j in net'.calls && net'.calls[j].from == net.calls[j].from && net'.calls[j].to == net.calls[j].to
               && net'.calls[j].msg == net.calls[j].msg
    ensures AccountOk(w, net')
  {
    hide AccountOk;
    assert MarksKept(w, net, net');
    hide MarksKept;
    SteadyKeeps(w, net, net');
  }

  /** One call changes its phase. */
  lemma PhaseMoves(w: World, net: Net, k: nat, phase: Phase, slipped: bool)
    requires AccountOk(w, net) && k in net.calls
    ensures AccountOk(w, SetCall(net, k, net.calls[k].(phase := phase)).(slipped := slipped))
  {
    hide AccountOk;
    CallsMove(w, net, SetCall(net, k, net.calls[k].(phase := phase)).(slipped := slipped));
  }

  lemma MarkCallAccount(w: World, net: Net, a: Action)
    requires AccountOk(w, net) && (a.EndStream? || a.Fail? || a.LoseReply? || a.Retry?)
    ensures AccountOk(w, Apply(w, net, a))
  {
    hide AccountOk;
    var net' := Apply(w, net, a);
    if net' != net {
      PhaseMoves(w, net, a.k, net'.calls[a.k].phase, net'.slipped);
    }
  }

  lemma AskAccount(w: World, net: Net, k: nat)
    requires AccountOk(w, net)
    ensures AccountOk(w, ApplyAsk(net, k))
  {
    hide AccountOk, Offset;
    CallsMove(w, net, ApplyAsk(net, k));
  }

  lemma SendAccount(w: World, net: Net, k: nat, size: nat)
    requires AccountOk(w, net)
    ensures AccountOk(w, ApplySend(net, k, size))
  {
    hide AccountOk;
    CallsMove(w, net, ApplySend(net, k, size));
  }

  lemma ReceiveAccount(w: World, net: Net, k: nat)
    requires AccountOk(w, net)
    ensures AccountOk(w, ApplyReceive(net, k))
  {
    hide MarksKept, AccountOk;
    var net' := ApplyReceive(net, k);
    if net' != net {
      MarksSame(w, net, net', net.calls[k].to);
      SteadyKeeps(w, net, net');
    }
  }

  lemma SweepAccount(w: World, net: Net, n: Id)
    requires Inv(w, net) && AccountOk(w, net) && n in net.stores
    ensures AccountOk(w, Apply(w, net, SweepStore(n)))
  {
    hide Inv, MarksKept, AccountOk;
    var net' := Apply(w, net, SweepStore(n));
    NodeFacts(w, net, n);
    forall id | id in net.stores[n].dirs && id !in net'.stores[n].dirs
      ensures id in w.truth && w.truth[id].signed.Expired(net'.clock)
    {
      assert CopyOk(w, net.stores[n], id, !net.slipped);
    }
    hide StoreOk, RecordsOk, CompletedOk;
    MarksSame(w, net, net', n);
    SteadyKeeps(w, net, net');
  }

  lemma CallPushAccount(w: World, net: Net, k: nat)
    requires Inv(w, net) && AccountOk(w, net)
    ensures AccountOk(w, ApplyCall(w, net, k))
  {
    hide Inv, MarksKept, AccountOk, OpenWrite;
    var net' := ApplyCall(w, net, k);
    if k in net.calls && net.calls[k].phase.Calling? && net.calls[k].to in net.stores {
      var c := net.calls[k];
      CallFacts(w, net, k);
      NodeFacts(w, net, c.to);
      hide StoreOk, RecordsOk, CompletedOk;
      OpenPeers(w, net.stores[c.to], c.msg, c.offset, !net.slipped);
      MarksSame(w, net, net', c.to);
      SteadyKeeps(w, net, net');
    }
  }

  /** OpenWrite leaves every peer file. */
  lemma OpenPeers(w: World, fs: Fs, msg: Message, offset: nat, exact: bool)
    requires StoreOk(w, fs, exact) && msg.signed.id in w.truth && msg.signed == w.truth[msg.signed.id].signed
    ensures var fs' := OpenWrite(w.sha, fs, msg, offset).0;
            forall id :: id in fs.dirs ==> id in fs'.dirs && fs'.dirs[id].peers == fs.dirs[id].peers
  {
    if msg.signed.id !in fs.busy && !IsComplete(fs, msg.signed.id) {
      hide OpenWrite;
      OpenStore(w, fs, msg, offset, exact);
    } else {
      hide Preimage;
    }
  }

  // ---------- Publications ----------

  lemma BoxGrows(inbox: seq<Message>, m: Message, id: MsgId)
    ensures InBox(inbox, id) || m.signed.id == id ==> InBox(inbox + [m], id)
  {
    if InBox(inbox, id) {
      var i :| 0 <= i < |inbox| && inbox[i].signed.id == id;
      assert (inbox + [m])[i].signed.id == id;
    } else if m.signed.id == id {
      assert (inbox + [m])[|inbox|].signed.id == id;
    }
  }

  /** A step that publishes one message to all subscriptions of its node, keeping calls and marks. */
  lemma PublishKeeps(w: World, net: Net, net': Net, q: Id, m: Message)
    requires AccountOk(w, net) && HistoryKept(net, net') && MarksKept(w, net, net')
    requires net'.published == net.published + {(q, m)} && net'.loops == Publish(net, q, m).loops
    requires forall j :: j in net.calls ==>
               && j in net'.calls && net'.calls[j].from == net.calls[j].from && net'.calls[j].to == net.calls[j].to
               && net'.calls[j].msg == net.calls[j].msg
    ensures AccountOk(w, net')
  {
    hide MarksKept;
    var k := Above(net.calls.Keys);
    forall n, m1, p | (n, m1) in net'.published && (n, p) in net'.loops && m1.signed.id in w.truth
                      && !w.truth[m1.signed.id].signed.Expired(net'.clock)
      ensures Accounted(net', n, m1.signed.id, p)
    {
      var l, l' := net.loops[(n, p)], net'.loops[(n, p)];
      forall id
        ensures InBox(l.inbox, id) ==> InBox(l'.inbox, id)
      {
        BoxGrows(l.inbox, m, id);
      }
      BoxGrows(l.inbox, m, m.signed.id);
      if (n, m1) in net.published {
        assert Accounted(net, n, m1.signed.id, p);
        hide InBox, Accounted;
        Carried(w, net, net', n, m1.signed.id, p, k);
      }
    }
  }

  lemma CloseAccount(w: World, net: Net, k: nat, failed: bool, heard: bool)
    requires Inv(w, net) && !net.slipped && AccountOk(w, net) && Streams(net, k)
    ensures AccountOk(w, ServeClose(w, net, k, failed, heard))
  {
    hide Inv, AccountOk, MarksKept, ServeClose, Close, Publish;
    hide StreamOk, StoreOk, RecordsOk, CompletedOk, HopsOk, HopsDone;
    var c, net' := net.calls[k], ServeClose(w, net, k, failed, heard);
    ServeCloseShape(w, net, k, failed, heard);
    CloseHistory(w, net, k, failed, heard);
    StreamFacts(w, net, k);
    hide LiveOk, CallOk, InStep;
    CloseStore(w, net.stores[c.to], c, true);
    MarksSame(w, net, net', c.to);
    if net'.loops == net.loops && net'.published == net.published {
      SteadyKeeps(w, net, net');
    } else {
      PublishKeeps(w, net, net', c.to, c.msg);
    }
  }

  lemma CloseHistory(w: World, net: Net, k: nat, failed: bool, heard: bool)
    requires Streams(net, k)
    ensures HistoryKept(net, ServeClose(w, net, k, failed, heard))
  {
    hide Close;
  }

  lemma InjectAccount(w: World, net: Net, n: Id, id: MsgId)
    requires Inv(w, net) && AccountOk(w, net) && MayInject(w, net, n, id)
    ensures AccountOk(w, Apply(w, net, Inject(n, id)))
  {
    hide Inv, Apply, AccountOk, MarksKept;
    Parts(w, net);
    hide NodesOk, CallsOk, HistoryOk, LoopsOk, WorldOk;
    InjectShape(w, net, n, id);
    var net' := Apply(w, net, Inject(n, id));
    InjectMarks(w, net, n, id);
    InjectFrame(net, net', n, id, Message([], w.truth[id].signed));
    hide Publish;
    PublishKeeps(w, net, net', n, Message([], w.truth[id].signed));
  }

  lemma InjectMarks(w: World, net: Net, n: Id, id: MsgId)
    requires WorldOk(w) && MayInject(w, net, n, id)
    ensures MarksKept(w, net, Apply(w, net, Inject(n, id)))
  {
    hide Apply, MarksKept, WorldOk;
    InjectShape(w, net, n, id);
    var net' := Apply(w, net, Inject(n, id));
    assert net'.clock == net.clock;
    hide Publish;
    MarksSame(w, net, net', n);
  }

  lemma InjectFrame(net: Net, net': Net, n: Id, id: MsgId, m: Message)
    requires net' == Publish(net.(stores := net'.stores, completed := net.completed + {(n, id)}), n, m)
    requires net'.stores.Keys == net.stores.Keys
    ensures net'.calls == net.calls && HistoryKept(net, net') && net'.published == net.published + {(n, m)}
    ensures net'.loops == Publish(net, n, m).loops
  {
  }

  // ---------- The loops ----------

  /** A loop that goes on is where it was, and so is what its Diff missed. */
  lemma SelectCarried(net: Net, n: Id, peers: set<Id>, q: Id, id: MsgId, p: Id)
    requires (q, p) in net.loops && (q, p) in ApplySelect(net, n, peers).loops && Accounted(net, q, id, p)
    ensures Accounted(ApplySelect(net, n, peers), q, id, p)
  {
    hide InBox, GetPeerInfo;
    var net' := ApplySelect(net, n, peers);
    assert Pushing(net, q, id, p) ==> Pushing(net', q, id, p);
    hide Pushing;
  }

  lemma SelectAccount(w: World, net: Net, n: Id, peers: set<Id>)
    requires AccountOk(w, net)
    ensures AccountOk(w, ApplySelect(net, n, peers))
  {
    hide InBox, Pushing;
    var net' := ApplySelect(net, n, peers);
    forall q, m, p | (q, m) in net'.published && (q, p) in net'.loops && m.signed.id in w.truth
                     && !w.truth[m.signed.id].signed.Expired(net'.clock)
      ensures Accounted(net', q, m.signed.id, p)
    {
      if (q, p) in net.loops {
        assert Accounted(net, q, m.signed.id, p);
        hide Accounted;
        SelectCarried(net, n, peers, q, m.signed.id, p);
      }
    }
  }

  /** Only loop x changes, and it loses sight of no id but `id`; only call k may end. */
  lemma LoopMoves(w: World, net: Net, net': Net, x: (Id, Id), id: MsgId, k: nat)
    requires Inv(w, net) && AccountOk(w, net) && HistoryKept(net, net') && MarksKept(w, net, net')
    requires net'.published == net.published && CallsKept(net, net', k)
    requires k in net.calls ==> net.calls[k].from == x.0 && net.calls[k].to == x.1 && net.calls[k].msg.signed.id == id
    requires net'.loops.Keys == net.loops.Keys && forall y :: y in net.loops && y != x ==> net'.loops[y] == net.loops[y]
    requires x in net.loops ==>
               var l, l' := net.loops[x], net'.loops[x];
               && (l.diffing ==> l'.diffing)
               && (forall y :: y in l.queue && y != id ==> y in l'.queue)
               && (forall y :: InBox(l.inbox, y) && y != id ==> InBox(l'.inbox, y))
    requires x in net.loops && id in w.truth && !w.truth[id].signed.Expired(net'.clock) ==>
               Accounted(net', x.0, id, x.1)
    ensures AccountOk(w, net')
  {
    hide Inv, MarksKept, InBox;
    forall n, m, p | (n, m) in net'.published && (n, p) in net'.loops && m.signed.id in w.truth
                     && !w.truth[m.signed.id].signed.Expired(net'.clock)
      ensures Accounted(net', n, m.signed.id, p)
    {
      assert (n, p) in net.loops && Accounted(net, n, m.signed.id, p);
      if (n, p) == x {
        if m.signed.id != id {
          ElseAccounted(w, net, net', x, id, k, m.signed.id);
        }
      } else {
        hide Accounted;
        Carried(w, net, net', n, m.signed.id, p, k);
      }
    }
  }

  lemma ElseAccounted(w: World, net: Net, net': Net, x: (Id, Id), id: MsgId, k: nat, y: MsgId)
    requires HistoryKept(net, net') && MarksKept(w, net, net') && CallsKept(net, net', k) && y != id
    requires k in net.calls ==> net.calls[k].msg.signed.id == id
    requires x in net.loops && x in net'.loops
    requires var l, l' := net.loops[x], net'.loops[x];
             && (l.diffing ==> l'.diffing) && (y in l.queue ==> y in l'.queue)
             && (InBox(l.inbox, y) ==> InBox(l'.inbox, y))
    requires y in w.truth && !w.truth[y].signed.Expired(net'.clock) && Accounted(net, x.0, y, x.1)
    ensures Accounted(net', x.0, y, x.1)
  {
    assert x == (x.0, x.1);
    if Pushing(net, x.0, y, x.1) {
      StillPushing(net, net', x.0, y, x.1, k);
    }
    hide InBox, Pushing;
  }

  lemma BoxTail(inbox: seq<Message>, y: MsgId)
    requires inbox != [] && InBox(inbox, y) && y != inbox[0].signed.id
    ensures InBox(inbox[1..], y)
  {
    var i :| 0 <= i < |inbox| && inbox[i].signed.id == y;
    assert inbox[1..][i - 1].signed.id == y;
  }

  lemma SubAccount(w: World, net: Net, n: Id, to: Id)
    requires Inv(w, net) && AccountOk(w, net)
    ensures AccountOk(w, ApplySub(w, net, n, to))
  {
    hide Inv, AccountOk, HopsOk;
    var net', x := ApplySub(w, net, n, to), (n, to);
    if net' != net {
      var l := net.loops[x];
      var m := l.inbox[0];
      forall y | InBox(l.inbox, y) && y != m.signed.id
        ensures InBox(l.inbox[1..], y)
      {
        BoxTail(l.inbox, y);
      }
      hide InBox;
      assert MarksKept(w, net, net');
      hide MarksKept;
      HeadFacts(w, net, n, to);
      hide HopsOk, CheckHops, Pushing;
      assert Accounted(net', n, m.signed.id, to);
      hide Accounted;
      var k := Above(net.calls.Keys);
      LoopMoves(w, net, net', x, m.signed.id, k);
    }
  }

  /** What is completed and has not expired can be read. */
  lemma Readable(w: World, net: Net, n: Id, id: MsgId)
    requires Inv(w, net) && n in net.stores && (n, id) in net.completed && id in w.truth
    requires !w.truth[id].signed.Expired(net.clock)
    ensures OpenRead(net.stores[n], id).Ok? && !OpenRead(net.stores[n], id).value.0.signed.Expired(net.clock)
    ensures id in net.stores[n].dirs && IsComplete(net.stores[n], id)
    ensures OpenRead(net.stores[n], id).value.0.signed.id == id
  {
    hide Inv, NodesOk, CallsOk, HistoryOk, LoopsOk;
    Parts(w, net);
    CompletedReads(w, net, n, id);
  }

  lemma PoppedId(w: World, net: Net, n: Id, id: MsgId)
    requires Inv(w, net) && n in net.stores && OpenRead(net.stores[n], id).Ok?
    ensures OpenRead(net.stores[n], id).value.0.signed.id == id
  {
    hide Inv, HopsOk, StoreOk, CompletedOk;
    NodeFacts(w, net, n);
  }

  /** What Pop does: the id leaves the queue, and may be pushed. */
  lemma PopShape(w: World, net: Net, k: nat, n: Id, to: Id, i: nat)
    requires Inv(w, net) && ApplyPop(net, k, n, to, i) != net
    ensures var net', x := ApplyPop(net, k, n, to, i), (n, to);
            && x in net.loops && i < |net.loops[x].queue| && to in net.stores && k !in net.calls
            && net'.loops == Taken(net, x, i).loops
            && net'.stores.Keys == net.stores.Keys && net'.completed == net.completed
            && net'.published == net.published && net'.refused == net.refused
            && net'.missed == net.missed && net'.clock == net.clock
            && (net'.calls == net.calls
                || (k in net'.calls && net'.calls == net.calls[k := net'.calls[k]] && net'.calls[k].from == n
                    && net'.calls[k].to == to && net'.calls[k].msg.signed.id == net.loops[x].queue[i]))
  {
    hide Inv, SetPeerInfo, GetPeerInfo, Delivery.AfterPush, OpenRead, Engaged;
    var net' := ApplyPop(net, k, n, to, i);
    if k in net'.calls {
      PoppedId(w, net, n, net.loops[(n, to)].queue[i]);
    }
  }

  /** Writing one peer file keeps every mark, if that file was not marked or still is. */
  lemma SetMarks(w: World, net: Net, net': Net, n: Id, id: MsgId, to: Id, pi: PeerInfo)
    requires n in net.stores && net'.stores == net.stores[n := SetPeerInfo(net.stores[n], id, to, pi)]
    requires net'.clock == net.clock
    requires Delivery.Terminal(GetPeerInfo(net.stores[n], id, to)) ==> Delivery.Terminal(pi)
    ensures MarksKept(w, net, net')
  {
  }

  /** Pop takes no mark away. */
  lemma PopMarks(w: World, net: Net, k: nat, n: Id, to: Id, i: nat)
    ensures MarksKept(w, net, ApplyPop(net, k, n, to, i))
  {
    hide OpenRead, Engaged, SetPeerInfo, GetPeerInfo, Delivery.AfterPush, MarksKept;
    var net' := ApplyPop(net, k, n, to, i);
    if net'.stores == net.stores {
      MarksSame(w, net, net', "");
    } else {
      var id := net.loops[(n, to)].queue[i];
      var pi := GetPeerInfo(net.stores[n], id, to);
      var r := if OpenRead(net.stores[n], id).Err? then Delivery.NotFound else Delivery.Stale;
      SetMarks(w, net, net', n, id, to, Delivery.AfterPush(pi, r, net.clock, 0));
    }
  }

  /** A message that can be read is pushed, unless it was settled. */
  lemma PopOutcome(net: Net, k: nat, n: Id, to: Id, i: nat)
    requires ApplyPop(net, k, n, to, i) != net
    requires var id := net.loops[(n, to)].queue[i];
             OpenRead(net.stores[n], id).Ok? && !OpenRead(net.stores[n], id).value.0.signed.Expired(net.clock)
    ensures var net', id := ApplyPop(net, k, n, to, i), net.loops[(n, to)].queue[i];
            k in net'.calls || Settled(net', n, id, to)
  {
    hide OpenRead, Engaged, GetPeerInfo, SetPeerInfo, Delivery.AfterPush;
  }

  lemma QueueWithout(queue: seq<MsgId>, i: nat)
    requires i < |queue|
    ensures forall y :: y in queue && y != queue[i] ==> y in queue[..i] + queue[i + 1..]
  {
  }

  lemma PopAccount(w: World, net: Net, k: nat, n: Id, to: Id, i: nat)
    requires Inv(w, net) && !net.slipped && AccountOk(w, net)
    ensures AccountOk(w, ApplyPop(net, k, n, to, i))
  {
    hide Inv, AccountOk, MarksKept, InBox;
    var net', x := ApplyPop(net, k, n, to, i), (n, to);
    if net' != net {
      PopShape(w, net, k, n, to, i);
      PopMarks(w, net, k, n, to, i);
      var id := net.loops[x].queue[i];
      assert (n, id) in net.completed by {
        TakenKeeps(w, net, x, i);
      }
      QueueWithout(net.loops[x].queue, i);
      if id in w.truth && !w.truth[id].signed.Expired(net.clock) {
        Readable(w, net, n, id);
        PopOutcome(net, k, n, to, i);
        hide ApplyPop, OpenRead, Settled;
        if k in net'.calls {
          assert Pushing(net', n, id, to);
        }
      }
      hide ApplyPop, Accounted, OpenRead;
      LoopMoves(w, net, net', x, id, k);
    }
  }

  lemma RecordAccount(w: World, net: Net, k: nat, draw: nat)
    requires Inv(w, net) && AccountOk(w, net)
    ensures AccountOk(w, ApplyRecord(net, k, draw))
  {
    hide Inv, AccountOk, Delivery.AfterPush;
    var net' := ApplyRecord(net, k, draw);
    if k in net.calls && net.calls[k].phase.Replied? && net.calls[k].from in net.stores {
      var c := net.calls[k];
      var id, x, r := c.msg.signed.id, (c.from, c.to), ResultOf(c.phase.reply);
      CallFacts(w, net, k);
      hide CallOk, HopsDone, HopsOk, LiveOk, InStep;
      var before := GetPeerInfo(net.stores[c.from], id, c.to);
      AfterPushMarks(before, r, net.clock, draw);
      SetMarks(w, net, net', c.from, id, c.to, Delivery.AfterPush(before, r, net.clock, draw));
      hide MarksKept;
      hide Delivery.Accepted, Delivery.Retried;
      if x in net.loops && id in w.truth && !w.truth[id].signed.Expired(net.clock) {
        Readable(w, net, c.from, id);
        hide OpenRead;
        assert !Delivery.Retried(r) ==> Settled(net', c.from, id, c.to);
        assert Accounted(net', c.from, id, c.to);
      }
      hide InBox, OpenRead, SetPeerInfo, GetPeerInfo, Accounted;
      LoopMoves(w, net, net', x, id, k);
    }
  }

  /** The peer file of a listed message after a Diff is the one that the Diff settled on. */
  lemma ScanFile(fs: Fs, to: Id, c: Setting, manifest: seq<Message>, e: nat, id: MsgId)
    requires c.infos == InfosOf(fs, to) && e <= |manifest| && id in fs.dirs
    ensures var infos := UpTo(c, manifest, e).infos;
            && GetPeerInfo(StoreInfos(fs, to, infos), id, to) == Delivery.Info(infos, id)
            && GetPeerInfo(fs, id, to) == Delivery.Info(c.infos, id)
  {
    EntriesSoFar(c, manifest, e);
    hide UpTo;
  }

  /** Listed messages have the ids that they are listed under. */
  lemma ListedIds(w: World, net: Net, n: Id, order: seq<MsgId>)
    requires Inv(w, net) && n in net.stores && Listing(net.stores[n], net.clock, order)
    ensures var manifest := Manifest(net.stores[n], order);
            DistinctIds(manifest) && forall i :: 0 <= i < |order| ==> manifest[i].signed.id == order[i]
  {
    hide Inv, HopsOk, StoreOk, CompletedOk;
    NodeFacts(w, net, n);
  }

  /** A Diff that did not break accounts for every message it lists. */
  lemma ScanAccounts(w: World, net: Net, n: Id, to: Id, order: seq<MsgId>, has: set<MsgId>, i: nat)
    requires Inv(w, net) && (n, to) in net.loops && net.loops[(n, to)].diffing && n in net.stores
    requires Listing(net.stores[n], net.clock, order) && i < |order|
    ensures var net' := ApplyScan(w, net, n, to, order, has, None);
            (n, to) in net'.loops && Accounted(net', n, order[i], to)
  {
    hide Inv, UpTo, StopAt, Count;
    var net' := ApplyScan(w, net, n, to, order, has, None);
    var c, fs, id := SettingOf(w, net, n, to, has), net.stores[n], order[i];
    var manifest := Manifest(fs, order);
    var e := DealtWith(c, manifest, None);
    var p := UpTo(c, manifest, e);
    ListedIds(w, net, n, order);
    Partition(c, manifest, e, i);
    ScanFile(fs, to, c, manifest, e, id);
    assert net'.stores[n] == StoreInfos(fs, to, p.infos);
    hide StoreInfos, InfosOf;
    if Delivery.Terminal(Delivery.Info(p.infos, id)) {
      assert Settled(net', n, id, to);
    } else if CheckHops(manifest[i].hops, to, w.maxHops) != NotRefused {
      assert (n, id, to) in net'.refused;
    } else if i >= e {
      assert !Filtered(c, manifest[i]);
      assert (n, id, to) in net'.missed;
    } else {
      var k := CountSome(p.inserts, id);
      var l, l' := net.loops[(n, to)], net'.loops[(n, to)];
      assert l'.queue[|l.queue| + k] == id;
    }
  }

  /** What a Diff writes keeps every mark. */
  lemma ScanMarks(w: World, net: Net, net': Net, n: Id, to: Id, order: seq<MsgId>, has: set<MsgId>, e: nat)
    requires n in net.stores && Listing(net.stores[n], net.clock, order) && e <= |order| && net'.clock == net.clock
    requires var p := UpTo(SettingOf(w, net, n, to, has), Manifest(net.stores[n], order), e);
             net'.stores == net.stores[n := StoreInfos(net.stores[n], to, p.infos)]
    ensures MarksKept(w, net, net')
  {
    hide UpTo;
    var c, fs := SettingOf(w, net, n, to, has), net.stores[n];
    var manifest := Manifest(fs, order);
    forall id | id in fs.dirs && Delivery.Terminal(GetPeerInfo(fs, id, to))
      ensures Delivery.Terminal(GetPeerInfo(net'.stores[n], id, to))
    {
      ScanFile(fs, to, c, manifest, e, id);
      InfosSoFar(c, manifest, e, id, set x | x in has && (to, x) in net.completed);
    }
  }

  /** A Diff can be made: the peer was just started and the listing is right. */
  ghost predicate MayScan(net: Net, n: Id, to: Id, order: seq<MsgId>)
  {
    (n, to) in net.loops && net.loops[(n, to)].diffing && n in net.stores && Listing(net.stores[n], net.clock, order)
  }

  lemma ScanKept(w: World, net: Net, n: Id, to: Id, order: seq<MsgId>, has: set<MsgId>, broke: Option<nat>)
    requires MayScan(net, n, to, order)
    ensures MarksKept(w, net, ApplyScan(w, net, n, to, order, has, broke))
  {
    hide UpTo, StopAt, MarksKept, StoreInfos;
    var c, manifest := SettingOf(w, net, n, to, has), Manifest(net.stores[n], order);
    ScanMarks(w, net, ApplyScan(w, net, n, to, order, has, broke), n, to, order, has, DealtWith(c, manifest, broke));
  }

  lemma ScanOne(w: World, net: Net, n: Id, to: Id, order: seq<MsgId>, has: set<MsgId>, broke: Option<nat>, q: Id,
                m: Message, p: Id)
    requires Inv(w, net) && !net.slipped && MayScan(net, n, to, order)
    requires (q, m) in net.published && (q, p) in net.loops && Accounted(net, q, m.signed.id, p)
    requires m.signed.id in w.truth && !w.truth[m.signed.id].signed.Expired(net.clock)
    ensures var net' := ApplyScan(w, net, n, to, order, has, broke);
            (q, p) in net'.loops && Accounted(net', q, m.signed.id, p)
  {
    hide Inv, ApplyScan, Accounted, MarksKept;
    var net' := ApplyScan(w, net, n, to, order, has, broke);
    if (q, p) == (n, to) && broke.None? {
      PublishedListed(w, net, n, m, order);
      var i :| 0 <= i < |order| && order[i] == m.signed.id;
      ScanAccounts(w, net, n, to, order, has, i);
    } else {
      ScanKept(w, net, n, to, order, has, broke);
      ScanShape(w, net, n, to, order, has, broke);
      hide Listing;
      var k := Above(net.calls.Keys);
      Carried(w, net, net', q, m.signed.id, p, k);
    }
  }

  lemma ScanAccount(w: World, net: Net, n: Id, to: Id, order: seq<MsgId>, has: set<MsgId>, broke: Option<nat>)
    requires Inv(w, net) && !net.slipped && AccountOk(w, net)
    ensures AccountOk(w, ApplyScan(w, net, n, to, order, has, broke))
  {
    var net' := ApplyScan(w, net, n, to, order, has, broke);
    if MayScan(net, n, to, order) {
      ScanShape(w, net, n, to, order, has, broke);
      hide Inv, ApplyScan, Accounted, MayScan;
      forall q, m, p | (q, m) in net'.published && (q, p) in net'.loops && m.signed.id in w.truth
                       && !w.truth[m.signed.id].signed.Expired(net'.clock)
        ensures Accounted(net', q, m.signed.id, p)
      {
        ScanOne(w, net, n, to, order, has, broke, q, m, p);
      }
    } else {
      assert net' == net;
    }
  }

  /** A Diff that broke stays, whatever it queued; other loops are untouched. */
  lemma ScanShape(w: World, net: Net, n: Id, to: Id, order: seq<MsgId>, has: set<MsgId>, broke: Option<nat>)
    requires (n, to) in net.loops && net.loops[(n, to)].diffing && n in net.stores
    requires Listing(net.stores[n], net.clock, order)
    ensures var net', x := ApplyScan(w, net, n, to, order, has, broke), (n, to);
            && HistoryKept(net, net') && net'.published == net.published
            && net'.calls == net.calls && net'.clock == net.clock
            && net'.loops.Keys == net.loops.Keys
            && (forall y :: y in net.loops && y != x ==> net'.loops[y] == net.loops[y])
            && net'.loops[x].diffing == broke.Some? && net'.loops[x].inbox == net.loops[x].inbox
            && net.loops[x].queue <= net'.loops[x].queue
  {
    hide UpTo, StopAt, Listing, StoreInfos;
  }

  lemma PublishedListed(w: World, net: Net, n: Id, m: Message, order: seq<MsgId>)
    requires Inv(w, net) && !net.slipped && (n, m) in net.published && n in net.stores
    requires m.signed.id in w.truth && !w.truth[m.signed.id].signed.Expired(net.clock)
    requires Listing(net.stores[n], net.clock, order)
    ensures m.signed.id in order
  {
    hide Inv;
    Parts(w, net);
    hide NodesOk, CallsOk, LoopsOk;
    Readable(w, net, n, m.signed.id);
  }

  // ---------- Runs ----------

  lemma ApplyAccount(w: World, net: Net, a: Action)
    requires Inv(w, net) && AccountOk(w, net) && !net.slipped && !Apply(w, net, a).slipped
    ensures AccountOk(w, Apply(w, net, a))
  {
    hide Inv, AccountOk, ApplyCall, ApplyAsk, ApplySend;
    hide ApplyReceive, ServeClose, ApplyScan, ApplyPop, ApplyRecord, ApplySub;
    hide ApplySelect, Publish, Note, Transfer, Sweep;
    match a
    case Tick(now) => CallsMove(w, net, if net.clock <= now then net.(clock := now) else net);
    case SelectPeers(n, peers) => SelectAccount(w, net, n, peers);
    case Inject(n, id) => if MayInject(w, net, n, id) { InjectAccount(w, net, n, id); }
    case SubLoop(n, to) => SubAccount(w, net, n, to);
    case DiffScan(n, to, order, has, broke) => ScanAccount(w, net, n, to, order, has, broke);
    case Pop(k, n, to, i) => PopAccount(w, net, k, n, to, i);
    case CallPush(k) => CallPushAccount(w, net, k);
    case AskOffset(k) => AskAccount(w, net, k);
    case SendPacket(k, size) => SendAccount(w, net, k, size);
    case EndStream(_) => MarkCallAccount(w, net, a);
    case Receive(k) => ReceiveAccount(w, net, k);
    case Finish(k) => if Streams(net, k) { CloseAccount(w, net, k, false, true); }
    case Interrupt(k, heard) =>
      if Streams(net, k) { CloseAccount(w, net, k, net.calls[k].phase.size != net.calls[k].msg.signed.length, heard); }
    case Fail(_) => MarkCallAccount(w, net, a);
    case LoseReply(_) => MarkCallAccount(w, net, a);
    case Retry(_) => MarkCallAccount(w, net, a);
    case Record(k, draw) => RecordAccount(w, net, k, draw);
    case SweepStore(n) => if n in net.stores { SweepAccount(w, net, n); }
  }

  lemma {:induction false} RunAccount(w: World, net: Net, actions: seq<Action>)
    requires Inv(w, net) && AccountOk(w, net) && !Run(w, net, actions).slipped
    ensures AccountOk(w, Run(w, net, actions))
    decreases actions
  {
    if actions != [] {
      hide Inv, AccountOk, Apply;
      var net1 := Apply(w, net, actions[0]);
      RunLater(w, net1, actions[1..]);
      ApplyLater(w, net, actions[0]);
      ApplyKeeps(w, net, actions[0]);
      ApplyAccount(w, net, actions[0]);
      RunAccount(w, net1, actions[1..]);
    }
  }

  /**
   * Over every run without slips: a message that a node published is, for every
   * peer the node has started, marked Sent, refused by checkHops, in the
   * subscription or the queue, being pushed, before its first Diff, or behind
   * the point where a Diff stopped; or it has expired, or hops are limited below
   * the number of nodes.
   */
  lemma NothingForgotten(w: World, nodes: set<Id>, clock: int, actions: seq<Action>, n: Id, m: Message, p: Id)
    requires WorldOk(w)
    requires var net := Run(w, Init(nodes, clock), actions);
             !net.slipped && (n, m) in net.published && (n, p) in net.loops && Travels(w, net, m.signed.id)
    ensures var net, id := Run(w, Init(nodes, clock), actions), m.signed.id;
            && n in net.stores
            && (UnderWay(net, n, id, p) || GetPeerInfo(net.stores[n], id, p).sent || (n, id, p) in net.refused
                || (n, id, p) in net.missed)
  {
    hide Inv, Run, GetPeerInfo, UnderWay;
    var init := Init(nodes, clock);
    var net, id := Run(w, init, actions), m.signed.id;
    InitInv(w, nodes, clock);
    RunAccount(w, init, actions);
    Reachable(w, nodes, clock, actions);
    assert n in net.stores by {
      Parts(w, net);
      hide NodesOk, CallsOk, LoopsOk;
    }
    assert Accounted(net, n, id, p);
    PeerFacts(w, net, n, id, p);
  }
}

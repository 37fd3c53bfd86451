/** The network's Pop and Record steps are the two halves of a turn of msgLoop. */
module Turns {
  import opened Order
  import opened Message
  import opened Storage
  import Queue
  import Delivery
  import opened Network

  /** What a turn of the loop of node n for a peer makes of the peer files. */
  ghost function AfterTurn(fs: Fs, to: Id, id: MsgId, now: int, r: Delivery.PushResult, later: int, draw: nat)
    : map<MsgId, PeerInfo>
  {
    Delivery.Handle(Delivery.Loop(InfosOf(fs, to), [], map[], [], {}), id, now, r, later, draw).infos
  }

  /** A peer file that is written is one entry of what is on record about the peer. */
  lemma SetInfos(fs: Fs, id: MsgId, to: Id, pi: PeerInfo)
    requires id in fs.dirs
    ensures InfosOf(SetPeerInfo(fs, id, to, pi), to) == InfosOf(fs, to)[id := pi]
    ensures GetPeerInfo(fs, id, to) == Delivery.Info(InfosOf(fs, to), id)
  {
  }

  /**
   * Pop either begins a push, of an id that is not settled and is due, with the
   * readable and unexpired copy of the node and the node as last hop; or it does
   * a whole turn: the id stays queued because it is early, or is dropped because
   * it is settled, or is settled because there is nothing to push any more.
   */
  lemma PopIsTurn(net: Net, k: nat, n: Id, to: Id, i: nat)
    requires (n, to) in net.loops && !net.loops[(n, to)].diffing && i < |net.loops[(n, to)].queue|
    requires n in net.stores && to in net.stores && k !in net.calls && !Engaged(net, n, to)
    requires net.loops[(n, to)].queue[i] in net.stores[n].dirs
    ensures var fs, q, net' := net.stores[n], net.loops[(n, to)].queue, ApplyPop(net, k, n, to, i);
            var id, pi := q[i], Delivery.Info(InfosOf(fs, to), q[i]);
            && net'.stores.Keys == net.stores.Keys && (n, to) in net'.loops
            && if k in net'.calls then
                 var c := net'.calls[k];
                 && !pi.sent && !pi.fatal && pi.nextAttempt <= net.clock && net'.stores == net.stores
                 && OpenRead(fs, id) == Ok((fs.dirs[id].record.msg, c.content)) && fs.dirs[id].record.Stored?
                 && c.msg.signed == fs.dirs[id].record.msg.signed && !c.msg.signed.Expired(net.clock)
                 && c.msg.hops == fs.dirs[id].record.msg.hops + [n] && c.from == n && c.to == to
                 && net'.loops[(n, to)].queue == q[..i] + q[i + 1..]
               else
                 && net'.calls == net.calls
                 && (net'.loops[(n, to)].queue == q <==> !pi.sent && !pi.fatal && net.clock < pi.nextAttempt)
                 && (net'.loops[(n, to)].queue != q ==> net'.loops[(n, to)].queue == q[..i] + q[i + 1..])
                 && exists r :: (r == Delivery.NotFound || r == Delivery.Stale)
                                && InfosOf(net'.stores[n], to) == AfterTurn(fs, to, id, net.clock, r, net.clock, 0)
  {
    var fs, q := net.stores[n], net.loops[(n, to)].queue;
    var id := q[i];
    var pi, r := GetPeerInfo(fs, id, to), OpenRead(fs, id);
    assert |q[..i] + q[i + 1..]| == |q| - 1;
    SetInfos(fs, id, to, Delivery.AfterPush(pi, Delivery.NotFound, net.clock, 0));
    SetInfos(fs, id, to, Delivery.AfterPush(pi, Delivery.Stale, net.clock, 0));
    hide InfosOf, SetPeerInfo, GetPeerInfo, Queue.Inserted;
    if !Delivery.Terminal(pi) && pi.nextAttempt <= net.clock && r.Ok? && !r.value.0.signed.Expired(net.clock) {
      assert k in ApplyPop(net, k, n, to, i).calls;
    } else {
      hide OpenRead;
      var why := if r.Err? then Delivery.NotFound else Delivery.Stale;
      assert InfosOf(ApplyPop(net, k, n, to, i).stores[n], to)
          == AfterTurn(fs, to, id, net.clock, why, net.clock, 0);
    }
  }

  /** Record is the rest of the turn that Pop began: the peer file and the queue are those of msgLoop. */
  lemma RecordIsTurn(net: Net, k: nat, draw: nat, began: int)
    requires k in net.calls && net.calls[k].phase.Replied? && net.calls[k].from in net.stores
    requires var c := net.calls[k];
             var pi := Delivery.Info(InfosOf(net.stores[c.from], c.to), c.msg.signed.id);
             && c.msg.signed.id in net.stores[c.from].dirs && (c.from, c.to) in net.loops
             && !pi.sent && !pi.fatal && pi.nextAttempt <= began
    ensures var c, net' := net.calls[k], ApplyRecord(net, k, draw);
            var id, r, q := c.msg.signed.id, ResultOf(c.phase.reply), net.loops[(c.from, c.to)].queue;
            && c.from in net'.stores && (c.from, c.to) in net'.loops && net'.calls == net.calls - {k}
            && InfosOf(net'.stores[c.from], c.to)
               == AfterTurn(net.stores[c.from], c.to, id, began, r, net.clock, draw)
            && net'.loops[(c.from, c.to)].queue == if r == Delivery.OtherError then q + [id] else q
  {
    var c := net.calls[k];
    var fs, id := net.stores[c.from], c.msg.signed.id;
    SetInfos(fs, id, c.to,
             Delivery.AfterPush(GetPeerInfo(fs, id, c.to), ResultOf(c.phase.reply), net.clock, draw));
    hide InfosOf, SetPeerInfo, GetPeerInfo, Queue.Inserted, ResultOf, Delivery.AfterPush;
  }

  /** Every push carries its sender as last hop. */
  ghost predicate HopsSigned(net: Net)
  {
    forall k :: k in net.calls ==>
      var c := net.calls[k];
      c.msg.hops != [] && c.msg.hops[|c.msg.hops| - 1] == c.from
  }

  lemma {:induction false} RunSigns(w: World, net: Net, actions: seq<Action>)
    requires HopsSigned(net)
    ensures HopsSigned(Run(w, net, actions))
    decreases actions
  {
    if actions != [] {
      SenderStays(w, net, actions[0]);
      hide HopsSigned, Apply;
      RunSigns(w, Apply(w, net, actions[0]), actions[1..]);
    }
  }

  /** In every reachable state every push carries its sender as last hop. */
  lemma LastHopIsSender(w: World, nodes: set<Id>, clock: int, actions: seq<Action>, k: nat)
    requires k in Run(w, Init(nodes, clock), actions).calls
    ensures var c := Run(w, Init(nodes, clock), actions).calls[k];
            c.msg.hops != [] && c.msg.hops[|c.msg.hops| - 1] == c.from
  {
    RunSigns(w, Init(nodes, clock), actions);
    hide Run;
  }

  /** No step changes the message or the sender of a push. */
  lemma SenderStays(w: World, net: Net, a: Action)
    requires HopsSigned(net)
    ensures HopsSigned(Apply(w, net, a))
  {
    hide ApplyPop, ApplyScan, ApplyCall, ApplyAsk, ServeClose, ApplySelect, ApplySub, ApplyRecord;
    hide ApplySend, ApplyReceive, Transfer, Sweep, SetCall, HopsSigned;
    var net' := Apply(w, net, a);
    match a
    case Pop(k, n, to, i) => PopSigns(net, k, n, to, i);
    case DiffScan(n, to, order, has, broke) =>
      ScanSame(w, net, n, to, order, has, broke);
      FewerCalls(net, net');
    case CallPush(k) => CallSame(w, net, k);
    case AskOffset(k) => AskSame(net, k);
    case SendPacket(k, size) => PacketSame(net, k, size);
    case Receive(k) => PacketSame(net, k, 0);
    case Finish(k) => if Streams(net, k) { CloseSame(w, net, k, false, true); }
    case Interrupt(k, heard) =>
      if Streams(net, k) {
        CloseSame(w, net, k, net.calls[k].phase.size != net.calls[k].msg.signed.length, heard);
      }
    case SelectPeers(n, peers) => OthersSame(w, net, n, n, peers, 0, 0); FewerCalls(net, net');
    case SubLoop(n, to) => OthersSame(w, net, n, to, {}, 0, 0); FewerCalls(net, net');
    case Record(k, draw) => OthersSame(w, net, "", "", {}, k, draw); FewerCalls(net, net');
    case EndStream(k) => if Sends(net, k) { PhaseSame(net, k, net.calls[k].phase.(ended := true)); }
    case Fail(k) => if k in net.calls { PhaseSame(net, k, Replied(Broken)); }
    case LoseReply(k) => if k in net.calls { PhaseSame(net, k, Replied(Broken)); }
    case Retry(k) => if k in net.calls { PhaseSame(net, k, Calling([], false)); }
    case Tick(now) => FewerCalls(net, net');
    case Inject(n, id) => FewerCalls(net, net');
    case SweepStore(n) => FewerCalls(net, net');
  }

  lemma FewerCalls(net: Net, net': Net)
    requires HopsSigned(net) && forall k :: k in net'.calls ==> k in net.calls && net'.calls[k] == net.calls[k]
    ensures HopsSigned(net')
  {
  }

  lemma PhaseSame(net: Net, k: nat, phase: Phase)
    requires HopsSigned(net) && k in net.calls
    ensures HopsSigned(SetCall(net, k, net.calls[k].(phase := phase)))
  {
  }

  lemma PopSigns(net: Net, k: nat, n: Id, to: Id, i: nat)
    requires HopsSigned(net)
    ensures HopsSigned(ApplyPop(net, k, n, to, i))
  {
    hide OpenRead, GetPeerInfo, SetPeerInfo, Delivery.AfterPush, Engaged;
  }

  lemma ScanSame(w: World, net: Net, n: Id, to: Id, order: seq<MsgId>, has: set<MsgId>, broke: Option<nat>)
    ensures ApplyScan(w, net, n, to, order, has, broke).calls == net.calls
  {
    hide Listing, Manifest, StoreInfos, SettingOf, DealtWith;
  }

  lemma CallSame(w: World, net: Net, k: nat)
    requires HopsSigned(net)
    ensures HopsSigned(ApplyCall(w, net, k))
  {
    hide ServePush;
  }

  lemma AskSame(net: Net, k: nat)
    requires HopsSigned(net)
    ensures HopsSigned(ApplyAsk(net, k))
  {
    hide Offset;
  }

  lemma PacketSame(net: Net, k: nat, size: nat)
    requires HopsSigned(net)
    ensures HopsSigned(ApplySend(net, k, size)) && HopsSigned(ApplyReceive(net, k))
  {
    hide Write, FileBytes;
  }

  lemma CloseSame(w: World, net: Net, k: nat, failed: bool, heard: bool)
    requires HopsSigned(net) && Streams(net, k)
    ensures HopsSigned(ServeClose(w, net, k, failed, heard))
  {
    hide Close;
  }

  lemma OthersSame(w: World, net: Net, n: Id, to: Id, peers: set<Id>, k: nat, draw: nat)
    ensures ApplySelect(net, n, peers).calls == net.calls && ApplySub(w, net, n, to).calls == net.calls
    ensures var calls := ApplyRecord(net, k, draw).calls; calls == net.calls || calls == net.calls - {k}
  {
    hide Delivery.AfterPush, SetPeerInfo, GetPeerInfo;
  }
}

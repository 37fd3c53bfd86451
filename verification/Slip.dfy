/** Exactly when a call that is made again makes Sent marks unsound. */
module Slip {
  import opened Order
  import opened Message
  import opened Storage
  import Delivery
  import opened Network
  import opened NetworkInv
  import opened Flooding
  import opened Accounting
  import opened Publication
  import opened Progress
  import opened Stuck

  /** The message is marked Sent to a peer that has not completed it. */
  ghost predicate Unsound(net: Net, n: Id, id: MsgId, to: Id)
  {
    n in net.stores && GetPeerInfo(net.stores[n], id, to).sent && (to, id) !in net.completed
  }

  /** A stream that will end short of Length bytes. */
  ghost predicate Short(net: Net, k: nat)
  {
    Linked(net, k) && Total(net.calls[k]) < net.calls[k].msg.signed.length
  }

  /** Close keeps a short file, and Push returns nil and publishes. */
  lemma FinishShort(w: World, net: Net, k: nat)
    requires Inv(w, net) && Short(net, k) && net.calls[k].phase.ended && net.calls[k].phase.inFlight == []
    requires net.calls[k].reader == |net.calls[k].content|
    ensures var net', c := Apply(w, net, Finish(k)), net.calls[k];
            && k in net'.calls && net'.calls[k] == c.(phase := Replied(Done)) && net'.completed == net.completed
            && (c.to, c.msg) in net'.published && net'.stores.Keys == net.stores.Keys
            && (forall n :: n in net.stores && n != c.to ==> net'.stores[n] == net.stores[n])
            && net'.stores[c.to].dirs == net.stores[c.to].dirs && c.msg.signed.id !in net'.stores[c.to].busy
  {
    hide Inv, HopsOk, HopsDone, StoreOk, RecordsOk, CompletedOk;
    StreamFacts(w, net, k);
  }

  /** A short stream that is left alone ends with a nil Push, and completes nothing. */
  lemma StreamShort(w: World, net: Net, k: nat) returns (actions: seq<Action>)
    requires Inv(w, net) && Short(net, k) && net.calls[k].reader <= |net.calls[k].content|
    requires net.calls[k].phase.ended ==> net.calls[k].reader == |net.calls[k].content|
    requires net.calls[k].from != net.calls[k].to && net.calls[k].from in net.stores
    ensures Alone(k, actions)
    ensures var net', c := Run(w, net, actions), net.calls[k];
            && Inv(w, net') && Answered(net', k) && net'.completed == net.completed && (c.to, c.msg) in net'.published
            && net'.calls[k].from == c.from && net'.calls[k].to == c.to && net'.calls[k].msg == c.msg
            && c.from in net'.stores && net'.stores[c.from] == net.stores[c.from]
  {
    hide Inv, Apply, Run;
    var send, sent := [], net;
    RunNone(w, net);
    SamePushRefl(net, k);
    if !net.calls[k].phase.ended {
      send := SendAll(w, net, k);
      sent := Run(w, net, send);
    }
    var receive := ReceiveAll(w, sent, k);
    var received := Run(w, sent, receive);
    SamePushTwice(net, sent, received, k);
    FinishShort(w, received, k);
    ApplyKeeps(w, received, Finish(k));
    RunOne(w, received, Finish(k));
    RunAppend(w, net, send, receive);
    RunAppend(w, net, send + receive, [Finish(k)]);
    actions := send + receive + [Finish(k)];
  }

  // ---------- An opening that slips ----------

  /**
   * The receiver would open the stream: the message is free, not complete or
   * expired, and its bytes end at the offset.
   */
  ghost predicate CanOpen(w: World, net: Net, k: nat)
  {
    && Welcome(w, net, k)
    && var c := net.calls[k];
    && !IsComplete(net.stores[c.to], c.msg.signed.id) && |ContentOf(net.stores[c.to], c.msg.signed.id)| == c.offset
  }

  /** What is known of a call that can open while nothing has slipped. */
  lemma OpenerFacts(w: World, net: Net, k: nat)
    requires Inv(w, net) && !net.slipped && CanOpen(w, net, k)
    ensures var c := net.calls[k];
            && c.from in net.stores && c.from != c.to && c.msg.signed.id in net.stores[c.from].dirs
            && (c.to, c.msg.signed.id) !in net.completed
            && InStep(c) && |c.content| == c.msg.signed.length
  {
    hide Inv, HopsOk, HopsDone, LiveOk;
    var c := net.calls[k];
    CallFacts(w, net, k);
    Parts(w, net);
    hide NodesOk, CallsOk, HistoryOk, LoopsOk, InStep, ContentOf;
    CompletedNow(w, net, c.to, c.msg.signed.id);
    Readable(w, net, c.from, c.msg.signed.id);
  }

  /** The call opens a stream, whatever its packets start with. */
  lemma OpensNow(w: World, net: Net, k: nat)
    requires Inv(w, net) && !net.slipped && CanOpen(w, net, k) && net.calls[k].phase.Calling?
    ensures var net', c := Apply(w, net, CallPush(k)), net.calls[k];
            && Inv(w, net') && Linked(net', k) && (net'.slipped <==> Misaligned(c))
            && net'.stores.Keys == net.stores.Keys && net'.completed == net.completed
            && (forall n :: n in net.stores && n != c.to ==> net'.stores[n] == net.stores[n])
            && net'.calls[k].phase.w.pos == c.offset
            && net'.calls[k] == c.(phase := Streaming(net'.calls[k].phase.w, 0, c.phase.inFlight, c.phase.ended))
  {
    hide Inv, ContentOf, Misaligned;
    var c := net.calls[k];
    ApplyKeeps(w, net, CallPush(k));
    if Misaligned(c) {
      var slipped := net.(slipped := true);
      SlipKeeps(w, net);
      assert Welcome(w, slipped, k) && Aligned(slipped, k);
      hide Apply;
      CallOpens(w, slipped, k);
      SlippedSame(w, net, k);
    } else {
      hide Apply;
      CallOpens(w, net, k);
    }
  }

  /** A misaligned opening is the same in a network that slipped before. */
  lemma SlippedSame(w: World, net: Net, k: nat)
    requires k in net.calls && net.calls[k].phase.Calling? && Misaligned(net.calls[k])
    requires Streams(Apply(w, net.(slipped := true), CallPush(k)), k)
    ensures Apply(w, net, CallPush(k)) == Apply(w, net.(slipped := true), CallPush(k))
    ensures Apply(w, net, CallPush(k)).slipped
  {
    hide OpenWrite;
  }

  /** A stream whose packets start beyond its offset can end in a Sent mark that is not sound. */
  lemma OpenedUnsound(w: World, net: Net, k: nat) returns (actions: seq<Action>)
    requires Inv(w, net) && !net.slipped && CanOpen(w, net, k)
    requires net.calls[k].phase.Calling? && Misaligned(net.calls[k])
    ensures Alone(k, actions)
    ensures var net', c := Run(w, Apply(w, net, CallPush(k)), actions), net.calls[k];
            Unsound(net', c.from, c.msg.signed.id, c.to) && (c.to, c.msg) in net'.published
  {
    hide Inv, Run, ContentOf, IsComplete;
    var net1, c := Apply(w, net, CallPush(k)), net.calls[k];
    OpenerFacts(w, net, k);
    OpensNow(w, net, k);
    hide Apply, CanOpen, Joined;
    var stream := StreamShort(w, net1, k);
    var net2 := Run(w, net1, stream);
    RecordOne(w, net2, k, 0);
    RunOne(w, net2, Record(k, 0));
    RunAppend(w, net1, stream, [Record(k, 0)]);
    actions := stream + [Record(k, 0)];
    ApplyLater(w, net2, Record(k, 0));
  }

  // ---------- Nothing else slips ----------

  /** The call, left alone, will not open a stream that slips. */
  ghost predicate Harmless(w: World, net: Net, k: nat)
  {
    && Inv(w, net) && !net.slipped
    && (k in net.calls && net.calls[k].phase.Calling? ==> !Misaligned(net.calls[k]) || !CanOpen(w, net, k))
  }

  /** A call is answered with a stream only if the receiver can open it, and waits only while the message is locked. */
  lemma AnswerMeans(w: World, net: Net, k: nat)
    requires Inv(w, net) && k in net.calls && net.calls[k].phase.Calling?
    ensures var net', c := Apply(w, net, CallPush(k)), net.calls[k];
            && k in net'.calls
            && (net'.slipped && !net.slipped ==> Misaligned(c) && CanOpen(w, net, k))
            && (net'.calls[k].phase.Calling? ==> !Welcome(w, net', k))
  {
    hide Inv;
    var c := net.calls[k];
    CallFacts(w, net, k);
    NodeFacts(w, net, c.to);
    hide RecordsOk, CompletedOk, HopsOk, HopsDone, LiveOk, InStep, ReplyOk;
    var fs, id := net.stores[c.to], c.msg.signed.id;
    if id !in fs.busy && !IsComplete(fs, id) {
      assert id in fs.dirs ==> CopyOk(w, fs, id, !net.slipped);
      OpenResult(w, fs, c.msg, c.offset, !net.slipped);
      OpenedFiles(w, fs, c.msg, !net.slipped);
      OpenedSize(fs, c.msg);
      hide OpenWrite, Opened, StoreOk, CopyOk;
    } else {
      hide Preimage, StoreOk, CopyOk;
    }
  }

  lemma OpenedSize(fs: Fs, msg: Message)
    ensures var fs1, id := Opened(fs, msg), msg.signed.id;
            id in fs1.dirs && fs1.dirs[id].content.Some? && fs1.dirs[id].content.value in fs1.files ==>
              |fs1.files[fs1.dirs[id].content.value]| == |ContentOf(fs1, id)|
  {
  }

  /** Sending does not change where the packets start. */
  lemma SendHarmless(w: World, net: Net, k: nat, a: Action)
    requires Harmless(w, net, k) && (a == EndStream(k) || (a.SendPacket? && a.k == k))
    ensures Harmless(w, Apply(w, net, a), k)
  {
    hide Inv, IsComplete, ContentOf;
    ApplyKeeps(w, net, a);
    var net' := Apply(w, net, a);
    if net' != net && net.calls[k].phase.Calling? {
      var c := net.calls[k];
      if a.SendPacket? {
        JoinedLast(c.phase.inFlight, c.content[c.reader..c.reader + a.size]);
      }
      hide Joined;
      assert CanOpen(w, net', k) ==> CanOpen(w, net, k);
    }
  }

  /** The offset that the receiver reports is where the next packets start. */
  lemma AskHarmless(w: World, net: Net, k: nat)
    requires Harmless(w, net, k)
    ensures Harmless(w, Apply(w, net, AskOffset(k)), k)
  {
    hide Inv, CanOpen, Offset;
    ApplyKeeps(w, net, AskOffset(k));
  }

  /** Neither packets received nor the end of the call lead back to a call. */
  lemma EndHarmless(w: World, net: Net, k: nat, a: Action)
    requires Harmless(w, net, k) && OfCall(k, a)
    requires !a.CallPush? && !a.AskOffset? && !a.SendPacket? && !a.EndStream?
    ensures Harmless(w, Apply(w, net, a), k)
  {
    hide Inv, CanOpen, Misaligned, Close, Write, IsComplete, SetPeerInfo, GetPeerInfo, Delivery.AfterPush;
    ApplyKeeps(w, net, a);
  }

  lemma StepHarmless(w: World, net: Net, k: nat, a: Action)
    requires Harmless(w, net, k) && OfCall(k, a)
    ensures Harmless(w, Apply(w, net, a), k)
  {
    match a
    case CallPush(_) =>
      hide Inv, CanOpen, Misaligned;
      ApplyKeeps(w, net, a);
      if k in net.calls && net.calls[k].phase.Calling? {
        AnswerMeans(w, net, k);
        NotWelcome(w, Apply(w, net, a), k);
      }
      hide ServePush;
    case AskOffset(_) => AskHarmless(w, net, k);
    case SendPacket(_, _) => SendHarmless(w, net, k, a);
    case EndStream(_) => SendHarmless(w, net, k, a);
    case _ => EndHarmless(w, net, k, a);
  }

  lemma NotWelcome(w: World, net: Net, k: nat)
    ensures !Welcome(w, net, k) ==> !CanOpen(w, net, k)
  {
  }

  lemma {:induction false} RunHarmless(w: World, net: Net, k: nat, actions: seq<Action>)
    requires Harmless(w, net, k) && Alone(k, actions)
    ensures Harmless(w, Run(w, net, actions), k)
    decreases actions
  {
    if actions != [] {
      hide Harmless, Apply;
      StepHarmless(w, net, k, actions[0]);
      RunHarmless(w, Apply(w, net, actions[0]), k, actions[1..]);
    }
  }

  // ---------- Exactly when ----------

  /** The call, left alone, can end in a Sent mark that is not sound. */
  ghost predicate MayEndUnsound(w: World, net: Net, k: nat, n: Id, id: MsgId, to: Id)
  {
    exists actions :: Alone(k, actions) && Unsound(Run(w, net, actions), n, id, to)
  }

  lemma HarmlessSound(w: World, net: Net, k: nat, n: Id, id: MsgId, to: Id)
    requires Harmless(w, net, k)
    ensures !MayEndUnsound(w, net, k, n, id, to)
  {
    hide Inv, Run, GetPeerInfo;
    forall actions | Alone(k, actions)
      ensures !Unsound(Run(w, net, actions), n, id, to)
    {
      RunHarmless(w, net, k, actions);
      var net' := Run(w, net, actions);
      if n in net'.stores && GetPeerInfo(net'.stores[n], id, to).sent {
        PeerSent(w, net', n, id, to);
      }
    }
  }

  /**
   * In any state without slips a call opens a stream: that push, left alone, can
   * end in an unsound Sent mark if and only if the opening slips.
   */
  lemma OpeningExact(w: World, net: Net, k: nat)
    requires Inv(w, net) && !net.slipped && k in net.calls && net.calls[k].phase.Calling?
    requires Streams(Apply(w, net, CallPush(k)), k)
    ensures var net', c := Apply(w, net, CallPush(k)), net.calls[k];
            MayEndUnsound(w, net', k, c.from, c.msg.signed.id, c.to) <==> net'.slipped
  {
    hide Inv, Run, MayEndUnsound;
    var net', c := Apply(w, net, CallPush(k)), net.calls[k];
    AnswerMeans(w, net, k);
    if net'.slipped {
      var actions := OpenedUnsound(w, net, k);
      assert MayEndUnsound(w, net', k, c.from, c.msg.signed.id, c.to) by {
        Witness(w, net', k, actions, c.from, c.msg.signed.id, c.to);
      }
    } else {
      ApplyKeeps(w, net, CallPush(k));
      hide Apply, CanOpen;
      HarmlessSound(w, net', k, c.from, c.msg.signed.id, c.to);
    }
  }

  lemma Witness(w: World, net: Net, k: nat, actions: seq<Action>, n: Id, id: MsgId, to: Id)
    requires Alone(k, actions) && Unsound(Run(w, net, actions), n, id, to)
    ensures MayEndUnsound(w, net, k, n, id, to)
  {
  }

  /**
   * In any state without slips a broken push is made again: left alone after
   * that, it can end in an unsound Sent mark if and only if its reader is not at
   * its offset and the receiver, where the message is free and neither complete
   * nor expired nor too far, has exactly the bytes before the offset.
   */
  lemma RetryExact(w: World, net: Net, k: nat)
    requires Inv(w, net) && !net.slipped && k in net.calls && net.calls[k].phase == Replied(Reply.Broken)
    ensures var c := net.calls[k];
            MayEndUnsound(w, Apply(w, net, Retry(k)), k, c.from, c.msg.signed.id, c.to)
            <==> c.reader != c.offset && CanOpen(w, net, k)
  {
    hide Inv, Run, MayEndUnsound;
    var net', c := Apply(w, net, Retry(k)), net.calls[k];
    RetryIs(w, net, k);
    ApplyKeeps(w, net, Retry(k));
    hide Apply, CanOpen;
    if c.reader != c.offset && CanOpen(w, net, k) {
      var actions := RetryUnsound(w, net, k);
      Witness(w, net', k, actions, c.from, c.msg.signed.id, c.to);
    } else {
      HarmlessSound(w, net', k, c.from, c.msg.signed.id, c.to);
    }
  }

  lemma RetryIs(w: World, net: Net, k: nat)
    requires k in net.calls && net.calls[k].phase == Replied(Reply.Broken)
    ensures var net', c := Apply(w, net, Retry(k)), net.calls[k];
            && net' == net.(calls := net.calls[k := c.(phase := Calling([], false))])
            && (Misaligned(net'.calls[k]) <==> c.reader != c.offset) && (CanOpen(w, net', k) <==> CanOpen(w, net, k))
  {
    hide IsComplete, ContentOf;
  }

  /** A retry that slips can end in a Sent mark that is not sound, for a message published short. */
  lemma RetryUnsound(w: World, net: Net, k: nat) returns (actions: seq<Action>)
    requires Inv(w, net) && !net.slipped && k in net.calls
    requires CanOpen(w, net, k) && net.calls[k].phase == Replied(Reply.Broken)
    requires net.calls[k].reader != net.calls[k].offset
    ensures Alone(k, actions)
    ensures var net', c := Run(w, Apply(w, net, Retry(k)), actions), net.calls[k];
            && Unsound(net', c.from, c.msg.signed.id, c.to) && (c.to, c.msg) in net'.published && net'.slipped
  {
    hide Inv, Run, CanOpen;
    var net1 := Apply(w, net, Retry(k));
    RetryIs(w, net, k);
    ApplyKeeps(w, net, Retry(k));
    hide Apply, Misaligned;
    var rest := OpenedUnsound(w, net1, k);
    OpensNow(w, net1, k);
    RunFirst(w, net1, CallPush(k), rest);
    actions := [CallPush(k)] + rest;
    RunLater(w, Apply(w, net1, CallPush(k)), rest);
  }

  // ---------- A run ----------

  /** One byte of a fresh stream is read, and the stream breaks before it arrives. */
  lemma LoseByte(w: World, net: Net, k: nat)
    requires Inv(w, net) && !net.slipped && Linked(net, k) && Begun(net, k)
    requires net.calls[k].offset == 0 && |net.calls[k].content| >= 2
    requires |net.calls[k].content| == net.calls[k].msg.signed.length
    ensures var net', c := Run(w, net, [SendPacket(k, 1), Interrupt(k, true)]), net.calls[k];
            && Inv(w, net') && !net'.slipped && k in net'.calls && c.to in net'.stores
            && net'.calls[k] == c.(reader := 1, phase := Replied(Reply.Broken))
            && net'.completed == net.completed && net'.clock == net.clock
            && net'.stores.Keys == net.stores.Keys
            && (forall n :: n in net.stores && n != c.to ==> net'.stores[n] == net.stores[n])
            && c.msg.signed.id !in net'.stores[c.to].busy && |ContentOf(net'.stores[c.to], c.msg.signed.id)| == 0
  {
    hide Inv, Run, ContentOf, Apply;
    var c := net.calls[k];
    FreshStream(w, net, k);
    SendByte(w, net, k);
    var net1 := Apply(w, net, SendPacket(k, 1));
    ApplyKeeps(w, net, SendPacket(k, 1));
    BreakOne(w, net1, k);
    ApplyKeeps(w, net1, Interrupt(k, true));
    RunOne(w, net1, Interrupt(k, true));
    RunFirst(w, net, SendPacket(k, 1), [Interrupt(k, true)]);
    assert [SendPacket(k, 1)] + [Interrupt(k, true)] == [SendPacket(k, 1), Interrupt(k, true)];
  }

  /**
   * A push breaks after its sender has read one byte that never arrives, and is
   * retried: the receiver takes the rest for the whole, publishes a message that
   * is not complete, and the sender records it as Sent.
   */
  lemma UnsoundSent(w: World, ring: seq<Id>, clock: int, id: MsgId) returns (actions: seq<Action>)
    requires WorldOk(w) && Ascending(ring) && |ring| == 3 && w.maxHops <= 0
    requires id in w.truth && |w.truth[id].content| >= 2 && clock >= 0 && Lasts(w, id, clock)
    ensures var net := Run(w, Init(Elements(ring), clock), actions);
            Unsound(net, ring[0], id, ring[1]) && Published(net, ring[1], id) && net.slipped
  {
    hide Run, Inv, Apply, ContentOf, GetPeerInfo, Unhindered;
    var net0 := Init(Elements(ring), clock);
    var build := Build(w, ring, clock);
    var author := Author(w, ring, clock, id);
    RunAppend(w, net0, build, author);
    var net1 := Run(w, net0, build + author);
    Flooding.Reachable(w, Elements(ring), clock, build + author);
    AuthorBetween(w, net1, ring, clock, id);
    var open := OpenStream(w, net1, ring[0], ring[1], id);
    var net2 := Run(w, net1, open);
    TrueContent(w, net2, 0);
    LoseByte(w, net2, 0);
    var lose := [SendPacket(0, 1), Interrupt(0, true)];
    var net3 := Run(w, net2, lose);
    AuthorHas(w, net1, ring[0], id);
    NotYet(w, net3, ring[1], id);
    assert CanOpen(w, net3, 0);
    hide CanOpen;
    var rest := RetryUnsound(w, net3, 0);
    RunFirst(w, net3, Retry(0), rest);
    RunAppend(w, net0, build + author, open);
    RunAppend(w, net0, build + author + open, lose);
    RunAppend(w, net0, build + author + open + lose, [Retry(0)] + rest);
    actions := build + author + open + lose + ([Retry(0)] + rest);
  }

  lemma TrueContent(w: World, net: Net, k: nat)
    requires Inv(w, net) && !net.slipped && Streams(net, k)
    ensures var c := net.calls[k];
            && c.msg.signed.id in w.truth && c.msg.signed == w.truth[c.msg.signed.id].signed
            && c.content == w.truth[c.msg.signed.id].content && |c.content| == c.msg.signed.length
  {
    hide Inv, HopsOk, HopsDone, StoreOk, RecordsOk, CompletedOk;
    StreamFacts(w, net, k);
  }

  lemma NotYet(w: World, net: Net, n: Id, id: MsgId)
    requires Inv(w, net) && n in net.stores && (n, id) !in net.completed
    ensures !IsComplete(net.stores[n], id)
  {
    hide Inv, StoreOk, RecordsOk;
    NodeFacts(w, net, n);
  }
}

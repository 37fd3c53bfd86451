/** What a push that is left alone achieves. */
module Progress {
  import opened Order
  import opened Message
  import opened Storage
  import Delivery
  import opened Network
  import opened NetworkInv
  import opened Flooding
  import opened Publication

  /** What is on record about the peers for a message is the same. */
  ghost predicate SamePeerFiles(fs: Fs, fs': Fs, id: MsgId)
  {
    forall p :: GetPeerInfo(fs', id, p) == GetPeerInfo(fs, id, p)
  }

  /** The same push: only the receiver's store and the call itself changed, and nothing was completed or published. */
  ghost predicate SamePush(net: Net, net': Net, k: nat)
  {
    && k in net.calls && k in net'.calls
    && var c, c' := net.calls[k], net'.calls[k];
    && c'.from == c.from && c'.to == c.to && c'.msg == c.msg && c'.content == c.content
    && net'.stores.Keys == net.stores.Keys
    && (forall n :: n in net.stores && n != c.to ==> net'.stores[n] == net.stores[n])
    && (c.to in net.stores ==> SamePeerFiles(net.stores[c.to], net'.stores[c.to], c.msg.signed.id))
    && net' == net.(stores := net'.stores, calls := net.calls[k := c'])
  }

  lemma MakeSamePush(net: Net, net': Net, k: nat, fs: Fs, c: Call)
    requires k in net.calls && net.calls[k].to in net.stores
    requires net' == net.(stores := net.stores[net.calls[k].to := fs], calls := net.calls[k := c])
    requires c.from == net.calls[k].from && c.to == net.calls[k].to
    requires c.msg == net.calls[k].msg && c.content == net.calls[k].content
    requires SamePeerFiles(net.stores[c.to], fs, c.msg.signed.id)
    ensures SamePush(net, net', k)
  {
    hide SamePeerFiles;
  }

  lemma SamePushTwice(net: Net, mid: Net, net': Net, k: nat)
    requires SamePush(net, mid, k) && SamePush(mid, net', k)
    ensures SamePush(net, net', k)
  {
    assert net.calls[k := mid.calls[k]][k := net'.calls[k]] == net.calls[k := net'.calls[k]];
  }

  /** The directory of the message being streamed exists. */
  ghost predicate Linked(net: Net, k: nat)
  {
    Streams(net, k) && net.calls[k].msg.signed.id in net.stores[net.calls[k].to].dirs
  }

  /** Steps of pushes only: no peer is started or stopped, and nothing is authored. */
  ghost predicate Moves(actions: seq<Action>)
  {
    forall i :: 0 <= i < |actions| ==> !actions[i].SelectPeers? && !actions[i].Inject?
  }

  /** A step of one call, other than its retry. */
  ghost predicate OfCall(k: nat, a: Action)
  {
    match a
    case CallPush(j) => j == k
    case AskOffset(j) => j == k
    case SendPacket(j, _) => j == k
    case EndStream(j) => j == k
    case Receive(j) => j == k
    case Finish(j) => j == k
    case Interrupt(j, _) => j == k
    case Fail(j) => j == k
    case LoseReply(j) => j == k
    case Record(j, _) => j == k
    case _ => false
  }

  /** The call is left alone: nothing else happens, and it is not retried. */
  ghost predicate Alone(k: nat, actions: seq<Action>)
  {
    forall i :: 0 <= i < |actions| ==> OfCall(k, actions[i])
  }

  lemma RunOne(w: World, net: Net, a: Action)
    ensures Run(w, net, [a]) == Apply(w, net, a)
  {
    hide Apply;
    assert [a][1..] == [];
  }

  lemma RunFirst(w: World, net: Net, a: Action, rest: seq<Action>)
    ensures Run(w, net, [a] + rest) == Run(w, Apply(w, net, a), rest)
  {
    hide Apply;
    assert ([a] + rest)[1..] == rest;
  }

  /** One packet of up to 2048 bytes. */
  lemma SendOne(w: World, net: Net, k: nat) returns (size: nat)
    requires Linked(net, k) && !net.calls[k].phase.ended && net.calls[k].reader < |net.calls[k].content|
    ensures var net' := Apply(w, net, SendPacket(k, size));
            && Linked(net', k) && SamePush(net, net', k) && !net'.calls[k].phase.ended && SameStream(net, net', k)
            && net.calls[k].reader < net'.calls[k].reader <= |net.calls[k].content|
  {
    var c := net.calls[k];
    size := if |c.content| - c.reader < 2048 then |c.content| - c.reader else 2048;
    JoinedLast(c.phase.inFlight, c.content[c.reader..c.reader + size]);
  }

  /** How many bytes the receiver's file will have when all that is in flight and still to be read has arrived. */
  ghost function Total(c: Call): int
    requires c.phase.Streaming?
  {
    c.phase.w.pos + |Joined(c.phase.inFlight)| + |c.content| - c.reader
  }

  /** The stream began at the same offset, and no byte of it was lost. */
  ghost predicate SameStream(net: Net, net': Net, k: nat)
  {
    && k in net.calls && k in net'.calls && net'.calls[k].offset == net.calls[k].offset
    && (net.calls[k].phase.Streaming? && net'.calls[k].phase.Streaming? ==> Total(net'.calls[k]) == Total(net.calls[k]))
  }

  lemma ReaderInside(w: World, net: Net, k: nat)
    requires Inv(w, net) && !net.slipped && k in net.calls
    ensures net.calls[k].reader <= |net.calls[k].content|
  {
    hide Inv;
    CallFacts(w, net, k);
    hide HopsOk, HopsDone, LiveOk;
  }

  /** The sender reads its file to the end. */
  lemma {:induction false} ReadAll(w: World, net: Net, k: nat) returns (actions: seq<Action>)
    requires Inv(w, net) && Linked(net, k) && !net.calls[k].phase.ended && net.calls[k].reader <= |net.calls[k].content|
    ensures Alone(k, actions)
    ensures var net' := Run(w, net, actions);
            && Inv(w, net') && Linked(net', k) && SamePush(net, net', k) && SameStream(net, net', k)
            && !net'.calls[k].phase.ended && net'.calls[k].reader == |net'.calls[k].content|
    decreases |net.calls[k].content| - net.calls[k].reader
  {
    hide Inv, Run;
    var c := net.calls[k];
    if c.reader < |c.content| {
      var size := SendOne(w, net, k);
      var a := SendPacket(k, size);
      hide Apply;
      ApplyKeeps(w, net, a);
      var rest := ReadAll(w, Apply(w, net, a), k);
      actions := [a] + rest;
      RunFirst(w, net, a, rest);
      SamePushTwice(net, Apply(w, net, a), Run(w, net, actions), k);
    } else {
      actions := [];
      RunNone(w, net);
      SamePushRefl(net, k);
    }
  }

  lemma SamePushRefl(net: Net, k: nat)
    requires k in net.calls
    ensures SamePush(net, net, k)
  {
    assert net.calls[k := net.calls[k]] == net.calls;
  }

  /** The sender reads its file to the end and closes the stream. */
  lemma SendAll(w: World, net: Net, k: nat) returns (actions: seq<Action>)
    requires Inv(w, net) && Linked(net, k) && !net.calls[k].phase.ended && net.calls[k].reader <= |net.calls[k].content|
    ensures Alone(k, actions)
    ensures var net' := Run(w, net, actions);
            && Inv(w, net') && Linked(net', k) && SamePush(net, net', k) && SameStream(net, net', k)
            && net'.calls[k].phase.ended && net'.calls[k].reader == |net'.calls[k].content|
  {
    hide Inv, Run;
    var read := ReadAll(w, net, k);
    var mid := Run(w, net, read);
    assert SamePush(mid, Apply(w, mid, EndStream(k)), k);
    assert Linked(Apply(w, mid, EndStream(k)), k) && Apply(w, mid, EndStream(k)).calls[k].phase.ended;
    assert SameStream(mid, Apply(w, mid, EndStream(k)), k);
    hide Apply;
    ApplyKeeps(w, mid, EndStream(k));
    RunOne(w, mid, EndStream(k));
    RunAppend(w, net, read, [EndStream(k)]);
    actions := read + [EndStream(k)];
    SamePushTwice(net, mid, Run(w, net, actions), k);
  }

  /** One packet is written. */
  lemma ReceiveOne(w: World, net: Net, k: nat)
    requires Inv(w, net) && Linked(net, k) && net.calls[k].phase.inFlight != []
    ensures var net', c := Apply(w, net, Receive(k)), net.calls[k];
            && Linked(net', k) && SamePush(net, net', k) && SameStream(net, net', k)
            && net'.calls[k] == c.(phase := net'.calls[k].phase) && net'.calls[k].phase.ended == c.phase.ended
            && net'.calls[k].phase.inFlight == c.phase.inFlight[1..]
  {
    hide Inv;
    CallFacts(w, net, k);
    hide HopsOk, HopsDone;
  }

  lemma {:induction false} ReceiveAll(w: World, net: Net, k: nat) returns (actions: seq<Action>)
    requires Inv(w, net) && Linked(net, k)
    ensures Alone(k, actions)
    ensures var net' := Run(w, net, actions);
            && Inv(w, net') && Linked(net', k) && SamePush(net, net', k) && SameStream(net, net', k)
            && net'.calls[k].phase.ended == net.calls[k].phase.ended && net'.calls[k].phase.inFlight == []
            && net'.calls[k].reader == net.calls[k].reader
    decreases |net.calls[k].phase.inFlight|
  {
    hide Inv, Apply;
    if net.calls[k].phase.inFlight == [] {
      actions := [];
      SamePushRefl(net, k);
    } else {
      hide Run;
      ReceiveOne(w, net, k);
      ApplyKeeps(w, net, Receive(k));
      var rest := ReceiveAll(w, Apply(w, net, Receive(k)), k);
      actions := [Receive(k)] + rest;
      RunFirst(w, net, Receive(k), rest);
      SamePushTwice(net, Apply(w, net, Receive(k)), Run(w, net, actions), k);
    }
  }

  /** The push was accepted, and the receiver's lock is free. */
  ghost predicate Answered(net: Net, k: nat)
  {
    && k in net.calls && net.calls[k].phase.Replied? && net.calls[k].to in net.stores
    && net.calls[k].msg.signed.id !in net.stores[net.calls[k].to].busy
    && (net.calls[k].phase.reply.Done? || net.calls[k].phase.reply == Failed(AlreadySeen))
  }

  /** Close leaves the peer files and frees the lock, whatever it finds, unless it removes the directory. */
  lemma CloseFrees(w: World, fs: Fs, wr: Writer)
    requires wr.inode in fs.files && |fs.files[wr.inode]| <= wr.msg.signed.length
    requires |fs.files[wr.inode]| == wr.msg.signed.length ==> w.sha(wr.hashed) == wr.msg.signed.sha256
    ensures var fs' := Close(w.sha, fs, wr).0;
            && SamePeerFiles(fs, fs', wr.msg.signed.id) && wr.msg.signed.id !in fs'.busy
            && fs'.files == fs.files && fs'.dirs.Keys == fs.dirs.Keys
  {
  }

  /** The push ended, its message complete and published at the receiver, where the lock is free. */
  ghost predicate Ended(net: Net, net': Net, k: nat)
  {
    && k in net.calls && k in net'.calls && net.calls[k].to in net.stores
    && var c, c' := net.calls[k], net'.calls[k];
    && c'.from == c.from && c'.to == c.to && c'.msg == c.msg
    && net'.stores.Keys == net.stores.Keys
    && (forall n :: n in net.stores && n != c.to ==> net'.stores[n] == net.stores[n])
    && SamePeerFiles(net.stores[c.to], net'.stores[c.to], c.msg.signed.id)
    && net' == Publish(net, c.to, c.msg).(stores := net'.stores, calls := net.calls[k := c'],
                                          completed := net.completed + {(c.to, c.msg.signed.id)})
    && Answered(net', k)
  }

  /** With everything received, Close accepts the content and Push returns nil. */
  lemma FinishOne(w: World, net: Net, k: nat)
    requires Inv(w, net) && !net.slipped && Linked(net, k)
    requires net.calls[k].phase.ended && net.calls[k].phase.inFlight == []
    ensures Ended(net, Apply(w, net, Finish(k)), k)
  {
    hide Inv, Close, HopsOk, HopsDone, StoreOk, RecordsOk, CompletedOk;
    StreamFacts(w, net, k);
    var c := net.calls[k];
    assert |c.content[c.phase.w.pos..c.reader]| == 0;
    CloseExactly(w, net.stores[c.to], c);
    assert c.content[..|c.content|] == c.content;
    CloseFrees(w, net.stores[c.to], c.phase.w);
    hide SamePeerFiles, InStep, CallOk, LiveOk;
  }

  /** A stream that is left alone ends with a nil Push. */
  lemma StreamAll(w: World, net: Net, k: nat) returns (actions: seq<Action>)
    requires Inv(w, net) && !net.slipped && Linked(net, k) && !net.calls[k].phase.ended
    ensures Alone(k, actions)
    ensures var net' := Run(w, net, actions); Inv(w, net') && Ended(net, net', k)
  {
    hide Inv, Apply, Run;
    ReaderInside(w, net, k);
    var send := SendAll(w, net, k);
    var sent := Run(w, net, send);
    var receive := ReceiveAll(w, sent, k);
    var received := Run(w, sent, receive);
    FinishOne(w, received, k);
    ApplyKeeps(w, received, Finish(k));
    RunOne(w, received, Finish(k));
    actions := send + receive + [Finish(k)];
    RunAppend(w, net, send + receive, [Finish(k)]);
    RunAppend(w, net, send, receive);
    SamePushTwice(net, sent, received, k);
    EndedLater(net, received, Run(w, net, actions), k);
  }

  lemma EndedFacts(net: Net, net': Net, k: nat)
    requires Ended(net, net', k)
    ensures net'.slipped == net.slipped && net'.clock == net.clock
    ensures k in net'.calls && net'.stores.Keys == net.stores.Keys
    ensures net'.refused == net.refused && net'.missed == net.missed
  {
  }

  lemma EndedLater(net: Net, mid: Net, net': Net, k: nat)
    requires SamePush(net, mid, k) && Ended(mid, net', k)
    ensures Ended(net, net', k)
  {
    assert net.calls[k := mid.calls[k]][k := net'.calls[k]] == net.calls[k := net'.calls[k]];
    var to, msg := net.calls[k].to, net.calls[k].msg;
    assert Publish(mid, to, msg).loops == Publish(net, to, msg).loops;
  }

  /** The receiver can take the call: the id is free, and the message is fresh and has not gone too far. */
  ghost predicate Welcome(w: World, net: Net, k: nat)
  {
    && k in net.calls && net.calls[k].to in net.stores
    && var c := net.calls[k];
    && c.msg.signed.id !in net.stores[c.to].busy
    && !c.msg.signed.Expired(net.clock) && (w.maxHops > 0 ==> |c.msg.hops| <= w.maxHops)
  }

  /** A stream that has just been opened. */
  ghost predicate Begun(net: Net, k: nat)
  {
    && k in net.calls && net.calls[k].phase.Streaming? && net.calls[k].phase.inFlight == [] && !net.calls[k].phase.ended
    && net.calls[k].phase.size == 0
  }

  /** The stream begins where the receiver's file ended. */
  ghost predicate BegunAt(net: Net, net': Net, k: nat)
    requires k in net.calls
  {
    && k in net'.calls && net.calls[k].to in net.stores
    && net'.calls[k].offset == |ContentOf(net.stores[net.calls[k].to], net.calls[k].msg.signed.id)|
  }

  /** A call for a message that the receiver has is answered with AlreadySeen. */
  lemma CallSeen(w: World, net: Net, k: nat)
    requires Welcome(w, net, k) && net.calls[k].phase.Calling?
    requires IsComplete(net.stores[net.calls[k].to], net.calls[k].msg.signed.id)
    ensures var net' := Apply(w, net, CallPush(k)); SamePush(net, net', k) && Answered(net', k)
  {
    hide Preimage;
  }

  /** What OpenWrite leaves of the peer files and of the content. */
  lemma OpenedFiles(w: World, fs: Fs, msg: Message, exact: bool)
    requires msg.signed.id in fs.dirs ==> CopyOk(w, fs, msg.signed.id, exact)
    requires !IsComplete(fs, msg.signed.id)
    ensures var fs1, id := Opened(fs, msg), msg.signed.id;
            && id in fs1.dirs && !fs1.dirs[id].done && fs1.busy == fs.busy
            && SamePeerFiles(fs, fs1, id) && SamePeerFiles(fs, Lock(fs1, id), id)
            && |ContentOf(fs1, id)| == |ContentOf(fs, id)|
  {
  }

  /** A call is being made whose packets start at its offset, or in a network that slipped anyway. */
  ghost predicate Aligned(net: Net, k: nat)
  {
    k in net.calls && net.calls[k].phase.Calling? && (net.slipped || !Misaligned(net.calls[k]))
  }

  /** A call is being made whose reader is at its offset. */
  ghost predicate Fresh(net: Net, k: nat)
  {
    k in net.calls && net.calls[k].phase == Calling([], false) && net.calls[k].reader == net.calls[k].offset
  }

  lemma FreshAligned(net: Net, k: nat)
    requires Fresh(net, k)
    ensures Aligned(net, k)
  {
  }

  /** What a call that is not refused leaves of the network. */
  lemma CallLeaves(w: World, net: Net, k: nat)
    requires Welcome(w, net, k) && Aligned(net, k)
    ensures var net', c := Apply(w, net, CallPush(k)), net.calls[k];
            var (fs', r) := OpenWrite(w.sha, net.stores[c.to], c.msg, c.offset);
            && net' == net.(stores := net.stores[c.to := fs'], calls := net.calls[k := net'.calls[k]])
            && (r.Ok? ==> net'.calls[k] == c.(phase := Streaming(r.value, 0, c.phase.inFlight, c.phase.ended)))
            && (r.Err? && r.error.IncorrectOffset? ==> net'.calls[k] == c.(phase := Asking))
  {
    hide OpenWrite;
    var c := net.calls[k];
    var (fs', r) := OpenWrite(w.sha, net.stores[c.to], c.msg, c.offset);
    assert ServePush(w, net.stores[c.to], net.clock, c.msg, c.offset) == (fs', r);
    hide ServePush, Misaligned;
  }

  /** A call for another message opens a stream, or brings the news that the offset is wrong. */
  lemma CallOpens(w: World, net: Net, k: nat)
    requires Inv(w, net) && Welcome(w, net, k) && Aligned(net, k)
    requires !IsComplete(net.stores[net.calls[k].to], net.calls[k].msg.signed.id)
    ensures var net' := Apply(w, net, CallPush(k));
            var to, id := net.calls[k].to, net.calls[k].msg.signed.id;
            && SamePush(net, net', k) && SameStream(net, net', k)
            && if net.calls[k].offset == |ContentOf(net.stores[to], id)| then
                 && Linked(net', k)
                 && var c, w' := net.calls[k], net'.calls[k].phase.w;
                 && w'.pos == c.offset
                 && net'.calls[k] == c.(phase := Streaming(w', 0, c.phase.inFlight, c.phase.ended))
               else
                 && net'.calls[k].phase.Asking? && Welcome(w, net', k) && !IsComplete(net'.stores[to], id)
                 && |ContentOf(net'.stores[to], id)| == |ContentOf(net.stores[to], id)|
  {
    hide Inv, Apply;
    CallFacts(w, net, k);
    NodeFacts(w, net, net.calls[k].to);
    hide RecordsOk, CompletedOk, HopsOk, HopsDone, LiveOk, InStep;
    var c := net.calls[k];
    var fs, id := net.stores[c.to], c.msg.signed.id;
    assert id in fs.dirs ==> CopyOk(w, fs, id, !net.slipped);
    OpenResult(w, fs, c.msg, c.offset, !net.slipped);
    OpenedFiles(w, fs, c.msg, !net.slipped);
    CallLeaves(w, net, k);
    hide OpenWrite, StoreOk, CopyOk, SamePeerFiles, Opened, CallOk, SamePush;
    var (fs', r) := OpenWrite(w.sha, fs, c.msg, c.offset);
    var net' := Apply(w, net, CallPush(k));
    MakeSamePush(net, net', k, fs', net'.calls[k]);
  }

  /** The offset that the receiver reports is where its file ends. */
  lemma AskOne(w: World, net: Net, k: nat)
    requires Inv(w, net) && Welcome(w, net, k) && net.calls[k].phase.Asking?
    requires !IsComplete(net.stores[net.calls[k].to], net.calls[k].msg.signed.id)
    ensures var net' := Apply(w, net, AskOffset(k));
            && SamePush(net, net', k) && Welcome(w, net', k) && Fresh(net', k)
            && net'.stores == net.stores
            && net'.calls[k].offset == |ContentOf(net.stores[net.calls[k].to], net.calls[k].msg.signed.id)|
  {
    hide Inv, SamePush, ContentOf;
    var net', c := Apply(w, net, AskOffset(k)), net.calls[k];
    assert net.stores[c.to := net.stores[c.to]] == net.stores;
    MakeSamePush(net, net', k, net.stores[c.to], net'.calls[k]);
  }

  /** The handshake: a call, and if its offset is wrong, the true offset and a second call. */
  lemma Handshake(w: World, net: Net, k: nat) returns (actions: seq<Action>)
    requires Inv(w, net) && Welcome(w, net, k) && Fresh(net, k)
    ensures Alone(k, actions)
    ensures var net' := Run(w, net, actions);
            && Inv(w, net') && SamePush(net, net', k)
            && (if IsComplete(net.stores[net.calls[k].to], net.calls[k].msg.signed.id)
                then Answered(net', k) else Linked(net', k) && Begun(net', k) && BegunAt(net, net', k))
    ensures |actions| <= 3
  {
    hide Inv, Run, Apply, IsComplete, ContentOf;
    var net1 := Apply(w, net, CallPush(k));
    CallBrings(w, net, k);
    ApplyKeeps(w, net, CallPush(k));
    RunOne(w, net, CallPush(k));
    actions := [CallPush(k)];
    if net1.calls[k].phase.Asking? {
      var net2 := Apply(w, net1, AskOffset(k));
      AskOne(w, net1, k);
      ApplyKeeps(w, net1, AskOffset(k));
      var net3 := Apply(w, net2, CallPush(k));
      FreshAligned(net2, k);
      CallOpens(w, net2, k);
      ApplyKeeps(w, net2, CallPush(k));
      RunOne(w, net2, CallPush(k));
      RunFirst(w, net1, AskOffset(k), [CallPush(k)]);
      actions := [CallPush(k)] + ([AskOffset(k)] + [CallPush(k)]);
      RunFirst(w, net, CallPush(k), [AskOffset(k)] + [CallPush(k)]);
      SamePushTwice(net, net1, net2, k);
      SamePushTwice(net, net2, net3, k);
    }
  }

  /** What a first call brings: AlreadySeen, a stream, or a refusal of the offset. */
  lemma CallBrings(w: World, net: Net, k: nat)
    requires Inv(w, net) && Welcome(w, net, k) && Fresh(net, k)
    ensures var net' := Apply(w, net, CallPush(k));
            && SamePush(net, net', k)
            && (if IsComplete(net.stores[net.calls[k].to], net.calls[k].msg.signed.id) then Answered(net', k)
                else if net'.calls[k].phase.Asking? then
                  && Welcome(w, net', k) && !IsComplete(net'.stores[net.calls[k].to], net.calls[k].msg.signed.id)
                  && |ContentOf(net'.stores[net.calls[k].to], net.calls[k].msg.signed.id)|
                     == |ContentOf(net.stores[net.calls[k].to], net.calls[k].msg.signed.id)|
                else Linked(net', k) && Begun(net', k) && BegunAt(net, net', k))
  {
    hide Inv, Apply, SamePush, IsComplete, ContentOf;
    if IsComplete(net.stores[net.calls[k].to], net.calls[k].msg.signed.id) {
      CallSeen(w, net, k);
    } else {
      FreshAligned(net, k);
      CallOpens(w, net, k);
    }
  }

  /** No peer file of the message has become fatal or been put off. */
  ghost predicate NoWorse(fs: Fs, fs': Fs, id: MsgId)
  {
    forall p :: var pi, pi' := GetPeerInfo(fs, id, p), GetPeerInfo(fs', id, p);
                pi'.fatal == pi.fatal && pi'.nextAttempt == pi.nextAttempt
  }

  lemma AcceptedOnly(pi: PeerInfo, r: Delivery.PushResult, later: int, draw: nat)
    requires Delivery.Accepted(r)
    ensures var pi' := Delivery.AfterPush(pi, r, later, draw);
            pi'.sent && pi'.fatal == pi.fatal && pi'.nextAttempt == pi.nextAttempt
  {
  }

  /** msgLoop records an accepted push as Sent. */
  lemma RecordOne(w: World, net: Net, k: nat, draw: nat)
    requires Answered(net, k) && net.calls[k].from in net.stores
    requires net.calls[k].msg.signed.id in net.stores[net.calls[k].from].dirs
    ensures var c, net' := net.calls[k], Apply(w, net, Record(k, draw));
            && net' == net.(stores := net'.stores, calls := net.calls - {k}) && net'.stores.Keys == net.stores.Keys
            && GetPeerInfo(net'.stores[c.from], c.msg.signed.id, c.to).sent
            && forall n :: n in net.stores ==>
                 && net'.stores[n].busy == net.stores[n].busy
                 && NoWorse(net.stores[n], net'.stores[n], c.msg.signed.id)
  {
    var c := net.calls[k];
    var before := GetPeerInfo(net.stores[c.from], c.msg.signed.id, c.to);
    AcceptedOnly(before, ResultOf(c.phase.reply), net.clock, draw);
    hide Delivery.AfterPush;
  }

  /** Node n may now push the message at position i of its queue for the peer. */
  ghost predicate Due(w: World, net: Net, n: Id, to: Id, i: nat)
  {
    && (n, to) in net.loops && !net.loops[(n, to)].diffing && i < |net.loops[(n, to)].queue|
    && n in net.stores && to in net.stores && n != to && !Engaged(net, n, to)
    && var id := net.loops[(n, to)].queue[i];
    && IsComplete(net.stores[n], id) && id in net.stores[n].dirs && net.stores[n].dirs[id].record.Stored?
    && var m := net.stores[n].dirs[id].record.msg;
    && !m.signed.Expired(net.clock) && (w.maxHops > 0 ==> |m.hops| < w.maxHops)
    && !Delivery.Terminal(GetPeerInfo(net.stores[n], id, to))
    && GetPeerInfo(net.stores[n], id, to).nextAttempt <= net.clock
    && id !in net.stores[to].busy
  }

  /** The message that a push would send. */
  ghost function Outgoing(net: Net, n: Id, id: MsgId): Message
    requires n in net.stores && id in net.stores[n].dirs && net.stores[n].dirs[id].record.Stored?
  {
    var m := net.stores[n].dirs[id].record.msg;
    m.(hops := m.hops + [n])
  }

  lemma BeginOne(w: World, net: Net, k: nat, n: Id, to: Id, i: nat)
    requires Inv(w, net) && Due(w, net, n, to, i) && k !in net.calls
    ensures var net', id := Apply(w, net, Pop(k, n, to, i)), net.loops[(n, to)].queue[i];
            && k in net'.calls && net' == Taken(net, (n, to), i).(calls := net.calls[k := net'.calls[k]])
            && Welcome(w, net', k) && Fresh(net', k)
            && net'.calls[k].from == n && net'.calls[k].to == to && net'.calls[k].msg.signed.id == id
            && net'.calls[k].msg == Outgoing(net, n, id)
  {
    hide Inv;
    NodeFacts(w, net, n);
    hide StoreOk, CompletedOk, HopsOk;
  }

  lemma DueFacts(w: World, net: Net, n: Id, to: Id, i: nat)
    requires Inv(w, net) && Due(w, net, n, to, i)
    ensures (n, to) in net.loops && i < |net.loops[(n, to)].queue|
    ensures var id := net.loops[(n, to)].queue[i];
            && n in net.stores && to in net.stores && n != to && id in net.stores[n].dirs && id !in net.stores[to].busy
            && net.stores[n].dirs[id].record.Stored? && Outgoing(net, n, id).signed.id == id
            && id in w.truth && !w.truth[id].signed.Expired(net.clock)
  {
    hide Inv, HopsOk;
    NodeFacts(w, net, n);
    assert CopyOk(w, net.stores[n], net.loops[(n, to)].queue[i], !net.slipped);
  }

  lemma CompletedNow(w: World, net: Net, n: Id, id: MsgId)
    requires Inv(w, net) && n in net.stores && id in w.truth && !w.truth[id].signed.Expired(net.clock)
    ensures IsComplete(net.stores[n], id) <==> (n, id) in net.completed
  {
    hide Inv, StoreOk, RecordsOk;
    NodeFacts(w, net, n);
  }

  /** What an undisturbed push of a message of the queue leaves behind. */
  ghost predicate Delivered(net: Net, net': Net, n: Id, to: Id, i: nat)
    requires (n, to) in net.loops && i < |net.loops[(n, to)].queue| && n in net.stores
    requires var id := net.loops[(n, to)].queue[i];
             id in net.stores[n].dirs && net.stores[n].dirs[id].record.Stored?
  {
    var id := net.loops[(n, to)].queue[i];
    var net1 := Taken(net, (n, to), i);
    var net2 := if (to, id) in net.completed then net1
                else Publish(net1, to, Outgoing(net, n, id)).(completed := net.completed + {(to, id)});
    && net' == net2.(stores := net'.stores)
    && net'.stores.Keys == net.stores.Keys && to in net'.stores
    && IsComplete(net'.stores[to], id) && GetPeerInfo(net'.stores[n], id, to).sent
  }

  /** The call is accepted, after a handshake and, if the peer lacks the message, a stream. */
  lemma CallDelivers(w: World, net: Net, k: nat) returns (actions: seq<Action>)
    requires Inv(w, net) && !net.slipped && Welcome(w, net, k) && Fresh(net, k)
    ensures Alone(k, actions)
    ensures var net', c := Run(w, net, actions), net.calls[k];
            && Inv(w, net')
            && if IsComplete(net.stores[c.to], c.msg.signed.id) then SamePush(net, net', k) && Answered(net', k)
               else Ended(net, net', k)
  {
    hide Inv, Run, Apply, SamePush, Answered, IsComplete;
    var shake := Handshake(w, net, k);
    var shaken := Run(w, net, shake);
    actions := shake;
    if !IsComplete(net.stores[net.calls[k].to], net.calls[k].msg.signed.id) {
      assert !shaken.slipped by { SamePushFacts(net, shaken, k); }
      var stream := StreamAll(w, shaken, k);
      RunAppend(w, net, shake, stream);
      actions := shake + stream;
      EndedLater(net, shaken, Run(w, net, actions), k);
    }
  }

  lemma SamePushFacts(net: Net, net': Net, k: nat)
    requires SamePush(net, net', k)
    ensures net'.slipped == net.slipped && net'.clock == net.clock && net'.completed == net.completed
  {
  }

  /**
   * A push that is due and then left alone succeeds, whatever part of the
   * message the peer has: afterwards the peer has it complete and, if that is
   * new, published; the sender has recorded it as Sent; and no call is left over.
   */
  lemma PushDelivers(w: World, net: Net, k: nat, n: Id, to: Id, i: nat, draw: nat) returns (actions: seq<Action>)
    requires Inv(w, net) && !net.slipped && Due(w, net, n, to, i) && k !in net.calls
    requires (n, to) in net.loops && i < |net.loops[(n, to)].queue| && n in net.stores
    requires var id := net.loops[(n, to)].queue[i];
             id in net.stores[n].dirs && net.stores[n].dirs[id].record.Stored?
    ensures Moves(actions)
    ensures Delivered(net, Run(w, net, actions), n, to, i)
    ensures var id := net.loops[(n, to)].queue[i];
            Unhindered(net, id) ==> Unhindered(Run(w, net, actions), id)
  {
    hide Inv, Run, Apply, Due, SamePeerFiles, NoWorse, Unhindered, Welcome, GetPeerInfo, Publish, IsComplete;
    var id := net.loops[(n, to)].queue[i];
    var begun := Apply(w, net, Pop(k, n, to, i));
    DueFacts(w, net, n, to, i);
    BeginOne(w, net, k, n, to, i);
    ApplyKeeps(w, net, Pop(k, n, to, i));
    var call := CallDelivers(w, begun, k);
    var answered := Run(w, begun, call);
    if !IsComplete(begun.stores[to], id) {
      EndedFacts(begun, answered, k);
    }
    RecordOne(w, answered, k, draw);
    ApplyKeeps(w, answered, Record(k, draw));
    RunOne(w, answered, Record(k, draw));
    RunAppend(w, begun, call, [Record(k, draw)]);
    var rest := call + [Record(k, draw)];
    actions := [Pop(k, n, to, i)] + rest;
    RunFirst(w, net, Pop(k, n, to, i), rest);
    var net' := Run(w, net, actions);
    CompletedNow(w, net, to, id);
    PeerSent(w, net', n, id, to);
    CompletedNow(w, net', to, id);
    SameLoops(net, begun, n, to, i, id);
    assert net'.calls == net.calls;
    if Unhindered(net, id) {
      StillUnhindered(net, answered, net', to, id);
    }
  }

  /** Adding a call changes nothing of what is published where. */
  lemma SameLoops(net: Net, begun: Net, n: Id, to: Id, i: nat, id: MsgId)
    requires (n, to) in net.loops && i < |net.loops[(n, to)].queue|
    requires begun == Taken(net, (n, to), i).(calls := begun.calls)
    ensures forall m :: Publish(begun, to, m) == Publish(Taken(net, (n, to), i), to, m).(calls := begun.calls)
    ensures forall m :: Publish(Taken(net, (n, to), i), to, m).calls == net.calls
  {
  }

  /** Nobody is busy with the message, and no peer file has it failed for good or put off. */
  ghost predicate Unhindered(net: Net, id: MsgId)
  {
    forall n :: n in net.stores ==>
      && id !in net.stores[n].busy
      && forall p :: var pi := GetPeerInfo(net.stores[n], id, p); !pi.fatal && pi.nextAttempt <= net.clock
  }

  lemma StillUnhindered(net: Net, mid: Net, net': Net, to: Id, id: MsgId)
    requires Unhindered(net, id) && net'.clock == net.clock
    requires mid.stores.Keys == net.stores.Keys && net'.stores.Keys == net.stores.Keys && to in net.stores
    requires forall n :: n in net.stores && n != to ==> mid.stores[n] == net.stores[n]
    requires SamePeerFiles(net.stores[to], mid.stores[to], id) && id !in mid.stores[to].busy
    requires forall n :: n in mid.stores ==>
               net'.stores[n].busy == mid.stores[n].busy && NoWorse(mid.stores[n], net'.stores[n], id)
    ensures Unhindered(net', id)
  {
    hide GetPeerInfo;
    forall n, p | n in net'.stores
      ensures id !in net'.stores[n].busy
      ensures var pi := GetPeerInfo(net'.stores[n], id, p); !pi.fatal && pi.nextAttempt <= net'.clock
    {
      assert NoWorse(mid.stores[n], net'.stores[n], id);
      assert GetPeerInfo(mid.stores[n], id, p) == GetPeerInfo(net.stores[n], id, p);
    }
  }

  lemma RunNone(w: World, net: Net)
    ensures Run(w, net, []) == net
  {
  }
}

/** The network: nodes with stores, pushes in progress, and every interleaving of their steps. */
module Network {
  import opened Order
  import opened Message
  import opened Storage
  import opened Diff
  import Delivery
  import StorageResume

  /** What does not change: SHA-256, the messages that authors sign with their contents, and MaxHops. */
  datatype World = World(sha: Hash, truth: StorageResume.Truth, maxHops: int)

  /** What the sender of a push gets back. */
  datatype Reply = Done | Failed(e: Error) | Broken

  /**
   * Where a push is: calling Push (its first packets may be on the way before the
   * receiver has opened the message), asking for the offset, streaming, or answered.
   */
  datatype Phase =
    | Calling(inFlight: seq<Bytes>, ended: bool)
    | Asking
    | Streaming(w: Writer, size: nat, inFlight: seq<Bytes>, ended: bool)
    | Replied(reply: Reply)

  /** A push: the message with the sender added to its hops, the sender's open file and its position. */
  datatype Call = Call(from: Id, to: Id, msg: Message, content: Bytes, reader: nat, offset: nat, phase: Phase)

  /** What a node runs for an active peer: the Diff that comes first, the subscription and the queue. */
  datatype Loop = Loop(diffing: bool, inbox: seq<Message>, queue: seq<MsgId>)

  /**
   * `completed` records who ever completed which message, `published` what each
   * node handed to its subscribers, `refused` what checkHops refused or, behind
   * the point where a Diff stopped, would have, `missed` the other entries behind
   * the point where the last Diff of a loop stopped, and `slipped` whether a
   * stream was ever opened whose packets do not start at its offset, because a
   * retry left the reader where it was.
   */
  datatype Net = Net(clock: int, stores: map<Id, Fs>, loops: map<(Id, Id), Loop>, calls: map<nat, Call>,
                     completed: set<(Id, MsgId)>, published: set<(Id, Message)>,
                     refused: set<(Id, MsgId, Id)>, missed: set<(Id, MsgId, Id)>, slipped: bool)

  datatype Action =
    | Tick(now: int)
    | SelectPeers(n: Id, peers: set<Id>)       // checkActivePeers starts and stops peers
    | Inject(n: Id, id: MsgId)                 // store with no hops, as the chat application does
    | SubLoop(n: Id, to: Id)                   // takes a message from the subscription
    | DiffScan(n: Id, to: Id, order: seq<MsgId>, has: set<MsgId>, broke: Option<nat>)
    | Pop(k: nat, n: Id, to: Id, i: nat)       // msgLoop takes an id from the queue
    | CallPush(k: nat)                         // the receiver validates and opens the message
    | AskOffset(k: nat)
    | SendPacket(k: nat, size: nat)
    | EndStream(k: nat)                        // the sender reached the end of its file
    | Receive(k: nat)
    | Finish(k: nat)                           // the receiver saw the end of the stream
    | Interrupt(k: nat, heard: bool)           // the stream breaks
    | Fail(k: nat)                             // a call cannot be made
    | LoseReply(k: nat)
    | Retry(k: nat)                            // backoff makes the call again, the reader left where it is
    | Record(k: nat, draw: nat)                // msgLoop stores the outcome
    | SweepStore(n: Id)

  function SignedOf(w: World, id: MsgId): Signed
    requires id in w.truth
  {
    w.truth[id].signed
  }

  function SetStore(net: Net, n: Id, fs: Fs): Net
  {
    net.(stores := net.stores[n := fs])
  }

  function SetCall(net: Net, k: nat, c: Call): Net
  {
    net.(calls := net.calls[k := c])
  }

  /** Records the completion if the store now has the message complete. */
  function Note(net: Net, n: Id, id: MsgId): Net
    requires n in net.stores
  {
    if IsComplete(net.stores[n], id) then net.(completed := net.completed + {(n, id)}) else net
  }

  /** Pub: the message goes to every subscription of the node. */
  function Publish(net: Net, n: Id, msg: Message): Net
  {
    net.(published := net.published + {(n, msg)},
         loops := map x | x in net.loops ::
           if x.0 == n then net.loops[x].(inbox := net.loops[x].inbox + [msg]) else net.loops[x])
  }

  /** The peers that a node has started. */
  function ActivePeers(net: Net, n: Id): set<Id>
  {
    set x | x in net.loops && x.0 == n :: x.1
  }

  /** The one loop of a node for a peer is pushing. */
  predicate Engaged(net: Net, n: Id, to: Id)
  {
    exists k :: k in net.calls && net.calls[k].from == n && net.calls[k].to == to
  }

  /** Push on the receiver, up to and including OpenWrite, on one clock. */
  function ServePush(w: World, fs: Fs, clock: int, msg: Message, offset: nat): (Fs, Result<Writer>)
  {
    if msg.signed.Expired(clock) then (fs, Err(Error.Expired))
    else if w.maxHops > 0 && |msg.hops| > w.maxHops then (fs, Err(Error.TooManyHops))
    else OpenWrite(w.sha, fs, msg, offset)
  }

  /** The receiver closes the file; it publishes if Close succeeds and the stream did not fail early. */
  function ServeClose(w: World, net: Net, k: nat, failed: bool, heard: bool): Net
    requires k in net.calls && net.calls[k].phase.Streaming? && net.calls[k].to in net.stores
  {
    var c := net.calls[k];
    var (fs, err) := Close(w.sha, net.stores[c.to], c.phase.w);
    var net1 := Note(SetStore(net, c.to, fs), c.to, c.msg.signed.id);
    var reply := if failed then Broken else if err.Some? then Failed(err.value) else Done;
    var net2 := if reply.Done? then Publish(net1, c.to, c.msg) else net1;
    SetCall(net2, k, c.(phase := Replied(if heard then reply else Broken)))
  }

  function ResultOf(r: Reply): Delivery.PushResult
  {
    match r
    case Done => Delivery.Delivered
    case Broken => Delivery.OtherError
    case Failed(e) =>
      match e
      case AlreadySeen => Delivery.Seen
      case MessageIdCollision => Delivery.Collision
      case ContentMismatch => Delivery.Mismatch
      case NoExist => Delivery.NotFound
      case Expired => Delivery.Stale
      case TooManyHops => Delivery.TooManyHops
      case TooBig => Delivery.TooBig
      case Busy => Delivery.OtherError
      case IncorrectOffset(_) => Delivery.OtherError
  }

  predicate Streams(net: Net, k: nat)
  {
    k in net.calls && net.calls[k].phase.Streaming? && net.calls[k].to in net.stores
  }

  /** The sender may send: the call is being made, or the stream is open. */
  predicate Sends(net: Net, k: nat)
  {
    && k in net.calls && net.calls[k].to in net.stores
    && (net.calls[k].phase.Calling? || net.calls[k].phase.Streaming?)
  }

  /** The packets of a call start elsewhere than at its offset. */
  predicate Misaligned(c: Call)
    requires c.phase.Calling?
  {
    c.reader != c.offset + |Joined(c.phase.inFlight)|
  }

  /**
   * Stopped peers lose their loops; started ones subscribe and begin with a Diff,
   * so what earlier Diffs missed no longer counts. A stop waits for the push under way.
   */
  function ApplySelect(net: Net, n: Id, peers: set<Id>): Net
  {
    if n in net.stores && n !in peers
       && (forall k :: k in net.calls && net.calls[k].from == n ==> net.calls[k].to in peers) then
      net.(loops := map x | x in net.loops.Keys + (set p | p in peers :: (n, p)) && (x.0 == n ==> x.1 in peers) ::
             if x in net.loops then net.loops[x] else Loop(true, [], []),
           missed := set x | x in net.missed && (x.0 == n ==> x.2 in peers && (n, x.2) in net.loops))
    else net
  }

  /** A message from the subscription is refused, or queued. */
  function ApplySub(w: World, net: Net, n: Id, to: Id): Net
  {
    if (n, to) in net.loops && net.loops[(n, to)].inbox != [] then
      var l := net.loops[(n, to)];
      var m, l1 := l.inbox[0], l.(inbox := l.inbox[1..]);
      if CheckHops(m.hops, to, w.maxHops) != NotRefused then
        net.(loops := net.loops[(n, to) := l1], refused := net.refused + {(n, m.signed.id, to)})
      else net.(loops := net.loops[(n, to) := l1.(queue := l1.queue + [m.signed.id])])
    else net
  }

  /** The manifest: every complete message that has not expired, in the order of the directory. */
  predicate Listing(fs: Fs, clock: int, order: seq<MsgId>)
  {
    && (forall i :: 0 <= i < |order| ==>
          order[i] in fs.dirs && fs.dirs[order[i]].done && fs.dirs[order[i]].record.Stored?
          && !fs.dirs[order[i]].record.msg.signed.Expired(clock))
    && (forall i, j :: 0 <= i < j < |order| ==> order[i] != order[j])
    && (forall id :: id in fs.dirs && fs.dirs[id].done && fs.dirs[id].record.Stored? ==>
          id in order || fs.dirs[id].record.msg.signed.Expired(clock))
  }

  function Manifest(fs: Fs, order: seq<MsgId>): seq<Message>
    requires forall i :: 0 <= i < |order| ==> order[i] in fs.dirs && fs.dirs[order[i]].record.Stored?
  {
    seq(|order|, i requires 0 <= i < |order| => fs.dirs[order[i]].record.msg)
  }

  /** What a store has on record about one peer. */
  function InfosOf(fs: Fs, to: Id): map<MsgId, PeerInfo>
  {
    map id | id in fs.dirs && to in fs.dirs[id].peers :: fs.dirs[id].peers[to]
  }

  function StoreInfos(fs: Fs, to: Id, infos: map<MsgId, PeerInfo>): Fs
  {
    fs.(dirs := map id | id in fs.dirs ::
          if id in infos then fs.dirs[id].(peers := fs.dirs[id].peers[to := infos[id]]) else fs.dirs[id])
  }

  /** The setting of a Diff; the receiver says it has a message only if it once completed it. */
  function SettingOf(w: World, net: Net, n: Id, to: Id, has: set<MsgId>): Setting
    requires n in net.stores
  {
    Setting(to, w.maxHops, InfosOf(net.stores[n], to), _ => set id | id in has && (to, id) in net.completed)
  }

  /** How many entries are dealt with: all up to the stop, or fewer if it breaks before. */
  function DealtWith(c: Setting, manifest: seq<Message>, broke: Option<nat>): (e: nat)
    ensures e <= |manifest|
  {
    var stop := StopAt(c, manifest, 0);
    if broke.Some? && broke.value < stop then broke.value else stop
  }

  /** diffAndEnqueue, for a peer that was just started; if it breaks it starts again. */
  function ApplyScan(w: World, net: Net, n: Id, to: Id, order: seq<MsgId>, has: set<MsgId>, broke: Option<nat>): Net
  {
    if (n, to) in net.loops && net.loops[(n, to)].diffing
       && n in net.stores && Listing(net.stores[n], net.clock, order) then
      var l, fs := net.loops[(n, to)], net.stores[n];
      var c, manifest := SettingOf(w, net, n, to, has), Manifest(fs, order);
      var e := DealtWith(c, manifest, broke);
      var p := UpTo(c, manifest, e);
      var queue := l.queue + seq(|p.inserts|, i requires 0 <= i < |p.inserts| => p.inserts[i].id);
      SetStore(net, n, StoreInfos(fs, to, p.infos)).(
        loops := net.loops[(n, to) := l.(diffing := broke.Some?, queue := queue)],
        refused := net.refused + set i | 0 <= i < |order| && CheckHops(manifest[i].hops, to, w.maxHops) != NotRefused ::
                                   (n, order[i], to),
        missed := if broke.Some? then net.missed
                  else net.missed + set i | e <= i < |order| && !Filtered(c, manifest[i]) :: (n, order[i], to))
    else net
  }

  /** An id from the queue is dropped, put back, given up, or its push begins. */
  function ApplyPop(net: Net, k: nat, n: Id, to: Id, i: nat): Net
  {
    if (n, to) in net.loops && !net.loops[(n, to)].diffing && i < |net.loops[(n, to)].queue| && n in net.stores
       && to in net.stores && k !in net.calls && !Engaged(net, n, to) then
      var l, fs := net.loops[(n, to)], net.stores[n];
      var id := l.queue[i];
      var r, pi := OpenRead(fs, id), GetPeerInfo(fs, id, to);
      var net1 := net.(loops := net.loops[(n, to) := l.(queue := l.queue[..i] + l.queue[i + 1..])]);
      if Delivery.Terminal(pi) then net1
      else if net.clock < pi.nextAttempt then net
      else if r.Err? then
        SetStore(net1, n, SetPeerInfo(fs, id, to, Delivery.AfterPush(pi, Delivery.NotFound, net.clock, 0)))
      else if r.value.0.signed.Expired(net.clock) then
        SetStore(net1, n, SetPeerInfo(fs, id, to, Delivery.AfterPush(pi, Delivery.Stale, net.clock, 0)))
      else SetCall(net1, k, Call(n, to, r.value.0.(hops := r.value.0.hops + [n]), r.value.1, 0, 0, Calling([], false)))
    else net
  }

  /** The outcome of a push goes on record; if it is to be retried, the id goes back into the queue. */
  function ApplyRecord(net: Net, k: nat, draw: nat): Net
  {
    if k in net.calls && net.calls[k].phase.Replied? && net.calls[k].from in net.stores then
      var c := net.calls[k];
      var fs, id, x := net.stores[c.from], c.msg.signed.id, (c.from, c.to);
      var r := ResultOf(c.phase.reply);
      var pi := Delivery.AfterPush(GetPeerInfo(fs, id, c.to), r, net.clock, draw);
      SetStore(net, c.from, SetPeerInfo(fs, id, c.to, pi)).(
        calls := net.calls - {k},
        loops := if Delivery.Retried(r) && x in net.loops
                 then net.loops[x := net.loops[x].(queue := net.loops[x].queue + [id])] else net.loops)
    else net
  }

  function ApplyCall(w: World, net: Net, k: nat): Net
  {
    if k in net.calls && net.calls[k].phase.Calling? && net.calls[k].to in net.stores then
      var c := net.calls[k];
      var (fs, r) := ServePush(w, net.stores[c.to], net.clock, c.msg, c.offset);
      var phase := if r.Ok? then Streaming(r.value, 0, c.phase.inFlight, c.phase.ended)
                   else if r.error.Busy? then Calling([], false)   // retried, with the reader where it is
                   else if r.error.IncorrectOffset? then Asking
                   else Replied(Failed(r.error));
      SetCall(SetStore(net, c.to, fs), k, c.(phase := phase)).(
        slipped := net.slipped || (r.Ok? && Misaligned(c)))
    else net
  }

  function ApplyAsk(net: Net, k: nat): Net
  {
    if k in net.calls && net.calls[k].phase.Asking? && net.calls[k].to in net.stores then
      var c := net.calls[k];
      var r := Offset(net.stores[c.to], c.msg.signed.id);
      if r.Ok? then SetCall(net, k, c.(reader := r.value, offset := r.value, phase := Calling([], false)))
      else if r.error.Busy? then net
      else SetCall(net, k, c.(phase := Replied(Failed(r.error))))
    else net
  }

  function ApplySend(net: Net, k: nat, size: nat): Net
  {
    if Sends(net, k) && !net.calls[k].phase.ended && 0 < size <= 2048
       && net.calls[k].reader + size <= |net.calls[k].content| then
      var c := net.calls[k];
      SetCall(net, k, c.(reader := c.reader + size,
                         phase := c.phase.(inFlight := c.phase.inFlight + [c.content[c.reader..c.reader + size]])))
    else net
  }

  function ApplyReceive(net: Net, k: nat): Net
  {
    if Streams(net, k) && net.calls[k].phase.inFlight != []
       && net.calls[k].phase.w.pos <= |FileBytes(net.stores[net.calls[k].to], net.calls[k].phase.w.inode)| then
      var c := net.calls[k];
      var p := c.phase.inFlight[0];
      var (fs, wr) := Write(net.stores[c.to], c.phase.w, p);
      SetCall(SetStore(net, c.to, fs), k,
              c.(phase := c.phase.(w := wr, size := c.phase.size + |p|, inFlight := c.phase.inFlight[1..])))
    else net
  }

  /** An action that is not enabled changes nothing, so every sequence of actions is a run. */
  function Apply(w: World, net: Net, a: Action): Net
  {
    match a
    case Tick(now) => if net.clock <= now then net.(clock := now) else net
    case SelectPeers(n, peers) => ApplySelect(net, n, peers)
    case Inject(n, id) =>
      if n in net.stores && id in w.truth && id !in net.stores[n].dirs && id !in net.stores[n].busy
         && !w.truth[id].signed.Expired(net.clock) then
        var r := Transfer(w.sha, net.stores[n], Message([], SignedOf(w, id)), 0, [w.truth[id].content]);
        if r.Some? then Publish(Note(SetStore(net, n, r.value), n, id), n, Message([], SignedOf(w, id))) else net
      else net
    case SubLoop(n, to) => ApplySub(w, net, n, to)
    case DiffScan(n, to, order, has, broke) => ApplyScan(w, net, n, to, order, has, broke)
    case Pop(k, n, to, i) => ApplyPop(net, k, n, to, i)
    case CallPush(k) => ApplyCall(w, net, k)
    case AskOffset(k) => ApplyAsk(net, k)
    case SendPacket(k, size) => ApplySend(net, k, size)
    case EndStream(k) =>
      if Sends(net, k) && net.calls[k].reader >= |net.calls[k].content| then
        SetCall(net, k, net.calls[k].(phase := net.calls[k].phase.(ended := true)))
      else net
    case Receive(k) => ApplyReceive(net, k)
    case Finish(k) =>
      if Streams(net, k) && net.calls[k].phase.ended && net.calls[k].phase.inFlight == [] then
        ServeClose(w, net, k, false, true)
      else net
    case Interrupt(k, heard) =>
      if Streams(net, k) then
        ServeClose(w, net, k, net.calls[k].phase.size != net.calls[k].msg.signed.length, heard)
      else net
    case Fail(k) =>
      if k in net.calls && (net.calls[k].phase.Calling? || net.calls[k].phase.Asking?) then
        SetCall(net, k, net.calls[k].(phase := Replied(Broken)))
      else net
    case LoseReply(k) =>
      if k in net.calls && net.calls[k].phase.Replied? then
        SetCall(net, k, net.calls[k].(phase := Replied(Broken)))
      else net
    case Retry(k) =>
      if k in net.calls && net.calls[k].phase == Replied(Broken) then
        SetCall(net, k, net.calls[k].(phase := Calling([], false)))
      else net
    case Record(k, draw) => ApplyRecord(net, k, draw)
    case SweepStore(n) => if n in net.stores then SetStore(net, n, Sweep(net.stores[n], net.clock)) else net
  }

  function Run(w: World, net: Net, actions: seq<Action>): Net
    decreases actions
  {
    if actions == [] then net else Run(w, Apply(w, net, actions[0]), actions[1..])
  }

  function Init(nodes: set<Id>, clock: int): Net
  {
    Net(clock, map n | n in nodes :: EMPTY, map[], map[], {}, {}, {}, {}, false)
  }

  // ---------- The invariant ----------

  ghost predicate WorldOk(w: World)
  {
    StorageResume.TruthOk(w.sha, w.truth)
  }

  ghost predicate NoRepeats(hops: seq<Id>)
  {
    forall i, j :: 0 <= i < j < |hops| ==> hops[i] != hops[j]
  }

  /** The hops name nodes, each once, that have completed the message. */
  ghost predicate HopsDone(net: Net, id: MsgId, hops: seq<Id>)
  {
    NoRepeats(hops) && forall i :: 0 <= i < |hops| ==> hops[i] in net.stores && (hops[i], id) in net.completed
  }

  /** The hops of a copy at node n: a simple path that does not include n. */
  ghost predicate HopsOk(w: World, net: Net, n: Id, m: Message)
  {
    && HopsDone(net, m.signed.id, m.hops) && n !in m.hops && n in net.stores
    && (w.maxHops > 0 ==> |m.hops| <= w.maxHops)
  }

  /**
   * A directory holds the genuine record and, unless a push slipped, a prefix of the
   * content, all of it when complete.
   */
  ghost predicate CopyOk(w: World, fs: Fs, id: MsgId, exact: bool)
    requires id in fs.dirs
  {
    var d := fs.dirs[id];
    && id in w.truth && d.record.Stored? && d.record.msg.signed == w.truth[id].signed
    && d.content.Some? && d.content.value in fs.files
    && (exact ==> fs.files[d.content.value] <= w.truth[id].content)
    && (exact && d.done ==> fs.files[d.content.value] == w.truth[id].content)
  }

  ghost predicate StoreOk(w: World, fs: Fs, exact: bool)
  {
    FilesOk(fs) && forall id :: id in fs.dirs ==> CopyOk(w, fs, id, exact)
  }

  /** The only reasons to give up on a message: it expired, or hops are limited below the number of nodes. */
  ghost predicate GivenUp(w: World, net: Net, id: MsgId)
  {
    (id in w.truth && w.truth[id].signed.Expired(net.clock)) || 0 < w.maxHops < |net.stores|
  }

  /** Unless a push slipped: Sent names a node that completed the message, FatalError a message given up. */
  ghost predicate PeerFileOk(w: World, net: Net, id: MsgId, p: Id, pi: PeerInfo)
  {
    !net.slipped ==> (pi.sent ==> (p, id) in net.completed) && (pi.fatal ==> GivenUp(w, net, id))
  }

  /** What is recorded about a node's copies: their hops, and what became of them for each peer. */
  ghost predicate RecordsOk(w: World, net: Net, n: Id)
    requires n in net.stores
  {
    forall id :: id in net.stores[n].dirs ==>
      var d := net.stores[n].dirs[id];
      && d.record.Stored? && d.record.msg.signed.id == id && HopsOk(w, net, n, d.record.msg)
      && (forall p :: p in d.peers ==> PeerFileOk(w, net, id, p, d.peers[p]))
  }

  /** A completed message is complete until it expires. */
  ghost predicate CompletedOk(w: World, net: Net, n: Id)
    requires n in net.stores
  {
    && (forall id :: IsComplete(net.stores[n], id) ==> (n, id) in net.completed)
    && (forall id :: (n, id) in net.completed ==>
          id in w.truth && (IsComplete(net.stores[n], id) || w.truth[id].signed.Expired(net.clock)))
  }

  /** A stream: the lock is held, the file is the id's own, and its hash is over the whole file. */
  ghost predicate StreamOk(fs: Fs, c: Call)
    requires c.phase.Streaming?
  {
    var wr, id := c.phase.w, c.msg.signed.id;
    && wr.msg == c.msg && id in fs.busy
    && wr.inode in fs.files && wr.hashed == fs.files[wr.inode] && wr.pos == |wr.hashed|
    && (id in fs.dirs ==> fs.dirs[id].content == Some(wr.inode) && !fs.dirs[id].done)
    && (forall x :: x in fs.dirs && fs.dirs[x].content == Some(wr.inode) ==> x == id)
  }

  /** Unless a push slipped: what was read of the content is written or in flight, in order. */
  ghost predicate InStep(c: Call)
  {
    && c.offset <= c.reader <= |c.content|
    && (c.phase.Calling? ==>
          var sent := Joined(c.phase.inFlight);
          && |sent| <= c.reader - c.offset && sent == c.content[c.reader - |sent|..c.reader]
          && (c.phase.ended ==> c.reader == |c.content|))
    && (c.phase.Streaming? ==>
          var wr := c.phase.w;
          && wr.pos <= c.reader <= |c.content| && wr.hashed == c.content[..wr.pos]
          && Joined(c.phase.inFlight) == c.content[wr.pos..c.reader]
          && wr.pos == c.offset + c.phase.size
          && (c.phase.ended ==> c.reader == |c.content|))
  }

  /** Unless a push slipped: success means completion, and failure for good that the message is given up. */
  ghost predicate ReplyOk(w: World, net: Net, c: Call)
  {
    c.phase.Replied? ==>
      && (Delivery.Accepted(ResultOf(c.phase.reply)) ==> (c.to, c.msg.signed.id) in net.completed)
      && (!Delivery.Accepted(ResultOf(c.phase.reply)) && !Delivery.Retried(ResultOf(c.phase.reply)) ==>
            GivenUp(w, net, c.msg.signed.id))
  }

  /** A stream in the network: it is sound, is the first to complete its copy, and lost its directory only to expiry. */
  ghost predicate LiveOk(w: World, net: Net, c: Call)
    requires c.phase.Streaming? && c.to in net.stores && c.msg.signed.id in w.truth
  {
    var id := c.msg.signed.id;
    && StreamOk(net.stores[c.to], c) && (c.to, id) !in net.completed
    && (id in net.stores[c.to].dirs || w.truth[id].signed.Expired(net.clock))
  }

  ghost predicate CallOk(w: World, net: Net, c: Call)
  {
    var id := c.msg.signed.id;
    && c.from in net.stores && c.to in net.stores
    && id in w.truth && c.msg.signed == w.truth[id].signed
    && HopsDone(net, id, c.msg.hops) && (c.from, id) in net.completed
    && (c.phase.Streaming? ==> LiveOk(w, net, c) && HopsOk(w, net, c.to, c.msg))
    && (!net.slipped ==> c.content == w.truth[id].content && InStep(c) && ReplyOk(w, net, c))
  }

  /** Two streams into one store write different messages and different files. */
  ghost predicate StreamsApart(calls: map<nat, Call>)
  {
    forall j, k :: j in calls && k in calls && j != k && calls[j].phase.Streaming? && calls[k].phase.Streaming?
                   && calls[j].to == calls[k].to ==>
      calls[j].msg.signed.id != calls[k].msg.signed.id && calls[j].phase.w.inode != calls[k].phase.w.inode
  }

  /** What is published or refused, in terms of completions. */
  ghost predicate HistoryOk(w: World, net: Net)
  {
    && (forall x :: x in net.published ==>
          HopsOk(w, net, x.0, x.1) && (net.slipped || (x.0, x.1.signed.id) in net.completed))
    && (forall x :: x in net.refused ==> (x.2, x.1) in net.completed || 0 < w.maxHops < |net.stores|)
  }

  /** A subscription holds what its node published, a queue what it completed. */
  ghost predicate LoopOk(net: Net, x: (Id, Id))
    requires x in net.loops
  {
    && (forall m :: m in net.loops[x].inbox ==> (x.0, m) in net.published)
    && (forall id :: id in net.loops[x].queue ==> net.slipped || (x.0, id) in net.completed)
  }

  ghost predicate LoopsOk(net: Net)
  {
    forall x :: x in net.loops ==> LoopOk(net, x)
  }

  ghost predicate NodesOk(w: World, net: Net)
  {
    forall n :: n in net.stores ==>
      StoreOk(w, net.stores[n], !net.slipped) && RecordsOk(w, net, n) && CompletedOk(w, net, n)
  }

  ghost predicate CallsOk(w: World, net: Net)
  {
    StreamsApart(net.calls) && forall k :: k in net.calls ==> CallOk(w, net, net.calls[k])
  }

  ghost predicate Inv(w: World, net: Net)
  {
    WorldOk(w) && NodesOk(w, net) && CallsOk(w, net) && HistoryOk(w, net) && LoopsOk(net)
    && (forall x :: x in net.completed ==> x.0 in net.stores)
  }
}

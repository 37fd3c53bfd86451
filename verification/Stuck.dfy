/** A run after which a message never reaches one of three nodes, though nothing failed for good. */
module Stuck {
  import opened Order
  import opened Selection
  import opened Ring
  import opened Message
  import opened Storage
  import opened Diff
  import Backoff
  import opened Network
  import opened NetworkInv
  import opened Flooding
  import opened Accounting
  import opened Publication
  import opened Progress
  import opened Cuts

  const PAUSE := 5 * Backoff.MINUTE

  // ---------- A push that breaks ----------

  /** The stream broke: the receiver keeps what it wrote and frees the lock, and nothing is published. */
  ghost predicate Broken(net: Net, net': Net, k: nat)
  {
    && Streams(net, k) && net'.stores.Keys == net.stores.Keys
    && var c := net.calls[k];
    var id := c.msg.signed.id;
    && net' == net.(stores := net'.stores, calls := net.calls[k := c.(phase := Replied(Reply.Broken))],
                    completed := if AllReceived(net, k) then net.completed + {(c.to, id)} else net.completed)
    && (forall n :: n in net.stores && n != c.to ==> net'.stores[n] == net.stores[n])
    && SamePeerFiles(net.stores[c.to], net'.stores[c.to], id) && id !in net'.stores[c.to].busy
    && |ContentOf(net'.stores[c.to], id)| == c.phase.w.pos
  }

  /** The stream breaks before the receiver counted Length bytes of it. */
  lemma BreakOne(w: World, net: Net, k: nat)
    requires Inv(w, net) && !net.slipped && Linked(net, k) && net.calls[k].phase.size != net.calls[k].msg.signed.length
    ensures Broken(net, Apply(w, net, Interrupt(k, true)), k)
  {
    hide Inv, Close, HopsOk, HopsDone, StoreOk, RecordsOk, CompletedOk;
    StreamFacts(w, net, k);
    var c := net.calls[k];
    CloseExactly(w, net.stores[c.to], c);
    assert c.content[..|c.content|] == c.content;
    CloseFrees(w, net.stores[c.to], c.phase.w);
    CloseContent(w, net.stores[c.to], c);
    hide SamePeerFiles, InStep, CallOk, LiveOk, ContentOf;
  }

  lemma CloseContent(w: World, fs: Fs, c: Call)
    requires c.phase.Streaming? && StreamOk(fs, c) && InStep(c) && c.msg.signed.id in fs.dirs
    requires |c.content| == c.msg.signed.length && w.sha(c.content) == c.msg.signed.sha256
    ensures |ContentOf(Close(w.sha, fs, c.phase.w).0, c.msg.signed.id)| == c.phase.w.pos
  {
    assert c.content[..|c.content|] == c.content;
  }

  /** msgLoop puts a broken push back into the queue. */
  lemma RecordBroken(w: World, net: Net, k: nat, draw: nat)
    requires k in net.calls && net.calls[k].phase == Replied(Reply.Broken) && net.calls[k].from in net.stores
    requires net.calls[k].msg.signed.id in net.stores[net.calls[k].from].dirs
    requires (net.calls[k].from, net.calls[k].to) in net.loops
    ensures var net', c := Apply(w, net, Record(k, draw)), net.calls[k];
            var id, x := c.msg.signed.id, (c.from, c.to);
            var before, after := GetPeerInfo(net.stores[c.from], id, c.to), GetPeerInfo(net'.stores[c.from], id, c.to);
            && net' == net.(stores := net.stores[c.from := net'.stores[c.from]], calls := net.calls - {k},
                            loops := net.loops[x := net.loops[x].(queue := net.loops[x].queue + [id])])
            && after.sent == before.sent && after.fatal == before.fatal && after.nextAttempt <= net.clock + PAUSE
            && net'.stores[c.from].busy == net.stores[c.from].busy
            && (forall p :: p != c.to ==>
                  GetPeerInfo(net'.stores[c.from], id, p) == GetPeerInfo(net.stores[c.from], id, p))
  {
    hide Selection.Pow2;
  }

  /** Where things stand between two pushes of the message from n to its peer. */
  ghost predicate Between(w: World, net: Net, n: Id, to: Id, id: MsgId)
  {
    && Inv(w, net) && Unimpeded(w, net, id) && net.calls == map[] && n in net.stores && to in net.stores && n != to
    && (n, to) in net.loops && net.loops[(n, to)] == Loop(false, [], [id]) && (n, id) in net.completed
    && !GetPeerInfo(net.stores[n], id, to).sent
  }

  /** The message expires only after a while. */
  ghost predicate Lasts(w: World, id: MsgId, time: int)
  {
    id in w.truth && !w.truth[id].signed.Expired(time)
  }

  /** The receiver has opened the stream. */
  lemma OpenStream(w: World, net: Net, n: Id, to: Id, id: MsgId) returns (actions: seq<Action>)
    requires Between(w, net, n, to, id) && (to, id) !in net.completed
    ensures var net', x := Run(w, net, actions), (n, to);
            && Inv(w, net') && Linked(net', 0) && Begun(net', 0)
            && net' == Taken(net, x, 0).(stores := net'.stores, calls := net'.calls)
            && net'.calls.Keys == {0} && net'.calls[0].from == n
            && net'.calls[0].to == to && net'.calls[0].msg.signed.id == id
            && net'.calls[0].offset == |ContentOf(net.stores[to], id)|
            && net'.stores.Keys == net.stores.Keys
            && (forall m :: m in net.stores && m != to ==> net'.stores[m] == net.stores[m])
            && SamePeerFiles(net.stores[to], net'.stores[to], id)
  {
    hide Inv, Run, Apply, Unhindered, Due, SamePeerFiles, Travels, Welcome, GetPeerInfo, IsComplete, ContentOf;
    QueuedIsDue(w, net, n, to, id, 0);
    DueFacts(w, net, n, to, 0);
    var a := Pop(0, n, to, 0);
    var begun := Apply(w, net, a);
    BeginOne(w, net, 0, n, to, 0);
    ApplyKeeps(w, net, a);
    CompletedNow(w, net, to, id);
    WelcomeNode(w, begun, 0);
    var shake := Handshake(w, begun, 0);
    RunFirst(w, net, a, shake);
    actions := [a] + shake;
  }

  lemma WelcomeNode(w: World, net: Net, k: nat)
    requires Welcome(w, net, k)
    ensures k in net.calls && net.calls[k].to in net.stores
  {
  }

  /** A fresh stream has read and written nothing. */
  lemma FreshStream(w: World, net: Net, k: nat)
    requires Inv(w, net) && !net.slipped && Linked(net, k) && Begun(net, k) && net.calls[k].offset == 0
    ensures net.calls[k].reader == 0 && net.calls[k].phase.w.pos == 0
  {
    hide Inv;
    var c := net.calls[k];
    StreamFacts(w, net, k);
    hide HopsOk, HopsDone, StoreOk, RecordsOk, CompletedOk;
    assert |c.content[c.phase.w.pos..c.reader]| == 0;
  }

  /** One byte of it is sent. */
  lemma SendByte(w: World, net: Net, k: nat)
    requires Linked(net, k) && Begun(net, k) && net.calls[k].reader == 0 && |net.calls[k].content| >= 2
    ensures var net', c := Apply(w, net, SendPacket(k, 1)), net.calls[k];
            && Linked(net', k) && SamePush(net, net', k) && net'.stores == net.stores
            && net'.calls[k] == c.(reader := 1, phase := c.phase.(inFlight := [c.content[0..1]]))
  {
    assert [] + [net.calls[k].content[0..1]] == [net.calls[k].content[0..1]];
  }

  /** The byte is received. */
  lemma ReceiveByte(w: World, net: Net, k: nat)
    requires Inv(w, net) && !net.slipped && Linked(net, k) && |net.calls[k].phase.inFlight| == 1
    requires |net.calls[k].phase.inFlight[0]| == 1 && net.calls[k].phase.w.pos == 0 && net.calls[k].phase.size == 0
    ensures var net' := Apply(w, net, Receive(k));
            && k in net'.calls && net'.calls[k].phase.Streaming?
            && net'.calls[k].phase.size == 1 && net'.calls[k].phase.w.pos == 1
  {
    hide Inv;
    StreamFacts(w, net, k);
    hide HopsOk, HopsDone, StoreOk, RecordsOk, CompletedOk;
  }

  /** One byte of a fresh stream is sent and received. */
  lemma SendHalf(w: World, net: Net, k: nat)
    requires Inv(w, net) && !net.slipped && Linked(net, k) && Begun(net, k)
    requires net.calls[k].offset == 0 && |net.calls[k].content| >= 2
    ensures var net' := Run(w, net, [SendPacket(k, 1), Receive(k)]);
            && Inv(w, net') && Linked(net', k) && SamePush(net, net', k)
            && net'.calls[k].phase.w.pos == 1 && net'.calls[k].phase.size == 1
  {
    hide Inv, Run, Apply;
    FreshStream(w, net, k);
    SendByte(w, net, k);
    var net1 := Apply(w, net, SendPacket(k, 1));
    var net2 := Apply(w, net1, Receive(k));
    ApplyKeeps(w, net, SendPacket(k, 1));
    ApplyKeeps(w, net1, Receive(k));
    ReceiveOne(w, net1, k);
    ReceiveByte(w, net1, k);
    SamePushTwice(net, net1, net2, k);
    RunOne(w, net1, Receive(k));
    RunFirst(w, net, SendPacket(k, 1), [Receive(k)]);
    assert [SendPacket(k, 1)] + [Receive(k)] == [SendPacket(k, 1), Receive(k)];
  }

  /** All of the content is sent and received, and the stream is still open. */
  lemma SendWhole(w: World, net: Net, k: nat) returns (actions: seq<Action>)
    requires Inv(w, net) && !net.slipped && Linked(net, k) && Begun(net, k)
    ensures var net', c := Run(w, net, actions), net.calls[k];
            && Inv(w, net') && Linked(net', k) && SamePush(net, net', k) && SameStream(net, net', k)
            && AllReceived(net', k) && net'.calls[k].phase.size == c.msg.signed.length - c.offset
  {
    hide Inv, Run, Apply;
    ReaderInside(w, net, k);
    var read := ReadAll(w, net, k);
    var mid := Run(w, net, read);
    var receive := ReceiveAll(w, mid, k);
    var net' := Run(w, mid, receive);
    RunAppend(w, net, read, receive);
    SamePushTwice(net, mid, net', k);
    actions := read + receive;
    var c := net'.calls[k];
    StreamFacts(w, net', k);
    hide HopsOk, HopsDone, StoreOk, RecordsOk, CompletedOk;
    assert |c.content[c.phase.w.pos..c.reader]| == 0;
  }

  /** A push of the only entry of a queue broke, whatever the receiver kept. */
  ghost predicate Cut(net: Net, net': Net, n: Id, to: Id, id: MsgId)
  {
    && n in net.stores && to in net.stores && n != to && net'.stores.Keys == net.stores.Keys
    && (forall m :: m in net.stores && m != to ==> net'.stores[m] == net.stores[m])
    && SamePeerFiles(net.stores[to], net'.stores[to], id) && id !in net'.stores[to].busy && id in net.stores[n].dirs
    && net'.calls.Keys == {0} && net'.calls[0].from == n && net'.calls[0].to == to && net'.calls[0].msg.signed.id == id
    && net'.calls[0].phase == Replied(Reply.Broken) && net'.clock == net.clock
    && (n, to) in net.loops && net.loops[(n, to)] == Loop(false, [], [id]) && net'.loops == Taken(net, (n, to), 0).loops
  }

  /** The outcome of the push is on record, the message is back in the queue, and time has passed. */
  ghost predicate Resting(net: Net, net': Net, net'': Net, n: Id, to: Id, id: MsgId)
  {
    && net''.stores.Keys == net.stores.Keys && n in net''.stores && to in net''.stores && to in net'.stores
    && Unhindered(net'', id) && !GetPeerInfo(net''.stores[n], id, to).sent
    && net'' == net'.(clock := net.clock + PAUSE, stores := net''.stores, calls := map[], loops := net.loops)
    && net''.stores[to] == net'.stores[to]
  }

  lemma PutBack(net: Net, x: (Id, Id), id: MsgId)
    requires x in net.loops && net.loops[x] == Loop(false, [], [id])
    ensures var loops := Taken(net, x, 0).loops;
            loops[x := loops[x].(queue := loops[x].queue + [id])] == net.loops
  {
    var q := [id][..0] + [id][1..];
    assert q == [];
    assert q + [id] == [id];
    var loops := Taken(net, x, 0).loops;
    assert loops[x] == Loop(false, [], q);
    assert net.loops[x := Loop(false, [], q)][x := Loop(false, [], [id])] == net.loops[x := net.loops[x]] == net.loops;
  }

  /** After the break: the outcome goes on record, and time passes. */
  lemma AfterBreak(w: World, net: Net, net': Net, n: Id, to: Id, id: MsgId) returns (actions: seq<Action>)
    requires Inv(w, net') && Unhindered(net, id) && Cut(net, net', n, to, id)
    requires !GetPeerInfo(net.stores[n], id, to).sent
    ensures Inv(w, Run(w, net', actions)) && Resting(net, net', Run(w, net', actions), n, to, id)
  {
    hide Inv, Run, Unhindered, SamePeerFiles, GetPeerInfo;
    var mid := Apply(w, net', Record(0, 0));
    RecordBroken(w, net', 0, 0);
    ApplyKeeps(w, net', Record(0, 0));
    var later := Apply(w, mid, Tick(net.clock + PAUSE));
    ApplyKeeps(w, mid, Tick(net.clock + PAUSE));
    hide Apply;
    RunOne(w, mid, Tick(net.clock + PAUSE));
    RunFirst(w, net', Record(0, 0), [Tick(net.clock + PAUSE)]);
    actions := [Record(0, 0)] + [Tick(net.clock + PAUSE)];
    PutBack(net, (n, to), id);
    hide Taken;
    PausedUnhindered(net, net', later, n, to, id);
  }

  lemma PausedUnhindered(net: Net, net': Net, net'': Net, n: Id, to: Id, id: MsgId)
    requires Unhindered(net, id) && n in net.stores && to in net.stores && n != to
    requires net'.stores.Keys == net.stores.Keys
    requires (forall m :: m in net.stores && m != to ==> net'.stores[m] == net.stores[m])
    requires SamePeerFiles(net.stores[to], net'.stores[to], id) && id !in net'.stores[to].busy
    requires n in net''.stores && net''.stores == net'.stores[n := net''.stores[n]] && net''.clock == net.clock + PAUSE
    requires net''.stores[n].busy == net'.stores[n].busy
    requires forall p :: p != to ==> GetPeerInfo(net''.stores[n], id, p) == GetPeerInfo(net'.stores[n], id, p)
    requires var before, after := GetPeerInfo(net'.stores[n], id, to), GetPeerInfo(net''.stores[n], id, to);
             after.fatal == before.fatal && after.nextAttempt <= net.clock + PAUSE
    ensures Unhindered(net'', id)
  {
    hide GetPeerInfo;
    forall m, p | m in net''.stores
      ensures id !in net''.stores[m].busy
      ensures var pi := GetPeerInfo(net''.stores[m], id, p); !pi.fatal && pi.nextAttempt <= net''.clock
    {
      assert GetPeerInfo(net'.stores[m], id, p) == GetPeerInfo(net.stores[m], id, p);
      assert m != n ==> net''.stores[m] == net'.stores[m];
    }
  }

  /** A push of the message breaks: at the first attempt after one byte, or, resumed, after the last. */
  lemma BrokenPush(w: World, net: Net, n: Id, to: Id, id: MsgId, all: bool) returns (actions: seq<Action>)
    requires Between(w, net, n, to, id) && (to, id) !in net.completed && Lasts(w, id, net.clock + PAUSE)
    requires if all then |ContentOf(net.stores[to], id)| > 0
             else |ContentOf(net.stores[to], id)| == 0 && |w.truth[id].content| >= 2
    ensures var net' := Run(w, net, actions);
            && Between(w, net', n, to, id) && net'.clock == net.clock + PAUSE && net'.loops == net.loops
            && net'.published == net.published && net'.missed == net.missed && net'.stores.Keys == net.stores.Keys
            && net'.completed == (if all then net.completed + {(to, id)} else net.completed)
            && (!all ==> |ContentOf(net'.stores[to], id)| == 1)
  {
    hide Inv, Run, Apply, Unhindered, SamePeerFiles, Travels, GetPeerInfo, IsComplete, ContentOf;
    var open := OpenStream(w, net, n, to, id);
    var net1 := Run(w, net, open);
    var c := net1.calls[0];
    assert c.content == w.truth[id].content && |c.content| == c.msg.signed.length by {
      StreamFacts(w, net1, 0);
      hide HopsOk, HopsDone, StoreOk, RecordsOk, CompletedOk, LiveOk;
    }
    var stream;
    if all {
      stream := SendWhole(w, net1, 0);
    } else {
      stream := [SendPacket(0, 1), Receive(0)];
      SendHalf(w, net1, 0);
    }
    var net2 := Run(w, net1, stream);
    RunAppend(w, net, open, stream);
    BreakOne(w, net2, 0);
    var net3 := Apply(w, net2, Interrupt(0, true));
    ApplyKeeps(w, net2, Interrupt(0, true));
    RunOne(w, net2, Interrupt(0, true));
    RunAppend(w, net, open + stream, [Interrupt(0, true)]);
    PeerFilesTwice(net.stores[to], net1.stores[to], net2.stores[to], net3.stores[to], id);
    AuthorHas(w, net, n, id);
    var rest := AfterBreak(w, net, net3, n, to, id);
    RunAppend(w, net, open + stream + [Interrupt(0, true)], rest);
    actions := open + stream + [Interrupt(0, true)] + rest;
    StillTravels(w, net, Run(w, net, actions), id);
  }

  lemma PeerFilesTwice(fs0: Fs, fs1: Fs, fs2: Fs, fs3: Fs, id: MsgId)
    requires SamePeerFiles(fs0, fs1, id) && SamePeerFiles(fs1, fs2, id) && SamePeerFiles(fs2, fs3, id)
    ensures SamePeerFiles(fs0, fs3, id)
  {
  }

  lemma AuthorHas(w: World, net: Net, n: Id, id: MsgId)
    requires Inv(w, net) && Travels(w, net, id) && n in net.stores && (n, id) in net.completed
    ensures id in net.stores[n].dirs
  {
    hide Inv;
    Readable(w, net, n, id);
  }

  lemma StillTravels(w: World, net: Net, net': Net, id: MsgId)
    requires Travels(w, net, id) && net'.stores.Keys == net.stores.Keys && Lasts(w, id, net'.clock)
    ensures Travels(w, net', id)
  {
    assert |net'.stores.Keys| == |net.stores.Keys|;
  }

  // ---------- Three nodes ----------

  const QUIET := Loop(false, [], [])

  /** A node of a ring of three talks to the next. */
  lemma NextActive(ring: seq<Id>, r: nat)
    requires Ascending(ring) && |ring| == 3 && r < 3
    ensures Edge(ring, {}, 1, r, At(r, 1, 3))
  {
    hide Edge, Ascending;
    var d := FirstPick(ring, {}, 1, r, At(r, 1, 3));
    var next := ring[At(r, 1, 3)];
    assert d <= 1;
  }

  lemma OnlyOne(s: set<Id>, x: Id)
    requires x in s && |s| == 1
    ensures s == {x}
  {
    assert |s - {x}| == 0;
  }

  /** With room for one peer, it talks to no other. */
  lemma NextOnly(ring: seq<Id>, r: nat)
    requires Ascending(ring) && |ring| == 3 && r < 3
    ensures ActiveIds(ring[r], Others(ring, r), {}, 1) == {ring[At(r, 1, 3)]}
  {
    NextActive(ring, r);
    hide ActiveIds, Ascending, Position, Others;
    var peers := Elements(ring) - {ring[r]};
    OthersSorting(ring, r);
    SortingLength(Others(ring, r), peers);
    ActiveContract(ring[r], Others(ring, r), peers, {}, 1);
    OnlyOne(ActiveIds(ring[r], Others(ring, r), {}, 1), ring[At(r, 1, 3)]);
  }

  /** An empty node starts its only peer, whose Diff finds nothing. */
  lemma StartPeer(w: World, net: Net, n: Id, p: Id)
    requires n in net.stores && n != p && net.stores[n] == EMPTY && net.calls == map[] && net.missed == {}
    requires forall x :: x in net.loops ==> x.0 != n
    ensures Run(w, net, [SelectPeers(n, {p}), DiffScan(n, p, [], {}, None)])
            == net.(loops := net.loops[(n, p) := QUIET])
  {
    var net1 := Apply(w, net, SelectPeers(n, {p}));
    assert net1 == net.(loops := net.loops[(n, p) := Loop(true, [], [])]);
    var net2 := Apply(w, net1, DiffScan(n, p, [], {}, None));
    assert net2 == net.(loops := net.loops[(n, p) := QUIET]) by {
      EmptyScan(w, net1, n, p);
      assert net1.loops[(n, p) := QUIET] == net.loops[(n, p) := QUIET];
    }
    hide Apply;
    RunOne(w, net1, DiffScan(n, p, [], {}, None));
    RunFirst(w, net, SelectPeers(n, {p}), [DiffScan(n, p, [], {}, None)]);
    assert [SelectPeers(n, {p})] + [DiffScan(n, p, [], {}, None)]
        == [SelectPeers(n, {p}), DiffScan(n, p, [], {}, None)];
  }

  /** A Diff of an empty store deals with nothing. */
  lemma EmptyDeal(c: Setting)
    ensures DealtWith(c, [], None) == 0 && UpTo(c, [], 0) == Progress(c.infos, [])
  {
  }

  lemma EmptyStore(p: Id)
    ensures Listing(EMPTY, 0, []) && InfosOf(EMPTY, p) == map[] && StoreInfos(EMPTY, p, map[]) == EMPTY
    ensures forall clock :: Listing(EMPTY, clock, [])
  {
  }

  lemma EmptyScan(w: World, net: Net, n: Id, p: Id)
    requires n in net.stores && net.stores[n] == EMPTY && (n, p) in net.loops && net.loops[(n, p)] == Loop(true, [], [])
    ensures Apply(w, net, DiffScan(n, p, [], {}, None)) == net.(loops := net.loops[(n, p) := QUIET])
  {
    var c := SettingOf(w, net, n, p, {});
    EmptyDeal(c);
    EmptyStore(p);
    hide UpTo, StopAt, StoreInfos, InfosOf, DealtWith, Listing;
    assert Manifest(EMPTY, []) == [];
    assert net.stores[n := EMPTY] == net.stores;
    var net' := ApplyScan(w, net, n, p, [], {}, None);
    assert net'.loops[(n, p)].queue == [];
    assert net'.refused == net.refused && net'.missed == net.missed;
  }

  /** Three empty nodes, each with the next as its started peer. */
  ghost function Triangle(ring: seq<Id>, clock: int): Net
    requires |ring| == 3
  {
    var a, b, c := ring[0], ring[1], ring[2];
    Init(Elements(ring), clock).(loops := map[(a, b) := QUIET, (b, c) := QUIET, (c, a) := QUIET])
  }

  lemma Build(w: World, ring: seq<Id>, clock: int) returns (actions: seq<Action>)
    requires Ascending(ring) && |ring| == 3
    ensures Run(w, Init(Elements(ring), clock), actions) == Triangle(ring, clock)
  {
    hide Run, Apply;
    var a, b, c := ring[0], ring[1], ring[2];
    AllDistinct(ring);
    var net0 := Init(Elements(ring), clock);
    var one := [SelectPeers(a, {b}), DiffScan(a, b, [], {}, None)];
    var two := [SelectPeers(b, {c}), DiffScan(b, c, [], {}, None)];
    var three := [SelectPeers(c, {a}), DiffScan(c, a, [], {}, None)];
    StartPeer(w, net0, a, b);
    var net1 := Run(w, net0, one);
    StartPeer(w, net1, b, c);
    var net2 := Run(w, net1, two);
    StartPeer(w, net2, c, a);
    RunAppend(w, net0, one, two);
    RunAppend(w, net0, one + two, three);
    actions := one + two + three;
  }

  lemma PublishFirst(net: Net, a: Id, b: Id, m: Message)
    requires (a, b) in net.loops && net.loops[(a, b)] == QUIET && forall x :: x in net.loops && x.0 == a ==> x == (a, b)
    ensures Publish(net, a, m).loops == net.loops[(a, b) := Loop(false, [m], [])]
  {
    assert QUIET.(inbox := QUIET.inbox + [m]) == Loop(false, [m], []);
  }

  /** Reading the subscription queues a message without hops. */
  lemma SubFirst(w: World, net: Net, a: Id, b: Id, m: Message)
    requires (a, b) in net.loops && net.loops[(a, b)] == Loop(false, [m], []) && m.hops == [] && w.maxHops <= 0
    ensures Apply(w, net, SubLoop(a, b)) == net.(loops := net.loops[(a, b) := Loop(false, [], [m.signed.id])])
  {
    assert [m][1..] == [];
    assert [] + [m.signed.id] == [m.signed.id];
  }

  ghost predicate Authored(w: World, net: Net, ring: seq<Id>, clock: int, id: MsgId)
    requires |ring| == 3 && id in w.truth
  {
    && net.clock == clock && net.stores.Keys == Elements(ring) && ring[0] in net.stores
    && net.loops == Triangle(ring, clock).loops[(ring[0], ring[1]) := Loop(false, [], [id])]
    && net.completed == {(ring[0], id)} && net.published == {(ring[0], Message([], w.truth[id].signed))}
    && net.calls == map[] && !net.slipped && net.missed == {}
    && (forall n :: n in net.stores && n != ring[0] ==> net.stores[n] == EMPTY)
    && net.stores[ring[0]].busy == {} && (forall p :: GetPeerInfo(net.stores[ring[0]], id, p) == NO_PEER_INFO)
  }

  /** The first node authors the message and queues it for its peer. */
  lemma Author(w: World, ring: seq<Id>, clock: int, id: MsgId) returns (actions: seq<Action>)
    requires WorldOk(w) && Ascending(ring) && |ring| == 3 && w.maxHops <= 0 && Lasts(w, id, clock) && clock >= 0
    ensures Authored(w, Run(w, Triangle(ring, clock), actions), ring, clock, id)
  {
    hide Run, Apply;
    var a, b := ring[0], ring[1];
    var net0 := Triangle(ring, clock);
    AllDistinct(ring);
    assert a in Elements(ring);
    InjectShape(w, net0, a, id);
    var net1 := Apply(w, net0, Inject(a, id));
    var m := Message([], w.truth[id].signed);
    PublishFirst(net0.(stores := net1.stores, completed := net0.completed + {(a, id)}), a, b, m);
    assert net1.loops == net0.loops[(a, b) := Loop(false, [m], [])];
    SubFirst(w, net1, a, b, m);
    assert net1.loops[(a, b) := Loop(false, [], [id])] == net0.loops[(a, b) := Loop(false, [], [id])];
    RunOne(w, net1, SubLoop(a, b));
    RunFirst(w, net0, Inject(a, id), [SubLoop(a, b)]);
    actions := [Inject(a, id)] + [SubLoop(a, b)];
  }

  lemma AuthorBetween(w: World, net: Net, ring: seq<Id>, clock: int, id: MsgId)
    requires Inv(w, net) && Ascending(ring) && |ring| == 3 && Lasts(w, id, clock) && Authored(w, net, ring, clock, id)
    requires clock >= 0 && w.maxHops <= 0
    ensures Between(w, net, ring[0], ring[1], id) && (ring[1], id) !in net.completed && ring[1] in net.stores
    ensures |ContentOf(net.stores[ring[1]], id)| == 0
  {
    hide Inv;
    AllDistinct(ring);
    assert ring[1] in Elements(ring);
  }

  /** The message is with two nodes, and nobody is to push it any further. */
  ghost predicate Over(w: World, net: Net, ring: seq<Id>, id: MsgId)
    requires |ring| == 3 && id in w.truth
  {
    && net.stores.Keys == Elements(ring) && net.loops == Triangle(ring, 0).loops && net.missed == {}
    && net.completed == {(ring[0], id), (ring[1], id)} && net.published == {(ring[0], Message([], w.truth[id].signed))}
    && Unimpeded(w, net, id) && net.calls == map[]
  }

  lemma SeenDue(w: World, net: Net, n: Id, to: Id, id: MsgId)
    requires Between(w, net, n, to, id)
    ensures Due(w, net, n, to, 0)
  {
    hide Inv;
    Readable(w, net, n, id);
    NodeFacts(w, net, n);
    hide CompletedOk, StoreOk;
    HopsShort(w, net, n, net.stores[n].dirs[id].record.msg);
  }

  lemma BreakTwice(w: World, net: Net, ring: seq<Id>, clock: int, id: MsgId) returns (actions: seq<Action>)
    requires Inv(w, net) && Ascending(ring) && |ring| == 3 && id in w.truth && Authored(w, net, ring, clock, id)
    requires clock >= 0 && w.maxHops <= 0 && Lasts(w, id, clock + 2 * PAUSE) && |w.truth[id].content| >= 2
    ensures Over(w, Run(w, net, actions), ring, id)
  {
    hide Inv, Run, Unhindered, GetPeerInfo, ContentOf, Due, Travels;
    var a, b := ring[0], ring[1];
    assert Lasts(w, id, clock) && Lasts(w, id, clock + PAUSE);
    AuthorBetween(w, net, ring, clock, id);
    var first := BrokenPush(w, net, a, b, id, false);
    var net1 := Run(w, net, first);
    var second := BrokenPush(w, net1, a, b, id, true);
    var net2 := Run(w, net1, second);
    SeenDue(w, net2, a, b, id);
    DueFacts(w, net2, a, b, 0);
    var third := PushDelivers(w, net2, 0, a, b, 0, 0);
    var net3 := Run(w, net2, third);
    RunAppend(w, net, first, second);
    RunAppend(w, net, first + second, third);
    actions := first + second + third;
    assert (b, id) in net2.completed;
    assert [id][..0] + [id][1..] == [];
    assert net3.loops == Triangle(ring, 0).loops;
    assert |net3.stores.Keys| == |net2.stores.Keys|;
    TravelsSame(w, net2, net3, id);
  }

  lemma TriangleViews(w: World, net: Net, ring: seq<Id>, id: MsgId)
    requires Ascending(ring) && |ring| == 3 && id in w.truth && Over(w, net, ring, id)
    ensures FullViews(net, ring, {}, 1)
  {
    hide ActiveIds, Unimpeded, Ascending, ActivePeers, At, Others;
    forall r | 0 <= r < 3
      ensures ActivePeers(net, ring[r]) == ActiveIds(ring[r], Others(ring, r), {}, 1)
    {
      NextOnly(ring, r);
      TrianglePeers(net, ring, r);
    }
  }

  lemma TrianglePeers(net: Net, ring: seq<Id>, r: nat)
    requires Ascending(ring) && |ring| == 3 && r < 3 && net.loops == Triangle(ring, 0).loops
    ensures ActivePeers(net, ring[r]) == {ring[At(r, 1, 3)]}
  {
    AllDistinct(ring);
    hide Ascending;
    assert (ring[r], ring[At(r, 1, 3)]) in net.loops;
    assert forall x :: x in net.loops && x.0 == ring[r] ==> x.1 == ring[At(r, 1, 3)];
  }

  /** The first two nodes are a closed set. */
  lemma CutOff(w: World, net: Net, ring: seq<Id>, id: MsgId)
    requires Inv(w, net) && Ascending(ring) && |ring| == 3 && id in w.truth && Over(w, net, ring, id)
    ensures (ring[2], id) !in net.completed && !Published(net, ring[1], id) && !CanReach(w, net, id, {ring[2]})
  {
    hide Inv, CanReach;
    AllDistinct(ring);
    var s := {ring[0], ring[1]};
    assert !UnderWay(net, ring[1], id, ring[2]);
    assert Closed(net, id, s);
    assert ring[2] in Elements(ring) && ring[2] !in s;
    hide Unimpeded;
    FloodsIff(w, net, id, {ring[2]});
  }

  /**
   * A ring of three with one active peer each. The first node authors a message;
   * its push breaks half way, the resumed push breaks after the last byte, and
   * the third is answered with AlreadySeen. Then nothing hinders the message, no
   * mark says that anything failed, and yet no run in which peers are not
   * restarted brings it to the third node.
   */
  lemma StuckRun(w: World, ring: seq<Id>, clock: int, id: MsgId) returns (actions: seq<Action>)
    requires WorldOk(w) && Ascending(ring) && |ring| == 3 && w.maxHops <= 0
    requires id in w.truth && |w.truth[id].content| >= 2 && clock >= 0 && Lasts(w, id, clock + 2 * PAUSE)
    ensures var net := Run(w, Init(Elements(ring), clock), actions);
            && FullViews(net, ring, {}, 1) && Unimpeded(w, net, id) && net.missed == {} && net.calls == map[]
            && (ring[0], id) in net.completed && (ring[1], id) in net.completed && (ring[2], id) !in net.completed
            && !Published(net, ring[1], id) && !CanReach(w, net, id, {ring[2]})
  {
    hide Run, Inv;
    var net0 := Init(Elements(ring), clock);
    var build := Build(w, ring, clock);
    var author := Author(w, ring, clock, id);
    var net1 := Run(w, Triangle(ring, clock), author);
    RunAppend(w, net0, build, author);
    Flooding.Reachable(w, Elements(ring), clock, build + author);
    var more := BreakTwice(w, net1, ring, clock, id);
    var net := Run(w, net1, more);
    RunAppend(w, net0, build + author, more);
    actions := build + author + more;
    Flooding.Reachable(w, Elements(ring), clock, actions);
    TriangleViews(w, net, ring, id);
    CutOff(w, net, ring, id);
  }
}

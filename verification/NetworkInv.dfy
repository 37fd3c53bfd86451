/** Every step of the network keeps its invariant. */
module NetworkInv {
  import opened Order
  import opened Message
  import opened Storage
  import opened Diff
  import Delivery
  import Queue
  import opened Network
  import Calendar

  // ---------- What may change without harm ----------

  /** The same nodes, at the same time or later, with nothing undone. */
  ghost predicate Grows(net: Net, net': Net)
  {
    && net'.stores.Keys == net.stores.Keys && |net'.stores| == |net.stores|
    && net.completed <= net'.completed && net.clock <= net'.clock && (net.slipped ==> net'.slipped)
  }

  lemma HopsGrow(w: World, net: Net, net': Net, n: Id, m: Message)
    requires Grows(net, net')
    ensures HopsDone(net, m.signed.id, m.hops) ==> HopsDone(net', m.signed.id, m.hops)
    ensures HopsOk(w, net, n, m) ==> HopsOk(w, net', n, m)
  {
  }

  /** A node's records stay good; its peer files may have changed within bounds. */
  lemma RecordsGrow(w: World, net: Net, net': Net, n: Id)
    requires Grows(net, net') && n in net.stores && RecordsOk(w, net, n)
    requires var ds, ds' := net.stores[n].dirs, net'.stores[n].dirs;
             forall id :: id in ds' ==>
               && id in ds && ds'[id].record == ds[id].record
               && forall p :: p in ds'[id].peers ==>
                    || (p in ds[id].peers && ds'[id].peers[p] == ds[id].peers[p])
                    || PeerFileOk(w, net', id, p, ds'[id].peers[p])
    ensures RecordsOk(w, net', n)
  {
    hide HopsOk;
    forall id | id in net'.stores[n].dirs
      ensures HopsOk(w, net', n, net.stores[n].dirs[id].record.msg)
    {
      HopsGrow(w, net, net', n, net.stores[n].dirs[id].record.msg);
    }
  }

  /** Only node q's store changes, and only q may complete a message: `id`. */
  ghost predicate OnlyNode(net: Net, net': Net, q: Id, id: MsgId)
  {
    && q in net.stores && Grows(net, net') && net'.clock == net.clock && net'.slipped == net.slipped
    && (forall n :: n in net.stores && n != q ==> net'.stores[n] == net.stores[n])
    && (forall x :: x in net'.completed && x !in net.completed ==> x == (q, id))
  }

  lemma NodesStep(w: World, net: Net, net': Net, q: Id, id: MsgId)
    requires NodesOk(w, net) && OnlyNode(net, net', q, id)
    requires StoreOk(w, net'.stores[q], !net'.slipped) && RecordsOk(w, net', q) && CompletedOk(w, net', q)
    ensures NodesOk(w, net')
  {
    hide StoreOk;
    forall n | n in net'.stores && n != q
      ensures StoreOk(w, net'.stores[n], !net'.slipped) && RecordsOk(w, net', n) && CompletedOk(w, net', n)
    {
      RecordsGrow(w, net, net', n);
      hide RecordsOk;
    }
  }

  lemma HistoryStep(w: World, net: Net, net': Net)
    requires HistoryOk(w, net) && Grows(net, net')
    requires forall x :: x in net'.published && x !in net.published ==>
               HopsOk(w, net', x.0, x.1) && (net'.slipped || (x.0, x.1.signed.id) in net'.completed)
    requires forall x :: x in net'.refused && x !in net.refused ==>
               (x.2, x.1) in net'.completed || 0 < w.maxHops < |net.stores|
    ensures HistoryOk(w, net')
  {
    hide HopsOk;
    forall x | x in net.published
      ensures HopsOk(w, net', x.0, x.1)
    {
      HopsGrow(w, net, net', x.0, x.1);
    }
  }

  lemma LoopsStep(net: Net, net': Net)
    requires LoopsOk(net) && Grows(net, net') && net.published <= net'.published
    requires forall x, m :: x in net'.loops && m in net'.loops[x].inbox ==>
               (x in net.loops && m in net.loops[x].inbox) || (x.0, m) in net'.published
    requires forall x, id :: x in net'.loops && id in net'.loops[x].queue ==>
               (x in net.loops && id in net.loops[x].queue) || net'.slipped || (x.0, id) in net'.completed
    ensures LoopsOk(net')
  {
    forall x | x in net'.loops
      ensures LoopOk(net', x)
    {
      if x in net.loops {
        assert LoopOk(net, x);
      }
    }
  }

  /** Nothing changed in the loops, or a message was published. */
  lemma LoopsSame(net: Net, net': Net, n: Id, m: Message)
    requires LoopsOk(net) && Grows(net, net') && net.published <= net'.published
    requires net'.loops == net.loops || (net'.loops == Publish(net, n, m).loops && (n, m) in net'.published)
    ensures LoopsOk(net')
  {
    LoopsStep(net, net');
  }

  /** A call whose receiver's store did not change under it. */
  lemma CallGrow(w: World, net: Net, net': Net, c: Call)
    requires CallOk(w, net, c) && Grows(net, net')
    requires c.phase.Streaming? ==> LiveOk(w, net', c)
    ensures CallOk(w, net', c)
  {
    hide HopsOk, HopsDone, LiveOk, InStep;
    HopsGrow(w, net, net', c.to, c.msg);
  }

  /** Streams into node q other than k's survive, and call k is replaced. */
  lemma CallsStep(w: World, net: Net, net': Net, q: Id, id: MsgId, k: nat)
    requires CallsOk(w, net) && OnlyNode(net, net', q, id)
    requires forall j :: j in net'.calls && j != k ==> j in net.calls && net'.calls[j] == net.calls[j]
    requires forall j :: j in net'.calls && j != k && net.calls[j].phase.Streaming? && net.calls[j].to == q ==>
               net.calls[j].msg.signed.id in w.truth && LiveOk(w, net', net.calls[j])
    requires k in net'.calls ==> CallOk(w, net', net'.calls[k])
    requires k in net'.calls && net'.calls[k].phase.Streaming? ==>
               forall j :: j in net'.calls && j != k && net.calls[j].phase.Streaming?
                           && net.calls[j].to == net'.calls[k].to ==>
                 net.calls[j].msg.signed.id != net'.calls[k].msg.signed.id
                 && net.calls[j].phase.w.inode != net'.calls[k].phase.w.inode
    ensures CallsOk(w, net')
  {
    hide CallOk, LiveOk;
    forall j | j in net'.calls && j != k
      ensures CallOk(w, net', net'.calls[j])
    {
      var c := net.calls[j];
      assert CallOk(w, net, c);
      StreamOf(w, net, j);
      if c.phase.Streaming? && c.to != q {
        Elsewhere(w, net, net', q, id, c);
      }
      CallGrow(w, net, net', c);
    }
  }

  lemma Elsewhere(w: World, net: Net, net': Net, q: Id, id: MsgId, c: Call)
    requires OnlyNode(net, net', q, id) && c.phase.Streaming? && c.to in net.stores && c.msg.signed.id in w.truth
    requires LiveOk(w, net, c) && c.to != q
    ensures LiveOk(w, net', c)
  {
    hide StreamOk;
  }

  lemma StreamOf(w: World, net: Net, k: nat)
    requires CallsOk(w, net) && k in net.calls
    ensures net.calls[k].to in net.stores && net.calls[k].from in net.stores && net.calls[k].msg.signed.id in w.truth
    ensures net.calls[k].phase.Streaming? ==> LiveOk(w, net, net.calls[k])
  {
    assert CallOk(w, net, net.calls[k]);
  }

  /** The rest of the invariant follows once nodes, calls, history and loops are settled. */
  lemma Together(w: World, net: Net, net': Net)
    requires Inv(w, net) && NodesOk(w, net') && CallsOk(w, net') && HistoryOk(w, net') && LoopsOk(net')
    requires net'.stores.Keys == net.stores.Keys
    requires forall x :: x in net'.completed && x !in net.completed ==> x.0 in net.stores
    ensures Inv(w, net')
  {
    hide WorldOk, NodesOk, CallsOk, HistoryOk, LoopsOk;
  }

  // ---------- One store changes for one message ----------

  /** fs' differs from fs only for `id`, whose content file is j; other files are as they were. */
  ghost predicate Touches(fs: Fs, fs': Fs, id: MsgId, j: nat)
  {
    && (forall x :: x in fs'.dirs && x != id ==> x in fs.dirs && fs'.dirs[x] == fs.dirs[x])
    && (forall x :: x in fs.dirs && x != id ==> x in fs'.dirs)
    && (forall x :: x in fs.busy && x != id ==> x in fs'.busy)
    && (forall i :: i in fs.files && i != j ==> i in fs'.files && fs'.files[i] == fs.files[i])
    && (id in fs'.dirs ==> fs'.dirs[id].content == Some(j))
    && fs.next <= fs'.next && (forall i :: i in fs'.files ==> i in fs.files || i == j)
    && (j in fs'.files ==> j < fs'.next)
    && (forall x :: x in fs.dirs && x != id ==> fs.dirs[x].content != Some(j))
  }

  lemma OtherStream(w: World, net: Net, net': Net, q: Id, id: MsgId, j: nat, c: Call)
    requires OnlyNode(net, net', q, id) && Touches(net.stores[q], net'.stores[q], id, j)
    requires c.phase.Streaming? && c.to == q && c.msg.signed.id in w.truth && LiveOk(w, net, c)
    requires c.msg.signed.id != id && c.phase.w.inode != j
    ensures LiveOk(w, net', c)
  {
  }

  /** The other copies of a store are as they were. */
  lemma StoreStep(w: World, fs: Fs, fs': Fs, id: MsgId, j: nat, exact: bool)
    requires StoreOk(w, fs, exact) && Touches(fs, fs', id, j) && (id in fs'.dirs ==> CopyOk(w, fs', id, exact))
    ensures StoreOk(w, fs', exact)
  {
    forall x | x in fs'.dirs && x != id
      ensures CopyOk(w, fs', x, exact)
    {
      assert CopyOk(w, fs, x, exact);
    }
    forall x, y | x in fs'.dirs && y in fs'.dirs && fs'.dirs[x].content == fs'.dirs[y].content
      ensures x == y
    {
      if x != id && y != id {
        assert fs.dirs[x].content == fs.dirs[y].content;
      }
    }
  }

  lemma Parts(w: World, net: Net)
    requires Inv(w, net)
    ensures WorldOk(w) && NodesOk(w, net) && CallsOk(w, net) && HistoryOk(w, net) && LoopsOk(net)
  {
    hide WorldOk, NodesOk, CallsOk, HistoryOk, LoopsOk;
  }

  /** What the invariant says about one node. */
  lemma NodeFacts(w: World, net: Net, n: Id)
    requires Inv(w, net) && n in net.stores
    ensures StoreOk(w, net.stores[n], !net.slipped) && RecordsOk(w, net, n) && CompletedOk(w, net, n)
  {
    hide WorldOk, CallsOk, HistoryOk, LoopsOk, StoreOk, RecordsOk, CompletedOk;
  }

  /** What the invariant says about one call. */
  lemma CallFacts(w: World, net: Net, k: nat)
    requires Inv(w, net) && k in net.calls
    ensures CallOk(w, net, net.calls[k])
  {
    hide WorldOk, NodesOk, HistoryOk, LoopsOk, CallOk;
  }

  // ---------- CallPush ----------

  /** The store after the record and the content file of a message exist. */
  function Opened(fs: Fs, msg: Message): Fs
  {
    if msg.signed.id in fs.dirs then fs
    else Fs(fs.dirs[msg.signed.id := Dir(Stored(msg), Some(fs.next), false, map[])], fs.files[fs.next := []],
            fs.next + 1, fs.busy)
  }

  lemma OpenResult(w: World, fs: Fs, msg: Message, offset: nat, exact: bool)
    requires msg.signed.id in fs.dirs ==> CopyOk(w, fs, msg.signed.id, exact)
    requires msg.signed.id in w.truth && msg.signed == w.truth[msg.signed.id].signed
    requires msg.signed.id !in fs.busy && !IsComplete(fs, msg.signed.id)
    ensures var (fs', r) := OpenWrite(w.sha, fs, msg, offset);
            var fs1, id := Opened(fs, msg), msg.signed.id;
            && id in fs1.dirs && fs1.dirs[id].content.Some?
            && var j := fs1.dirs[id].content.value;
            && j in fs1.files
            && if |fs1.files[j]| == offset then fs' == Lock(fs1, id) && r == Ok(Writer(msg, j, offset, fs1.files[j]))
               else fs' == fs1 && r == Err(IncorrectOffset(|fs1.files[j]|))
  {
    hide Preimage;
  }

  lemma OpenedTouches(w: World, fs: Fs, msg: Message, busy: set<MsgId>, exact: bool)
    requires StoreOk(w, fs, exact) && msg.signed.id in w.truth && msg.signed == w.truth[msg.signed.id].signed
    requires fs.busy <= busy
    ensures var fs', id := Opened(fs, msg).(busy := busy), msg.signed.id;
            && id in fs'.dirs && fs'.dirs[id].content.Some?
            && Touches(fs, fs', id, fs'.dirs[id].content.value) && CopyOk(w, fs', id, exact)
            && fs'.dirs == fs.dirs[id := fs'.dirs[id]]
            && fs'.dirs[id] == (if id in fs.dirs then fs.dirs[id]
                                else Dir(Stored(msg), fs'.dirs[id].content, false, map[]))
            && (fs'.dirs[id].content.value in fs.files ==> id in fs.dirs && fs.dirs[id].content == fs'.dirs[id].content)
  {
    if msg.signed.id in fs.dirs {
      assert CopyOk(w, fs, msg.signed.id, exact);
    }
    forall x | x in fs.dirs
      ensures fs.dirs[x].content != Some(fs.next)
    {
      assert CopyOk(w, fs, x, exact);
    }
  }

  /** What OpenWrite does for a genuine message that is neither locked nor complete. */
  lemma OpenEffect(w: World, fs: Fs, msg: Message, offset: nat, exact: bool)
    requires StoreOk(w, fs, exact) && msg.signed.id in w.truth && msg.signed == w.truth[msg.signed.id].signed
    requires msg.signed.id !in fs.busy && !IsComplete(fs, msg.signed.id)
    ensures var (fs', r) := OpenWrite(w.sha, fs, msg, offset);
            var id := msg.signed.id;
            && id in fs'.dirs && fs'.dirs[id].content.Some?
            && var j := fs'.dirs[id].content.value;
            && Touches(fs, fs', id, j) && CopyOk(w, fs', id, exact) && !fs'.dirs[id].done
            && fs'.dirs == fs.dirs[id := fs'.dirs[id]]
            && fs'.dirs[id] == (if id in fs.dirs then fs.dirs[id] else Dir(Stored(msg), Some(j), false, map[]))
            && (j in fs.files ==> id in fs.dirs && fs.dirs[id].content == Some(j))
            && j in fs'.files
            && (r.Ok? ==> r.value == Writer(msg, j, offset, fs'.files[j]) && offset == |fs'.files[j]| && id in fs'.busy)
            && (r.Err? ==> r.error.IncorrectOffset?)
  {
    var id := msg.signed.id;
    assert id in fs.dirs ==> CopyOk(w, fs, id, exact);
    hide OpenWrite;
    OpenResult(w, fs, msg, offset, exact);
    OpenedTouches(w, fs, msg, fs.busy, exact);
    OpenedTouches(w, fs, msg, fs.busy + {id}, exact);
    hide Touches, CopyOk, StoreOk, Opened;
    var fs1 := Opened(fs, msg);
    assert fs1 == fs1.(busy := fs.busy) || fs1.busy != fs.busy;
    assert fs1.busy == fs.busy by {
      OpenedBusy(fs, msg);
    }
    assert Lock(fs1, id) == fs1.(busy := fs.busy + {id});
  }

  lemma OpenedBusy(fs: Fs, msg: Message)
    ensures Opened(fs, msg).busy == fs.busy
  {
  }

  /** A node that has not the message complete, before it expires, never had it. */
  lemma NeverCompleted(w: World, net: Net, n: Id, id: MsgId)
    requires n in net.stores && CompletedOk(w, net, n) && id in w.truth
    requires !IsComplete(net.stores[n], id) && !w.truth[id].signed.Expired(net.clock)
    ensures (n, id) !in net.completed
  {
  }

  /** The copy that OpenWrite leaves has a simple path as its hops. */
  lemma OpenRecords(w: World, net: Net, net': Net, q: Id, msg: Message)
    requires q in net.stores && RecordsOk(w, net, q) && HopsOk(w, net', q, msg)
    requires OnlyNode(net, net', q, msg.signed.id) && net'.completed == net.completed
    requires forall x :: x in net'.stores[q].dirs ==>
               if x in net.stores[q].dirs then net'.stores[q].dirs[x] == net.stores[q].dirs[x]
               else
                 && x == msg.signed.id && net'.stores[q].dirs[x].record == Stored(msg)
                 && net'.stores[q].dirs[x].peers == map[]
    ensures RecordsOk(w, net', q)
  {
    hide HopsOk;
    forall x | x in net'.stores[q].dirs && x in net.stores[q].dirs
      ensures net'.stores[q].dirs[x].record.Stored? && HopsOk(w, net', q, net'.stores[q].dirs[x].record.msg)
    {
      HopsGrow(w, net, net', q, net.stores[q].dirs[x].record.msg);
    }
  }

  /** Opening a message keeps the store, adding at most one directory that is not done. */
  lemma OpenStore(w: World, fs: Fs, msg: Message, offset: nat, exact: bool)
    requires StoreOk(w, fs, exact) && msg.signed.id in w.truth && msg.signed == w.truth[msg.signed.id].signed
    requires msg.signed.id !in fs.busy && !IsComplete(fs, msg.signed.id)
    ensures var fs', id := OpenWrite(w.sha, fs, msg, offset).0, msg.signed.id;
            && StoreOk(w, fs', exact) && id in fs'.dirs && fs'.dirs == fs.dirs[id := fs'.dirs[id]] && !fs'.dirs[id].done
            && (id in fs.dirs ==> fs'.dirs[id] == fs.dirs[id])
            && (id !in fs.dirs ==> fs'.dirs[id].record == Stored(msg) && fs'.dirs[id].peers == map[])
  {
    hide OpenWrite;
    OpenEffect(w, fs, msg, offset, exact);
    hide CopyOk, Touches, StoreOk;
    var fs', id := OpenWrite(w.sha, fs, msg, offset).0, msg.signed.id;
    StoreStep(w, fs, fs', id, fs'.dirs[id].content.value, exact);
  }

  /** Opening a message completes nothing and undoes nothing. */
  lemma OpenCompleted(w: World, net: Net, net': Net, q: Id, id: MsgId)
    requires q in net.stores && CompletedOk(w, net, q) && !IsComplete(net.stores[q], id)
    requires net'.stores.Keys == net.stores.Keys && net'.completed == net.completed && net'.clock == net.clock
    requires var ds, ds' := net.stores[q].dirs, net'.stores[q].dirs;
             id in ds' && ds' == ds[id := ds'[id]] && !ds'[id].done
    ensures CompletedOk(w, net', q)
  {
    assert forall x :: IsComplete(net'.stores[q], x) <==> IsComplete(net.stores[q], x);
  }

  /** The receiver opens the message: a new or a resumed copy. */
  lemma OpenNodes(w: World, net: Net, net': Net, q: Id, msg: Message, offset: nat)
    requires Inv(w, net) && q in net.stores && msg.signed.id in w.truth && msg.signed == w.truth[msg.signed.id].signed
    requires msg.signed.id !in net.stores[q].busy && !IsComplete(net.stores[q], msg.signed.id)
    requires !msg.signed.Expired(net.clock) && (w.maxHops > 0 ==> |msg.hops| <= w.maxHops)
    requires HopsDone(net, msg.signed.id, msg.hops)
    requires net'.stores == net.stores[q := OpenWrite(w.sha, net.stores[q], msg, offset).0]
    requires net'.completed == net.completed && net'.clock == net.clock && net'.slipped == net.slipped
    ensures OnlyNode(net, net', q, msg.signed.id) && NodesOk(w, net') && HopsOk(w, net', q, msg)
    ensures (q, msg.signed.id) !in net.completed
  {
    hide OpenWrite, Inv, StoreOk, RecordsOk, CompletedOk, NodesOk, IsComplete;
    NodeFacts(w, net, q);
    var id := msg.signed.id;
    OpenStore(w, net.stores[q], msg, offset, !net.slipped);
    NeverCompleted(w, net, q, id);
    assert HopsOk(w, net', q, msg);
    hide HopsOk, HopsDone;
    assert |net'.stores.Keys| == |net.stores.Keys|;
    OpenRecords(w, net, net', q, msg);
    OpenCompleted(w, net, net', q, id);
    Parts(w, net);
    NodesStep(w, net, net', q, id);
  }

  /** Nobody else writes the message, or the file, that is being opened. */
  lemma OpenApart(w: World, net: Net, net': Net, q: Id, msg: Message, offset: nat, j: nat)
    requires NodesOk(w, net) && CallsOk(w, net) && q in net.stores && OnlyNode(net, net', q, msg.signed.id)
    requires msg.signed.id in w.truth && msg.signed == w.truth[msg.signed.id].signed
    requires msg.signed.id !in net.stores[q].busy && !IsComplete(net.stores[q], msg.signed.id)
    requires net'.stores[q] == OpenWrite(w.sha, net.stores[q], msg, offset).0
    requires j in net.calls && net.calls[j].phase.Streaming? && net.calls[j].to == q
    ensures var fs' := net'.stores[q];
            var id := msg.signed.id;
            && id in fs'.dirs && fs'.dirs[id].content.Some?
            && net.calls[j].msg.signed.id != id && net.calls[j].phase.w.inode != fs'.dirs[id].content.value
            && net.calls[j].msg.signed.id in w.truth && LiveOk(w, net', net.calls[j])
  {
    hide OpenWrite;
    var fs, id := net.stores[q], msg.signed.id;
    var fs' := net'.stores[q];
    OpenEffect(w, fs, msg, offset, !net.slipped);
    hide Touches, CopyOk;
    StreamOf(w, net, j);
    OtherStream(w, net, net', q, id, fs'.dirs[id].content.value, net.calls[j]);
  }

  /** The receiver may be asked to open the message. */
  ghost predicate Opens(w: World, net: Net, k: nat)
  {
    && k in net.calls && net.calls[k].phase.Calling? && net.calls[k].to in net.stores
    && var c := net.calls[k];
    && c.msg.signed.id in w.truth && c.msg.signed == w.truth[c.msg.signed.id].signed
    && c.msg.signed.id !in net.stores[c.to].busy && !IsComplete(net.stores[c.to], c.msg.signed.id)
    && !c.msg.signed.Expired(net.clock) && !(w.maxHops > 0 && |c.msg.hops| > w.maxHops)
  }

  /** The phase of the call after the receiver opened the message, or found another offset. */
  lemma OpenedPhase(w: World, net: Net, k: nat)
    requires Opens(w, net, k) && StoreOk(w, net.stores[net.calls[k].to], !net.slipped)
    requires (net.calls[k].to, net.calls[k].msg.signed.id) !in net.completed
    ensures var net', c := ApplyCall(w, net, k), net.calls[k];
            var fs' := OpenWrite(w.sha, net.stores[c.to], c.msg, c.offset).0;
            && k in net'.calls && net'.calls == net.calls[k := c.(phase := net'.calls[k].phase)]
            && c.to in net'.stores && net'.stores[c.to] == fs'
            && (net'.calls[k].phase.Asking? || (net'.calls[k].phase.Streaming? && LiveOk(w, net', net'.calls[k])))
            && (net'.calls[k].phase.Streaming? ==>
                  && c.msg.signed.id in fs'.dirs && CopyOk(w, fs', c.msg.signed.id, !net.slipped)
                  && var j := net'.calls[k].phase.w.inode;
                  && fs'.dirs[c.msg.signed.id].content == Some(j) && j in fs'.files && |fs'.files[j]| == c.offset
                  && var wr := Writer(c.msg, j, c.offset, fs'.files[j]);
                  && net'.calls[k].phase == Streaming(wr, 0, c.phase.inFlight, c.phase.ended)
                  && (!net'.slipped ==> !Misaligned(c)))
  {
    hide OpenWrite, Joined;
    var c := net.calls[k];
    var fs, id := net.stores[c.to], c.msg.signed.id;
    OpenEffect(w, fs, c.msg, c.offset, !net.slipped);
    var (fs', r) := OpenWrite(w.sha, fs, c.msg, c.offset);
    assert ServePush(w, fs, net.clock, c.msg, c.offset) == (fs', r);
    OnlyOwnFile(w, fs, fs', id, fs'.dirs[id].content.value);
    hide StoreOk, Touches, CopyOk;
  }

  /** The call after the receiver opened the message, or found another offset. */
  lemma OpenedCall(w: World, net: Net, net': Net, k: nat)
    requires Opens(w, net, k) && net' == ApplyCall(w, net, k)
    requires var c := net.calls[k];
             && CallOk(w, net, c) && StoreOk(w, net.stores[c.to], !net.slipped) && HopsOk(w, net', c.to, c.msg)
             && (c.to, c.msg.signed.id) !in net.completed && Grows(net, net') && net'.slipped == net.slipped
    ensures k in net'.calls && CallOk(w, net', net'.calls[k])
    ensures net'.calls == net.calls[k := net'.calls[k]]
    ensures var c, c' := net.calls[k], net'.calls[k];
            var fs' := net'.stores[c.to];
            && c'.to == c.to && c'.msg == c.msg
            && fs' == OpenWrite(w.sha, net.stores[c.to], c.msg, c.offset).0
            && (c'.phase.Streaming? ==>
                  c.msg.signed.id in fs'.dirs && fs'.dirs[c.msg.signed.id].content == Some(c'.phase.w.inode))
  {
    OpenedPhase(w, net, k);
    hide OpenWrite, HopsOk, HopsDone, LiveOk, StoreOk, CopyOk, ApplyCall;
    var c, c' := net.calls[k], net'.calls[k];
    HopsGrow(w, net, net', c.to, c.msg);
    if c'.phase.Streaming? && !net.slipped {
      OffsetTrue(w, net'.stores[c.to], c, c'.phase.w);
    }
  }

  /** No other directory has file j as its content. */
  ghost predicate OnlyFile(fs: Fs, id: MsgId, j: nat)
  {
    forall x :: x in fs.dirs && fs.dirs[x].content == Some(j) ==> x == id
  }

  lemma OnlyOwnFile(w: World, fs: Fs, fs': Fs, id: MsgId, j: nat)
    requires Touches(fs, fs', id, j)
    ensures OnlyFile(fs', id, j)
  {
  }

  /** A stream whose packets start at its offset starts in step. */
  lemma OffsetTrue(w: World, fs: Fs, c: Call, wr: Writer)
    requires c.phase.Calling? && InStep(c) && !Misaligned(c)
    requires c.msg.signed.id in fs.dirs && CopyOk(w, fs, c.msg.signed.id, true)
    requires c.content == w.truth[c.msg.signed.id].content
    requires fs.dirs[c.msg.signed.id].content == Some(wr.inode) && c.offset == |fs.files[wr.inode]|
    requires wr == Writer(c.msg, wr.inode, c.offset, fs.files[wr.inode])
    ensures InStep(c.(phase := Streaming(wr, 0, c.phase.inFlight, c.phase.ended)))
  {
  }

  lemma CallPushOpens(w: World, net: Net, k: nat)
    requires Inv(w, net) && k in net.calls && net.calls[k].phase.Calling? && net.calls[k].to in net.stores
    requires var c := net.calls[k];
             && c.msg.signed.id !in net.stores[c.to].busy && !IsComplete(net.stores[c.to], c.msg.signed.id)
             && !c.msg.signed.Expired(net.clock) && !(w.maxHops > 0 && |c.msg.hops| > w.maxHops)
    requires ApplyCall(w, net, k).slipped == net.slipped
    ensures Inv(w, ApplyCall(w, net, k))
  {
    hide Inv, NodesOk, CallsOk, HistoryOk, LoopsOk, StoreOk, OpenWrite, Misaligned;
    var net' := ApplyCall(w, net, k);
    var c := net.calls[k];
    var q, id := c.to, c.msg.signed.id;
    Parts(w, net);
    CallFacts(w, net, k);
    NodeFacts(w, net, q);
    hide RecordsOk, CompletedOk;
    assert Opens(w, net, k);
    OpenNodes(w, net, net', q, c.msg, c.offset);
    OpenedCall(w, net, net', k);
    hide CallOk, HopsOk;
    forall j | j in net'.calls && j != k && net.calls[j].phase.Streaming? && net.calls[j].to == q
      ensures net.calls[j].msg.signed.id in w.truth && LiveOk(w, net', net.calls[j])
      ensures net.calls[j].msg.signed.id != c.msg.signed.id
      ensures net'.calls[k].phase.Streaming? ==> net.calls[j].phase.w.inode != net'.calls[k].phase.w.inode
    {
      OpenApart(w, net, net', q, c.msg, c.offset, j);
    }
    hide LiveOk;
    CallsStep(w, net, net', q, id, k);
    HistoryStep(w, net, net');
    LoopsSame(net, net', q, c.msg);
    Together(w, net, net');
  }

  /** A simple path over the nodes has at most as many hops as there are nodes. */
  lemma {:induction false} PathLength(hops: seq<Id>, others: set<Id>)
    requires NoRepeats(hops) && forall i :: 0 <= i < |hops| ==> hops[i] in others
    ensures |hops| <= |others|
  {
    if hops != [] {
      var k := |hops| - 1;
      PathLength(hops[..k], others - {hops[k]});
    }
  }

  lemma HopsShort(w: World, net: Net, n: Id, m: Message)
    requires HopsOk(w, net, n, m)
    ensures |m.hops| <= |net.stores| - 1
  {
    PathLength(m.hops, net.stores.Keys - {n});
    assert |net.stores.Keys - {n}| == |net.stores.Keys| - 1;
  }

  /** The receiver refuses without touching its store. */
  lemma CallPushRefused(w: World, net: Net, k: nat)
    requires Inv(w, net) && k in net.calls && net.calls[k].phase.Calling? && net.calls[k].to in net.stores
    requires var c := net.calls[k];
             || c.msg.signed.id in net.stores[c.to].busy || IsComplete(net.stores[c.to], c.msg.signed.id)
             || c.msg.signed.Expired(net.clock) || (w.maxHops > 0 && |c.msg.hops| > w.maxHops)
    ensures Inv(w, ApplyCall(w, net, k))
  {
    hide Inv, HopsOk, Preimage;
    var net' := ApplyCall(w, net, k);
    var c := net.calls[k];
    CallFacts(w, net, k);
    NodeFacts(w, net, c.to);
    hide StoreOk, RecordsOk, LiveOk;
    PathLength(c.msg.hops, net.stores.Keys);
    assert |net.stores.Keys| == |net.stores|;
    assert net'.stores == net.stores;
    HopsGrow(w, net, net', c.to, c.msg);
    hide HopsDone;
    CallOnly(w, net, net', k);
  }

  /** Only call k changes; if it streams, it streamed before, into the same file. */
  lemma CallOnly(w: World, net: Net, net': Net, k: nat)
    requires Inv(w, net) && net' == net.(calls := net'.calls)
    requires forall j :: j in net'.calls && j != k ==> j in net.calls && net'.calls[j] == net.calls[j]
    requires k in net'.calls && CallOk(w, net', net'.calls[k])
    requires net'.calls[k].phase.Streaming? ==>
               && k in net.calls && net.calls[k].phase.Streaming?
               && net.calls[k].to == net'.calls[k].to && net.calls[k].msg == net'.calls[k].msg
               && net.calls[k].phase.w.inode == net'.calls[k].phase.w.inode
    ensures Inv(w, net')
  {
    hide Inv, NodesOk, HistoryOk, LoopsOk, LiveOk, HopsOk, HopsDone, InStep, ReplyOk;
    Parts(w, net);
    NodesSame(w, net, net');
    LoopsSame(net, net', "", Message([], w.truth[net'.calls[k].msg.signed.id].signed));
    forall j | j in net'.calls && j != k
      ensures CallOk(w, net', net'.calls[j])
    {
      assert CallOk(w, net, net.calls[j]);
      CallSame(w, net, net', net.calls[j]);
    }
    hide CallOk;
    assert CallsOk(w, net');
    hide CallsOk;
    Together(w, net, net');
  }

  /** A call says nothing about the other calls. */
  lemma CallSame(w: World, net: Net, net': Net, c: Call)
    requires CallOk(w, net, c) && net' == net.(calls := net'.calls)
    ensures CallOk(w, net', c)
  {
    LiveSame(w, net, net', c);
    CallGrow(w, net, net', c);
  }

  lemma LiveSame(w: World, net: Net, net': Net, c: Call)
    requires net'.stores == net.stores && net'.completed == net.completed && net.clock <= net'.clock
    ensures c.phase.Streaming? && c.to in net.stores && c.msg.signed.id in w.truth && LiveOk(w, net, c) ==>
              LiveOk(w, net', c)
  {
  }

  /** Nodes and history do not depend on calls, loops or missed entries. */
  lemma NodesSame(w: World, net: Net, net': Net)
    requires NodesOk(w, net) && HistoryOk(w, net) && Grows(net, net')
    requires net'.stores == net.stores && net'.completed == net.completed && net'.published == net.published
    requires net'.refused == net.refused && net'.slipped == net.slipped
    ensures NodesOk(w, net') && HistoryOk(w, net')
  {
    HistoryStep(w, net, net');
    hide StoreOk;
    forall n | n in net'.stores
      ensures RecordsOk(w, net', n) && CompletedOk(w, net', n)
    {
      assert RecordsOk(w, net, n) && CompletedOk(w, net, n);
      RecordsGrow(w, net, net', n);
      hide RecordsOk;
    }
  }

  lemma CallPushKeeps(w: World, net: Net, k: nat)
    requires Inv(w, net)
    ensures Inv(w, ApplyCall(w, net, k))
  {
    hide Inv;
    if k in net.calls && net.calls[k].phase.Calling? && net.calls[k].to in net.stores {
      var c := net.calls[k];
      if || c.msg.signed.id in net.stores[c.to].busy || IsComplete(net.stores[c.to], c.msg.signed.id)
         || c.msg.signed.Expired(net.clock) || (w.maxHops > 0 && |c.msg.hops| > w.maxHops) {
        CallPushRefused(w, net, k);
      } else if ApplyCall(w, net, k).slipped == net.slipped {
        CallPushOpens(w, net, k);
      } else {
        SlipKeeps(w, net);
        CallPushOpens(w, net.(slipped := true), k);
        CallSlips(w, net, k);
      }
    }
  }

  /** An opening that slips is one in a network that has slipped before. */
  lemma CallSlips(w: World, net: Net, k: nat)
    requires ApplyCall(w, net, k).slipped
    ensures ApplyCall(w, net, k).slipped == ApplyCall(w, net.(slipped := true), k).slipped
    ensures ApplyCall(w, net.(slipped := true), k) == ApplyCall(w, net, k)
  {
    hide OpenWrite;
  }

  // ---------- The other steps of a push ----------

  /** The offset reported is within the content, and AlreadySeen is reported by a node that completed the message. */
  lemma OffsetFacts(w: World, net: Net, n: Id, id: MsgId)
    requires Inv(w, net) && n in net.stores && id in w.truth
    ensures var r := Offset(net.stores[n], id);
            && (r.Ok? && !net.slipped ==> r.value <= |w.truth[id].content|)
            && (r.Err? ==> r.error.Busy? || (r.error.AlreadySeen? && (n, id) in net.completed))
  {
    hide Inv;
    NodeFacts(w, net, n);
    hide RecordsOk;
    if id in net.stores[n].dirs {
      assert CopyOk(w, net.stores[n], id, !net.slipped);
    }
  }

  lemma AskOffsetKeeps(w: World, net: Net, k: nat)
    requires Inv(w, net)
    ensures Inv(w, ApplyAsk(net, k))
  {
    hide Inv, HopsOk, HopsDone, LiveOk, Offset;
    if k in net.calls && net.calls[k].phase.Asking? && net.calls[k].to in net.stores {
      var net' := ApplyAsk(net, k);
      var c := net.calls[k];
      CallFacts(w, net, k);
      OffsetFacts(w, net, c.to, c.msg.signed.id);
      if net' != net {
        HopsGrow(w, net, net', c.to, c.msg);
        CallOnly(w, net, net', k);
      }
    }
  }

  lemma {:induction false} JoinedLast(packets: seq<Bytes>, p: Bytes)
    ensures Joined(packets + [p]) == Joined(packets) + p
  {
    if packets == [] {
      assert [p][1..] == [];
      assert [] + p == p;
    } else {
      assert (packets + [p])[1..] == packets[1..] + [p];
      JoinedLast(packets[1..], p);
    }
  }

  /** A packet is read: what is on the way is still the last part that was read. */
  lemma SendInStep(c: Call, size: nat)
    requires (c.phase.Calling? || c.phase.Streaming?) && InStep(c) && !c.phase.ended && c.reader + size <= |c.content|
    ensures InStep(c.(reader := c.reader + size,
                      phase := c.phase.(inFlight := c.phase.inFlight + [c.content[c.reader..c.reader + size]])))
  {
    var p := c.content[c.reader..c.reader + size];
    JoinedLast(c.phase.inFlight, p);
    var start := if c.phase.Calling? then c.reader - |Joined(c.phase.inFlight)| else c.phase.w.pos;
    assert c.content[start..c.reader] + p == c.content[start..c.reader + size];
  }

  lemma SendPacketKeeps(w: World, net: Net, k: nat, size: nat)
    requires Inv(w, net)
    ensures Inv(w, ApplySend(net, k, size))
  {
    hide Inv, HopsOk, HopsDone, InStep;
    var net' := ApplySend(net, k, size);
    if net' != net {
      var c := net.calls[k];
      CallFacts(w, net, k);
      if !net.slipped {
        SendInStep(c, size);
      }
      HopsGrow(w, net, net', c.to, c.msg);
      assert CallOk(w, net', net'.calls[k]);
      hide CallOk;
      CallOnly(w, net, net', k);
    }
  }

  /** The sender closes its side. */
  lemma EndStreamKeeps(w: World, net: Net, k: nat)
    requires Inv(w, net)
    ensures Inv(w, Apply(w, net, EndStream(k)))
  {
    hide Inv, HopsOk, HopsDone, Joined;
    var net' := Apply(w, net, EndStream(k));
    if net' != net {
      CallFacts(w, net, k);
      HopsGrow(w, net, net', net.calls[k].to, net.calls[k].msg);
      CallOnly(w, net, net', k);
    }
  }

  /** The call fails, the reply is lost, or the call is made again. */
  lemma MarkCallKeeps(w: World, net: Net, a: Action)
    requires Inv(w, net) && (a.Fail? || a.LoseReply? || a.Retry?)
    ensures Inv(w, Apply(w, net, a))
  {
    hide Inv, HopsOk, HopsDone, LiveOk;
    var net' := Apply(w, net, a);
    if net' != net {
      CallFacts(w, net, a.k);
      HopsGrow(w, net, net', net.calls[a.k].to, net.calls[a.k].msg);
      CallOnly(w, net, net', a.k);
    }
  }

  /** A slip only takes promises away. */
  lemma SlipKeeps(w: World, net: Net)
    requires Inv(w, net)
    ensures Inv(w, net.(slipped := true))
  {
    hide Inv, HopsOk, HopsDone;
    Parts(w, net);
    hide NodesOk;
    var net' := net.(slipped := true);
    HistoryStep(w, net, net');
    LoopsStep(net, net');
    hide HistoryOk, LoopsOk;
    SlipNodes(w, net);
    forall k | k in net'.calls
      ensures CallOk(w, net', net'.calls[k])
    {
      CallFacts(w, net, k);
      hide LiveOk, InStep;
      LiveSame(w, net, net', net.calls[k]);
      CallGrow(w, net, net', net.calls[k]);
    }
    hide CallOk;
    Together(w, net, net');
  }

  lemma SlipNodes(w: World, net: Net)
    requires Inv(w, net)
    ensures NodesOk(w, net.(slipped := true))
  {
    hide Inv;
    var net' := net.(slipped := true);
    forall n | n in net'.stores
      ensures StoreOk(w, net'.stores[n], false) && RecordsOk(w, net', n) && CompletedOk(w, net', n)
    {
      NodeFacts(w, net, n);
      RecordsGrow(w, net, net', n);
      hide RecordsOk, HopsOk;
      forall id | id in net.stores[n].dirs
        ensures CopyOk(w, net.stores[n], id, false)
      {
        assert CopyOk(w, net.stores[n], id, !net.slipped);
      }
    }
  }

  // ---------- Streams into a store ----------

  /** Replacing node q's store and call k, when only one message of q is touched. */
  lemma StoreAndCall(w: World, net: Net, net': Net, q: Id, k: nat, id: MsgId, j: nat, m: Message)
    requires Inv(w, net) && OnlyNode(net, net', q, id) && Touches(net.stores[q], net'.stores[q], id, j)
    requires StoreOk(w, net'.stores[q], !net'.slipped) && RecordsOk(w, net', q) && CompletedOk(w, net', q)
    requires forall i :: i in net'.calls && i != k ==> i in net.calls && net'.calls[i] == net.calls[i]
    requires forall i :: i in net'.calls && i != k && net.calls[i].phase.Streaming? && net.calls[i].to == q ==>
               net.calls[i].msg.signed.id != id && net.calls[i].phase.w.inode != j
    requires k in net'.calls ==> CallOk(w, net', net'.calls[k])
    requires k in net'.calls && net'.calls[k].phase.Streaming? ==>
               net'.calls[k].to == q && net'.calls[k].msg.signed.id == id && net'.calls[k].phase.w.inode == j
    requires net.published <= net'.published <= net.published + {(q, m)}
    requires (q, m) in net'.published && (q, m) !in net.published ==>
               HopsOk(w, net', q, m) && (net'.slipped || (q, m.signed.id) in net'.completed)
    requires net'.loops == net.loops || (net'.loops == Publish(net, q, m).loops && (q, m) in net'.published)
    requires net'.refused == net.refused
    ensures Inv(w, net')
  {
    hide Inv, NodesOk, CallsOk, HistoryOk, LoopsOk, StoreOk, RecordsOk, CompletedOk, HopsOk, CallOk;
    Parts(w, net);
    NodesStep(w, net, net', q, id);
    forall i | i in net'.calls && i != k && net.calls[i].phase.Streaming? && net.calls[i].to == q
      ensures net.calls[i].msg.signed.id in w.truth && LiveOk(w, net', net.calls[i])
    {
      StreamOf(w, net, i);
      OtherStream(w, net, net', q, id, j, net.calls[i]);
    }
    hide LiveOk, Touches;
    CallsStep(w, net, net', q, id, k);
    HistoryStep(w, net, net');
    LoopsSame(net, net', q, m);
    Together(w, net, net');
  }

  /** Streams other than k into k's store write other messages and files. */
  lemma OthersApart(w: World, net: Net, k: nat, i: nat)
    requires Inv(w, net) && k in net.calls && i in net.calls && i != k
    requires net.calls[k].phase.Streaming? && net.calls[i].phase.Streaming? && net.calls[i].to == net.calls[k].to
    ensures net.calls[i].msg.signed.id != net.calls[k].msg.signed.id
    ensures net.calls[i].phase.w.inode != net.calls[k].phase.w.inode
  {
    hide NodesOk, HistoryOk, LoopsOk, WorldOk, CallOk;
    assert StreamsApart(net.calls);
  }

  /** The facts about a streaming call that the steps below use. */
  lemma StreamFacts(w: World, net: Net, k: nat)
    requires Inv(w, net) && Streams(net, k)
    ensures var c := net.calls[k];
            var fs, id := net.stores[c.to], c.msg.signed.id;
            && CallOk(w, net, c) && StreamOk(fs, c) && HopsOk(w, net, c.to, c.msg) && HopsDone(net, id, c.msg.hops)
            && id in w.truth && LiveOk(w, net, c)
            && c.msg.signed == w.truth[id].signed && id == w.truth[id].signed.id
            && StoreOk(w, fs, !net.slipped) && RecordsOk(w, net, c.to) && CompletedOk(w, net, c.to)
            && (!net.slipped ==> c.content == w.truth[id].content && InStep(c)
                                 && |c.content| == c.msg.signed.length && w.sha(c.content) == c.msg.signed.sha256)
  {
    hide StoreOk, RecordsOk, CompletedOk, HopsOk, HopsDone;
    Parts(w, net);
    CallFacts(w, net, k);
    NodeFacts(w, net, net.calls[k].to);
    hide Inv;
  }

  /** The effect of one packet on the store. */
  lemma ReceiveStore(w: World, fs: Fs, fs': Fs, c: Call, p: Bytes, exact: bool)
    requires c.phase.Streaming? && StreamOk(fs, c) && StoreOk(w, fs, exact) && c.msg.signed.id in w.truth
    requires exact ==> c.phase.w.hashed + p <= w.truth[c.msg.signed.id].content
    requires fs' == fs.(files := fs.files[c.phase.w.inode := c.phase.w.hashed + p])
    ensures Touches(fs, fs', c.msg.signed.id, c.phase.w.inode) && StoreOk(w, fs', exact)
  {
    var id, j := c.msg.signed.id, c.phase.w.inode;
    if id in fs.dirs {
      assert CopyOk(w, fs, id, exact);
    }
    assert Touches(fs, fs', id, j);
    StoreStep(w, fs, fs', id, j, exact);
  }

  /** Same directories and completions: records and completions stay good. */
  lemma SameDirs(w: World, net: Net, net': Net, q: Id, id: MsgId)
    requires q in net.stores && RecordsOk(w, net, q) && CompletedOk(w, net, q) && OnlyNode(net, net', q, id)
    requires net'.stores[q].dirs == net.stores[q].dirs && net'.completed == net.completed
    ensures RecordsOk(w, net', q) && CompletedOk(w, net', q)
  {
    RecordsGrow(w, net, net', q);
    hide RecordsOk;
    assert forall x :: IsComplete(net'.stores[q], x) <==> IsComplete(net.stores[q], x);
  }

  /** The call after a packet was written. */
  function Received(c: Call, wr: Writer): Call
    requires c.phase.Streaming? && c.phase.inFlight != []
  {
    c.(phase := c.phase.(w := wr, size := c.phase.size + |c.phase.inFlight[0]|, inFlight := c.phase.inFlight[1..]))
  }

  /** A packet is appended, and the hash keeps up. */
  lemma ReceiveStream(fs: Fs, c: Call)
    requires c.phase.Streaming? && StreamOk(fs, c) && c.phase.inFlight != []
    ensures var p := c.phase.inFlight[0];
            var (fs', wr) := Write(fs, c.phase.w, p);
            && fs' == fs.(files := fs.files[c.phase.w.inode := c.phase.w.hashed + p])
            && wr == c.phase.w.(pos := |c.phase.w.hashed + p|, hashed := c.phase.w.hashed + p)
            && StreamOk(fs', Received(c, wr))
  {
    var wr, p := c.phase.w, c.phase.inFlight[0];
    assert WriteAt(wr.hashed, wr.pos, p) == wr.hashed + p;
  }

  /** In step, the packet is the next part of the content. */
  lemma ReceiveInStep(c: Call, wr: Writer)
    requires c.phase.Streaming? && c.phase.inFlight != [] && InStep(c) && c.phase.w.pos == |c.phase.w.hashed|
    requires var hashed := c.phase.w.hashed + c.phase.inFlight[0]; wr == c.phase.w.(pos := |hashed|, hashed := hashed)
    ensures InStep(Received(c, wr)) && wr.hashed <= c.content
  {
    var pos, p, rest := c.phase.w.pos, c.phase.inFlight[0], c.phase.inFlight[1..];
    assert p + Joined(rest) == c.content[pos..c.reader];
    NextPacket(c.content, pos, c.reader, p, Joined(rest));
    hide Joined;
    assert wr.hashed == c.content[..pos + |p|];
  }

  /** One packet: the store and the stream after it. */
  lemma ReceiveEffect(w: World, net: Net, k: nat)
    requires Inv(w, net) && Streams(net, k) && net.calls[k].phase.inFlight != []
    ensures var net', c := ApplyReceive(net, k), net.calls[k];
            var q := c.to;
            && net'.stores == net.stores[q := net'.stores[q]]
            && net' == net.(stores := net'.stores, calls := net'.calls)
            && net'.calls == net.calls[k := net'.calls[k]]
            && net'.calls[k] == c.(phase := net'.calls[k].phase) && net'.calls[k].phase.Streaming?
            && net'.calls[k].phase.w.inode == c.phase.w.inode
            && net'.stores[q].dirs == net.stores[q].dirs
            && Touches(net.stores[q], net'.stores[q], c.msg.signed.id, c.phase.w.inode)
            && StoreOk(w, net'.stores[q], !net.slipped)
            && c.msg.signed.id in w.truth && LiveOk(w, net', net'.calls[k]) && (!net.slipped ==> InStep(net'.calls[k]))
  {
    hide Inv, HopsOk, HopsDone, RecordsOk, CompletedOk;
    var net', c := ApplyReceive(net, k), net.calls[k];
    StreamFacts(w, net, k);
    ReceiveStream(net.stores[c.to], c);
    assert c.phase.w.pos <= |FileBytes(net.stores[c.to], c.phase.w.inode)|;
    if !net.slipped {
      ReceiveInStep(c, net'.calls[k].phase.w);
    }
    hide Joined, InStep, CallOk;
    ReceiveStore(w, net.stores[c.to], net'.stores[c.to], c, c.phase.inFlight[0], !net.slipped);
    hide StoreOk, Touches;
  }

  lemma ReceiveKeeps(w: World, net: Net, k: nat)
    requires Inv(w, net)
    ensures Inv(w, ApplyReceive(net, k))
  {
    hide Inv, HopsOk, HopsDone, StreamOk, Touches, StoreOk, Write, LiveOk, InStep, RecordsOk, CompletedOk;
    var net' := ApplyReceive(net, k);
    if Streams(net, k) && net.calls[k].phase.inFlight != [] {
      var c := net.calls[k];
      var q, id, j := c.to, c.msg.signed.id, c.phase.w.inode;
      ReceiveEffect(w, net, k);
      StreamFacts(w, net, k);
      hide ApplyReceive;
      assert |net'.stores.Keys| == |net.stores.Keys|;
      SameDirs(w, net, net', q, id);
      HopsGrow(w, net, net', q, c.msg);
      assert CallOk(w, net', net'.calls[k]);
      forall i | i in net'.calls && i != k && net.calls[i].phase.Streaming? && net.calls[i].to == q
        ensures net.calls[i].msg.signed.id != id && net.calls[i].phase.w.inode != j
      {
        OthersApart(w, net, k, i);
      }
      hide CallOk;
      StoreAndCall(w, net, net', q, k, id, j, c.msg);
    }
  }

  lemma NextPacket(content: Bytes, pos: nat, reader: nat, p: Bytes, rest: Bytes)
    requires pos <= reader <= |content| && p + rest == content[pos..reader]
    ensures pos + |p| <= reader && p == content[pos..pos + |p|] && rest == content[pos + |p|..reader]
  {
    assert (p + rest)[..|p|] == p && (p + rest)[|p|..] == rest;
  }

  /** Close: nothing, the mark, or, after a slip, the removal. In step there is no mismatch. */
  lemma CloseStore(w: World, fs: Fs, c: Call, exact: bool)
    requires c.phase.Streaming? && StreamOk(fs, c) && StoreOk(w, fs, exact) && c.msg.signed.id in w.truth
    requires exact ==> c.content == w.truth[c.msg.signed.id].content && InStep(c)
                       && |c.content| == c.msg.signed.length && w.sha(c.content) == c.msg.signed.sha256
    ensures var (fs', err) := Close(w.sha, fs, c.phase.w);
            var id := c.msg.signed.id;
            && Touches(fs, fs', id, c.phase.w.inode) && StoreOk(w, fs', exact)
            && (id in fs'.dirs ==> id in fs.dirs && fs'.dirs[id] == fs.dirs[id].(done := fs'.dirs[id].done))
            && (exact && c.phase.w.pos == |c.content| && !err.Some? ==> IsComplete(fs', id))
            && (exact && err.Some? ==> err.value == NoExist && id !in fs.dirs)
            && (exact ==> fs'.dirs.Keys == fs.dirs.Keys)
  {
    var id, wr := c.msg.signed.id, c.phase.w;
    var (fs', err) := Close(w.sha, fs, wr);
    if id in fs.dirs {
      assert CopyOk(w, fs, id, exact);
    }
    if exact {
      assert c.content[..|c.content|] == c.content;
      CloseInStep(w, fs, c);
    }
    assert Touches(fs, fs', id, wr.inode);
    hide StreamOk;
    assert id in fs'.dirs ==> CopyOk(w, fs', id, exact);
    StoreStep(w, fs, fs', id, wr.inode, exact);
  }

  /** In step, Close marks exactly a whole content. */
  lemma CloseInStep(w: World, fs: Fs, c: Call)
    requires c.phase.Streaming? && StreamOk(fs, c) && InStep(c)
    requires |c.content| == c.msg.signed.length && w.sha(c.content) == c.msg.signed.sha256
    ensures var (fs', err) := Close(w.sha, fs, c.phase.w);
            var id := c.msg.signed.id;
            && (c.phase.w.pos == |c.content| && !err.Some? ==> IsComplete(fs', id))
            && (err.Some? ==> err.value == NoExist && id !in fs.dirs)
            && (IsComplete(fs', id) ==> c.phase.w.hashed == c.content)
            && fs'.dirs.Keys == fs.dirs.Keys
  {
    assert c.content[..|c.content|] == c.content;
  }

  /** The node after a Close. */
  lemma CloseNode(w: World, net: Net, net': Net, q: Id, id: MsgId)
    requires q in net.stores && RecordsOk(w, net, q) && CompletedOk(w, net, q)
    requires OnlyNode(net, net', q, id) && id in w.truth
    requires (q, id) !in net.completed
    requires var fs, fs' := net.stores[q], net'.stores[q];
             && (forall x :: x in fs'.dirs && x != id ==> x in fs.dirs && fs'.dirs[x] == fs.dirs[x])
             && (forall x :: x in fs.dirs && x != id ==> x in fs'.dirs)
             && (id in fs'.dirs ==> id in fs.dirs && fs'.dirs[id] == fs.dirs[id].(done := fs'.dirs[id].done))
    requires net'.completed == net.completed + (if IsComplete(net'.stores[q], id) then {(q, id)} else {})
    ensures RecordsOk(w, net', q) && CompletedOk(w, net', q)
  {
    RecordsGrow(w, net, net', q);
    hide RecordsOk;
    assert forall x :: x != id ==> (IsComplete(net'.stores[q], x) <==> IsComplete(net.stores[q], x));
  }

  /** What ServeClose changes. */
  lemma ServeCloseShape(w: World, net: Net, k: nat, failed: bool, heard: bool)
    requires Streams(net, k)
    ensures var net' := ServeClose(w, net, k, failed, heard);
            var c := net.calls[k];
            var (fs', err) := Close(w.sha, net.stores[c.to], c.phase.w);
            && net'.stores == net.stores[c.to := fs'] && OnlyNode(net, net', c.to, c.msg.signed.id)
            && net'.completed == net.completed
                                 + (if IsComplete(fs', c.msg.signed.id) then {(c.to, c.msg.signed.id)} else {})
            && net'.calls == net.calls[k := c.(phase := net'.calls[k].phase)]
            && net'.calls[k].phase.Replied?
            && (net'.calls[k].phase.reply.Done? ==> !failed && !err.Some?)
            && (net'.calls[k].phase.reply.Failed? ==> err == Some(net'.calls[k].phase.reply.e))
            && net'.published == (if failed || err.Some? then net.published else net.published + {(c.to, c.msg)})
            && net'.loops == (if failed || err.Some? then net.loops else Publish(net, c.to, c.msg).loops)
            && net'.refused == net.refused
  {
    hide Close;
    var c := net.calls[k];
    var net' := ServeClose(w, net, k, failed, heard);
    assert net'.calls == net.calls[k := net'.calls[k]];
    assert net.completed + {} == net.completed;
    assert |net'.stores.Keys| == |net.stores.Keys|;
  }

  lemma ServeCloseKeeps(w: World, net: Net, k: nat, failed: bool, heard: bool)
    requires Inv(w, net) && Streams(net, k)
    requires !failed && !net.slipped ==> net.calls[k].phase.w.pos == |net.calls[k].content|
    ensures Inv(w, ServeClose(w, net, k, failed, heard))
  {
    hide Inv, HopsOk, HopsDone, ServeClose, Close, StreamOk;
    hide StoreOk, RecordsOk, CompletedOk, Touches, OnlyNode, InStep, Publish;
    var net' := ServeClose(w, net, k, failed, heard);
    ServeCloseShape(w, net, k, failed, heard);
    StreamFacts(w, net, k);
    var c := net.calls[k];
    var q, id := c.to, c.msg.signed.id;
    CloseStore(w, net.stores[q], c, !net.slipped);
    assert (q, id) !in net.completed;
    CloseTouched(w, net, net', q, id, c.phase.w.inode);
    OnlyGrows(net, net', q, id);
    HopsGrow(w, net, net', q, c.msg);
    assert CallOk(w, net', net'.calls[k]) by {
      hide LiveOk;
      if !net.slipped && net'.calls[k].phase.reply.Failed? {
        Swept(w, net, c);
      }
      if !net.slipped {
        AnsweredInStep(c, net'.calls[k].phase);
      }
    }
    hide CallOk, LiveOk;
    forall i | i in net'.calls && i != k && net.calls[i].phase.Streaming? && net.calls[i].to == q
      ensures net.calls[i].msg.signed.id != id && net.calls[i].phase.w.inode != c.phase.w.inode
    {
      OthersApart(w, net, k, i);
    }
    StoreAndCall(w, net, net', q, k, id, c.phase.w.inode, c.msg);
  }

  lemma OnlyGrows(net: Net, net': Net, q: Id, id: MsgId)
    requires OnlyNode(net, net', q, id)
    ensures Grows(net, net') && net'.clock == net.clock && net'.slipped == net.slipped
  {
  }

  lemma AnsweredInStep(c: Call, phase: Phase)
    requires InStep(c) && phase.Replied?
    ensures InStep(c.(phase := phase))
  {
  }

  /** A stream whose directory is gone has expired. */
  lemma Swept(w: World, net: Net, c: Call)
    requires c.phase.Streaming? && c.to in net.stores && c.msg.signed.id in w.truth && LiveOk(w, net, c)
    requires c.msg.signed.id !in net.stores[c.to].dirs
    ensures GivenUp(w, net, c.msg.signed.id)
  {
  }

  lemma CloseTouched(w: World, net: Net, net': Net, q: Id, id: MsgId, j: nat)
    requires q in net.stores && RecordsOk(w, net, q) && CompletedOk(w, net, q)
    requires OnlyNode(net, net', q, id) && id in w.truth
    requires (q, id) !in net.completed && Touches(net.stores[q], net'.stores[q], id, j)
    requires var fs, fs' := net.stores[q], net'.stores[q];
             id in fs'.dirs ==> id in fs.dirs && fs'.dirs[id] == fs.dirs[id].(done := fs'.dirs[id].done)
    requires net'.completed == net.completed + (if IsComplete(net'.stores[q], id) then {(q, id)} else {})
    ensures RecordsOk(w, net', q) && CompletedOk(w, net', q)
  {
    hide RecordsOk, CompletedOk;
    CloseNode(w, net, net', q, id);
  }

  /** The stream ended, cleanly or not. */
  lemma CloseKeeps(w: World, net: Net, a: Action)
    requires Inv(w, net) && (a.Finish? || a.Interrupt?)
    ensures Inv(w, Apply(w, net, a))
  {
    hide Inv, ServeClose;
    if Streams(net, a.k) {
      var c := net.calls[a.k];
      EndFacts(w, net, a.k);
      if a.Interrupt? {
        ServeCloseKeeps(w, net, a.k, c.phase.size != c.msg.signed.length, a.heard);
      } else if c.phase.ended && c.phase.inFlight == [] {
        ServeCloseKeeps(w, net, a.k, false, true);
      }
    }
  }

  /** In step, a stream that is through, or that counted Length bytes, has delivered all of the content. */
  lemma EndFacts(w: World, net: Net, k: nat)
    requires Inv(w, net) && Streams(net, k)
    ensures var c := net.calls[k];
            !net.slipped && (c.phase.size == c.msg.signed.length || (c.phase.ended && c.phase.inFlight == [])) ==>
              c.phase.w.pos == |c.content|
  {
    hide Inv;
    StreamFacts(w, net, k);
    hide HopsOk, HopsDone, StoreOk, RecordsOk, CompletedOk, LiveOk;
    var c := net.calls[k];
    if !net.slipped && c.phase.inFlight == [] {
      assert |c.content[c.phase.w.pos..c.reader]| == 0;
    }
  }

  // ---------- Inject ----------

  /** Storing a whole message under a new id. */
  lemma InjectResult(w: World, fs: Fs, msg: Message, content: Bytes)
    requires msg.signed.id !in fs.dirs && msg.signed.id !in fs.busy
    requires |content| == msg.signed.length && w.sha(content) == msg.signed.sha256
    ensures Transfer(w.sha, fs, msg, 0, [content])
            == Some(Fs(fs.dirs[msg.signed.id := Dir(Stored(msg), Some(fs.next), true, map[])],
                       fs.files[fs.next := content], fs.next + 1, fs.busy))
  {
    var id, j := msg.signed.id, fs.next;
    var d := Dir(Stored(msg), Some(j), false, map[]);
    var fs1 := Fs(fs.dirs[id := d], fs.files[j := []], j + 1, fs.busy + {id});
    var wr := Writer(msg, j, 0, []);
    assert OpenWrite(w.sha, fs, msg, 0) == (fs1, Ok(wr)) by {
      assert fs.dirs[id := NEW_DIR.(record := Stored(msg))][id := d] == fs.dirs[id := d];
    }
    WriteAllAppends(fs1, wr, [content]);
    assert Joined([content]) == content by {
      assert [content][1..] == [];
    }
    assert [] + content == content;
    var fs2 := fs1.(files := fs.files[j := content]);
    assert fs1.files[j := content] == fs.files[j := content];
    assert WriteAll(fs1, wr, [content]) == (fs2, wr.(pos := |content|, hashed := content));
    assert fs2.dirs[id := d.(done := true)] == fs.dirs[id := d.(done := true)];
    assert fs2.busy - {id} == fs.busy;
  }

  /** The store after an injection. */
  lemma InjectStore(w: World, fs: Fs, fs': Fs, msg: Message, content: Bytes, exact: bool)
    requires StoreOk(w, fs, exact) && msg.signed.id in w.truth && msg.signed.id !in fs.dirs
    requires msg.signed == w.truth[msg.signed.id].signed && content == w.truth[msg.signed.id].content
    requires fs' == Fs(fs.dirs[msg.signed.id := Dir(Stored(msg), Some(fs.next), true, map[])],
                       fs.files[fs.next := content], fs.next + 1, fs.busy)
    ensures Touches(fs, fs', msg.signed.id, fs.next) && StoreOk(w, fs', exact)
  {
    forall x | x in fs.dirs
      ensures fs.dirs[x].content != Some(fs.next)
    {
      assert CopyOk(w, fs, x, exact);
    }
    assert Touches(fs, fs', msg.signed.id, fs.next);
    StoreStep(w, fs, fs', msg.signed.id, fs.next, exact);
  }

  lemma {:induction false} Above(s: set<nat>) returns (b: nat)
    ensures forall x :: x in s ==> x < b
    decreases |s|
  {
    b := 0;
    if s != {} {
      var x :| x in s;
      var c := Above(s - {x});
      b := if c <= x then x + 1 else c;
      forall y | y in s
        ensures y < b
      {
        if y != x {
          assert y in s - {x};
        }
      }
    }
  }

  /** A node may author the message. */
  ghost predicate MayInject(w: World, net: Net, n: Id, id: MsgId)
  {
    && n in net.stores && id in w.truth && id !in net.stores[n].dirs && id !in net.stores[n].busy
    && !w.truth[id].signed.Expired(net.clock)
  }

  /** The injected message and what the node publishes. */
  lemma InjectShape(w: World, net: Net, n: Id, id: MsgId)
    requires WorldOk(w) && MayInject(w, net, n, id)
    ensures var net', fs, msg := Apply(w, net, Inject(n, id)), net.stores[n], Message([], w.truth[id].signed);
            && msg.signed.id == id
            && net' == Publish(net.(stores := net'.stores, completed := net.completed + {(n, id)}), n, msg)
            && net'.stores == net.stores[n := net'.stores[n]]
            && net'.stores[n] == Fs(fs.dirs[id := Dir(Stored(msg), Some(fs.next), true, map[])],
                                    fs.files[fs.next := w.truth[id].content], fs.next + 1, fs.busy)
  {
    hide Transfer;
    InjectResult(w, net.stores[n], Message([], w.truth[id].signed), w.truth[id].content);
  }

  /** No stream writes a message that is not locked, or a file that does not exist. */
  lemma InjectApart(w: World, net: Net, n: Id, id: MsgId, i: nat)
    requires Inv(w, net) && n in net.stores && id !in net.stores[n].busy
    requires i in net.calls && net.calls[i].phase.Streaming? && net.calls[i].to == n
    ensures net.calls[i].msg.signed.id != id && net.calls[i].phase.w.inode != net.stores[n].next
  {
    hide Inv;
    Parts(w, net);
    NodeFacts(w, net, n);
    StreamOf(w, net, i);
  }

  lemma InjectKeeps(w: World, net: Net, n: Id, id: MsgId)
    requires Inv(w, net) && MayInject(w, net, n, id)
    ensures Inv(w, Apply(w, net, Inject(n, id)))
    ensures (n, id) in Apply(w, net, Inject(n, id)).completed
    ensures (n, Message([], w.truth[id].signed)) in Apply(w, net, Inject(n, id)).published
  {
    hide Inv, Apply, StoreOk, RecordsOk, CompletedOk, Touches, WorldOk, NodesOk, CallsOk, HistoryOk, LoopsOk;
    Parts(w, net);
    NodeFacts(w, net, n);
    var net' := Apply(w, net, Inject(n, id));
    var msg, j := Message([], w.truth[id].signed), net.stores[n].next;
    InjectShape(w, net, n, id);
    InjectStore(w, net.stores[n], net'.stores[n], msg, w.truth[id].content, !net.slipped);
    assert HopsOk(w, net', n, msg);
    hide HopsOk;
    assert |net'.stores.Keys| == |net.stores.Keys|;
    assert OnlyNode(net, net', n, id);
    InjectRecords(w, net, net', n, msg);
    forall i | i in net.calls && net.calls[i].phase.Streaming? && net.calls[i].to == n
      ensures net.calls[i].msg.signed.id != id && net.calls[i].phase.w.inode != j
    {
      InjectApart(w, net, n, id, i);
    }
    var k := Above(net.calls.Keys);
    StoreAndCall(w, net, net', n, k, id, j, msg);
  }

  lemma InjectRecords(w: World, net: Net, net': Net, n: Id, msg: Message)
    requires n in net.stores && RecordsOk(w, net, n) && CompletedOk(w, net, n) && OnlyNode(net, net', n, msg.signed.id)
    requires msg.signed.id in w.truth && HopsOk(w, net', n, msg)
    requires var id, fs, fs' := msg.signed.id, net.stores[n], net'.stores[n];
             && fs'.dirs.Keys == fs.dirs.Keys + {id} && id !in fs.dirs
             && (forall x :: x in fs.dirs ==> fs'.dirs[x] == fs.dirs[x])
             && fs'.dirs[id].record == Stored(msg) && fs'.dirs[id].done && fs'.dirs[id].peers == map[]
    requires net'.completed == net.completed + {(n, msg.signed.id)}
    ensures RecordsOk(w, net', n) && CompletedOk(w, net', n)
  {
    hide HopsOk;
    forall x | x in net.stores[n].dirs
      ensures net.stores[n].dirs[x].record.Stored? && HopsOk(w, net', n, net.stores[n].dirs[x].record.msg)
    {
      HopsGrow(w, net, net', n, net.stores[n].dirs[x].record.msg);
    }
    assert forall x :: x != msg.signed.id ==> (IsComplete(net'.stores[n], x) <==> IsComplete(net.stores[n], x));
  }

  // ---------- Peer files and the sweeper ----------

  /** Directories removed, or their peer files changed; nothing else. */
  ghost predicate Quiet(fs: Fs, fs': Fs)
  {
    && fs'.files == fs.files && fs'.next == fs.next && fs'.busy == fs.busy
    && forall x :: x in fs'.dirs ==> x in fs.dirs && fs'.dirs[x] == fs.dirs[x].(peers := fs'.dirs[x].peers)
  }

  lemma QuietStore(w: World, fs: Fs, fs': Fs, exact: bool)
    requires StoreOk(w, fs, exact) && Quiet(fs, fs')
    ensures StoreOk(w, fs', exact)
  {
    forall x | x in fs'.dirs
      ensures CopyOk(w, fs', x, exact)
    {
      assert CopyOk(w, fs, x, exact);
    }
  }

  /** New peer files are sound; what left was expired. */
  ghost predicate QuietAllowed(w: World, net: Net, net': Net, n: Id)
    requires n in net.stores && n in net'.stores
  {
    && (forall id, p :: id in net'.stores[n].dirs && p in net'.stores[n].dirs[id].peers ==>
          || PeerFileOk(w, net', id, p, net'.stores[n].dirs[id].peers[p])
          || (id in net.stores[n].dirs && p in net.stores[n].dirs[id].peers
              && net'.stores[n].dirs[id].peers[p] == net.stores[n].dirs[id].peers[p]))
    && (forall id :: id in net.stores[n].dirs && id !in net'.stores[n].dirs ==>
          id in w.truth && w.truth[id].signed.Expired(net.clock))
  }

  lemma QuietStream(w: World, net: Net, net': Net, n: Id, id: MsgId, c: Call)
    requires OnlyNode(net, net', n, id) && net'.completed == net.completed
    requires c.phase.Streaming? && c.to == n && c.msg.signed.id in w.truth && LiveOk(w, net, c)
    requires Quiet(net.stores[n], net'.stores[n]) && QuietAllowed(w, net, net', n)
    ensures LiveOk(w, net', c)
  {
  }

  lemma QuietNodes(w: World, net: Net, net': Net, n: Id, id: MsgId)
    requires n in net.stores && RecordsOk(w, net, n) && CompletedOk(w, net, n) && OnlyNode(net, net', n, id)
    requires Quiet(net.stores[n], net'.stores[n]) && net'.completed == net.completed && QuietAllowed(w, net, net', n)
    ensures RecordsOk(w, net', n) && CompletedOk(w, net', n)
  {
    RecordsGrow(w, net, net', n);
    hide RecordsOk;
  }

  /** A quiet change of node n's store, possibly ending call k. */
  lemma QuietKeeps(w: World, net: Net, net': Net, n: Id, k: nat, id: MsgId)
    requires Inv(w, net) && OnlyNode(net, net', n, id) && Quiet(net.stores[n], net'.stores[n])
    requires net'.completed == net.completed && QuietAllowed(w, net, net', n)
    requires net'.published == net.published && net'.refused == net.refused && net'.loops == net.loops
    requires net'.calls == net.calls || net'.calls == net.calls - {k}
    ensures Inv(w, net')
  {
    hide Inv, HopsOk, StoreOk, NodesOk, CallsOk, HistoryOk;
    hide LoopsOk, RecordsOk, CompletedOk, LiveOk, Quiet, QuietAllowed;
    Parts(w, net);
    NodeFacts(w, net, n);
    QuietStore(w, net.stores[n], net'.stores[n], !net.slipped);
    QuietNodes(w, net, net', n, id);
    NodesStep(w, net, net', n, id);
    forall j | j in net'.calls && net.calls[j].phase.Streaming? && net.calls[j].to == n
      ensures net.calls[j].msg.signed.id in w.truth && LiveOk(w, net', net.calls[j])
    {
      StreamOf(w, net, j);
      QuietStream(w, net, net', n, id, net.calls[j]);
    }
    var i := Above(net'.calls.Keys);
    CallsStep(w, net, net', n, id, i);
    HistoryStep(w, net, net');
    LoopsStep(net, net');
    Together(w, net, net');
  }

  /** A peer file is written. */
  lemma PeerFileKeeps(w: World, net: Net, net': Net, n: Id, k: nat, id: MsgId, to: Id, pi: PeerInfo)
    requires Inv(w, net) && n in net.stores
    requires net' == net.(stores := net.stores[n := SetPeerInfo(net.stores[n], id, to, pi)], calls := net'.calls)
    requires net'.calls == net.calls || net'.calls == net.calls - {k}
    requires id in net.stores[n].dirs ==> PeerFileOk(w, net, id, to, pi)
    ensures Inv(w, net')
  {
    hide Inv, HopsOk;
    assert |net'.stores.Keys| == |net.stores.Keys|;
    assert PeerFileOk(w, net, id, to, pi) ==> PeerFileOk(w, net', id, to, pi);
    hide PeerFileOk;
    assert QuietAllowed(w, net, net', n);
    hide QuietAllowed;
    QuietKeeps(w, net, net', n, k, id);
  }

  lemma PeerFacts(w: World, net: Net, n: Id, id: MsgId, to: Id)
    requires Inv(w, net) && n in net.stores
    ensures PeerFileOk(w, net, id, to, GetPeerInfo(net.stores[n], id, to))
  {
    hide Inv, StoreOk, CompletedOk, HopsOk;
    NodeFacts(w, net, n);
  }

  lemma PeerSent(w: World, net: Net, n: Id, id: MsgId, to: Id)
    requires Inv(w, net) && n in net.stores && GetPeerInfo(net.stores[n], id, to).sent && !net.slipped
    ensures (to, id) in net.completed
  {
    hide Inv, GetPeerInfo;
    PeerFacts(w, net, n, id, to);
  }

  /** AfterPush adds Sent exactly for an accepted push, and FatalError for one that failed for good. */
  lemma AfterPushMarks(pi: PeerInfo, r: Delivery.PushResult, later: int, draw: nat)
    ensures var pi' := Delivery.AfterPush(pi, r, later, draw);
            && (pi'.sent <==> pi.sent || Delivery.Accepted(r))
            && (pi'.fatal <==> pi.fatal || (!Delivery.Accepted(r) && !Delivery.Retried(r)))
  {
  }

  /** The sweeper removes only what has expired. */
  lemma SweepAllowed(w: World, net: Net, net': Net, n: Id)
    requires Inv(w, net) && n in net.stores && n in net'.stores && net'.stores[n] == Sweep(net.stores[n], net.clock)
    ensures Quiet(net.stores[n], net'.stores[n]) && QuietAllowed(w, net, net', n)
  {
    hide Inv, PeerFileOk, RecordsOk, CompletedOk;
    NodeFacts(w, net, n);
    forall id | id in net.stores[n].dirs && id !in net'.stores[n].dirs
      ensures id in w.truth && w.truth[id].signed.Expired(net.clock)
    {
      assert CopyOk(w, net.stores[n], id, !net.slipped);
    }
  }

  lemma SweepKeeps(w: World, net: Net, n: Id)
    requires Inv(w, net) && n in net.stores
    ensures Inv(w, Apply(w, net, SweepStore(n)))
  {
    hide Inv, Quiet, QuietAllowed, Sweep;
    var net' := Apply(w, net, SweepStore(n));
    SweepAllowed(w, net, net', n);
    assert |net'.stores.Keys| == |net.stores.Keys|;
    QuietKeeps(w, net, net', n, 0, []);
  }

  // ---------- Loops and history ----------

  /** Only loops, refusals and missed entries change. */
  lemma AsideKeeps(w: World, net: Net, net': Net)
    requires Inv(w, net) && net' == net.(loops := net'.loops, refused := net'.refused, missed := net'.missed)
    requires LoopsOk(net')
    requires forall x :: x in net'.refused && x !in net.refused ==>
               (x.2, x.1) in net.completed || 0 < w.maxHops < |net.stores|
    ensures Inv(w, net')
  {
    hide Inv, LoopsOk;
    Parts(w, net);
    HistoryStep(w, net, net');
    var mid := net.(loops := net'.loops, missed := net'.missed);
    NodesSame(w, net, mid);
    NodesAnyHistory(w, mid, net');
    hide NodesOk, HistoryOk;
    forall k | k in net'.calls
      ensures CallOk(w, net', net'.calls[k])
    {
      assert CallOk(w, net, net.calls[k]);
      hide HopsOk, HopsDone, LiveOk;
      LiveSame(w, net, net', net.calls[k]);
      CallGrow(w, net, net', net.calls[k]);
    }
    hide CallOk;
    Together(w, net, net');
  }

  /** What is said of the nodes does not mention refusals. */
  lemma NodesAnyHistory(w: World, net: Net, net': Net)
    requires NodesOk(w, net) && net' == net.(refused := net'.refused)
    ensures NodesOk(w, net')
  {
    hide StoreOk;
    forall n | n in net'.stores
      ensures RecordsOk(w, net', n) && CompletedOk(w, net', n)
    {
      assert RecordsOk(w, net, n) && CompletedOk(w, net, n);
      RecordsGrow(w, net, net', n);
      hide RecordsOk;
    }
  }

  /**
   * checkHops gives up exactly on the messages that the receiver, told one hop
   * more, would refuse for their hops, and on those that the peer itself relayed.
   */
  lemma CheckHopsForesees(w: World, fs: Fs, clock: int, n: Id, to: Id, m: Message, offset: nat)
    requires !m.signed.Expired(clock)
    ensures var r := ServePush(w, fs, clock, m.(hops := m.hops + [n]), offset).1;
            var c := CheckHops(m.hops, to, w.maxHops);
            && (c == AlreadyThere <==> to in m.hops)
            && (c == HopLimit <==> to !in m.hops && r == Err(Error.TooManyHops))
            && (c == NotRefused <==> to !in m.hops && r != Err(Error.TooManyHops))
  {
  }

  /** A message is refused as expired exactly after the date that lies Lifespan after its creation; nothing changes. */
  lemma RefusedOnceExpired(w: World, fs: Fs, now: Civil, m: Message, offset: nat)
    requires Calendar.Exists(m.signed.created) && Calendar.Exists(now) && m.signed.lifespan >= 0
    ensures var (fs', r) := ServePush(w, fs, now.Instant(), m, offset);
            && (r == Err(Error.Expired)
                <==> Calendar.Earlier(Calendar.Later(m.signed.created, m.signed.lifespan), now))
            && (r == Err(Error.Expired) ==> fs' == fs)
  {
    Calendar.ExpiredIff(m.signed, now);
    hide Signed.Expired, Calendar.Later, Calendar.Earlier, Civil.Instant;
  }

  /** A refusal by checkHops names a peer that has the message, unless MaxHops is below the number of nodes. */
  lemma RefusalMeans(w: World, net: Net, n: Id, to: Id, m: Message)
    requires HopsOk(w, net, n, m) && CheckHops(m.hops, to, w.maxHops) != NotRefused
    ensures (to, m.signed.id) in net.completed || 0 < w.maxHops < |net.stores|
  {
    HopsShort(w, net, n, m);
  }

  lemma SubLoops(w: World, net: Net, n: Id, to: Id)
    requires LoopsOk(net) && (n, to) in net.loops && net.loops[(n, to)].inbox != []
    requires net.slipped || (n, net.loops[(n, to)].inbox[0].signed.id) in net.completed
    ensures LoopsOk(ApplySub(w, net, n, to))
  {
    hide CheckHops, LoopsOk;
    LoopsStep(net, ApplySub(w, net, n, to));
  }

  lemma SubLoopKeeps(w: World, net: Net, n: Id, to: Id)
    requires Inv(w, net)
    ensures Inv(w, ApplySub(w, net, n, to))
  {
    hide Inv, HopsOk, LoopsOk, CheckHops, NodesOk, CallsOk, HistoryOk;
    var net' := ApplySub(w, net, n, to);
    if net' != net {
      var m := net.loops[(n, to)].inbox[0];
      HeadFacts(w, net, n, to);
      if CheckHops(m.hops, to, w.maxHops) != NotRefused {
        RefusalMeans(w, net, n, to, m);
      }
      Parts(w, net);
      SubLoops(w, net, n, to);
      AsideKeeps(w, net, net');
    }
  }

  /** The first message of a subscription was published by its node. */
  lemma HeadFacts(w: World, net: Net, n: Id, to: Id)
    requires Inv(w, net) && (n, to) in net.loops && net.loops[(n, to)].inbox != []
    ensures var m := net.loops[(n, to)].inbox[0];
            && n in net.stores && (n, m) in net.published && HopsOk(w, net, n, m)
            && (net.slipped || (n, m.signed.id) in net.completed)
  {
    hide Inv;
    Parts(w, net);
    hide NodesOk, CallsOk;
    assert LoopOk(net, (n, to));
    assert net.loops[(n, to)].inbox[0] in net.loops[(n, to)].inbox;
  }

  lemma SelectLoops(net: Net, n: Id, peers: set<Id>)
    requires LoopsOk(net)
    ensures LoopsOk(ApplySelect(net, n, peers))
  {
    hide LoopsOk;
    LoopsStep(net, ApplySelect(net, n, peers));
  }

  lemma SelectKeeps(w: World, net: Net, n: Id, peers: set<Id>)
    requires Inv(w, net)
    ensures Inv(w, ApplySelect(net, n, peers))
  {
    hide Inv, NodesOk, CallsOk, HistoryOk, LoopsOk;
    Parts(w, net);
    SelectLoops(net, n, peers);
    AsideKeeps(w, net, ApplySelect(net, n, peers));
  }

  /** What DiffScan writes into the store. */
  lemma ScanInfos(w: World, net: Net, n: Id, to: Id, order: seq<MsgId>, has: set<MsgId>, e: nat)
    requires Inv(w, net) && n in net.stores && Listing(net.stores[n], net.clock, order) && e <= |order|
    ensures var c, fs := SettingOf(w, net, n, to, has), net.stores[n];
            var p := UpTo(c, Manifest(fs, order), e);
            var net' := net.(stores := net.stores[n := StoreInfos(fs, to, p.infos)]);
            Quiet(fs, net'.stores[n]) && QuietAllowed(w, net, net', n)
  {
    hide Inv, UpTo;
    var c, fs := SettingOf(w, net, n, to, has), net.stores[n];
    var manifest := Manifest(fs, order);
    var p := UpTo(c, manifest, e);
    var fs' := StoreInfos(fs, to, p.infos);
    var net' := net.(stores := net.stores[n := fs']);
    assert |net'.stores.Keys| == |net.stores.Keys|;
    forall id, q | id in fs'.dirs && q in fs'.dirs[id].peers
      ensures PeerFileOk(w, net', id, q, fs'.dirs[id].peers[q])
    {
      ScanPeerFile(w, net, n, to, manifest, has, e, id, q);
    }
  }

  /** DiffScan queues only messages that the node has. */
  lemma ScanInserts(w: World, net: Net, n: Id, to: Id, order: seq<MsgId>, has: set<MsgId>, e: nat)
    requires Inv(w, net) && n in net.stores && Listing(net.stores[n], net.clock, order) && e <= |order|
    ensures var p := UpTo(SettingOf(w, net, n, to, has), Manifest(net.stores[n], order), e);
            forall x :: x in p.inserts ==> (n, x.id) in net.completed
  {
    hide Inv, UpTo;
    NodeFacts(w, net, n);
    hide StoreOk, HopsOk;
    var c, fs := SettingOf(w, net, n, to, has), net.stores[n];
    var manifest := Manifest(fs, order);
    EntriesSoFar(c, manifest, e);
    forall x | x in UpTo(c, manifest, e).inserts
      ensures (n, x.id) in net.completed
    {
      assert Entered(manifest, e, x.id);
      var i :| 0 <= i < e && manifest[i].signed.id == x.id;
      assert order[i] in fs.dirs && IsComplete(fs, order[i]);
    }
  }

  lemma ScanPeerFile(w: World, net: Net, n: Id, to: Id, manifest: seq<Message>, has: set<MsgId>, e: nat, id: MsgId,
                     q: Id)
    requires Inv(w, net) && n in net.stores && e <= |manifest|
    requires var infos := UpTo(SettingOf(w, net, n, to, has), manifest, e).infos;
             id in StoreInfos(net.stores[n], to, infos).dirs && q in StoreInfos(net.stores[n], to, infos).dirs[id].peers
    ensures var infos := UpTo(SettingOf(w, net, n, to, has), manifest, e).infos;
            PeerFileOk(w, net, id, q, StoreInfos(net.stores[n], to, infos).dirs[id].peers[q])
  {
    hide Inv, UpTo;
    var c := SettingOf(w, net, n, to, has);
    PeerFacts(w, net, n, id, q);
    PeerFacts(w, net, n, id, to);
    InfosSoFar(c, manifest, e, id, set x | x in has && (to, x) in net.completed);
  }

  lemma ScanKeeps(w: World, net: Net, n: Id, to: Id, order: seq<MsgId>, has: set<MsgId>, broke: Option<nat>)
    requires Inv(w, net)
    ensures Inv(w, ApplyScan(w, net, n, to, order, has, broke))
  {
    hide Inv, UpTo, StopAt, Quiet, QuietAllowed, StoreInfos;
    var net' := ApplyScan(w, net, n, to, order, has, broke);
    if (n, to) in net.loops && net.loops[(n, to)].diffing
       && n in net.stores && Listing(net.stores[n], net.clock, order) {
      var c, manifest := SettingOf(w, net, n, to, has), Manifest(net.stores[n], order);
      var e := DealtWith(c, manifest, broke);
      ScanInfos(w, net, n, to, order, has, e);
      ScanInserts(w, net, n, to, order, has, e);
      var mid := net.(stores := net'.stores);
      assert |mid.stores.Keys| == |net.stores.Keys|;
      QuietKeeps(w, net, mid, n, 0, []);
      assert LoopsOk(mid) by { Parts(w, mid); }
      ScanLoops(w, net, mid, net', n, to, UpTo(c, manifest, e).inserts);
      forall i | 0 <= i < |order| && CheckHops(manifest[i].hops, to, w.maxHops) != NotRefused
        ensures (to, order[i]) in net.completed || 0 < w.maxHops < |net.stores|
      {
        ListedHops(w, net, n, order, i);
        RefusalMeans(w, net, n, to, manifest[i]);
      }
      AsideKeeps(w, mid, net');
    }
  }

  lemma ListedHops(w: World, net: Net, n: Id, order: seq<MsgId>, i: nat)
    requires Inv(w, net) && n in net.stores && Listing(net.stores[n], net.clock, order) && i < |order|
    ensures HopsOk(w, net, n, Manifest(net.stores[n], order)[i])
    ensures Manifest(net.stores[n], order)[i].signed.id == order[i]
  {
    hide Inv, HopsOk, StoreOk, CompletedOk;
    NodeFacts(w, net, n);
  }

  lemma ScanLoops(w: World, net: Net, mid: Net, net': Net, n: Id, to: Id, inserts: seq<Queue.Elem>)
    requires LoopsOk(mid) && (n, to) in mid.loops && (n, to) in net'.loops
    requires net' == mid.(loops := net'.loops, refused := net'.refused, missed := net'.missed)
    requires forall x :: x in inserts ==> (n, x.id) in mid.completed
    requires var l, l' := mid.loops[(n, to)], net'.loops[(n, to)];
             && net'.loops == mid.loops[(n, to) := l'] && l'.inbox == l.inbox
             && l'.queue == l.queue + seq(|inserts|, i requires 0 <= i < |inserts| => inserts[i].id)
    ensures LoopsOk(net')
  {
    LoopsStep(mid, net');
  }

  // ---------- msgLoop ----------

  /** What taking an id from the queue leaves of the loops. */
  function Taken(net: Net, x: (Id, Id), i: nat): Net
    requires x in net.loops && i < |net.loops[x].queue|
  {
    net.(loops := net.loops[x := net.loops[x].(queue := net.loops[x].queue[..i] + net.loops[x].queue[i + 1..])])
  }

  lemma TakenKeeps(w: World, net: Net, x: (Id, Id), i: nat)
    requires Inv(w, net) && x in net.loops && i < |net.loops[x].queue|
    ensures Inv(w, Taken(net, x, i))
    ensures net.slipped || (x.0, net.loops[x].queue[i]) in net.completed
  {
    hide Inv;
    Parts(w, net);
    hide NodesOk, CallsOk, HistoryOk;
    assert LoopOk(net, x);
    assert net.loops[x].queue[i] in net.loops[x].queue;
    LoopsStep(net, Taken(net, x, i));
    hide LoopsOk;
    AsideKeeps(w, net, Taken(net, x, i));
  }

  /** Giving up on a message that is gone or has expired. */
  lemma GiveUpFile(w: World, net: Net, n: Id, to: Id, id: MsgId, r: Delivery.PushResult)
    requires Inv(w, net) && n in net.stores && (net.slipped || (n, id) in net.completed)
    requires !Delivery.Accepted(r)
    requires OpenRead(net.stores[n], id).Err? || OpenRead(net.stores[n], id).value.0.signed.Expired(net.clock)
    ensures id in net.stores[n].dirs ==>
              PeerFileOk(w, net, id, to, Delivery.AfterPush(GetPeerInfo(net.stores[n], id, to), r, net.clock, 0))
  {
    hide Inv;
    NodeFacts(w, net, n);
    PeerFacts(w, net, n, id, to);
    hide RecordsOk;
    if id in net.stores[n].dirs {
      assert CopyOk(w, net.stores[n], id, !net.slipped);
    }
    AfterPushMarks(GetPeerInfo(net.stores[n], id, to), r, net.clock, 0);
    hide Delivery.AfterPush;
  }

  lemma PopKeeps(w: World, net: Net, k: nat, n: Id, to: Id, i: nat)
    requires Inv(w, net)
    ensures Inv(w, ApplyPop(net, k, n, to, i))
  {
    hide Inv, SetPeerInfo, Delivery.AfterPush;
    var net' := ApplyPop(net, k, n, to, i);
    if net' != net {
      var x := (n, to);
      var id := net.loops[x].queue[i];
      var net1, fs := Taken(net, x, i), net.stores[n];
      TakenKeeps(w, net, x, i);
      var pi, r := GetPeerInfo(fs, id, to), OpenRead(fs, id);
      if !Delivery.Terminal(pi) {
        if r.Err? || r.value.0.signed.Expired(net.clock) {
          var result := if r.Err? then Delivery.NotFound else Delivery.Stale;
          GiveUpFile(w, net1, n, to, id, result);
          PeerFileKeeps(w, net1, net', n, 0, id, to, Delivery.AfterPush(pi, result, net.clock, 0));
        } else {
          BegunCall(w, net1, n, to, id);
          CallOnly(w, net1, net', k);
        }
      }
    }
  }

  /** The call that a push begins with. */
  lemma BegunCall(w: World, net: Net, n: Id, to: Id, id: MsgId)
    requires Inv(w, net) && n in net.stores && to in net.stores && OpenRead(net.stores[n], id).Ok?
    ensures var r := OpenRead(net.stores[n], id).value;
            var c := Call(n, to, r.0.(hops := r.0.hops + [n]), r.1, 0, 0, Calling([], false));
            forall calls :: CallOk(w, net.(calls := calls), c)
  {
    hide Inv;
    NodeFacts(w, net, n);
    assert CopyOk(w, net.stores[n], id, !net.slipped);
    hide StoreOk;
  }

  /** The peer file that records the outcome of a push is sound. */
  lemma OutcomeFile(w: World, net: Net, k: nat, draw: nat)
    requires Inv(w, net) && k in net.calls && net.calls[k].phase.Replied? && net.calls[k].from in net.stores
    ensures var c := net.calls[k];
            var id, r := c.msg.signed.id, ResultOf(c.phase.reply);
            && var before := GetPeerInfo(net.stores[c.from], id, c.to);
            && PeerFileOk(w, net, id, c.to, Delivery.AfterPush(before, r, net.clock, draw))
            && (c.from, id) in net.completed
  {
    hide Inv, HopsOk, HopsDone, LiveOk, InStep;
    hide Delivery.AfterPush, ResultOf, Delivery.Accepted, Delivery.Retried, GetPeerInfo;
    var c := net.calls[k];
    CallFacts(w, net, k);
    PeerFacts(w, net, c.from, c.msg.signed.id, c.to);
    AfterPushMarks(GetPeerInfo(net.stores[c.from], c.msg.signed.id, c.to), ResultOf(c.phase.reply), net.clock, draw);
  }

  lemma RecordKeeps(w: World, net: Net, k: nat, draw: nat)
    requires Inv(w, net)
    ensures Inv(w, ApplyRecord(net, k, draw))
  {
    hide Inv, Delivery.AfterPush, SetPeerInfo, GetPeerInfo, ResultOf, PeerFileOk;
    var net' := ApplyRecord(net, k, draw);
    if k in net.calls && net.calls[k].phase.Replied? && net.calls[k].from in net.stores {
      var c := net.calls[k];
      var id, r := c.msg.signed.id, ResultOf(c.phase.reply);
      OutcomeFile(w, net, k, draw);
      var mid := net.(stores := net'.stores, calls := net'.calls);
      PeerFileKeeps(w, net, mid, c.from, k, id, c.to,
                    Delivery.AfterPush(GetPeerInfo(net.stores[c.from], id, c.to), r, net.clock, draw));
      hide LoopsOk, NodesOk, CallsOk, HistoryOk;
      Parts(w, mid);
      RecordLoops(mid, net', c.from, c.to, id);
      AsideKeeps(w, mid, net');
    }
  }

  /** A message that its node completed may be queued again. */
  lemma RecordLoops(net: Net, net': Net, n: Id, to: Id, id: MsgId)
    requires LoopsOk(net) && (n, id) in net.completed && net' == net.(loops := net'.loops)
    requires net'.loops == net.loops
             || ((n, to) in net.loops
                 && net'.loops == net.loops[(n, to) := net.loops[(n, to)].(queue := net.loops[(n, to)].queue + [id])])
    ensures LoopsOk(net')
  {
    hide LoopsOk;
    LoopsStep(net, net');
  }

  // ---------- Runs ----------

  lemma TickKeeps(w: World, net: Net, now: int)
    requires Inv(w, net) && net.clock <= now
    ensures Inv(w, net.(clock := now))
  {
    hide Inv;
    Parts(w, net);
    var net' := net.(clock := now);
    NodesSame(w, net, net');
    hide NodesOk, HistoryOk;
    LoopsStep(net, net');
    hide LoopsOk;
    forall k | k in net'.calls
      ensures CallOk(w, net', net'.calls[k])
    {
      assert CallOk(w, net, net.calls[k]);
      hide HopsOk, HopsDone, LiveOk;
      LiveSame(w, net, net', net.calls[k]);
      CallGrow(w, net, net', net.calls[k]);
    }
    hide CallOk;
    Together(w, net, net');
  }

  /** Every step keeps the invariant. */
  lemma ApplyKeeps(w: World, net: Net, a: Action)
    requires Inv(w, net)
    ensures Inv(w, Apply(w, net, a))
  {
    hide Inv, ApplyCall, ApplyAsk, ApplySend, ApplyReceive;
    hide ServeClose, ApplyScan, ApplyPop, ApplyRecord, ApplySub, ApplySelect;
    match a
    case Tick(now) => if net.clock <= now { TickKeeps(w, net, now); }
    case SelectPeers(n, peers) => SelectKeeps(w, net, n, peers);
    case Inject(n, id) => if MayInject(w, net, n, id) { InjectKeeps(w, net, n, id); }
    case SubLoop(n, to) => SubLoopKeeps(w, net, n, to);
    case DiffScan(n, to, order, has, broke) => ScanKeeps(w, net, n, to, order, has, broke);
    case Pop(k, n, to, i) => PopKeeps(w, net, k, n, to, i);
    case CallPush(k) => CallPushKeeps(w, net, k);
    case AskOffset(k) => AskOffsetKeeps(w, net, k);
    case SendPacket(k, size) => SendPacketKeeps(w, net, k, size);
    case EndStream(k) => EndStreamKeeps(w, net, k);
    case Receive(k) => ReceiveKeeps(w, net, k);
    case Finish(_) => CloseKeeps(w, net, a);
    case Interrupt(_, _) => CloseKeeps(w, net, a);
    case Fail(_) => MarkCallKeeps(w, net, a);
    case LoseReply(_) => MarkCallKeeps(w, net, a);
    case Retry(_) => MarkCallKeeps(w, net, a);
    case Record(k, draw) => RecordKeeps(w, net, k, draw);
    case SweepStore(n) => if n in net.stores { SweepKeeps(w, net, n); }
  }

  lemma {:induction false} RunKeeps(w: World, net: Net, actions: seq<Action>)
    requires Inv(w, net)
    ensures Inv(w, Run(w, net, actions))
    decreases actions
  {
    if actions != [] {
      hide Inv, Apply;
      ApplyKeeps(w, net, actions[0]);
      RunKeeps(w, Apply(w, net, actions[0]), actions[1..]);
    }
  }

  lemma InitInv(w: World, nodes: set<Id>, clock: int)
    requires WorldOk(w)
    ensures Inv(w, Init(nodes, clock))
  {
  }
}

/** Which completed messages a node publishes. */
module Publication {
  import opened Order
  import opened Message
  import opened Storage
  import opened Network
  import opened NetworkInv
  import opened Flooding

  ghost predicate Published(net: Net, n: Id, id: MsgId)
  {
    exists m :: (n, m) in net.published && m.signed.id == id
  }

  /** All content has been written to a file that is still linked. */
  ghost predicate AllReceived(net: Net, k: nat)
  {
    && Streams(net, k) && net.calls[k].phase.w.pos == |net.calls[k].content|
    && net.calls[k].msg.signed.id in net.stores[net.calls[k].to].dirs
  }

  /** A resumed stream breaks after its last byte. */
  ghost predicate SilentEnd(net: Net, a: Action)
  {
    a.Interrupt? && AllReceived(net, a.k) && net.calls[a.k].offset > 0
  }

  /** What the end of a stream completes and publishes, when no push slipped. */
  lemma CloseCompletes(w: World, net: Net, k: nat, failed: bool, heard: bool)
    requires Inv(w, net) && !net.slipped && Streams(net, k)
    requires failed <==> net.calls[k].phase.w.pos != |net.calls[k].content| || (failed && net.calls[k].offset > 0)
    ensures var c, net' := net.calls[k], ServeClose(w, net, k, failed, heard);
            var x := (c.to, c.msg.signed.id);
            && x !in net.completed && !Published(net, c.to, c.msg.signed.id)
            && net'.completed == (if AllReceived(net, k) then net.completed + {x} else net.completed)
            && net'.published == (if AllReceived(net, k) && !failed then net.published + {(c.to, c.msg)}
                                  else net.published)
  {
    hide Inv, Close, ServeClose, StoreOk, RecordsOk, CompletedOk, HopsOk, HopsDone, Publish;
    var c := net.calls[k];
    ServeCloseShape(w, net, k, failed, heard);
    StreamFacts(w, net, k);
    assert !Published(net, c.to, c.msg.signed.id) by {
      Parts(w, net);
      hide NodesOk, CallsOk, LoopsOk;
    }
    hide Published;
    CloseExactly(w, net.stores[c.to], c);
  }

  /** Close marks exactly a file that is whole and linked, and fails exactly if it is whole and unlinked. */
  lemma CloseExactly(w: World, fs: Fs, c: Call)
    requires c.phase.Streaming? && StreamOk(fs, c) && InStep(c)
    requires |c.content| == c.msg.signed.length && w.sha(c.content) == c.msg.signed.sha256
    ensures var (fs', err) := Close(w.sha, fs, c.phase.w);
            var id := c.msg.signed.id;
            && (IsComplete(fs', id) <==> c.phase.w.pos == |c.content| && id in fs.dirs)
            && (err.Some? <==> c.phase.w.pos == |c.content| && id !in fs.dirs)
  {
    assert c.content[..|c.content|] == c.content;
  }

  /**
   * A stream that breaks after its last byte completes the message, and
   * publishes it exactly if the stream was not a resumed one.
   */
  lemma InterruptPublishes(w: World, net: Net, k: nat, heard: bool)
    requires Inv(w, net) && !net.slipped && AllReceived(net, k)
    ensures var c, net' := net.calls[k], Apply(w, net, Interrupt(k, heard));
            && (c.to, c.msg.signed.id) in net'.completed
            && (Published(net', c.to, c.msg.signed.id) <==> c.offset == 0)
  {
    InterruptIs(w, net, k, heard);
  }

  lemma InterruptIs(w: World, net: Net, k: nat, heard: bool)
    requires Inv(w, net) && !net.slipped && Streams(net, k)
    ensures var c, net' := net.calls[k], Apply(w, net, Interrupt(k, heard));
            var x := (c.to, c.msg.signed.id);
            && x !in net.completed && !Published(net, c.to, c.msg.signed.id)
            && net'.completed == (if AllReceived(net, k) then net.completed + {x} else net.completed)
            && net'.published == (if AllReceived(net, k) && c.offset == 0 then net.published + {(c.to, c.msg)}
                                  else net.published)
  {
    hide Inv, ServeClose, Published;
    StreamFacts(w, net, k);
    hide HopsOk, HopsDone, StoreOk, RecordsOk, CompletedOk;
    var c := net.calls[k];
    CloseCompletes(w, net, k, c.phase.size != c.msg.signed.length, heard);
  }

  lemma FinishIs(w: World, net: Net, k: nat)
    requires Inv(w, net) && !net.slipped && Streams(net, k)
    requires net.calls[k].phase.ended && net.calls[k].phase.inFlight == []
    ensures var c, net' := net.calls[k], Apply(w, net, Finish(k));
            var x := (c.to, c.msg.signed.id);
            && x !in net.completed && !Published(net, c.to, c.msg.signed.id)
            && net'.completed == (if AllReceived(net, k) then net.completed + {x} else net.completed)
            && net'.published == (if AllReceived(net, k) then net.published + {(c.to, c.msg)} else net.published)
  {
    hide Inv, ServeClose, Published;
    StreamFacts(w, net, k);
    hide HopsOk, HopsDone, StoreOk, RecordsOk, CompletedOk;
    var c := net.calls[k];
    assert |c.content[c.phase.w.pos..c.reader]| == 0;
    CloseCompletes(w, net, k, false, true);
  }

  lemma InjectIs(w: World, net: Net, n: Id, id: MsgId)
    requires Inv(w, net) && MayInject(w, net, n, id)
    ensures var net' := Apply(w, net, Inject(n, id));
            && (n, id) !in net.completed && net'.completed == net.completed + {(n, id)}
            && net'.published == net.published + {(n, Message([], w.truth[id].signed))} && w.truth[id].signed.id == id
  {
    hide Inv, Apply;
    Parts(w, net);
    hide NodesOk, CallsOk, HistoryOk, LoopsOk;
    InjectShape(w, net, n, id);
    NodeFacts(w, net, n);
  }

  /**
   * What one step completes is published by the same step, unless it is a silent
   * end; what was not published stays so.
   */
  lemma StepPublishes(w: World, net: Net, a: Action)
    requires Inv(w, net) && !net.slipped
    ensures var net' := Apply(w, net, a);
            && (forall n, id :: (n, id) in net'.completed && (n, id) !in net.completed ==>
                  (Published(net', n, id) <==> !SilentEnd(net, a)))
            && (forall n, id :: (n, id) in net.completed ==> (Published(net', n, id) <==> Published(net, n, id)))
            && (SilentEnd(net, a) ==>
                  exists n, id :: (n, id) in net'.completed && (n, id) !in net.completed)
  {
    hide Inv, Apply;
    match a
    case Inject(n, id) =>
      if MayInject(w, net, n, id) {
        InjectIs(w, net, n, id);
        OnePublished(net, Apply(w, net, a), n, Message([], w.truth[id].signed));
      } else {
        NotInjected(w, net, n, id);
      }
    case Finish(k) =>
      if Streams(net, k) && net.calls[k].phase.ended && net.calls[k].phase.inFlight == [] {
        FinishIs(w, net, k);
        StreamEnds(net, Apply(w, net, a), net.calls[k].to, net.calls[k].msg, AllReceived(net, k), AllReceived(net, k));
      } else {
        NotFinished(w, net, k);
      }
    case Interrupt(k, heard) =>
      if Streams(net, k) {
        InterruptIs(w, net, k, heard);
        StreamEnds(net, Apply(w, net, a), net.calls[k].to, net.calls[k].msg, AllReceived(net, k),
                   AllReceived(net, k) && net.calls[k].offset == 0);
        if SilentEnd(net, a) {
          assert (net.calls[k].to, net.calls[k].msg.signed.id) in Apply(w, net, a).completed;
        }
      } else {
        NotInterrupted(w, net, k, heard);
      }
    case _ => ApplySteady(w, net, a);
  }

  lemma NotInjected(w: World, net: Net, n: Id, id: MsgId)
    requires !MayInject(w, net, n, id)
    ensures Apply(w, net, Inject(n, id)) == net
  {
  }

  lemma NotFinished(w: World, net: Net, k: nat)
    requires !(Streams(net, k) && net.calls[k].phase.ended && net.calls[k].phase.inFlight == [])
    ensures Apply(w, net, Finish(k)) == net
  {
  }

  lemma NotInterrupted(w: World, net: Net, k: nat, heard: bool)
    requires !Streams(net, k)
    ensures Apply(w, net, Interrupt(k, heard)) == net
  {
  }

  lemma OnePublished(net: Net, net': Net, q: Id, m: Message)
    requires net'.published == net.published + {(q, m)}
    ensures forall n, id :: Published(net', n, id) <==> Published(net, n, id) || (n == q && id == m.signed.id)
  {
    assert (q, m) in net'.published;
    forall n, id | Published(net, n, id)
      ensures Published(net', n, id)
    {
      var m1 :| (n, m1) in net.published && m1.signed.id == id;
      assert (n, m1) in net'.published;
    }
  }

  lemma StreamEnds(net: Net, net': Net, q: Id, m: Message, completes: bool, publishes: bool)
    requires (q, m.signed.id) !in net.completed && !Published(net, q, m.signed.id)
    requires net'.completed == if completes then net.completed + {(q, m.signed.id)} else net.completed
    requires net'.published == if publishes then net.published + {(q, m)} else net.published
    ensures forall n, id :: (n, id) in net'.completed && (n, id) !in net.completed ==>
              (Published(net', n, id) <==> publishes)
    ensures forall n, id :: (n, id) in net.completed ==> (Published(net', n, id) <==> Published(net, n, id))
  {
    if publishes {
      OnePublished(net, net', q, m);
    } else {
      assert forall n, id :: Published(net', n, id) <==> Published(net, n, id);
    }
  }

  /** No resumed stream breaks after its last byte in the run. */
  ghost predicate NoSilentEnd(w: World, net: Net, actions: seq<Action>)
    decreases actions
  {
    actions != [] ==> !SilentEnd(net, actions[0]) && NoSilentEnd(w, Apply(w, net, actions[0]), actions[1..])
  }

  ghost predicate AllPublished(net: Net)
  {
    forall n, id :: (n, id) in net.completed ==> Published(net, n, id)
  }

  /** A completion that was not published never is. */
  lemma {:induction false} StaysUnpublished(w: World, net: Net, actions: seq<Action>, n: Id, id: MsgId)
    requires Inv(w, net) && (n, id) in net.completed && !Published(net, n, id) && !Run(w, net, actions).slipped
    ensures var net' := Run(w, net, actions); (n, id) in net'.completed && !Published(net', n, id)
    decreases actions
  {
    if actions != [] {
      hide Inv, Apply, Published;
      var net1 := Apply(w, net, actions[0]);
      RunLater(w, net1, actions[1..]);
      ApplyLater(w, net, actions[0]);
      ApplyKeeps(w, net, actions[0]);
      StepPublishes(w, net, actions[0]);
      StaysUnpublished(w, net1, actions[1..], n, id);
    }
  }

  lemma {:induction false} RunPublishes(w: World, net: Net, actions: seq<Action>)
    requires Inv(w, net) && AllPublished(net) && !Run(w, net, actions).slipped
    ensures AllPublished(Run(w, net, actions)) <==> NoSilentEnd(w, net, actions)
    decreases actions
  {
    if actions != [] {
      hide Inv, Apply, Published;
      var a := actions[0];
      var net1 := Apply(w, net, a);
      RunLater(w, net1, actions[1..]);
      ApplyLater(w, net, a);
      ApplyKeeps(w, net, a);
      StepPublishes(w, net, a);
      if SilentEnd(net, a) {
        var n, id :| (n, id) in net1.completed && (n, id) !in net.completed;
        StaysUnpublished(w, net1, actions[1..], n, id);
      } else {
        assert AllPublished(net1);
        RunPublishes(w, net1, actions[1..]);
      }
    }
  }

  /**
   * Over every run without slips, every message that any node completed was
   * published there, if and only if no resumed stream broke after its last byte.
   */
  lemma PublishedIff(w: World, nodes: set<Id>, clock: int, actions: seq<Action>)
    requires WorldOk(w) && !Run(w, Init(nodes, clock), actions).slipped
    ensures AllPublished(Run(w, Init(nodes, clock), actions)) <==> NoSilentEnd(w, Init(nodes, clock), actions)
  {
    hide Inv, Run, NoSilentEnd;
    InitInv(w, nodes, clock);
    RunPublishes(w, Init(nodes, clock), actions);
  }
}

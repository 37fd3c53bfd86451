/** A peer subscribes before its loop scans the store: no message falls between the two. */
module Subscribe {
  import opened Message
  import PubSub

  /** The directory scan of Manifest: names still owed by readdir, and names it has returned. */
  datatype Scan = NotStarted | Scanning(owed: set<MsgId>, visited: set<MsgId>) | Finished

  /**
   * `names` are the message directories, `done` the complete ones, `toPublish`
   * the completed messages whose Pub has not happened. `ours` is the channel of
   * the peer being started and `listed` what its scan has yielded.
   */
  datatype State = State(ps: PubSub.State<MsgId>, names: set<MsgId>, done: set<MsgId>, toPublish: set<MsgId>,
                         subscribed: bool, ours: nat, scan: Scan, listed: set<MsgId>)

  datatype Action =
    | MakeDir(id: MsgId)
    | Complete(id: MsgId)                  // Close writes the done file
    | Publish(id: MsgId)                   // the same thread then calls Pub
    | Others(a: PubSub.Action<MsgId>)      // fan-out, receiving, and other subscribers
    | SubscribeOurs                        // startPeer: Sub ...
    | StartScan                            // ... and then its loop opens the directory
    | Visit(id: MsgId)                     // readdir returns a name; it is sent on if complete
    | EndScan

  /** Neither cancellation nor our own Unsub; Pub only through Publish, our Sub only through SubscribeOurs. */
  predicate Allowed(s: State, a: PubSub.Action<MsgId>)
  {
    !a.Pub? && !a.Cancel? && !a.Shutdown? && !a.SkipOnCancel? && !a.CloseOne? && !a.EndShutdown?
    && !((a.Sub? || a.Unsub?) && a.ch == s.ours)
  }

  function Apply(s: State, a: Action): State
  {
    match a
    case MakeDir(id) => s.(names := s.names + {id})
    case Complete(id) =>
      if id in s.names && id !in s.done then s.(done := s.done + {id}, toPublish := s.toPublish + {id}) else s
    case Publish(id) =>
      if id in s.toPublish && s.ps.reader.Idle? then
        s.(ps := PubSub.Apply(s.ps, PubSub.Pub(id)), toPublish := s.toPublish - {id})
      else s
    case Others(a) => if Allowed(s, a) then s.(ps := PubSub.Apply(s.ps, a)) else s
    case SubscribeOurs =>
      if !s.subscribed && PubSub.MutexFree(s.ps) && s.ours !in s.ps.chans then
        s.(ps := PubSub.Apply(s.ps, PubSub.Sub(s.ours)), subscribed := true)
      else s
    case StartScan =>
      if s.subscribed && s.scan.NotStarted? then s.(scan := Scanning(s.names, {})) else s
    case Visit(id) =>
      if s.scan.Scanning? && id in s.names && id !in s.scan.visited then
        s.(scan := Scanning(s.scan.owed - {id}, s.scan.visited + {id}),
           listed := if id in s.done then s.listed + {id} else s.listed)
      else s
    case EndScan => if s.scan.Scanning? && s.scan.owed == {} then s.(scan := Finished) else s
  }

  function Run(s: State, actions: seq<Action>): State
    decreases actions
  {
    if actions == [] then s else Run(Apply(s, actions[0]), actions[1..])
  }

  /** Any state of the publisher before this peer starts: whatever was published is complete. */
  ghost predicate Start(s: State)
  {
    && PubSub.Inv(s.ps) && !s.ps.canceled && !s.subscribed && s.ours !in s.ps.chans
    && s.scan.NotStarted? && s.listed == {}
    && s.toPublish <= s.done <= s.names
    && forall i :: 0 <= i < |s.ps.accepted| ==> s.ps.accepted[i] in s.done
  }

  ghost predicate Inv(s: State)
  {
    && PubSub.Inv(s.ps) && !s.ps.canceled
    && s.toPublish <= s.done <= s.names
    && (forall i :: 0 <= i < |s.ps.accepted| ==> s.ps.accepted[i] in s.done)
    && (s.subscribed <==> s.ours in s.ps.out)
    && (!s.subscribed ==> s.ours !in s.ps.chans && s.scan.NotStarted?)
    && (s.scan.Scanning? ==> s.scan.owed <= s.names && s.scan.owed * s.scan.visited == {})
    && (s.subscribed ==> Covered(s))
  }

  /** Messages published before we subscribed are owed by the scan, or listed. */
  ghost predicate Covered(s: State)
    requires s.ours in s.ps.out && PubSub.Inv(s.ps)
  {
    assert PubSub.ChanOk(s.ps, s.ours);
    forall i :: 0 <= i < s.ps.chans[s.ours].since ==>
      s.scan.NotStarted? || s.ps.published[i] in s.listed || (s.scan.Scanning? && s.ps.published[i] in s.scan.owed)
  }

  lemma ApplyKeeps(s: State, a: Action)
    requires Inv(s)
    ensures Inv(Apply(s, a))
  {
    hide Inv, Apply;
    match a
    case Publish(id) => PublishKeeps(s, id);
    case Others(b) => OthersKeeps(s, b);
    case SubscribeOurs => SubscribeKeeps(s);
    case _ => ScanKeeps(s, a);
  }

  lemma PublishKeeps(s: State, id: MsgId)
    requires Inv(s)
    ensures Inv(Apply(s, Publish(id)))
  {
    PubSub.ApplyKeeps(s.ps, PubSub.Pub(id));
    hide PubSub.Inv;
  }

  lemma OthersKeeps(s: State, b: PubSub.Action<MsgId>)
    requires Inv(s)
    ensures Inv(Apply(s, Others(b)))
  {
    if Allowed(s, b) {
      PubSub.ApplyKeeps(s.ps, b);
      OthersFrame(s.ps, b, s.ours);
      hide PubSub.Apply;
    }
  }

  lemma SubscribeKeeps(s: State)
    requires Inv(s)
    ensures Inv(Apply(s, SubscribeOurs))
  {
    PubSub.ApplyKeeps(s.ps, PubSub.Sub(s.ours));
  }

  /** What was distributed had been handed over. */
  lemma DistributedDone(s: State)
    requires Inv(s)
    ensures forall i :: 0 <= i < |s.ps.published| ==> s.ps.published[i] in s.done
  {
    assert forall i :: 0 <= i < |s.ps.published| ==> s.ps.published[i] == s.ps.accepted[i];
  }

  /** Directories, completions and the scan. */
  lemma ScanKeeps(s: State, a: Action)
    requires Inv(s) && (a.MakeDir? || a.Complete? || a.StartScan? || a.Visit? || a.EndScan?)
    ensures Inv(Apply(s, a))
  {
    DistributedDone(s);
  }

  /** Other subscribers do not touch our registration, nor what was published. */
  lemma OthersFrame(ps: PubSub.State<MsgId>, b: PubSub.Action<MsgId>, ours: nat)
    requires PubSub.Inv(ps) && !b.Pub? && !b.Cancel? && !b.Shutdown? && !b.CloseOne?
    requires !((b.Sub? || b.Unsub?) && b.ch == ours)
    ensures var ps' := PubSub.Apply(ps, b);
            && ps.published <= ps'.published && ps'.accepted == ps.accepted && ps'.canceled == ps.canceled
            && (ours in ps'.out <==> ours in ps.out) && (ours in ps'.chans <==> ours in ps.chans)
            && (ours in ps.chans ==> ps'.chans[ours].since == ps.chans[ours].since)
  {
  }

  lemma {:induction false} RunKeeps(s: State, actions: seq<Action>)
    requires Inv(s)
    ensures Inv(Run(s, actions))
    decreases actions
  {
    if actions != [] {
      ApplyKeeps(s, actions[0]);
      RunKeeps(Apply(s, actions[0]), actions[1..]);
    }
  }

  /**
   * For every interleaving of completions, Pubs, our Sub, the scan and the
   * fan-out: once the scan is drained, every message whose Pub has returned was
   * listed by the scan, or is in (or has been taken from) our channel, or is the
   * one that readLoop is about to put there.
   */
  lemma NoGap(s: State, actions: seq<Action>, i: nat)
    requires Start(s)
    requires Run(s, actions).scan.Finished? && i < |Run(s, actions).ps.accepted|
    ensures var s' := Run(s, actions);
            var m := s'.ps.accepted[i];
            && s'.ours in s'.ps.chans
            && (m in s'.listed || m in s'.ps.chans[s'.ours].got || m in s'.ps.chans[s'.ours].buf
                || (s'.ps.reader.Fanning? && s'.ps.reader.msg == m && s'.ours in s'.ps.reader.rest)
                || (s'.ps.reader.Accepted? && s'.ps.reader.msg == m && s'.ours in s'.ps.out))
  {
    RunKeeps(s, actions);
    var s' := Run(s, actions);
    assert PubSub.ChanOk(s'.ps, s'.ours);
    var c := s'.ps.chans[s'.ours];
    if c.since <= i {
      var owed := PubSub.Owed(s'.ps, s'.ours);
      if i - c.since < |owed| {
        assert (c.got + c.buf)[i - c.since] == s'.ps.published[i];
      }
    }
  }

  /** A scan that is under way can be drained: each name it owes is visited, and it ends. */
  lemma {:induction false} ScanEnds(s: State) returns (steps: seq<Action>)
    requires Inv(s) && s.scan.Scanning?
    ensures |steps| == |s.scan.owed| + 1
    ensures var s' := Run(s, steps);
            && s'.scan.Finished? && s'.ps == s.ps
            && (forall id :: id in s.scan.owed && id in s.done ==> id in s'.listed) && s.listed <= s'.listed
    decreases |s.scan.owed|
  {
    if s.scan.owed == {} {
      steps := [EndScan];
      assert Run(s, [EndScan]) == Run(Apply(s, EndScan), [EndScan][1..]);
    } else {
      var id :| id in s.scan.owed;
      var s1 := Apply(s, Visit(id));
      ApplyKeeps(s, Visit(id));
      var rest := ScanEnds(s1);
      steps := [Visit(id)] + rest;
      assert steps[1..] == rest;
    }
  }
}

/** PubSub: publishers, subscribers and the fan-out goroutine, as interleaved steps. */
module PubSub {

  const BUFFER := 10

  /** A subscriber's channel: `buf` is its buffer, `got` what its reader has taken, `since` when it subscribed. */
  datatype Chan<M> = Chan(buf: seq<M>, got: seq<M>, since: nat, closed: bool)

  /** Where readLoop is: it accepts a message, then takes the mutex. Fanning and Closing hold it. */
  datatype Reader<M> = Idle | Accepted(msg: M) | Fanning(msg: M, rest: set<nat>) | Closing | Stopped

  /**
   * `out` is the set of registered channels, `accepted` the messages whose Pub
   * has returned, `published` those that readLoop began to distribute. `faults`
   * counts sends on, and closings of, closed channels.
   */
  datatype State<M> = State(chans: map<nat, Chan<M>>, out: set<nat>, reader: Reader<M>, canceled: bool,
                            accepted: seq<M>, published: seq<M>, faults: nat)

  datatype Action<M> =
    | Sub(ch: nat)             // a new channel
    | Unsub(ch: nat)           // deletes, closes and drains
    | Pub(msg: M)              // rendezvous with readLoop
    | Lock                     // readLoop takes the mutex to distribute it
    | Send(ch: nat)            // readLoop puts the message in a buffer
    | SkipOnCancel(ch: nat)    // readLoop sees ctx.Done instead
    | EndFan                   // every channel was served
    | Receive(ch: nat)         // a subscriber takes from its buffer
    | Cancel
    | Shutdown                 // readLoop leaves its loop and takes the mutex
    | CloseOne(ch: nat)
    | EndShutdown

  function Init<M>(): State<M>
  {
    State(map[], {}, Idle, false, [], [], 0)
  }

  predicate MutexFree<M>(s: State<M>)
  {
    s.reader.Idle? || s.reader.Accepted? || s.reader.Stopped?
  }

  /** close(ch), which panics if the channel is closed already. */
  function CloseChan<M>(s: State<M>, ch: nat): State<M>
    requires ch in s.chans
  {
    if s.chans[ch].closed then s.(faults := s.faults + 1)
    else s.(chans := s.chans[ch := s.chans[ch].(closed := true)])
  }

  /** An action that is not enabled changes nothing, so every sequence of actions is a run. */
  function Apply<M>(s: State<M>, a: Action<M>): State<M>
  {
    match a
    case Sub(ch) =>
      if MutexFree(s) && ch !in s.chans then
        s.(chans := s.chans[ch := Chan([], [], |s.published|, false)], out := s.out + {ch})
      else s
    case Unsub(ch) =>
      if MutexFree(s) && ch in s.out && ch in s.chans then
        var s1 := CloseChan(s.(out := s.out - {ch}), ch);
        s1.(chans := s1.chans[ch := s1.chans[ch].(buf := [])])
      else s
    case Pub(msg) =>
      if s.reader.Idle? then s.(reader := Accepted(msg), accepted := s.accepted + [msg]) else s
    case Lock =>
      if s.reader.Accepted? then
        s.(reader := Fanning(s.reader.msg, s.out), published := s.published + [s.reader.msg])
      else s
    case Send(ch) =>
      if s.reader.Fanning? && ch in s.reader.rest && ch in s.chans then
        var s1 := s.(reader := s.reader.(rest := s.reader.rest - {ch}));
        if s.chans[ch].closed then s1.(faults := s.faults + 1)
        else if |s.chans[ch].buf| < BUFFER then
          s1.(chans := s.chans[ch := s.chans[ch].(buf := s.chans[ch].buf + [s.reader.msg])])
        else s
      else s
    case SkipOnCancel(ch) =>
      if s.canceled && s.reader.Fanning? && ch in s.reader.rest then
        s.(reader := s.reader.(rest := s.reader.rest - {ch}))
      else s
    case EndFan => if s.reader.Fanning? && s.reader.rest == {} then s.(reader := Idle) else s
    case Receive(ch) =>
      if ch in s.chans && s.chans[ch].buf != [] then
        var c := s.chans[ch];
        s.(chans := s.chans[ch := c.(buf := c.buf[1..], got := c.got + [c.buf[0]])])
      else s
    case Cancel => s.(canceled := true)
    case Shutdown => if s.canceled && s.reader.Idle? then s.(reader := Closing) else s
    case CloseOne(ch) =>
      if s.reader.Closing? && ch in s.out && ch in s.chans then CloseChan(s.(out := s.out - {ch}), ch) else s
    case EndShutdown => if s.reader.Closing? && s.out == {} then s.(reader := Stopped) else s
  }

  function Run<M>(s: State<M>, actions: seq<Action<M>>): State<M>
    decreases actions
  {
    if actions == [] then s else Run(Apply(s, actions[0]), actions[1..])
  }

  /** What readLoop owes a channel: every message since it subscribed, but for the one being fanned out. */
  ghost function Owed<M>(s: State<M>, ch: nat): seq<M>
    requires ch in s.chans && s.chans[ch].since <= |s.published|
    requires s.reader.Fanning? && ch in s.reader.rest ==> s.chans[ch].since < |s.published|
  {
    var upto := if s.reader.Fanning? && ch in s.reader.rest then |s.published| - 1 else |s.published|;
    s.published[s.chans[ch].since..upto]
  }

  ghost predicate ChanOk<M>(s: State<M>, ch: nat)
    requires ch in s.chans
  {
    var c := s.chans[ch];
    && c.since <= |s.published|
    && |c.buf| <= BUFFER
    && (ch in s.out <==> !c.closed)
    && (s.reader.Fanning? && ch in s.reader.rest ==> ch in s.out && c.since < |s.published|)
    && (ch in s.out && !s.canceled ==> c.got + c.buf == Owed(s, ch))
  }

  ghost predicate Inv<M>(s: State<M>)
  {
    && s.faults == 0
    && s.out <= s.chans.Keys
    && (s.reader.Fanning? ==> |s.published| > 0 && s.published[|s.published| - 1] == s.reader.msg
                              && s.reader.rest <= s.out)
    && s.accepted == s.published + (if s.reader.Accepted? then [s.reader.msg] else [])
    && (s.reader.Closing? || s.reader.Stopped? ==> s.canceled)
    && forall ch :: ch in s.chans ==> ChanOk(s, ch)
  }

  lemma LockKeeps<M>(s: State<M>)
    requires Inv(s) && s.reader.Accepted?
    ensures Inv(Apply(s, Lock))
  {
    var s' := Apply(s, Lock);
    forall ch | ch in s'.chans
      ensures ChanOk(s', ch)
    {
      assert ChanOk(s, ch);
      var k := s.chans[ch].since;
      assert s'.published[k..|s.published|] == s.published[k..|s.published|];
    }
  }

  lemma SendKeeps<M>(s: State<M>, c: nat)
    requires Inv(s) && s.reader.Fanning? && c in s.reader.rest
    ensures Inv(Apply(s, Send(c)))
  {
    var s' := Apply(s, Send(c));
    assert ChanOk(s, c);
    var n, k := |s.published|, s.chans[c].since;
    assert s.published[k..n] == s.published[k..n - 1] + [s.reader.msg];
    forall ch | ch in s'.chans
      ensures ChanOk(s', ch)
    {
      assert ChanOk(s, ch);
    }
  }

  lemma ReceiveKeeps<M>(s: State<M>, c: nat)
    requires Inv(s) && c in s.chans && s.chans[c].buf != []
    ensures Inv(Apply(s, Receive(c)))
  {
    var s' := Apply(s, Receive(c));
    var x := s.chans[c];
    assert x.got + [x.buf[0]] + x.buf[1..] == x.got + x.buf;
    forall ch | ch in s'.chans
      ensures ChanOk(s', ch)
    {
      assert ChanOk(s, ch);
    }
  }

  /** Registration and closing. */
  lemma RegisterKeeps<M>(s: State<M>, a: Action<M>)
    requires Inv(s) && (a.Sub? || a.Unsub? || a.CloseOne?)
    ensures Inv(Apply(s, a))
  {
    var s' := Apply(s, a);
    forall ch | ch in s'.chans
      ensures ChanOk(s', ch)
    {
      if ch in s.chans {
        assert ChanOk(s, ch);
      }
    }
    if a.ch in s.chans {
      assert ChanOk(s, a.ch);
    }
  }

  lemma ControlKeeps<M>(s: State<M>, a: Action<M>)
    requires Inv(s) && (a.Pub? || a.SkipOnCancel? || a.EndFan? || a.Cancel? || a.Shutdown? || a.EndShutdown?)
    ensures Inv(Apply(s, a))
  {
    var s' := Apply(s, a);
    forall ch | ch in s'.chans
      ensures ChanOk(s', ch)
    {
      assert ChanOk(s, ch);
    }
  }

  lemma ApplyKeeps<M>(s: State<M>, a: Action<M>)
    requires Inv(s)
    ensures Inv(Apply(s, a))
  {
    hide Inv;
    match a
    case Lock => if s.reader.Accepted? { LockKeeps(s); }
    case Send(ch) => if s.reader.Fanning? && ch in s.reader.rest { SendKeeps(s, ch); }
    case Receive(ch) => if ch in s.chans && s.chans[ch].buf != [] { ReceiveKeeps(s, ch); }
    case Sub(_) => RegisterKeeps(s, a);
    case Unsub(_) => RegisterKeeps(s, a);
    case CloseOne(_) => RegisterKeeps(s, a);
    case _ => ControlKeeps(s, a);
  }

  lemma {:induction false} RunKeeps<M>(s: State<M>, actions: seq<Action<M>>)
    requires Inv(s)
    ensures Inv(Run(s, actions))
    decreases actions
  {
    if actions != [] {
      ApplyKeeps(s, actions[0]);
      RunKeeps(Apply(s, actions[0]), actions[1..]);
    }
  }

  /**
   * After every run: no channel was closed twice or sent to once closed; a
   * buffer holds at most ten messages; what readLoop began to distribute is, in
   * order, what Pub handed over, but for one message waiting for the mutex; and
   * until cancellation a registered subscriber has received, or has buffered,
   * exactly what was distributed since it subscribed, in order, but for the
   * message being fanned out.
   */
  lemma FanOutInOrder<M>(actions: seq<Action<M>>, ch: nat)
    ensures var s := Run(Init<M>(), actions);
            && s.faults == 0
            && s.accepted == s.published + (if s.reader.Accepted? then [s.reader.msg] else [])
            && (ch in s.out ==> ch in s.chans && !s.chans[ch].closed && |s.chans[ch].buf| <= BUFFER)
            && (ch in s.out && !s.canceled ==>
                  var c := s.chans[ch];
                  && c.since <= |s.published|
                  && c.got + c.buf <= s.published[c.since..]
                  && |c.got + c.buf| + (if s.reader.Fanning? && ch in s.reader.rest then 1 else 0)
                     == |s.published| - c.since)
  {
    assert Inv(Init<M>());
    RunKeeps(Init<M>(), actions);
    var s := Run(Init<M>(), actions);
    if ch in s.out {
      assert ChanOk(s, ch);
    }
  }

  // ---------- Leaving ----------

  /** Unsub leaves the channel unregistered, closed and drained, and the others as they are. */
  lemma UnsubEnds<M>(s: State<M>, ch: nat)
    requires Inv(s) && MutexFree(s) && ch in s.out
    ensures var s' := Apply(s, Unsub(ch));
            && s'.out == s.out - {ch} && ch in s'.chans && s'.chans[ch].closed && s'.chans[ch].buf == []
            && s'.chans[ch].got == s.chans[ch].got
            && (forall c :: c in s.chans && c != ch ==> c in s'.chans && s'.chans[c] == s.chans[c])
            && s'.published == s.published && s'.faults == 0
  {
    assert ChanOk(s, ch);
  }

  /** A closed and drained channel, whose reader has received what it has. */
  ghost predicate Left<M>(s: State<M>, ch: nat, got: seq<M>)
  {
    ch in s.chans && s.chans[ch].closed && s.chans[ch].buf == [] && s.chans[ch].got == got && ch !in s.out
  }

  lemma StepLeft<M>(s: State<M>, a: Action<M>, ch: nat, got: seq<M>)
    requires Inv(s) && Left(s, ch, got)
    ensures Left(Apply(s, a), ch, got)
  {
    assert ChanOk(s, ch);
  }

  /** After Unsub nothing more is ever received. */
  lemma {:induction false} StaysLeft<M>(s: State<M>, actions: seq<Action<M>>, ch: nat, got: seq<M>)
    requires Inv(s) && Left(s, ch, got)
    ensures Left(Run(s, actions), ch, got)
    decreases actions
  {
    if actions != [] {
      hide Left, Inv, Apply;
      StepLeft(s, actions[0], ch, got);
      ApplyKeeps(s, actions[0]);
      StaysLeft(Apply(s, actions[0]), actions[1..], ch, got);
    }
  }

  // ---------- Progress ----------

  lemma RunFirst<M>(s: State<M>, a: Action<M>, rest: seq<Action<M>>)
    ensures Run(s, [a] + rest) == Run(Apply(s, a), rest)
  {
    hide Apply;
    assert ([a] + rest)[1..] == rest;
  }

  lemma RunOne<M>(s: State<M>, a: Action<M>)
    ensures Run(s, [a]) == Apply(s, a)
  {
    hide Apply;
    assert [a][1..] == [];
  }

  /** A step of readLoop, or of a subscriber that reads. */
  ghost predicate Distributes<M>(a: Action<M>)
  {
    a.Lock? || a.Send? || a.Receive? || a.EndFan?
  }

  ghost predicate DistributesOnly<M>(steps: seq<Action<M>>)
  {
    forall i :: 0 <= i < |steps| ==> Distributes(steps[i])
  }

  /** The same subscriptions and messages, everything distributed. */
  ghost predicate Settled<M>(s: State<M>, s': State<M>)
  {
    && s'.reader.Idle? && s'.out == s.out && s'.chans.Keys == s.chans.Keys
    && s'.accepted == s.accepted && s'.published == s.accepted && s'.canceled == s.canceled
    && forall ch :: ch in s.chans ==> s'.chans[ch].since == s.chans[ch].since
  }

  /** One channel is served, after its reader has made room if need be. */
  lemma Serve<M>(s: State<M>, ch: nat) returns (steps: seq<Action<M>>)
    requires Inv(s) && s.reader.Fanning? && ch in s.reader.rest
    ensures DistributesOnly(steps) && |steps| <= 2
    ensures var s' := Run(s, steps);
            && Inv(s') && s'.reader == s.reader.(rest := s.reader.rest - {ch}) && s'.out == s.out
            && s'.chans.Keys == s.chans.Keys && s'.accepted == s.accepted && s'.published == s.published
            && s'.canceled == s.canceled && forall c :: c in s.chans ==> s'.chans[c].since == s.chans[c].since
  {
    assert ChanOk(s, ch);
    if |s.chans[ch].buf| < BUFFER {
      steps := [Send(ch)];
      RunOne(s, Send(ch));
      RunKeeps(s, steps);
    } else {
      steps := [Receive(ch), Send(ch)];
      var s1 := Apply(s, Receive(ch));
      RunFirst(s, Receive(ch), [Send(ch)]);
      RunOne(s1, Send(ch));
      assert [Receive(ch)] + [Send(ch)] == steps;
      RunKeeps(s, steps);
    }
  }

  lemma {:induction false} RunAppend<M>(s: State<M>, first: seq<Action<M>>, second: seq<Action<M>>)
    ensures Run(s, first + second) == Run(Run(s, first), second)
    decreases first
  {
    hide Apply;
    if first == [] {
      assert first + second == second;
    } else {
      assert (first + second)[1..] == first[1..] + second;
      RunAppend(Apply(s, first[0]), first[1..], second);
    }
  }

  /** A message that is being fanned out reaches every channel. */
  lemma {:induction false} FanCompletes<M>(s: State<M>) returns (steps: seq<Action<M>>)
    requires Inv(s) && s.reader.Fanning?
    ensures DistributesOnly(steps) && |steps| <= 2 * |s.reader.rest| + 1
    ensures Settled(s, Run(s, steps)) && Inv(Run(s, steps))
    decreases |s.reader.rest|
  {
    if s.reader.rest == {} {
      steps := [EndFan];
      RunOne(s, EndFan);
      RunKeeps(s, steps);
    } else {
      var ch :| ch in s.reader.rest;
      var first := Serve(s, ch);
      var s1 := Run(s, first);
      assert s.accepted == s.published;
      hide Inv, Run, Apply;
      var rest := FanCompletes(s1);
      RunAppend(s, first, rest);
      steps := first + rest;
    }
  }

  /**
   * Progress: from every reachable state that is not cancelled, some steps of
   * readLoop and of the readers, two for each subscription and two more, bring
   * every message that Pub has handed over to every subscription that is there.
   */
  lemma AllAreServed<M>(actions: seq<Action<M>>) returns (steps: seq<Action<M>>)
    requires !Run(Init<M>(), actions).canceled
    ensures DistributesOnly(steps) && |steps| <= 2 * |Run(Init<M>(), actions).out| + 2
    ensures var s, s' := Run(Init<M>(), actions), Run(Run(Init<M>(), actions), steps);
            && s'.out == s.out && s'.accepted == s.accepted
            && forall ch :: ch in s.out ==>
                 && ch in s.chans && ch in s'.chans && s.chans[ch].since <= |s.accepted|
                 && s'.chans[ch].got + s'.chans[ch].buf == s.accepted[s.chans[ch].since..]
  {
    var s := Run(Init<M>(), actions);
    assert Inv(Init<M>());
    RunKeeps(Init<M>(), actions);
    if s.reader.Idle? {
      steps := [];
      assert Run(s, []) == s;
    } else if s.reader.Fanning? {
      steps := FanCompletes(s);
      Fewer(s.reader.rest, s.out);
    } else {
      var s1 := Apply(s, Lock);
      LockKeeps(s);
      var rest := FanCompletes(s1);
      RunFirst(s, Lock, rest);
      steps := [Lock] + rest;
    }
    var s' := Run(s, steps);
    forall ch | ch in s.out
      ensures ch in s.chans && ch in s'.chans && s.chans[ch].since <= |s.accepted|
      ensures s'.chans[ch].got + s'.chans[ch].buf == s.accepted[s.chans[ch].since..]
    {
      assert ChanOk(s', ch) && ch in s'.out;
    }
  }

  lemma Fewer(a: set<nat>, b: set<nat>)
    requires a <= b
    ensures |a| <= |b|
  {
    assert b == a + (b - a);
  }
}

/** msgLoop: what a peer's loop does with each message id that its queue delivers. */
module Delivery {
  import opened Message
  import opened Storage
  import opened Queue
  import Backoff

  /** What pushMessage returned, by the error ids that msgLoop tells apart. */
  datatype PushResult =
    | Delivered | Seen
    | Mismatch | Stale | BadSignature | Collision | NoRoute | TooManyHops | TooBig
    | NoPermissions | UnknownMethod | BadArg | NoAccess | NotTrusted | NotFound
    | OtherError

  predicate Accepted(r: PushResult)
  {
    r.Delivered? || r.Seen?
  }

  predicate Retried(r: PushResult)
  {
    r.OtherError?
  }

  /** No attempt is left to make. */
  predicate Terminal(pi: PeerInfo)
  {
    pi.sent || pi.fatal
  }

  /**
   * One push: when it was made, the NextAttempt then on record, its result, the
   * number of attempts with it, when it ended, and the random draw for its delay.
   */
  datatype Push = Push(id: MsgId, at: Time, notBefore: Time, r: PushResult, attempts: nat, ended: Time, draw: nat)

  /**
   * The peer files, the queue, how often each id was counted as sent, the
   * pushes made and the ids ever queued.
   */
  datatype Loop = Loop(infos: map<MsgId, PeerInfo>, queue: seq<Elem>, counted: map<MsgId, nat>,
                       pushes: seq<Push>, offered: set<MsgId>)

  /** What is on record about an id; a missing peer file reads as blank. */
  function Info(infos: map<MsgId, PeerInfo>, id: MsgId): PeerInfo
  {
    if id in infos then infos[id] else NO_PEER_INFO
  }

  function CountOf(s: Loop, id: MsgId): nat
  {
    if id in s.counted then s.counted[id] else 0
  }

  /** The peer file after a push: Sent, FatalError, or a later NextAttempt. */
  function AfterPush(pi: PeerInfo, r: PushResult, later: Time, draw: nat): PeerInfo
  {
    var p := pi.(numAttempts := pi.numAttempts + 1);
    if Accepted(r) then p.(sent := true)
    else if Retried(r) then p.(nextAttempt := later + Backoff.MessageDelay(draw, p.numAttempts))
    else p.(fatal := true)
  }

  /** One turn of the loop for an id taken from the queue. */
  function Handle(s: Loop, id: MsgId, now: Time, r: PushResult, later: Time, draw: nat): Loop
  {
    var pi := Info(s.infos, id);
    if Terminal(pi) then s
    else if now < pi.nextAttempt then s.(queue := Inserted(s.queue, Elem(pi.nextAttempt, id)))
    else
      var pi' := AfterPush(pi, r, later, draw);
      Loop(s.infos[id := pi'],
           if Retried(r) then Inserted(s.queue, Elem(pi'.nextAttempt, id)) else s.queue,
           if r.Delivered? then s.counted[id := CountOf(s, id) + 1] else s.counted,
           s.pushes + [Push(id, now, pi.nextAttempt, r, pi.numAttempts + 1, later, draw)],
           s.offered)
  }

  class PeerLoop {
    const queue: MsgQueue
    var infos: map<MsgId, PeerInfo>
    var counted: map<MsgId, nat>
    ghost var pushes: seq<Push>
    ghost var offered: set<MsgId>

    constructor (infos: map<MsgId, PeerInfo>)
      ensures State() == Loop(infos, [], map[], [], {}) && fresh(queue)
    {
      queue := new MsgQueue();
      this.infos, counted := infos, map[];
      pushes, offered := [], {};
    }

    ghost function State(): Loop
      reads this, queue
    {
      Loop(infos, queue.l, counted, pushes, offered)
    }

    /** The body of the loop after a pop; `r` is what the push, if made, returns. */
    method Turn(id: MsgId, now: Time, r: PushResult, later: Time, draw: nat)
      modifies this, queue
      ensures State() == Handle(old(State()), id, now, r, later, draw)
    {
      hide Inserted;
      var pi := if id in infos then infos[id] else NO_PEER_INFO;
      if pi.sent || pi.fatal {
        return;
      }
      if now < pi.nextAttempt {
        queue.Insert(pi.nextAttempt, id);
        return;
      }
      pushes := pushes + [Push(id, now, pi.nextAttempt, r, pi.numAttempts + 1, later, draw)];
      pi := pi.(numAttempts := pi.numAttempts + 1);
      match r {
        case Delivered =>
          pi := pi.(sent := true);
          counted := counted[id := (if id in counted then counted[id] else 0) + 1];
        case Seen =>
          pi := pi.(sent := true);
        case OtherError =>
          pi := pi.(nextAttempt := later + Backoff.MessageDelay(draw, pi.numAttempts));
          queue.Insert(pi.nextAttempt, id);
        case _ =>
          pi := pi.(fatal := true);
      }
      infos := infos[id := pi];
    }
  }

  // ---------- Runs ----------

  datatype Action =
    | Enqueue(t: Time, id: MsgId)                                    // subLoop or diffAndEnqueue
    | MarkSent(id: MsgId)                                            // a Diff answer
    | Pop(k: nat, now: Time, r: PushResult, later: Time, draw: nat)  // the queue delivers element k

  function Apply(s: Loop, a: Action): Loop
  {
    match a
    case Enqueue(t, id) => s.(queue := Inserted(s.queue, Elem(t, id)), offered := s.offered + {id})
    case MarkSent(id) =>
      if Terminal(Info(s.infos, id)) then s else s.(infos := s.infos[id := Info(s.infos, id).(sent := true)])
    case Pop(k, now, r, later, draw) =>
      if k < |s.queue| then
        Handle(s.(queue := s.queue[..k] + s.queue[k + 1..]), s.queue[k].id, now, r, later, draw)
      else s
  }

  function Run(s: Loop, actions: seq<Action>): Loop
    decreases actions
  {
    if actions == [] then s else Run(Apply(s, actions[0]), actions[1..])
  }

  ghost predicate Queued(q: seq<Elem>, id: MsgId)
  {
    exists i :: 0 <= i < |q| && q[i].id == id
  }

  /** How many pushes of an id were made. */
  ghost function Attempts(pushes: seq<Push>, id: MsgId): nat
  {
    if pushes == [] then 0
    else Attempts(pushes[..|pushes| - 1], id) + (if pushes[|pushes| - 1].id == id then 1 else 0)
  }

  /** How many pushes of an id returned nil. */
  ghost function Deliveries(pushes: seq<Push>, id: MsgId): nat
  {
    if pushes == [] then 0
    else
      var last := pushes[|pushes| - 1];
      Deliveries(pushes[..|pushes| - 1], id) + (if last.id == id && last.r.Delivered? then 1 else 0)
  }

  /** The record of an id agrees with the pushes made since `start`. */
  ghost predicate RecordOk(start: map<MsgId, PeerInfo>, s: Loop, id: MsgId)
  {
    var pi := Info(s.infos, id);
    && !(pi.sent && pi.fatal)
    && pi.numAttempts == (if id in start then start[id].numAttempts else 0) + Attempts(s.pushes, id)
    && CountOf(s, id) == Deliveries(s.pushes, id) <= 1
    && (CountOf(s, id) == 1 ==> pi.sent)
  }

  /** No push was early; a push that was accepted, or failed for good, is on record as such and was the last. */
  ghost predicate PushesOk(s: Loop)
  {
    && (forall i :: 0 <= i < |s.pushes| ==>
          var p := s.pushes[i];
          && p.notBefore <= p.at
          && (Accepted(p.r) ==> Info(s.infos, p.id).sent)
          && (!Accepted(p.r) && !Retried(p.r) ==> Info(s.infos, p.id).fatal))
    && (forall i, j :: 0 <= i < j < |s.pushes| && s.pushes[i].id == s.pushes[j].id ==> Retried(s.pushes[i].r))
  }

  ghost predicate QueueOk(s: Loop)
  {
    forall id :: id in s.offered ==> Queued(s.queue, id) || Terminal(Info(s.infos, id))
  }

  ghost predicate Inv(start: map<MsgId, PeerInfo>, s: Loop)
  {
    (forall id :: RecordOk(start, s, id)) && PushesOk(s) && QueueOk(s)
  }

  /** Inserting keeps everything queued and adds the new id. */
  lemma InsertedQueued(q: seq<Elem>, e: Elem, id: MsgId)
    ensures Queued(Inserted(q, e), id) <==> Queued(q, id) || e.id == id
  {
    var k := InsertedAt(q, e);
    var q' := Inserted(q, e);
    hide Inserted;
    if Queued(q, id) {
      var i :| 0 <= i < |q| && q[i].id == id;
      assert q'[if i < k then i else i + 1].id == id;
    }
    if e.id == id {
      assert q'[k].id == id;
    }
    if Queued(q', id) && e.id != id {
      var i :| 0 <= i < |q'| && q'[i].id == id;
      assert q[if i < k then i else i - 1].id == id;
    }
  }

  /** Removing one element can only lose its own id. */
  lemma RemovedQueued(q: seq<Elem>, k: nat, id: MsgId)
    requires k < |q| && Queued(q, id) && q[k].id != id
    ensures Queued(q[..k] + q[k + 1..], id)
  {
    var i :| 0 <= i < |q| && q[i].id == id;
    assert (q[..k] + q[k + 1..])[if i < k then i else i - 1].id == id;
  }

  /** Inserting adds one element and keeps the others. */
  lemma InsertedHas(q: seq<Elem>, e: Elem)
    ensures multiset(Inserted(q, e)) == multiset(q) + multiset{e}
    ensures e in Inserted(q, e) && forall f :: f in q ==> f in Inserted(q, e)
  {
    var k := InsertedAt(q, e);
    hide Inserted;
    var a, b := q[..k], q[k..];
    assert q == a + b && Inserted(q, e) == a + [e] + b;
    assert (a + [e] + b)[k] == e;
  }

  /** The errors after which msgLoop gives up on the message. */
  const FINAL: set<PushResult> := {
    Mismatch, Stale, BadSignature, Collision, NoRoute, PushResult.TooManyHops, PushResult.TooBig,
    NoPermissions, UnknownMethod, BadArg, NoAccess, NotTrusted, NotFound
  }

  /**
   * A popped id is dropped because terminal; put back for the time on record
   * because early; recorded Sent after a nil or AlreadySeen push, or FatalError
   * after one of the final errors; or recorded and put back for a later time.
   */
  lemma HandleSettles(s: Loop, id: MsgId, now: Time, r: PushResult, later: Time, draw: nat)
    ensures var s' := Handle(s, id, now, r, later, draw);
            var pi, pi' := Info(s.infos, id), Info(s'.infos, id);
            && (pi'.sent || pi'.fatal || Queued(s'.queue, id))
            && (forall x :: x != id ==> Info(s'.infos, x) == Info(s.infos, x))
            && if pi.sent || pi.fatal then s' == s
               else if now < pi.nextAttempt then
                 && s'.infos == s.infos && s'.pushes == s.pushes
                 && multiset(s'.queue) == multiset(s.queue) + multiset{Elem(pi.nextAttempt, id)}
               else
                 && |s'.pushes| == |s.pushes| + 1 && pi'.numAttempts == pi.numAttempts + 1
                 && (pi'.sent <==> r == Delivered || r == Seen) && (pi'.fatal <==> r in FINAL)
                 && (r != OtherError ==> s'.queue == s.queue && pi'.nextAttempt == pi.nextAttempt)
                 && (r == OtherError ==>
                       && pi'.nextAttempt == later + Backoff.MessageDelay(draw, pi'.numAttempts)
                       && multiset(s'.queue) == multiset(s.queue) + multiset{Elem(pi'.nextAttempt, id)})
  {
    hide Inserted, Backoff.MessageDelay;
    var pi := Info(s.infos, id);
    var due := AfterPush(pi, r, later, draw).nextAttempt;
    InsertedQueued(s.queue, Elem(pi.nextAttempt, id), id);
    InsertedQueued(s.queue, Elem(due, id), id);
    InsertedHas(s.queue, Elem(pi.nextAttempt, id));
    InsertedHas(s.queue, Elem(due, id));
    hide Queued;
  }

  /** The last push counts for its own id only. */
  lemma LastPush(pushes: seq<Push>, p: Push, id: MsgId)
    ensures Attempts(pushes + [p], id) == Attempts(pushes, id) + (if p.id == id then 1 else 0)
    ensures Deliveries(pushes + [p], id) == Deliveries(pushes, id) + (if p.id == id && p.r.Delivered? then 1 else 0)
  {
    assert (pushes + [p])[..|pushes|] == pushes;
  }

  /** Handling an id keeps every record in agreement with the pushes. */
  lemma HandleRecord(start: map<MsgId, PeerInfo>, s: Loop, id: MsgId, now: Time, r: PushResult, later: Time,
                     draw: nat, x: MsgId)
    requires RecordOk(start, s, x)
    ensures RecordOk(start, Handle(s, id, now, r, later, draw), x)
  {
    hide Inserted, Backoff.MessageDelay, Attempts, Deliveries;
    var pi := Info(s.infos, id);
    LastPush(s.pushes, Push(id, now, pi.nextAttempt, r, pi.numAttempts + 1, later, draw), x);
  }

  /** A push is made only of an id that is not terminal, so after retried ones only. */
  lemma HandlePushes(s: Loop, id: MsgId, now: Time, r: PushResult, later: Time, draw: nat)
    requires PushesOk(s)
    ensures PushesOk(Handle(s, id, now, r, later, draw))
  {
    hide Inserted, Backoff.MessageDelay;
    var s' := Handle(s, id, now, r, later, draw);
    assert forall x :: x != id ==> Info(s'.infos, x) == Info(s.infos, x);
  }

  /** Handling a popped id loses no other id from the queue. */
  lemma PopQueued(s: Loop, k: nat, now: Time, r: PushResult, later: Time, draw: nat, x: MsgId)
    requires k < |s.queue| && x != s.queue[k].id && Queued(s.queue, x)
    ensures Queued(Apply(s, Pop(k, now, r, later, draw)).queue, x)
  {
    hide Inserted, Queued, Backoff.MessageDelay;
    var id := s.queue[k].id;
    var s1 := s.(queue := s.queue[..k] + s.queue[k + 1..]);
    var pi := Info(s1.infos, id);
    RemovedQueued(s.queue, k, x);
    InsertedQueued(s1.queue, Elem(pi.nextAttempt, id), x);
    InsertedQueued(s1.queue, Elem(AfterPush(pi, r, later, draw).nextAttempt, id), x);
  }

  lemma PopKeeps(start: map<MsgId, PeerInfo>, s: Loop, k: nat, now: Time, r: PushResult, later: Time, draw: nat)
    requires Inv(start, s) && k < |s.queue|
    ensures Inv(start, Apply(s, Pop(k, now, r, later, draw)))
  {
    var id := s.queue[k].id;
    var s1 := s.(queue := s.queue[..k] + s.queue[k + 1..]);
    var s' := Apply(s, Pop(k, now, r, later, draw));
    assert s' == Handle(s1, id, now, r, later, draw) && s'.offered == s.offered;
    forall x
      ensures RecordOk(start, s', x)
    {
      assert RecordOk(start, s, x);
      assert RecordOk(start, s1, x);
      HandleRecord(start, s1, id, now, r, later, draw, x);
    }
    HandlePushes(s1, id, now, r, later, draw);
    hide RecordOk, PushesOk;
    HandleSettles(s1, id, now, r, later, draw);
    OthersSame(s1, id, now, r, later, draw);
    forall x | x in s'.offered
      ensures Queued(s'.queue, x) || Terminal(Info(s'.infos, x))
    {
      hide Handle, Apply;
      if x != id && Queued(s.queue, x) {
        PopQueued(s, k, now, r, later, draw, x);
      }
    }
  }

  lemma OthersSame(s: Loop, id: MsgId, now: Time, r: PushResult, later: Time, draw: nat)
    ensures forall x :: x != id ==> Info(Handle(s, id, now, r, later, draw).infos, x) == Info(s.infos, x)
  {
  }

  lemma EnqueueKeeps(start: map<MsgId, PeerInfo>, s: Loop, t: Time, id: MsgId)
    requires Inv(start, s)
    ensures Inv(start, Apply(s, Enqueue(t, id)))
  {
    hide Inserted, Attempts, Deliveries;
    var s' := Apply(s, Enqueue(t, id));
    forall x | x in s'.offered
      ensures Queued(s'.queue, x) || Terminal(Info(s'.infos, x))
    {
      InsertedQueued(s.queue, Elem(t, id), x);
    }
    forall x
      ensures RecordOk(start, s', x)
    {
      assert RecordOk(start, s, x);
    }
  }

  lemma MarkKeeps(start: map<MsgId, PeerInfo>, s: Loop, id: MsgId)
    requires Inv(start, s) && !Terminal(Info(s.infos, id))
    ensures Inv(start, Apply(s, MarkSent(id)))
  {
    hide Queued, Attempts, Deliveries;
    var s' := Apply(s, MarkSent(id));
    forall x
      ensures RecordOk(start, s', x)
    {
      assert RecordOk(start, s, x);
    }
    assert forall x :: x != id ==> Info(s'.infos, x) == Info(s.infos, x);
  }

  lemma {:induction false} RunKeeps(start: map<MsgId, PeerInfo>, s: Loop, actions: seq<Action>)
    requires Inv(start, s)
    ensures Inv(start, Run(s, actions))
    decreases actions
  {
    if actions != [] {
      match actions[0] {
        case Enqueue(t, id) => EnqueueKeeps(start, s, t, id);
        case MarkSent(id) => if !Terminal(Info(s.infos, id)) { MarkKeeps(start, s, id); }
        case Pop(k, now, r, later, draw) => if k < |s.queue| { PopKeeps(start, s, k, now, r, later, draw); }
      }
      hide Inv, Handle;
      RunKeeps(start, Apply(s, actions[0]), actions[1..]);
    }
  }

  /**
   * Over every run of one peer's loop, whatever each push returns and whenever
   * ids are queued: no record is both Sent and FatalError; NumAttempts counts
   * the pushes made; no push is made before the NextAttempt then on record, or
   * after one of the same id that was accepted or failed for good; each id is
   * delivered, and counted as sent, at most once; and an id once queued is still
   * queued or is recorded terminal.
   */
  lemma LoopLosesNothing(infos: map<MsgId, PeerInfo>, actions: seq<Action>, id: MsgId)
    requires forall x :: x in infos ==> !(infos[x].sent && infos[x].fatal)
    ensures var s := Run(Loop(infos, [], map[], [], {}), actions);
            && RecordOk(infos, s, id)
            && PushesOk(s)
            && (id in s.offered ==> Queued(s.queue, id) || Terminal(Info(s.infos, id)))
  {
    RunKeeps(infos, Loop(infos, [], map[], [], {}), actions);
  }

  /** What the other steps do: an id is queued for its time, and a Diff answer is recorded unless the id is settled. */
  lemma OthersMean(s: Loop, t: Time, id: MsgId)
    ensures var s' := Apply(s, Enqueue(t, id));
            && multiset(s'.queue) == multiset(s.queue) + multiset{Elem(t, id)} && id in s'.offered
            && s'.infos == s.infos && s'.pushes == s.pushes
    ensures var s' := Apply(s, MarkSent(id));
            && (!Info(s.infos, id).fatal ==> Info(s'.infos, id) == Info(s.infos, id).(sent := true))
            && (forall x :: x != id ==> Info(s'.infos, x) == Info(s.infos, x)) && s'.queue == s.queue
  {
    InsertedHas(s.queue, Elem(t, id));
    hide Inserted;
  }

  // ---------- Retries on time ----------

  /** The time before which a push that ended with a retryable error is not repeated. */
  function Due(p: Push): Time
  {
    p.ended + Backoff.MessageDelay(p.draw, p.attempts)
  }

  /** Push j is the next one of the id that push i was of. */
  ghost predicate Next(pushes: seq<Push>, i: nat, j: nat)
  {
    i < j < |pushes| && pushes[j].id == pushes[i].id && forall k :: i < k < j ==> pushes[k].id != pushes[i].id
  }

  /** Push i is the last one of its id. */
  ghost predicate Last(pushes: seq<Push>, i: nat)
  {
    i < |pushes| && forall k :: i < k < |pushes| ==> pushes[k].id != pushes[i].id
  }

  /** The last push of an id, if it is to be repeated, has set the time on record and queued the id for that time. */
  ghost predicate LastOk(s: Loop, i: nat)
    requires i < |s.pushes|
  {
    var p := s.pushes[i];
    var pi := Info(s.infos, p.id);
    Retried(p.r) ==> pi.nextAttempt == Due(p) && (Terminal(pi) || Elem(Due(p), p.id) in s.queue)
  }

  ghost predicate TimesOk(start: map<MsgId, PeerInfo>, s: Loop)
  {
    && (forall i: nat, j: nat :: Next(s.pushes, i, j) ==> s.pushes[j].notBefore == Due(s.pushes[i]))
    && (forall i: nat :: Last(s.pushes, i) ==> LastOk(s, i))
    && (forall i :: 0 <= i < |s.pushes| ==>
          var id := s.pushes[i].id;
          s.pushes[i].attempts == (if id in start then start[id].numAttempts else 0) + Attempts(s.pushes[..i + 1], id))
  }

  lemma RemovedHas(q: seq<Elem>, k: nat, e: Elem)
    requires k < |q| && e in q && q[k] != e
    ensures e in q[..k] + q[k + 1..]
  {
    var i :| 0 <= i < |q| && q[i] == e;
    assert (q[..k] + q[k + 1..])[if i < k then i else i - 1] == e;
  }

  /** What a push appended to the history makes of who is next and who is last. */
  lemma NextAppended(pushes: seq<Push>, p: Push, i: nat, j: nat)
    requires Next(pushes + [p], i, j)
    ensures if j < |pushes| then Next(pushes, i, j) else Last(pushes, i) && p.id == pushes[i].id && j == |pushes|
  {
    var all := pushes + [p];
    assert forall k :: 0 <= k < |pushes| ==> all[k] == pushes[k];
  }

  lemma LastAppended(pushes: seq<Push>, p: Push, i: nat)
    requires Last(pushes + [p], i)
    ensures i == |pushes| || (Last(pushes, i) && pushes[i].id != p.id)
  {
    var all := pushes + [p];
    assert forall k :: 0 <= k < |pushes| ==> all[k] == pushes[k];
    if i < |pushes| {
      assert all[|pushes|] == p;
    }
  }

  /** A push that is made: its predecessor was to be repeated no earlier. */
  lemma PushTimes(start: map<MsgId, PeerInfo>, s: Loop, s': Loop, p: Push)
    requires (forall id :: RecordOk(start, s, id)) && PushesOk(s) && TimesOk(start, s)
    requires s'.pushes == s.pushes + [p] && !Terminal(Info(s.infos, p.id))
    requires p.notBefore == Info(s.infos, p.id).nextAttempt && p.attempts == Info(s.infos, p.id).numAttempts + 1
    requires forall x :: x != p.id ==> Info(s'.infos, x) == Info(s.infos, x)
    requires forall e :: e in s.queue && e.id != p.id ==> e in s'.queue
    requires Retried(p.r) ==> Info(s'.infos, p.id).nextAttempt == Due(p) && Elem(Due(p), p.id) in s'.queue
    ensures TimesOk(start, s')
  {
    hide Attempts, Deliveries, Due;
    forall i: nat, j: nat | Next(s'.pushes, i, j)
      ensures s'.pushes[j].notBefore == Due(s'.pushes[i])
    {
      NextAppended(s.pushes, p, i, j);
      if j == |s.pushes| {
        assert LastOk(s, i);
      }
    }
    forall i: nat | Last(s'.pushes, i)
      ensures LastOk(s', i)
    {
      LastAppended(s.pushes, p, i);
      if i < |s.pushes| {
        assert LastOk(s, i);
      }
    }
    assert RecordOk(start, s, p.id);
    LastPush(s.pushes, p, p.id);
    forall i | 0 <= i < |s'.pushes|
      ensures var id := s'.pushes[i].id;
              s'.pushes[i].attempts
              == (if id in start then start[id].numAttempts else 0) + Attempts(s'.pushes[..i + 1], id)
    {
      if i < |s.pushes| {
        assert s'.pushes[..i + 1] == s.pushes[..i + 1];
      } else {
        assert s'.pushes[..i + 1] == s.pushes + [p];
      }
    }
  }

  /** A step without a push: what is on record and queued is still there. */
  lemma QuietTimes(start: map<MsgId, PeerInfo>, s: Loop, s': Loop)
    requires TimesOk(start, s) && s'.pushes == s.pushes
    requires forall x :: var pi, pi' := Info(s.infos, x), Info(s'.infos, x);
                         pi'.nextAttempt == pi.nextAttempt && (Terminal(pi) ==> Terminal(pi'))
    requires forall e :: e in s.queue ==>
               || e in s'.queue || Terminal(Info(s'.infos, e.id)) || e.t != Info(s.infos, e.id).nextAttempt
    ensures TimesOk(start, s')
  {
    hide Due, Next;
    forall i: nat | Last(s'.pushes, i)
      ensures LastOk(s', i)
    {
      assert LastOk(s, i);
    }
  }

  /** Removing one element loses no other. */
  lemma RemovedOthers(q: seq<Elem>, k: nat)
    requires k < |q|
    ensures forall e :: e in q && e != q[k] ==> e in q[..k] + q[k + 1..]
  {
    forall e | e in q && e != q[k]
      ensures e in q[..k] + q[k + 1..]
    {
      RemovedHas(q, k, e);
    }
  }

  /** An id that is dropped or put back. */
  lemma QuietPop(start: map<MsgId, PeerInfo>, s: Loop, k: nat, now: Time, r: PushResult, later: Time, draw: nat)
    requires TimesOk(start, s) && k < |s.queue|
    requires var pi := Info(s.infos, s.queue[k].id); Terminal(pi) || now < pi.nextAttempt
    ensures TimesOk(start, Apply(s, Pop(k, now, r, later, draw)))
  {
    hide TimesOk, Inserted, AfterPush;
    var id := s.queue[k].id;
    var q := s.queue[..k] + s.queue[k + 1..];
    RemovedOthers(s.queue, k);
    InsertedHas(q, Elem(Info(s.infos, id).nextAttempt, id));
    QuietTimes(start, s, Apply(s, Pop(k, now, r, later, draw)));
  }

  /** An id that is pushed. */
  lemma PushPop(start: map<MsgId, PeerInfo>, s: Loop, k: nat, now: Time, r: PushResult, later: Time, draw: nat)
    requires Inv(start, s) && TimesOk(start, s) && k < |s.queue|
    requires var pi := Info(s.infos, s.queue[k].id); !Terminal(pi) && pi.nextAttempt <= now
    ensures TimesOk(start, Apply(s, Pop(k, now, r, later, draw)))
  {
    hide TimesOk, Inserted, Backoff.MessageDelay, RecordOk, PushesOk, QueueOk;
    var id := s.queue[k].id;
    var pi := Info(s.infos, id);
    var s' := Apply(s, Pop(k, now, r, later, draw));
    var q := s.queue[..k] + s.queue[k + 1..];
    OthersSame(s.(queue := q), id, now, r, later, draw);
    RemovedOthers(s.queue, k);
    InsertedHas(q, Elem(AfterPush(pi, r, later, draw).nextAttempt, id));
    var p := Push(id, now, pi.nextAttempt, r, pi.numAttempts + 1, later, draw);
    assert s'.pushes == s.pushes + [p];
    assert Retried(r) ==> Info(s'.infos, id).nextAttempt == Due(p) && Elem(Due(p), id) in s'.queue;
    assert forall e :: e in s.queue && e.id != id ==> e in s'.queue;
    hide Apply, Due, Terminal, Retried;
    PushTimes(start, s, s', p);
  }

  lemma PopTimes(start: map<MsgId, PeerInfo>, s: Loop, k: nat, now: Time, r: PushResult, later: Time, draw: nat)
    requires Inv(start, s) && TimesOk(start, s) && k < |s.queue|
    ensures TimesOk(start, Apply(s, Pop(k, now, r, later, draw)))
  {
    hide Inv, TimesOk, Apply;
    var pi := Info(s.infos, s.queue[k].id);
    if Terminal(pi) || now < pi.nextAttempt {
      QuietPop(start, s, k, now, r, later, draw);
    } else {
      PushPop(start, s, k, now, r, later, draw);
    }
  }

  lemma {:induction false} RunTimes(start: map<MsgId, PeerInfo>, s: Loop, actions: seq<Action>)
    requires Inv(start, s) && TimesOk(start, s)
    ensures TimesOk(start, Run(s, actions))
    decreases actions
  {
    if actions != [] {
      var s' := Apply(s, actions[0]);
      match actions[0] {
        case Enqueue(t, id) =>
          EnqueueKeeps(start, s, t, id);
          InsertedHas(s.queue, Elem(t, id));
          hide Inserted, TimesOk, Inv;
          QuietTimes(start, s, s');
        case MarkSent(id) =>
          if !Terminal(Info(s.infos, id)) {
            MarkKeeps(start, s, id);
          }
          hide TimesOk, Inv;
          QuietTimes(start, s, s');
        case Pop(k, now, r, later, draw) =>
          if k < |s.queue| {
            PopKeeps(start, s, k, now, r, later, draw);
            PopTimes(start, s, k, now, r, later, draw);
          }
      }
      hide Inv, Handle, TimesOk, Apply;
      RunTimes(start, s', actions[1..]);
    }
  }

  /** What holds of every run from an empty queue. */
  lemma RunsKeepTime(infos: map<MsgId, PeerInfo>, actions: seq<Action>)
    requires forall x :: x in infos ==> !(infos[x].sent && infos[x].fatal)
    ensures var s := Run(Loop(infos, [], map[], [], {}), actions); PushesOk(s) && TimesOk(infos, s)
  {
    hide Run;
    var start := Loop(infos, [], map[], [], {});
    RunKeeps(infos, start, actions);
    assert TimesOk(infos, start);
    hide TimesOk;
    RunTimes(infos, start, actions);
  }

  /**
   * Over every run, a push that ended with a retryable error, as attempt n of at
   * most 28, is repeated no earlier than min(5 min, (10 + draw) * 2^n s) after it
   * ended: that very time is on record for the next push of the id, and until then
   * the id is queued for exactly that time, unless it is settled meanwhile.
   */
  lemma RetriesOnTime(infos: map<MsgId, PeerInfo>, actions: seq<Action>, i: nat)
    requires forall x :: x in infos ==> !(infos[x].sent && infos[x].fatal)
    requires var pushes := Run(Loop(infos, [], map[], [], {}), actions).pushes;
             i < |pushes| && pushes[i].r == OtherError && pushes[i].attempts <= 28 && pushes[i].draw < 10
    ensures var s := Run(Loop(infos, [], map[], [], {}), actions);
            var p := s.pushes[i];
            var due := p.ended + Backoff.Ideal(10 + p.draw, p.attempts, 1_000_000_000, 300_000_000_000);
            && p.attempts == (if p.id in infos then infos[p.id].numAttempts else 0) + Attempts(s.pushes[..i + 1], p.id)
            && (forall j: nat :: Next(s.pushes, i, j) ==> s.pushes[j].notBefore == due <= s.pushes[j].at)
            && (Last(s.pushes, i) ==>
                  var pi := Info(s.infos, p.id);
                  pi.nextAttempt == due && (pi.sent || pi.fatal || Elem(due, p.id) in s.queue))
  {
    hide Run, PushesOk, TimesOk, Next, Last, Attempts, Due, Backoff.Ideal;
    RunsKeepTime(infos, actions);
    var s := Run(Loop(infos, [], map[], [], {}), actions);
    TimesMean(infos, s, i);
    DueIs(s.pushes[i]);
  }

  lemma DueIs(p: Push)
    requires p.draw < 10 && p.attempts <= 28
    ensures Due(p) == p.ended + Backoff.Ideal(10 + p.draw, p.attempts, 1_000_000_000, 300_000_000_000)
  {
    Backoff.MessageDelays(p.attempts);
    hide Backoff.MessageDelay, Backoff.Ideal;
  }

  /** What the invariants say of one push. */
  lemma TimesMean(start: map<MsgId, PeerInfo>, s: Loop, i: nat)
    requires PushesOk(s) && TimesOk(start, s) && i < |s.pushes| && Retried(s.pushes[i].r)
    ensures var p := s.pushes[i];
            && p.attempts == (if p.id in start then start[p.id].numAttempts else 0) + Attempts(s.pushes[..i + 1], p.id)
            && (forall j: nat :: Next(s.pushes, i, j) ==> s.pushes[j].notBefore == Due(p) <= s.pushes[j].at)
            && (Last(s.pushes, i) ==>
                  var pi := Info(s.infos, p.id);
                  pi.nextAttempt == Due(p) && (Terminal(pi) || Elem(Due(p), p.id) in s.queue))
  {
    hide Due, Attempts;
    if Last(s.pushes, i) {
      assert LastOk(s, i);
    }
  }
}

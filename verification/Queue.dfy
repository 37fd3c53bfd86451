/** MsgQueue: a time-ordered list, a popper goroutine and its wake-up token. */
module Queue {
  import opened Message
  import Backoff

  type Time = int
  datatype Elem = Elem(t: Time, id: MsgId)

  ghost predicate Sorted(l: seq<Elem>)
  {
    forall i, j :: 0 <= i < j < |l| ==> l[i].t <= l[j].t
  }

  /** The elements scheduled for time t, in list order. */
  ghost function AtTime(l: seq<Elem>, t: Time): seq<Elem>
  {
    if l == [] then []
    else if l[0].t == t then [l[0]] + AtTime(l[1..], t)
    else AtTime(l[1..], t)
  }

  /** `l` is `live` reordered by time, elements of equal times keeping their order. */
  ghost predicate StableOrder(l: seq<Elem>, live: seq<Elem>)
  {
    Sorted(l) && forall t :: AtTime(l, t) == AtTime(live, t)
  }

  lemma {:induction false} AtTimeConcat(a: seq<Elem>, b: seq<Elem>, t: Time)
    ensures AtTime(a + b, t) == AtTime(a, t) + AtTime(b, t)
  {
    if a == [] {
      assert a + b == b;
    } else {
      assert (a + b)[1..] == a[1..] + b && (a + b)[0] == a[0];
      AtTimeConcat(a[1..], b, t);
      assert [a[0]] + (AtTime(a[1..], t) + AtTime(b, t)) == ([a[0]] + AtTime(a[1..], t)) + AtTime(b, t);
    }
  }

  lemma {:induction false} AtTimeNone(l: seq<Elem>, t: Time)
    requires forall i :: 0 <= i < |l| ==> l[i].t != t
    ensures AtTime(l, t) == []
  {
    if l != [] {
      AtTimeNone(l[1..], t);
    }
  }

  lemma {:induction false} AtTimeCount(l: seq<Elem>, e: Elem)
    ensures multiset(l)[e] == multiset(AtTime(l, e.t))[e]
  {
    if l != [] {
      AtTimeCount(l[1..], e);
      assert l == [l[0]] + l[1..];
    }
  }

  /** A stable reordering has the same elements. */
  lemma StableOrderSame(l: seq<Elem>, live: seq<Elem>)
    requires StableOrder(l, live)
    ensures multiset(l) == multiset(live)
  {
    forall e
      ensures multiset(l)[e] == multiset(live)[e]
    {
      AtTimeCount(l, e);
      AtTimeCount(live, e);
    }
  }

  class MsgQueue {
    var l: seq<Elem>

    constructor ()
      ensures l == []
    {
      l := [];
    }

    /** Inserts before the first element that is later; the queue stays a stable order of what is in it. */
    method Insert(t: Time, id: MsgId)
      modifies this
      ensures l == Inserted(old(l), Elem(t, id))
      ensures forall live :: StableOrder(old(l), live) ==> StableOrder(l, live + [Elem(t, id)])
    {
      hide StableOrder, Inserted;
      var i := 0;
      while i < |l| && l[i].t <= t
        invariant 0 <= i <= |l|
        invariant l == old(l)
        invariant forall j :: 0 <= j < i ==> l[j].t <= t
      {
        i := i + 1;
      }
      forall live | StableOrder(l, live)
        ensures StableOrder(Inserted(l, Elem(t, id)), live + [Elem(t, id)])
      {
        InsertedStable(l, live, Elem(t, id));
      }
      ghost var k := InsertedAt(l, Elem(t, id));
      assert i == k;
      l := l[..i] + [Elem(t, id)] + l[i..];
    }

    /** The popper's check: removes the head if its time has passed. */
    method PopDue(now: Time) returns (r: seq<Elem>)
      modifies this
      ensures old(l) == r + l && |r| <= 1
      ensures r != [] <==> old(l) != [] && old(l)[0].t < now
    {
      r := [];
      if l != [] && now > l[0].t {
        r := [l[0]];
        l := l[1..];
      }
    }
  }

  function Inserted(l: seq<Elem>, e: Elem): seq<Elem>
  {
    if l == [] || l[0].t > e.t then [e] + l else [l[0]] + Inserted(l[1..], e)
  }

  /** Where Inserted puts the element. */
  lemma {:induction false} InsertedAt(l: seq<Elem>, e: Elem) returns (i: nat)
    ensures i <= |l| && Inserted(l, e) == l[..i] + [e] + l[i..]
    ensures forall j :: 0 <= j < i ==> l[j].t <= e.t
    ensures i < |l| ==> l[i].t > e.t
  {
    if l == [] || l[0].t > e.t {
      i := 0;
    } else {
      i := InsertedAt(l[1..], e);
      i := i + 1;
      assert l[..i] == [l[0]] + l[1..][..i - 1];
    }
  }

  lemma AtTimeOne(e: Elem, t: Time)
    ensures AtTime([e], t) == if e.t == t then [e] else []
  {
  }

  /** Inserting keeps the list sorted, after every element of the same time. */
  lemma InsertedStable(l: seq<Elem>, live: seq<Elem>, e: Elem)
    requires StableOrder(l, live)
    ensures StableOrder(Inserted(l, e), live + [e])
  {
    var i := InsertedAt(l, e);
    hide AtTime, Inserted;
    var a, b := l[..i], l[i..];
    assert l == a + b;
    assert Sorted(a + [e] + b);
    forall t
      ensures AtTime(a + [e] + b, t) == AtTime(live + [e], t)
    {
      AtTimeConcat(a + [e], b, t);
      AtTimeConcat(a, [e], t);
      AtTimeConcat(a, b, t);
      AtTimeConcat(live, [e], t);
      AtTimeOne(e, t);
      if t == e.t {
        AtTimeNone(b, t);
      }
    }
  }

  /** Removes the oldest element scheduled for time t. */
  ghost function DropFirst(live: seq<Elem>, t: Time): seq<Elem>
  {
    if live == [] then [] else if live[0].t == t then live[1..] else [live[0]] + DropFirst(live[1..], t)
  }

  lemma {:induction false} DropFirstAtTime(live: seq<Elem>, t: Time, u: Time)
    requires AtTime(live, t) != []
    ensures AtTime(DropFirst(live, t), u) == if u == t then AtTime(live, t)[1..] else AtTime(live, u)
  {
    if live[0].t != t {
      DropFirstAtTime(live[1..], t, u);
      AtTimeConcat([live[0]], DropFirst(live[1..], t), u);
    }
  }

  lemma {:induction false} AtTimeHas(l: seq<Elem>, i: nat)
    requires i < |l|
    ensures AtTime(l, l[i].t) != []
  {
    if i > 0 {
      AtTimeHas(l[1..], i - 1);
    }
  }

  lemma {:induction false} FirstAt(live: seq<Elem>, t: Time) returns (k: nat)
    requires AtTime(live, t) != []
    ensures k < |live| && live[k].t == t && live[k] == AtTime(live, t)[0]
    ensures forall j :: 0 <= j < k ==> live[j].t != t
    ensures DropFirst(live, t) == live[..k] + live[k + 1..]
  {
    if live[0].t == t {
      k := 0;
    } else {
      k := FirstAt(live[1..], t);
      assert [live[0]] + live[1..][..k] == live[..k + 1];
      k := k + 1;
    }
  }

  lemma HeadFirst(l: seq<Elem>)
    requires l != []
    ensures AtTime(l, l[0].t) == [l[0]] + AtTime(l[1..], l[0].t)
    ensures forall u :: u != l[0].t ==> AtTime(l, u) == AtTime(l[1..], u)
  {
  }

  /**
   * The head is the element of `live` that was inserted first among those
   * scheduled earliest, and removing it keeps the order of the rest.
   */
  lemma HeadIsEarliest(l: seq<Elem>, live: seq<Elem>) returns (k: nat)
    requires StableOrder(l, live) && l != []
    ensures k < |live| && live[k] == l[0]
    ensures forall j :: 0 <= j < |live| ==> live[k].t <= live[j].t && (j < k ==> live[k].t < live[j].t)
    ensures DropFirst(live, l[0].t) == live[..k] + live[k + 1..]
    ensures StableOrder(l[1..], DropFirst(live, l[0].t))
  {
    var t := l[0].t;
    TailStable(l, live);
    k := FirstAt(live, t);
    hide AtTime, DropFirst;
    forall j | 0 <= j < |live|
      ensures t <= live[j].t
    {
      AtTimeHas(live, j);
      var i := FirstAt(l, live[j].t);
    }
  }

  lemma TailStable(l: seq<Elem>, live: seq<Elem>)
    requires StableOrder(l, live) && l != []
    ensures AtTime(live, l[0].t) == [l[0]] + AtTime(l[1..], l[0].t)
    ensures StableOrder(l[1..], DropFirst(live, l[0].t))
  {
    HeadFirst(l);
    hide AtTime, DropFirst;
    forall u
      ensures AtTime(l[1..], u) == AtTime(DropFirst(live, l[0].t), u)
    {
      DropFirstAtTime(live, l[0].t, u);
    }
  }

  // ---------- The popper goroutine and the inserters ----------

  /** Where the popper is; Armed holds the time it decided to wait for. */
  datatype Popper = Deciding | Armed(target: Time) | Checking | Sending(e: Elem) | Stopped

  /**
   * `offering` holds the inserters between releasing the mutex and offering the
   * token. `live`, `inserted` and `delivered` record history.
   */
  datatype State = State(now: Time, l: seq<Elem>, token: bool, popper: Popper, offering: set<nat>, canceled: bool,
                         live: seq<Elem>, inserted: seq<Elem>, delivered: seq<Elem>)

  datatype Action =
    | Tick(now: Time)
    | Insert(who: nat, t: Time, id: MsgId)
    | Offer(who: nat)
    | Decide                 // read the head and compute the delay
    | TimerFires
    | TakeToken
    | Check                  // under the mutex: remove the head if due
    | Deliver                // a receiver takes the id from popChan
    | Cancel
    | DropOnCancel           // the popper sees ctx.Done while sending, and goes on
    | Exit                   // the popper sees ctx.Done while waiting, and returns

  /** An action that is not enabled changes nothing, so every sequence of actions is a run. */
  ghost function Apply(s: State, a: Action): State
  {
    match a
    case Tick(now) => if s.now <= now then s.(now := now) else s
    case Insert(who, t, id) =>
      if who in s.offering then s
      else s.(l := Inserted(s.l, Elem(t, id)), offering := s.offering + {who},
              live := s.live + [Elem(t, id)], inserted := s.inserted + [Elem(t, id)])
    case Offer(who) => if who in s.offering then s.(token := true, offering := s.offering - {who}) else s
    case Decide =>
      if s.popper.Deciding? then s.(popper := Armed(if s.l == [] then s.now + Backoff.MINUTE else s.l[0].t)) else s
    case TimerFires => if s.popper.Armed? && s.popper.target <= s.now then s.(popper := Checking) else s
    case TakeToken => if s.popper.Armed? && s.token then s.(popper := Checking, token := false) else s
    case Check =>
      if !s.popper.Checking? then s
      else if s.l != [] && s.l[0].t < s.now then
        s.(popper := Sending(s.l[0]), l := s.l[1..], live := DropFirst(s.live, s.l[0].t))
      else s.(popper := Deciding)
    case Deliver =>
      if s.popper.Sending? then s.(popper := Deciding, delivered := s.delivered + [s.popper.e]) else s
    case Cancel => s.(canceled := true)
    case DropOnCancel => if s.canceled && s.popper.Sending? then s.(popper := Deciding) else s
    case Exit => if s.canceled && s.popper.Armed? then s.(popper := Stopped) else s
  }

  ghost function Run(s: State, actions: seq<Action>): State
    decreases actions
  {
    if actions == [] then s else Run(Apply(s, actions[0]), actions[1..])
  }

  function Init(now: Time): State
  {
    State(now, [], false, Deciding, {}, false, [], [], [])
  }

  ghost function InFlight(s: State): seq<Elem>
  {
    if s.popper.Sending? then [s.popper.e] else []
  }

  /** The popper waits for a time later than the head's. */
  ghost predicate Oversleeping(s: State)
  {
    s.popper.Armed? && s.l != [] && s.l[0].t < s.popper.target
  }

  ghost predicate Inv(s: State)
  {
    && StableOrder(s.l, s.live)
    && (Oversleeping(s) ==> s.token || s.offering != {})
    && Conserved(s)
    && (forall i :: 0 <= i < |s.delivered| ==> s.delivered[i].t < s.now)
    && (s.popper.Sending? ==> s.popper.e.t < s.now)
    && (s.popper.Stopped? ==> s.canceled)
  }

  /** Everything inserted was delivered, is queued or is in flight, unless canceled; nothing else is. */
  ghost predicate Conserved(s: State)
  {
    var total := multiset(s.delivered) + multiset(s.live) + multiset(InFlight(s));
    total <= multiset(s.inserted) && (!s.canceled ==> total == multiset(s.inserted))
  }

  lemma DropCount(live: seq<Elem>, k: nat)
    requires k < |live|
    ensures multiset(live) == multiset(live[..k] + live[k + 1..]) + multiset([live[k]])
  {
    assert live == live[..k] + [live[k]] + live[k + 1..];
  }

  lemma DeliverKeeps(s: State)
    requires Inv(s) && s.popper.Sending?
    ensures Inv(Apply(s, Deliver))
  {
    hide StableOrder;
    var s' := Apply(s, Deliver);
    assert multiset(s'.delivered) == multiset(s.delivered) + multiset(InFlight(s));
  }

  lemma InsertKeeps(s: State, who: nat, t: Time, id: MsgId)
    requires Inv(s) && who !in s.offering
    ensures Inv(Apply(s, Insert(who, t, id)))
  {
    InsertedStable(s.l, s.live, Elem(t, id));
    var i := InsertedAt(s.l, Elem(t, id));
    hide StableOrder, Inserted, Conserved;
    var s' := Apply(s, Insert(who, t, id));
    assert who in s'.offering;
    Added(s, s', Elem(t, id));
  }

  /** What is inserted is queued. */
  lemma Added(s: State, s': State, e: Elem)
    requires Conserved(s) && s'.canceled == s.canceled && InFlight(s') == InFlight(s) && s'.delivered == s.delivered
    requires s'.live == s.live + [e] && s'.inserted == s.inserted + [e]
    ensures Conserved(s')
  {
    assert multiset(s'.live) == multiset(s.live) + multiset{e};
    assert multiset(s'.inserted) == multiset(s.inserted) + multiset{e};
  }

  lemma CheckKeeps(s: State)
    requires Inv(s) && s.popper.Checking?
    ensures Inv(Apply(s, Check))
  {
    hide StableOrder, DropFirst, Conserved;
    if s.l != [] && s.l[0].t < s.now {
      CheckRemoves(s);
    } else {
      ConservedSame(s, Apply(s, Check));
    }
  }

  lemma CheckRemoves(s: State)
    requires StableOrder(s.l, s.live) && Conserved(s) && s.popper.Checking? && s.l != [] && s.l[0].t < s.now
    ensures var s' := Apply(s, Check); StableOrder(s'.l, s'.live) && Conserved(s')
  {
    hide StableOrder, Conserved;
    var k := HeadIsEarliest(s.l, s.live);
    DropCount(s.live, k);
    Removed(s, Apply(s, Check));
  }

  /** What leaves the queue is in flight. */
  lemma Removed(s: State, s': State)
    requires Conserved(s) && InFlight(s) == [] && s'.canceled == s.canceled
    requires s'.delivered == s.delivered && s'.inserted == s.inserted
    requires multiset(s.live) == multiset(s'.live) + multiset(InFlight(s'))
    ensures Conserved(s')
  {
  }

  /** Cancellation while sending loses the element in flight and nothing else. */
  lemma DropKeeps(s: State)
    requires Inv(s) && s.canceled && s.popper.Sending?
    ensures Inv(Apply(s, DropOnCancel))
  {
    hide StableOrder;
    var s' := Apply(s, DropOnCancel);
    assert multiset(InFlight(s')) <= multiset(InFlight(s));
  }

  lemma ApplyKeeps(s: State, a: Action)
    requires Inv(s)
    ensures Inv(Apply(s, a))
  {
    hide StableOrder, Inserted, Conserved, DropFirst;
    match a
    case Insert(who, t, id) => if who !in s.offering { InsertKeeps(s, who, t, id); }
    case Check => if s.popper.Checking? { CheckKeeps(s); }
    case Deliver => if s.popper.Sending? { DeliverKeeps(s); }
    case DropOnCancel => if s.canceled && s.popper.Sending? { DropKeeps(s); }
    case Decide => if s.popper.Deciding? { DecideKeeps(s); }
    case TimerFires => if s.popper.Armed? { WakeKeeps(s, Checking, s.token); }
    case TakeToken => if s.popper.Armed? { WakeKeeps(s, Checking, false); }
    case Exit => if s.popper.Armed? && s.canceled { WakeKeeps(s, Stopped, s.token); }
    case Tick(now) => if s.now <= now { TickKeeps(s, now); }
    case Offer(who) => if who in s.offering { OfferKeeps(s, s.offering - {who}); }
    case Cancel => CancelKeeps(s);
  }

  /** The popper decides how long to wait. */
  lemma DecideKeeps(s: State)
    requires Inv(s) && s.popper.Deciding?
    ensures Inv(Apply(s, Decide))
  {
    hide StableOrder, Conserved, Inserted, DropFirst;
    ConservedSame(s, Apply(s, Decide));
  }

  /** The popper wakes up or stops, leaving the list and the history alone. */
  lemma WakeKeeps(s: State, popper: Popper, token: bool)
    requires Inv(s) && s.popper.Armed? && (popper.Checking? || (popper.Stopped? && s.canceled))
    ensures Inv(s.(popper := popper, token := token))
  {
    hide StableOrder, Conserved;
    ConservedSame(s, s.(popper := popper, token := token));
  }

  /** Time passes. */
  lemma TickKeeps(s: State, now: Time)
    requires Inv(s) && s.now <= now
    ensures Inv(s.(now := now))
  {
    hide StableOrder, Conserved;
    ConservedSame(s, s.(now := now));
  }

  /** A token is offered. */
  lemma OfferKeeps(s: State, offering: set<nat>)
    requires Inv(s)
    ensures Inv(s.(token := true, offering := offering))
  {
    hide StableOrder, Conserved;
    ConservedSame(s, s.(token := true, offering := offering));
  }

  /** The context is cancelled. */
  lemma CancelKeeps(s: State)
    requires Inv(s)
    ensures Inv(s.(canceled := true))
  {
    hide StableOrder, Conserved;
    ConservedSame(s, s.(canceled := true));
  }

  lemma ConservedSame(s: State, s': State)
    requires Conserved(s) && (s.canceled ==> s'.canceled) && InFlight(s') == InFlight(s)
    requires s'.live == s.live && s'.delivered == s.delivered && s'.inserted == s.inserted
    ensures Conserved(s')
  {
  }

  lemma {:induction false} RunKeeps(s: State, actions: seq<Action>)
    requires Inv(s)
    ensures Inv(Run(s, actions))
    decreases actions
  {
    if actions != [] {
      ApplyKeeps(s, actions[0]);
      RunKeeps(Apply(s, actions[0]), actions[1..]);
    }
  }

  lemma InitInv(now: Time)
    ensures Inv(Init(now))
  {
  }

  /**
   * No lost wake-up: in every reachable state, a popper that waits for a time
   * later than the head's has a token waiting, or an inserter about to offer one.
   */
  lemma NoLostWakeup(now: Time, actions: seq<Action>)
    ensures var s := Run(Init(now), actions);
            Oversleeping(s) ==> s.token || s.offering != {}
  {
    InitInv(now);
    RunKeeps(Init(now), actions);
  }

  /**
   * In every reachable state the list is sorted, with equal times in insertion
   * order; before cancellation nothing is lost or duplicated; and nothing has
   * been delivered before its time.
   */
  lemma QueueRefinesTimedMultiset(now: Time, actions: seq<Action>)
    ensures var s := Run(Init(now), actions);
            && StableOrder(s.l, s.live)
            && multiset(s.l) == multiset(s.live)
            && (!s.canceled ==> multiset(s.inserted) == multiset(s.delivered) + multiset(s.l) + multiset(InFlight(s)))
            && (forall i :: 0 <= i < |s.delivered| ==> s.delivered[i].t < s.now)
  {
    InitInv(now);
    RunKeeps(Init(now), actions);
    StableOrderSame(Run(Init(now), actions).l, Run(Init(now), actions).live);
  }

  /**
   * When the popper removes an element from a reachable state, its time has
   * passed and, among all elements queued, it is the first inserted of those
   * scheduled earliest.
   */
  lemma RemovesEarliest(now: Time, actions: seq<Action>)
    returns (k: nat)
    requires var s := Run(Init(now), actions); s.popper.Checking? && Apply(s, Check).popper.Sending?
    ensures var s, s' := Run(Init(now), actions), Apply(Run(Init(now), actions), Check);
            && k < |s.live| && s.live[k] == s'.popper.e && s.live[k].t < s.now
            && (forall j :: 0 <= j < |s.live| ==> s.live[k].t <= s.live[j].t && (j < k ==> s.live[k].t < s.live[j].t))
            && s'.live == s.live[..k] + s.live[k + 1..]
  {
    InitInv(now);
    RunKeeps(Init(now), actions);
    var s := Run(Init(now), actions);
    k := HeadIsEarliest(s.l, s.live);
  }

  // ---------- Progress ----------

  /** A step of the popper itself, or of the receiver that takes an id from it. */
  ghost predicate Own(a: Action)
  {
    a.Decide? || a.TimerFires? || a.TakeToken? || a.Check? || a.Deliver?
  }

  ghost predicate OwnSteps(steps: seq<Action>)
  {
    forall i :: 0 <= i < |steps| ==> Own(steps[i])
  }

  /** The first m elements have been delivered, in order, after what was in flight; nothing else has changed. */
  ghost predicate Drained(s: State, s': State, m: nat)
    requires m <= |s.l|
  {
    && s'.delivered == s.delivered + InFlight(s) + s.l[..m] && s'.l == s.l[m..] && s'.popper.Deciding?
    && s'.now == s.now && s'.offering == s.offering && s'.canceled == s.canceled && s'.inserted == s.inserted
  }

  lemma Running(s: State)
    requires Inv(s) && !s.canceled
    ensures !s.popper.Stopped?
    ensures Oversleeping(s) ==> s.token || s.offering != {}
  {
  }

  lemma RunFirst(s: State, a: Action, rest: seq<Action>)
    ensures Run(s, [a] + rest) == Run(Apply(s, a), rest)
  {
    hide Apply;
    assert ([a] + rest)[1..] == rest;
  }

  lemma {:induction false} RunAppend(s: State, first: seq<Action>, second: seq<Action>)
    ensures Run(s, first + second) == Run(Run(s, first), second)
    decreases first
  {
    hide Apply;
    if first == [] {
      assert first + second == second;
    } else {
      assert (first + second)[1..] == first[1..] + second;
      RunAppend(Apply(s, first[0]), first[1..], second);
    }
  }

  /** Under the mutex, with the head due: it is removed and delivered. */
  lemma CheckDelivers(s: State)
    requires s.popper.Checking? && s.l != [] && s.l[0].t < s.now
    ensures var s' := Run(s, [Check, Deliver]);
            && s'.delivered == s.delivered + [s.l[0]] && s'.l == s.l[1..] && s'.popper.Deciding?
            && s'.now == s.now && s'.offering == s.offering && s'.canceled == s.canceled && s'.inserted == s.inserted
  {
    hide DropFirst;
    var s1 := Apply(s, Check);
    var s2 := Apply(s1, Deliver);
    assert s2.delivered == s.delivered + [s.l[0]];
    hide Apply;
    RunFirst(s, Check, [Deliver]);
    RunFirst(s1, Deliver, []);
    assert [Check] + [Deliver] == [Check, Deliver] && [Deliver] + [] == [Deliver];
  }

  /** The popper gets to the mutex: the time it waits for has come, or a token wakes it. */
  lemma WakesUp(s: State) returns (steps: seq<Action>)
    requires Inv(s) && !s.canceled && s.offering == {} && s.l != [] && s.l[0].t < s.now
    requires s.popper.Deciding? || s.popper.Armed? || s.popper.Checking?
    ensures OwnSteps(steps) && |steps| <= 2
    ensures var s' := Run(s, steps);
            s'.popper.Checking? && s' == s.(popper := s'.popper, token := s'.token)
  {
    Running(s);
    hide Inv;
    if s.popper.Checking? {
      steps := [];
    } else if s.popper.Armed? {
      steps := if s.popper.target <= s.now then [TimerFires] else [TakeToken];
      RunFirst(s, steps[0], []);
      assert [steps[0]] + [] == steps;
    } else {
      steps := [Decide, TimerFires];
      RunFirst(s, Decide, [TimerFires]);
      RunFirst(Apply(s, Decide), TimerFires, []);
      assert [Decide] + [TimerFires] == steps && [TimerFires] + [] == [TimerFires];
    }
  }

  /** What is in flight is delivered first. */
  lemma HandsOver(s: State)
    requires s.popper.Sending?
    ensures Run(s, [Deliver]) == s.(popper := Deciding, delivered := s.delivered + InFlight(s))
  {
    RunFirst(s, Deliver, []);
    assert [Deliver] + [] == [Deliver];
  }

  /** A head whose time has passed is delivered by at most five steps of the popper and its receiver. */
  lemma HeadDelivered(s: State) returns (steps: seq<Action>)
    requires Inv(s) && !s.canceled && s.offering == {} && s.l != [] && s.l[0].t < s.now
    ensures OwnSteps(steps) && |steps| <= 5
    ensures Drained(s, Run(s, steps), 1) && Inv(Run(s, steps))
  {
    hide Inv, Run, Apply;
    Running(s);
    var first, s1 := [], s;
    assert Run(s, []) == s by { RunNone(s); }
    if s.popper.Sending? {
      first := [Deliver];
      HandsOver(s);
      RunKeeps(s, first);
      s1 := Run(s, first);
    }
    var wake := WakesUp(s1);
    var s2 := Run(s1, wake);
    CheckDelivers(s2);
    RunAppend(s, first, wake);
    RunAppend(s, first + wake, [Check, Deliver]);
    steps := first + wake + [Check, Deliver];
    RunKeeps(s, steps);
    assert s.delivered + [] == s.delivered;
  }

  lemma RunNone(s: State)
    ensures Run(s, []) == s
  {
  }

  lemma DrainedMore(s: State, s1: State, s2: State, m: nat)
    requires m < |s.l| && Drained(s, s1, m) && Drained(s1, s2, 1)
    ensures Drained(s, s2, m + 1)
  {
    assert s.l[..m] + s.l[m..][..1] == s.l[..m + 1];
    assert s.delivered + InFlight(s) + s.l[..m] + [] + s.l[m..][..1]
        == s.delivered + InFlight(s) + (s.l[..m] + s.l[m..][..1]);
    assert s.l[m..][1..] == s.l[m + 1..];
  }

  lemma {:induction false} FrontDelivered(s: State, m: nat) returns (steps: seq<Action>)
    requires Inv(s) && !s.canceled && s.offering == {} && 0 < m <= |s.l|
    requires forall i :: 0 <= i < m ==> s.l[i].t < s.now
    ensures OwnSteps(steps) && |steps| <= 5 * m
    ensures Drained(s, Run(s, steps), m) && Inv(Run(s, steps))
    decreases m
  {
    hide Inv, Run;
    if m == 1 {
      steps := HeadDelivered(s);
    } else {
      var first := FrontDelivered(s, m - 1);
      var s1 := Run(s, first);
      assert s1.l[0] == s.l[m - 1];
      var last := HeadDelivered(s1);
      RunAppend(s, first, last);
      steps := first + last;
      DrainedMore(s, s1, Run(s1, last), m - 1);
    }
  }

  /**
   * Progress: from every reachable state that is not cancelled, with no offer
   * pending, in which the times of the first m elements have passed, at most five
   * steps each of the popper and its receiver deliver exactly these elements, in
   * order of time and, at equal times, of insertion, after what was in flight;
   * no insertion and no further time is needed.
   */
  lemma DueAreDelivered(now: Time, actions: seq<Action>, m: nat) returns (steps: seq<Action>)
    requires var s := Run(Init(now), actions);
             && !s.canceled && s.offering == {} && 0 < m <= |s.l| && forall i :: 0 <= i < m ==> s.l[i].t < s.now
    ensures OwnSteps(steps) && |steps| <= 5 * m
    ensures var s := Run(Init(now), actions);
            && StableOrder(s.l, s.live)
            && Run(s, steps).delivered == s.delivered + InFlight(s) + s.l[..m] && Run(s, steps).l == s.l[m..]
  {
    hide Run;
    InitInv(now);
    RunKeeps(Init(now), actions);
    steps := FrontDelivered(Run(Init(now), actions), m);
  }

  /** What the inserters' steps do. */
  lemma InserterSteps(s: State, who: nat, t: Time, id: MsgId)
    requires Inv(s)
    ensures var s', e := Apply(s, Insert(who, t, id)), Elem(t, id);
            who !in s.offering ==>
              && StableOrder(s'.l, s.live + [e]) && s'.inserted == s.inserted + [e] && who in s'.offering
              && s'.delivered == s.delivered && s'.popper == s.popper
    ensures var s' := Apply(s, Offer(who));
            who in s.offering ==> s'.token && s'.offering == s.offering - {who} && s'.l == s.l
  {
    InsertedStable(s.l, s.live, Elem(t, id));
    hide StableOrder, Inserted;
  }

  /** Once cancelled, the popper can stop within four steps. */
  lemma CancelStops(s: State) returns (steps: seq<Action>)
    requires s.canceled
    ensures |steps| <= 4 && Run(s, steps).popper.Stopped?
  {
    hide Run, DropFirst;
    RunNone(s);
    if s.popper.Checking? {
      var s1 := Apply(s, Check);
      var rest := StopFromOutside(s1);
      RunFirst(s, Check, rest);
      steps := [Check] + rest;
    } else {
      steps := StopFromOutside(s);
    }
  }

  lemma StopFromOutside(s: State) returns (steps: seq<Action>)
    requires s.canceled && !s.popper.Checking?
    ensures |steps| <= 3 && Run(s, steps).popper.Stopped?
  {
    hide DropFirst;
    if s.popper.Stopped? {
      steps := [];
    } else if s.popper.Armed? {
      steps := [Exit];
      RunFirst(s, Exit, []);
      assert [Exit] + [] == steps;
    } else if s.popper.Deciding? {
      steps := [Decide, Exit];
      RunFirst(s, Decide, [Exit]);
      RunFirst(Apply(s, Decide), Exit, []);
      assert [Decide] + [Exit] == steps && [Exit] + [] == [Exit];
    } else {
      steps := [DropOnCancel, Decide, Exit];
      var s1 := Apply(s, DropOnCancel);
      RunFirst(s, DropOnCancel, [Decide, Exit]);
      RunFirst(s1, Decide, [Exit]);
      RunFirst(Apply(s1, Decide), Exit, []);
      assert [DropOnCancel] + [Decide, Exit] == steps && [Decide] + [Exit] == [Decide, Exit] && [Exit] + [] == [Exit];
    }
  }
}

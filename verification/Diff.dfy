/** diffAndEnqueue and the receiver's side of Diff; checkHops. */
module Diff {
  import opened Message
  import opened Storage
  import opened Queue
  import opened Delivery
  import Calendar

  const BATCH := 256

  /** Why a message is not offered to a peer. */
  datatype Refusal = NotRefused | AlreadyThere | HopLimit

  function CheckHops(hops: seq<string>, peer: string, maxHops: int): Refusal
  {
    if peer in hops then AlreadyThere else if maxHops > 0 && |hops| >= maxHops then HopLimit else NotRefused
  }

  method CheckHopsLoop(hops: seq<string>, peer: string, maxHops: int) returns (r: Refusal)
    ensures r == CheckHops(hops, peer, maxHops)
  {
    for i := 0 to |hops|
      invariant peer !in hops[..i]
    {
      if hops[i] == peer {
        return AlreadyThere;
      }
    }
    assert hops[..|hops|] == hops;
    r := if maxHops > 0 && |hops| >= maxHops then HopLimit else NotRefused;
  }

  /** The receiver answers one bool per id: whether it has the message complete. */
  method Answer(ids: seq<MsgId>, complete: set<MsgId>) returns (responses: seq<bool>)
    ensures |responses| == |ids|
    ensures forall i :: 0 <= i < |ids| ==> responses[i] == (ids[i] in complete)
  {
    responses := [];
    for i := 0 to |ids|
      invariant |responses| == i
      invariant forall j :: 0 <= j < i ==> responses[j] == (ids[j] in complete)
    {
      responses := responses + [ids[i] in complete];
    }
  }

  /** Whom the messages are for, the peer files before, and what the receiver has when batch k arrives. */
  datatype Setting = Setting(peer: string, maxHops: int, infos: map<MsgId, PeerInfo>, complete: nat -> set<MsgId>)

  /** An id of a batch with its peer file, NextAttempt filled in from the creation time if unset. */
  datatype Item = Item(id: MsgId, pi: PeerInfo)

  /** The peer files and the Insert calls made so far. */
  datatype Progress = Progress(infos: map<MsgId, PeerInfo>, inserts: seq<Elem>)

  /** Skipped: already terminal, or refused by checkHops. */
  predicate Filtered(c: Setting, m: Message)
  {
    Terminal(Info(c.infos, m.signed.id)) || CheckHops(m.hops, c.peer, c.maxHops) != NotRefused
  }

  function ItemOf(c: Setting, m: Message): Item
  {
    var pi := Info(c.infos, m.signed.id);
    Item(m.signed.id, if pi.nextAttempt == 0 then pi.(nextAttempt := m.signed.created.Instant()) else pi)
  }

  function Settle(p: Progress, item: Item, hasIt: bool): Progress
  {
    if hasIt then p.(infos := p.infos[item.id := item.pi.(sent := true)])
    else p.(inserts := p.inserts + [Elem(item.pi.nextAttempt, item.id)])
  }

  /** The state once the first n entries of the manifest are dealt with, batch k holding entries 256k to 256k+255. */
  function UpTo(c: Setting, manifest: seq<Message>, n: nat): Progress
    requires n <= |manifest|
  {
    if n == 0 then Progress(c.infos, [])
    else
      var before, m := UpTo(c, manifest, n - 1), manifest[n - 1];
      if Filtered(c, m) then before
      else Settle(before, ItemOf(c, m), m.signed.id in c.complete((n - 1) / BATCH))
  }

  function WindowEnd(manifest: seq<Message>, start: nat): (e: nat)
    requires start <= |manifest|
    ensures start <= e <= |manifest| && e <= start + BATCH
  {
    if |manifest| - start < BATCH then |manifest| else start + BATCH
  }

  predicate AllFiltered(c: Setting, manifest: seq<Message>, start: nat)
    requires start <= |manifest|
  {
    forall i :: start <= i < WindowEnd(manifest, start) ==> Filtered(c, manifest[i])
  }

  /** Where it stops: the end of the first window of 256 entries that are all filtered out, or of the manifest. */
  function StopAt(c: Setting, manifest: seq<Message>, start: nat): (e: nat)
    requires start <= |manifest|
    ensures start <= e <= |manifest|
    decreases |manifest| - start
  {
    if AllFiltered(c, manifest, start) then WindowEnd(manifest, start)
    else StopAt(c, manifest, WindowEnd(manifest, start))
  }

  /** Entries of distinct directories have distinct ids. */
  ghost predicate DistinctIds(manifest: seq<Message>)
  {
    forall i, j :: 0 <= i < j < |manifest| ==> manifest[i].signed.id != manifest[j].signed.id
  }

  /** The items of entries start to n. */
  function Items(c: Setting, manifest: seq<Message>, start: nat, n: nat): seq<Item>
    requires start <= n <= |manifest|
    decreases n
  {
    if n == start then []
    else Items(c, manifest, start, n - 1) + (if Filtered(c, manifest[n - 1]) then [] else [ItemOf(c, manifest[n - 1])])
  }

  function SettleAll(p: Progress, items: seq<Item>, complete: set<MsgId>): Progress
  {
    if items == [] then p
    else
      var k := |items| - 1;
      Settle(SettleAll(p, items[..k], complete), items[k], items[k].id in complete)
  }

  /** Answering a window's batch brings the state from its start to its end. */
  lemma {:induction false} WindowSettles(c: Setting, manifest: seq<Message>, start: nat, n: nat, k: nat)
    requires start == BATCH * k && start <= n <= |manifest| && n <= start + BATCH
    ensures SettleAll(UpTo(c, manifest, start), Items(c, manifest, start, n), c.complete(k)) == UpTo(c, manifest, n)
    decreases n
  {
    if n > start {
      WindowSettles(c, manifest, start, n - 1, k);
      var items := Items(c, manifest, start, n);
      assert (n - 1) / BATCH == k;
      if !Filtered(c, manifest[n - 1]) {
        assert items[..|items| - 1] == Items(c, manifest, start, n - 1);
      } else {
        assert items == Items(c, manifest, start, n - 1);
      }
    }
  }

  lemma {:induction false} NoItems(c: Setting, manifest: seq<Message>, start: nat, n: nat)
    requires start <= n <= |manifest|
    ensures Items(c, manifest, start, n) == [] <==> forall i :: start <= i < n ==> Filtered(c, manifest[i])
    decreases n
  {
    if n > start {
      NoItems(c, manifest, start, n - 1);
    }
  }

  /** What dealing with other entries leaves alone. */
  lemma {:induction false} UntouchedSoFar(c: Setting, manifest: seq<Message>, n: nat, id: MsgId)
    requires n <= |manifest| && forall i :: 0 <= i < n ==> manifest[i].signed.id != id
    ensures Info(UpTo(c, manifest, n).infos, id) == Info(c.infos, id)
    ensures forall e :: e in UpTo(c, manifest, n).inserts ==> e.id != id
  {
    if n > 0 {
      UntouchedSoFar(c, manifest, n - 1, id);
    }
  }

  /** A peer file is as it was, or marked Sent because the receiver said it has the message. */
  lemma {:induction false} InfosSoFar(c: Setting, manifest: seq<Message>, n: nat, id: MsgId, has: set<MsgId>)
    requires n <= |manifest| && forall k :: c.complete(k) == has
    ensures var pi := Info(UpTo(c, manifest, n).infos, id);
            pi == Info(c.infos, id) || (pi.sent && !pi.fatal && id in has)
    decreases n
  {
    if n > 0 {
      InfosSoFar(c, manifest, n - 1, id, has);
    }
  }

  /** If the receiver has nothing, no peer file changes. */
  lemma {:induction false} NothingThere(c: Setting, manifest: seq<Message>, n: nat)
    requires n <= |manifest| && forall k :: c.complete(k) == {}
    ensures UpTo(c, manifest, n).infos == c.infos
    decreases n
  {
    if n > 0 {
      NothingThere(c, manifest, n - 1);
    }
  }

  /** Peer files are kept or made for entries of the manifest, and only those are queued. */
  lemma {:induction false} EntriesSoFar(c: Setting, manifest: seq<Message>, n: nat)
    requires n <= |manifest|
    ensures var p := UpTo(c, manifest, n);
            && (forall id :: id in p.infos ==> id in c.infos || Entered(manifest, n, id))
            && (forall id :: id in c.infos ==> id in p.infos)
            && (forall e :: e in p.inserts ==> Entered(manifest, n, e.id))
    decreases n
  {
    if n > 0 {
      EntriesSoFar(c, manifest, n - 1);
      assert Entered(manifest, n, manifest[n - 1].signed.id);
    }
  }

  ghost predicate Entered(manifest: seq<Message>, n: nat, id: MsgId)
    requires n <= |manifest|
  {
    exists i :: 0 <= i < n && manifest[i].signed.id == id
  }

  class Sender {
    var infos: map<MsgId, PeerInfo>
    var inserts: seq<Elem>

    constructor (infos: map<MsgId, PeerInfo>)
      ensures this.infos == infos && inserts == []
    {
      this.infos, inserts := infos, [];
    }

    /** Reads up to 256 entries; skipped entries count too. */
    method ReadWindow(c: Setting, manifest: seq<Message>, start: nat)
      returns (pos: nat, batch: seq<MsgId>, items: seq<Item>)
      requires start <= |manifest| && DistinctIds(manifest)
      requires infos == UpTo(c, manifest, start).infos
      ensures pos == WindowEnd(manifest, start)
      ensures items == Items(c, manifest, start, pos)
      ensures |batch| == |items| && forall j :: 0 <= j < |items| ==> batch[j] == items[j].id
    {
      batch, items, pos := [], [], start;
      for i := 0 to BATCH
        invariant start <= pos == start + i <= |manifest|
        invariant items == Items(c, manifest, start, pos)
        invariant |batch| == |items| && forall j :: 0 <= j < |items| ==> batch[j] == items[j].id
      {
        if pos == |manifest| {
          break;
        }
        var m := manifest[pos];
        UntouchedSoFar(c, manifest, start, m.signed.id);
        pos := pos + 1;
        var pi := if m.signed.id in infos then infos[m.signed.id] else NO_PEER_INFO;
        if pi.sent || pi.fatal {
          continue;
        }
        var refusal := CheckHopsLoop(m.hops, c.peer, c.maxHops);
        if refusal != NotRefused {
          continue;
        }
        batch := batch + [m.signed.id];
        if pi.nextAttempt == 0 {
          pi := pi.(nextAttempt := m.signed.created.Instant());
        }
        items := items + [Item(m.signed.id, pi)];
      }
    }

    /** Marks what the receiver has and queues the rest. */
    method TakeAnswers(items: seq<Item>, responses: seq<bool>, complete: set<MsgId>)
      requires |responses| == |items| && forall j :: 0 <= j < |items| ==> responses[j] == (items[j].id in complete)
      modifies this
      ensures Progress(infos, inserts) == SettleAll(old(Progress(infos, inserts)), items, complete)
    {
      for i := 0 to |items|
        invariant Progress(infos, inserts) == SettleAll(old(Progress(infos, inserts)), items[..i], complete)
      {
        assert items[..i + 1][..i] == items[..i];
        if responses[i] {
          infos := infos[items[i].id := items[i].pi.(sent := true)];
        } else {
          inserts := inserts + [Elem(items[i].pi.nextAttempt, items[i].id)];
        }
      }
      assert items[..|items|] == items;
    }

    /** On success: every entry up to the stop is dealt with, and none beyond. */
    method DiffAndEnqueue(c: Setting, manifest: seq<Message>)
      requires infos == c.infos && inserts == [] && DistinctIds(manifest)
      modifies this
      ensures Progress(infos, inserts) == UpTo(c, manifest, StopAt(c, manifest, 0))
    {
      var pos, k := 0, 0;
      while true
        invariant pos <= |manifest| && (pos == BATCH * k || pos == |manifest|)
        invariant Progress(infos, inserts) == UpTo(c, manifest, pos)
        invariant StopAt(c, manifest, 0) == StopAt(c, manifest, pos)
        decreases |manifest| - pos
      {
        var end, batch, items := ReadWindow(c, manifest, pos);
        NoItems(c, manifest, pos, end);
        if |batch| == 0 {
          FilteredSame(c, manifest, pos, end);
          break;
        }
        var responses := Answer(batch, c.complete(k));
        TakeAnswers(items, responses, c.complete(k));
        WindowSettles(c, manifest, pos, end, k);
        pos, k := end, k + 1;
      }
    }
  }

  /** Filtered entries change nothing. */
  lemma {:induction false} FilteredSame(c: Setting, manifest: seq<Message>, start: nat, n: nat)
    requires start <= n <= |manifest| && forall i :: start <= i < n ==> Filtered(c, manifest[i])
    ensures UpTo(c, manifest, n) == UpTo(c, manifest, start)
    decreases n
  {
    if n > start {
      FilteredSame(c, manifest, start, n - 1);
    }
  }

  /** What Filtered means: the message is settled for the peer, came through it, or has no hop left. */
  lemma FilteredMeans(c: Setting, m: Message)
    ensures var pi := Info(c.infos, m.signed.id);
            Filtered(c, m) <==> pi.sent || pi.fatal || c.peer in m.hops || (c.maxHops > 0 && |m.hops| >= c.maxHops)
  {
  }

  /**
   * The partition: each entry before the stop is exactly one of skipped (peer file
   * unchanged, not queued), marked Sent because the receiver had it when that
   * entry's batch arrived, or queued once, at the NextAttempt on record or, if
   * there is none, at its creation; each entry after the stop is untouched.
   */
  lemma {:induction false} Partition(c: Setting, manifest: seq<Message>, n: nat, i: nat)
    requires n <= |manifest| && i < |manifest| && DistinctIds(manifest)
    ensures var p, m := UpTo(c, manifest, n), manifest[i];
            var before, after := Info(c.infos, m.signed.id), Info(p.infos, m.signed.id);
            var skipped := before.sent || before.fatal || c.peer in m.hops || (c.maxHops > 0 && |m.hops| >= c.maxHops);
            var due := if before.nextAttempt != 0 then before.nextAttempt else m.signed.created.Instant();
            if i >= n || skipped then
              after == before && Count(p.inserts, m.signed.id) == 0
            else if m.signed.id in c.complete(i / BATCH) then
              && after.sent && !after.fatal && after.numAttempts == before.numAttempts && after.nextAttempt == due
              && Count(p.inserts, m.signed.id) == 0
            else
              && after == before && Count(p.inserts, m.signed.id) == 1
              && forall e :: e in p.inserts && e.id == m.signed.id ==> e == Elem(due, e.id)
    decreases n
  {
    hide Filtered, Count;
    var id := manifest[i].signed.id;
    FilteredMeans(c, manifest[i]);
    if i >= n {
      UntouchedSoFar(c, manifest, n, id);
      CountNone(UpTo(c, manifest, n).inserts, id);
    } else {
      Partition(c, manifest, n - 1, i);
      var before := UpTo(c, manifest, n - 1);
      if !Filtered(c, manifest[n - 1]) {
        CountLast(before.inserts, Elem(ItemOf(c, manifest[n - 1]).pi.nextAttempt, manifest[n - 1].signed.id), id);
        if i == n - 1 {
          UntouchedSoFar(c, manifest, n - 1, id);
        }
      }
    }
  }

  /** What one Insert call after another leaves of a queue. */
  ghost function InsertedAll(q: seq<Elem>, inserts: seq<Elem>): seq<Elem>
    decreases inserts
  {
    if inserts == [] then q else InsertedAll(Inserted(q, inserts[0]), inserts[1..])
  }

  lemma {:induction false} InsertedAllStable(q: seq<Elem>, live: seq<Elem>, inserts: seq<Elem>)
    requires StableOrder(q, live)
    ensures StableOrder(InsertedAll(q, inserts), live + inserts)
    decreases inserts
  {
    if inserts == [] {
      assert live + inserts == live;
    } else {
      hide StableOrder, Inserted;
      InsertedStable(q, live, inserts[0]);
      InsertedAllStable(Inserted(q, inserts[0]), live + [inserts[0]], inserts[1..]);
      assert live + [inserts[0]] + inserts[1..] == live + inserts;
    }
  }

  /** A new entry that the receiver lacks: neither skipped nor tried before. */
  ghost predicate New(c: Setting, manifest: seq<Message>, i: nat)
    requires i < |manifest|
  {
    && !Filtered(c, manifest[i]) && Info(c.infos, manifest[i].signed.id).nextAttempt == 0
    && manifest[i].signed.id !in c.complete(i / BATCH)
  }

  /** Such an entry is in the queue afterwards, at the instant of its creation. */
  lemma NewQueued(c: Setting, manifest: seq<Message>, n: nat, i: nat, q: seq<Elem>, live: seq<Elem>) returns (x: nat)
    requires i < n <= |manifest| && DistinctIds(manifest) && New(c, manifest, i) && StableOrder(q, live)
    ensures var l, m := InsertedAll(q, UpTo(c, manifest, n).inserts), manifest[i].signed;
            x < |l| && l[x] == Elem(m.created.Instant(), m.id)
  {
    hide Count, UpTo, Inserted;
    var inserts, m := UpTo(c, manifest, n).inserts, manifest[i].signed;
    Partition(c, manifest, n, i);
    var k := CountSome(inserts, m.id);
    assert inserts[k] == Elem(m.created.Instant(), m.id);
    InsertedAllStable(q, live, inserts);
    var l := InsertedAll(q, inserts);
    StableOrderSame(l, live + inserts);
    hide StableOrder, InsertedAll;
    assert (live + inserts)[|live| + k] == inserts[k];
    assert inserts[k] in multiset(live + inserts);
    assert inserts[k] in multiset(l);
    assert inserts[k] in l;
    x :| 0 <= x < |l| && l[x] == inserts[k];
  }

  /**
   * New messages leave the queue in order of creation: whatever was queued before,
   * the one created earlier stands before the other.
   */
  lemma CreationOrder(c: Setting, manifest: seq<Message>, n: nat, i: nat, j: nat, q: seq<Elem>, live: seq<Elem>)
    returns (x: nat, y: nat)
    requires n <= |manifest| && DistinctIds(manifest) && StableOrder(q, live)
    requires i < n && j < n && New(c, manifest, i) && New(c, manifest, j)
    requires Calendar.Exists(manifest[i].signed.created) && Calendar.Exists(manifest[j].signed.created)
    requires Calendar.Earlier(manifest[i].signed.created, manifest[j].signed.created)
    ensures var l := InsertedAll(q, UpTo(c, manifest, n).inserts);
            && x < y < |l| && Sorted(l)
            && l[x] == Elem(manifest[i].signed.created.Instant(), manifest[i].signed.id)
            && l[y] == Elem(manifest[j].signed.created.Instant(), manifest[j].signed.id)
  {
    x := NewQueued(c, manifest, n, i, q, live);
    y := NewQueued(c, manifest, n, j, q, live);
    Calendar.InstantOrder(manifest[i].signed.created, manifest[j].signed.created);
    InsertedAllStable(q, live, UpTo(c, manifest, n).inserts);
    hide UpTo, InsertedAll, New, Civil.Instant;
    assert x != y;
  }

  /** How often an id was queued. */
  ghost function Count(inserts: seq<Elem>, id: MsgId): nat
  {
    if inserts == [] then 0 else (if inserts[0].id == id then 1 else 0) + Count(inserts[1..], id)
  }

  lemma {:induction false} CountNone(inserts: seq<Elem>, id: MsgId)
    requires forall e :: e in inserts ==> e.id != id
    ensures Count(inserts, id) == 0
  {
    if inserts != [] {
      CountNone(inserts[1..], id);
    }
  }

  lemma {:induction false} CountSome(inserts: seq<Elem>, id: MsgId) returns (k: nat)
    requires Count(inserts, id) > 0
    ensures k < |inserts| && inserts[k].id == id
  {
    if inserts[0].id == id {
      k := 0;
    } else {
      k := CountSome(inserts[1..], id);
      k := k + 1;
    }
  }

  lemma {:induction false} CountLast(inserts: seq<Elem>, e: Elem, id: MsgId)
    ensures Count(inserts + [e], id) == Count(inserts, id) + (if e.id == id then 1 else 0)
  {
    if inserts != [] {
      assert (inserts + [e])[1..] == inserts[1..] + [e];
      CountLast(inserts[1..], e, id);
    }
  }

  // ---------- When nothing is missed ----------

  /** A window whose entries are all filtered out comes before an entry that is not. */
  ghost predicate Hidden(c: Setting, manifest: seq<Message>, k: nat, j: nat)
  {
    && BATCH * (k + 1) <= j < |manifest| && !Filtered(c, manifest[j])
    && AllFiltered(c, manifest, BATCH * k)
  }

  /** It stops at the end, or after a window that is all filtered. */
  lemma {:induction false} StopsAfterFiltered(c: Setting, manifest: seq<Message>, k: nat) returns (w: nat)
    requires BATCH * k <= |manifest|
    ensures var stop := StopAt(c, manifest, BATCH * k);
            stop == |manifest| || (stop == BATCH * (w + 1) && AllFiltered(c, manifest, BATCH * w))
    decreases |manifest| - BATCH * k
  {
    w := k;
    if !AllFiltered(c, manifest, BATCH * k) && WindowEnd(manifest, BATCH * k) == BATCH * (k + 1) {
      w := StopsAfterFiltered(c, manifest, k + 1);
    }
  }

  /** It goes no further than any window that is all filtered. */
  lemma {:induction false} StopsByFiltered(c: Setting, manifest: seq<Message>, from: nat, k: nat)
    requires from <= k && BATCH * k <= |manifest| && AllFiltered(c, manifest, BATCH * k)
    ensures StopAt(c, manifest, BATCH * from) <= WindowEnd(manifest, BATCH * k)
    decreases k - from
  {
    if from < k && !AllFiltered(c, manifest, BATCH * from) {
      StopsByFiltered(c, manifest, from + 1, k);
    }
  }

  /** Every entry that should be offered is dealt with exactly when no all-filtered window hides one. */
  lemma NothingMissedIff(c: Setting, manifest: seq<Message>)
    ensures (forall i :: 0 <= i < |manifest| && !Filtered(c, manifest[i]) ==> i < StopAt(c, manifest, 0))
            <==> !(exists k, j :: Hidden(c, manifest, k, j))
  {
    if exists k, j :: Hidden(c, manifest, k, j) {
      var k, j :| Hidden(c, manifest, k, j);
      StopsByFiltered(c, manifest, 0, k);
      assert StopAt(c, manifest, 0) <= j;
    } else {
      var w := StopsAfterFiltered(c, manifest, 0);
      forall i | 0 <= i < |manifest| && !Filtered(c, manifest[i])
        ensures i < StopAt(c, manifest, 0)
      {
        assert !Hidden(c, manifest, w, i);
      }
    }
  }

  /** 256 messages that came through the peer, then one that it has not seen, which is missed. */
  lemma MissedExample(c: Setting, sg: Signed)
    requires c.infos == map[] && c.maxHops == 0
    ensures var seen := seq(BATCH, i requires 0 <= i < BATCH => Message([c.peer], sg.(id := [i])));
            var manifest := seen + [Message([], sg.(id := []))];
            DistinctIds(manifest) && StopAt(c, manifest, 0) == BATCH && !Filtered(c, manifest[BATCH])
  {
    var seen := seq(BATCH, i requires 0 <= i < BATCH => Message([c.peer], sg.(id := [i])));
    var manifest := seen + [Message([], sg.(id := []))];
    assert forall i :: 0 <= i < BATCH ==> manifest[i].signed.id[0] == i;
    assert AllFiltered(c, manifest, 0);
  }
}

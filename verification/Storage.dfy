/** FileStorage: what each operation does to the file system and the lock table. */
module Storage {
  import opened Message

  datatype Option<+T> = None | Some(value: T)

  datatype Error =
    | Busy | AlreadySeen | MessageIdCollision | IncorrectOffset(size: nat) | ContentMismatch
    | NoExist | Expired | TooManyHops | TooBig

  datatype Result<+T> = Ok(value: T) | Err(error: Error)

  /** SHA-256, as an unknown function of the bytes. */
  type Hash = Bytes -> Bytes

  /** Delivery state of one message to one peer. */
  datatype PeerInfo = PeerInfo(sent: bool, fatal: bool, nextAttempt: int, numAttempts: nat)

  const NO_PEER_INFO := PeerInfo(false, false, 0, 0)

  /** The message file of a directory: missing, not yet decodable, or a record. */
  datatype Record = NoRecord | Torn | Stored(msg: Message)

  /** A message's directory: record, content file, done file and peer files. */
  datatype Dir = Dir(record: Record, content: Option<nat>, done: bool, peers: map<string, PeerInfo>)

  const NEW_DIR := Dir(NoRecord, None, false, map[])

  /** Directories by message id, file bytes by inode (unlinked files included), and the lock table. */
  datatype Fs = Fs(dirs: map<MsgId, Dir>, files: map<nat, Bytes>, next: nat, busy: set<MsgId>)

  const EMPTY := Fs(map[], map[], 0, {})

  /** An open file being written: position, and the bytes its running hash has absorbed. */
  datatype Writer = Writer(msg: Message, inode: nat, pos: nat, hashed: Bytes)

  predicate IsComplete(fs: Fs, id: MsgId)
  {
    id in fs.dirs && fs.dirs[id].done
  }

  function ReadMessage(fs: Fs, id: MsgId): Option<Message>
  {
    if id in fs.dirs && fs.dirs[id].record.Stored? then Some(fs.dirs[id].record.msg) else None
  }

  function WriteMessage(fs: Fs, msg: Message): Fs
  {
    var id := msg.signed.id;
    var d := if id in fs.dirs then fs.dirs[id] else NEW_DIR;
    fs.(dirs := fs.dirs[id := d.(record := Stored(msg))])
  }

  /** Opens the content file of an existing directory, creating it if missing. */
  function OpenContent(fs: Fs, id: MsgId): Fs
    requires id in fs.dirs
  {
    if fs.dirs[id].content.Some? then fs
    else fs.(dirs := fs.dirs[id := fs.dirs[id].(content := Some(fs.next))],
             files := fs.files[fs.next := []], next := fs.next + 1)
  }

  function FileBytes(fs: Fs, inode: nat): Bytes
  {
    if inode in fs.files then fs.files[inode] else []
  }

  function ContentOf(fs: Fs, id: MsgId): Bytes
  {
    if id in fs.dirs && fs.dirs[id].content.Some? then FileBytes(fs, fs.dirs[id].content.value) else []
  }

  function Lock(fs: Fs, id: MsgId): Fs
  {
    fs.(busy := fs.busy + {id})
  }

  function Unlock(fs: Fs, id: MsgId): Fs
  {
    fs.(busy := fs.busy - {id})
  }

  function OpenWrite(sha: Hash, fs: Fs, msg: Message, offset: int): (Fs, Result<Writer>)
  {
    var id := msg.signed.id;
    var prior := ReadMessage(fs, id);
    if id in fs.busy then (fs, Err(Busy))
    else if IsComplete(fs, id) then (fs, Err(AlreadySeen))
    else if prior.Some? && sha(Preimage(prior.value.signed)) != sha(Preimage(msg.signed)) then
      (fs, Err(MessageIdCollision))
    else
      var fs1 := if prior.Some? then fs else WriteMessage(fs, msg);
      var fs2 := OpenContent(fs1, id);
      var bytes := ContentOf(fs2, id);
      if |bytes| != offset then (fs2, Err(IncorrectOffset(|bytes|)))
      else (Lock(fs2, id), Ok(Writer(msg, fs2.dirs[id].content.value, offset, bytes)))
  }

  /** Overwrites from `pos` on; beyond the end, the file grows. */
  function WriteAt(file: Bytes, pos: nat, p: Bytes): Bytes
    requires pos <= |file|
  {
    file[..pos] + p + (if pos + |p| < |file| then file[pos + |p|..] else [])
  }

  function Write(fs: Fs, w: Writer, p: Bytes): (Fs, Writer)
    requires w.pos <= |FileBytes(fs, w.inode)|
  {
    (fs.(files := fs.files[w.inode := WriteAt(FileBytes(fs, w.inode), w.pos, p)]),
     w.(pos := w.pos + |p|, hashed := w.hashed + p))
  }

  function RemoveAll(fs: Fs, id: MsgId): Fs
  {
    fs.(dirs := fs.dirs - {id})
  }

  /** The error of Close is NoExist when the done file cannot be created. */
  function Close(sha: Hash, fs: Fs, w: Writer): (Fs, Option<Error>)
  {
    var id := w.msg.signed.id;
    var size := |FileBytes(fs, w.inode)|;
    if size < w.msg.signed.length then (Unlock(fs, id), None)
    else if size > w.msg.signed.length || sha(w.hashed) != w.msg.signed.sha256 then
      (Unlock(RemoveAll(fs, id), id), Some(ContentMismatch))
    else if id in fs.dirs then
      (Unlock(fs.(dirs := fs.dirs[id := fs.dirs[id].(done := true)]), id), None)
    else (Unlock(fs, id), Some(NoExist))
  }

  function Offset(fs: Fs, id: MsgId): Result<nat>
  {
    if id in fs.busy then Err(Busy)
    else if IsComplete(fs, id) then Err(AlreadySeen)
    else Ok(|ContentOf(fs, id)|)
  }

  function OpenRead(fs: Fs, id: MsgId): Result<(Message, Bytes)>
  {
    var msg := ReadMessage(fs, id);
    if !IsComplete(fs, id) || msg.None? then Err(NoExist) else Ok((msg.value, ContentOf(fs, id)))
  }

  function GetPeerInfo(fs: Fs, id: MsgId, peer: string): PeerInfo
  {
    if id in fs.dirs && peer in fs.dirs[id].peers then fs.dirs[id].peers[peer] else NO_PEER_INFO
  }

  /** Fails, and changes nothing, when the directory is gone. */
  function SetPeerInfo(fs: Fs, id: MsgId, peer: string, pi: PeerInfo): Fs
  {
    if id !in fs.dirs then fs
    else fs.(dirs := fs.dirs[id := fs.dirs[id].(peers := fs.dirs[id].peers[peer := pi])])
  }

  predicate Sweepable(d: Dir, now: int)
  {
    d.record.Stored? && d.record.msg.signed.Expired(now)
  }

  /** The sweeper removes the directory of every expired message, locked or not. */
  function Sweep(fs: Fs, now: int): Fs
  {
    fs.(dirs := map id | id in fs.dirs && !Sweepable(fs.dirs[id], now) :: fs.dirs[id])
  }

  /** Files have inodes below `next`, and a content file belongs to one directory. */
  ghost predicate FilesOk(fs: Fs)
  {
    && (forall i :: i in fs.files ==> i < fs.next)
    && (forall x :: x in fs.dirs && fs.dirs[x].content.Some? ==> fs.dirs[x].content.value in fs.files)
    && (forall x, y :: x in fs.dirs && y in fs.dirs && fs.dirs[x].content.Some?
                       && fs.dirs[x].content == fs.dirs[y].content ==>
          x == y)
  }

  // ---------- What the operations answer ----------

  /** The five answers of OpenWrite; a wrong offset is answered with the one that opens. */
  lemma OpenWriteAnswers(sha: Hash, fs: Fs, msg: Message, offset: int)
    ensures var (fs', r) := OpenWrite(sha, fs, msg, offset);
            var id := msg.signed.id;
            var free := id !in fs.busy && !(id in fs.dirs && fs.dirs[id].done);
            var other := id in fs.dirs && fs.dirs[id].record.Stored?
                         && sha(Preimage(fs.dirs[id].record.msg.signed)) != sha(Preimage(msg.signed));
            && (r == Err(Busy) <==> id in fs.busy)
            && (r == Err(AlreadySeen) <==> id !in fs.busy && id in fs.dirs && fs.dirs[id].done)
            && (r == Err(MessageIdCollision) <==> free && other)
            && (r.Ok? || (r.Err? && r.error.IncorrectOffset?) <==> free && !other)
            && (r.Ok? ==>
                  && fs'.busy == fs.busy + {id} && Offset(fs, id) == Ok(offset)
                  && r.value.msg == msg && r.value.pos == offset && r.value.hashed == ContentOf(fs', id))
            && (r.Err? ==> fs'.busy == fs.busy)
            && (r.Err? && r.error.IncorrectOffset? ==>
                  && r.error.size != offset && Offset(fs', id) == Ok(r.error.size)
                  && OpenWrite(sha, fs', msg, r.error.size).1.Ok?)
  {
    hide Preimage;
    var id := msg.signed.id;
    if id !in fs.busy && !IsComplete(fs, id) {
      var (fs', r) := OpenWrite(sha, fs, msg, offset);
      if r.Err? && r.error.IncorrectOffset? {
        OpensAgain(sha, fs', msg);
      }
    }
  }

  /** A directory with a record of the same hash and a content file opens at the size of the file. */
  lemma OpensAgain(sha: Hash, fs: Fs, msg: Message)
    requires var id := msg.signed.id;
             && id !in fs.busy && !IsComplete(fs, id) && id in fs.dirs && fs.dirs[id].content.Some?
             && fs.dirs[id].record.Stored?
             && sha(Preimage(fs.dirs[id].record.msg.signed)) == sha(Preimage(msg.signed))
    ensures OpenWrite(sha, fs, msg, |ContentOf(fs, msg.signed.id)|).1.Ok?
  {
    hide Preimage;
  }

  /**
   * What Close decides: a short file stays, a wrong one goes with all that is known
   * of the message, a right one is complete; the lock is free and other messages
   * are untouched in each case.
   */
  lemma CloseDecides(sha: Hash, fs: Fs, w: Writer)
    requires w.inode in fs.files
    ensures var (fs', err) := Close(sha, fs, w);
            var id, size := w.msg.signed.id, |fs.files[w.inode]|;
            var right := size == w.msg.signed.length && sha(w.hashed) == w.msg.signed.sha256;
            && fs'.busy == fs.busy - {id} && fs'.files == fs.files
            && (forall x :: x != id ==>
                  (x in fs'.dirs <==> x in fs.dirs) && (x in fs.dirs ==> fs'.dirs[x] == fs.dirs[x]))
            && if size < w.msg.signed.length then err == None && fs'.dirs == fs.dirs
               else if !right then
                 && err == Some(ContentMismatch) && id !in fs'.dirs
                 && Offset(fs', id) == Ok(0) && OpenRead(fs', id) == Err(NoExist)
               else if id in fs.dirs then
                 err == None && id in fs'.dirs && fs'.dirs[id].done && fs'.dirs[id] == fs.dirs[id].(done := true)
               else err == Some(NoExist) && fs'.dirs == fs.dirs
  {
  }

  /** The sweeper removes exactly the directories, complete or partial, whose record has expired. */
  lemma SweepIff(fs: Fs, now: int, id: MsgId)
    ensures var fs' := Sweep(fs, now);
            var gone := id in fs.dirs && fs.dirs[id].record.Stored? && fs.dirs[id].record.msg.signed.Expired(now);
            && (id in fs'.dirs <==> id in fs.dirs && !gone) && (id in fs'.dirs ==> fs'.dirs[id] == fs.dirs[id])
            && fs'.files == fs.files && fs'.busy == fs.busy
            && (gone && id !in fs.busy ==> Offset(fs', id) == Ok(0) && OpenRead(fs', id) == Err(NoExist))
  {
  }

  /** What is recorded about a peer is read back, and nothing else changes. */
  lemma PeerInfoReadBack(fs: Fs, id: MsgId, peer: string, pi: PeerInfo, x: MsgId, p: string)
    ensures var fs' := SetPeerInfo(fs, id, peer, pi);
            && (id in fs.dirs ==> GetPeerInfo(fs', id, peer) == pi)
            && ((x, p) != (id, peer) ==> GetPeerInfo(fs', x, p) == GetPeerInfo(fs, x, p))
            && (id !in fs.dirs ==> fs' == fs && GetPeerInfo(fs', id, peer) == NO_PEER_INFO)
            && fs'.files == fs.files && fs'.busy == fs.busy && ReadMessage(fs', x) == ReadMessage(fs, x)
            && (IsComplete(fs', x) <==> IsComplete(fs, x))
  {
  }

  /** A record that is written is read back; the other files of its directory and other messages stay. */
  lemma RecordReadBack(fs: Fs, msg: Message, x: MsgId)
    ensures var fs', id := WriteMessage(fs, msg), msg.signed.id;
            && ReadMessage(fs', id) == Some(msg)
            && (x != id ==> (x in fs'.dirs <==> x in fs.dirs) && (x in fs.dirs ==> fs'.dirs[x] == fs.dirs[x]))
            && (id in fs.dirs ==> fs'.dirs[id] == fs.dirs[id].(record := Stored(msg)))
            && (id !in fs.dirs ==> !fs'.dirs[id].done && fs'.dirs[id].content == None && fs'.dirs[id].peers == map[])
            && fs'.files == fs.files && fs'.busy == fs.busy
  {
  }

  // ---------- What the operations achieve together ----------

  /** Writes a sequence of packets. */
  function WriteAll(fs: Fs, w: Writer, packets: seq<Bytes>): (Fs, Writer)
    requires w.pos <= |FileBytes(fs, w.inode)|
    decreases packets
  {
    if packets == [] then (fs, w)
    else
      var (fs1, w1) := Write(fs, w, packets[0]);
      WriteAll(fs1, w1, packets[1..])
  }

  function Joined(packets: seq<Bytes>): Bytes
  {
    if packets == [] then [] else packets[0] + Joined(packets[1..])
  }

  /** Writing at the end appends, and the running hash keeps up with the file. */
  lemma {:induction false} WriteAllAppends(fs: Fs, w: Writer, packets: seq<Bytes>)
    requires w.inode in fs.files && w.hashed == fs.files[w.inode] && w.pos == |w.hashed|
    ensures var (fs1, w1) := WriteAll(fs, w, packets);
            && fs1 == fs.(files := fs.files[w.inode := w.hashed + Joined(packets)])
            && w1 == w.(pos := w.pos + |Joined(packets)|, hashed := w.hashed + Joined(packets))
    decreases packets
  {
    if packets == [] {
      assert w.hashed + [] == w.hashed;
    } else {
      var (fs1, w1) := Write(fs, w, packets[0]);
      assert WriteAt(w.hashed, w.pos, packets[0]) == w.hashed + packets[0];
      WriteAllAppends(fs1, w1, packets[1..]);
      assert w.hashed + packets[0] + Joined(packets[1..]) == w.hashed + Joined(packets);
    }
  }

  /** Opens, writes the packets and closes. */
  function Transfer(sha: Hash, fs: Fs, msg: Message, offset: int, packets: seq<Bytes>): Option<Fs>
  {
    var (fs1, r) := OpenWrite(sha, fs, msg, offset);
    if r.Err? || |FileBytes(fs1, r.value.inode)| < r.value.pos then None
    else
      var (fs2, w) := WriteAll(fs1, r.value, packets);
      Some(Close(sha, fs2, w).0)
  }

  /** `id` is unlocked and holds the first bytes of a message. */
  ghost predicate Partial(fs: Fs, m: Message, bytes: Bytes)
  {
    var id := m.signed.id;
    && id !in fs.busy && id in fs.dirs && fs.dirs[id].record == Stored(m) && !fs.dirs[id].done
    && fs.dirs[id].content.Some? && fs.dirs[id].content.value in fs.files
    && fs.files[fs.dirs[id].content.value] == bytes
  }

  /** A transfer extends the partial message, and completes it when nothing is missing. */
  lemma TransferExtends(sha: Hash, fs: Fs, m: Message, msg: Message, bytes: Bytes, packets: seq<Bytes>)
    requires Partial(fs, m, bytes) && msg.signed == m.signed
    requires var all := bytes + Joined(packets);
             |all| < m.signed.length || (|all| == m.signed.length && sha(all) == m.signed.sha256)
    ensures var all := bytes + Joined(packets);
            var r := Transfer(sha, fs, msg, |bytes|, packets);
            r.Some? && if |all| < m.signed.length then Partial(r.value, m, all)
                       else OpenRead(r.value, m.signed.id) == Ok((m, all))
  {
    var (fs1, r) := OpenWrite(sha, fs, msg, |bytes|);
    WriteAllAppends(fs1, r.value, packets);
  }

  /** One sender's attempt: the hops it announces, and its packets. */
  datatype Attempt = Attempt(msg: Message, packets: seq<Bytes>)

  /** Each attempt starts at the offset that the receiver reports. */
  function Resume(sha: Hash, fs: Fs, id: MsgId, attempts: seq<Attempt>): Option<Fs>
    decreases attempts
  {
    if attempts == [] then Some(fs)
    else
      var offset := Offset(fs, id);
      if offset.Err? then None
      else
        var r := Transfer(sha, fs, attempts[0].msg, offset.value, attempts[0].packets);
        if r.None? then None else Resume(sha, r.value, id, attempts[1..])
  }

  function AllBytes(attempts: seq<Attempt>): Bytes
  {
    if attempts == [] then [] else Joined(attempts[0].packets) + AllBytes(attempts[1..])
  }

  /**
   * However the content is cut into attempts of different senders and into
   * packets, what is read back is the record of the first and the whole content.
   */
  lemma {:induction false} ResumedRoundTrip(sha: Hash, fs: Fs, m: Message, bytes: Bytes, attempts: seq<Attempt>)
    requires Partial(fs, m, bytes) && attempts != []
    requires forall i :: 0 <= i < |attempts| ==>
               attempts[i].msg.signed == m.signed && Joined(attempts[i].packets) != []
    requires |bytes + AllBytes(attempts)| == m.signed.length
    requires sha(bytes + AllBytes(attempts)) == m.signed.sha256
    ensures var r := Resume(sha, fs, m.signed.id, attempts);
            r.Some? && OpenRead(r.value, m.signed.id) == Ok((m, bytes + AllBytes(attempts)))
    decreases attempts
  {
    var a := attempts[0];
    var all := bytes + Joined(a.packets);
    assert bytes + AllBytes(attempts) == all + AllBytes(attempts[1..]);
    if |attempts| == 1 {
      assert all + [] == all;
      TransferExtends(sha, fs, m, a.msg, bytes, a.packets);
    } else {
      assert Joined(attempts[1].packets) != [];
      assert AllBytes(attempts[1..]) != [];
      TransferExtends(sha, fs, m, a.msg, bytes, a.packets);
      ResumedRoundTrip(sha, Transfer(sha, fs, a.msg, |bytes|, a.packets).value, m, all, attempts[1..]);
    }
  }

  /** The first attempt for an unknown id stores its record and starts from nothing. */
  lemma FirstAttempt(sha: Hash, fs: Fs, msg: Message, packets: seq<Bytes>)
    requires msg.signed.id !in fs.dirs && msg.signed.id !in fs.busy
    ensures var fs1 := OpenContent(WriteMessage(fs, msg), msg.signed.id);
            Partial(fs1, msg, []) && Transfer(sha, fs, msg, 0, packets) == Transfer(sha, fs1, msg, 0, packets)
  {
  }
}

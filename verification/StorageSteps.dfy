/**
 * FileStorage with every file-system call as its own step, so that writers,
 * readers, offset queries and the sweeper, which takes no lock, interleave freely.
 */
module StorageSteps {
  import opened Message
  import opened Storage

  /** Where a thread is; each name says which call comes next. */
  datatype Pc =
    // OpenWrite: is it complete? read the record; MkdirAll; create the message file; encode into it;
    // open the content file; compare its size; hash it chunk by chunk
    | Locked | Looking | MakingDir | Creating | Encoding | Opening | Sizing | Absorbing
    // the caller has the writer; Close: RemoveAll, or write the done file
    | Writing | Deleting | Finishing
    // Offset, holding the lock; OpenRead: read the record, open the content file (O_CREATE)
    | Asking | Reading | ReadOpening

  datatype Op = Op(pc: Pc, id: MsgId, offset: int, w: Writer)

  /** `seen` records the messages ever passed to OpenWrite. */
  datatype State = State(fs: Fs, ops: map<nat, Op>, doomed: set<MsgId>, seen: set<Signed>)

  const INIT := State(EMPTY, map[], {}, {})

  datatype Action =
    | OpenWrite(t: nat, msg: Message, offset: int)
    | Step(t: nat)                             // the next call of a thread inside an operation
    | Write(t: nat, p: Bytes)
    | Close(t: nat)
    | Offset(t: nat, id: MsgId)
    | OpenRead(t: nat, id: MsgId)
    | SetPeerInfo(id: MsgId, peer: string, pi: PeerInfo)
    | SweepRead(id: MsgId, now: int)           // the sweeper decodes an expired record
    | SweepRemove(id: MsgId)                   // and later removes the directory

  predicate HoldsLock(op: Op)
  {
    !op.pc.Reading? && !op.pc.ReadOpening?
  }

  /** Past the completeness check of OpenWrite, and not yet done with Close. */
  predicate Owns(op: Op)
  {
    HoldsLock(op) && !op.pc.Locked? && !op.pc.Asking?
  }

  /** Has the content file open for writing. */
  predicate HasFile(op: Op)
  {
    op.pc.Sizing? || op.pc.Absorbing? || op.pc.Writing? || op.pc.Deleting? || op.pc.Finishing?
  }

  /** The thread returns from its operation, releasing the lock it holds. */
  function End(s: State, t: nat): State
    requires t in s.ops
  {
    s.(ops := s.ops - {t}, fs := if HoldsLock(s.ops[t]) then Unlock(s.fs, s.ops[t].id) else s.fs)
  }

  function Go(s: State, t: nat, op: Op): State
  {
    s.(ops := s.ops[t := op])
  }

  function SetDir(s: State, id: MsgId, d: Dir): State
  {
    s.(fs := s.fs.(dirs := s.fs.dirs[id := d]))
  }

  /** One file-system call of thread t. */
  function StepOf(sha: Hash, s: State, t: nat): State
    requires t in s.ops
  {
    var op := s.ops[t];
    var id, w := op.id, op.w;
    var here := id in s.fs.dirs;
    match op.pc
    case Locked => if IsComplete(s.fs, id) then End(s, t) else Go(s, t, op.(pc := Looking))
    case Looking =>
      var prior := ReadMessage(s.fs, id);
      if prior.None? then Go(s, t, op.(pc := MakingDir))
      else if sha(Preimage(prior.value.signed)) != sha(Preimage(w.msg.signed)) then End(s, t)
      else Go(s, t, op.(pc := Opening))
    case MakingDir => Go(if here then s else SetDir(s, id, NEW_DIR), t, op.(pc := Creating))
    case Creating =>
      if !here then End(s, t)
      else Go(SetDir(s, id, s.fs.dirs[id].(record := Torn)), t, op.(pc := Encoding))
    case Encoding =>
      Go(if here then SetDir(s, id, s.fs.dirs[id].(record := Stored(w.msg))) else s, t, op.(pc := Opening))
    case Opening =>
      if !here then End(s, t)
      else
        var s1 := s.(fs := OpenContent(s.fs, id));
        Go(s1, t, op.(pc := Sizing, w := w.(inode := s1.fs.dirs[id].content.value)))
    case Sizing =>
      if |FileBytes(s.fs, w.inode)| != op.offset then End(s, t)
      else Go(s, t, op.(pc := Absorbing, w := w.(pos := 0, hashed := [])))
    case Absorbing =>
      var bytes := FileBytes(s.fs, w.inode);
      var n := if |bytes| - w.pos < 2048 then |bytes| - w.pos else 2048;
      if n <= 0 then Go(s, t, op.(pc := Writing))
      else Go(s, t, op.(w := w.(pos := w.pos + n, hashed := w.hashed + bytes[w.pos..w.pos + n])))
    case Writing => s
    case Deleting => End(s.(fs := RemoveAll(s.fs, id)), t)
    case Finishing => End(if here then SetDir(s, id, s.fs.dirs[id].(done := true)) else s, t)
    case Asking => End(s, t)
    case Reading => if ReadMessage(s.fs, id).None? then End(s, t) else Go(s, t, op.(pc := ReadOpening))
    case ReadOpening => End(if here then s.(fs := OpenContent(s.fs, id)) else s, t)
  }

  const NO_MESSAGE := Message([], Signed([], [], Civil(0, 0, 0, 0, 0, 0, 0), 0, 0, []))

  function Start(pc: Pc, id: MsgId, msg: Message, offset: int): Op
  {
    Op(pc, id, offset, Writer(msg, 0, 0, []))
  }

  /** An action that is not enabled changes nothing, so every sequence of actions is a run. */
  function Apply(sha: Hash, s: State, a: Action): State
  {
    match a
    case OpenWrite(t, m, o) =>
      if t in s.ops || m.signed.id in s.fs.busy then s
      else Go(s.(fs := Lock(s.fs, m.signed.id), seen := s.seen + {m.signed}), t, Start(Locked, m.signed.id, m, o))
    case Step(t) => if t in s.ops then StepOf(sha, s, t) else s
    case Write(t, p) =>
      if t in s.ops && s.ops[t].pc.Writing? && s.ops[t].w.pos <= |FileBytes(s.fs, s.ops[t].w.inode)| then
        var (fs, w) := Storage.Write(s.fs, s.ops[t].w, p);
        Go(s.(fs := fs), t, s.ops[t].(w := w))
      else s
    case Close(t) =>
      if t in s.ops && s.ops[t].pc.Writing? then
        var w := s.ops[t].w;
        var size := |FileBytes(s.fs, w.inode)|;
        if size < w.msg.signed.length then End(s, t)
        else if size > w.msg.signed.length || sha(w.hashed) != w.msg.signed.sha256 then
          Go(s, t, s.ops[t].(pc := Deleting))
        else Go(s, t, s.ops[t].(pc := Finishing))
      else s
    case Offset(t, id) =>
      if t in s.ops || id in s.fs.busy then s
      else Go(s.(fs := Lock(s.fs, id)), t, Start(Asking, id, NO_MESSAGE, 0))
    case OpenRead(t, id) =>
      if t in s.ops || !IsComplete(s.fs, id) then s else Go(s, t, Start(Reading, id, NO_MESSAGE, 0))
    case SetPeerInfo(id, peer, pi) => s.(fs := Storage.SetPeerInfo(s.fs, id, peer, pi))
    case SweepRead(id, now) =>
      if id in s.fs.dirs && Sweepable(s.fs.dirs[id], now) then s.(doomed := s.doomed + {id}) else s
    case SweepRemove(id) =>
      if id in s.doomed then s.(fs := RemoveAll(s.fs, id), doomed := s.doomed - {id}) else s
  }

  function Run(sha: Hash, s: State, actions: seq<Action>): State
    decreases actions
  {
    if actions == [] then s else Run(sha, Apply(sha, s, actions[0]), actions[1..])
  }

  // ---------- The invariant ----------

  ghost predicate Holds(s: State, t: nat, id: MsgId)
  {
    t in s.ops && HoldsLock(s.ops[t]) && s.ops[t].id == id
  }

  /** One thread per lock, and no lock without a thread. */
  ghost predicate LocksOk(s: State)
  {
    && (forall t, id :: Holds(s, t, id) ==> id in s.fs.busy)
    && (forall t, u, id :: Holds(s, t, id) && Holds(s, u, id) ==> t == u)
    && (forall id :: id in s.fs.busy ==> exists t :: Holds(s, t, id))
  }

  ghost predicate SameHash(sha: Hash, a: Signed, b: Signed)
  {
    a.id == b.id && sha(Preimage(a)) == sha(Preimage(b))
  }

  ghost predicate Matches(sha: Hash, m: Signed, bytes: Bytes)
  {
    |bytes| == m.length && sha(bytes) == m.sha256
  }

  /** What an owner may rely on about its directory, whatever the sweeper does meanwhile. */
  ghost predicate OwnerOk(sha: Hash, fs: Fs, op: Op)
  {
    Owns(op) && op.id in fs.dirs ==>
      && !fs.dirs[op.id].done
      && (op.pc.Opening? || HasFile(op) ==>
            fs.dirs[op.id].record.Stored? && SameHash(sha, fs.dirs[op.id].record.msg.signed, op.w.msg.signed))
  }

  /** The writer's file is the content file, or the directory is gone; its hash covers the file. */
  ghost predicate FileOk(sha: Hash, fs: Fs, op: Op)
  {
    HasFile(op) ==>
      && op.w.inode in fs.files
      && (op.id in fs.dirs ==> fs.dirs[op.id].content == Some(op.w.inode))
      && (forall id :: id in fs.dirs && fs.dirs[id].content == Some(op.w.inode) ==> id == op.id)
      && var bytes := fs.files[op.w.inode];
      && (op.pc.Absorbing? ==> op.w.pos <= |bytes| == op.offset && op.w.hashed == bytes[..op.w.pos])
      && (op.pc.Writing? ==> op.w.pos == |bytes| && op.w.hashed == bytes)
      && (op.pc.Finishing? ==> Matches(sha, op.w.msg.signed, bytes))
  }

  /** A complete message was checked against a message with the same hash as its record. */
  ghost predicate DirOk(sha: Hash, fs: Fs, seen: set<Signed>, id: MsgId)
    requires id in fs.dirs
  {
    var d := fs.dirs[id];
    && (d.record.Stored? ==> d.record.msg.signed.id == id && d.record.msg.signed in seen)
    && (d.done ==> d.record.Stored? && d.content.Some?
                   && exists m :: m in seen && SameHash(sha, d.record.msg.signed, m)
                                  && Matches(sha, m, FileBytes(fs, d.content.value)))
  }

  ghost predicate OpOk(sha: Hash, s: State, op: Op)
  {
    && OwnerOk(sha, s.fs, op) && FileOk(sha, s.fs, op)
    && (Owns(op) || op.pc.Locked? ==> op.w.msg.signed.id == op.id && op.w.msg.signed in s.seen)
  }

  /** No two threads write the same file. */
  ghost predicate WritersApart(ops: map<nat, Op>)
  {
    forall t, u :: t in ops && u in ops && HasFile(ops[t]) && HasFile(ops[u]) && ops[t].w.inode == ops[u].w.inode
      ==> t == u
  }

  ghost predicate DirsOk(sha: Hash, fs: Fs, seen: set<Signed>)
  {
    forall id :: id in fs.dirs ==> DirOk(sha, fs, seen, id)
  }

  ghost predicate OpsOk(sha: Hash, s: State)
  {
    forall t :: t in s.ops ==> OpOk(sha, s, s.ops[t])
  }

  ghost predicate Inv(sha: Hash, s: State)
  {
    LocksOk(s) && FilesOk(s.fs) && WritersApart(s.ops) && OpsOk(sha, s) && DirsOk(sha, s.fs, s.seen)
  }

  // ---------- Every step keeps it ----------

  /** Returning from an operation. */
  lemma EndKeeps(sha: Hash, s: State, t: nat)
    requires Inv(sha, s) && t in s.ops
    ensures Inv(sha, End(s, t))
  {
    var s' := End(s, t);
    assert LocksOk(s') by {
      hide DirsOk, OpsOk;
      forall id | id in s'.fs.busy
        ensures exists u :: Holds(s', u, id)
      {
        var u :| Holds(s, u, id);
        assert Holds(s', u, id);
      }
      assert HoldsLock(s.ops[t]) ==> Holds(s, t, s.ops[t].id);
      assert forall u, id :: Holds(s', u, id) ==> Holds(s, u, id);
    }
    assert OpsOk(sha, s') by {
      hide DirsOk, LocksOk, Owns, HasFile;
    }
    assert DirsOk(sha, s'.fs, s'.seen) by {
      hide OpsOk, LocksOk;
      assert forall id :: id in s.fs.dirs ==> DirOk(sha, s.fs, s.seen, id);
    }
  }

  /** Taking a free lock: the lock table stays exact. */
  lemma LockTable(s: State, t: nat, op: Op, seen: set<Signed>)
    requires LocksOk(s) && t !in s.ops && op.id !in s.fs.busy && HoldsLock(op)
    ensures LocksOk(Go(s.(fs := Lock(s.fs, op.id), seen := seen), t, op))
  {
    var s' := Go(s.(fs := Lock(s.fs, op.id), seen := seen), t, op);
    forall id | id in s'.fs.busy
      ensures exists u :: Holds(s', u, id)
    {
      if id == op.id {
        assert Holds(s', t, id);
      } else {
        var u :| Holds(s, u, id);
        assert Holds(s', u, id);
      }
    }
    assert forall u, id :: Holds(s', u, id) ==> Holds(s, u, id) || (u == t && id == op.id);
  }

  /** Taking a free lock. */
  lemma LockKeeps(sha: Hash, s: State, t: nat, op: Op, seen: set<Signed>)
    requires Inv(sha, s) && t !in s.ops && op.id !in s.fs.busy && (op.pc.Locked? || op.pc.Asking?)
    requires s.seen <= seen && (op.pc.Locked? ==> op.w.msg.signed.id == op.id && op.w.msg.signed in seen)
    ensures Inv(sha, Go(s.(fs := Lock(s.fs, op.id), seen := seen), t, op))
  {
    hide LocksOk;
    var s' := Go(s.(fs := Lock(s.fs, op.id), seen := seen), t, op);
    LockTable(s, t, op, seen);
    forall u | u in s'.ops
      ensures OpOk(sha, s', s'.ops[u])
    {
      hide DirsOk, FilesOk, WritersApart, SameHash, Matches;
      if u != t {
        assert OpOk(sha, s, s.ops[u]);
      }
    }
    forall id | id in s'.fs.dirs
      ensures DirOk(sha, s'.fs, s'.seen, id)
    {
      hide OpsOk, FilesOk, WritersApart, SameHash, Matches, OpOk;
      assert DirOk(sha, s.fs, s.seen, id);
    }
  }

  /** Moving on without touching the disk. */
  lemma GoKeeps(sha: Hash, s: State, t: nat, op: Op)
    requires Inv(sha, s) && t in s.ops && op.id == s.ops[t].id && HoldsLock(op) == HoldsLock(s.ops[t])
    requires OpOk(sha, s, op)
    requires HasFile(op) ==> forall u :: u in s.ops && u != t && HasFile(s.ops[u]) ==> s.ops[u].w.inode != op.w.inode
    ensures Inv(sha, Go(s, t, op))
  {
    var s' := Go(s, t, op);
    assert LocksOk(s') by {
      hide DirsOk, OpsOk, OpOk;
      assert forall u, id :: Holds(s', u, id) <==> Holds(s, u, id);
    }
    assert OpsOk(sha, s') by {
      hide DirsOk, LocksOk, OwnerOk, FileOk;
    }
  }

  /** Removing a directory, by the sweeper or by Close. */
  lemma RemoveKeeps(sha: Hash, s: State, id: MsgId, doomed: set<MsgId>)
    requires Inv(sha, s)
    ensures Inv(sha, s.(fs := RemoveAll(s.fs, id), doomed := doomed))
  {
    var s' := s.(fs := RemoveAll(s.fs, id), doomed := doomed);
    assert LocksOk(s') by {
      hide DirsOk, OpsOk;
      assert forall u, x :: Holds(s', u, x) <==> Holds(s, u, x);
    }
    assert OpsOk(sha, s') by {
      hide DirsOk, LocksOk;
      forall u | u in s'.ops
        ensures OpOk(sha, s', s'.ops[u])
      {
        assert OpOk(sha, s, s.ops[u]);
      }
    }
    assert DirsOk(sha, s'.fs, s'.seen) by {
      hide OpsOk, LocksOk;
      assert forall x :: x in s.fs.dirs ==> DirOk(sha, s.fs, s.seen, x);
    }
  }

  /** Changing the record or the done mark of a directory, or creating it, as its owner allows. */
  lemma SetDirKeeps(sha: Hash, s: State, id: MsgId, d: Dir)
    requires Inv(sha, s)
    requires d.content == if id in s.fs.dirs then s.fs.dirs[id].content else None
    requires var fs := SetDir(s, id, d).fs;
             DirOk(sha, fs, s.seen, id)
             && forall t :: t in s.ops && s.ops[t].id == id && Owns(s.ops[t]) ==>
                              OwnerOk(sha, fs, s.ops[t]) && (HasFile(s.ops[t]) ==> id in s.fs.dirs)
    ensures Inv(sha, SetDir(s, id, d))
  {
    var s' := SetDir(s, id, d);
    assert LocksOk(s') by {
      hide DirsOk, OpsOk, OpOk, DirOk, OwnerOk;
      assert forall u, x :: Holds(s', u, x) <==> Holds(s, u, x);
    }
    assert FilesOk(s'.fs) by {
      hide DirsOk, OpsOk, OpOk, DirOk, LocksOk, OwnerOk;
    }
    forall u | u in s'.ops
      ensures OpOk(sha, s', s'.ops[u])
    {
      hide DirsOk, DirOk, LocksOk, FilesOk, WritersApart, OwnerOk;
      assert OpOk(sha, s, s.ops[u]);
      SetDirOp(sha, s, id, d, u);
    }
    hide OpOk;
    assert DirsOk(sha, s'.fs, s'.seen) by {
      hide OpsOk, LocksOk, OwnerOk;
      assert forall x :: x in s.fs.dirs ==> DirOk(sha, s.fs, s.seen, x);
    }
  }

  /** One thread, when a directory that it owns changes as it allows, or another directory does. */
  lemma SetDirOp(sha: Hash, s: State, id: MsgId, d: Dir, u: nat)
    requires u in s.ops && OpOk(sha, s, s.ops[u])
    requires d.content == if id in s.fs.dirs then s.fs.dirs[id].content else None
    requires s.ops[u].id == id && Owns(s.ops[u]) ==>
               OwnerOk(sha, SetDir(s, id, d).fs, s.ops[u]) && (HasFile(s.ops[u]) ==> id in s.fs.dirs)
    ensures OpOk(sha, SetDir(s, id, d), s.ops[u])
  {
    hide SameHash, Matches;
  }

  /** What appending to the writer's own file does. */
  lemma WriteShape(sha: Hash, s: State, t: nat, p: Bytes)
    requires t in s.ops && s.ops[t].pc.Writing? && OpOk(sha, s, s.ops[t])
    ensures var w := s.ops[t].w;
            var w' := w.(pos := |w.hashed + p|, hashed := w.hashed + p);
            && w.inode in s.fs.files
            && Apply(sha, s, Write(t, p)) == s.(fs := s.fs.(files := s.fs.files[w.inode := w.hashed + p]),
                                                ops := s.ops[t := s.ops[t].(w := w')])
  {
    hide SameHash, Matches;
    var w := s.ops[t].w;
    assert WriteAt(s.fs.files[w.inode], w.pos, p) == w.hashed + p;
  }

  /** One thread, when the writer's file grows. */
  lemma WriteOp(sha: Hash, s: State, t: nat, p: Bytes, u: nat)
    requires t in s.ops && u in s.ops && s.ops[t].pc.Writing? && OpOk(sha, s, s.ops[t]) && OpOk(sha, s, s.ops[u])
    requires u != t && HasFile(s.ops[u]) ==> s.ops[u].w.inode != s.ops[t].w.inode
    ensures OpOk(sha, Apply(sha, s, Write(t, p)), Apply(sha, s, Write(t, p)).ops[u])
  {
    WriteShape(sha, s, t, p);
    hide Apply, SameHash, Matches;
  }

  /** Appending to the writer's own file. */
  lemma WriteKeeps(sha: Hash, s: State, t: nat, p: Bytes)
    requires Inv(sha, s) && t in s.ops && s.ops[t].pc.Writing?
    ensures Inv(sha, Apply(sha, s, Write(t, p)))
  {
    var s' := Apply(sha, s, Write(t, p));
    ThreadFacts(sha, s, t);
    WriteShape(sha, s, t, p);
    hide Apply, DirOk, OpOk;
    assert LocksOk(s') by {
      hide DirsOk, OpsOk, FilesOk, WritersApart;
      assert forall u, id :: Holds(s', u, id) <==> Holds(s, u, id);
    }
    assert OpsOk(sha, s') by {
      forall u | u in s'.ops
        ensures OpOk(sha, s', s'.ops[u])
      {
        ThreadFacts(sha, s, u);
        hide Inv;
        WriteOp(sha, s, t, p, u);
      }
    }
    assert DirsOk(sha, s'.fs, s'.seen) by {
      WriteDirs(sha, s, t, p);
    }
    hide DirsOk, LocksOk, OpsOk;
  }

  /** No complete message changes when a writer appends to its file. */
  lemma WriteDirs(sha: Hash, s: State, t: nat, p: Bytes)
    requires Inv(sha, s) && t in s.ops && s.ops[t].pc.Writing?
    ensures var s' := Apply(sha, s, Write(t, p)); DirsOk(sha, s'.fs, s'.seen)
  {
    var s' := Apply(sha, s, Write(t, p));
    ThreadFacts(sha, s, t);
    WriteShape(sha, s, t, p);
    hide Apply, SameHash, Matches;
    forall x | x in s'.fs.dirs
      ensures DirOk(sha, s'.fs, s'.seen, x)
    {
      assert DirOk(sha, s.fs, s.seen, x);
      hide Inv;
    }
  }

  /** Opening the content file, which creates it if missing. */
  lemma OpenContentKeeps(sha: Hash, s: State, id: MsgId)
    requires Inv(sha, s) && id in s.fs.dirs
    ensures Inv(sha, s.(fs := OpenContent(s.fs, id)))
    ensures s.fs.dirs[id].content.None? ==>
              forall t :: t in s.ops && HasFile(s.ops[t]) ==> s.ops[t].w.inode < s.fs.next
  {
    var s' := s.(fs := OpenContent(s.fs, id));
    assert LocksOk(s') by {
      hide DirsOk, OpsOk;
      assert forall u, x :: Holds(s', u, x) <==> Holds(s, u, x);
    }
    assert FilesOk(s'.fs) by {
      hide DirsOk, OpsOk, LocksOk;
    }
    forall u | u in s'.ops
      ensures OpOk(sha, s', s'.ops[u])
      ensures HasFile(s.ops[u]) ==> s.ops[u].w.inode < s.fs.next
    {
      hide DirsOk, LocksOk;
      assert OpOk(sha, s, s.ops[u]);
    }
    assert DirsOk(sha, s'.fs, s'.seen) by {
      hide OpsOk, LocksOk;
      assert forall x :: x in s.fs.dirs ==> DirOk(sha, s.fs, s.seen, x);
    }
  }

  /** The owner of a lock is the only one. */
  lemma SoleOwner(sha: Hash, s: State, t: nat, u: nat)
    requires Inv(sha, s) && t in s.ops && u in s.ops && HoldsLock(s.ops[t]) && HoldsLock(s.ops[u])
    requires s.ops[t].id == s.ops[u].id
    ensures t == u
  {
    assert Holds(s, t, s.ops[t].id) && Holds(s, u, s.ops[t].id);
  }

  /** What the invariant says about one thread. */
  lemma ThreadFacts(sha: Hash, s: State, t: nat)
    requires Inv(sha, s) && t in s.ops
    ensures OpOk(sha, s, s.ops[t])
    ensures s.ops[t].id in s.fs.dirs ==> DirOk(sha, s.fs, s.seen, s.ops[t].id)
    ensures HasFile(s.ops[t]) ==>
              forall u :: u in s.ops && u != t && HasFile(s.ops[u]) ==> s.ops[u].w.inode != s.ops[t].w.inode
    ensures HoldsLock(s.ops[t]) ==> forall u :: u in s.ops && u != t && s.ops[u].id == s.ops[t].id ==>
              !HoldsLock(s.ops[u])
  {
    forall u | u in s.ops && HoldsLock(s.ops[t]) && u != t && s.ops[u].id == s.ops[t].id
      ensures !HoldsLock(s.ops[u])
    {
      if HoldsLock(s.ops[u]) {
        SoleOwner(sha, s, t, u);
      }
    }
  }

  /** MkdirAll, and the creation and the encoding of the message file. */
  lemma RecordKeeps(sha: Hash, s: State, t: nat)
    requires Inv(sha, s) && t in s.ops
    requires s.ops[t].pc.MakingDir? || s.ops[t].pc.Creating? || s.ops[t].pc.Encoding?
    ensures Inv(sha, StepOf(sha, s, t))
  {
    hide Inv;
    ThreadFacts(sha, s, t);
    var op := s.ops[t];
    var id := op.id;
    var here := id in s.fs.dirs;
    if op.pc.MakingDir? {
      var s1 := if here then s else SetDir(s, id, NEW_DIR);
      if !here {
        SetDirKeeps(sha, s, id, NEW_DIR);
      }
      GoKeeps(sha, s1, t, op.(pc := Creating));
    } else if op.pc.Creating? {
      if here {
        var d := s.fs.dirs[id].(record := Torn);
        SetDirKeeps(sha, s, id, d);
        GoKeeps(sha, SetDir(s, id, d), t, op.(pc := Encoding));
      } else {
        EndKeeps(sha, s, t);
      }
    } else {
      var d := if here then s.fs.dirs[id].(record := Stored(op.w.msg)) else NEW_DIR;
      var s1 := if here then SetDir(s, id, d) else s;
      if here {
        SetDirKeeps(sha, s, id, d);
      }
      GoKeeps(sha, s1, t, op.(pc := Opening));
    }
  }

  /** Opening the content file for writing. */
  lemma OpeningKeeps(sha: Hash, s: State, t: nat)
    requires Inv(sha, s) && t in s.ops && s.ops[t].pc.Opening?
    ensures Inv(sha, StepOf(sha, s, t))
  {
    hide Preimage, Matches, SameHash;
    var op := s.ops[t];
    var id := op.id;
    if id !in s.fs.dirs {
      EndKeeps(sha, s, t);
      return;
    }
    OpenContentKeeps(sha, s, id);
    var s1 := s.(fs := OpenContent(s.fs, id));
    var i := s1.fs.dirs[id].content.value;
    assert OpOk(sha, s1, op);
    forall u | u in s.ops && u != t && HasFile(s.ops[u])
      ensures s.ops[u].w.inode != i
    {
      assert OpOk(sha, s1, s1.ops[u]);
      if s.ops[u].w.inode == i {
        SoleOwner(sha, s, t, u);
      }
    }
    GoKeeps(sha, s1, t, op.(pc := Sizing, w := op.w.(inode := i)));
  }

  /** The other calls of OpenWrite, which only look. */
  lemma LookingKeeps(sha: Hash, s: State, t: nat)
    requires Inv(sha, s) && t in s.ops
    requires s.ops[t].pc.Locked? || s.ops[t].pc.Looking? || s.ops[t].pc.Sizing? || s.ops[t].pc.Absorbing?
    ensures Inv(sha, StepOf(sha, s, t))
  {
    hide Inv, Preimage, DirOk, Matches;
    ThreadFacts(sha, s, t);
    var op := s.ops[t];
    var s' := StepOf(sha, s, t);
    if t in s'.ops {
      assert s' == Go(s, t, s'.ops[t]);
      assert OpOk(sha, s, s'.ops[t]) by {
        if op.pc.Absorbing? {
          var bytes := s.fs.files[op.w.inode];
          assert bytes[..|bytes|] == bytes;
        }
      }
      GoKeeps(sha, s, t, s'.ops[t]);
    } else {
      EndKeeps(sha, s, t);
    }
  }

  /** The end of Close, of Offset and of OpenRead. */
  lemma ReturningKeeps(sha: Hash, s: State, t: nat)
    requires Inv(sha, s) && t in s.ops
    requires var pc := s.ops[t].pc;
             pc.Deleting? || pc.Finishing? || pc.Asking? || pc.Reading? || pc.ReadOpening?
    ensures Inv(sha, StepOf(sha, s, t))
  {
    hide Inv;
    ThreadFacts(sha, s, t);
    var op := s.ops[t];
    var id := op.id;
    match op.pc
    case Deleting =>
      RemoveKeeps(sha, s, id, s.doomed);
      EndKeeps(sha, s.(fs := RemoveAll(s.fs, id)), t);
    case Finishing =>
      EndKeeps(sha, s, t);
      if id in s.fs.dirs {
        var s1 := End(s, t);
        SetDirKeeps(sha, s1, id, s1.fs.dirs[id].(done := true));
      }
    case Asking =>
      EndKeeps(sha, s, t);
    case Reading =>
      if ReadMessage(s.fs, id).None? {
        EndKeeps(sha, s, t);
      } else {
        GoKeeps(sha, s, t, op.(pc := ReadOpening));
      }
    case ReadOpening =>
      if id in s.fs.dirs {
        OpenContentKeeps(sha, s, id);
        EndKeeps(sha, s.(fs := OpenContent(s.fs, id)), t);
      } else {
        EndKeeps(sha, s, t);
      }
  }

  lemma CloseKeeps(sha: Hash, s: State, t: nat)
    requires Inv(sha, s) && t in s.ops && s.ops[t].pc.Writing?
    ensures Inv(sha, Apply(sha, s, Close(t)))
  {
    hide Inv;
    ThreadFacts(sha, s, t);
    var s' := Apply(sha, s, Close(t));
    if t in s'.ops {
      GoKeeps(sha, s, t, s'.ops[t]);
    } else {
      EndKeeps(sha, s, t);
    }
  }

  lemma SetPeerInfoKeeps(sha: Hash, s: State, id: MsgId, peer: string, pi: PeerInfo)
    requires Inv(sha, s) && id in s.fs.dirs
    ensures Inv(sha, s.(fs := Storage.SetPeerInfo(s.fs, id, peer, pi)))
  {
    var d := s.fs.dirs[id].(peers := s.fs.dirs[id].peers[peer := pi]);
    assert DirOk(sha, s.fs, s.seen, id);
    forall t | t in s.ops && s.ops[t].id == id && Owns(s.ops[t])
      ensures OwnerOk(sha, SetDir(s, id, d).fs, s.ops[t])
    {
      assert OpOk(sha, s, s.ops[t]);
    }
    SetDirKeeps(sha, s, id, d);
  }

  lemma ReadStartKeeps(sha: Hash, s: State, t: nat, op: Op)
    requires Inv(sha, s) && t !in s.ops && op.pc.Reading?
    ensures Inv(sha, Go(s, t, op))
  {
    var s' := Go(s, t, op);
    assert LocksOk(s') by {
      hide DirsOk, OpsOk;
      assert forall u, id :: Holds(s', u, id) <==> Holds(s, u, id);
    }
    assert OpsOk(sha, s') by {
      hide DirsOk, LocksOk, OwnerOk;
    }
  }

  lemma StepKeeps(sha: Hash, s: State, t: nat)
    requires Inv(sha, s) && t in s.ops
    ensures Inv(sha, StepOf(sha, s, t))
  {
    hide Inv;
    match s.ops[t].pc
    case Locked => LookingKeeps(sha, s, t);
    case Looking => LookingKeeps(sha, s, t);
    case Sizing => LookingKeeps(sha, s, t);
    case Absorbing => LookingKeeps(sha, s, t);
    case MakingDir => RecordKeeps(sha, s, t);
    case Creating => RecordKeeps(sha, s, t);
    case Encoding => RecordKeeps(sha, s, t);
    case Opening => OpeningKeeps(sha, s, t);
    case Writing =>
    case _ => ReturningKeeps(sha, s, t);
  }

  /** Every step of every thread, and of the sweeper, keeps the invariant. */
  lemma ApplyKeeps(sha: Hash, s: State, a: Action)
    requires Inv(sha, s)
    ensures Inv(sha, Apply(sha, s, a))
  {
    hide Inv, StepOf;
    match a
    case OpenWrite(t, m, o) =>
      if t !in s.ops && m.signed.id !in s.fs.busy {
        LockKeeps(sha, s, t, Start(Locked, m.signed.id, m, o), s.seen + {m.signed});
      }
    case Step(t) => if t in s.ops { StepKeeps(sha, s, t); }
    case Write(t, p) => if t in s.ops && s.ops[t].pc.Writing? { WriteKeeps(sha, s, t, p); }
    case Close(t) => if t in s.ops && s.ops[t].pc.Writing? { CloseKeeps(sha, s, t); }
    case Offset(t, id) =>
      if t !in s.ops && id !in s.fs.busy {
        LockKeeps(sha, s, t, Start(Asking, id, NO_MESSAGE, 0), s.seen);
      }
    case OpenRead(t, id) =>
      if t !in s.ops && IsComplete(s.fs, id) {
        ReadStartKeeps(sha, s, t, Start(Reading, id, NO_MESSAGE, 0));
      }
    case SetPeerInfo(id, peer, pi) => if id in s.fs.dirs { SetPeerInfoKeeps(sha, s, id, peer, pi); }
    case SweepRead(id, now) => DoomKeeps(sha, s, s.doomed + {id});
    case SweepRemove(id) => RemoveKeeps(sha, s, id, s.doomed - {id});
  }

  lemma DoomKeeps(sha: Hash, s: State, doomed: set<MsgId>)
    requires Inv(sha, s)
    ensures Inv(sha, s.(doomed := doomed))
  {
    var s' := s.(doomed := doomed);
    assert LocksOk(s') by {
      assert forall u, id :: Holds(s', u, id) <==> Holds(s, u, id);
    }
    assert OpsOk(sha, s');
  }

  /** The invariant holds after every run, whatever the interleaving. */
  lemma {:induction false} RunKeeps(sha: Hash, s: State, actions: seq<Action>)
    requires Inv(sha, s)
    ensures Inv(sha, Run(sha, s, actions))
    decreases actions
  {
    if actions != [] {
      ApplyKeeps(sha, s, actions[0]);
      RunKeeps(sha, Apply(sha, s, actions[0]), actions[1..]);
    }
  }

  // ---------- What it gives ----------

  /** Messages whose hashes tell them apart: no SHA-256 collision, and Sha256 fields of one length per id. */
  ghost predicate Distinguishable(sha: Hash, seen: set<Signed>)
  {
    forall a, b :: a in seen && b in seen && SameHash(sha, a, b) ==>
      Preimage(a) == Preimage(b) && a.created.Valid() && b.created.Valid() && |a.sha256| == |b.sha256|
  }

  /**
   * After every run: at most one thread holds an id's lock, and a live writer's
   * file is the id's content file unless the directory is gone; a complete id
   * has content that matches a message with the hash of its record, and matches
   * the record itself when the messages opened can be told apart.
   */
  lemma StorageSafety(sha: Hash, actions: seq<Action>, id: MsgId)
    ensures var s := Run(sha, INIT, actions);
            && (forall t, u :: Holds(s, t, id) && Holds(s, u, id) ==> t == u)
            && (id in s.fs.busy <==> exists t :: Holds(s, t, id))
            && (forall t :: t in s.ops && s.ops[t].pc.Writing? && s.ops[t].id == id && id in s.fs.dirs ==>
                              s.fs.dirs[id].content == Some(s.ops[t].w.inode))
            && (IsComplete(s.fs, id) ==>
                  var r := Storage.OpenRead(s.fs, id);
                  && r.Ok?
                  && (exists m :: m in s.seen && SameHash(sha, r.value.0.signed, m) && Matches(sha, m, r.value.1))
                  && (Distinguishable(sha, s.seen) ==> Matches(sha, r.value.0.signed, r.value.1)))
  {
    assert Inv(sha, INIT);
    RunKeeps(sha, INIT, actions);
    var s := Run(sha, INIT, actions);
    forall t | t in s.ops && s.ops[t].pc.Writing? && s.ops[t].id == id && id in s.fs.dirs
      ensures s.fs.dirs[id].content == Some(s.ops[t].w.inode)
    {
      ThreadFacts(sha, s, t);
    }
    if IsComplete(s.fs, id) {
      DoneMatches(sha, s, id);
    }
  }

  lemma DoneMatches(sha: Hash, s: State, id: MsgId)
    requires Inv(sha, s) && IsComplete(s.fs, id)
    ensures var r := Storage.OpenRead(s.fs, id);
            && r.Ok?
            && (exists m :: m in s.seen && SameHash(sha, r.value.0.signed, m) && Matches(sha, m, r.value.1))
            && (Distinguishable(sha, s.seen) ==> Matches(sha, r.value.0.signed, r.value.1))
  {
    hide LocksOk, OpsOk, FilesOk, WritersApart, Preimage;
    assert DirOk(sha, s.fs, s.seen, id);
    var d := s.fs.dirs[id];
    var m :| m in s.seen && SameHash(sha, d.record.msg.signed, m)
             && Matches(sha, m, FileBytes(s.fs, d.content.value));
    if Distinguishable(sha, s.seen) {
      AmbiguousOnlyByLength(d.record.msg.signed, m);
    }
  }

  /** The complete copy of `id` is the same in both. */
  ghost predicate SameCopy(fs: Fs, fs': Fs, id: MsgId)
  {
    && id in fs.dirs && id in fs'.dirs && fs.dirs[id].done && fs'.dirs[id].done
    && fs'.dirs[id].record == fs.dirs[id].record && fs'.dirs[id].content == fs.dirs[id].content
    && ContentOf(fs', id) == ContentOf(fs, id)
  }

  lemma StepPersists(sha: Hash, s: State, t: nat, id: MsgId)
    requires Inv(sha, s) && IsComplete(s.fs, id) && t in s.ops
    ensures SameCopy(s.fs, StepOf(sha, s, t).fs, id)
  {
    hide Inv, Preimage;
    CompleteFacts(sha, s, id);
    if s.ops[t].id == id {
      assert !Owns(s.ops[t]);
    }
  }

  lemma CompleteFacts(sha: Hash, s: State, id: MsgId)
    requires Inv(sha, s) && IsComplete(s.fs, id)
    ensures s.fs.dirs[id].content.Some? && s.fs.dirs[id].content.value in s.fs.files
    ensures s.fs.dirs[id].content.value < s.fs.next
    ensures forall t :: t in s.ops && HasFile(s.ops[t]) ==> s.ops[t].w.inode != s.fs.dirs[id].content.value
    ensures forall t :: t in s.ops && s.ops[t].id == id ==> !Owns(s.ops[t])
  {
    hide LocksOk, WritersApart;
    assert DirOk(sha, s.fs, s.seen, id);
    forall t | t in s.ops
      ensures HasFile(s.ops[t]) ==> s.ops[t].w.inode != s.fs.dirs[id].content.value
      ensures s.ops[t].id == id ==> !Owns(s.ops[t])
    {
      assert OpOk(sha, s, s.ops[t]);
    }
  }

  /** Only the sweeper removes a complete message; no Close, write or reopening alters it. */
  lemma CompletePersists(sha: Hash, s: State, a: Action, id: MsgId)
    requires Inv(sha, s) && IsComplete(s.fs, id) && a != SweepRemove(id)
    ensures SameCopy(s.fs, Apply(sha, s, a).fs, id)
  {
    hide Inv;
    CompleteFacts(sha, s, id);
    if a.Step? && a.t in s.ops {
      StepPersists(sha, s, a.t, id);
    }
  }
}

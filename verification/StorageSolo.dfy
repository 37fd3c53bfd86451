/**
 * Runs in which one thread works undisturbed: its calls add up to the
 * operations of Storage. Such a run shows where the check for id collisions
 * falls short, and StorageSteps when it does not.
 */
module StorageSolo {
  import opened Message
  import opened Storage
  import opened StorageSteps

  function StepN(sha: Hash, s: State, t: nat, k: nat): State
    decreases k
  {
    if k == 0 then s else StepN(sha, StorageSteps.Apply(sha, s, Step(t)), t, k - 1)
  }

  function Steps(t: nat, k: nat): seq<Action>
  {
    if k == 0 then [] else [Step(t)] + Steps(t, k - 1)
  }

  lemma {:induction false} StepsRun(sha: Hash, s: State, t: nat, k: nat)
    ensures Run(sha, s, Steps(t, k)) == StepN(sha, s, t, k)
    decreases k
  {
    hide StorageSteps.Apply;
    if k > 0 {
      assert Steps(t, k)[1..] == Steps(t, k - 1);
      StepsRun(sha, StorageSteps.Apply(sha, s, Step(t)), t, k - 1);
    }
  }

  lemma {:induction false} RunAppend(sha: Hash, s: State, first: seq<Action>, second: seq<Action>)
    ensures Run(sha, s, first + second) == Run(sha, Run(sha, s, first), second)
    decreases first
  {
    hide StorageSteps.Apply;
    if first == [] {
      assert first + second == second;
    } else {
      assert (first + second)[1..] == first[1..] + second;
      RunAppend(sha, StorageSteps.Apply(sha, s, first[0]), first[1..], second);
    }
  }

  lemma OneAction(sha: Hash, s: State, a: Action)
    ensures Run(sha, s, [a]) == StorageSteps.Apply(sha, s, a)
  {
    hide StorageSteps.Apply;
    assert [a][1..] == [];
  }

  /** Hashing in chunks of 2048 reads the whole file. */
  lemma {:induction false} AbsorbAll(sha: Hash, s: State, t: nat) returns (k: nat)
    requires t in s.ops && s.ops[t].pc.Absorbing?
    requires var w, bytes := s.ops[t].w, FileBytes(s.fs, s.ops[t].w.inode);
             w.pos <= |bytes| && w.hashed == bytes[..w.pos]
    ensures var op, bytes := s.ops[t], FileBytes(s.fs, s.ops[t].w.inode);
            StepN(sha, s, t, k) == Go(s, t, op.(pc := Writing, w := op.w.(pos := |bytes|, hashed := bytes)))
    decreases |FileBytes(s.fs, s.ops[t].w.inode)| - s.ops[t].w.pos
  {
    var w, bytes := s.ops[t].w, FileBytes(s.fs, s.ops[t].w.inode);
    var s1 := StepOf(sha, s, t);
    if w.pos == |bytes| {
      assert bytes[..w.pos] == bytes;
      assert StepN(sha, s, t, 1) == StepN(sha, s1, t, 0);
      k := 1;
    } else {
      var j := AbsorbAll(sha, s1, t);
      k := j + 1;
    }
  }

  /** From the opening of the content file to the return of OpenWrite. */
  lemma FromOpening(sha: Hash, s: State, t: nat) returns (k: nat)
    requires t in s.ops && s.ops[t].pc.Opening? && s.ops[t].id in s.fs.dirs
    ensures var op := s.ops[t];
            var s1 := s.(fs := OpenContent(s.fs, op.id));
            var inode, bytes := s1.fs.dirs[op.id].content.value, ContentOf(s1.fs, op.id);
            StepN(sha, s, t, k) ==
              if |bytes| != op.offset then End(s1, t)
              else Go(s1, t, op.(pc := Writing, w := op.w.(inode := inode, pos := |bytes|, hashed := bytes)))
  {
    var op := s.ops[t];
    var s1 := StepOf(sha, s, t);
    var s2 := StepOf(sha, s1, t);
    if t in s2.ops {
      var j := AbsorbAll(sha, s2, t);
      assert StepN(sha, s, t, j + 2) == StepN(sha, s1, t, j + 1) == StepN(sha, s2, t, j);
      k := j + 2;
    } else {
      assert StepN(sha, s, t, 2) == StepN(sha, s1, t, 1) == StepN(sha, s2, t, 0);
      k := 2;
    }
  }

  lemma StepOnce(sha: Hash, s: State, t: nat, k: nat)
    requires t in s.ops
    ensures StepN(sha, s, t, k + 1) == StepN(sha, StepOf(sha, s, t), t, k)
  {
    hide StepOf;
  }

  /** What the three calls that write a record leave. */
  lemma RecordSteps(sha: Hash, s: State, t: nat, d: Dir)
    requires t in s.ops && s.ops[t].id in s.fs.dirs && s.fs.dirs[s.ops[t].id] == d
    ensures s.ops[t].pc.Creating? ==>
              StepOf(sha, s, t) == Go(SetDir(s, s.ops[t].id, d.(record := Torn)), t, s.ops[t].(pc := Encoding))
    ensures s.ops[t].pc.Encoding? ==>
              StepOf(sha, s, t) == Go(SetDir(s, s.ops[t].id, d.(record := Stored(s.ops[t].w.msg))), t,
                                      s.ops[t].(pc := Opening))
  {
    hide Preimage;
  }

  lemma MakingDirStep(sha: Hash, s: State, t: nat, d: Dir)
    requires t in s.ops && s.ops[t].pc.MakingDir?
    requires d == if s.ops[t].id in s.fs.dirs then s.fs.dirs[s.ops[t].id] else NEW_DIR
    ensures StepOf(sha, s, t) == Go(SetDir(s, s.ops[t].id, d), t, s.ops[t].(pc := Creating))
  {
    hide Preimage;
    assert s.ops[t].id in s.fs.dirs ==> s.fs.dirs[s.ops[t].id := d] == s.fs.dirs;
  }

  /** MkdirAll, creating the message file and encoding into it. */
  lemma FromMakingDir(sha: Hash, s: State, t: nat)
    requires t in s.ops && s.ops[t].pc.MakingDir? && s.ops[t].id == s.ops[t].w.msg.signed.id
    ensures StepN(sha, s, t, 3) == Go(s.(fs := WriteMessage(s.fs, s.ops[t].w.msg)), t, s.ops[t].(pc := Opening))
  {
    hide StepOf, StepN;
    var op := s.ops[t];
    var id := op.id;
    var d := if id in s.fs.dirs then s.fs.dirs[id] else NEW_DIR;
    var d2, d3 := d.(record := Torn), d.(record := Stored(op.w.msg));
    var s1 := Go(SetDir(s, id, d), t, op.(pc := Creating));
    var s2 := Go(SetDir(s, id, d2), t, op.(pc := Encoding));
    var s3 := Go(SetDir(s, id, d3), t, op.(pc := Opening));
    MakingDirStep(sha, s, t, d);
    RecordSteps(sha, s1, t, d);
    RecordSteps(sha, s2, t, d2);
    Overwrite(s, t, id, d, d2, op.(pc := Creating), op.(pc := Encoding));
    Overwrite(s, t, id, d2, d3, op.(pc := Encoding), op.(pc := Opening));
    assert SetDir(s, id, d3) == s.(fs := WriteMessage(s.fs, op.w.msg));
    hide Go, SetDir;
    StepOnce(sha, s, t, 2);
    StepOnce(sha, s1, t, 1);
    StepOnce(sha, s2, t, 0);
    NoStep(sha, s3, t);
  }

  lemma Overwrite(s: State, t: nat, id: MsgId, d: Dir, d': Dir, op: Op, op': Op)
    ensures Go(SetDir(Go(SetDir(s, id, d), t, op), id, d'), t, op') == Go(SetDir(s, id, d'), t, op')
    ensures t in Go(SetDir(s, id, d), t, op).ops
  {
    assert s.ops[t := op][t := op'] == s.ops[t := op'];
    assert s.fs.dirs[id := d][id := d'] == s.fs.dirs[id := d'];
  }

  lemma NoStep(sha: Hash, s: State, t: nat)
    ensures StepN(sha, s, t, 0) == s
  {
  }

  lemma {:induction false} StepNAppend(sha: Hash, s: State, t: nat, j: nat, k: nat)
    ensures StepN(sha, s, t, j + k) == StepN(sha, StepN(sha, s, t, j), t, k)
    decreases j
  {
    hide StorageSteps.Apply;
    if j > 0 {
      StepNAppend(sha, StorageSteps.Apply(sha, s, Step(t)), t, j - 1, k);
    }
  }

  /** The collision check of OpenWrite, when it passes, and the writing of a missing record. */
  lemma ToOpening(sha: Hash, s: State, t: nat) returns (k: nat)
    requires t in s.ops && s.ops[t].pc.Looking? && s.ops[t].id == s.ops[t].w.msg.signed.id
    requires var prior := ReadMessage(s.fs, s.ops[t].id);
             prior.Some? ==> sha(Preimage(prior.value.signed)) == sha(Preimage(s.ops[t].w.msg.signed))
    ensures var op := s.ops[t];
            var fs1 := if ReadMessage(s.fs, op.id).Some? then s.fs else WriteMessage(s.fs, op.w.msg);
            StepN(sha, s, t, k) == Go(s.(fs := fs1), t, op.(pc := Opening))
  {
    hide Preimage, StepN, WriteMessage;
    var op := s.ops[t];
    var s1 := StepOf(sha, s, t);
    if ReadMessage(s.fs, op.id).Some? {
      StepOnce(sha, s, t, 0);
      NoStep(sha, s1, t);
      k := 1;
    } else {
      FromMakingDir(sha, s1, t);
      StepOnce(sha, s, t, 3);
      k := 4;
    }
  }

  /** From the reading of the record to the return of OpenWrite. */
  lemma FromLooking(sha: Hash, s: State, t: nat) returns (k: nat)
    requires t in s.ops && s.ops[t].pc.Looking? && s.ops[t].id == s.ops[t].w.msg.signed.id
    requires var prior := ReadMessage(s.fs, s.ops[t].id);
             prior.Some? ==> sha(Preimage(prior.value.signed)) == sha(Preimage(s.ops[t].w.msg.signed))
    ensures var op := s.ops[t];
            var fs1 := if ReadMessage(s.fs, op.id).Some? then s.fs else WriteMessage(s.fs, op.w.msg);
            var s1 := s.(fs := OpenContent(fs1, op.id));
            var inode, bytes := s1.fs.dirs[op.id].content.value, ContentOf(s1.fs, op.id);
            StepN(sha, s, t, k) ==
              if |bytes| != op.offset then End(s1, t)
              else Go(s1, t, op.(pc := Writing, w := op.w.(inode := inode, pos := |bytes|, hashed := bytes)))
  {
    hide Preimage;
    var op := s.ops[t];
    var j := ToOpening(sha, s, t);
    hide StepN;
    var fs1 := if ReadMessage(s.fs, op.id).Some? then s.fs else WriteMessage(s.fs, op.w.msg);
    var i := FromOpening(sha, Go(s.(fs := fs1), t, op.(pc := Opening)), t);
    StepNAppend(sha, s, t, j, i);
    k := j + i;
  }

  /** The completeness check of OpenWrite. */
  lemma LockedStep(sha: Hash, s: State, t: nat)
    requires t in s.ops && s.ops[t].pc.Locked?
    ensures StepOf(sha, s, t) == if IsComplete(s.fs, s.ops[t].id) then End(s, t) else Go(s, t, s.ops[t].(pc := Looking))
  {
    hide Preimage;
  }

  /** The collision check of OpenWrite, when it fails. */
  lemma CollisionStep(sha: Hash, s: State, t: nat)
    requires t in s.ops && s.ops[t].pc.Looking?
    requires var prior := ReadMessage(s.fs, s.ops[t].id);
             prior.Some? && sha(Preimage(prior.value.signed)) != sha(Preimage(s.ops[t].w.msg.signed))
    ensures StepOf(sha, s, t) == End(s, t)
  {
    hide Preimage;
  }

  /** From the taking of the lock to the return of OpenWrite. */
  lemma FromLocked(sha: Hash, s: State, t: nat, msg: Message, offset: int) returns (k: nat)
    requires t !in s.ops && msg.signed.id !in s.fs.busy
    ensures var s0 := StorageSteps.Apply(sha, s, Action.OpenWrite(t, msg, offset));
            var s' := StepN(sha, s0, t, k);
            var (fs, r) := Storage.OpenWrite(sha, s.fs, msg, offset);
            && s'.fs == fs
            && s'.ops == (if r.Ok? then s.ops[t := Op(Writing, msg.signed.id, offset, r.value)] else s.ops)
  {
    hide Preimage, StepN, StepOf, OpenContent, WriteMessage;
    var id := msg.signed.id;
    var s0 := StorageSteps.Apply(sha, s, Action.OpenWrite(t, msg, offset));
    var prior := ReadMessage(s.fs, id);
    assert s.ops[t := s0.ops[t]] - {t} == s.ops;
    assert Lock(s.fs, id).busy - {id} == s.fs.busy;
    LockedStep(sha, s0, t);
    if IsComplete(s.fs, id) {
      StepOnce(sha, s0, t, 0);
      NoStep(sha, End(s0, t), t);
      k := 1;
    } else {
      var s1 := Go(s0, t, s0.ops[t].(pc := Looking));
      if prior.Some? && sha(Preimage(prior.value.signed)) != sha(Preimage(msg.signed)) {
        CollisionStep(sha, s1, t);
        StepOnce(sha, s0, t, 1);
        StepOnce(sha, s1, t, 0);
        NoStep(sha, End(s1, t), t);
        k := 2;
      } else {
        var j := FromLooking(sha, s1, t);
        StepOnce(sha, s0, t, j);
        k := j + 1;
        OpenLocked(sha, s.fs, msg, offset);
      }
    }
  }

  /** The file operations of OpenWrite do not depend on the lock table. */
  lemma OpenLocked(sha: Hash, fs: Fs, msg: Message, offset: int)
    ensures WriteMessage(Lock(fs, msg.signed.id), msg) == Lock(WriteMessage(fs, msg), msg.signed.id)
    ensures msg.signed.id in WriteMessage(fs, msg).dirs
    ensures WriteMessage(fs, msg).busy == fs.busy
    ensures OpenContent(WriteMessage(Lock(fs, msg.signed.id), msg), msg.signed.id)
            == Lock(OpenContent(WriteMessage(fs, msg), msg.signed.id), msg.signed.id)
    ensures OpenContent(WriteMessage(fs, msg), msg.signed.id).busy == fs.busy
    ensures msg.signed.id in fs.dirs ==>
              && OpenContent(Lock(fs, msg.signed.id), msg.signed.id)
                 == Lock(OpenContent(fs, msg.signed.id), msg.signed.id)
              && OpenContent(fs, msg.signed.id).busy == fs.busy
  {
  }

  /** Undisturbed, the calls of OpenWrite add up to the operation of Storage. */
  lemma SoloOpenWrite(sha: Hash, s: State, t: nat, msg: Message, offset: int) returns (k: nat)
    requires t !in s.ops
    ensures var s' := Run(sha, s, [Action.OpenWrite(t, msg, offset)] + Steps(t, k));
            var (fs, r) := Storage.OpenWrite(sha, s.fs, msg, offset);
            && s'.fs == fs
            && s'.ops == (if r.Ok? then s.ops[t := Op(Writing, msg.signed.id, offset, r.value)] else s.ops)
  {
    var s0 := StorageSteps.Apply(sha, s, Action.OpenWrite(t, msg, offset));
    if msg.signed.id in s.fs.busy {
      k := 0;
      assert s0 == s;
    } else {
      k := FromLocked(sha, s, t, msg, offset);
    }
    hide StorageSteps.Apply, Storage.OpenWrite;
    OneAction(sha, s, Action.OpenWrite(t, msg, offset));
    RunAppend(sha, s, [Action.OpenWrite(t, msg, offset)], Steps(t, k));
    StepsRun(sha, s0, t, k);
  }

  /** The thread holds a writer at a place that Write accepts. */
  ghost predicate AtWork(s: State, t: nat)
  {
    t in s.ops && s.ops[t].pc.Writing? && s.ops[t].w.pos <= |FileBytes(s.fs, s.ops[t].w.inode)|
  }

  function Writes(t: nat, packets: seq<Bytes>): seq<Action>
  {
    if packets == [] then [] else [Action.Write(t, packets[0])] + Writes(t, packets[1..])
  }

  lemma {:induction false} SoloWrites(sha: Hash, s: State, t: nat, packets: seq<Bytes>)
    requires AtWork(s, t)
    ensures var (fs, w) := WriteAll(s.fs, s.ops[t].w, packets);
            Run(sha, s, Writes(t, packets)) == Go(s.(fs := fs), t, s.ops[t].(w := w))
    decreases packets
  {
    if packets == [] {
      assert s.ops[t := s.ops[t]] == s.ops;
    } else {
      var a := Action.Write(t, packets[0]);
      var s1 := StorageSteps.Apply(sha, s, a);
      assert Writes(t, packets)[1..] == Writes(t, packets[1..]);
      SoloWrites(sha, s1, t, packets[1..]);
      var last := Run(sha, s1, Writes(t, packets[1..])).ops[t];
      assert s1.ops[t := last] == s.ops[t := last];
    }
  }

  /** Close decides, and then removes the directory or marks the message. */
  lemma CloseSteps(sha: Hash, s: State, t: nat)
    requires t in s.ops && s.ops[t].pc.Writing? && s.ops[t].id == s.ops[t].w.msg.signed.id
    ensures var s2 := StorageSteps.Apply(sha, StorageSteps.Apply(sha, s, Action.Close(t)), Step(t));
            s2.fs == Storage.Close(sha, s.fs, s.ops[t].w).0 && s2.ops == s.ops - {t}
  {
    hide Preimage, StepOf;
    var op := s.ops[t];
    var s1 := StorageSteps.Apply(sha, s, Action.Close(t));
    if t in s1.ops {
      LastStep(sha, s1, t);
      assert s.ops[t := s1.ops[t]] - {t} == s.ops - {t};
    }
  }

  lemma LastStep(sha: Hash, s: State, t: nat)
    requires t in s.ops && (s.ops[t].pc.Deleting? || s.ops[t].pc.Finishing?)
    ensures var id := s.ops[t].id;
            StepOf(sha, s, t) == if s.ops[t].pc.Deleting? then End(s.(fs := RemoveAll(s.fs, id)), t)
                                 else End(if id in s.fs.dirs then SetDir(s, id, s.fs.dirs[id].(done := true)) else s, t)
  {
    hide Preimage;
  }

  /** Undisturbed, Close does what the operation of Storage does. */
  lemma SoloClose(sha: Hash, s: State, t: nat)
    requires t in s.ops && s.ops[t].pc.Writing? && s.ops[t].id == s.ops[t].w.msg.signed.id
    ensures var s' := Run(sha, s, [Action.Close(t)] + Steps(t, 1));
            s'.fs == Storage.Close(sha, s.fs, s.ops[t].w).0 && s'.ops == s.ops - {t}
  {
    var s1 := StorageSteps.Apply(sha, s, Action.Close(t));
    var s2 := StorageSteps.Apply(sha, s1, Step(t));
    CloseSteps(sha, s, t);
    hide StorageSteps.Apply, Storage.Close;
    OneAction(sha, s, Action.Close(t));
    RunAppend(sha, s, [Action.Close(t)], Steps(t, 1));
    StepsRun(sha, s1, t, 1);
    assert StepN(sha, s1, t, 1) == StepN(sha, s2, t, 0);
  }

  /** Every transfer of Storage is a run of the steps. */
  lemma SoloTransfer(sha: Hash, s: State, t: nat, msg: Message, offset: int, packets: seq<Bytes>)
    returns (actions: seq<Action>)
    requires t !in s.ops && Transfer(sha, s.fs, msg, offset, packets).Some?
    ensures var s' := Run(sha, s, actions);
            s'.fs == Transfer(sha, s.fs, msg, offset, packets).value && s'.ops == s.ops
  {
    hide Storage.OpenWrite, Storage.Close, WriteAll, Run;
    var (fs1, r) := Storage.OpenWrite(sha, s.fs, msg, offset);
    WriterHasMessage(sha, s.fs, msg, offset);
    var k := SoloOpenWrite(sha, s, t, msg, offset);
    var opening := [Action.OpenWrite(t, msg, offset)] + Steps(t, k);
    var s1 := Run(sha, s, opening);
    SoloWrites(sha, s1, t, packets);
    WriterStays(fs1, r.value, packets);
    var s2 := Run(sha, s1, Writes(t, packets));
    SoloClose(sha, s2, t);
    var closing := [Action.Close(t)] + Steps(t, 1);
    actions := opening + Writes(t, packets) + closing;
    RunAppend(sha, s, opening + Writes(t, packets), closing);
    RunAppend(sha, s, opening, Writes(t, packets));
    assert s2.ops - {t} == s.ops;
  }

  lemma WriterHasMessage(sha: Hash, fs: Fs, msg: Message, offset: int)
    ensures var r := Storage.OpenWrite(sha, fs, msg, offset).1;
            r.Ok? ==> r.value.msg == msg && r.value.pos == offset
  {
    hide Preimage;
  }

  lemma {:induction false} WriterStays(fs: Fs, w: Writer, packets: seq<Bytes>)
    requires w.pos <= |FileBytes(fs, w.inode)|
    ensures WriteAll(fs, w, packets).1.msg == w.msg
    decreases packets
  {
    if packets != [] {
      var (fs1, w1) := Storage.Write(fs, w, packets[0]);
      WriterStays(fs1, w1, packets[1..]);
    }
  }

  // ---------- A complete message may disagree with its record ----------

  /** A message with the preimage of the stored record completes it, and the record stays. */
  lemma CollidingTransfer(sha: Hash, fs: Fs, n: Message, m: Message, content: Bytes)
    requires Partial(fs, n, []) && n.signed.id == m.signed.id && Preimage(n.signed) == Preimage(m.signed)
    requires Matches(sha, m.signed, content)
    ensures var r := Transfer(sha, fs, m, 0, [content]);
            r.Some? && Storage.OpenRead(r.value, m.signed.id) == Ok((n, content))
  {
    hide Preimage, WriteAll, Joined;
    var (fs1, r) := Storage.OpenWrite(sha, fs, m, 0);
    WriteAllAppends(fs1, r.value, [content]);
    JoinedOne(content);
    assert [] + content == content;
  }

  lemma JoinedOne(p: Bytes)
    ensures Joined([p]) == p
  {
    assert [p][1..] == [];
  }

  /** For every content, some run leaves it complete under a record with another Sha256. */
  lemma RecordMayDisagree(sha: Hash, content: Bytes) returns (actions: seq<Action>, id: MsgId)
    ensures var s := Run(sha, INIT, actions);
            var r := Storage.OpenRead(s.fs, id);
            IsComplete(s.fs, id) && r.Ok? && r.value.1 == content && r.value.0.signed.sha256 != sha(content)
  {
    hide Preimage, Transfer, Run;
    var t, bob := Civil(2016, 6, 22, 13, 40, 12, 123), [98, 111, 98];
    var recipient := bob + [NL] + (TimeText(t) + [NL] + (Int64Text(1) + [NL] + (Int64Text(2) + [NL] + [])));
    var m := Signed([102, 111, 111], recipient, t, 3600, |content|, sha(content));
    EmbeddedHeaderCollides(m, bob, t, 1, 2, []);
    var n := Signed(m.id, bob, t, 1, 2, [] + [NL] + (TimeText(m.created) + [NL] + (Int64Text(m.lifespan) + [NL]
                                                                     + (Int64Text(m.length) + [NL] + m.sha256))));
    hide TimeText, Int64Text;
    id := m.id;
    var fs0 := OpenContent(WriteMessage(EMPTY, Message([], n)), id);
    FirstAttempt(sha, EMPTY, Message([], n), []);
    TransferExtends(sha, fs0, Message([], n), Message([], n), [], []);
    var first := SoloTransfer(sha, INIT, 0, Message([], n), 0, []);
    var s1 := Run(sha, INIT, first);
    CollidingTransfer(sha, s1.fs, Message([], n), Message([], m), content);
    var second := SoloTransfer(sha, s1, 0, Message([], m), 0, [content]);
    RunAppend(sha, INIT, first, second);
    actions := first + second;
  }

  /** No two opened messages of one id share a hash unless they share the preimage. */
  ghost predicate NoCollision(sha: Hash, seen: set<Signed>)
  {
    forall a, b :: a in seen && b in seen && SameHash(sha, a, b) ==> Preimage(a) == Preimage(b)
  }

  /**
   * Exactly when a complete message agrees with its record: when the record's
   * Sha256 field has the length of a SHA-256 digest, which nothing checks.
   */
  lemma RecordAgreesIff(sha: Hash, actions: seq<Action>, id: MsgId)
    requires forall x :: |sha(x)| == 32
    requires var s := Run(sha, INIT, actions);
             && NoCollision(sha, s.seen) && (forall a :: a in s.seen ==> a.created.Valid())
             && IsComplete(s.fs, id)
    ensures var r := Storage.OpenRead(Run(sha, INIT, actions).fs, id);
            r.Ok? && (Matches(sha, r.value.0.signed, r.value.1) <==> |r.value.0.signed.sha256| == 32)
  {
    hide Preimage, Run;
    var s := Run(sha, INIT, actions);
    assert Inv(sha, INIT);
    RunKeeps(sha, INIT, actions);
    DoneMatches(sha, s, id);
    RecordSeen(sha, s, id);
    hide Inv;
    var r := Storage.OpenRead(s.fs, id);
    var m :| m in s.seen && SameHash(sha, r.value.0.signed, m) && Matches(sha, m, r.value.1);
    AmbiguousOnlyByLength(r.value.0.signed, m);
  }

  lemma RecordSeen(sha: Hash, s: State, id: MsgId)
    requires Inv(sha, s) && Storage.OpenRead(s.fs, id).Ok?
    ensures Storage.OpenRead(s.fs, id).value.0.signed in s.seen
  {
    hide LocksOk, OpsOk, FilesOk, WritersApart;
    assert DirOk(sha, s.fs, s.seen, id);
  }
}

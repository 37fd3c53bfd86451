/** Resumed transfers: what is stored when every sender sends the bytes it claims to. */
module StorageResume {
  import opened Message
  import opened Storage
  import opened StorageSteps

  /** A message as its author signed it, and its content. */
  datatype Genuine = Genuine(signed: Signed, content: Bytes)

  type Truth = map<MsgId, Genuine>

  ghost predicate TruthOk(sha: Hash, truth: Truth)
  {
    forall id :: id in truth ==>
      truth[id].signed.id == id && Matches(sha, truth[id].signed, truth[id].content)
  }

  /** An honest sender opens genuine messages and writes the bytes that belong at the position. */
  ghost predicate Honest(truth: Truth, s: State, a: Action)
  {
    match a
    case OpenWrite(t, m, _) => m.signed.id in truth && m.signed == truth[m.signed.id].signed
    case Write(t, p) =>
      t in s.ops && s.ops[t].pc.Writing? && s.ops[t].id in truth ==>
        var content, pos := truth[s.ops[t].id].content, s.ops[t].w.pos;
        pos + |p| <= |content| && p == content[pos..pos + |p|]
    case _ => true
  }

  ghost predicate HonestRun(sha: Hash, truth: Truth, s: State, actions: seq<Action>)
    decreases actions
  {
    actions != [] ==>
      Honest(truth, s, actions[0]) && HonestRun(sha, truth, Apply(sha, s, actions[0]), actions[1..])
  }

  /** Some thread has the id open, or is about to mark it complete. */
  ghost predicate InHand(s: State, id: MsgId)
  {
    exists t :: Holds(s, t, id) && (s.ops[t].pc.Writing? || s.ops[t].pc.Finishing?)
  }

  /** A directory: absent bytes, or a prefix of the content; nothing is left whole but unmarked. */
  ghost predicate DirGenuine(truth: Truth, s: State, id: MsgId)
    requires id in s.fs.dirs
  {
    var d := s.fs.dirs[id];
    && id in truth
    && (d.record.Stored? ==> d.record.msg.signed == truth[id].signed)
    && (d.content.Some? ==>
          var bytes := FileBytes(s.fs, d.content.value);
          && bytes <= truth[id].content
          && (d.done ==> bytes == truth[id].content)
          && (!d.done ==> |bytes| < |truth[id].content| || truth[id].content == [] || InHand(s, id)))
  }

  ghost predicate OpGenuine(truth: Truth, fs: Fs, op: Op)
  {
    && (Owns(op) || op.pc.Locked? ==> op.id in truth && op.w.msg.signed == truth[op.id].signed)
    && !op.pc.Deleting?
    && (HasFile(op) ==> FileBytes(fs, op.w.inode) <= truth[op.id].content)
  }

  ghost predicate GenuineInv(sha: Hash, truth: Truth, s: State)
  {
    && Inv(sha, s) && TruthOk(sha, truth)
    && (forall id :: id in s.fs.dirs ==> DirGenuine(truth, s, id))
    && (forall t :: t in s.ops ==> OpGenuine(truth, s.fs, s.ops[t]))
  }

  /** Ids in hand stay in hand when a thread moves that has none in hand, or keeps its own. */
  lemma HandsKept(s: State, s': State, t: nat, id: MsgId)
    requires InHand(s, id)
    requires forall u :: u in s.ops && u != t ==> u in s'.ops && s'.ops[u] == s.ops[u]
    requires t in s.ops && (s.ops[t].pc.Writing? || s.ops[t].pc.Finishing?) ==>
               s.ops[t].id != id || (t in s'.ops && s'.ops[t].id == id
                                     && (s'.ops[t].pc.Writing? || s'.ops[t].pc.Finishing?))
    ensures InHand(s', id)
  {
    var u :| Holds(s, u, id) && (s.ops[u].pc.Writing? || s.ops[u].pc.Finishing?);
    assert Holds(s', u, id);
  }

  /** A step that leaves the directories, the files' bytes and the hands as they are. */
  lemma LookGenuine(sha: Hash, truth: Truth, s: State, s': State, t: nat)
    requires GenuineInv(sha, truth, s) && Inv(sha, s')
    requires s'.fs.dirs == s.fs.dirs && s'.fs.files == s.fs.files
    requires forall u :: u in s'.ops && u != t ==> u in s.ops && s'.ops[u] == s.ops[u]
    requires t in s'.ops ==> OpGenuine(truth, s'.fs, s'.ops[t])
    requires forall id :: InHand(s, id) ==> InHand(s', id) || IsComplete(s.fs, id)
                                            || (id in truth ==> |ContentOf(s.fs, id)| < |truth[id].content|)
    ensures GenuineInv(sha, truth, s')
  {
    hide Inv, TruthOk, InHand;
    forall id | id in s'.fs.dirs
      ensures DirGenuine(truth, s', id)
    {
      assert DirGenuine(truth, s, id);
    }
    forall u | u in s'.ops && u != t
      ensures OpGenuine(truth, s'.fs, s'.ops[u])
    {
      assert OpGenuine(truth, s.fs, s.ops[u]);
    }
  }

  /** A step that changes one directory, keeping its content file and adding no byte. */
  lemma DirGenuineStep(sha: Hash, truth: Truth, s: State, s': State, t: nat, id: MsgId)
    requires GenuineInv(sha, truth, s) && Inv(sha, s')
    requires s'.fs.dirs.Keys <= s.fs.dirs.Keys + {id}
    requires forall x :: x in s'.fs.dirs && x != id ==> s'.fs.dirs[x] == s.fs.dirs[x]
    requires forall i :: i in s.fs.files ==> FileBytes(s'.fs, i) == FileBytes(s.fs, i)
    requires forall u :: u in s'.ops && u != t ==> u in s.ops && s'.ops[u] == s.ops[u]
    requires t in s'.ops ==> OpGenuine(truth, s'.fs, s'.ops[t])
    requires forall x :: InHand(s, x) && x != id ==> InHand(s', x)
    requires id in s'.fs.dirs ==> DirGenuine(truth, s', id)
    ensures GenuineInv(sha, truth, s')
  {
    assert forall u :: u in s.ops && HasFile(s.ops[u]) ==> s.ops[u].w.inode in s.fs.files by {
      hide LocksOk, DirsOk, FilesOk, WritersApart;
      assert forall u :: u in s.ops ==> OpOk(sha, s, s.ops[u]);
    }
    assert FilesOk(s.fs);
    hide Inv, TruthOk, InHand;
    forall x | x in s'.fs.dirs && x != id
      ensures DirGenuine(truth, s', x)
    {
      assert DirGenuine(truth, s, x);
    }
    forall u | u in s'.ops && u != t
      ensures OpGenuine(truth, s'.fs, s'.ops[u])
    {
      assert OpGenuine(truth, s.fs, s.ops[u]);
    }
  }

  /** What the invariant says about one thread and its directory. */
  lemma GenuineFacts(sha: Hash, truth: Truth, s: State, t: nat)
    requires GenuineInv(sha, truth, s) && t in s.ops
    ensures Inv(sha, s) && OpOk(sha, s, s.ops[t]) && OpGenuine(truth, s.fs, s.ops[t])
    ensures s.ops[t].id in s.fs.dirs ==> DirGenuine(truth, s, s.ops[t].id)
    ensures s.ops[t].id in truth ==> Matches(sha, truth[s.ops[t].id].signed, truth[s.ops[t].id].content)
    ensures s.ops[t].id in s.fs.dirs && s.fs.dirs[s.ops[t].id].content.Some? ==>
              s.fs.dirs[s.ops[t].id].content.value in s.fs.files
    ensures s.fs.next !in s.fs.files
    ensures s.ops[t].id in s.fs.dirs && s.fs.dirs[s.ops[t].id].done ==> s.fs.dirs[s.ops[t].id].content.Some?
  {
    ThreadFacts(sha, s, t);
    hide LocksOk, OpsOk, DirsOk;
    assert FilesOk(s.fs);
  }

  /** MkdirAll and the two steps of writing the record. */
  lemma RecordGenuine(sha: Hash, truth: Truth, s: State, t: nat)
    requires GenuineInv(sha, truth, s) && t in s.ops
    requires s.ops[t].pc.MakingDir? || s.ops[t].pc.Creating? || s.ops[t].pc.Encoding?
    ensures GenuineInv(sha, truth, StepOf(sha, s, t))
  {
    hide GenuineInv, Inv, OpOk;
    GenuineFacts(sha, truth, s, t);
    StepKeeps(sha, s, t);
    var s' := StepOf(sha, s, t);
    forall id | InHand(s, id)
      ensures InHand(s', id)
    {
      HandsKept(s, s', t, id);
    }
    hide InHand;
    DirGenuineStep(sha, truth, s, s', t, s.ops[t].id);
  }

  /** Opening the content file, for writing or for reading. */
  lemma OpenGenuine(sha: Hash, truth: Truth, s: State, t: nat)
    requires GenuineInv(sha, truth, s) && t in s.ops && (s.ops[t].pc.Opening? || s.ops[t].pc.ReadOpening?)
    ensures GenuineInv(sha, truth, StepOf(sha, s, t))
  {
    hide GenuineInv, Inv, OpOk;
    GenuineFacts(sha, truth, s, t);
    StepKeeps(sha, s, t);
    var s' := StepOf(sha, s, t);
    forall id | InHand(s, id)
      ensures InHand(s', id)
    {
      HandsKept(s, s', t, id);
    }
    hide InHand;
    DirGenuineStep(sha, truth, s, s', t, s.ops[t].id);
  }

  lemma LookStepGenuine(sha: Hash, truth: Truth, s: State, t: nat)
    requires GenuineInv(sha, truth, s) && t in s.ops
    requires var pc := s.ops[t].pc;
             pc.Locked? || pc.Looking? || pc.Sizing? || pc.Absorbing? || pc.Asking? || pc.Reading?
    ensures GenuineInv(sha, truth, StepOf(sha, s, t))
  {
    hide GenuineInv, Inv, OpOk, Preimage;
    GenuineFacts(sha, truth, s, t);
    StepKeeps(sha, s, t);
    var s' := StepOf(sha, s, t);
    forall id | InHand(s, id)
      ensures InHand(s', id)
    {
      HandsKept(s, s', t, id);
    }
    hide InHand, DirGenuine;
    LookGenuine(sha, truth, s, s', t);
  }

  lemma StepGenuine(sha: Hash, truth: Truth, s: State, t: nat)
    requires GenuineInv(sha, truth, s) && t in s.ops
    ensures GenuineInv(sha, truth, StepOf(sha, s, t))
  {
    hide GenuineInv;
    GenuineFacts(sha, truth, s, t);
    match s.ops[t].pc
    case MakingDir => RecordGenuine(sha, truth, s, t);
    case Creating => RecordGenuine(sha, truth, s, t);
    case Encoding => RecordGenuine(sha, truth, s, t);
    case Opening => OpenGenuine(sha, truth, s, t);
    case ReadOpening => OpenGenuine(sha, truth, s, t);
    case Finishing => FinishGenuine(sha, truth, s, t);
    case Writing =>
    case Deleting => assert false;
    case _ => LookStepGenuine(sha, truth, s, t);
  }

  /** Marking complete: the file has the full length, so it is the content. */
  lemma FinishGenuine(sha: Hash, truth: Truth, s: State, t: nat)
    requires GenuineInv(sha, truth, s) && t in s.ops && s.ops[t].pc.Finishing?
    ensures GenuineInv(sha, truth, StepOf(sha, s, t))
  {
    hide Preimage;
    var s' := StepOf(sha, s, t);
    var op := s.ops[t];
    StepKeeps(sha, s, t);
    ThreadFacts(sha, s, t);
    assert OpGenuine(truth, s.fs, op);
    if op.id in s.fs.dirs {
      assert DirGenuine(truth, s, op.id);
    }
    hide Inv;
    forall id | InHand(s, id) && id != op.id
      ensures InHand(s', id)
    {
      HandsKept(s, s', t, id);
    }
    DirGenuineStep(sha, truth, s, s', t, op.id);
  }

  lemma WriteGenuine(sha: Hash, truth: Truth, s: State, t: nat, p: Bytes)
    requires GenuineInv(sha, truth, s) && t in s.ops && s.ops[t].pc.Writing? && Honest(truth, s, Write(t, p))
    ensures GenuineInv(sha, truth, Apply(sha, s, Write(t, p)))
  {
    var s' := Apply(sha, s, Write(t, p));
    var op := s.ops[t];
    WriteKeeps(sha, s, t, p);
    ThreadFacts(sha, s, t);
    assert OpGenuine(truth, s.fs, op);
    var content, bytes := truth[op.id].content, s.fs.files[op.w.inode];
    assert WriteAt(bytes, op.w.pos, p) == content[..op.w.pos + |p|];
    assert Holds(s', t, op.id);
    forall id | InHand(s, id)
      ensures InHand(s', id)
    {
      HandsKept(s, s', t, id);
    }
    hide Inv, TruthOk;
    forall id | id in s'.fs.dirs
      ensures DirGenuine(truth, s', id)
    {
      assert DirGenuine(truth, s, id);
    }
    forall u | u in s'.ops && u != t
      ensures OpGenuine(truth, s'.fs, s'.ops[u])
    {
      assert OpGenuine(truth, s.fs, s.ops[u]);
    }
  }

  lemma CloseGenuine(sha: Hash, truth: Truth, s: State, t: nat)
    requires GenuineInv(sha, truth, s) && t in s.ops && s.ops[t].pc.Writing?
    ensures GenuineInv(sha, truth, Apply(sha, s, Close(t)))
  {
    hide GenuineInv, Inv, StepOf;
    GenuineFacts(sha, truth, s, t);
    CloseKeeps(sha, s, t);
    var s' := Apply(sha, s, Close(t));
    var op := s.ops[t];
    var bytes, content := s.fs.files[op.w.inode], truth[op.id].content;
    assert |bytes| == |content| ==> bytes == content;
    assert t in s'.ops ==> s'.ops[t].pc.Finishing?;
    forall id | InHand(s, id) && (id != op.id || t in s'.ops)
      ensures InHand(s', id)
    {
      HandsKept(s, s', t, id);
    }
    hide InHand;
    LookGenuine(sha, truth, s, s', t);
  }

  lemma EnterGenuine(sha: Hash, truth: Truth, s: State, a: Action)
    requires GenuineInv(sha, truth, s) && Inv(sha, Apply(sha, s, a)) && Honest(truth, s, a)
    requires a.OpenWrite? || a.Offset? || a.OpenRead?
    ensures GenuineInv(sha, truth, Apply(sha, s, a))
  {
    hide StepOf, Inv, GenuineInv;
    StartGenuine(sha, truth, s, Apply(sha, s, a), a.t);
  }

  lemma DiskGenuine(sha: Hash, truth: Truth, s: State, a: Action)
    requires GenuineInv(sha, truth, s) && Inv(sha, Apply(sha, s, a))
    requires a.SetPeerInfo? || a.SweepRead? || a.SweepRemove?
    ensures GenuineInv(sha, truth, Apply(sha, s, a))
  {
    hide StepOf, Inv, GenuineInv;
    QuietGenuine(sha, truth, s, Apply(sha, s, a));
  }

  /** Every honest action keeps partial content a prefix, and complete content whole. */
  lemma ApplyGenuine(sha: Hash, truth: Truth, s: State, a: Action)
    requires GenuineInv(sha, truth, s) && Honest(truth, s, a)
    ensures GenuineInv(sha, truth, Apply(sha, s, a))
  {
    assert Inv(sha, s);
    hide StepOf, Inv, GenuineInv;
    ApplyKeeps(sha, s, a);
    match a
    case Step(t) => if t in s.ops { StepGenuine(sha, truth, s, t); }
    case Write(t, p) => if t in s.ops && s.ops[t].pc.Writing? { WriteGenuine(sha, truth, s, t, p); }
    case Close(t) => if t in s.ops && s.ops[t].pc.Writing? { CloseGenuine(sha, truth, s, t); }
    case SetPeerInfo(_, _, _) => DiskGenuine(sha, truth, s, a);
    case SweepRead(_, _) => DiskGenuine(sha, truth, s, a);
    case SweepRemove(_) => DiskGenuine(sha, truth, s, a);
    case _ => EnterGenuine(sha, truth, s, a);
  }

  /** No thread moves, and one directory is removed or keeps all but its peer files. */
  lemma QuietGenuine(sha: Hash, truth: Truth, s: State, s': State)
    requires GenuineInv(sha, truth, s) && Inv(sha, s')
    requires s'.ops == s.ops && s'.fs.files == s.fs.files
    requires forall x :: x in s'.fs.dirs ==>
               x in s.fs.dirs && s'.fs.dirs[x] == s.fs.dirs[x].(peers := s'.fs.dirs[x].peers)
    ensures GenuineInv(sha, truth, s')
  {
    AnyHand(s, s');
    hide Inv, InHand;
    forall x | x in s'.fs.dirs
      ensures DirGenuine(truth, s', x)
    {
      assert DirGenuine(truth, s, x);
    }
    forall u | u in s'.ops
      ensures OpGenuine(truth, s'.fs, s'.ops[u])
    {
      assert OpGenuine(truth, s.fs, s.ops[u]);
    }
  }

  lemma AnyHand(s: State, s': State)
    requires s'.ops == s.ops
    ensures forall id :: InHand(s, id) ==> InHand(s', id)
  {
    forall id | InHand(s, id)
      ensures InHand(s', id)
    {
      var u :| Holds(s, u, id) && (s.ops[u].pc.Writing? || s.ops[u].pc.Finishing?);
      assert Holds(s', u, id);
    }
  }

  /** A thread enters an operation. */
  lemma StartGenuine(sha: Hash, truth: Truth, s: State, s': State, t: nat)
    requires GenuineInv(sha, truth, s) && Inv(sha, s')
    requires s' == s || (t !in s.ops && s'.ops.Keys == s.ops.Keys + {t} && OpGenuine(truth, s'.fs, s'.ops[t]))
    requires forall u :: u in s.ops ==> u in s'.ops && s'.ops[u] == s.ops[u]
    requires s'.fs.dirs == s.fs.dirs && s'.fs.files == s.fs.files
    ensures GenuineInv(sha, truth, s')
  {
    hide Inv, TruthOk;
    if s' != s {
      forall id | InHand(s, id)
        ensures InHand(s', id)
      {
        HandsKept(s, s', t, id);
      }
      LookGenuine(sha, truth, s, s', t);
    }
  }

  lemma {:induction false} RunGenuine(sha: Hash, truth: Truth, s: State, actions: seq<Action>)
    requires GenuineInv(sha, truth, s) && HonestRun(sha, truth, s, actions)
    ensures GenuineInv(sha, truth, Run(sha, s, actions))
    decreases actions
  {
    if actions != [] {
      ApplyGenuine(sha, truth, s, actions[0]);
      RunGenuine(sha, truth, Apply(sha, s, actions[0]), actions[1..]);
    }
  }

  /**
   * After any interleaving of transfers, interrupted or not, by honest senders:
   * stored content is a prefix of the true content, a writer's running hash is
   * over exactly the bytes stored, no Close finds a mismatch, and an id that no
   * thread has locked is absent, partial and shorter than Length, or complete.
   */
  lemma ResumeCorrect(sha: Hash, truth: Truth, actions: seq<Action>, id: MsgId)
    requires TruthOk(sha, truth) && HonestRun(sha, truth, INIT, actions)
    ensures var s := Run(sha, INIT, actions);
            && (id in s.fs.dirs ==> id in truth && ContentOf(s.fs, id) <= truth[id].content)
            && (forall t :: t in s.ops && s.ops[t].pc.Writing? ==>
                  s.ops[t].w.hashed == FileBytes(s.fs, s.ops[t].w.inode))
            && (forall t :: t in s.ops ==> !s.ops[t].pc.Deleting?)
            && (id in s.fs.dirs && id !in s.fs.busy ==>
                  if s.fs.dirs[id].done then ContentOf(s.fs, id) == truth[id].content
                  else |ContentOf(s.fs, id)| < truth[id].signed.length || truth[id].signed.length == 0)
  {
    assert Inv(sha, INIT);
    RunGenuine(sha, truth, INIT, actions);
    var s := Run(sha, INIT, actions);
    forall t | t in s.ops
      ensures s.ops[t].pc.Writing? ==> s.ops[t].w.hashed == FileBytes(s.fs, s.ops[t].w.inode)
      ensures !s.ops[t].pc.Deleting?
    {
      ThreadFacts(sha, s, t);
      assert OpGenuine(truth, s.fs, s.ops[t]);
    }
    if id in s.fs.dirs {
      assert DirGenuine(truth, s, id);
      assert DirOk(sha, s.fs, s.seen, id);
    }
  }
}

/** FileStorage in its imperative form, each method proved against its operation in Storage. */
module FileStore {
  import opened Message
  import opened Storage

  class FileStorage {
    var dirs: map<MsgId, Dir>
    var files: map<nat, Bytes>
    var next: nat
    var busy: set<MsgId>

    constructor ()
      ensures State() == EMPTY
    {
      dirs, files, next, busy := map[], map[], 0, {};
    }

    function State(): Fs
      reads this
    {
      Fs(dirs, files, next, busy)
    }

    method TryLock(id: MsgId) returns (ok: bool)
      modifies this`busy
      ensures ok == (id !in old(busy))
      ensures busy == old(busy) + {id}
    {
      ok := id !in busy;
      busy := busy + {id};
    }

    method Release(id: MsgId)
      modifies this`busy
      ensures busy == old(busy) - {id}
    {
      busy := busy - {id};
    }

    method StoreMessage(msg: Message)
      modifies this`dirs
      ensures State() == Storage.WriteMessage(old(State()), msg)
    {
      var id := msg.signed.id;
      if id !in dirs {
        dirs := dirs[id := NEW_DIR];
      }
      dirs := dirs[id := dirs[id].(record := Torn)];
      dirs := dirs[id := dirs[id].(record := Stored(msg))];
    }

    method OpenFile(id: MsgId) returns (inode: nat)
      requires id in dirs
      modifies this`dirs, this`files, this`next
      ensures State() == Storage.OpenContent(old(State()), id)
      ensures id in dirs && dirs[id].content == Some(inode)
    {
      if dirs[id].content.None? {
        dirs := dirs[id := dirs[id].(content := Some(next))];
        files := files[next := []];
        next := next + 1;
      }
      inode := dirs[id].content.value;
    }

    /** Feeds the whole file to the running hash, 2048 bytes at a time. */
    method Absorb(inode: nat) returns (hashed: Bytes)
      ensures hashed == FileBytes(State(), inode)
    {
      var bytes := if inode in files then files[inode] else [];
      hashed := [];
      while |hashed| < |bytes|
        invariant |hashed| <= |bytes| && hashed == bytes[..|hashed|]
        decreases |bytes| - |hashed|
      {
        var n := if |bytes| - |hashed| < 2048 then |bytes| - |hashed| else 2048;
        hashed := hashed + bytes[|hashed|..|hashed| + n];
      }
    }

    method OpenWrite(sha: Hash, msg: Message, offset: int) returns (r: Result<Writer>)
      modifies this
      ensures (State(), r) == Storage.OpenWrite(sha, old(State()), msg, offset)
    {
      hide Preimage;
      var id := msg.signed.id;
      var ok := TryLock(id);
      if !ok {
        assert busy == old(busy);
        return Err(Busy);
      }
      if id in dirs && dirs[id].done {
        Release(id);
        assert busy == old(busy);
        return Err(AlreadySeen);
      }
      if id in dirs && dirs[id].record.Stored? {
        if sha(Preimage(dirs[id].record.msg.signed)) != sha(Preimage(msg.signed)) {
          Release(id);
          assert busy == old(busy);
          return Err(MessageIdCollision);
        }
      } else {
        StoreMessage(msg);
      }
      var inode := OpenFile(id);
      var size := |if inode in files then files[inode] else []|;
      if size != offset {
        Release(id);
        assert busy == old(busy);
        return Err(IncorrectOffset(size));
      }
      var hashed := Absorb(inode);
      r := Ok(Writer(msg, inode, offset, hashed));
    }

    method Write(w: Writer, p: Bytes) returns (w': Writer)
      requires w.pos <= |FileBytes(State(), w.inode)|
      modifies this`files
      ensures (State(), w') == Storage.Write(old(State()), w, p)
    {
      var file := if w.inode in files then files[w.inode] else [];
      files := files[w.inode := WriteAt(file, w.pos, p)];
      w' := w.(pos := w.pos + |p|, hashed := w.hashed + p);
    }

    method Close(sha: Hash, w: Writer) returns (err: Option<Error>)
      modifies this`dirs, this`busy
      ensures (State(), err) == Storage.Close(sha, old(State()), w)
    {
      var id := w.msg.signed.id;
      var size := |if w.inode in files then files[w.inode] else []|;
      err := None;
      if size >= w.msg.signed.length {
        if size > w.msg.signed.length || w.msg.signed.sha256 != sha(w.hashed) {
          dirs := dirs - {id};
          err := Some(ContentMismatch);
        } else if id in dirs {
          dirs := dirs[id := dirs[id].(done := true)];
        } else {
          err := Some(NoExist);
        }
      }
      Release(id);
    }

    /** Reads directory names in any order and removes the expired ones. */
    method SweepExpired(now: int)
      modifies this`dirs
      ensures State() == Storage.Sweep(old(State()), now)
      ensures forall id :: id in dirs <==> id in old(dirs) && !(old(dirs)[id].record.Stored?
                                                               && old(dirs)[id].record.msg.signed.Expired(now))
    {
      var names := dirs.Keys;
      while names != {}
        invariant names <= dirs.Keys <= old(dirs).Keys
        invariant forall id :: id in dirs ==> dirs[id] == old(dirs)[id]
        invariant forall id :: id in old(dirs).Keys - names ==> (id in dirs <==> !Sweepable(old(dirs)[id], now))
        decreases |names|
      {
        var id :| id in names;
        names := names - {id};
        if dirs[id].record.Stored? && dirs[id].record.msg.signed.Expired(now) {
          dirs := dirs - {id};
        }
      }
    }
  }
}

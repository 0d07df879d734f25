/** Every call of the engine keeps its device's invariant, and every store it
    passes through satisfies the invariant's storage part. */
module CallInvariant {
  import opened Wrappers
  import opened Operations
  import opened Protocol
  import opened LocalStore
  import opened Documents
  import opened EngineSpec
  import opened EngineCoherence
  import opened World
  import opened LogFacts
  import opened NodeInvariant

  // ---- acks ----

  /** Completing the push on record: what it carried is in the log now. */
  lemma CompleteStored(c: Codec, d: nat, log: seq<Row>, m: map<nat, set<Op>>, st: Store, known: set<Op>)
    requires LogInv(log) && StoreInv(c, d, log, m, st) && st.inFlight.Some? && m == Note(m, st)
    requires st.knownVV <= known <= All(log) && Closed(known)
    requires st.inFlight.value.payload.ops <= known
    ensures StoreInv(c, d, log, m, CompletePush(st, st.inFlight.value.id, known))
    ensures Durable(CompletePush(st, st.inFlight.value.id, known)) == Durable(st)
  {
    var r := CompletePush(st, st.inFlight.value.id, known);
    forall id | id in m ensures MintOk(c, d, log, r, id, m[id]) {
      assert MintOk(c, d, log, st, id, m[id]);
    }
  }

  /** The row an ack names holds exactly the push in flight. */
  lemma AckedRow(c: Codec, d: nat, log: seq<Row>, m: map<nat, set<Op>>, st: Store, n: nat)
    requires MintsOk(c, d, log, st, m) && m == Note(m, st) && st.inFlight.Some?
    requires 1 <= n <= |log| && log[n - 1].device == d && log[n - 1].pushId == st.inFlight.value.id
    ensures log[n - 1].blob.ops == st.inFlight.value.payload.ops <= Durable(st)
  {
    assert log[n - 1] in log;
    var id := st.inFlight.value.id;
    assert id in m;
    assert MintOk(c, d, log, st, id, m[id]);
  }

  /** What accepting an ack changes for good. */
  function Completed(s: Sys, contig: nat): Sys
    requires s.e.inFlight.Some?
  {
    var known := s.e.known + s.e.inFlight.value.toVV;
    Write(s, CompletePush(s.st, s.e.inFlight.value.id, known))
    .(e := s.e.(known := known, inFlight := None, contig := contig))
  }

  /** The row acked extends what is on disk and known to its own number. */
  lemma AckedPrefix(log: seq<Row>, contig: nat, n: nat, disk: set<Op>, known: set<Op>)
    requires contig <= |log| && Upto(log, contig) <= disk && Upto(log, contig) <= known
    requires 1 <= n <= |log| && log[n - 1].blob.ops <= disk && log[n - 1].blob.ops <= known
    ensures Ingest(contig, n) <= |log| && Upto(log, Ingest(contig, n)) <= disk * known
  {}

  lemma CompletedStore(d: nat, log: seq<Row>, m: map<nat, set<Op>>, residue: set<Op>, s: Sys, n: nat)
    requires LogInv(log) && Sound(d, log, m, residue, s) && m == Note(m, s.st) && s.e.inFlight.Some?
    requires 1 <= n <= |log| && log[n - 1].device == d && log[n - 1].pushId == s.e.inFlight.value.id
    ensures var known := s.e.known + s.e.inFlight.value.toVV;
            && StoreInv(s.e.codec, d, log, m, CompletePush(s.st, s.e.inFlight.value.id, known))
            && Closed(known) && known <= All(log)
            && log[n - 1].blob.ops <= Durable(s.st) && log[n - 1].blob.ops <= known
  {
    var known := s.e.known + s.e.inFlight.value.toVV;
    AckedRow(s.e.codec, d, log, m, s.st, n);
    UptoRow(log, n - 1, |log|);
    CompleteStored(s.e.codec, d, log, m, s.st, known);
  }

  lemma CompletedFields(d: nat, log: seq<Row>, m: map<nat, set<Op>>, residue: set<Op>, e: Engine, st: Store, n: nat)
    requires EngineInv(d, log, m, residue, e, st) && m == Note(m, st) && e.inFlight.Some? && 1 <= n <= |log|
    requires var known := e.known + e.inFlight.value.toVV;
             && Closed(known) && known <= All(log)
             && log[n - 1].blob.ops <= Durable(st) && log[n - 1].blob.ops <= known
    ensures var known := e.known + e.inFlight.value.toVV;
            EngineInv(d, log, m, residue, e.(known := known, inFlight := None, contig := Ingest(e.contig, n)),
                      CompletePush(st, e.inFlight.value.id, known))
  {
    var known := e.known + e.inFlight.value.toVV;
    AckedPrefix(log, e.contig, n, Durable(st), known);
    CompletedEngine(d, log, m, residue, e, st, e.(known := known, inFlight := None, contig := Ingest(e.contig, n)),
                    CompletePush(st, e.inFlight.value.id, known));
  }

  lemma CompletedSound(d: nat, log: seq<Row>, m: map<nat, set<Op>>, residue: set<Op>, s: Sys, n: nat)
    requires LogInv(log) && Safe(d, log, m, residue, s) && m == Note(m, s.st) && s.e.inFlight.Some?
    requires 1 <= n <= |log| && log[n - 1].device == d && log[n - 1].pushId == s.e.inFlight.value.id
    ensures Safe(d, log, m, residue, Completed(s, Ingest(s.e.contig, n)))
  {
    CompletedStore(d, log, m, residue, s, n);
    CompletedFields(d, log, m, residue, s.e, s.st, n);
    var r := Completed(s, Ingest(s.e.contig, n));
    assert Durable(r.st) == Durable(s.st);
    WriteSafe(d, log, m, residue, s, residue, r.e, r.st);
  }

  lemma CompletedEngine(d: nat, log: seq<Row>, m: map<nat, set<Op>>, residue: set<Op>, e: Engine, st: Store,
                        f: Engine, r: Store)
    requires EngineInv(d, log, m, residue, e, st) && m == Note(m, st) && st.inFlight.Some?
    requires f == e.(known := f.known, inFlight := None, contig := f.contig)
    requires r == CompletePush(st, st.inFlight.value.id, f.known)
    requires Closed(f.known) && f.known <= All(log)
    requires f.contig <= |log| && Upto(log, f.contig) <= Durable(st) * f.known
    ensures EngineInv(d, log, m, residue, f, r)
  {
    assert Durable(r) == Durable(st);
  }

  lemma AckedSound(d: nat, log: seq<Row>, m: map<nat, set<Op>>, residue: set<Op>, s: Sys, ack: PushAck)
    requires LogInv(log) && Safe(d, log, m, residue, s) && m == Note(m, s.st)
    requires s.e.inFlight.Some? && ack.id == s.e.inFlight.value.id
    requires 1 <= ack.seqNo <= |log| && log[ack.seqNo - 1].device == d && log[ack.seqNo - 1].pushId == ack.id
    ensures Safe(d, log, m, residue, Acked(s, ack))
  {
    CompletedSound(d, log, m, residue, s, ack.seqNo);
    QuietSound(d, log, m, residue, Completed(s, Ingest(s.e.contig, ack.seqNo)), Acked(s, ack));
  }

  lemma AckAccepted(s: Sys, acks: seq<PushAck>, id: nat)
    requires Accepts(s.e, acks)
    ensures OnAck(s, acks, id) == TryStartPush(Acked(s, acks[0]), id)
  {}

  /** Anything else is reported, and at most ends the push. */
  lemma AckRefused(s: Sys, acks: seq<PushAck>, id: nat)
    requires !Accepts(s.e, acks)
    ensures var r := OnAck(s, acks, id);
            r.st == s.st && r.history == s.history && Quiet(s.e, r.e) && r.e.outbox == s.e.outbox
  {}

  lemma AckRefusedSound(d: nat, log: seq<Row>, m: map<nat, set<Op>>, residue: set<Op>, s: Sys,
                        acks: seq<PushAck>, id: nat)
    requires Safe(d, log, m, residue, s) && !Accepts(s.e, acks)
    ensures Safe(d, log, m, residue, OnAck(s, acks, id))
  {
    AckRefused(s, acks, id);
    QuietSound(d, log, m, residue, s, OnAck(s, acks, id));
  }

  lemma AckStarts(d: nat, log: seq<Row>, m: map<nat, set<Op>>, residue: set<Op>, s: Sys, acks: seq<PushAck>, id: nat)
    requires Accepts(s.e, acks) && LogInv(log) && id !in m
    requires Safe(d, log, m, residue, Acked(s, acks[0])) && CaughtUp(d, Acked(s, acks[0]).e)
    ensures Safe(d, log, m, residue, OnAck(s, acks, id))
  {
    TryStartPushSound(d, log, m, residue, Acked(s, acks[0]), id);
    AckAccepted(s, acks, id);
  }

  lemma FirstAck(d: nat, log: seq<Row>, e: Engine, acks: seq<PushAck>)
    requires TrueAcks(d, log, acks) && Accepts(e, acks)
    ensures acks[0].id == e.inFlight.value.id && 1 <= acks[0].seqNo <= |log|
    ensures log[acks[0].seqNo - 1].device == d && log[acks[0].seqNo - 1].pushId == acks[0].id
  {
    assert acks[0] in acks;
  }

  lemma AckedReady(d: nat, log: seq<Row>, m: map<nat, set<Op>>, residue: set<Op>, s: Sys, ack: PushAck)
    requires LogInv(log) && Safe(d, log, m, residue, s) && m == Note(m, s.st) && CaughtUp(d, s.e)
    requires s.e.inFlight.Some? && ack.id == s.e.inFlight.value.id
    requires 1 <= ack.seqNo <= |log| && log[ack.seqNo - 1].device == d && log[ack.seqNo - 1].pushId == ack.id
    ensures Safe(d, log, m, residue, Acked(s, ack)) && CaughtUp(d, Acked(s, ack).e)
  {
    AckedSound(d, log, m, residue, s, ack);
    StillCaughtUp(d, s, ack);
  }

  lemma StillCaughtUp(d: nat, s: Sys, ack: PushAck)
    requires s.e.inFlight.Some? && CaughtUp(d, s.e)
    ensures CaughtUp(d, Acked(s, ack).e)
  {}

  lemma AckAcceptedSound(d: nat, log: seq<Row>, m: map<nat, set<Op>>, residue: set<Op>, s: Sys,
                         acks: seq<PushAck>, id: nat)
    requires LogInv(log) && Safe(d, log, m, residue, s) && m == Note(m, s.st) && id !in m && CaughtUp(d, s.e)
    requires Accepts(s.e, acks) && 1 <= acks[0].seqNo <= |log|
    requires log[acks[0].seqNo - 1].device == d && log[acks[0].seqNo - 1].pushId == acks[0].id
    ensures Safe(d, log, m, residue, OnAck(s, acks, id))
  {
    AckedReady(d, log, m, residue, s, acks[0]);
    AckStarts(d, log, m, residue, s, acks, id);
  }

  lemma OnAckSound(d: nat, log: seq<Row>, m: map<nat, set<Op>>, residue: set<Op>, s: Sys, acks: seq<PushAck>, id: nat)
    requires LogInv(log) && Safe(d, log, m, residue, s) && m == Note(m, s.st) && id !in m
    requires TrueAcks(d, log, acks)
    requires Accepts(s.e, acks) ==> CaughtUp(d, s.e)
    ensures Safe(d, log, m, residue, OnAck(s, acks, id))
  {
    if Accepts(s.e, acks) {
      FirstAck(d, log, s.e, acks);
      AckAcceptedSound(d, log, m, residue, s, acks, id);
    } else {
      AckRefusedSound(d, log, m, residue, s, acks, id);
    }
  }

  // ---- pull answers ----

  lemma BatchCases(s: Sys, updates: seq<StoredBlob>, complete: bool, id: nat)
    requires s.e.state != Bootstrapping
    ensures OnBatch(s, updates, complete, id) ==
            if complete && s.e.state == Pulling then TryStartPush(Pulled(ApplyRemoteUpdates(s, updates)), id)
            else ApplyRemoteUpdates(s, updates)
  {
    EngineDiscipline.ApplyRemoteTalk(s, updates);
  }

  lemma PulledStarts(d: nat, log: seq<Row>, m: map<nat, set<Op>>, residue: set<Op>, a: Sys, id: nat)
    requires LogInv(log) && Safe(d, log, m, residue, a) && CaughtUp(d, a.e) && id !in m
    ensures Safe(d, log, m, residue, TryStartPush(Pulled(a), id))
  {
    QuietSound(d, log, m, residue, a, Pulled(a));
    TryStartPushSound(d, log, m, residue, Pulled(a), id);
  }

  lemma OnBatchSound(d: nat, log: seq<Row>, m: map<nat, set<Op>>, residue: set<Op>, s: Sys,
                     updates: seq<StoredBlob>, complete: bool, id: nat)
    requires LogInv(log) && Safe(d, log, m, residue, s) && TrueRows(log, updates) && id !in m
    requires complete && s.e.state == Pulling ==> CaughtUp(d, ApplyRemoteUpdates(s, updates).e)
    ensures Safe(d, log, m, residue, OnBatch(s, updates, complete, id))
  {
    if s.e.state == Bootstrapping {
      QuietSound(d, log, m, residue, s, OnBatch(s, updates, complete, id));
    } else {
      var a := ApplyRemoteUpdates(s, updates);
      BatchCases(s, updates, complete, id);
      ApplyRemoteSound(d, log, m, residue, s, updates);
      if complete && s.e.state == Pulling {
        PulledStarts(d, log, m, residue, a, id);
      }
    }
  }

  // ---- the snapshot chain ----

  /** A chain row in memory: what it brought is captured but on no disk. */
  lemma ChainDoc(c: Codec, d: nat, log: seq<Row>, residue: set<Op>, doc: Doc, disk: set<Op>, blob: Blob)
    requires c.Valid() && LogInv(log) && DocInv(d, log, residue, doc, disk)
    requires blob.ops <= All(log)
    requires forall o :: o in All(log) && o.peer.device == d ==> o in disk
    ensures DocInv(d, log, residue + blob.ops, ApplyRemote(c, doc, [blob]), disk)
    ensures ApplyRemote(c, doc, [blob]).ops == doc.ops + blob.ops
    ensures blob.ops <= BlobRange(c, [blob]) <= All(log) && Closed(BlobRange(c, [blob]))
  {
    assert [blob][..0] == [];
    RangeCovers(c, [blob]);
    assert Closed(Upto(log, |log|));
    BoundLeast(c, blob.ops, All(log));
    assert BlobOps([blob]) == BlobOps([blob][..0]) + blob.ops == blob.ops;
    assert BlobRange(c, [blob]) == BlobRange(c, [blob][..0]) + c.bound(blob.ops) == c.bound(blob.ops);
    ImportedDoc(c, d, log, residue, doc, disk, [blob]);
  }

  lemma ChainRowSound(d: nat, log: seq<Row>, m: map<nat, set<Op>>, residue: set<Op>, s: Sys, blob: Blob)
    requires LogInv(log) && Safe(d, log, m, residue, s) && blob.ops <= All(log)
    ensures var c := s.e.codec;
            var r := s.(e := s.e.(doc := ApplyRemote(c, s.e.doc, [blob]), known := s.e.known + BlobRange(c, [blob])));
            Safe(d, log, m, residue + blob.ops, r)
  {
    OwnLoggedAll(s.e.codec, d, log, Note(m, s.st), s.st);
    ChainDoc(s.e.codec, d, log, residue, s.e.doc, Durable(s.st), blob);
  }

  /** The checkpoint that ends a bootstrap, one write at a time. Between the
      two writes the recorded version vector is ahead of what is stored. */
  lemma CheckpointStored(c: Codec, d: nat, log: seq<Row>, m: map<nat, set<Op>>, st: Store,
                         known: set<Op>, cutoff: nat, payload: Blob)
    requires StoreInv(c, d, log, m, st)
    requires st.knownVV <= known <= All(log) && Closed(known)
    requires Durable(st) <= payload.ops && Within(d, payload.ops, All(log)) && ClosedFor(d, payload.ops)
    requires forall row :: row in st.wal ==> row.localSeq <= cutoff
    ensures var k := WriteKnown(st, known);
            && StoreInv(c, d, log, m, k) && Durable(k) == Durable(st)
            && StoreInv(c, d, log, m, WriteSnapshot(k, cutoff, payload))
            && Durable(WriteSnapshot(k, cutoff, payload)) == payload.ops
            && WriteSnapshot(k, cutoff, payload).wal == []
  {
    var k := WriteKnown(st, known);
    assert Durable(k) == Durable(st);
    StoreGrows(c, d, log, m, st, k);
    DurableWriteSnapshot(k, cutoff, payload);
    RetainedNothing(k.wal, cutoff);
    StoreGrows(c, d, log, m, k, WriteSnapshot(k, cutoff, payload));
  }

  lemma CheckpointDoc(c: Codec, d: nat, log: seq<Row>, residue: set<Op>, doc: Doc, disk: set<Op>)
    requires c.Valid() && DocInv(d, log, residue, doc, disk)
    ensures DocInv(d, log, residue, MarkPersistedAt(doc, c.bound(doc.ops)), doc.ops)
  {
    CapturedDoc(c, d, log, residue, doc, disk);
    assert residue <= doc.ops;
  }

  lemma CheckpointSound(d: nat, log: seq<Row>, m: map<nat, set<Op>>, residue: set<Op>, s: Sys)
    requires LogInv(log) && Safe(d, log, m, residue, s)
    ensures Safe(d, log, m, residue, Checkpoint(s))
    ensures Durable(Checkpoint(s).st) == s.e.doc.ops && Checkpoint(s).st.knownVV == s.e.known
  {
    var c := s.e.codec;
    var payload := SnapshotBlob(c, s.e.doc);
    CheckpointDoc(c, d, log, residue, s.e.doc, Durable(s.st));
    CheckpointStored(c, d, log, m, s.st, s.e.known, s.e.lastLocalSeq, payload);
    var k := WriteKnown(s.st, s.e.known);
    HistAppend(c, d, log, m, s.history, s.st, k);
    HistAppend(c, d, log, m, s.history + [k], k, WriteSnapshot(k, s.e.lastLocalSeq, payload));
  }

  lemma AdvanceSound(d: nat, log: seq<Row>, m: map<nat, set<Op>>, residue: set<Op>, s: Sys, n: nat)
    requires Safe(d, log, m, residue, s) && n <= |log|
    requires Upto(log, n) <= Durable(s.st) && Upto(log, n) <= s.st.knownVV
    ensures Safe(d, log, m, residue, Repull(s, n))
  {}

  lemma OnSnapshotSound(d: nat, log: seq<Row>, m: map<nat, set<Op>>, residue: set<Op>, s: Sys,
                        upTo: nat, blob: Blob, complete: bool)
    requires LogInv(log) && Safe(d, log, m, residue, s) && s.e.state == Bootstrapping
    requires blob.ops <= All(log) && upTo <= |log|
    requires Upto(log, upTo) <= s.e.doc.ops + blob.ops && Upto(log, upTo) <= s.e.known + blob.ops
    ensures Safe(d, log, m, residue + blob.ops, OnSnapshot(s, upTo, blob, complete))
  {
    var c := s.e.codec;
    var i := s.(e := s.e.(doc := ApplyRemote(c, s.e.doc, [blob]), known := s.e.known + BlobRange(c, [blob])));
    ChainRowSound(d, log, m, residue, s, blob);
    OwnLoggedAll(c, d, log, Note(m, s.st), s.st);
    ChainDoc(c, d, log, residue, s.e.doc, Durable(s.st), blob);
    if complete {
      CheckpointSound(d, log, m, residue + blob.ops, i);
      AdvanceSound(d, log, m, residue + blob.ops, Checkpoint(i), upTo);
    }
  }

  lemma SendSafe(d: nat, log: seq<Row>, m: map<nat, set<Op>>, residue: set<Op>, s: Sys, f: ClientFrame)
    requires Safe(d, log, m, residue, s) && FrameOk(log, Note(m, s.st), Durable(s.st), f)
    ensures Safe(d, log, m, residue, s.(e := Send(s.e, f)))
  {
    QuietSound(d, log, m, residue, s, s.(e := Send(s.e, f)));
  }

  lemma RequestSound(d: nat, log: seq<Row>, m: map<nat, set<Op>>, residue: set<Op>, s: Sys,
                     floor: nat, base: Option<SnapshotBase>)
    requires Safe(d, log, m, residue, s)
    ensures Safe(d, log, m, residue, s.(e := OnSnapshotRequest(s.e, floor, base)))
  {
    if base.Some? && !(base.value.vv <= s.e.known) {
      QuietSound(d, log, m, residue, s, s.(e := OnSnapshotRequest(s.e, floor, base)));
    } else {
      SendSafe(d, log, m, residue, s, Produced(s.e, floor, base));
    }
  }

  // ---- the other calls ----

  lemma NotifiedEngine(d: nat, log: seq<Row>, m: map<nat, set<Op>>, residue: set<Op>, e: Engine, st: Store, n: nat)
    requires EngineInv(d, log, m, residue, e, st) && n <= |log| && Upto(log, n) <= Durable(st)
    ensures EngineInv(d, log, m, residue, QueueAck(e.(durable := n)), WriteAcked(st, n))
  {
    assert Durable(WriteAcked(st, n)) == Durable(st);
  }

  lemma NotifySound(d: nat, log: seq<Row>, m: map<nat, set<Op>>, residue: set<Op>, s: Sys, seqNo: nat)
    requires LogInv(log) && Safe(d, log, m, residue, s)
    ensures Safe(d, log, m, residue, NotifyDurable(s, seqNo))
  {
    var n := if seqNo < s.e.contig then seqNo else s.e.contig;
    if s.e.durable < n {
      UptoMonotone(log, n, s.e.contig);
      AckedStored(s.e.codec, d, log, m, s.st, n);
      NotifiedEngine(d, log, m, residue, s.e, s.st, n);
      WriteSafe(d, log, m, residue, s, residue, QueueAck(s.e.(durable := n)), WriteAcked(s.st, n));
    }
  }

  lemma AckedStored(c: Codec, d: nat, log: seq<Row>, m: map<nat, set<Op>>, st: Store, n: nat)
    requires StoreInv(c, d, log, m, st) && n <= |log|
    requires Upto(log, n) <= Durable(st) && Upto(log, n) <= st.knownVV
    ensures StoreInv(c, d, log, m, WriteAcked(st, n)) && Durable(WriteAcked(st, n)) == Durable(st)
  {
    var r := WriteAcked(st, n);
    assert Durable(r) == Durable(st);
    forall id | id in Note(m, st) ensures MintOk(c, d, log, r, id, Note(m, st)[id]) {
      assert MintOk(c, d, log, st, id, Note(m, st)[id]);
    }
  }

  lemma CommitSound(d: nat, log: seq<Row>, m: map<nat, set<Op>>, residue: set<Op>, s: Sys, ops: set<Op>)
    requires Safe(d, log, m, residue, s)
    requires OwnedBy(d, ops) && ClosedFor(d, s.e.doc.ops + ops)
    ensures Safe(d, log, m, residue, Apply(s, Commit(ops)))
  {
    var doc := s.e.doc.(ops := s.e.doc.ops + ops);
    assert doc.ops * doc.persisted == s.e.doc.ops * s.e.doc.persisted;
  }

  lemma FoldsSound(d: nat, log: seq<Row>, m: map<nat, set<Op>>, residue: set<Op>, s: Sys, maxRows: nat, maxBytes: nat)
    requires LogInv(log) && Safe(d, log, m, residue, s)
    ensures Safe(d, log, m, residue, SnapshotIfWalExceeds(s, maxRows, maxBytes))
    ensures Safe(d, log, m, residue, ForceSnapshot(s))
  {
    CaptureSound(d, log, m, residue, s);
    FoldSound(d, log, m, residue, Capture(s));
  }

  // ---- restart ----

  lemma {:induction false} PayloadsOps(c: Codec, wal: seq<WalRow>)
    ensures BlobOps(Payloads(wal)) == WalOps(wal)
  {
    if wal != [] {
      assert Payloads(wal)[..|wal| - 1] == Payloads(wal[..|wal| - 1]);
      PayloadsOps(c, wal[..|wal| - 1]);
    }
  }

  lemma {:induction false} BlobOpsConcat(a: seq<Blob>, b: seq<Blob>)
    ensures BlobOps(a + b) == BlobOps(a) + BlobOps(b)
  {
    if b == [] {
      assert a + b == a;
    } else {
      assert (a + b)[..|a + b| - 1] == a + b[..|b| - 1];
      BlobOpsConcat(a, b[..|b| - 1]);
    }
  }

  /** A boot recovers exactly what is on disk. */
  lemma ReplayIsDurable(c: Codec, st: Store)
    ensures BlobOps(ReplayBlobs(st)) == Durable(st)
  {
    PayloadsOps(c, st.wal);
    var snap := if st.snapshot.Some? then [st.snapshot.value.payload] else [];
    BlobOpsConcat(snap, Payloads(st.wal));
    if st.snapshot.Some? {
      assert snap[..0] == [];
      assert BlobOps(snap) == BlobOps(snap[..0]) + st.snapshot.value.payload.ops;
    }
  }

  lemma {:induction false} RangeOwn(c: Codec, d: nat, blobs: seq<Blob>, s: set<Op>)
    requires c.Valid() && BlobOps(blobs) <= s && ClosedFor(d, s)
    ensures forall o :: o in BlobRange(c, blobs) && o.peer.device == d ==> o in s
  {
    if blobs != [] {
      RangeOwn(c, d, blobs[..|blobs| - 1], s);
      BoundOwn(c, d, blobs[|blobs| - 1].ops, s);
    }
  }

  lemma BootedDoc(c: Codec, d: nat, log: seq<Row>, m: map<nat, set<Op>>, st: Store)
    requires c.Valid() && StoreInv(c, d, log, m, st)
    ensures var doc := ApplyRemote(c, EMPTY_DOC, ReplayBlobs(st));
            doc.ops == Durable(st) && DocInv(d, log, {}, doc, Durable(st))
  {
    var blobs := ReplayBlobs(st);
    ReplayIsDurable(c, st);
    RangeCovers(c, blobs);
    RangeOwn(c, d, blobs, Durable(st));
    var doc := ApplyRemote(c, EMPTY_DOC, blobs);
    assert doc == Doc(Durable(st), BlobRange(c, blobs));
    assert doc.ops * doc.persisted == Durable(st);
  }

  lemma BootedEngine(docId: nat, c: Codec, d: nat, log: seq<Row>, m: map<nat, set<Op>>, st: Store)
    requires c.Valid() && StoreInv(c, d, log, m, st)
    ensures EngineInv(d, log, Note(m, st), {}, Boot(docId, c, st), st)
    ensures Boot(docId, c, st).doc.ops == Durable(st)
  {
    BootedDoc(c, d, log, m, st);
  }

  /** Whatever write a crash follows, the device that boots is sound, with no
      residue. */
  lemma RestartSound(docId: nat, c: Codec, d: nat, log: seq<Row>, m: map<nat, set<Op>>, st: Store)
    requires c.Valid() && StoreInv(c, d, log, m, st)
    ensures Safe(d, log, Note(m, st), {}, Sys(Boot(docId, c, st), st, [st]))
    ensures Boot(docId, c, st).doc.ops == Durable(st)
  {
    BootedEngine(docId, c, d, log, m, st);
    Noted(c, d, log, m, st);
  }

  lemma Noted(c: Codec, d: nat, log: seq<Row>, m: map<nat, set<Op>>, st: Store)
    requires StoreInv(c, d, log, m, st)
    ensures StoreInv(c, d, log, Note(m, st), st) && Hist(c, d, log, Note(m, st), [st], st)
  {
    assert Note(Note(m, st), st) == Note(m, st);
    assert forall h :: h in [st] ==> h == st;
  }
}

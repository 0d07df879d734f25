/** What holds of one device and its storage in every reachable world, and of
    its storage at every point a crash can hit. */
module NodeInvariant {
  import opened Wrappers
  import opened Operations
  import opened Protocol
  import opened LocalStore
  import opened Documents
  import opened EngineSpec
  import opened EngineDiscipline
  import opened EngineCoherence
  import opened World
  import opened LogFacts

  /** A push made durable: some of the device's own operations, on disk, nothing
      missing before them but what the log has, and either known to the
      server or the one in flight. */
  ghost predicate MintOk(c: Codec, d: nat, log: seq<Row>, st: Store, id: nat, ops: set<Op>) {
    && OwnedBy(d, ops) && ops != {}
    && ops <= Durable(st)
    && c.bound(ops) <= ops + All(log)
    && (ops <= st.knownVV || (st.inFlight.Some? && st.inFlight.value.id == id))
  }

  ghost predicate MintsOk(c: Codec, d: nat, log: seq<Row>, st: Store, m: map<nat, set<Op>>) {
    && (forall id :: id in m ==> MintOk(c, d, log, st, id, m[id]))
    && (forall i, j :: i in m && j in m && i != j ==> m[i] !! m[j])
    && (forall r :: r in log && r.device == d ==> r.pushId in m && m[r.pushId] == r.blob.ops)
  }

  ghost predicate WalTrue(log: seq<Row>, wal: seq<WalRow>) {
    forall row :: row in wal && row.serverSeq.Some? ==>
      1 <= row.serverSeq.value <= |log| && row.payload == log[row.serverSeq.value - 1].blob
  }

  ghost predicate PushOk(log: seq<Row>, payload: Blob, toVV: set<Op>) {
    Closed(toVV) && payload.ops <= toVV <= payload.ops + All(log)
  }

  /** Storage at rest or between two writes of a call that began with the
      pushes `m` on record. */
  ghost predicate StoreInv(c: Codec, d: nat, log: seq<Row>, m: map<nat, set<Op>>, st: Store) {
    && Ordered(st)
    && Closed(st.knownVV) && st.knownVV <= All(log)
    && st.ackedSeq <= |log|
    && Upto(log, st.ackedSeq) <= Durable(st) && Upto(log, st.ackedSeq) <= st.knownVV
    && Within(d, Durable(st), All(log)) && ClosedFor(d, Durable(st))
    && WalTrue(log, st.wal)
    && MintsOk(c, d, log, st, Note(m, st))
    && (st.inFlight.Some? && st.inFlight.value.id in m ==> m[st.inFlight.value.id] == st.inFlight.value.payload.ops)
    && (st.inFlight.Some? ==> PushOk(log, st.inFlight.value.payload, st.inFlight.value.toVV))
  }

  /** The doc against what is on disk: it holds all of that, and what it has
      captured is exactly that and the residue. */
  ghost predicate DocInv(d: nat, log: seq<Row>, residue: set<Op>, doc: Doc, disk: set<Op>) {
    && disk <= doc.ops
    && Within(d, doc.ops, All(log)) && ClosedFor(d, doc.ops)
    && residue <= All(log)
    && doc.ops * doc.persisted == disk + residue
    && OwnedBy(d, doc.ops - doc.persisted)
    && (forall o :: o in doc.persisted && o.peer.device == d ==> o in doc.ops)
  }

  /** A queued or sent frame says only what is so, of a device with `disk` on
      its disk. */
  ghost predicate FrameOk(log: seq<Row>, m: map<nat, set<Op>>, disk: set<Op>, f: ClientFrame) {
    && (f.Ack? ==> f.lastAcked <= |log| && Upto(log, f.lastAcked) <= disk)
    && (f.PullUpdates? ==> f.since <= |log| && Upto(log, f.since) <= disk)
    && (f.PushUpdates? ==> forall p :: p in f.updates ==> p.id in m && m[p.id] == p.blob.ops)
  }

  ghost predicate OutboxOk(log: seq<Row>, m: map<nat, set<Op>>, disk: set<Op>, outbox: seq<ClientFrame>) {
    forall f :: f in outbox ==> FrameOk(log, m, disk, f)
  }

  /** The engine against its storage. */
  ghost predicate EngineInv(d: nat, log: seq<Row>, m: map<nat, set<Op>>, residue: set<Op>, e: Engine, st: Store) {
    && e.contig <= |log|
    && Upto(log, e.contig) <= Durable(st) && Upto(log, e.contig) <= st.knownVV
    && st.knownVV <= e.known && Closed(e.known) && e.known <= All(log)
    && DocInv(d, log, residue, e.doc, Durable(st))
    && OutboxOk(log, Note(m, st), Durable(st), e.outbox)
    && PushAgrees(e.inFlight, st.inFlight)
    && StatsAgree(e, st)
  }

  ghost predicate Sound(d: nat, log: seq<Row>, m: map<nat, set<Op>>, residue: set<Op>, s: Sys) {
    && s.e.codec.Valid()
    && StoreInv(s.e.codec, d, log, m, s.st)
    && EngineInv(d, log, m, residue, s.e, s.st)
  }

  /** The stores a call went through: each sound, none with less on disk than
      the call began with. */
  ghost predicate Hist(c: Codec, d: nat, log: seq<Row>, m: map<nat, set<Op>>, history: seq<Store>, st: Store) {
    && history != [] && history[|history| - 1] == st
    && forall h :: h in history ==> StoreInv(c, d, log, m, h) && Durable(history[0]) <= Durable(h)
  }

  /** Sound, with every store of the call so far. */
  ghost predicate Safe(d: nat, log: seq<Row>, m: map<nat, set<Op>>, residue: set<Op>, s: Sys) {
    Sound(d, log, m, residue, s) && Hist(s.e.codec, d, log, m, s.history, s.st)
  }

  /** The server knows of everything here that this device did not mint. */
  ghost predicate CaughtUp(d: nat, e: Engine) {
    Within(d, e.doc.ops, e.known)
  }

  // ---- consequences ----

  /** Every operation of this device that is in the log is on its disk. */
  lemma OwnLogged(c: Codec, d: nat, log: seq<Row>, m: map<nat, set<Op>>, st: Store, o: Op)
    requires LogInv(log) && MintsOk(c, d, log, st, m)
    requires o in All(log) && o.peer.device == d
    ensures o in Durable(st)
  {
    var i := UptoHas(log, |log|, o);
    assert log[i] in log;
    assert OwnedBy(log[i].device, log[i].blob.ops);
    assert MintOk(c, d, log, st, log[i].pushId, m[log[i].pushId]);
  }

  lemma OwnLoggedAll(c: Codec, d: nat, log: seq<Row>, m: map<nat, set<Op>>, st: Store)
    requires LogInv(log) && MintsOk(c, d, log, st, m)
    ensures forall o :: o in All(log) && o.peer.device == d ==> o in Durable(st)
  {
    forall o | o in All(log) && o.peer.device == d ensures o in Durable(st) {
      OwnLogged(c, d, log, m, st, o);
    }
  }

  lemma QuietSound(d: nat, log: seq<Row>, m: map<nat, set<Op>>, residue: set<Op>, s: Sys, r: Sys)
    requires Safe(d, log, m, residue, s)
    requires r.st == s.st && r.history == s.history && Quiet(s.e, r.e)
    requires OutboxOk(log, Note(m, s.st), Durable(s.st), r.e.outbox)
    ensures Safe(d, log, m, residue, r)
  {}

  lemma HistAppend(c: Codec, d: nat, log: seq<Row>, m: map<nat, set<Op>>, history: seq<Store>, st: Store, next: Store)
    requires Hist(c, d, log, m, history, st) && StoreInv(c, d, log, m, next) && Durable(st) <= Durable(next)
    ensures Hist(c, d, log, m, history + [next], next)
  {
    assert st in history;
    var r := history + [next];
    assert r[0] == history[0];
    forall h | h in r ensures StoreInv(c, d, log, m, h) && Durable(r[0]) <= Durable(h) {
      assert h in history || h == next;
    }
  }

  /** One more storage write, and what the engine becomes with it. */
  lemma WriteSafe(d: nat, log: seq<Row>, m: map<nat, set<Op>>, r0: set<Op>, s: Sys, r: set<Op>, e: Engine, st: Store)
    requires Safe(d, log, m, r0, s) && e.codec == s.e.codec
    requires StoreInv(e.codec, d, log, m, st) && EngineInv(d, log, m, r, e, st)
    requires Durable(s.st) <= Durable(st)
    ensures Safe(d, log, m, r, Sys(e, st, s.history + [st]))
  {
    HistAppend(e.codec, d, log, m, s.history, s.st, st);
  }

  // ---- capture and fold ----

  /** More on disk, nothing else different. */
  lemma StoreGrows(c: Codec, d: nat, log: seq<Row>, m: map<nat, set<Op>>, a: Store, b: Store)
    requires StoreInv(c, d, log, m, a)
    requires Ordered(b) && WalTrue(log, b.wal)
    requires b.ackedSeq == a.ackedSeq && b.inFlight == a.inFlight
    requires a.knownVV <= b.knownVV && Closed(b.knownVV) && b.knownVV <= All(log)
    requires Durable(a) <= Durable(b)
    requires Within(d, Durable(b), All(log)) && ClosedFor(d, Durable(b))
    ensures StoreInv(c, d, log, m, b)
  {
    var n := Note(m, a);
    assert Note(m, b) == n;
    forall id | id in n ensures MintOk(c, d, log, b, id, n[id]) {
      assert MintOk(c, d, log, a, id, n[id]);
    }
  }

  /** Adding to the disk what a doc has not captured leaves the device's own
      operations on disk closed. */
  lemma CaptureClosed(d: nat, log: seq<Row>, residue: set<Op>, doc: Doc, disk: set<Op>)
    requires DocInv(d, log, residue, doc, disk)
    requires forall o :: o in All(log) && o.peer.device == d ==> o in disk
    ensures ClosedFor(d, disk + (doc.ops - doc.persisted))
    ensures disk + (doc.ops - doc.persisted) + residue == doc.ops
  {
    var r := disk + (doc.ops - doc.persisted);
    forall a, b | b in r && UpTo(a, b) && b.peer.device == d ensures a in r {
      assert b in doc.ops && a in doc.ops;
      if a in doc.persisted {
        assert a in doc.ops * doc.persisted;
        assert a in residue ==> a in All(log);
      }
    }
    assert doc.ops == doc.ops * doc.persisted + (doc.ops - doc.persisted);
  }

  lemma CaptureStored(d: nat, log: seq<Row>, m: map<nat, set<Op>>, residue: set<Op>, s: Sys)
    requires LogInv(log) && Sound(d, log, m, residue, s)
    ensures var st := AppendLocal(s.st, PendingExport(s.e.codec, s.e.doc));
            && StoreInv(s.e.codec, d, log, m, st)
            && Durable(st) == Durable(s.st) + (s.e.doc.ops - s.e.doc.persisted)
            && Durable(st) + residue == s.e.doc.ops
  {
    var blob := PendingExport(s.e.codec, s.e.doc);
    var st := AppendLocal(s.st, blob);
    DurableAppendLocal(s.st, blob);
    OwnLoggedAll(s.e.codec, d, log, Note(m, s.st), s.st);
    CaptureClosed(d, log, residue, s.e.doc, Durable(s.st));
    StoreGrows(s.e.codec, d, log, m, s.st, st);
  }

  lemma CapturedDoc(c: Codec, d: nat, log: seq<Row>, residue: set<Op>, doc: Doc, disk: set<Op>)
    requires c.Valid() && DocInv(d, log, residue, doc, disk)
    ensures DocInv(d, log, residue, MarkPersistedAt(doc, c.bound(doc.ops)), disk + (doc.ops - doc.persisted))
    ensures doc.ops <= c.bound(doc.ops)
  {
    assert c.Bounded(doc.ops);
    BoundOwn(c, d, doc.ops, doc.ops);
    var r := MarkPersistedAt(doc, c.bound(doc.ops));
    assert r.ops * r.persisted == doc.ops == doc.ops * doc.persisted + (doc.ops - doc.persisted);
  }

  /** What the capture of `blob` makes of the engine. */
  function CapturedEngine(e: Engine, blob: Blob): Engine {
    e.(lastLocalSeq := e.lastLocalSeq + 1,
       walRows := e.walRows + 1,
       walBytes := e.walBytes + blob.bytes,
       doc := MarkPersistedAt(e.doc, OplogVV(e.codec, e.doc)))
  }

  lemma CapturedEngineInv(d: nat, log: seq<Row>, m: map<nat, set<Op>>, residue: set<Op>, s: Sys)
    requires LogInv(log) && Sound(d, log, m, residue, s)
    ensures var blob := PendingExport(s.e.codec, s.e.doc);
            EngineInv(d, log, m, residue, CapturedEngine(s.e, blob), AppendLocal(s.st, blob))
  {
    var blob := PendingExport(s.e.codec, s.e.doc);
    CapturedDoc(s.e.codec, d, log, residue, s.e.doc, Durable(s.st));
    CaptureStored(d, log, m, residue, s);
    WalOpsAppend(s.st.wal, WalRow(s.st.nextLocalSeq + 1, None, blob));
  }

  lemma CaptureCases(s: Sys)
    requires HasUncaptured(s.e.codec, s.e.doc) && s.e.lastLocalSeq == s.st.nextLocalSeq
    ensures var blob := PendingExport(s.e.codec, s.e.doc);
            var st := AppendLocal(s.st, blob);
            Capture(s) == Sys(CapturedEngine(s.e, blob), st, s.history + [st])
  {}

  lemma CaptureSound(d: nat, log: seq<Row>, m: map<nat, set<Op>>, residue: set<Op>, s: Sys)
    requires LogInv(log) && Safe(d, log, m, residue, s)
    ensures Safe(d, log, m, residue, Capture(s))
    ensures Capture(s).e.doc.ops <= Capture(s).e.doc.persisted
    ensures Durable(Capture(s).st) + residue == s.e.doc.ops
  {
    CapturedDoc(s.e.codec, d, log, residue, s.e.doc, Durable(s.st));
    if HasUncaptured(s.e.codec, s.e.doc) {
      var blob := PendingExport(s.e.codec, s.e.doc);
      CaptureStored(d, log, m, residue, s);
      CapturedEngineInv(d, log, m, residue, s);
      CaptureCases(s);
      WriteSafe(d, log, m, residue, s, residue, CapturedEngine(s.e, blob), AppendLocal(s.st, blob));
    }
  }

  lemma FoldSound(d: nat, log: seq<Row>, m: map<nat, set<Op>>, residue: set<Op>, s: Sys)
    requires LogInv(log) && Safe(d, log, m, residue, s)
    requires s.e.doc.ops <= s.e.doc.persisted
    ensures Safe(d, log, m, residue, WriteLocalSnapshot(s))
    ensures Durable(WriteLocalSnapshot(s).st) == s.e.doc.ops
  {
    var payload := SnapshotBlob(s.e.codec, s.e.doc);
    var st := WriteSnapshot(s.st, s.e.lastLocalSeq, payload);
    DurableWriteSnapshot(s.st, s.e.lastLocalSeq, payload);
    RetainedNothing(s.st.wal, s.e.lastLocalSeq);
    StoreGrows(s.e.codec, d, log, m, s.st, st);
    WriteSafe(d, log, m, residue, s, residue, WriteLocalSnapshot(s).e, st);
  }

  // ---- pushing ----

  /** What the doc declares is what a push of it carries and what is known. */
  lemma MintBound(c: Codec, d: nat, doc: Doc, known: set<Op>)
    requires c.Valid() && Closed(known) && Within(d, doc.ops, known) && ClosedFor(d, doc.ops)
    ensures doc.ops <= c.bound(doc.ops) <= (doc.ops - known) + known && Closed(c.bound(doc.ops))
    ensures c.bound(doc.ops - known) <= (doc.ops - known) + known
  {
    var ops := doc.ops - known;
    assert c.Bounded(doc.ops) && c.Bounded(ops);
    var rest := ops + known;
    forall a, b | b in rest && UpTo(a, b) ensures a in rest {
      if b in ops {
        assert b.peer.device == d;
      }
    }
  }

  /** A push minted of what the server is not known to have is the device's
      own, on disk, and disjoint from every push made durable before. */
  lemma MintSound(c: Codec, d: nat, log: seq<Row>, m: map<nat, set<Op>>, st: Store, doc: Doc, known: set<Op>, id: nat)
    requires c.Valid() && LogInv(log) && StoreInv(c, d, log, m, st) && st.inFlight == None && id !in m
    requires Closed(known) && st.knownVV <= known <= All(log)
    requires Within(d, doc.ops, known) && ClosedFor(d, doc.ops) && !(doc.ops <= known)
    requires forall o :: o in doc.ops && o.peer.device == d ==> o in Durable(st)
    ensures var push := InFlightPush(id, Seal(c, doc.ops - known), known, OplogVV(c, doc));
            StoreInv(c, d, log, m, PutInFlight(st, push))
  {
    var ops := doc.ops - known;
    var vv := c.bound(doc.ops);
    MintBound(c, d, doc, known);
    var push := InFlightPush(id, Seal(c, ops), known, vv);
    var r := PutInFlight(st, push);
    assert Durable(r) == Durable(st);
    assert MintOk(c, d, log, r, id, ops);
    var n := Note(m, r);
    forall i | i in n ensures MintOk(c, d, log, r, i, n[i]) {
      if i != id {
        assert MintOk(c, d, log, st, i, m[i]);
      }
    }
    forall i, j | i in n && j in n && i != j ensures n[i] !! n[j] {
      if i == id {
        assert MintOk(c, d, log, st, j, m[j]);
      } else if j == id {
        assert MintOk(c, d, log, st, i, m[i]);
      }
    }
  }

  lemma SendPushSound(d: nat, log: seq<Row>, m: map<nat, set<Op>>, residue: set<Op>, s: Sys)
    requires Safe(d, log, m, residue, s) && s.e.inFlight.Some?
    ensures Safe(d, log, m, residue, SendPush(s))
  {}

  lemma OwnOnDisk(d: nat, log: seq<Row>, m: map<nat, set<Op>>, residue: set<Op>, s: Sys)
    requires LogInv(log) && Sound(d, log, m, residue, s)
    ensures forall o :: o in s.e.doc.ops * s.e.doc.persisted && o.peer.device == d ==> o in Durable(s.st)
  {
    OwnLoggedAll(s.e.codec, d, log, Note(m, s.st), s.st);
    forall o | o in s.e.doc.ops * s.e.doc.persisted && o.peer.device == d ensures o in Durable(s.st) {
      assert o in Durable(s.st) + residue;
    }
  }

  lemma FreshPushSound(d: nat, log: seq<Row>, m: map<nat, set<Op>>, residue: set<Op>, c: Sys, id: nat)
    requires LogInv(log) && Safe(d, log, m, residue, c)
    requires CaughtUp(d, c.e) && id !in m && c.e.inFlight == None && c.e.doc.ops <= c.e.doc.persisted
    requires !(c.e.doc.ops <= c.e.known)
    ensures var blob := Seal(c.e.codec, c.e.doc.ops - c.e.known);
            var toVV := OplogVV(c.e.codec, c.e.doc);
            var w := Write(c, PutInFlight(c.st, InFlightPush(id, blob, c.e.known, toVV)));
            Safe(d, log, m, residue, w.(e := c.e.(inFlight := Some(InFlight(id, blob, toVV)))))
  {
    var blob := Seal(c.e.codec, c.e.doc.ops - c.e.known);
    var toVV := OplogVV(c.e.codec, c.e.doc);
    OwnOnDisk(d, log, m, residue, c);
    MintSound(c.e.codec, d, log, m, c.st, c.e.doc, c.e.known, id);
    var w := Write(c, PutInFlight(c.st, InFlightPush(id, blob, c.e.known, toVV)));
    assert Durable(w.st) == Durable(c.st);
    assert Note(m, w.st) == m[id := blob.ops];
    assert Note(m, c.st) == m;
    WriteSafe(d, log, m, residue, c, residue, c.e.(inFlight := Some(InFlight(id, blob, toVV))), w.st);
  }

  lemma TryStartPushSound(d: nat, log: seq<Row>, m: map<nat, set<Op>>, residue: set<Op>, s: Sys, id: nat)
    requires LogInv(log) && Safe(d, log, m, residue, s)
    requires CaughtUp(d, s.e) && id !in m
    ensures Safe(d, log, m, residue, TryStartPush(s, id))
  {
    if s.e.state == Idle {
      if s.e.inFlight.Some? {
        SendPushSound(d, log, m, residue, s);
      } else {
        CaptureSound(d, log, m, residue, s);
        var c := Capture(s);
        var delta := ExportSince(c.e.codec, c.e.doc, c.e.known);
        if delta.Some? {
          if c.e.doc.ops <= c.e.known { BoundLeast(c.e.codec, c.e.doc.ops, c.e.known); }
          FreshPushSound(d, log, m, residue, c, id);
          var toVV := OplogVV(c.e.codec, c.e.doc);
          var w := Write(c, PutInFlight(c.st, InFlightPush(id, delta.value, c.e.known, toVV)));
          SendPushSound(d, log, m, residue, w.(e := c.e.(inFlight := Some(InFlight(id, delta.value, toVV)))));
        }
      }
    }
  }

  // ---- rows from the server ----

  lemma RowsCarry(c: Codec, log: seq<Row>, updates: seq<StoredBlob>, known: set<Op>)
    requires c.Valid() && LogInv(log) && TrueRows(log, updates)
    ensures BlobOps(Blobs(updates)) <= All(log) && BlobRange(c, Blobs(updates)) <= All(log)
    ensures BlobOps(Blobs(updates)) <= BlobRange(c, Blobs(updates)) && Closed(BlobRange(c, Blobs(updates)))
  {
    var blobs := Blobs(updates);
    RangeCovers(c, blobs);
    forall b | b in blobs ensures b.ops <= All(log) && c.bound(b.ops) <= All(log) {
      var i :| 0 <= i < |blobs| && blobs[i] == b;
      assert updates[i] in updates;
      UptoRow(log, updates[i].seqNo - 1, |log|);
      assert Closed(Upto(log, |log|));
      BoundLeast(c, b.ops, All(log));
    }
    BlobsWithin(c, blobs, All(log), All(log));
  }

  /** Importing server rows adds what they carry and captures exactly that:
      no local operation is skipped by the capture cursor's advance. */
  lemma ImportedDoc(c: Codec, d: nat, log: seq<Row>, residue: set<Op>, doc: Doc, disk: set<Op>, blobs: seq<Blob>)
    requires c.Valid() && LogInv(log) && DocInv(d, log, residue, doc, disk)
    requires BlobOps(blobs) <= BlobRange(c, blobs) <= All(log)
    requires forall o :: o in All(log) && o.peer.device == d ==> o in disk
    ensures DocInv(d, log, residue, ApplyRemote(c, doc, blobs), disk + BlobOps(blobs))
  {
    var r := ApplyRemote(c, doc, blobs);
    assert disk <= doc.ops * doc.persisted;
    forall o | o in r.ops * r.persisted ensures o in disk + BlobOps(blobs) + residue {
      if o !in BlobOps(blobs) && o !in doc.persisted {
        assert o in doc.ops - doc.persisted && o in All(log);
        assert o in disk;
      } else if o !in BlobOps(blobs) {
        assert o in doc.ops * doc.persisted;
      }
    }
    assert disk + residue <= r.ops * r.persisted;
    assert r.ops * r.persisted == disk + BlobOps(blobs) + residue;
    forall a, b | b in r.ops && UpTo(a, b) && b.peer.device == d ensures a in r.ops {
      if b in BlobOps(blobs) { assert b in disk; }
    }
  }

  /** The store after the first `i` rows of a batch have been mirrored. */
  ghost predicate Mirrored(s: Sys, updates: seq<StoredBlob>, r: Sys) {
    && Durable(r.st) == Durable(s.st) + BlobOps(Blobs(updates))
    && r.st.knownVV == (if updates == [] then s.st.knownVV else s.e.known)
    && r.e.doc == s.e.doc && r.e.known == s.e.known && r.e.contig == s.e.contig
    && r.e.codec == s.e.codec && r.e.inFlight == s.e.inFlight && r.e.outbox == s.e.outbox
    && r.e.state == s.e.state && r.e.docId == s.e.docId
    && r.e.durable == s.e.durable && r.e.sentAck == s.e.sentAck
    && r.st.inFlight == s.st.inFlight
  }

  lemma MirrorsMore(s: Sys, before: seq<StoredBlob>, r: Sys, u: StoredBlob)
    requires Mirrored(s, before, r)
    requires Durable(AppendRow(r, u).st) == Durable(r.st) + u.blob.ops
    ensures Mirrored(s, before + [u], AppendRow(r, u))
  {
    BlobsPrefix(before + [u]);
    assert (before + [u])[..|before|] == before;
  }

  lemma BlobsPrefix(updates: seq<StoredBlob>)
    requires updates != []
    ensures BlobOps(Blobs(updates)) == BlobOps(Blobs(updates[..|updates| - 1])) + updates[|updates| - 1].blob.ops
  {
    assert Blobs(updates)[..|updates| - 1] == Blobs(updates[..|updates| - 1]);
  }

  lemma MirrorRow(c: Codec, d: nat, log: seq<Row>, m: map<nat, set<Op>>, st: Store, u: StoredBlob, known: set<Op>)
    requires LogInv(log) && StoreInv(c, d, log, m, st)
    requires 1 <= u.seqNo <= |log| && u.blob == log[u.seqNo - 1].blob
    requires st.knownVV <= known <= All(log) && Closed(known)
    ensures StoreInv(c, d, log, m, AppendRemote(st, u.seqNo, u.blob, known))
    ensures Durable(AppendRemote(st, u.seqNo, u.blob, known)) == Durable(st) + u.blob.ops
  {
    var r := AppendRemote(st, u.seqNo, u.blob, known);
    RowMirrored(log, st, u, known);
    RowFits(c, d, log, m, st, u.seqNo);
    StoreGrows(c, d, log, m, st, r);
  }

  lemma RowFits(c: Codec, d: nat, log: seq<Row>, m: map<nat, set<Op>>, st: Store, n: nat)
    requires LogInv(log) && StoreInv(c, d, log, m, st) && 1 <= n <= |log|
    ensures var disk := Durable(st) + log[n - 1].blob.ops;
            ClosedFor(d, disk) && Within(d, disk, All(log))
  {
    UptoRow(log, n - 1, |log|);
    OwnLoggedAll(c, d, log, Note(m, st), st);
    RowCloses(d, Durable(st), log[n - 1].blob.ops, All(log));
  }

  lemma RowMirrored(log: seq<Row>, st: Store, u: StoredBlob, known: set<Op>)
    requires Ordered(st) && WalTrue(log, st.wal)
    requires 1 <= u.seqNo <= |log| && u.blob == log[u.seqNo - 1].blob
    ensures var r := AppendRemote(st, u.seqNo, u.blob, known);
            && Ordered(r) && WalTrue(log, r.wal) && r.knownVV == known
            && r.ackedSeq == st.ackedSeq && r.inFlight == st.inFlight
            && Durable(r) == Durable(st) + u.blob.ops
  {
    RowOrdered(st, u.seqNo, u.blob, known);
    RowTrue(log, st, u, known);
    assert forall row :: row in st.wal && row.serverSeq == Some(u.seqNo) ==> row.payload == u.blob;
    DurableAppendRemote(st, u.seqNo, u.blob, known);
  }

  lemma RowOrdered(st: Store, k: nat, payload: Blob, known: set<Op>)
    requires Ordered(st)
    ensures Ordered(AppendRemote(st, k, payload, known))
  {
    if FindServerSeq(st.wal, k) == None {
      var n := st.nextLocalSeq + 1;
      var wal := st.wal + [WalRow(n, Some(k), payload)];
      forall i, j | 0 <= i < j < |wal| ensures wal[i].localSeq < wal[j].localSeq {
        assert wal[i] in st.wal;
      }
    }
  }

  lemma RowTrue(log: seq<Row>, st: Store, u: StoredBlob, known: set<Op>)
    requires WalTrue(log, st.wal) && 1 <= u.seqNo <= |log| && u.blob == log[u.seqNo - 1].blob
    ensures WalTrue(log, AppendRemote(st, u.seqNo, u.blob, known).wal)
  {}

  /** Logged operations beside a disk that has the device's own of them. */
  lemma RowCloses(d: nat, disk: set<Op>, ops: set<Op>, logged: set<Op>)
    requires ClosedFor(d, disk) && Within(d, disk, logged) && ops <= logged
    requires forall o :: o in logged && o.peer.device == d ==> o in disk
    ensures ClosedFor(d, disk + ops) && Within(d, disk + ops, logged)
  {
    forall a, b | b in disk + ops && UpTo(a, b) && b.peer.device == d ensures a in disk + ops {
      assert b in disk;
    }
  }

  /** What a run of `append_remote_wal` calls keeps. */
  ghost predicate Mirroring(d: nat, log: seq<Row>, m: map<nat, set<Op>>, s: Sys) {
    && StoreInv(s.e.codec, d, log, m, s.st) && Hist(s.e.codec, d, log, m, s.history, s.st)
    && StatsAgree(s.e, s.st)
    && s.st.knownVV <= s.e.known <= All(log) && Closed(s.e.known)
  }

  lemma AppendedStats(e: Engine, st: Store, u: StoredBlob)
    requires StatsAgree(e, st)
    ensures var n := st.nextLocalSeq + 1;
            var w := st.(nextLocalSeq := n, knownVV := e.known, wal := st.wal + [WalRow(n, Some(u.seqNo), u.blob)]);
            StatsAgree(e.(lastLocalSeq := n, walRows := e.walRows + 1, walBytes := e.walBytes + u.blob.bytes), w)
  {
    WalOpsAppend(st.wal, WalRow(st.nextLocalSeq + 1, Some(u.seqNo), u.blob));
  }

  lemma RowStats(s: Sys, u: StoredBlob)
    requires StatsAgree(s.e, s.st)
    ensures StatsAgree(AppendRow(s, u).e, AppendRow(s, u).st)
  {
    if FindServerSeq(s.st.wal, u.seqNo) == None {
      AppendedStats(s.e, s.st, u);
    }
  }

  lemma RowShape(s: Sys, u: StoredBlob)
    ensures var r := AppendRow(s, u);
            && r.st == AppendRemote(s.st, u.seqNo, u.blob, s.e.known)
            && r.history == s.history + [r.st]
            && r.e == s.e.(lastLocalSeq := r.e.lastLocalSeq, walRows := r.e.walRows, walBytes := r.e.walBytes)
  {}

  lemma MirrorStep(d: nat, log: seq<Row>, m: map<nat, set<Op>>, s: Sys, u: StoredBlob)
    requires LogInv(log) && Mirroring(d, log, m, s)
    requires 1 <= u.seqNo <= |log| && u.blob == log[u.seqNo - 1].blob
    ensures Mirroring(d, log, m, AppendRow(s, u))
    ensures Durable(AppendRow(s, u).st) == Durable(s.st) + u.blob.ops
    ensures AppendRow(s, u).st.knownVV == s.e.known
  {
    var r := AppendRow(s, u);
    MirrorRow(s.e.codec, d, log, m, s.st, u, s.e.known);
    RowStats(s, u);
    RowShape(s, u);
    assert r.st.knownVV == s.e.known;
    HistAppend(s.e.codec, d, log, m, s.history, s.st, r.st);
  }

  lemma {:induction false} MirrorRows(d: nat, log: seq<Row>, m: map<nat, set<Op>>, s: Sys, updates: seq<StoredBlob>)
    requires LogInv(log) && Mirroring(d, log, m, s) && TrueRows(log, updates)
    ensures Mirroring(d, log, m, AppendRows(s, updates)) && Mirrored(s, updates, AppendRows(s, updates))
  {
    if updates != [] {
      var before := updates[..|updates| - 1];
      var u := updates[|updates| - 1];
      MirrorRows(d, log, m, s, before);
      BlobsPrefix(updates);
      assert u in updates;
      MirrorStep(d, log, m, AppendRows(s, before), u);
      MirrorsMore(s, before, AppendRows(s, before), u);
      assert before + [u] == updates;
    }
  }

  /** The frontier only moves over rows that are in the batch. */
  lemma {:induction false} IngestSound(log: seq<Row>, contig: nat, updates: seq<StoredBlob>, s: set<Op>)
    requires contig <= |log| && Upto(log, contig) <= s
    requires TrueRows(log, updates) && forall u :: u in updates ==> u.blob.ops <= s
    ensures contig <= IngestAll(contig, updates) <= |log|
    ensures Upto(log, IngestAll(contig, updates)) <= s
  {
    if updates != [] {
      var before := updates[..|updates| - 1];
      forall u | u in before ensures u in updates {}
      IngestSound(log, contig, before, s);
      assert updates[|updates| - 1] in updates;
    }
  }

  /** The engine with a batch imported and learned, before it is mirrored. */
  function Imported(e: Engine, updates: seq<StoredBlob>): Engine {
    var blobs := Blobs(updates);
    e.(doc := ApplyRemote(e.codec, e.doc, blobs), known := e.known + BlobRange(e.codec, blobs))
  }

  lemma BatchWithin(c: Codec, updates: seq<StoredBlob>)
    ensures forall u :: u in updates ==> u.blob.ops <= BlobOps(Blobs(updates))
  {
    forall u | u in updates ensures u.blob.ops <= BlobOps(Blobs(updates)) {
      var j :| 0 <= j < |updates| && updates[j] == u;
      BlobIn(c, Blobs(updates), j);
    }
  }

  lemma FrontierOver(c: Codec, log: seq<Row>, contig: nat, updates: seq<StoredBlob>, s: set<Op>)
    requires contig <= |log| && Upto(log, contig) <= s
    requires TrueRows(log, updates) && BlobOps(Blobs(updates)) <= s
    ensures contig <= IngestAll(contig, updates) <= |log|
    ensures Upto(log, IngestAll(contig, updates)) <= s
  {
    BatchWithin(c, updates);
    IngestSound(log, contig, updates, s);
  }

  /** The engine and the store once every row is mirrored. */
  lemma MirroredEngine(d: nat, log: seq<Row>, m: map<nat, set<Op>>, residue: set<Op>, s: Sys, i: Sys,
                       updates: seq<StoredBlob>, a: Sys)
    requires EngineInv(d, log, m, residue, s.e, s.st) && updates != []
    requires i == s.(e := Imported(s.e, updates)) && Mirrored(i, updates, a) && StatsAgree(a.e, a.st)
    requires DocInv(d, log, residue, i.e.doc, Durable(a.st))
    requires Closed(i.e.known) && i.e.known <= All(log)
    ensures EngineInv(d, log, m, residue, a.e, a.st)
  {}

  lemma AdvancedSafe(d: nat, log: seq<Row>, m: map<nat, set<Op>>, residue: set<Op>, a: Sys, n: nat)
    requires Safe(d, log, m, residue, a) && n <= |log| && Upto(log, n) <= Durable(a.st) * a.st.knownVV
    ensures Safe(d, log, m, residue, a.(e := Advance(a.e, n)))
  {}

  lemma MirroredSafe(d: nat, log: seq<Row>, m: map<nat, set<Op>>, residue: set<Op>, s: Sys, updates: seq<StoredBlob>)
    requires LogInv(log) && Safe(d, log, m, residue, s) && TrueRows(log, updates) && updates != []
    ensures var a := AppendRows(s.(e := Imported(s.e, updates)), updates);
            && Safe(d, log, m, residue, a) && a.e.contig == s.e.contig
            && BlobOps(Blobs(updates)) <= Durable(a.st) * a.st.knownVV
  {
    var c := s.e.codec;
    var i := s.(e := Imported(s.e, updates));
    RowsCarry(c, log, updates, s.e.known);
    OwnLoggedAll(c, d, log, Note(m, s.st), s.st);
    ImportedDoc(c, d, log, residue, s.e.doc, Durable(s.st), Blobs(updates));
    MirrorRows(d, log, m, i, updates);
    MirroredEngine(d, log, m, residue, s, i, updates, AppendRows(i, updates));
  }

  lemma ApplyRemoteSound(d: nat, log: seq<Row>, m: map<nat, set<Op>>, residue: set<Op>, s: Sys,
                         updates: seq<StoredBlob>)
    requires LogInv(log) && Safe(d, log, m, residue, s) && TrueRows(log, updates)
    ensures Safe(d, log, m, residue, ApplyRemoteUpdates(s, updates))
  {
    if updates != [] {
      var a := AppendRows(s.(e := Imported(s.e, updates)), updates);
      MirroredSafe(d, log, m, residue, s, updates);
      FrontierOver(s.e.codec, log, a.e.contig, updates, Durable(a.st) * a.st.knownVV);
      AdvancedSafe(d, log, m, residue, a, IngestAll(a.e.contig, updates));
    }
  }
}

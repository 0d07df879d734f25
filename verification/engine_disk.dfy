/** What a call leaves on disk: the rows and operations it was given, and
    everything that was there. */
module EngineDisk {
  import opened Wrappers
  import opened Operations
  import opened Protocol
  import opened LocalStore
  import opened Documents
  import opened EngineSpec
  import opened EngineCoherence
  import opened EngineLaws
  import CallInvariant
  import EngineCalm

  /** What is durable of what the doc holds. */
  function Saved(s: Sys): set<Op> { Durable(s.st) * s.e.doc.ops }

  // ---- writes ----

  ghost predicate NamesRow(row: WalRow, u: StoredBlob) { row.serverSeq == Some(u.seqNo) && row.payload == u.blob }

  ghost predicate FromRows(row: WalRow, updates: seq<StoredBlob>) {
    exists u :: u in updates && NamesRow(row, u)
  }

  ghost predicate Numbered(wal: seq<WalRow>, k: nat) { exists row :: row in wal && row.serverSeq == Some(k) }

  /** The log holds the row as it came. */
  ghost predicate HasRow(wal: seq<WalRow>, u: StoredBlob) { exists row :: row in wal && NamesRow(row, u) }

  /** The server gives one number to one row: two rows of a batch that have
      the same number are the same, and so are one of it and one stored. */
  ghost predicate OneRowEach(wal: seq<WalRow>, updates: seq<StoredBlob>) {
    && (forall u, row :: u in updates && row in wal && row.serverSeq == Some(u.seqNo) ==> NamesRow(row, u))
    && (forall u, v :: u in updates && v in updates && u.seqNo == v.seqNo ==> u == v)
  }

  /** Mirroring takes nothing off the disk; what it adds are rows of the
      batch, and each number is there after it. */
  lemma {:induction false} RowsMirrored(s: Sys, updates: seq<StoredBlob>)
    ensures var r := AppendRows(s, updates);
            && s.st.wal <= r.st.wal && Durable(s.st) <= Durable(r.st) && r.st.ackedSeq == s.st.ackedSeq
            && r.st.snapshot == s.st.snapshot
            && (forall row :: row in r.st.wal ==> row in s.st.wal || FromRows(row, updates))
            && (forall u :: u in updates ==> Numbered(r.st.wal, u.seqNo))
  {
    if updates != [] {
      var front, u := updates[..|updates| - 1], updates[|updates| - 1];
      RowsMirrored(s, front);
      RowMirrored(AppendRows(s, front), u);
      var a, r := AppendRows(s, front), AppendRows(s, updates);
      forall row | row in r.st.wal ensures row in s.st.wal || FromRows(row, updates) {
        if row in a.st.wal && row !in s.st.wal {
          var v :| v in front && NamesRow(row, v);
          assert v in updates;
        } else if row !in a.st.wal {
          assert u in updates && NamesRow(row, u);
        }
      }
      forall v | v in updates ensures Numbered(r.st.wal, v.seqNo) {
        if v != u {
          assert v in front;
          var row :| row in a.st.wal && row.serverSeq == Some(v.seqNo);
          assert row in r.st.wal;
        }
      }
    }
  }

  lemma RowMirrored(s: Sys, u: StoredBlob)
    ensures var r := AppendRow(s, u);
            && s.st.wal <= r.st.wal && Durable(s.st) <= Durable(r.st) && r.st.ackedSeq == s.st.ackedSeq
            && r.st.snapshot == s.st.snapshot
            && (forall row :: row in r.st.wal ==> row in s.st.wal || NamesRow(row, u))
            && Numbered(r.st.wal, u.seqNo)
  {
    var r := AppendRow(s, u);
    if FindServerSeq(s.st.wal, u.seqNo) == None {
      var row := WalRow(s.st.nextLocalSeq + 1, Some(u.seqNo), u.blob);
      WalOpsAppend(s.st.wal, row);
      assert r.st.wal[|s.st.wal|] == row;
    }
  }

  lemma RowsHeld(s: Sys, updates: seq<StoredBlob>)
    requires OneRowEach(s.st.wal, updates)
    ensures forall u :: u in updates ==> HasRow(AppendRows(s, updates).st.wal, u)
  {
    RowsMirrored(s, updates);
    var w := AppendRows(s, updates).st.wal;
    forall u | u in updates ensures HasRow(w, u) {
      var row :| row in w && row.serverSeq == Some(u.seqNo);
      if row !in s.st.wal {
        var v :| v in updates && NamesRow(row, v);
        assert v == u;
      }
      assert NamesRow(row, u);
    }
  }

  lemma HeldIsDurable(st: Store, u: StoredBlob)
    requires HasRow(st.wal, u)
    ensures u.blob.ops <= Durable(st)
  {
    var row :| row in st.wal && NamesRow(row, u);
    RowInWalOps(st.wal, row);
  }

  // ---- calls ----

  /** What was never captured. */
  function Uncaptured(s: Sys): set<Op> { s.e.doc.ops - s.e.doc.persisted }

  lemma CaptureSaves(s: Sys)
    ensures var r := Capture(s);
            && Durable(s.st) <= Durable(r.st) && s.st.wal <= r.st.wal
            && (s.e.codec.Valid() ==> Uncaptured(s) <= Durable(r.st))
  {
    assert s.e.codec.Valid() ==> s.e.codec.Bounded(s.e.doc.ops);
    if HasUncaptured(s.e.codec, s.e.doc) { DurableAppendLocal(s.st, PendingExport(s.e.codec, s.e.doc)); }
  }

  lemma SnapshotSaves(st: Store, cutoff: nat, payload: Blob)
    ensures payload.ops <= Durable(WriteSnapshot(st, cutoff, payload))
  {}

  lemma FoldSaves(s: Sys, maxRows: nat, maxBytes: nat)
    ensures var r := SnapshotIfWalExceeds(s, maxRows, maxBytes);
            && Saved(s) <= Durable(r.st) && r.e.doc.ops == s.e.doc.ops
            && (s.e.codec.Valid() ==> Uncaptured(s) <= Durable(r.st))
    ensures Saved(s) <= Durable(ForceSnapshot(s).st)
  {
    CaptureSaves(s);
    var c := Capture(s);
    SnapshotSaves(c.st, c.e.lastLocalSeq, SnapshotBlob(c.e.codec, c.e.doc));
  }

  lemma PushSaves(s: Sys, id: nat)
    ensures var r := TryStartPush(s, id); Durable(s.st) <= Durable(r.st) && s.st.wal <= r.st.wal
  {
    CaptureSaves(s);
  }

  lemma RowsLand(s: Sys, updates: seq<StoredBlob>)
    ensures var r := ApplyRemoteUpdates(s, updates);
            && Durable(s.st) <= Durable(r.st) && r.e.codec == s.e.codec
            && (OneRowEach(s.st.wal, updates) ==> forall u :: u in updates ==> HasRow(r.st.wal, u))
  {
    if updates != [] {
      var c := s.e.codec;
      var e := s.e.(doc := ApplyRemote(c, s.e.doc, Blobs(updates)), known := s.e.known + BlobRange(c, Blobs(updates)));
      RowsMirrored(s.(e := e), updates);
      EngineCalm.AppendRowsQuiet(s.(e := e), updates);
      if OneRowEach(s.st.wal, updates) { RowsHeld(s.(e := e), updates); }
    }
  }

  /** A row of a pull answer or a broadcast is on disk when the call returns,
      and the last row of a chain puts the whole doc there. */
  ghost predicate Lands(s: Sys, call: Call, r: Sys) {
    Hears(s.e, call) ==>
      match call.input.frame
      case UpdatesBatch(updates, _) => LandRows(s, updates, r)
      case UpdatesBroadcast(updates) => LandRows(s, updates, r)
      case Snapshot(_, _, complete) => complete && s.e.state == Bootstrapping ==> r.e.doc.ops <= Durable(r.st)
      case _ => true
  }

  ghost predicate LandRows(s: Sys, updates: seq<StoredBlob>, r: Sys) {
    s.e.state != Bootstrapping && OneRowEach(s.st.wal, updates) ==>
      forall u :: u in updates ==> u.blob.ops <= Durable(r.st)
  }

  lemma LandsOn(a: Sys, call: Call, r: Sys, b: Sys)
    requires Lands(a, call, r) && r.e.doc.ops == a.e.doc.ops + Brought(a.e, call)
    requires b.e.doc.ops == r.e.doc.ops && Saved(r) <= Saved(b)
    ensures Lands(a, call, b)
  {
    if Hears(a.e, call) && a.e.state != Bootstrapping
        && (call.input.frame.UpdatesBatch? || call.input.frame.UpdatesBroadcast?)
        && OneRowEach(a.st.wal, call.input.frame.updates) {
      forall u | u in call.input.frame.updates ensures u.blob.ops <= Durable(b.st) {
        assert u.blob.ops <= RowOps(call.input.frame.updates);
        assert u.blob.ops <= Saved(r);
      }
    }
    assert r.e.doc.ops <= Durable(r.st) ==> r.e.doc.ops <= Saved(r);
  }

  lemma RowsLanded(s: Sys, updates: seq<StoredBlob>, a: Sys, r: Sys)
    requires a == ApplyRemoteUpdates(s, updates) && a.st.wal <= r.st.wal
    ensures LandRows(s, updates, r)
  {
    RowsLand(s, updates);
    if OneRowEach(s.st.wal, updates) {
      forall u | u in updates ensures u.blob.ops <= Durable(r.st) {
        var row :| row in a.st.wal && NamesRow(row, u);
        assert row in r.st.wal;
        HeldIsDurable(r.st, u);
      }
    }
  }

  lemma BatchLands(s: Sys, call: Call)
    requires Hears(s.e, call) && call.input.frame.UpdatesBatch?
    ensures var r := Apply(s, call); Saved(s) <= Durable(r.st) && Lands(s, call, r)
  {
    var updates, complete := call.input.frame.updates, call.input.frame.complete;
    if s.e.state != Bootstrapping {
      CallInvariant.BatchCases(s, updates, complete, call.id);
      var a := ApplyRemoteUpdates(s, updates);
      RowsLand(s, updates);
      PushSaves(Pulled(a), call.id);
      RowsLanded(s, updates, a, Apply(s, call));
    }
  }

  lemma AckLands(s: Sys, call: Call)
    requires Hears(s.e, call) && call.input.frame.UpdatesAck?
    ensures Saved(s) <= Durable(Apply(s, call).st)
  {
    if Confirms(s.e, call) {
      var ack := call.input.frame.acks[0];
      CallInvariant.AckAccepted(s, call.input.frame.acks, call.id);
      PushSaves(Acked(s, ack), call.id);
    }
  }

  lemma SnapshotLands(s: Sys, call: Call)
    requires Hears(s.e, call) && call.input.frame.Snapshot?
    ensures var r := Apply(s, call); Saved(s) <= Durable(r.st) && Lands(s, call, r)
  {
    if EndsChain(s.e, call) {
      var doc := ApplyRemote(s.e.codec, s.e.doc, [call.input.frame.blob]);
      SnapshotSaves(WriteKnown(s.st, Apply(s, call).st.knownVV), s.e.lastLocalSeq, SnapshotBlob(s.e.codec, doc));
    }
  }

  lemma BytesLand(s: Sys, call: Call)
    requires call.Bytes?
    ensures var r := Apply(s, call); Saved(s) <= Durable(r.st) && Lands(s, call, r)
  {
    if Hears(s.e, call) {
      match call.input.frame {
        case UpdatesBatch(_, _) => BatchLands(s, call);
        case UpdatesBroadcast(updates) =>
          RowsLand(s, updates);
          if s.e.state != Bootstrapping { RowsLanded(s, updates, Apply(s, call), Apply(s, call)); }
        case UpdatesAck(_) => AckLands(s, call);
        case Snapshot(_, _, _) => SnapshotLands(s, call);
        case _ => QuietFrames(s, call.input.frame, call.id);
      }
    }
  }

  /** Every call leaves on disk what was there of the doc, and what a frame
      brought. */
  lemma CallLands(s: Sys, call: Call)
    ensures var r := Apply(s, call); Saved(s) <= Durable(r.st) && Lands(s, call, r)
  {
    match call {
      case Bytes(_, _) => BytesLand(s, call);
      case FlushCall(id) => PushSaves(s, id);
      case CaptureOps => CaptureSaves(s);
      case FoldPast(maxRows, maxBytes) => FoldSaves(s, maxRows, maxBytes);
      case FoldNow => FoldSaves(s, 0, 0);
      case _ =>
    }
  }

  // ---- what a host's own calls keep ----

  /** The stored cursor is the frontier: nothing received is still to be made
      durable. */
  predicate AtFrontier(s: Sys) { s.st.ackedSeq == s.e.durable == s.e.contig }

  /** `b` holds what `a` does, has on disk what `a` has there of it, and stands
      where `a` stands; a push on record stays. */
  ghost predicate Keeps(a: Sys, b: Sys) {
    && b.e.docId == a.e.docId && b.e.codec == a.e.codec
    && b.e.doc.ops == a.e.doc.ops && b.e.known == a.e.known && b.e.contig == a.e.contig
    && Saved(a) <= Saved(b)
    && (AtFrontier(a) ==> AtFrontier(b))
    && (Coherent(a) ==> Coherent(b))
    && (a.e.inFlight.Some? ==> b.e.inFlight == a.e.inFlight && b.st.inFlight == a.st.inFlight)
  }

  lemma KeepsOn(a: Sys, b: Sys, c: Sys)
    requires Keeps(a, b) && Keeps(b, c)
    ensures Keeps(a, c)
  {}

  lemma CursorStays(s: Sys, call: Call)
    requires !call.Bytes? && AtFrontier(s)
    ensures AtFrontier(Apply(s, call))
  {
    if call.OnDisk? { NoticeAcks(s, call.seqNo); }
  }

  /** Any call but a commit and bytes. */
  lemma CallKeeps(s: Sys, call: Call)
    requires !call.Bytes? && !call.Commit?
    ensures Keeps(s, Apply(s, call))
  {
    EveryCallLawful(s, call);
    CallLands(s, call);
    if AtFrontier(s) { CursorStays(s, call); }
    if Coherent(s) { CallCoherent(s, call); }
  }

  // ---- the writes, one by one ----

  /** Capturing writes one row of all that was never captured, if the doc's
      version vector is not the cursor, and nothing else. */
  lemma CaptureIs(s: Sys)
    ensures var r, vv := Apply(s, CaptureOps), s.e.codec.bound(s.e.doc.ops);
            if vv == s.e.doc.persisted then r == s
            else
              var n, blob := s.st.nextLocalSeq + 1, Blob(Uncaptured(s), s.e.codec.bytes(Uncaptured(s)));
              && r.st == s.st.(nextLocalSeq := n, wal := s.st.wal + [WalRow(n, None, blob)])
              && r.e.doc == Doc(s.e.doc.ops, s.e.doc.persisted + vv)
              && r.e.walRows == s.e.walRows + 1 && r.e.walBytes == s.e.walBytes + blob.bytes
  {}

  /** The log is folded exactly when it is past a limit, counting what a
      capture adds: a snapshot of the whole doc takes its place, numbered as
      far as numbers were given out. */
  lemma FoldIs(s: Sys, maxRows: nat, maxBytes: nat)
    requires Coherent(s)
    ensures var c, r := Apply(s, CaptureOps), Apply(s, FoldPast(maxRows, maxBytes));
            if |c.st.wal| < Max(1, maxRows) && WalBytes(c.st.wal) <= maxBytes then r == c else Folds(c, r)
    ensures var c, r := Apply(s, CaptureOps), Apply(s, FoldNow);
            if c.st.wal == [] then r == c else Folds(c, r)
  {
    CaptureCoherent(s);
    var c := Apply(s, CaptureOps);
    RetainedNothing(c.st.wal, c.e.lastLocalSeq);
  }

  ghost predicate Folds(c: Sys, r: Sys) {
    && r.st == c.st.(wal := [], snapshot := Some(Snap(c.st.nextLocalSeq,
                                                      Blob(c.e.doc.ops, c.e.codec.bytes(c.e.doc.ops)))))
    && r.e == c.e.(walRows := 0, walBytes := 0)
  }
}

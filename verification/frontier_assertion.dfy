/** The debug assertion of `ingest_seq`: no sequence number is ahead of the
    frontier's next. When it holds, and what it buys. */
module FrontierAssertion {
  import opened Wrappers
  import opened Protocol
  import opened Documents
  import opened EngineSpec
  import opened EngineCoherence
  import opened CallInvariant

  /** The assertion fails on row `n`. */
  predicate Trips(contig: nat, n: nat) { contig + 1 < n }

  /** It fails on some row of a batch, the frontier moving row by row. */
  ghost predicate BatchTrips(contig: nat, updates: seq<StoredBlob>) {
    exists i :: 0 <= i < |updates| && TripsAt(contig, updates, i)
  }

  predicate TripsAt(contig: nat, updates: seq<StoredBlob>, i: nat)
    requires i < |updates|
  {
    Trips(IngestAll(contig, updates[..i]), updates[i].seqNo)
  }

  /** Every row past the frontier is its next, or comes after its own
      predecessor. */
  ghost predicate Linked(contig: nat, updates: seq<StoredBlob>) {
    forall i :: 0 <= i < |updates| ==> LinkedAt(contig, updates, i)
  }

  ghost predicate LinkedAt(contig: nat, updates: seq<StoredBlob>, i: nat)
    requires i < |updates|
  {
    updates[i].seqNo <= contig + 1 || exists j :: 0 <= j < i && updates[j].seqNo + 1 == updates[i].seqNo
  }

  lemma IngestNext(contig: nat, updates: seq<StoredBlob>, i: nat)
    requires i < |updates|
    ensures IngestAll(contig, updates[..i + 1]) == Ingest(IngestAll(contig, updates[..i]), updates[i].seqNo)
  {
    assert updates[..i + 1][..i] == updates[..i];
  }

  /** The frontier past where it was stands on a row of the batch, and on one
      for each number between. */
  lemma {:induction false} FrontierStands(contig: nat, updates: seq<StoredBlob>, i: nat, n: nat)
    requires i <= |updates| && contig < n <= IngestAll(contig, updates[..i])
    ensures exists j :: 0 <= j < i && updates[j].seqNo == n
  {
    if 0 < i {
      IngestNext(contig, updates, i - 1);
      if n <= IngestAll(contig, updates[..i - 1]) {
        FrontierStands(contig, updates, i - 1, n);
      }
    }
  }

  lemma {:induction false} FrontierRises(contig: nat, updates: seq<StoredBlob>, i: nat, j: nat)
    requires i <= j <= |updates|
    ensures contig <= IngestAll(contig, updates[..i]) <= IngestAll(contig, updates[..j])
    decreases j
  {
    if i < j {
      FrontierRises(contig, updates, i, j - 1);
      IngestNext(contig, updates, j - 1);
    } else if 0 < i {
      FrontierRises(contig, updates, i - 1, i - 1);
      IngestNext(contig, updates, i - 1);
    }
  }

  /** A row that does not trip is behind the frontier afterwards. */
  lemma BehindAfter(contig: nat, updates: seq<StoredBlob>, j: nat, i: nat)
    requires j < i <= |updates| && !TripsAt(contig, updates, j)
    ensures updates[j].seqNo <= IngestAll(contig, updates[..i])
  {
    IngestNext(contig, updates, j);
    FrontierRises(contig, updates, j + 1, i);
  }

  lemma {:induction false} LinkedNeverTrips(contig: nat, updates: seq<StoredBlob>, i: nat)
    requires Linked(contig, updates) && i < |updates|
    ensures !TripsAt(contig, updates, i)
  {
    FrontierRises(contig, updates, 0, i);
    assert LinkedAt(contig, updates, i);
    if contig + 1 < updates[i].seqNo {
      var j :| 0 <= j < i && updates[j].seqNo + 1 == updates[i].seqNo;
      LinkedNeverTrips(contig, updates, j);
      BehindAfter(contig, updates, j, i);
    }
  }

  /** The assertion holds over a batch exactly when every row past the
      frontier is its next or follows its predecessor. */
  lemma BatchAsserts(contig: nat, updates: seq<StoredBlob>)
    ensures !BatchTrips(contig, updates) <==> Linked(contig, updates)
  {
    if Linked(contig, updates) {
      forall i | 0 <= i < |updates| ensures !TripsAt(contig, updates, i) {
        LinkedNeverTrips(contig, updates, i);
      }
    }
    if !BatchTrips(contig, updates) {
      forall i | 0 <= i < |updates| ensures LinkedAt(contig, updates, i) {
        assert !TripsAt(contig, updates, i);
        if contig + 1 < updates[i].seqNo {
          FrontierStands(contig, updates, i, updates[i].seqNo - 1);
        }
      }
    }
  }

  /** Rows in the server's order, without holes: only the first can trip it. */
  ghost predicate Dense(updates: seq<StoredBlob>) {
    forall i :: 0 < i < |updates| ==> updates[i].seqNo == updates[i - 1].seqNo + 1
  }

  lemma {:induction false} DenseFrom(updates: seq<StoredBlob>, i: nat)
    requires Dense(updates) && i < |updates|
    ensures updates[i].seqNo == updates[0].seqNo + i
  {
    if 0 < i {
      DenseFrom(updates, i - 1);
    }
  }

  lemma DenseAsserts(contig: nat, updates: seq<StoredBlob>)
    requires Dense(updates)
    ensures !BatchTrips(contig, updates) <==> updates == [] || updates[0].seqNo <= contig + 1
  {
    BatchAsserts(contig, updates);
    if updates != [] {
      assert Linked(contig, updates) ==> LinkedAt(contig, updates, 0);
      if updates[0].seqNo <= contig + 1 {
        forall i | 0 <= i < |updates| ensures LinkedAt(contig, updates, i) {
          if 0 < i { assert updates[i - 1].seqNo + 1 == updates[i].seqNo; }
        }
      }
    }
  }

  /** What the assertion is for: the frontier ends at or past every row. */
  lemma AssertedCovers(contig: nat, updates: seq<StoredBlob>, u: StoredBlob)
    requires !BatchTrips(contig, updates) && u in updates
    ensures u.seqNo <= IngestAll(contig, updates)
  {
    var j :| 0 <= j < |updates| && updates[j] == u;
    assert !TripsAt(contig, updates, j);
    BehindAfter(contig, updates, j, |updates|);
    assert updates[..|updates|] == updates;
  }

  // ---- the frames that reach it ----

  /** Handling the frame trips the assertion. */
  ghost predicate FrameTrips(e: Engine, f: ServerFrame) {
    match f
    case UpdatesBatch(updates, _) => e.state != Bootstrapping && BatchTrips(e.contig, updates)
    case UpdatesBroadcast(updates) => e.state != Bootstrapping && BatchTrips(e.contig, updates)
    case UpdatesAck(acks) => Accepts(e, acks) && Trips(e.contig, acks[0].seqNo)
    case _ => false
  }

  /** For every engine and every frame: rows trip it exactly when one past the
      frontier is neither its next nor after its predecessor, and an ack
      exactly when it is accepted and a row before its own is missing. */
  lemma AssertionHolds(e: Engine, f: ServerFrame)
    ensures !FrameTrips(e, f) <==>
            match f
            case UpdatesBatch(updates, _) => e.state == Bootstrapping || Linked(e.contig, updates)
            case UpdatesBroadcast(updates) => e.state == Bootstrapping || Linked(e.contig, updates)
            case UpdatesAck(acks) => !Accepts(e, acks) || acks[0].seqNo <= e.contig + 1
            case _ => true
  {
    if f.UpdatesBatch? || f.UpdatesBroadcast? {
      BatchAsserts(e.contig, f.updates);
    }
  }

  /** An accepted ack trips it exactly when the frontier stays short of the
      acked row. */
  lemma AckCovered(s: Sys, f: ServerFrame)
    requires f.UpdatesAck? && Accepts(s.e, f.acks)
    ensures !FrameTrips(s.e, f) <==> f.acks[0].seqNo <= Acked(s, f.acks[0]).e.contig
  {}

  // ---- what follows when an ack trips it ----

  /** Nothing in the call tells of row `n`, or of a snapshot that has it. */
  predicate Withholds(call: Call, n: nat) {
    call.Bytes? && call.input.Frame? ==>
      match call.input.frame
      case UpdatesBatch(updates, _) => forall u :: u in updates ==> u.seqNo != n
      case UpdatesBroadcast(updates) => forall u :: u in updates ==> u.seqNo != n
      case UpdatesAck(acks) => forall a :: a in acks ==> a.seqNo != n
      case Snapshot(upTo, _, _) => upTo < n
      case _ => true
  }

  lemma ShortOf(contig: nat, updates: seq<StoredBlob>, n: nat)
    requires contig < n && forall u :: u in updates ==> u.seqNo != n
    ensures IngestAll(contig, updates) < n
  {
    assert updates[..|updates|] == updates;
    if n <= IngestAll(contig, updates) {
      FrontierStands(contig, updates, |updates|, n);
    }
  }

  lemma RowsStop(s: Sys, updates: seq<StoredBlob>, n: nat)
    requires s.e.contig < n && forall u :: u in updates ==> u.seqNo != n
    ensures ApplyRemoteUpdates(s, updates).e.contig < n
  {
    if updates != [] {
      var c := s.e.codec;
      var e := s.e.(doc := ApplyRemote(c, s.e.doc, Blobs(updates)), known := s.e.known + BlobRange(c, Blobs(updates)));
      AppendRowsDoc(s.(e := e), updates);
      ShortOf(s.e.contig, updates, n);
    }
  }

  lemma PushStays(s: Sys, id: nat)
    ensures TryStartPush(s, id).e.contig == s.e.contig
  {}

  lemma FrameStops(s: Sys, f: ServerFrame, id: nat, n: nat)
    requires s.e.contig < n && Withholds(Bytes(Frame(s.e.docId, f), id), n)
    ensures HandleFrame(s, f, id).e.contig < n
  {
    match f {
      case UpdatesBatch(updates, complete) =>
        if s.e.state != Bootstrapping {
          RowsStop(s, updates, n);
          BatchCases(s, updates, complete, id);
          PushStays(Pulled(ApplyRemoteUpdates(s, updates)), id);
        }
      case UpdatesBroadcast(updates) => RowsStop(s, updates, n);
      case UpdatesAck(acks) =>
        if Accepts(s.e, acks) {
          AckAccepted(s, acks, id);
          assert acks[0] in acks;
          PushStays(Acked(s, acks[0]), id);
        }
      case _ =>
    }
  }

  lemma CallStops(s: Sys, call: Call, n: nat)
    requires s.e.contig < n && Withholds(call, n)
    ensures Apply(s, call).e.contig < n
  {
    match call {
      case Bytes(input, id) =>
        if s.e.state != Disconnected && input.Frame? && input.doc == s.e.docId {
          FrameStops(s, input.frame, id, n);
        }
      case FlushCall(id) => PushStays(s, id);
      case _ =>
    }
  }

  /** A frontier short of row `n` stays short of it, whatever the calls, until
      one brings row `n` itself or a snapshot that has it. */
  lemma {:induction false} StuckUntil(s: Sys, calls: seq<Call>, n: nat)
    requires s.e.contig < n && forall call :: call in calls ==> Withholds(call, n)
    ensures Exec(s, calls).e.contig < n
  {
    if calls != [] {
      StuckUntil(s, calls[..|calls| - 1], n);
      assert calls[|calls| - 1] in calls;
      CallStops(Exec(s, calls[..|calls| - 1]), calls[|calls| - 1], n);
    }
  }

  /** So a device whose ack trips the assertion cannot get past the row before
      its own until its own is delivered to it, whatever else it is sent: a
      broadcast skips its sender, so that is at the next pull. */
  lemma OwnRowNeeded(s: Sys, f: ServerFrame, id: nat, calls: seq<Call>)
    requires f.UpdatesAck? && Accepts(s.e, f.acks) && FrameTrips(s.e, f)
    requires forall call :: call in calls ==> Withholds(call, f.acks[0].seqNo)
    ensures Exec(HandleFrame(s, f, id), calls).e.contig < f.acks[0].seqNo
  {
    AckAccepted(s, f.acks, id);
    PushStays(Acked(s, f.acks[0]), id);
    StuckUntil(HandleFrame(s, f, id), calls, f.acks[0].seqNo);
  }
}

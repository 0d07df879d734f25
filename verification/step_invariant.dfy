/** One step of a device keeps everything, and so does a crash anywhere
    inside it. */
module StepInvariant {
  import opened Wrappers
  import opened Operations
  import opened Protocol
  import opened LocalStore
  import opened Documents
  import opened EngineSpec
  import opened EngineCoherence
  import EngineDiscipline
  import opened World
  import opened LogFacts
  import opened NodeInvariant
  import opened CallInvariant
  import opened LinkInvariant

  ghost predicate NodeInv(d: nat, log: seq<Row>, chain: seq<ChainRow>, n: Node) {
    && Sound(d, log, n.minted, n.residue, n.sys)
    && n.minted == Note(n.minted, n.sys.st)
    && LinkInv(d, log, chain, n.link, n.sys.e)
    && Coherent(n.sys)
    && EngineDiscipline.Disciplined(n.sys.e)
  }

  ghost predicate ServerInv(log: seq<Row>, chain: seq<ChainRow>) { LogInv(log) && ChainInv(log, chain) }

  /** The device as a call finds it. */
  function Begin(n: Node): Sys { n.sys.(history := [n.sys.st]) }

  lemma BeginSafe(d: nat, log: seq<Row>, chain: seq<ChainRow>, n: Node)
    requires NodeInv(d, log, chain, n)
    ensures Safe(d, log, n.minted, n.residue, Begin(n))
  {}

  ghost predicate FrameContext(d: nat, log: seq<Row>, chain: seq<ChainRow>, n: Node, f: ServerFrame, id: nat) {
    && ServerInv(log, chain) && NodeInv(d, log, chain, n)
    && n.sys.e.state != Disconnected
    && Truthful(log, chain, d, n, f)
    && id !in n.minted
  }

  /** What a sound device gives the connection lemmas. */
  lemma Shapes(d: nat, log: seq<Row>, m: map<nat, set<Op>>, residue: set<Op>, s: Sys)
    requires Safe(d, log, m, residue, s)
    ensures s.e.codec.Valid() && Closed(s.e.known) && ClosedFor(d, s.e.doc.ops) && Starts(d, log, s.e)
  {}

  // ---- batches ----

  lemma BatchLearns(d: nat, log: seq<Row>, chain: seq<ChainRow>, n: Node, f: ServerFrame, id: nat)
    requires FrameContext(d, log, chain, n, f, id) && (f.UpdatesBatch? || f.UpdatesBroadcast?)
    requires n.sys.e.state != Bootstrapping
    ensures var l := n.link.(got := n.link.got + Seqs(f.updates));
            var a := ApplyRemoteUpdates(Begin(n), f.updates);
            && LinkInv(d, log, chain, l, a.e)
            && Safe(d, log, n.minted, n.residue, a)
            && a.e.state == n.sys.e.state && a.e.codec == n.sys.e.codec
            && (f.UpdatesBatch? && f.complete && n.sys.e.state == Pulling ==> Answered(l) && CaughtUp(d, a.e))
  {
    BeginSafe(d, log, chain, n);
    var l := n.link.(got := n.link.got + Seqs(f.updates));
    var a := ApplyRemoteUpdates(Begin(n), f.updates);
    RowsLink(d, log, chain, n.link, Begin(n), f.updates);
    RowsApplied(Begin(n), f.updates);
    ApplyRemoteSound(d, log, n.minted, n.residue, Begin(n), f.updates);
    if f.UpdatesBatch? && f.complete && n.sys.e.state == Pulling {
      PullCompletes(d, log, l, a.e);
    }
  }

  lemma BatchSafe(d: nat, log: seq<Row>, chain: seq<ChainRow>, n: Node, f: ServerFrame, id: nat)
    requires FrameContext(d, log, chain, n, f, id) && f.UpdatesBatch?
    ensures Safe(d, log, n.minted, n.residue, OnBatch(Begin(n), f.updates, f.complete, id))
  {
    if n.sys.e.state != Bootstrapping { BatchLearns(d, log, chain, n, f, id); }
    BeginSafe(d, log, chain, n);
    OnBatchSound(d, log, n.minted, n.residue, Begin(n), f.updates, f.complete, id);
  }

  /** The link with what a frame tells. */
  function Hear(l: Link, e: Engine, f: ServerFrame): Link { l.(got := l.got + Tells(e, f)) }

  lemma BatchLink(d: nat, log: seq<Row>, chain: seq<ChainRow>, n: Node, f: ServerFrame, id: nat)
    requires FrameContext(d, log, chain, n, f, id) && f.UpdatesBatch?
    ensures LinkInv(d, log, chain, Hear(n.link, n.sys.e, f), OnBatch(Begin(n), f.updates, f.complete, id).e)
  {
    if n.sys.e.state != Bootstrapping {
      BatchLearns(d, log, chain, n, f, id);
      BatchCases(Begin(n), f.updates, f.complete, id);
      var a := ApplyRemoteUpdates(Begin(n), f.updates);
      Shapes(d, log, n.minted, n.residue, a);
      if f.complete && n.sys.e.state == Pulling {
        PulledLink(d, log, chain, Hear(n.link, n.sys.e, f), a, id);
      }
    }
  }

  // ---- acks ----

  lemma AckAt(d: nat, log: seq<Row>, chain: seq<ChainRow>, n: Node, acks: seq<PushAck>)
    requires NodeInv(d, log, chain, n) && TrueAcks(d, log, acks) && Accepts(n.sys.e, acks)
    ensures 1 <= acks[0].seqNo <= |log|
    ensures log[acks[0].seqNo - 1].blob.ops == n.sys.e.inFlight.value.payload.ops <= n.sys.e.doc.ops
  {
    assert acks[0] in acks;
    AckedRow(n.sys.e.codec, d, log, n.minted, n.sys.st, acks[0].seqNo);
  }

  lemma AckSafe(d: nat, log: seq<Row>, chain: seq<ChainRow>, n: Node, f: ServerFrame, id: nat)
    requires FrameContext(d, log, chain, n, f, id) && f.UpdatesAck?
    ensures Safe(d, log, n.minted, n.residue, OnAck(Begin(n), f.acks, id))
  {
    BeginSafe(d, log, chain, n);
    if Accepts(n.sys.e, f.acks) { PastPullCaughtUp(d, log, chain, n.link, n.sys.e); }
    OnAckSound(d, log, n.minted, n.residue, Begin(n), f.acks, id);
  }

  lemma AckLink(d: nat, log: seq<Row>, chain: seq<ChainRow>, n: Node, f: ServerFrame, id: nat)
    requires FrameContext(d, log, chain, n, f, id) && f.UpdatesAck?
    ensures LinkInv(d, log, chain, Hear(n.link, n.sys.e, f), OnAck(Begin(n), f.acks, id).e)
  {
    if Accepts(n.sys.e, f.acks) {
      AckReady(d, log, chain, n, f, id);
      AckTakenLink(d, log, chain, n.link, Begin(n), f, id);
    } else {
      BeginSafe(d, log, chain, n);
      assert Seqs(Rows(f)) == {};
      AckRefusedLink(d, log, chain, n.link, Begin(n), f.acks, id);
    }
  }

  lemma AckTakenLink(d: nat, log: seq<Row>, chain: seq<ChainRow>, l: Link, s: Sys, f: ServerFrame, id: nat)
    requires f.UpdatesAck? && Accepts(s.e, f.acks) && LinkInv(d, log, chain, l, s.e) && PastPull(s.e.state)
    requires var n := f.acks[0].seqNo;
             1 <= n <= |log| && log[n - 1].blob.ops == s.e.inFlight.value.payload.ops <= s.e.doc.ops
    requires s.e.codec.Valid() && Closed(s.e.known) && Closed(s.e.inFlight.value.toVV) && ClosedFor(d, s.e.doc.ops)
    ensures LinkInv(d, log, chain, Hear(l, s.e, f), OnAck(s, f.acks, id).e)
  {
    HearsAck(l, s.e, f);
    AckAccepted(s, f.acks, id);
    AckStartsLink(d, log, chain, l, s, f.acks[0], id);
  }

  lemma AckReady(d: nat, log: seq<Row>, chain: seq<ChainRow>, n: Node, f: ServerFrame, id: nat)
    requires FrameContext(d, log, chain, n, f, id) && f.UpdatesAck? && Accepts(n.sys.e, f.acks)
    ensures var e := n.sys.e;
            && LinkInv(d, log, chain, n.link, e) && PastPull(e.state) && e.inFlight.Some?
            && 1 <= f.acks[0].seqNo <= |log|
            && log[f.acks[0].seqNo - 1].blob.ops == e.inFlight.value.payload.ops <= e.doc.ops
            && e.codec.Valid() && Closed(e.known) && Closed(e.inFlight.value.toVV) && ClosedFor(d, e.doc.ops)
  {
    BeginSafe(d, log, chain, n);
    AckAt(d, log, chain, n, f.acks);
    Shapes(d, log, n.minted, n.residue, Begin(n));
  }

  lemma HearsAck(l: Link, e: Engine, f: ServerFrame)
    requires f.UpdatesAck? && Accepts(e, f.acks)
    ensures Hear(l, e, f) == l.(got := l.got + {f.acks[0].seqNo})
  {
    assert Seqs(Rows(f)) == {};
  }

  lemma AckRefusedLink(d: nat, log: seq<Row>, chain: seq<ChainRow>, l: Link, s: Sys, acks: seq<PushAck>, id: nat)
    requires LinkInv(d, log, chain, l, s.e) && !Accepts(s.e, acks)
    ensures LinkInv(d, log, chain, l, OnAck(s, acks, id).e)
  {
    UnlearnedLink(d, log, chain, l, s.e, OnAck(s, acks, id).e);
  }

  // ---- the snapshot chain ----

  lemma SnapshotSafe(d: nat, log: seq<Row>, chain: seq<ChainRow>, n: Node, f: ServerFrame, id: nat)
    requires FrameContext(d, log, chain, n, f, id) && f.Snapshot? && n.sys.e.state == Bootstrapping
    ensures Safe(d, log, n.minted, n.residue + f.blob.ops, OnSnapshot(Begin(n), f.upToSeq, f.blob, f.complete))
  {
    BeginSafe(d, log, chain, n);
    ChainRowReaches(log, chain, n.link, n.sys.e.known, n.sys.e.doc.ops);
    OnSnapshotSound(d, log, n.minted, n.residue, Begin(n), f.upToSeq, f.blob, f.complete);
  }

  /** What a chain row makes of the fields the connection is about. */
  lemma SnapshotShape(s: Sys, upTo: nat, blob: Blob, complete: bool)
    requires s.e.state == Bootstrapping
    ensures var c := s.e.codec;
            var e := s.e.(doc := ApplyRemote(c, s.e.doc, [blob]), known := s.e.known + BlobRange(c, [blob]));
            var r := OnSnapshot(s, upTo, blob, complete).e;
            if complete then r.state == Pulling else r == e
  {}

  lemma SnapshotLink(d: nat, log: seq<Row>, chain: seq<ChainRow>, n: Node, f: ServerFrame, id: nat)
    requires FrameContext(d, log, chain, n, f, id) && f.Snapshot? && n.sys.e.state == Bootstrapping
    ensures var r := OnSnapshot(Begin(n), f.upToSeq, f.blob, f.complete).e;
            if f.complete then
              r.state == Pulling && LinkInv(d, log, chain, Link(r.contig, {}, |log|, n.link.chained), r)
            else r.state == Bootstrapping && LinkInv(d, log, chain, n.link.(chained := n.link.chained + 1), r)
  {
    BeginSafe(d, log, chain, n);
    SnapshotShape(Begin(n), f.upToSeq, f.blob, f.complete);
    if f.complete {
      var r := OnSnapshot(Begin(n), f.upToSeq, f.blob, f.complete);
      SnapshotSafe(d, log, chain, n, f, id);
      Shapes(d, log, n.minted, n.residue + f.blob.ops, r);
      PullLink(d, log, chain, r.e, n.link.chained);
    } else {
      SnapshotMid(n.sys.e.codec, d, log, chain, n.link, n.sys.e, f.blob);
    }
  }

  // ---- frames that only move the connection along ----

  lemma RequestSafe(d: nat, log: seq<Row>, chain: seq<ChainRow>, n: Node, f: ServerFrame, id: nat)
    requires FrameContext(d, log, chain, n, f, id) && f.SnapshotRequest?
    ensures Safe(d, log, n.minted, n.residue, Begin(n).(e := OnSnapshotRequest(n.sys.e, f.floor, f.base)))
  {
    BeginSafe(d, log, chain, n);
    RequestSound(d, log, n.minted, n.residue, Begin(n), f.floor, f.base);
  }

  lemma TurnSafe(d: nat, log: seq<Row>, chain: seq<ChainRow>, n: Node, f: ServerFrame, id: nat)
    requires FrameContext(d, log, chain, n, f, id) && QuietFrame(f) && !f.SnapshotRequest?
    ensures Safe(d, log, n.minted, n.residue, HandleFrame(Begin(n), f, id))
  {
    BeginSafe(d, log, chain, n);
    QuietFrames(Begin(n), f, id);
    TurnOutbox(log, n.minted, Durable(n.sys.st), Begin(n), f, id);
    QuietSound(d, log, n.minted, n.residue, Begin(n), HandleFrame(Begin(n), f, id));
  }

  lemma TurnOutbox(log: seq<Row>, m: map<nat, set<Op>>, disk: set<Op>, s: Sys, f: ServerFrame, id: nat)
    requires OutboxOk(log, m, disk, s.e.outbox) && QuietFrame(f) && !f.SnapshotRequest?
    requires s.e.contig <= |log| && Upto(log, s.e.contig) <= disk
    ensures OutboxOk(log, m, disk, HandleFrame(s, f, id).e.outbox)
  {}

  lemma TurnLink(d: nat, log: seq<Row>, chain: seq<ChainRow>, n: Node, f: ServerFrame, id: nat)
    requires FrameContext(d, log, chain, n, f, id) && QuietFrame(f)
    ensures LinkInv(d, log, chain, Turned(log, n.link, n.sys.e, HandleFrame(Begin(n), f, id).e),
                    HandleFrame(Begin(n), f, id).e)
  {
    QuietFrames(Begin(n), f, id);
    QuietTurnLink(d, log, chain, n, f, id, HandleFrame(Begin(n), f, id).e);
  }

  lemma QuietTurnLink(d: nat, log: seq<Row>, chain: seq<ChainRow>, n: Node, f: ServerFrame, id: nat, r: Engine)
    requires FrameContext(d, log, chain, n, f, id) && Quiet(n.sys.e, r)
    requires r.state in {n.sys.e.state, Disconnected, Pulling, Bootstrapping}
    ensures LinkInv(d, log, chain, Turned(log, n.link, n.sys.e, r), r)
  {
    BeginSafe(d, log, chain, n);
    if r.state == Pulling && n.sys.e.state != Pulling {
      Shapes(d, log, n.minted, n.residue, Begin(n));
      PullLink(d, log, chain, r, n.link.chained);
    } else if r.state == Bootstrapping && n.sys.e.state != Bootstrapping {
      assert ChainVV(chain, 0) == {};
    } else {
      UnlearnedLink(d, log, chain, n.link, n.sys.e, r);
    }
  }

  /** The link after a frame that may have started a pull or a bootstrap. */
  function Turned(log: seq<Row>, l: Link, e: Engine, r: Engine): Link {
    if r.state == Pulling && e.state != Pulling then Link(r.contig, {}, |log|, l.chained)
    else if r.state == Bootstrapping && e.state != Bootstrapping then l.(chained := 0)
    else l
  }

  // ---- any frame ----

  function ByFrame(e: Engine, f: ServerFrame, id: nat): Call { Bytes(Frame(e.docId, f), id) }

  function Gained(e: Engine, f: ServerFrame): set<Op> {
    if f.Snapshot? && e.state == Bootstrapping then f.blob.ops else {}
  }

  lemma BroadcastSafe(d: nat, log: seq<Row>, chain: seq<ChainRow>, n: Node, f: ServerFrame, id: nat)
    requires FrameContext(d, log, chain, n, f, id) && f.UpdatesBroadcast?
    ensures Safe(d, log, n.minted, n.residue, HandleFrame(Begin(n), f, id))
  {
    if n.sys.e.state != Bootstrapping { BatchLearns(d, log, chain, n, f, id); }
    BeginSafe(d, log, chain, n);
  }

  lemma StraySafe(d: nat, log: seq<Row>, chain: seq<ChainRow>, n: Node, f: ServerFrame, id: nat)
    requires FrameContext(d, log, chain, n, f, id) && f.Snapshot? && n.sys.e.state != Bootstrapping
    ensures Safe(d, log, n.minted, n.residue, HandleFrame(Begin(n), f, id))
  {
    BeginSafe(d, log, chain, n);
    QuietSound(d, log, n.minted, n.residue, Begin(n), HandleFrame(Begin(n), f, id));
  }

  lemma FrameSafe(d: nat, log: seq<Row>, chain: seq<ChainRow>, n: Node, f: ServerFrame, id: nat)
    requires FrameContext(d, log, chain, n, f, id)
    ensures Safe(d, log, n.minted, n.residue + Gained(n.sys.e, f), HandleFrame(Begin(n), f, id))
  {
    assert n.residue + {} == n.residue;
    match f {
      case UpdatesBatch(_, _) => BatchSafe(d, log, chain, n, f, id);
      case UpdatesBroadcast(_) => BroadcastSafe(d, log, chain, n, f, id);
      case UpdatesAck(_) => AckSafe(d, log, chain, n, f, id);
      case Snapshot(_, _, _) =>
        if n.sys.e.state == Bootstrapping {
          SnapshotSafe(d, log, chain, n, f, id);
        } else {
          StraySafe(d, log, chain, n, f, id);
        }
      case SnapshotRequest(_, _, _) => RequestSafe(d, log, chain, n, f, id);
      case _ => TurnSafe(d, log, chain, n, f, id);
    }
  }

  lemma BatchStates(s: Sys, updates: seq<StoredBlob>, complete: bool, id: nat)
    ensures var r := OnBatch(s, updates, complete, id).e.state; r == s.e.state || PastPull(r)
  {
    if s.e.state != Bootstrapping {
      BatchCases(s, updates, complete, id);
      RowsApplied(s, updates);
    }
  }

  lemma AckStates(s: Sys, acks: seq<PushAck>, id: nat)
    ensures var r := OnAck(s, acks, id).e.state; r == s.e.state || PastPull(r)
  {}

  /** A frame that starts neither a pull nor a bootstrap, and is no snapshot. */
  lemma NextIsHear(log: seq<Row>, l: Link, e: Engine, f: ServerFrame, id: nat, r: Engine)
    requires e.state != Disconnected && !f.Snapshot?
    requires r.state == e.state || PastPull(r.state)
    ensures NextLink(log, l, e, ByFrame(e, f, id), r) == Hear(l, e, f)
  {}

  lemma BroadcastLink(d: nat, log: seq<Row>, chain: seq<ChainRow>, n: Node, f: ServerFrame, id: nat)
    requires FrameContext(d, log, chain, n, f, id) && f.UpdatesBroadcast?
    ensures var r := HandleFrame(Begin(n), f, id).e;
            r.state == n.sys.e.state && LinkInv(d, log, chain, Hear(n.link, n.sys.e, f), r)
  {
    if n.sys.e.state != Bootstrapping {
      BatchLearns(d, log, chain, n, f, id);
    }
  }

  lemma RowsFrameLink(d: nat, log: seq<Row>, chain: seq<ChainRow>, n: Node, f: ServerFrame, id: nat)
    requires FrameContext(d, log, chain, n, f, id) && (f.UpdatesBatch? || f.UpdatesBroadcast?)
    ensures var r := HandleFrame(Begin(n), f, id).e;
            LinkInv(d, log, chain, NextLink(log, n.link, n.sys.e, ByFrame(n.sys.e, f, id), r), r)
  {
    var r := HandleFrame(Begin(n), f, id).e;
    if f.UpdatesBatch? {
      BatchLink(d, log, chain, n, f, id);
      BatchStates(Begin(n), f.updates, f.complete, id);
    } else {
      BroadcastLink(d, log, chain, n, f, id);
    }
    NextIsHear(log, n.link, n.sys.e, f, id, r);
  }

  lemma AckFrameLink(d: nat, log: seq<Row>, chain: seq<ChainRow>, n: Node, f: ServerFrame, id: nat)
    requires FrameContext(d, log, chain, n, f, id) && f.UpdatesAck?
    ensures var r := HandleFrame(Begin(n), f, id).e;
            LinkInv(d, log, chain, NextLink(log, n.link, n.sys.e, ByFrame(n.sys.e, f, id), r), r)
  {
    AckLink(d, log, chain, n, f, id);
    AckStates(Begin(n), f.acks, id);
    NextIsHear(log, n.link, n.sys.e, f, id, HandleFrame(Begin(n), f, id).e);
  }

  /** The link after a snapshot row. */
  lemma NextIsRow(log: seq<Row>, l: Link, e: Engine, f: ServerFrame, id: nat, r: Engine)
    requires e.state != Disconnected && f.Snapshot?
    requires e.state == Bootstrapping ==> r.state == (if f.complete then Pulling else Bootstrapping)
    requires e.state != Bootstrapping ==> r.state == e.state
    ensures NextLink(log, l, e, ByFrame(e, f, id), r) ==
            if e.state != Bootstrapping then l
            else if f.complete then Link(r.contig, {}, |log|, l.chained)
            else l.(chained := l.chained + 1)
  {
    assert Tells(e, f) == {};
  }

  lemma SnapshotFrameLink(d: nat, log: seq<Row>, chain: seq<ChainRow>, n: Node, f: ServerFrame, id: nat)
    requires FrameContext(d, log, chain, n, f, id) && f.Snapshot?
    ensures var r := HandleFrame(Begin(n), f, id).e;
            LinkInv(d, log, chain, NextLink(log, n.link, n.sys.e, ByFrame(n.sys.e, f, id), r), r)
  {
    if n.sys.e.state == Bootstrapping {
      SnapshotLink(d, log, chain, n, f, id);
    } else {
      SnapshotRefusedLink(d, log, chain, n, f, id);
    }
    NextIsRow(log, n.link, n.sys.e, f, id, HandleFrame(Begin(n), f, id).e);
  }

  lemma SnapshotRefusedLink(d: nat, log: seq<Row>, chain: seq<ChainRow>, n: Node, f: ServerFrame, id: nat)
    requires FrameContext(d, log, chain, n, f, id) && f.Snapshot? && n.sys.e.state != Bootstrapping
    ensures LinkInv(d, log, chain, n.link, HandleFrame(Begin(n), f, id).e)
  {
    UnlearnedLink(d, log, chain, n.link, n.sys.e, HandleFrame(Begin(n), f, id).e);
  }

  lemma TurnedIsNext(log: seq<Row>, l: Link, e: Engine, f: ServerFrame, id: nat, r: Engine)
    requires e.state != Disconnected && QuietFrame(f)
    ensures NextLink(log, l, e, ByFrame(e, f, id), r) == Turned(log, l, e, r)
  {
    assert Seqs(Rows(f)) == {};
  }

  lemma TurnFrameLink(d: nat, log: seq<Row>, chain: seq<ChainRow>, n: Node, f: ServerFrame, id: nat)
    requires FrameContext(d, log, chain, n, f, id) && QuietFrame(f)
    ensures var r := HandleFrame(Begin(n), f, id).e;
            LinkInv(d, log, chain, NextLink(log, n.link, n.sys.e, ByFrame(n.sys.e, f, id), r), r)
  {
    TurnLink(d, log, chain, n, f, id);
    TurnedIsNext(log, n.link, n.sys.e, f, id, HandleFrame(Begin(n), f, id).e);
  }

  lemma FrameLink(d: nat, log: seq<Row>, chain: seq<ChainRow>, n: Node, f: ServerFrame, id: nat)
    requires FrameContext(d, log, chain, n, f, id)
    ensures var r := HandleFrame(Begin(n), f, id).e;
            LinkInv(d, log, chain, NextLink(log, n.link, n.sys.e, ByFrame(n.sys.e, f, id), r), r)
  {
    match f {
      case UpdatesBatch(_, _) => RowsFrameLink(d, log, chain, n, f, id);
      case UpdatesBroadcast(_) => RowsFrameLink(d, log, chain, n, f, id);
      case UpdatesAck(_) => AckFrameLink(d, log, chain, n, f, id);
      case Snapshot(_, _, _) => SnapshotFrameLink(d, log, chain, n, f, id);
      case _ => TurnFrameLink(d, log, chain, n, f, id);
    }
  }

  // ---- any call ----

  /** `NextLink` and the residue, with the context a call is allowed in. */
  ghost predicate CallContext(w: World, d: nat, call: Call) {
    && d < |w.nodes| && ServerInv(w.log, w.chain) && NodeInv(d, w.log, w.chain, w.nodes[d])
    && Allowed(w, d, call)
  }

  ghost predicate Kept(w: World, d: nat, call: Call)
    requires d < |w.nodes|
  {
    var n := w.nodes[d];
    var r := Run(n.sys, call);
    && Safe(d, w.log, n.minted, n.residue + Chained(n.sys.e, call), r)
    && LinkInv(d, w.log, w.chain, NextLink(w.log, n.link, n.sys.e, call, r.e), r.e)
  }

  lemma BytesKept(w: World, d: nat, call: Call)
    requires CallContext(w, d, call) && call.Bytes?
    ensures Kept(w, d, call)
  {
    var n := w.nodes[d];
    if Heard(n.sys.e, call.input) {
      var f := call.input.frame;
      FrameSafe(d, w.log, w.chain, n, f, call.id);
      FrameLink(d, w.log, w.chain, n, f, call.id);
      assert call == ByFrame(n.sys.e, f, call.id);
      assert Run(n.sys, call) == HandleFrame(Begin(n), f, call.id);
    } else {
      UnheardKept(w, d, call);
    }
  }

  lemma UnheardKept(w: World, d: nat, call: Call)
    requires CallContext(w, d, call) && call.Bytes? && !Heard(w.nodes[d].sys.e, call.input)
    ensures Kept(w, d, call)
  {
    var n := w.nodes[d];
    BeginSafe(d, w.log, w.chain, n);
    assert n.residue + {} == n.residue;
    QuietSound(d, w.log, n.minted, n.residue, Begin(n), Run(n.sys, call));
    UnlearnedLink(d, w.log, w.chain, n.link, n.sys.e, Run(n.sys, call).e);
  }

  lemma IdleFlush(d: nat, log: seq<Row>, chain: seq<ChainRow>, n: Node, id: nat)
    requires ServerInv(log, chain) && NodeInv(d, log, chain, n) && n.sys.e.state == Idle && id !in n.minted
    ensures Safe(d, log, n.minted, n.residue, TryStartPush(Begin(n), id))
    ensures LinkInv(d, log, chain, n.link, TryStartPush(Begin(n), id).e)
  {
    BeginSafe(d, log, chain, n);
    Shapes(d, log, n.minted, n.residue, Begin(n));
    PastPullCaughtUp(d, log, chain, n.link, n.sys.e);
    TryStartPushSound(d, log, n.minted, n.residue, Begin(n), id);
    TryStartPushLink(d, log, chain, n.link, Begin(n), id);
  }

  lemma FlushKept(w: World, d: nat, call: Call)
    requires CallContext(w, d, call) && call.FlushCall?
    ensures Kept(w, d, call)
  {
    var n := w.nodes[d];
    BeginSafe(d, w.log, w.chain, n);
    assert n.residue + {} == n.residue;
    if n.sys.e.state == Idle {
      IdleFlush(d, w.log, w.chain, n, call.id);
    } else {
      QuietSound(d, w.log, n.minted, n.residue, Begin(n), Run(n.sys, call));
      UnlearnedLink(d, w.log, w.chain, n.link, n.sys.e, Run(n.sys, call).e);
    }
  }

  lemma StorageSafe(d: nat, log: seq<Row>, m: map<nat, set<Op>>, residue: set<Op>, s: Sys, call: Call)
    requires LogInv(log) && Safe(d, log, m, residue, s)
    requires call.CaptureOps? || call.FoldPast? || call.FoldNow? || call.OnDisk?
    ensures Safe(d, log, m, residue, Apply(s, call))
  {
    if call.CaptureOps? {
      CaptureSound(d, log, m, residue, s);
    } else if call.FoldPast? {
      FoldsSound(d, log, m, residue, s, call.maxRows, call.maxBytes);
    } else if call.FoldNow? {
      FoldsSound(d, log, m, residue, s, 0, 0);
    } else {
      NotifySound(d, log, m, residue, s, call.seqNo);
    }
  }

  lemma StorageKept(w: World, d: nat, call: Call)
    requires CallContext(w, d, call) && (call.CaptureOps? || call.FoldPast? || call.FoldNow? || call.OnDisk?)
    ensures Kept(w, d, call)
  {
    var n := w.nodes[d];
    BeginSafe(d, w.log, w.chain, n);
    assert n.residue + {} == n.residue;
    StorageSafe(d, w.log, n.minted, n.residue, Begin(n), call);
    StorageUnlearns(n.sys, call);
    UnlearnedLink(d, w.log, w.chain, n.link, n.sys.e, Run(n.sys, call).e);
  }

  lemma StorageUnlearns(s: Sys, call: Call)
    requires call.CaptureOps? || call.FoldPast? || call.FoldNow? || call.OnDisk?
    ensures Unlearned(s.e, Run(s, call).e)
  {}

  lemma CommitKept(w: World, d: nat, call: Call)
    requires CallContext(w, d, call) && call.Commit?
    ensures Kept(w, d, call)
  {
    var n := w.nodes[d];
    BeginSafe(d, w.log, w.chain, n);
    assert n.residue + {} == n.residue;
    CommitSound(d, w.log, n.minted, n.residue, Begin(n), call.ops);
    CommitLink(d, w.log, w.chain, n.link, n.sys.e, call.ops);
  }

  lemma ConnectionKept(w: World, d: nat, call: Call)
    requires CallContext(w, d, call) && (call.Connected? || call.Dropped? || call.Tick?)
    ensures Kept(w, d, call)
  {
    var n := w.nodes[d];
    var r := Run(n.sys, call);
    BeginSafe(d, w.log, w.chain, n);
    assert n.residue + {} == n.residue;
    QuietSound(d, w.log, n.minted, n.residue, Begin(n), r);
    if call.Connected? && n.sys.e.state == Disconnected {
      Shapes(d, w.log, n.minted, n.residue, Begin(n));
      ConnectLink(d, w.log, w.chain, n.sys.e);
    } else {
      UnlearnedLink(d, w.log, w.chain, n.link, n.sys.e, r.e);
    }
  }

  lemma CallKept(w: World, d: nat, call: Call)
    requires CallContext(w, d, call)
    ensures Kept(w, d, call)
  {
    match call {
      case Commit(_) => CommitKept(w, d, call);
      case CaptureOps => StorageKept(w, d, call);
      case FoldPast(_, _) => StorageKept(w, d, call);
      case FoldNow => StorageKept(w, d, call);
      case OnDisk(_) => StorageKept(w, d, call);
      case Connected => ConnectionKept(w, d, call);
      case Dropped => ConnectionKept(w, d, call);
      case Tick => ConnectionKept(w, d, call);
      case FlushCall(_) => FlushKept(w, d, call);
      case Bytes(_, _) => BytesKept(w, d, call);
    }
  }

  // ---- one step, one crash ----

  /** Same doc and codec, and the stores of before are the first ones still. */
  ghost predicate Grew(s: Sys, r: Sys) {
    r.e.codec == s.e.codec && r.e.docId == s.e.docId && s.history <= r.history
  }

  lemma TryStartPushGrew(s: Sys, id: nat)
    ensures Grew(s, TryStartPush(s, id))
  {}

  lemma {:induction false} AppendRowsGrew(s: Sys, updates: seq<StoredBlob>)
    ensures Grew(s, AppendRows(s, updates))
  {
    if updates != [] {
      AppendRowsGrew(s, updates[..|updates| - 1]);
    }
  }

  lemma ApplyRemoteGrew(s: Sys, updates: seq<StoredBlob>)
    ensures Grew(s, ApplyRemoteUpdates(s, updates))
  {
    if updates != [] {
      var c := s.e.codec;
      var e := s.e.(doc := ApplyRemote(c, s.e.doc, Blobs(updates)), known := s.e.known + BlobRange(c, Blobs(updates)));
      AppendRowsGrew(s.(e := e), updates);
    }
  }

  lemma BatchGrew(s: Sys, updates: seq<StoredBlob>, complete: bool, id: nat)
    ensures Grew(s, OnBatch(s, updates, complete, id))
  {
    if s.e.state != Bootstrapping {
      ApplyRemoteGrew(s, updates);
      BatchCases(s, updates, complete, id);
      TryStartPushGrew(Pulled(ApplyRemoteUpdates(s, updates)), id);
    }
  }

  lemma AckGrew(s: Sys, acks: seq<PushAck>, id: nat)
    ensures Grew(s, OnAck(s, acks, id))
  {
    if Accepts(s.e, acks) {
      AckAccepted(s, acks, id);
      TryStartPushGrew(Acked(s, acks[0]), id);
    } else {
      AckRefused(s, acks, id);
    }
  }

  lemma FrameGrew(s: Sys, f: ServerFrame, id: nat)
    ensures Grew(s, HandleFrame(s, f, id))
  {
    if QuietFrame(f) {
      QuietFrames(s, f, id);
    } else if f.UpdatesBatch? {
      BatchGrew(s, f.updates, f.complete, id);
    } else if f.UpdatesBroadcast? {
      ApplyRemoteGrew(s, f.updates);
    } else if f.UpdatesAck? {
      AckGrew(s, f.acks, id);
    }
  }

  lemma CallGrew(s: Sys, call: Call)
    ensures Grew(s, Apply(s, call))
  {
    match call {
      case Bytes(input, id) => if Heard(s.e, input) { FrameGrew(s, input.frame, id); }
      case FlushCall(id) => TryStartPushGrew(s, id);
      case _ =>
    }
  }

  /** Noting the record of a store a call passed through changes nothing else:
      the record is one already noted, or a new one. */
  lemma NoteExtends(c: Codec, d: nat, log: seq<Row>, m: map<nat, set<Op>>, st: Store)
    requires StoreInv(c, d, log, m, st)
    ensures Note(Note(m, st), st) == Note(m, st)
    ensures forall id :: id in m ==> id in Note(m, st) && Note(m, st)[id] == m[id]
    ensures StoreInv(c, d, log, Note(m, st), st)
  {}

  lemma SettleSound(d: nat, log: seq<Row>, m: map<nat, set<Op>>, residue: set<Op>, s: Sys)
    requires Sound(d, log, m, residue, s)
    ensures Sound(d, log, Note(m, s.st), residue - Durable(s.st), s)
  {
    NoteExtends(s.e.codec, d, log, m, s.st);
    assert Durable(s.st) + (residue - Durable(s.st)) == Durable(s.st) + residue;
  }

  lemma StepKeeps(w: World, d: nat, call: Call)
    requires CallContext(w, d, call)
    ensures NodeInv(d, w.log, w.chain, Step(w.log, w.nodes[d], call))
    ensures Durable(w.nodes[d].sys.st) <= Durable(Run(w.nodes[d].sys, call).st)
  {
    var n := w.nodes[d];
    var r := Run(n.sys, call);
    CallGrew(Begin(n), call);
    CallKept(w, d, call);
    CallCoherent(Begin(n), call);
    EngineDiscipline.CallKeeps(Begin(n), call);
    SettleSound(d, w.log, n.minted, n.residue + Chained(n.sys.e, call), r);
    NoteExtends(r.e.codec, d, w.log, n.minted, r.st);
  }

  lemma RestartKeeps(w: World, d: nat, call: Call, k: nat)
    requires CallContext(w, d, call) && k < |Run(w.nodes[d].sys, call).history|
    ensures NodeInv(d, w.log, w.chain, Restart(w.nodes[d], call, k))
    ensures Durable(w.nodes[d].sys.st) <= Durable(Run(w.nodes[d].sys, call).history[k])
    ensures Restart(w.nodes[d], call, k).sys.e.doc.ops == Durable(Run(w.nodes[d].sys, call).history[k])
  {
    var n := w.nodes[d];
    CallKept(w, d, call);
    CallGrew(Begin(n), call);
    var st := Run(n.sys, call).history[k];
    assert StoreInv(n.sys.e.codec, d, w.log, n.minted, st);
    RestartSound(n.sys.e.docId, n.sys.e.codec, d, w.log, n.minted, st);
    NoteExtends(n.sys.e.codec, d, w.log, n.minted, st);
    BootIsCoherent(n.sys.e.docId, n.sys.e.codec, st, [st]);
    EngineDiscipline.BootIsDisciplined(n.sys.e.docId, n.sys.e.codec, st);
  }
}

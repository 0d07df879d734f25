/** What the sync protocol is for, of every world any run reaches. */
module Replication {
  import opened Wrappers
  import opened Operations
  import opened Protocol
  import opened LocalStore
  import opened Documents
  import opened EngineSpec
  import opened EngineCoherence
  import EngineDiscipline
  import opened World
  import opened LogFacts
  import opened NodeInvariant
  import opened CallInvariant
  import opened LinkInvariant
  import opened StepInvariant
  import opened WorldInvariant

  /** A world some run of the system reaches. */
  ghost predicate Reached(w: World) {
    exists w0, steps :: Init(w0) && Runs(w0, steps) && Reach(w0, steps) == w
  }

  lemma ReachedInv(w: World)
    requires Reached(w)
    ensures WorldInv(w)
  {
    var w0, steps :| Init(w0) && Runs(w0, steps) && Reach(w0, steps) == w;
    Reachable(w0, steps);
  }

  lemma ReachedNode(w: World, d: nat)
    requires Reached(w) && d < |w.nodes|
    ensures ServerInv(w.log, w.chain) && NodeInv(d, w.log, w.chain, w.nodes[d])
  {
    ReachedInv(w);
  }

  // ---- convergence ----

  /** A device whose frontier is `k` holds every operation of rows 1 to `k`,
      in its doc and on its disk, and nothing it did not mint itself that is
      not in the log. */
  lemma FrontierSound(w: World, d: nat)
    requires Reached(w) && d < |w.nodes|
    ensures var n := w.nodes[d];
            && n.sys.e.contig <= |w.log|
            && (forall i :: 0 <= i < n.sys.e.contig ==>
                  w.log[i].blob.ops <= Durable(n.sys.st) <= n.sys.e.doc.ops)
            && (forall o :: o in n.sys.e.doc.ops && o.peer.device != d ==>
                  exists i :: 0 <= i < |w.log| && o in w.log[i].blob.ops)
  {
    ReachedNode(w, d);
    var n := w.nodes[d];
    forall i | 0 <= i < n.sys.e.contig ensures w.log[i].blob.ops <= Durable(n.sys.st) {
      UptoRow(w.log, i, n.sys.e.contig);
    }
    forall o | o in n.sys.e.doc.ops && o.peer.device != d
      ensures exists i :: 0 <= i < |w.log| && o in w.log[i].blob.ops
    {
      var i := UptoHas(w.log, |w.log|, o);
    }
  }

  /** At rest: nothing the server has is missing, nothing is unsent. */
  predicate Settled(w: World, d: nat)
    requires d < |w.nodes|
  {
    w.nodes[d].sys.e.contig == |w.log| && !HasUnsyncedOps(w.nodes[d].sys.e)
  }

  /** Convergence: a settled device holds exactly the union of the log. */
  lemma SettledHoldsTheLog(w: World, d: nat)
    requires Reached(w) && d < |w.nodes| && Settled(w, d)
    ensures w.nodes[d].sys.e.doc.ops == All(w.log)
  {
    ReachedNode(w, d);
    var e := w.nodes[d].sys.e;
    assert e.codec.Bounded(e.doc.ops);
  }

  lemma Convergence(w: World)
    requires Reached(w) && forall d :: 0 <= d < |w.nodes| ==> Settled(w, d)
    ensures forall a, b :: 0 <= a < |w.nodes| && 0 <= b < |w.nodes| ==>
              w.nodes[a].sys.e.doc.ops == w.nodes[b].sys.e.doc.ops == All(w.log)
  {
    forall d | 0 <= d < |w.nodes| ensures w.nodes[d].sys.e.doc.ops == All(w.log) {
      SettledHoldsTheLog(w, d);
    }
  }

  // ---- at most once ----

  /** No operation is in two rows of the log, whatever was retried, lost,
      repeated or crashed. */
  lemma AtMostOnce(w: World, i: nat, j: nat)
    requires Reached(w) && i < j < |w.log|
    ensures w.log[i].blob.ops !! w.log[j].blob.ops
  {
    ReachedInv(w);
    var a, b := w.log[i], w.log[j];
    assert a in w.log && b in w.log;
    if a.device == b.device {
      RowMinted(w, i);
      RowMinted(w, j);
      var n := w.nodes[a.device];
      assert NodeInv(a.device, w.log, w.chain, n);
      assert MintsOk(n.sys.e.codec, a.device, w.log, n.sys.st, n.minted);
    }
  }

  /** Rows come from devices of the world. */
  lemma RowMinted(w: World, i: nat)
    requires Reached(w) && i < |w.log|
    ensures w.log[i].device < |w.nodes|
    ensures var r := w.log[i];
            r.pushId in w.nodes[r.device].minted && w.nodes[r.device].minted[r.pushId] == r.blob.ops
  {
    ReachedInv(w);
    var r := w.log[i];
    assert r in w.log;
    var n := w.nodes[r.device];
    assert NodeInv(r.device, w.log, w.chain, n);
  }

  lemma {:induction false} NodesStay(w0: World, steps: seq<Label>)
    requires Init(w0) && Runs(w0, steps)
    ensures |Reach(w0, steps).nodes| == |w0.nodes|
  {
    if steps != [] {
      NodesStay(w0, steps[..|steps| - 1]);
    }
  }

  /** What a device is pushing is not in the log unless as this very push. */
  lemma PushIsNew(w: World, d: nat, i: nat)
    requires Reached(w) && d < |w.nodes| && w.nodes[d].sys.e.inFlight.Some? && i < |w.log|
    requires w.log[i].device != d || w.log[i].pushId != w.nodes[d].sys.e.inFlight.value.id
    ensures w.log[i].blob.ops !! w.nodes[d].sys.e.inFlight.value.payload.ops
  {
    ReachedNode(w, d);
    RowMinted(w, i);
    var n := w.nodes[d];
    var p := n.sys.e.inFlight.value;
    var r := w.log[i];
    assert r in w.log;
    assert p.id in n.minted && n.minted[p.id] == p.payload.ops;
    assert MintOk(n.sys.e.codec, d, w.log, n.sys.st, p.id, n.minted[p.id]);
  }

  // ---- nothing is lost ----

  /** Crash replay is exact: whichever write a crash follows, the device boots
      with everything captured or applied before the call, but the residue of
      an unfinished snapshot chain, and that residue is in the log. */
  lemma CrashReplay(w: World, d: nat, call: Call, k: nat)
    requires Reached(w) && Enabled(w, Crash(d, call, k))
    ensures var n := w.nodes[d];
            var r := Restart(n, call, k);
            && r.sys.e.doc.ops == Durable(r.sys.st)
            && n.sys.e.doc.ops * n.sys.e.doc.persisted - n.residue <= r.sys.e.doc.ops
            && Durable(n.sys.st) <= r.sys.e.doc.ops
            && n.residue <= All(w.log)
  {
    ReachedInv(w);
    InContext(w, d, call);
    RestartKeeps(w, d, call, k);
  }

  /** What a device has captured is what is on its disk and that residue. */
  lemma CapturedIsOnDisk(w: World, d: nat)
    requires Reached(w) && d < |w.nodes|
    ensures var n := w.nodes[d];
            n.sys.e.doc.ops * n.sys.e.doc.persisted == Durable(n.sys.st) + n.residue
    ensures var n := w.nodes[d];
            forall o :: o in n.sys.e.doc.ops - n.sys.e.doc.persisted ==> o.peer.device == d
  {
    ReachedNode(w, d);
  }

  /** No step of any device, and no crash, takes anything off a disk. */
  lemma DiskKeeps(w: World, l: Label, d: nat)
    requires Reached(w) && Enabled(w, l) && d < |w.nodes|
    ensures |Next(w, l).nodes| == |w.nodes|
    ensures Durable(w.nodes[d].sys.st) <= Durable(Next(w, l).nodes[d].sys.st)
  {
    ReachedInv(w);
    if l.Do? && l.device == d {
      InContext(w, d, l.call);
      StepKeeps(w, d, l.call);
    } else if l.Crash? && l.device == d {
      InContext(w, d, l.call);
      RestartKeeps(w, d, l.call, l.writes);
    }
  }

  /** Nor does any run: what was on disk after `j` steps is there after all. */
  lemma {:induction false} RunKeepsDisk(w0: World, steps: seq<Label>, j: nat, d: nat)
    requires Init(w0) && Runs(w0, steps) && j <= |steps| && d < |w0.nodes|
    ensures Runs(w0, steps[..j]) && |Reach(w0, steps[..j]).nodes| == |Reach(w0, steps).nodes| == |w0.nodes|
    ensures Durable(Reach(w0, steps[..j]).nodes[d].sys.st) <= Durable(Reach(w0, steps).nodes[d].sys.st)
    decreases |steps|
  {
    NodesStay(w0, steps);
    if j == |steps| {
      assert steps[..j] == steps;
    } else {
      var before := steps[..|steps| - 1];
      RunKeepsDisk(w0, before, j, d);
      assert before[..j] == steps[..j];
      assert Reached(Reach(w0, before));
      DiskKeeps(Reach(w0, before), steps[|steps| - 1], d);
    }
  }

  // ---- the resume cursor ----

  /** The acks a device has sent, the row it calls durable and its frontier
      never overtake one another. */
  lemma CursorsInOrder(w: World, d: nat)
    requires Reached(w) && d < |w.nodes|
    ensures var n := w.nodes[d];
            n.sys.e.sentAck <= n.sys.e.durable == n.sys.st.ackedSeq <= n.sys.e.contig <= |w.log|
  {
    ReachedNode(w, d);
  }

  /** Wherever a crash falls, the cursor the device resumes from skips
      nothing: the doc it boots and the version vector it boots with both hold
      every row up to it. */
  lemma ResumeSkipsNothing(w: World, d: nat, call: Call, k: nat, i: nat)
    requires Reached(w) && Enabled(w, Crash(d, call, k))
    requires i < Restart(w.nodes[d], call, k).sys.e.contig
    ensures i < |w.log|
    ensures w.log[i].blob.ops <= Restart(w.nodes[d], call, k).sys.e.doc.ops
    ensures w.log[i].blob.ops <= Restart(w.nodes[d], call, k).sys.e.known
  {
    ReachedInv(w);
    InContext(w, d, call);
    RestartKeeps(w, d, call, k);
    UptoRow(w.log, i, Restart(w.nodes[d], call, k).sys.e.contig);
  }

  /** The recorded version vector may run ahead of the booted doc, but only
      over rows of other devices, which the next pull brings again. */
  lemma AheadOnlyOfOthers(w: World, d: nat, call: Call, k: nat, o: Op)
    requires Reached(w) && Enabled(w, Crash(d, call, k))
    requires o in Restart(w.nodes[d], call, k).sys.e.known - Restart(w.nodes[d], call, k).sys.e.doc.ops
    ensures o.peer.device != d
    ensures exists i :: Restart(w.nodes[d], call, k).sys.e.contig <= i < |w.log| && o in w.log[i].blob.ops
  {
    ReachedInv(w);
    InContext(w, d, call);
    RestartKeeps(w, d, call, k);
    var r := Restart(w.nodes[d], call, k);
    if o.peer.device == d {
      OwnLogged(r.sys.e.codec, d, w.log, r.minted, r.sys.st, o);
    }
    var i := UptoHas(w.log, |w.log|, o);
    if i < r.sys.e.contig {
      UptoRow(w.log, i, r.sys.e.contig);
    }
  }

  /** What a device acks, or asks to resume from, it has on disk: now, and
      after any crash. */
  lemma AckedIsDurable(w: World, d: nat, f: ClientFrame, n: nat, i: nat)
    requires Reached(w) && d < |w.nodes| && (f in w.nodes[d].sys.e.outbox || (d, f) in w.wire)
    requires f == Ack(n) || f == PullUpdates(n)
    requires i < n
    ensures n <= |w.log| && w.log[i].blob.ops <= Durable(w.nodes[d].sys.st)
  {
    ReachedInv(w);
    assert NodeInv(d, w.log, w.chain, w.nodes[d]);
    assert FrameOk(w.log, w.nodes[d].minted, Durable(w.nodes[d].sys.st), f);
    UptoRow(w.log, i, n);
  }

  // ---- pushes are on disk before they are anywhere else ----

  ghost predicate Carries(f: ClientFrame, id: nat, ops: set<Op>) {
    f.PushUpdates? && exists p :: p in f.updates && p.id == id && p.blob.ops == ops
  }

  /** Whatever push a device has queued, sent or recorded, its disk holds it,
      now and after any crash. */
  lemma PushedIsDurable(w: World, d: nat, id: nat, ops: set<Op>)
    requires Reached(w) && d < |w.nodes|
    requires
      || (exists f :: f in w.nodes[d].sys.e.outbox && Carries(f, id, ops))
      || (exists f :: (d, f) in w.wire && Carries(f, id, ops))
      || (w.nodes[d].sys.st.inFlight.Some? && w.nodes[d].sys.st.inFlight.value.payload.ops == ops
          && w.nodes[d].sys.st.inFlight.value.id == id)
    ensures ops <= Durable(w.nodes[d].sys.st) <= w.nodes[d].sys.e.doc.ops && OwnedBy(d, ops)
  {
    ReachedInv(w);
    var n := w.nodes[d];
    assert NodeInv(d, w.log, w.chain, n);
    if f :| f in n.sys.e.outbox && Carries(f, id, ops) {
      assert FrameOk(w.log, n.minted, Durable(n.sys.st), f);
    } else if f :| (d, f) in w.wire && Carries(f, id, ops) {
      assert FrameOk(w.log, n.minted, Durable(n.sys.st), f);
    }
    assert MintOk(n.sys.e.codec, d, w.log, n.sys.st, id, n.minted[id]);
  }

  /** So an ack, before or after a crash, never makes a device claim the
      server has an operation of its own that it lacks itself. */
  lemma KnowsItsOwn(w: World, d: nat, o: Op)
    requires Reached(w) && d < |w.nodes|
    requires o in w.nodes[d].sys.e.known && o.peer.device == d
    ensures o in Durable(w.nodes[d].sys.st) && o in All(w.log)
  {
    ReachedNode(w, d);
    var n := w.nodes[d];
    OwnLogged(n.sys.e.codec, d, w.log, n.minted, n.sys.st, o);
  }

  // ---- the snapshot chain ----

  /** Whatever device past its pull is asked, and from whatever base inside
      what it knows: the snapshot it makes is, with its base, exactly what its
      version vector says; that is every row up to its sequence number, and
      nothing the log has not. */
  lemma ProducedSound(w: World, d: nat, floor: nat, base: Option<SnapshotBase>)
    requires Reached(w) && d < |w.nodes| && PastPull(w.nodes[d].sys.e.state)
    requires base.Some? ==> base.value.vv <= w.nodes[d].sys.e.known
    ensures var e := w.nodes[d].sys.e;
            var f := Produced(e, floor, base);
            var from := if base.Some? then base.value.vv else {};
            && f.upToSeq == e.contig <= |w.log|
            && Upto(w.log, f.upToSeq) <= from + f.blob.ops == f.upToVV <= All(w.log)
            && f.blob.ops !! from
  {
    ReachedNode(w, d);
    var n := w.nodes[d];
    ProducedReaches(d, w.log, w.chain, n.link, n.sys.e, floor, base);
  }

  /** Importing the chain in order gives, after each row, exactly its version
      vector; that is every row of the log up to its sequence number, and
      nothing the log has not. */
  lemma ChainSound(w: World, k: nat)
    requires Reached(w) && 0 < k <= |w.chain|
    ensures w.chain[k - 1].upToSeq <= |w.log|
    ensures Upto(w.log, w.chain[k - 1].upToSeq) <= ChainOps(w.chain, k) == w.chain[k - 1].upToVV <= All(w.log)
    ensures 1 < k ==> w.chain[k - 1].blob.ops !! ChainOps(w.chain, k - 1)
  {
    ReachedServer(w);
    ChainAt(w.log, w.chain, k);
  }

  lemma ReachedServer(w: World)
    requires Reached(w)
    ensures ServerInv(w.log, w.chain)
  {
    ReachedInv(w);
  }

  /** Of any engine: with its base a snapshot is exactly what its version
      vector says when, and only when, the doc and the base hold all that is
      known. Rows of one device out of order would leave the doc short. */
  lemma SnapshotExact(e: Engine, floor: nat, base: Option<SnapshotBase>)
    requires base.Some? ==> base.value.vv <= e.known
    ensures var f := Produced(e, floor, base);
            var from := if base.Some? then base.value.vv else {};
            from + f.blob.ops == f.upToVV <==> e.known <= e.doc.ops + from
  {}

  /** One such: a device that holds nothing is sent the second operation of a
      peer without the first. */
  lemma OutOfOrderFallsShort(s: Sys, u: StoredBlob, peer: Peer, floor: nat)
    requires s.e.codec.Valid() && s.e.doc.ops == s.e.known == {} && u.blob.ops == {Op(peer, 1)}
    ensures var f := Produced(ApplyRemoteUpdates(s, [u]).e, floor, None);
            Op(peer, 0) in f.upToVV - f.blob.ops
  {
    RowsApplied(s, [u]);
    assert Blobs([u]) == [u.blob];
    OneBlob(s.e.codec, u.blob);
    assert s.e.codec.Bounded(u.blob.ops);
    assert UpTo(Op(peer, 0), Op(peer, 1));
  }

  lemma RowsDistinct(w: World)
    requires Reached(w)
    ensures forall i, j :: 0 <= i < j < |w.log| ==> w.log[i].blob.ops !! w.log[j].blob.ops
    ensures forall i :: 0 <= i < |w.log| ==> w.log[i].blob.ops != {}
  {
    forall i, j | 0 <= i < j < |w.log| ensures w.log[i].blob.ops !! w.log[j].blob.ops {
      AtMostOnce(w, i, j);
    }
    forall i | 0 <= i < |w.log| ensures w.log[i].blob.ops != {} {
      RowMinted(w, i);
      var r := w.log[i];
      ReachedNode(w, r.device);
      var n := w.nodes[r.device];
      assert MintOk(n.sys.e.codec, r.device, w.log, n.sys.st, r.pushId, n.minted[r.pushId]);
    }
  }

  /** The sequence number a snapshot is tagged with says exactly what its
      version vector says, when, and only when, every row the device was
      delivered or acked since it asked for its pull is behind its frontier. */
  lemma TagIsTwin(w: World, d: nat, floor: nat, base: Option<SnapshotBase>)
    requires Reached(w) && d < |w.nodes| && PastPull(w.nodes[d].sys.e.state)
    ensures var f := Produced(w.nodes[d].sys.e, floor, base);
            && f.upToSeq <= |w.log|
            && (f.upToVV == Upto(w.log, f.upToSeq) <==>
                  forall k :: k in w.nodes[d].link.got ==> k <= w.nodes[d].sys.e.contig)
  {
    ReachedNode(w, d);
    RowsDistinct(w);
    var n := w.nodes[d];
    KnowsItsFrontier(d, w.log, w.chain, n.link, n.sys.e);
  }

  /** The last row of the chain reaches a bootstrapping device. */
  predicate EndsBootstrap(n: Node, call: Call) {
    && call.Bytes? && Heard(n.sys.e, call.input) && n.sys.e.state == Bootstrapping
    && call.input.frame.Snapshot? && call.input.frame.complete
  }

  /** A device that finishes a bootstrap resumes from the chain's end with
      every row up to there on disk, and all its unsent work. */
  lemma BootstrapComplete(w: World, d: nat, call: Call)
    requires Reached(w) && Enabled(w, Do(d, call)) && EndsBootstrap(w.nodes[d], call)
    ensures var r := Run(w.nodes[d].sys, call);
            && call.input.frame.upToSeq <= r.e.contig <= |w.log|
            && r.e.outbox == w.nodes[d].sys.e.outbox + [PullUpdates(r.e.contig)]
            && Upto(w.log, r.e.contig) <= Durable(r.st)
            && w.nodes[d].sys.e.doc.ops <= Durable(r.st) == r.e.doc.ops
            && r.st.wal == [] && r.e.walRows == 0
  {
    EndsSound(w, d, call);
    EndsWithSnapshot(w.nodes[d], call);
    CheckpointEnds(Begin(w.nodes[d]), call.input.frame.upToSeq, call.input.frame.blob);
  }

  /** The server sends a pull from below its floor back to the chain. The pull
      that follows a bootstrap is one exactly when neither the device's own
      frontier nor the chain's end reaches the floor. */
  lemma SentBack(w: World, d: nat, call: Call, floor: nat)
    requires Reached(w) && Enabled(w, Do(d, call)) && EndsBootstrap(w.nodes[d], call)
    ensures var r := Run(w.nodes[d].sys, call).e;
            && r.outbox == w.nodes[d].sys.e.outbox + [PullUpdates(r.contig)]
            && (r.contig < floor <==> w.nodes[d].sys.e.contig < floor && call.input.frame.upToSeq < floor)
  {
    BootstrapComplete(w, d, call);
    EndsWithSnapshot(w.nodes[d], call);
  }

  lemma EndsWithSnapshot(n: Node, call: Call)
    requires EndsBootstrap(n, call)
    ensures Run(n.sys, call) == OnSnapshot(Begin(n), call.input.frame.upToSeq, call.input.frame.blob, true)
  {}

  lemma EndsSound(w: World, d: nat, call: Call)
    requires Reached(w) && Enabled(w, Do(d, call))
    ensures var r := Run(w.nodes[d].sys, call);
            r.e.contig <= |w.log| && Upto(w.log, r.e.contig) <= Durable(r.st)
    ensures var s := w.nodes[d].sys;
            StatsAgree(s.e, s.st) && Durable(s.st) <= s.e.doc.ops
  {
    ReachedInv(w);
    InContext(w, d, call);
    StepKeeps(w, d, call);
    ResumesSound(d, w.log, w.chain, Step(w.log, w.nodes[d], call));
    ResumesSound(d, w.log, w.chain, w.nodes[d]);
  }

  lemma ResumesSound(d: nat, log: seq<Row>, chain: seq<ChainRow>, n: Node)
    requires NodeInv(d, log, chain, n)
    ensures n.sys.e.contig <= |log| && Upto(log, n.sys.e.contig) <= Durable(n.sys.st)
    ensures StatsAgree(n.sys.e, n.sys.st) && Durable(n.sys.st) <= n.sys.e.doc.ops
  {}

  lemma CheckpointEnds(s: Sys, upTo: nat, blob: Blob)
    requires s.e.state == Bootstrapping && StatsAgree(s.e, s.st)
    requires Durable(s.st) <= s.e.doc.ops
    ensures var r := OnSnapshot(s, upTo, blob, true);
            && upTo <= r.e.contig && r.e.outbox == s.e.outbox + [PullUpdates(r.e.contig)]
            && s.e.doc.ops <= r.e.doc.ops == Durable(r.st) && r.st.wal == [] && r.e.walRows == 0
  {
    RetainedNothing(s.st.wal, s.e.lastLocalSeq);
    var doc := ApplyRemote(s.e.codec, s.e.doc, [blob]);
    var k := WriteKnown(s.st, s.e.known + BlobRange(s.e.codec, [blob]));
    DurableWriteSnapshot(k, s.e.lastLocalSeq, SnapshotBlob(s.e.codec, doc));
  }

  /** The stores a finishing bootstrap passes through: as it was, with the
      version vector recorded, with the merged doc written. */
  lemma CheckpointStores(s: Sys, upTo: nat, blob: Blob)
    requires s.e.state == Bootstrapping && s.history == [s.st] && Durable(s.st) <= s.e.doc.ops
    ensures var h := OnSnapshot(s, upTo, blob, true).history;
            && |h| == 3 && h[0] == s.st
            && h[1] == s.st.(knownVV := s.e.known + s.e.codec.bound(blob.ops))
            && h[2].knownVV == h[1].knownVV && Durable(h[2]) == s.e.doc.ops + blob.ops
  {
    var c := s.e.codec;
    assert [blob][..0] == [];
    assert BlobRange(c, [blob]) == BlobRange(c, [blob][..0]) + c.bound(blob.ops);
    assert BlobOps([blob]) == BlobOps([blob][..0]) + blob.ops;
    var k := WriteKnown(s.st, s.e.known + BlobRange(c, [blob]));
    DurableWriteSnapshot(k, s.e.lastLocalSeq, SnapshotBlob(c, ApplyRemote(c, s.e.doc, [blob])));
  }

  /** The row that ends a bootstrap, with what is known already, reaches all
      the version range it declares. */
  lemma LastRowReaches(w: World, d: nat, call: Call)
    requires Reached(w) && d < |w.nodes| && Allowed(w, d, call) && EndsBootstrap(w.nodes[d], call)
    ensures var e := w.nodes[d].sys.e;
            var blob := call.input.frame.blob;
            blob.ops <= e.codec.bound(blob.ops) <= e.known + blob.ops
  {
    ReachedNode(w, d);
    var n := w.nodes[d];
    ChainRowReaches(w.log, w.chain, n.link, n.sys.e.known, n.sys.e.doc.ops);
    BoundLeast(n.sys.e.codec, call.input.frame.blob.ops, w.chain[n.link.chained].upToVV);
  }

  lemma RestartKnows(n: Node, call: Call, k: nat)
    requires k < |Run(n.sys, call).history| && n.sys.e.codec.Valid()
    ensures var r := Restart(n, call, k);
            && r.sys.e.known == Run(n.sys, call).history[k].knownVV
            && r.sys.e.doc.ops == Durable(Run(n.sys, call).history[k])
  {
    ReplayIsDurable(n.sys.e.codec, Run(n.sys, call).history[k]);
  }

  /** What a device boots with if it crashes while a bootstrap's checkpoint is
      written. The version vector goes first: after it alone, the device takes
      the server to have more than it holds itself unless everything it knew,
      and the last row, was already on disk. The doc goes second, and leaves
      ahead only what was known and in neither the doc nor the last row. */
  lemma CheckpointGap(w: World, d: nat, call: Call)
    requires Reached(w) && Enabled(w, Do(d, call)) && EndsBootstrap(w.nodes[d], call)
    ensures |Run(w.nodes[d].sys, call).history| == 3
    ensures var n := w.nodes[d];
            var blob := call.input.frame.blob;
            var r1, r2 := Restart(n, call, 1), Restart(n, call, 2);
            && r1.sys.e.doc.ops == Durable(n.sys.st)
            && (r1.sys.e.known <= r1.sys.e.doc.ops <==> n.sys.e.known + blob.ops <= Durable(n.sys.st))
            && r2.sys.e.doc.ops == n.sys.e.doc.ops + blob.ops
            && (r2.sys.e.known <= r2.sys.e.doc.ops <==> n.sys.e.known <= n.sys.e.doc.ops + blob.ops)
  {
    var n := w.nodes[d];
    EndsSound(w, d, call);
    EndsWithSnapshot(n, call);
    CheckpointStores(Begin(n), call.input.frame.upToSeq, call.input.frame.blob);
    LastRowReaches(w, d, call);
    ReachedNode(w, d);
    RestartKnows(n, call, 1);
    RestartKnows(n, call, 2);
  }
}

/** What a connected engine has learned from its connection. This is what
    makes a fresh push contain nothing the log already has, and a snapshot
    contain everything it claims. */
module LinkInvariant {
  import opened Wrappers
  import opened Operations
  import opened Protocol
  import opened LocalStore
  import opened Documents
  import opened EngineSpec
  import opened EngineCoherence
  import opened World
  import opened LogFacts
  import opened NodeInvariant
  import opened CallInvariant

  /** Mid-chain: the rows imported so far reach the last one's version vector. */
  ghost predicate BootInv(chain: seq<ChainRow>, l: Link, known: set<Op>, ops: set<Op>) {
    l.chained <= |chain| && ChainVV(chain, l.chained) <= known * ops
  }

  /** The rows up to the pull's cursor and those told of since are known and
      held; and nothing is known, nor will be when the push is acked, but what
      the connection tells of. */
  ghost predicate ToldInv(d: nat, log: seq<Row>, l: Link, e: Engine)
    requires l.base <= |log|
  {
    && l.since <= e.contig && l.since <= |log| && Upto(log, l.since) <= e.known * e.doc.ops
    && GotHeld(log, l.got, e.known * e.doc.ops)
    && e.known <= Told(log, l)
    && PushTold(log, l, e.inFlight)
    && Within(d, e.doc.ops, e.known + Upto(log, l.base))
  }

  ghost predicate GotHeld(log: seq<Row>, got: set<nat>, s: set<Op>) {
    forall k :: k in got ==> 1 <= k <= |log| && log[k - 1].blob.ops <= s
  }

  ghost predicate PushTold(log: seq<Row>, l: Link, inFlight: Option<InFlight>)
    requires l.base <= |log|
  {
    inFlight.Some? ==>
      inFlight.value.payload.ops <= inFlight.value.toVV <= inFlight.value.payload.ops + Told(log, l)
  }

  /** The pull's answer has come. */
  ghost predicate Answered(l: Link) { forall k :: l.since < k <= l.base ==> k in l.got }

  ghost predicate LinkInv(d: nat, log: seq<Row>, chain: seq<ChainRow>, l: Link, e: Engine) {
    e.state != Disconnected ==>
      && l.base <= |log|
      && (if e.state == Bootstrapping then BootInv(chain, l, e.known, e.doc.ops) else ToldInv(d, log, l, e))
      && (PastPull(e.state) ==> Answered(l))
  }

  // ---- calls that leave the connection's facts alone ----

  ghost predicate Unlearned(e: Engine, r: Engine) {
    && r.doc.ops == e.doc.ops && r.known == e.known && r.inFlight == e.inFlight && e.contig <= r.contig
    && (r.state == e.state || r.state == Disconnected || (PastPull(e.state) && PastPull(r.state)))
  }

  lemma UnlearnedLink(d: nat, log: seq<Row>, chain: seq<ChainRow>, l: Link, e: Engine, r: Engine)
    requires LinkInv(d, log, chain, l, e) && Unlearned(e, r)
    ensures LinkInv(d, log, chain, l, r)
  {}

  lemma CommitLink(d: nat, log: seq<Row>, chain: seq<ChainRow>, l: Link, e: Engine, ops: set<Op>)
    requires LinkInv(d, log, chain, l, e) && OwnedBy(d, ops)
    ensures LinkInv(d, log, chain, l, e.(doc := e.doc.(ops := e.doc.ops + ops)))
  {}

  /** What any sound device gives a connection to start from. */
  ghost predicate Starts(d: nat, log: seq<Row>, e: Engine) {
    && e.known <= All(log) && Within(d, e.doc.ops, All(log))
    && (e.inFlight.Some? ==> PushOk(log, e.inFlight.value.payload, e.inFlight.value.toVV))
    && e.contig <= |log| && Upto(log, e.contig) <= e.known * e.doc.ops
  }

  lemma ConnectLink(d: nat, log: seq<Row>, chain: seq<ChainRow>, e: Engine)
    requires Starts(d, log, e) && e.state == Disconnected
    ensures LinkInv(d, log, chain, Link(0, {}, |log|, 0), HandleConnected(e))
  {
    assert GotOps(log, {}) == {};
  }

  /** A pull is asked for, the first or the one after a bootstrap: whatever is
      known by then is what its answer brings. */
  lemma PullLink(d: nat, log: seq<Row>, chain: seq<ChainRow>, e: Engine, chained: nat)
    requires Starts(d, log, e) && e.state == Pulling
    ensures LinkInv(d, log, chain, Link(e.contig, {}, |log|, chained), e)
  {
    assert GotOps(log, {}) == {};
  }

  // ---- past the pull ----

  /** The pull answer is complete: nothing there when it was asked is missing,
      so whatever the doc holds of others the server has, and what is known is
      what the connection told of. */
  lemma PullCompletes(d: nat, log: seq<Row>, l: Link, e: Engine)
    requires l.base <= |log| && ToldInv(d, log, l, e) && Answered(l)
    ensures CaughtUp(d, e) && e.known == Told(log, l) <= e.doc.ops
  {
    forall o | o in Upto(log, l.base) ensures o in e.known * e.doc.ops {
      var i := UptoHas(log, l.base, o);
      if i < l.since {
        UptoRow(log, i, l.since);
      } else {
        assert i + 1 in l.got;
        assert log[(i + 1) - 1].blob.ops <= e.known * e.doc.ops;
      }
    }
    forall o | o in GotOps(log, l.got) ensures o in e.known * e.doc.ops {
      var k :| k in l.got && o in RowOps(log, k);
      assert log[k - 1].blob.ops <= e.known * e.doc.ops;
    }
  }

  /** The last of the answer: the engine turns to what it has to push. */
  lemma PulledLink(d: nat, log: seq<Row>, chain: seq<ChainRow>, l: Link, a: Sys, id: nat)
    requires LinkInv(d, log, chain, l, a.e) && a.e.state == Pulling && Answered(l)
    requires a.e.codec.Valid() && Closed(a.e.known) && ClosedFor(d, a.e.doc.ops)
    ensures LinkInv(d, log, chain, l, TryStartPush(Pulled(a), id).e)
  {
    TryStartPushLink(d, log, chain, l, Pulled(a), id);
  }

  lemma PastPullCaughtUp(d: nat, log: seq<Row>, chain: seq<ChainRow>, l: Link, e: Engine)
    requires LinkInv(d, log, chain, l, e) && PastPull(e.state)
    ensures l.base <= |log| && CaughtUp(d, e) && e.known == Told(log, l) <= e.doc.ops
  {
    PullCompletes(d, log, l, e);
  }

  // ---- the next push ----

  lemma TryStartPushLink(d: nat, log: seq<Row>, chain: seq<ChainRow>, l: Link, s: Sys, id: nat)
    requires LinkInv(d, log, chain, l, s.e) && s.e.codec.Valid()
    requires Closed(s.e.known) && ClosedFor(d, s.e.doc.ops)
    ensures LinkInv(d, log, chain, l, TryStartPush(s, id).e)
  {
    if s.e.state == Idle && s.e.inFlight == None {
      PastPullCaughtUp(d, log, chain, l, s.e);
      MintBound(s.e.codec, d, s.e.doc, s.e.known);
      assert OplogVV(s.e.codec, s.e.doc) <= (s.e.doc.ops - s.e.known) + Told(log, l);
      StartedLink(d, log, chain, l, s.e, TryStartPush(s, id).e);
    }
  }

  lemma StartedLink(d: nat, log: seq<Row>, chain: seq<ChainRow>, l: Link, e: Engine, r: Engine)
    requires LinkInv(d, log, chain, l, e) && e.state == Idle && PastPull(r.state)
    requires r.doc.ops == e.doc.ops && r.known == e.known && r.contig == e.contig
    requires r.inFlight.Some? ==>
               e.doc.ops - e.known == r.inFlight.value.payload.ops <= r.inFlight.value.toVV
               <= r.inFlight.value.payload.ops + Told(log, l)
    ensures LinkInv(d, log, chain, l, r)
  {}

  // ---- rows ----

  /** What importing a batch makes of the fields the connection is about. */
  lemma RowsApplied(s: Sys, updates: seq<StoredBlob>)
    ensures var r := ApplyRemoteUpdates(s, updates).e;
            && r.doc.ops == s.e.doc.ops + BlobOps(Blobs(updates))
            && r.known == s.e.known + BlobRange(s.e.codec, Blobs(updates))
            && r.inFlight == s.e.inFlight && r.state == s.e.state && r.codec == s.e.codec && s.e.contig <= r.contig
  {
    if updates != [] {
      var c := s.e.codec;
      var e := s.e.(doc := ApplyRemote(c, s.e.doc, Blobs(updates)), known := s.e.known + BlobRange(c, Blobs(updates)));
      AppendRowsDoc(s.(e := e), updates);
    }
  }

  lemma RowLearned(c: Codec, log: seq<Row>, l: Link, updates: seq<StoredBlob>, u: StoredBlob)
    requires c.Valid() && LogInv(log) && TrueRows(log, updates) && l.base <= |log| && InOrder(log, l, updates)
    requires u in updates
    ensures u.blob.ops <= c.bound(u.blob.ops) <= Told(log, l.(got := l.got + Seqs(updates)))
  {
    RowDeclares(c, log, u.seqNo, l.base, l.got + Seqs(updates));
  }

  /** A batch declares nothing past what it and the connection have told. */
  lemma RowsLearned(c: Codec, log: seq<Row>, l: Link, updates: seq<StoredBlob>)
    requires c.Valid() && LogInv(log) && TrueRows(log, updates) && l.base <= |log| && InOrder(log, l, updates)
    ensures BlobOps(Blobs(updates)) <= BlobRange(c, Blobs(updates)) <= Told(log, l.(got := l.got + Seqs(updates)))
    ensures forall u :: u in updates ==> u.blob.ops <= BlobOps(Blobs(updates))
  {
    var blobs := Blobs(updates);
    var got := l.got + Seqs(updates);
    var told := Upto(log, l.base) + GotOps(log, got);
    RangeCovers(c, blobs);
    forall b | b in blobs ensures b.ops <= told && c.bound(b.ops) <= told {
      var i :| 0 <= i < |blobs| && blobs[i] == b;
      RowLearned(c, log, l, updates, updates[i]);
    }
    BlobsWithin(c, blobs, told, told);
    BatchWithin(c, updates);
  }

  lemma GotMore(log: seq<Row>, got: set<nat>, updates: seq<StoredBlob>, s: set<Op>, more: set<Op>)
    requires GotHeld(log, got, s) && s <= more && TrueRows(log, updates)
    requires forall u :: u in updates ==> u.blob.ops <= more
    ensures GotHeld(log, got + Seqs(updates), more)
  {
    forall k | k in got + Seqs(updates) ensures 1 <= k <= |log| && log[k - 1].blob.ops <= more {
      if k in Seqs(updates) {
        var u :| u in updates && u.seqNo == k;
      }
    }
  }

  lemma ToldMore(log: seq<Row>, l: Link, m: Link)
    requires l.base == m.base <= |log| && l.got <= m.got
    ensures Told(log, l) <= Told(log, m)
  {}

  lemma RowsLink(d: nat, log: seq<Row>, chain: seq<ChainRow>, l: Link, s: Sys, updates: seq<StoredBlob>)
    requires LinkInv(d, log, chain, l, s.e) && s.e.codec.Valid() && LogInv(log)
    requires s.e.state != Disconnected && s.e.state != Bootstrapping
    requires TrueRows(log, updates) && InOrder(log, l, updates)
    ensures LinkInv(d, log, chain, l.(got := l.got + Seqs(updates)), ApplyRemoteUpdates(s, updates).e)
  {
    RowsLearned(s.e.codec, log, l, updates);
    RowsApplied(s, updates);
    RowsKnown(d, log, chain, l, s.e, updates, ApplyRemoteUpdates(s, updates).e);
  }

  lemma RowsKnown(d: nat, log: seq<Row>, chain: seq<ChainRow>, l: Link, e: Engine, updates: seq<StoredBlob>, r: Engine)
    requires LinkInv(d, log, chain, l, e) && e.state != Disconnected && e.state != Bootstrapping
    requires TrueRows(log, updates) && r.state == e.state && r.inFlight == e.inFlight && e.contig <= r.contig
    requires e.known <= r.known <= e.known + Told(log, l.(got := l.got + Seqs(updates)))
    requires e.doc.ops <= r.doc.ops <= e.doc.ops + r.known
    requires forall u :: u in updates ==> u.blob.ops <= r.known * r.doc.ops
    ensures LinkInv(d, log, chain, l.(got := l.got + Seqs(updates)), r)
  {
    GotMore(log, l.got, updates, e.known * e.doc.ops, r.known * r.doc.ops);
    ToldMore(log, l, l.(got := l.got + Seqs(updates)));
  }

  // ---- acks ----

  lemma AckedLink(d: nat, log: seq<Row>, chain: seq<ChainRow>, l: Link, s: Sys, ack: PushAck)
    requires LinkInv(d, log, chain, l, s.e) && PastPull(s.e.state) && s.e.inFlight.Some?
    requires 1 <= ack.seqNo <= |log| && log[ack.seqNo - 1].blob.ops == s.e.inFlight.value.payload.ops <= s.e.doc.ops
    ensures LinkInv(d, log, chain, l.(got := l.got + {ack.seqNo}), Acked(s, ack).e)
  {
    var m := l.(got := l.got + {ack.seqNo});
    ToldMore(log, l, m);
    forall o | o in RowOps(log, ack.seqNo) ensures o in GotOps(log, m.got) {
      assert ack.seqNo in m.got;
    }
  }

  lemma AckStartsLink(d: nat, log: seq<Row>, chain: seq<ChainRow>, l: Link, s: Sys, ack: PushAck, id: nat)
    requires LinkInv(d, log, chain, l, s.e) && PastPull(s.e.state) && s.e.inFlight.Some?
    requires 1 <= ack.seqNo <= |log| && log[ack.seqNo - 1].blob.ops == s.e.inFlight.value.payload.ops <= s.e.doc.ops
    requires s.e.codec.Valid() && Closed(s.e.known) && Closed(s.e.inFlight.value.toVV) && ClosedFor(d, s.e.doc.ops)
    ensures LinkInv(d, log, chain, l.(got := l.got + {ack.seqNo}), TryStartPush(Acked(s, ack), id).e)
  {
    AckedLink(d, log, chain, l, s, ack);
    TryStartPushLink(d, log, chain, l.(got := l.got + {ack.seqNo}), Acked(s, ack), id);
  }

  // ---- bootstrap ----

  /** The next chain row extends what is known and held to its own version
      vector, which covers the log up to its sequence number. */
  lemma ChainRowReaches(log: seq<Row>, chain: seq<ChainRow>, l: Link, known: set<Op>, ops: set<Op>)
    requires ChainInv(log, chain) && BootInv(chain, l, known, ops) && l.chained < |chain|
    ensures var row := chain[l.chained];
            && row.upToSeq <= |log| && Upto(log, row.upToSeq) <= row.upToVV <= All(log) && Closed(row.upToVV)
            && row.blob.ops <= row.upToVV <= ops + row.blob.ops && row.upToVV <= known + row.blob.ops
  {
    assert ChainRowInv(log, chain, l.chained);
  }

  lemma OneBlob(c: Codec, b: Blob)
    ensures BlobOps([b]) == b.ops && BlobRange(c, [b]) == c.bound(b.ops)
  {
    assert [b][..0] == [];
  }

  lemma SnapshotMid(c: Codec, d: nat, log: seq<Row>, chain: seq<ChainRow>, l: Link, e: Engine, blob: Blob)
    requires LinkInv(d, log, chain, l, e) && e.state == Bootstrapping && ChainInv(log, chain)
    requires c == e.codec && c.Valid() && l.chained < |chain| && blob == chain[l.chained].blob
    ensures LinkInv(d, log, chain, l.(chained := l.chained + 1),
                    e.(doc := ApplyRemote(c, e.doc, [blob]), known := e.known + BlobRange(c, [blob])))
  {
    ChainRowReaches(log, chain, l, e.known, e.doc.ops);
    BoundLeast(c, blob.ops, chain[l.chained].upToVV);
    OneBlob(c, blob);
  }

  // ---- snapshots ----

  /** A snapshot made past the pull, from a base inside what is known: with
      the base it is exactly what its version vector says, which covers the
      log up to the frontier and nothing the log has not. */
  lemma ProducedReaches(d: nat, log: seq<Row>, chain: seq<ChainRow>, l: Link, e: Engine, floor: nat,
                        base: Option<SnapshotBase>)
    requires LinkInv(d, log, chain, l, e) && PastPull(e.state) && Closed(e.known) && e.known <= All(log)
    requires e.contig <= |log| && Upto(log, e.contig) <= e.known
    requires base.Some? ==> base.value.vv <= e.known
    ensures var f := Produced(e, floor, base);
            && f.upToSeq == e.contig && f.upToVV == e.known && f.floor == floor
            && f.fromSeq == (if base.Some? then Some(base.value.seqNo) else None)
            && ReachesOn(log, if base.Some? then base.value.vv else {}, f.upToSeq, f.upToVV, f.blob)
  {
    PastPullCaughtUp(d, log, chain, l, e);
  }

  /** Past its pull a device knows exactly the log up to its frontier exactly
      when no row past the frontier has been told to it since the pull was
      asked. */
  lemma KnowsItsFrontier(d: nat, log: seq<Row>, chain: seq<ChainRow>, l: Link, e: Engine)
    requires LinkInv(d, log, chain, l, e) && PastPull(e.state)
    requires e.contig <= |log| && Upto(log, e.contig) <= e.known
    requires forall i, j :: 0 <= i < j < |log| ==> log[i].blob.ops !! log[j].blob.ops
    requires forall i :: 0 <= i < |log| ==> log[i].blob.ops != {}
    ensures e.known == Upto(log, e.contig) <==> forall k :: k in l.got ==> k <= e.contig
  {
    PastPullCaughtUp(d, log, chain, l, e);
    if forall k :: k in l.got ==> k <= e.contig {
      AllWithin(log, l, e.contig);
    } else {
      var k :| k in l.got && e.contig < k;
      Beyond(log, e.contig, k);
      var o :| o in RowOps(log, k);
      assert o in GotOps(log, l.got);
    }
  }

  lemma AllWithin(log: seq<Row>, l: Link, n: nat)
    requires l.base <= |log| && l.since <= n <= |log| && Answered(l) && forall k :: k in l.got ==> 1 <= k <= n
    ensures Told(log, l) <= Upto(log, n)
  {
    assert l.since < l.base ==> l.base in l.got;
    UptoMonotone(log, l.base, n);
    forall k, o | k in l.got && o in RowOps(log, k) ensures o in Upto(log, n) {
      UptoRow(log, k - 1, n);
    }
  }

  lemma Beyond(log: seq<Row>, n: nat, k: nat)
    requires n < k <= |log|
    requires forall i, j :: 0 <= i < j < |log| ==> log[i].blob.ops !! log[j].blob.ops
    requires forall i :: 0 <= i < |log| ==> log[i].blob.ops != {}
    ensures RowOps(log, k) != {} && RowOps(log, k) !! Upto(log, n)
  {
    if o :| o in RowOps(log, k) && o in Upto(log, n) {
      var i := UptoHas(log, n, o);
      assert false;
    }
    assert log[k - 1].blob.ops != {};
  }
}

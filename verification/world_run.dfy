/** Runs that do something: what the world asks of its environment can be met,
    a device's work reaches the log, and the states the documentation rules
    out are reached. */
module WorldRun {
  import opened Wrappers
  import opened Operations
  import opened Protocol
  import opened LocalStore
  import opened Documents
  import opened EngineSpec
  import opened World
  import opened CallInvariant
  import opened FrontierAssertion
  import opened Replication

  // ---- runs, one step at a time ----

  /** Some run takes `w` to `x`. */
  ghost predicate Leads(w: World, x: World) {
    exists steps :: Runs(w, steps) && Reach(w, steps) == x
  }

  lemma LeadsNowhere(w: World)
    ensures Leads(w, w)
  {
    assert Runs(w, []) && Reach(w, []) == w;
  }

  lemma LeadsReached(w: World, x: World)
    requires Init(w) && Leads(w, x)
    ensures Reached(x)
  {}

  lemma LeadsMore(w: World, x: World, l: Label)
    requires Leads(w, x) && Enabled(x, l)
    ensures Leads(w, Next(x, l))
  {
    var steps :| Runs(w, steps) && Reach(w, steps) == x;
    assert (steps + [l])[..|steps|] == steps;
    assert Runs(w, steps + [l]) && Reach(w, steps + [l]) == Next(x, l);
  }

  /** Only device `d` has moved, and what is on the wire. */
  ghost predicate Alone(x: World, y: World, d: nat) {
    && |y.nodes| == |x.nodes| && y.log == x.log && y.chain == x.chain && x.live <= y.live && x.wire <= y.wire
    && forall i :: 0 <= i < |x.nodes| && i != d ==> y.nodes[i] == x.nodes[i]
  }

  lemma Does(w: World, x: World, d: nat, call: Call) returns (y: World)
    requires Leads(w, x) && d < |x.nodes| && Allowed(x, d, call)
    ensures Leads(w, y) && Alone(x, y, d) && y.wire == x.wire && y.nodes[d] == Step(x.log, x.nodes[d], call)
    ensures forall f :: f in Answers(x.chain, x.nodes[d].sys.e, call) ==> (d, f) in y.live
  {
    LeadsMore(w, x, Do(d, call));
    y := Next(x, Do(d, call));
  }

  function WithOutbox(n: Node, outbox: seq<ClientFrame>): Node {
    n.(sys := n.sys.(e := n.sys.e.(outbox := outbox)))
  }

  lemma Ships(w: World, x: World, d: nat) returns (y: World)
    requires Leads(w, x) && d < |x.nodes| && x.nodes[d].sys.e.outbox != []
    ensures var out := x.nodes[d].sys.e.outbox;
            && Leads(w, y) && Alone(x, y, d) && (d, out[0]) in y.wire
            && y.nodes[d] == WithOutbox(x.nodes[d], out[1..])
  {
    LeadsMore(w, x, Ship(d));
    y := Next(x, Ship(d));
  }

  /** Worlds to start from: any number of fresh devices. */
  lemma WorldsExist(count: nat) returns (w: World)
    ensures Init(w) && |w.nodes| == count
  {
    ValidCodecExists();
    var c := Codec(Below, (s: set<Op>) => |s|);
    var n := Node(Sys(Boot(0, c, EMPTY), EMPTY, [EMPTY]), map[], FRESH_LINK, {});
    w := World([], [], seq(count, _ => n), {}, {});
  }

  // ---- a device, step by step ----

  /** The fields a run is followed by. */
  ghost predicate Looks(n: Node, state: ConnState, ops: set<Op>, known: set<Op>, push: Option<InFlight>, contig: nat,
                        outbox: seq<ClientFrame>, minted: map<nat, set<Op>>)
  {
    var e := n.sys.e;
    && e.codec.Valid() && e.state == state && e.doc.ops == ops && e.known == known && e.inFlight == push
    && e.contig == contig && e.outbox == outbox && n.minted == minted
    && (match push
        case None => n.sys.st.inFlight == None
        case Some(p) => n.sys.st.inFlight.Some? && n.sys.st.inFlight.value.id == p.id
                        && n.sys.st.inFlight.value.payload == p.payload)
  }

  /** Online, with everything it has in the log, and nothing to say. */
  ghost predicate Rests(n: Node, ops: set<Op>, contig: nat, minted: map<nat, set<Op>>) {
    Looks(n, Idle, ops, ops, None, contig, [], minted) && Closed(ops)
  }

  function In(n: Node, f: ServerFrame, id: nat): Call { Bytes(Frame(n.sys.e.docId, f), id) }

  lemma EmptyBound(c: Codec)
    requires c.Valid()
    ensures c.bound({}) == {}
  {
    BoundOfClosed(c, {});
  }

  lemma BootsEmpty(n: Node)
    requires Installed(n)
    ensures Looks(n, Disconnected, {}, {}, None, 0, [], map[]) && n.sys.st == EMPTY
    ensures n.sys.e.doc == EMPTY_DOC
  {}

  lemma OpenStep(log: seq<Row>, n: Node)
    requires Installed(n)
    ensures var r := Step(log, n, Connected);
            && Looks(r, Opening, {}, {}, None, 0, [OpenDoc], map[])
            && r.link == Link(0, {}, |log|, 0) && r.sys.st == EMPTY && r.sys.e.doc == EMPTY_DOC
            && r.sys.e.codec == n.sys.e.codec
  {
    BootsEmpty(n);
  }

  lemma OpenedStep(log: seq<Row>, n: Node)
    requires Looks(n, Opening, {}, {}, None, 0, [OpenDoc], map[]) && n.link == Link(0, {}, |log|, 0)
    ensures var r := Step(log, n, In(n, DocOpened(0), 0));
            && Looks(r, Pulling, {}, {}, None, 0, [OpenDoc, PullUpdates(0)], map[])
            && r.link == Link(0, {}, |log|, 0) && r.sys.st == n.sys.st && r.sys.e.doc == n.sys.e.doc
            && r.sys.e.codec == n.sys.e.codec
  {}

  /** A fresh device opens the doc. */
  lemma Opens(w: World, x: World, d: nat) returns (y: World)
    requires Leads(w, x) && d < |x.nodes| && Installed(x.nodes[d])
    ensures Leads(w, y) && Alone(x, y, d) && y.wire == x.wire
    ensures var n := y.nodes[d];
            && Looks(n, Pulling, {}, {}, None, 0, [OpenDoc, PullUpdates(0)], map[])
            && n.link == Link(0, {}, |x.log|, 0) && n.sys.st == EMPTY && n.sys.e.doc == EMPTY_DOC
            && n.sys.e.codec == x.nodes[d].sys.e.codec
  {
    OpenStep(x.log, x.nodes[d]);
    y := Does(w, x, d, Connected);
    OpenedStep(y.log, y.nodes[d]);
    y := Does(w, y, d, In(y.nodes[d], DocOpened(0), 0));
  }

  lemma PulledStep(n: Node)
    requires Looks(n, Pulling, {}, {}, None, 0, [OpenDoc, PullUpdates(0)], map[])
    requires n.sys.e.doc == EMPTY_DOC && n.link == Link(0, {}, 0, 0)
    ensures var r := Step([], n, In(n, UpdatesBatch([], true), 0));
            Looks(r, Idle, {}, {}, None, 0, [OpenDoc, PullUpdates(0)], map[])
  {
    EmptyBound(n.sys.e.codec);
  }

  /** A fresh device connects to an empty log, and rests. */
  lemma Connects(w: World, x: World, d: nat) returns (y: World)
    requires Leads(w, x) && d < |x.nodes| && Installed(x.nodes[d]) && x.log == []
    ensures Leads(w, y) && Alone(x, y, d) && Rests(y.nodes[d], {}, 0, map[])
  {
    y := Opens(w, x, d);
    PulledStep(y.nodes[d]);
    y := Does(w, y, d, In(y.nodes[d], UpdatesBatch([], true), 0));
    y := Ships(w, y, d);
    y := Ships(w, y, d);
  }

  // ---- a commit reaches the log ----

  lemma CommitStep(log: seq<Row>, n: Node, ops: set<Op>, contig: nat, m: map<nat, set<Op>>, more: set<Op>)
    requires Rests(n, ops, contig, m)
    ensures var r := Step(log, n, Commit(more));
            && Looks(r, Idle, ops + more, ops, None, contig, [], m) && r.link == n.link
            && r.sys.e.codec == n.sys.e.codec
  {}

  lemma FlushStep(log: seq<Row>, n: Node, ops: set<Op>, contig: nat, m: map<nat, set<Op>>, more: set<Op>, id: nat)
    requires Looks(n, Idle, ops + more, ops, None, contig, [], m)
    requires Closed(ops + more) && more !! ops && more != {}
    ensures var c := n.sys.e.codec;
            var r := Step(log, n, FlushCall(id));
            && Looks(r, Pushing, ops + more, ops, Some(InFlight(id, Seal(c, more), ops + more)), contig,
                     [PushUpdates([PushBlob(id, Seal(c, more))])], m[id := more])
            && r.link == n.link && r.sys.e.codec == c
  {
    BoundOfClosed(n.sys.e.codec, ops + more);
    assert (ops + more) - ops == more;
  }

  lemma AckStep(log: seq<Row>, n: Node, ops: set<Op>, known: set<Op>, m: map<nat, set<Op>>, p: InFlight, contig: nat)
    requires 0 < |log| && Looks(n, Pushing, ops, known, Some(p), contig, [], m)
    requires Closed(ops) && known + p.toVV == ops && p.id in m && m[p.id] == p.payload.ops
    ensures forall id :: var r := Step(log, n, In(n, UpdatesAck([PushAck(p.id, |log|)]), id));
              Rests(r, ops, Ingest(contig, |log|), m) && r.sys.e.codec == n.sys.e.codec && |log| in r.link.got
  {
    BoundOfClosed(n.sys.e.codec, ops);
  }

  /** A device at rest commits, and its push is on the wire. */
  lemma Pushes(w: World, x: World, d: nat, ops: set<Op>, m: map<nat, set<Op>>, more: set<Op>, id: nat, contig: nat)
    returns (y: World, push: PushBlob)
    requires Leads(w, x) && d < |x.nodes| && Rests(x.nodes[d], ops, contig, m)
    requires Closed(ops + more) && OwnedBy(d, more) && more !! ops && more != {} && id !in m
    ensures push == PushBlob(id, Seal(x.nodes[d].sys.e.codec, more))
    ensures Leads(w, y) && Alone(x, y, d) && (d, PushUpdates([push])) in y.wire
    ensures var p := InFlight(id, push.blob, ops + more);
            Looks(y.nodes[d], Pushing, ops + more, ops, Some(p), contig, [], m[id := more])
    ensures y.nodes[d].link == x.nodes[d].link && y.nodes[d].sys.e.codec == x.nodes[d].sys.e.codec
  {
    push := PushBlob(id, Seal(x.nodes[d].sys.e.codec, more));
    CommitStep(x.log, x.nodes[d], ops, contig, m, more);
    y := Does(w, x, d, Commit(more));
    FlushStep(y.log, y.nodes[d], ops, contig, m, more, id);
    y := Does(w, y, d, FlushCall(id));
    y := Ships(w, y, d);
  }

  lemma Lands(w: World, x: World, d: nat, push: PushBlob) returns (y: World)
    requires Leads(w, x) && (d, PushUpdates([push])) in x.wire && !Inserted(x.log, d, push.id)
    ensures Leads(w, y) && y == x.(log := x.log + [Row(d, push.id, push.blob)])
  {
    assert push in PushUpdates([push]).updates;
    LeadsMore(w, x, Insert(d, push));
    y := Next(x, Insert(d, push));
  }

  /** The last row is acked to its device, which rests. */
  lemma Hears(w: World, x: World, d: nat, ops: set<Op>, known: set<Op>, m: map<nat, set<Op>>, p: InFlight,
              contig: nat, other: nat)
    returns (y: World)
    requires Leads(w, x) && d < |x.nodes| && 0 < |x.log|
    requires x.log[|x.log| - 1].device == d && x.log[|x.log| - 1].pushId == p.id
    requires Looks(x.nodes[d], Pushing, ops, known, Some(p), contig, [], m)
    requires Closed(ops) && known + p.toVV == ops && p.id in m && m[p.id] == p.payload.ops && other !in m
    ensures Leads(w, y) && Alone(x, y, d)
    ensures Rests(y.nodes[d], ops, Ingest(contig, |x.log|), m) && y.nodes[d].sys.e.codec == x.nodes[d].sys.e.codec
    ensures |x.log| in y.nodes[d].link.got
  {
    AckStep(x.log, x.nodes[d], ops, known, m, p, contig);
    var acks := [PushAck(p.id, |x.log|)];
    assert forall a :: a in acks ==> a == acks[0];
    y := Does(w, x, d, In(x.nodes[d], UpdatesAck(acks), other));
  }

  /** A device at rest commits and pushes; its work becomes the next row, and
      it rests again. */
  lemma Publishes(w: World, x: World, d: nat, ops: set<Op>, m: map<nat, set<Op>>, more: set<Op>, id: nat, other: nat)
    returns (y: World)
    requires Init(w) && Leads(w, x) && d < |x.nodes| && Rests(x.nodes[d], ops, |x.log|, m)
    requires Closed(ops + more) && OwnedBy(d, more) && more !! ops && more != {}
    requires id !in m && other != id && other !in m
    ensures Leads(w, y) && |y.nodes| == |x.nodes| && Rests(y.nodes[d], ops + more, |y.log|, m[id := more])
    ensures y.log == x.log + [Row(d, id, Seal(x.nodes[d].sys.e.codec, more))] && y.chain == x.chain
    ensures y.nodes[d].sys.e.codec == x.nodes[d].sys.e.codec
    ensures forall i :: 0 <= i < |x.nodes| && i != d ==> y.nodes[i] == x.nodes[i]
  {
    NotInserted(w, x, d, id);
    var push;
    y, push := Pushes(w, x, d, ops, m, more, id, |x.log|);
    y := Lands(w, y, d, push);
    y := Hears(w, y, d, ops + more, ops, m[id := more], InFlight(id, push.blob, ops + more), |x.log|, other);
  }

  lemma NotInserted(w: World, x: World, d: nat, id: nat)
    requires Init(w) && Leads(w, x) && d < |x.nodes| && id !in x.nodes[d].minted
    ensures !Inserted(x.log, d, id)
  {
    LeadsReached(w, x);
    if r :| r in x.log && r.device == d && r.pushId == id {
      var i :| 0 <= i < |x.log| && x.log[i] == r;
      RowMinted(x, i);
    }
  }

  /** In any world of fresh devices, whatever any one of them commits can
      reach the log. */
  lemma ACommitReachesTheLog(w: World, d: nat, ops: set<Op>) returns (x: World)
    requires Init(w) && d < |w.nodes| && ops != {} && Closed(ops) && OwnedBy(d, ops)
    ensures Leads(w, x) && |x.log| == 1 && x.log[0].device == d && x.log[0].blob.ops == ops
    ensures |x.nodes| == |w.nodes| && Settled(x, d)
  {
    LeadsNowhere(w);
    x := Connects(w, w, d);
    assert {} + ops == ops;
    x := Publishes(w, x, d, {}, map[], ops, 1, 2);
    BoundOfClosed(x.nodes[d].sys.e.codec, ops);
  }

  // ---- the snapshot chain ----

  lemma SnapshotStep(log: seq<Row>, n: Node, ops: set<Op>, contig: nat, m: map<nat, set<Op>>, floor: nat,
                     base: Option<SnapshotBase>)
    requires Rests(n, ops, contig, m) && (base.Some? ==> base.value.vv <= ops)
    ensures var c := n.sys.e.codec;
            var blob := if base.Some? then Seal(c, ops - base.value.vv) else Seal(c, ops);
            var from := if base.Some? then Some(base.value.seqNo) else None;
            var f := PushSnapshot(contig, floor, from, ops, blob);
            && Produced(n.sys.e, floor, base) == f
            && forall id :: var r := Step(log, n, In(n, SnapshotRequest(|log|, floor, base), id));
                 Looks(r, Idle, ops, ops, None, contig, [f], m) && r.sys.e.codec == c
  {
    if base.Some? { assert ops * (ops - base.value.vv) == ops - base.value.vv; }
    assert ops * ops == ops;
  }

  lemma RequestAllowed(x: World, d: nat, floor: nat, id: nat)
    requires d < |x.nodes| && x.nodes[d].sys.e.state == Idle && id !in x.nodes[d].minted
    requires Base(x.chain).Some? ==> Base(x.chain).value.vv <= x.nodes[d].sys.e.known
    ensures var call := In(x.nodes[d], SnapshotRequest(|x.log|, floor, Base(x.chain)), id);
            && Allowed(x, d, call)
            && Answers(x.chain, x.nodes[d].sys.e, call) == {Produced(x.nodes[d].sys.e, floor, Base(x.chain))}
  {
    if x.chain != [] { assert x.chain[|x.chain| - 1] in x.chain; }
  }

  lemma Stores(w: World, x: World, d: nat, f: ClientFrame) returns (y: World)
    requires Leads(w, x) && Enabled(x, StoreSnapshot(d, f))
    ensures Leads(w, y) && y == x.(chain := x.chain + [ChainRow(f.upToSeq, f.upToVV, f.blob)], live := {})
  {
    LeadsMore(w, x, StoreSnapshot(d, f));
    y := Next(x, StoreSnapshot(d, f));
  }

  /** A device at rest is asked for a snapshot past the chain, and it is stored. */
  lemma Snapshots(w: World, x: World, d: nat, ops: set<Op>, contig: nat, m: map<nat, set<Op>>, floor: nat, id: nat)
    returns (y: World, f: ClientFrame)
    requires Leads(w, x) && d < |x.nodes| && Rests(x.nodes[d], ops, contig, m) && id !in m
    requires Base(x.chain).Some? ==> Base(x.chain).value.vv <= ops && Base(x.chain).value.seqNo <= contig
    ensures Leads(w, y) && |y.nodes| == |x.nodes| && y.log == x.log && Rests(y.nodes[d], ops, contig, m)
    ensures f == Produced(x.nodes[d].sys.e, floor, Base(x.chain)) && (d, f) in y.wire
    ensures var b := Base(x.chain);
            y.chain == x.chain +
              [ChainRow(contig, ops, Seal(x.nodes[d].sys.e.codec, if b.Some? then ops - b.value.vv else ops))]
    ensures y.nodes[d].sys.e.codec == x.nodes[d].sys.e.codec
    ensures forall i :: 0 <= i < |x.nodes| && i != d ==> y.nodes[i] == x.nodes[i]
  {
    var n := x.nodes[d];
    f := Produced(n.sys.e, floor, Base(x.chain));
    SnapshotStep(x.log, n, ops, contig, m, floor, Base(x.chain));
    RequestAllowed(x, d, floor, id);
    y := Does(w, x, d, In(n, SnapshotRequest(|x.log|, floor, Base(x.chain)), id));
    y := Ships(w, y, d);
    y := Stores(w, y, d, f);
  }

  // ---- the two runs ----

  const FIRST: Op := Op(Peer(0, 0), 0)
  const SECOND: Op := Op(Peer(0, 1), 0)

  /** One device commits; nothing else moves. */
  lemma WritesRow(w: World) returns (x: World)
    requires Init(w) && |w.nodes| == 2
    ensures Leads(w, x) && |x.nodes| == 2 && x.nodes[1] == w.nodes[1] && x.chain == []
    ensures Rests(x.nodes[0], {FIRST}, 1, map[1 := {FIRST}])
    ensures |x.log| == 1 && x.log[0].blob.ops == {FIRST}
  {
    LeadsNowhere(w);
    x := Connects(w, w, 0);
    assert {} + {FIRST} == {FIRST};
    x := Publishes(w, x, 0, {}, map[], {FIRST}, 1, 2);
  }

  /** And is asked for a snapshot. */
  lemma WritesFirst(w: World) returns (x: World)
    requires Init(w) && |w.nodes| == 2
    ensures Leads(w, x) && |x.nodes| == 2 && x.nodes[1] == w.nodes[1]
    ensures Rests(x.nodes[0], {FIRST}, 1, map[1 := {FIRST}])
    ensures |x.log| == 1 && x.log[0].blob.ops == {FIRST}
    ensures |x.chain| == 1 && x.chain[0].upToSeq == 1 && x.chain[0].upToVV == x.chain[0].blob.ops == {FIRST}
  {
    x := WritesRow(w);
    var f;
    x, f := Snapshots(w, x, 0, {FIRST}, 1, map[1 := {FIRST}], 0, 2);
  }

  /** And again. */
  lemma WritesSecond(w: World, x: World) returns (y: World)
    requires Init(w) && Leads(w, x) && |x.nodes| == 2
    requires Rests(x.nodes[0], {FIRST}, 1, map[1 := {FIRST}])
    requires |x.log| == 1 && |x.chain| == 1 && x.chain[0].upToSeq == 1 && x.chain[0].upToVV == {FIRST}
    ensures Leads(w, y) && |y.nodes| == 2 && y.nodes[1] == x.nodes[1]
    ensures |y.log| == 2 && y.log[0] == x.log[0] && y.log[1].blob.ops == {SECOND}
    ensures |y.chain| == 2 && y.chain[0] == x.chain[0] && y.chain[1].upToSeq == 2 && y.chain[1].blob.ops == {SECOND}
  {
    var m := map[1 := {FIRST}];
    y := Publishes(w, x, 0, {FIRST}, m, {SECOND}, 2, 3);
    var f;
    y, f := Snapshots(w, y, 0, {FIRST} + {SECOND}, 2, m[2 := {SECOND}], 0, 3);
    assert {FIRST} + {SECOND} - {FIRST} == {SECOND};
  }

  /** One device's two commits are two rows of the log and of the chain, and
      another, fresh, opens the doc. */
  lemma TwoRows(w: World) returns (x: World)
    requires Init(w) && |w.nodes| == 2
    ensures Leads(w, x) && |x.nodes| == 2
    ensures |x.log| == 2 && x.log[0].blob.ops == {FIRST} && x.log[1].blob.ops == {SECOND}
    ensures |x.chain| == 2 && x.chain[0].upToSeq == 1 && x.chain[0].blob.ops == {FIRST}
    ensures x.chain[1].upToSeq == 2 && x.chain[1].blob.ops == {SECOND}
    ensures FreshlyOpen(x.nodes[1])
  {
    x := WritesFirst(w);
    x := WritesSecond(w, x);
    x := Opens(w, x, 1);
  }

  ghost predicate FreshlyOpen(n: Node) {
    && Looks(n, Pulling, {}, {}, None, 0, [OpenDoc, PullUpdates(0)], map[])
    && n.link == Link(0, {}, 2, 0) && n.sys.st == EMPTY && n.sys.e.doc == EMPTY_DOC
  }

  /** The debug assertion can fail: a row pushed after the doc opened reaches
      a device before the answer to its pull. */
  lemma AssertionCanTrip(w: World) returns (x: World, f: ServerFrame)
    requires Init(w) && |w.nodes| == 2
    ensures Leads(w, x) && |x.nodes| == 2 && f.UpdatesBroadcast?
    ensures Enabled(x, Do(1, In(x.nodes[1], f, 0))) && FrameTrips(x.nodes[1].sys.e, f)
    ensures x.nodes[1].sys.e.state == Pulling && x.nodes[1].sys.e.contig == 0
  {
    x := TwoRows(w);
    f := UpdatesBroadcast([StoredBlob(2, x.log[1].blob)]);
    assert !LinkedAt(0, f.updates, 0);
    AssertionHolds(x.nodes[1].sys.e, f);
  }

  const THIRD: Op := Op(Peer(1, 0), 0)

  /** Two devices on an empty log. */
  lemma BothConnect(w: World) returns (x: World)
    requires Init(w) && |w.nodes| == 2
    ensures Leads(w, x) && |x.nodes| == 2 && x.log == [] && x.chain == []
    ensures Rests(x.nodes[0], {}, 0, map[]) && Rests(x.nodes[1], {}, 0, map[])
  {
    LeadsNowhere(w);
    x := Connects(w, w, 0);
    x := Connects(w, x, 1);
  }

  /** One writes to it, and the other has not heard of that yet. */
  lemma OneBehind(w: World) returns (x: World)
    requires Init(w) && |w.nodes| == 2
    ensures Leads(w, x) && |x.nodes| == 2 && |x.log| == 1 && x.chain == [] && Rests(x.nodes[1], {}, 0, map[])
  {
    x := BothConnect(w);
    assert {} + {FIRST} == {FIRST};
    x := Publishes(w, x, 0, {}, map[], {FIRST}, 1, 2);
  }

  ghost predicate Overtaken(n: Node) {
    && Looks(n, Pushing, {THIRD}, {}, Some(InFlight(1, Seal(n.sys.e.codec, {THIRD}), {THIRD})), 0, [],
        map[1 := {THIRD}])
    && Closed({THIRD})
  }

  lemma BothWrite(w: World) returns (x: World)
    requires Init(w) && |w.nodes| == 2
    ensures Leads(w, x) && |x.nodes| == 2 && x.chain == []
    ensures |x.log| == 2 && x.log[1].device == 1 && x.log[1].pushId == 1 && Overtaken(x.nodes[1])
  {
    x := OneBehind(w);
    NotInserted(w, x, 1, 1);
    assert {} + {THIRD} == {THIRD};
    var push;
    x, push := Pushes(w, x, 1, {}, map[], {THIRD}, 1, 0);
    x := Lands(w, x, 1, push);
  }

  /** So can an ack trip it: its row went in after another device's, which is
      still on its way. */
  lemma AckCanTrip(w: World) returns (x: World, f: ServerFrame)
    requires Init(w) && |w.nodes| == 2
    ensures Leads(w, x) && |x.nodes| == 2 && f.UpdatesAck?
    ensures Enabled(x, Do(1, In(x.nodes[1], f, 2))) && FrameTrips(x.nodes[1].sys.e, f)
  {
    x := BothWrite(w);
    f := UpdatesAck([PushAck(1, 2)]);
    AckTrips(x, f);
  }

  lemma AckTrips(x: World, f: ServerFrame)
    requires |x.nodes| == 2 && |x.log| == 2 && x.log[1].device == 1 && x.log[1].pushId == 1
    requires var n := x.nodes[1];
             && n.sys.e.state == Pushing && n.sys.e.contig == 0 && n.minted.Keys == {1}
             && n.sys.e.inFlight.Some? && n.sys.e.inFlight.value.id == 1
    requires f == UpdatesAck([PushAck(1, 2)])
    ensures Enabled(x, Do(1, In(x.nodes[1], f, 2))) && FrameTrips(x.nodes[1].sys.e, f)
  {
    assert forall a :: a in f.acks ==> a == f.acks[0];
  }

  /** And then the tag is no twin. The server counts the device as having its
      own row, the last, and asks it for a snapshot with a floor of 1, which
      the other device has reached. What is stored says it is the log up to
      row 0; it is row 2, and its floor is past its number. */
  lemma TagFallsShort(w: World) returns (x: World, f: ClientFrame)
    requires Init(w) && |w.nodes| == 2
    ensures Leads(w, x) && |x.nodes| == 2 && |x.log| == 2 && (1, f) in x.wire
    ensures f.PushSnapshot? && f.upToSeq == 0 < f.floor && f.upToVV == f.blob.ops == {THIRD} != Upto(x.log, f.upToSeq)
    ensures x.chain == [ChainRow(f.upToSeq, f.upToVV, f.blob)]
  {
    x := LeftBehind(w);
    x, f := Snapshots(w, x, 1, {THIRD}, 0, map[1 := {THIRD}], 1, 2);
    assert THIRD in f.upToVV;
  }

  lemma LeftBehind(w: World) returns (x: World)
    requires Init(w) && |w.nodes| == 2
    ensures Leads(w, x) && |x.nodes| == 2 && |x.log| == 2 && x.chain == []
    ensures Rests(x.nodes[1], {THIRD}, 0, map[1 := {THIRD}]) && 2 in x.nodes[1].link.got
  {
    x := BothWrite(w);
    var p := InFlight(1, Seal(x.nodes[1].sys.e.codec, {THIRD}), {THIRD});
    x := Hears(w, x, 1, {THIRD}, {}, map[1 := {THIRD}], p, 0, 2);
  }

  lemma EarlyStep(log: seq<Row>, n: Node, u: StoredBlob)
    requires FreshlyOpen(n) && u.seqNo == 2 && u.blob.ops == {SECOND}
    ensures var r := Step(log, n, In(n, UpdatesBroadcast([u]), 0));
            && Looks(r, Pulling, {SECOND}, {SECOND}, None, 0, [OpenDoc, PullUpdates(0)], map[])
            && Durable(r.sys.st) == {SECOND} && r.link.chained == 0
  {
    BoundOfClosed(n.sys.e.codec, {SECOND});
    OneRow(n.sys.(history := [n.sys.st]), u);
  }

  /** A batch of one early row, to a store that holds none. */
  lemma OneRow(s: Sys, u: StoredBlob)
    requires s.st.wal == [] && u.seqNo != s.e.contig + 1
    ensures var r := ApplyRemoteUpdates(s, [u]);
            && r.e.doc.ops == s.e.doc.ops + u.blob.ops && r.e.known == s.e.known + s.e.codec.bound(u.blob.ops)
            && r.e == s.e.(doc := r.e.doc, known := r.e.known, lastLocalSeq := r.e.lastLocalSeq,
                           walRows := r.e.walRows, walBytes := r.e.walBytes)
            && Durable(r.st) == Durable(s.st) + u.blob.ops && r.st.inFlight == s.st.inFlight
  {
    var c := s.e.codec;
    assert Blobs([u]) == [u.blob];
    OneBlob(c, u.blob);
    var i := s.(e := s.e.(doc := ApplyRemote(c, s.e.doc, [u.blob]), known := s.e.known + c.bound(u.blob.ops)));
    assert [u][..0] == [];
    assert AppendRows(i, [u]) == AppendRow(i, u);
    assert IngestAll(s.e.contig, [u]) == Ingest(s.e.contig, u.seqNo);
    DurableAppendRemote(i.st, u.seqNo, u.blob, i.e.known);
  }

  lemma OneBlob(c: Codec, b: Blob)
    ensures BlobOps([b]) == b.ops && BlobRange(c, [b]) == c.bound(b.ops)
  {
    assert [b][..0] == [];
  }

  lemma RequiredStep(log: seq<Row>, n: Node, ops: set<Op>, out: seq<ClientFrame>)
    requires Looks(n, Pulling, ops, ops, None, 0, out, map[])
    ensures var r := Step(log, n, In(n, SnapshotRequired(2), 0));
            && Looks(r, Bootstrapping, ops, ops, None, 0, out + [PullSnapshot], map[])
            && r.sys.st == n.sys.st && r.link.chained == 0
  {}

  lemma MidStep(log: seq<Row>, n: Node, ops: set<Op>, out: seq<ClientFrame>, blob: Blob)
    requires Looks(n, Bootstrapping, ops, ops, None, 0, out, map[]) && n.link.chained == 0
    requires Closed(blob.ops)
    ensures var r := Step(log, n, In(n, Snapshot(1, blob, false), 0));
            && Looks(r, Bootstrapping, ops + blob.ops, ops + blob.ops, None, 0, out, map[])
            && r.sys.st == n.sys.st && r.link.chained == 1
  {
    OneBlob(n.sys.e.codec, blob);
    BoundOfClosed(n.sys.e.codec, blob.ops);
  }

  /** The server's side as the last part of the run finds it. */
  ghost predicate Served(x: World) {
    && |x.nodes| == 2 && |x.log| == 2 && x.log[1].blob.ops == {SECOND}
    && |x.chain| == 2 && x.chain[0].upToSeq == 1 && x.chain[0].blob.ops == {FIRST}
    && x.chain[1].upToSeq == 2 && x.chain[1].blob.ops == {SECOND}
  }

  /** The second row reaches a device early. */
  lemma HearsEarly(w: World) returns (x: World)
    requires Init(w) && |w.nodes| == 2
    ensures Leads(w, x) && Served(x)
    ensures var n := x.nodes[1];
            && Looks(n, Pulling, {SECOND}, {SECOND}, None, 0, [OpenDoc, PullUpdates(0)], map[])
            && Durable(n.sys.st) == {SECOND} && n.link.chained == 0
  {
    x := TwoRows(w);
    var u := StoredBlob(2, x.log[1].blob);
    EarlyStep(x.log, x.nodes[1], u);
    x := Does(w, x, 1, In(x.nodes[1], UpdatesBroadcast([u]), 0));
  }

  /** It is sent to the snapshot chain. */
  lemma Bootstraps(w: World) returns (x: World)
    requires Init(w) && |w.nodes| == 2
    ensures Leads(w, x) && Served(x)
    ensures var n := x.nodes[1];
            && Looks(n, Bootstrapping, {SECOND}, {SECOND}, None, 0, [OpenDoc, PullUpdates(0)] + [PullSnapshot], map[])
            && Durable(n.sys.st) == {SECOND} && n.link.chained == 0
  {
    x := HearsEarly(w);
    RequiredStep(x.log, x.nodes[1], {SECOND}, [OpenDoc, PullUpdates(0)]);
    x := Does(w, x, 1, In(x.nodes[1], SnapshotRequired(2), 0));
  }

  /** It has the chain's first row, not yet on disk. */
  lemma MidChain(w: World) returns (x: World)
    requires Init(w) && |w.nodes| == 2
    ensures Leads(w, x) && Served(x)
    ensures var n := x.nodes[1];
            && n.sys.e.codec.Valid() && n.sys.e.state == Bootstrapping && n.sys.e.known == {SECOND} + {FIRST}
            && n.minted == map[] && n.link.chained == 1 && Durable(n.sys.st) == {SECOND}
  {
    x := Bootstraps(w);
    MidStep(x.log, x.nodes[1], {SECOND}, [OpenDoc, PullUpdates(0)] + [PullSnapshot], x.chain[0].blob);
    x := Does(w, x, 1, In(x.nodes[1], Snapshot(1, x.chain[0].blob, false), 0));
  }

  lemma LastRowComes(x: World)
    requires Served(x) && x.nodes[1].sys.e.state == Bootstrapping
    requires x.nodes[1].minted == map[] && x.nodes[1].link.chained == 1
    ensures var call := In(x.nodes[1], Snapshot(2, x.chain[1].blob, true), 0);
            Enabled(x, Do(1, call)) && EndsBootstrap(x.nodes[1], call)
  {}

  /** Its last row arrives. */
  lemma ChainEnds(w: World) returns (x: World, call: Call)
    requires Init(w) && |w.nodes| == 2
    ensures Leads(w, x) && |x.nodes| == 2 && |x.chain| == 2
    ensures Enabled(x, Do(1, call)) && EndsBootstrap(x.nodes[1], call)
    ensures var n := x.nodes[1];
            && n.sys.e.known + n.sys.e.codec.bound(call.input.frame.blob.ops) == {FIRST, SECOND}
            && call.input.frame.blob.ops == Durable(n.sys.st) == {SECOND}
  {
    x := MidChain(w);
    call := In(x.nodes[1], Snapshot(2, x.chain[1].blob, true), 0);
    LastRowComes(x);
    BothKnown(x.nodes[1].sys.e.codec);
  }

  lemma BothKnown(c: Codec)
    requires c.Valid()
    ensures {SECOND} + {FIRST} + c.bound({SECOND}) == {FIRST, SECOND}
  {
    BoundOfClosed(c, {SECOND});
  }

  /** The gap in the checkpoint, on a chain of two rows: the last row is on
      the device's disk already, yet a crash after the checkpoint's first
      write leaves it knowing of the first row, which is not. */
  lemma GapOnTwoRows(w: World) returns (x: World, call: Call)
    requires Init(w) && |w.nodes| == 2
    ensures Leads(w, x) && |x.nodes| == 2 && |x.chain| == 2
    ensures Enabled(x, Crash(1, call, 1)) && EndsBootstrap(x.nodes[1], call)
    ensures call.input.frame.blob.ops <= Durable(x.nodes[1].sys.st)
    ensures var r := Restart(x.nodes[1], call, 1);
            r.sys.e.known == {FIRST, SECOND} && r.sys.e.doc.ops == {SECOND}
  {
    x, call := ChainEnds(w);
    LeadsReached(w, x);
    GapAt(x, call);
    LastKnown(x.nodes[1], call);
    CrashesInside(x, 1, call, 1);
  }

  lemma GapAt(x: World, call: Call)
    requires Reached(x) && |x.nodes| == 2 && Enabled(x, Do(1, call)) && EndsBootstrap(x.nodes[1], call)
    ensures |Run(x.nodes[1].sys, call).history| == 3
    ensures Restart(x.nodes[1], call, 1).sys.e.doc.ops == Durable(x.nodes[1].sys.st)
  {
    CheckpointGap(x, 1, call);
  }

  lemma CrashesInside(x: World, d: nat, call: Call, k: nat)
    requires Enabled(x, Do(d, call)) && k < |Run(x.nodes[d].sys, call).history|
    ensures Enabled(x, Crash(d, call, k))
  {}

  lemma LastKnown(n: Node, call: Call)
    requires EndsBootstrap(n, call) && 1 < |Run(n.sys, call).history|
    ensures Restart(n, call, 1).sys.e.known == n.sys.e.known + n.sys.e.codec.bound(call.input.frame.blob.ops)
  {
    EndsWithSnapshot(n, call);
    OneBlob(n.sys.e.codec, call.input.frame.blob);
  }
}

/** Any number of devices against one server. The server is a log of pushed
    updates with dense sequence numbers and a chain of stored snapshots; the
    network may delay, repeat, reorder or drop whatever is sent. A device may
    crash between any two of its storage writes. */
module World {
  import opened Wrappers
  import opened Operations
  import opened Protocol
  import opened LocalStore
  import opened Documents
  import opened EngineSpec

  /** A row of the update log. Row `i` has sequence number `i + 1`. */
  datatype Row = Row(device: nat, pushId: nat, blob: Blob)

  datatype ChainRow = ChainRow(upToSeq: nat, upToVV: set<Op>, blob: Blob)

  /** What has happened on a device's current connection: the cursor of its
      last pull, the rows delivered or acked since, the log's length when the
      pull was asked (before that, when the connection opened), and how many
      rows of the snapshot chain have been delivered. */
  datatype Link = Link(since: nat, got: set<nat>, base: nat, chained: nat)

  /** A device: its engine and storage, the push identifiers it has made
      durable with what each carries, and the chain rows imported but not yet
      on disk. The last three are bookkeeping; the device does not see them. */
  datatype Node = Node(sys: Sys, minted: map<nat, set<Op>>, link: Link, residue: set<Op>)

  /** `live` is the snapshots made for the chain as it stands: those that
      answer a request whose lease is still good. */
  datatype World = World(
    log: seq<Row>,
    chain: seq<ChainRow>,
    nodes: seq<Node>,
    wire: set<(nat, ClientFrame)>,
    live: set<(nat, ClientFrame)>)

  const FRESH_LINK: Link := Link(0, {}, 0, 0)

  /** The operations of rows 1 to `k`. */
  function Upto(log: seq<Row>, k: nat): set<Op>
    requires k <= |log|
  {
    if k == 0 then {} else Upto(log, k - 1) + log[k - 1].blob.ops
  }

  function All(log: seq<Row>): set<Op> { Upto(log, |log|) }

  function Note(minted: map<nat, set<Op>>, st: Store): map<nat, set<Op>> {
    if st.inFlight.Some? then minted[st.inFlight.value.id := st.inFlight.value.payload.ops] else minted
  }

  function Seqs(updates: seq<StoredBlob>): set<nat> {
    set u | u in updates :: u.seqNo
  }

  /** The rows a frame delivers. */
  function Rows(f: ServerFrame): seq<StoredBlob> {
    if f.UpdatesBatch? || f.UpdatesBroadcast? then f.updates else []
  }

  /** What a request for the next snapshot starts from: the chain's last row. */
  function Base(chain: seq<ChainRow>): Option<SnapshotBase> {
    if chain == [] then None else Some(SnapshotBase(chain[|chain| - 1].upToSeq, chain[|chain| - 1].upToVV))
  }

  // ---- what the server may say ----

  predicate TrueRows(log: seq<Row>, updates: seq<StoredBlob>) {
    forall u :: u in updates ==> 1 <= u.seqNo <= |log| && u.blob == log[u.seqNo - 1].blob
  }

  predicate TrueAcks(d: nat, log: seq<Row>, acks: seq<PushAck>) {
    forall a :: a in acks ==> 1 <= a.seqNo <= |log| && log[a.seqNo - 1].device == d && log[a.seqNo - 1].pushId == a.id
  }

  /** One device's rows reach another in order: none comes before an earlier
      one, but for those the pull's answer brings. */
  ghost predicate InOrder(log: seq<Row>, l: Link, updates: seq<StoredBlob>)
    requires TrueRows(log, updates)
  {
    forall u, i :: u in updates && l.base <= i < u.seqNo - 1 && log[i].device == log[u.seqNo - 1].device ==>
      i + 1 in l.got + Seqs(updates)
  }

  /** The server's side of the protocol. Rows, acks and snapshot rows are
      what is stored; a batch marked complete ends a pull only once every row
      there when it was asked, past its cursor, has been delivered; the
      snapshot chain is streamed from its first row, in order; a snapshot is
      asked for only of a device past its pull, and its base is a stored row. */
  ghost predicate Truthful(log: seq<Row>, chain: seq<ChainRow>, d: nat, n: Node, f: ServerFrame) {
    var e := n.sys.e;
    && TrueRows(log, Rows(f)) && (e.state != Bootstrapping ==> InOrder(log, n.link, Rows(f)))
    && (f.UpdatesBatch? && f.complete && e.state == Pulling ==>
          forall k :: n.link.since < k <= n.link.base ==> k in n.link.got || k in Seqs(f.updates))
    && (f.UpdatesAck? ==> TrueAcks(d, log, f.acks))
    && (f.Snapshot? && e.state == Bootstrapping ==>
          && n.link.chained < |chain|
          && f.upToSeq == chain[n.link.chained].upToSeq
          && f.blob == chain[n.link.chained].blob)
    && (f.SnapshotRequest? ==>
          && PastPull(e.state)
          && (f.base.Some? ==> exists r :: r in chain && f.base == Some(SnapshotBase(r.upToSeq, r.upToVV))))
  }

  /** A frame the engine will act on. */
  predicate Heard(e: Engine, input: Inbound) {
    e.state != Disconnected && input.Frame? && input.doc == e.docId
  }

  // ---- one step of a device ----

  /** The rows a connection tells of by a frame: those delivered, unless they
      are dropped, and that of an accepted ack. */
  function Tells(e: Engine, f: ServerFrame): set<nat> {
    if e.state == Bootstrapping then {}
    else if f.UpdatesAck? && Accepts(e, f.acks) then {f.acks[0].seqNo}
    else Seqs(Rows(f))
  }

  function NextLink(log: seq<Row>, l: Link, e: Engine, call: Call, r: Engine): Link {
    if call.Connected? && e.state == Disconnected then Link(0, {}, |log|, 0)
    else if call.Bytes? && Heard(e, call.input) then
      var f := call.input.frame;
      if r.state == Pulling && e.state != Pulling then Link(r.contig, {}, |log|, l.chained)
      else
        Link(
          l.since,
          l.got + Tells(e, f),
          l.base,
          if r.state == Bootstrapping && e.state != Bootstrapping then 0
          else if f.Snapshot? && e.state == Bootstrapping then l.chained + 1
          else l.chained)
    else l
  }

  function Chained(e: Engine, call: Call): set<Op> {
    if call.Bytes? && Heard(e, call.input) && call.input.frame.Snapshot? && e.state == Bootstrapping
    then call.input.frame.blob.ops
    else {}
  }

  function Run(s: Sys, call: Call): Sys { Apply(s.(history := [s.st]), call) }

  function Step(log: seq<Row>, n: Node, call: Call): Node {
    var r := Run(n.sys, call);
    Node(r,
         Note(n.minted, r.st),
         NextLink(log, n.link, n.sys.e, call, r.e),
         n.residue + Chained(n.sys.e, call) - Durable(r.st))
  }

  /** The device restarts from what the storage held after `k` writes of the
      call it was in. */
  function Restart(n: Node, call: Call, k: nat): Node
    requires k < |Run(n.sys, call).history|
  {
    var st := Run(n.sys, call).history[k];
    Node(Sys(Boot(n.sys.e.docId, n.sys.e.codec, st), st, [st]), Note(n.minted, st), FRESH_LINK, {})
  }

  /** What the environment owes a call: commits mint the device's next
      operations, fresh push identifiers are fresh, and the server is
      truthful. */
  ghost predicate Allowed(w: World, d: nat, call: Call)
    requires d < |w.nodes|
  {
    var n := w.nodes[d];
    match call
    case Commit(ops) => OwnedBy(d, ops) && ClosedFor(d, n.sys.e.doc.ops + ops)
    case FlushCall(id) => id !in n.minted
    case Bytes(input, id) =>
      && id !in n.minted
      && (Heard(n.sys.e, input) ==> Truthful(w.log, w.chain, d, n, input.frame))
    case Pop => false
    case _ => true
  }

  datatype Label =
    | Do(device: nat, call: Call)
    | Crash(device: nat, call: Call, writes: nat)
    | Ship(device: nat)
    | Insert(device: nat, push: PushBlob)
    | StoreSnapshot(device: nat, frame: ClientFrame)

  ghost predicate Enabled(w: World, l: Label) {
    match l
    case Do(d, call) => d < |w.nodes| && Allowed(w, d, call)
    case Crash(d, call, k) =>
      d < |w.nodes| && Allowed(w, d, call) && k < |Run(w.nodes[d].sys, call).history|
    case Ship(d) => d < |w.nodes| && w.nodes[d].sys.e.outbox != []
    case Insert(d, push) => exists f :: (d, f) in w.wire && f.PushUpdates? && push in f.updates
    case StoreSnapshot(d, f) =>
      && (d, f) in w.wire && (d, f) in w.live && f.PushSnapshot?
      && (if f.fromSeq == None then w.chain == []
          else w.chain != [] && w.chain[|w.chain| - 1].upToSeq == f.fromSeq.value <= f.upToSeq)
  }

  /** The frame that answers a request for the next row of the chain. */
  function Answers(chain: seq<ChainRow>, e: Engine, call: Call): set<ClientFrame> {
    if call.Bytes? && Heard(e, call.input) && call.input.frame.SnapshotRequest? then
      var f := call.input.frame;
      if f.base == Base(chain) && (f.base.Some? ==> f.base.value.vv <= e.known)
      then {Produced(e, f.floor, f.base)}
      else {}
    else {}
  }

  /** A repeat of a device's push is not inserted again. */
  predicate Inserted(log: seq<Row>, d: nat, id: nat) {
    exists r :: r in log && r.device == d && r.pushId == id
  }

  ghost function Next(w: World, l: Label): World
    requires Enabled(w, l)
  {
    match l
    case Do(d, call) =>
      var made := set f | f in Answers(w.chain, w.nodes[d].sys.e, call) :: (d, f);
      w.(nodes := w.nodes[d := Step(w.log, w.nodes[d], call)], live := w.live + made)
    case Crash(d, call, k) => w.(nodes := w.nodes[d := Restart(w.nodes[d], call, k)])
    case Ship(d) =>
      var n := w.nodes[d];
      w.(wire := w.wire + {(d, n.sys.e.outbox[0])},
         nodes := w.nodes[d := n.(sys := n.sys.(e := PopOutbox(n.sys.e)))])
    case Insert(d, push) =>
      if Inserted(w.log, d, push.id) then w else w.(log := w.log + [Row(d, push.id, push.blob)])
    case StoreSnapshot(d, f) => w.(chain := w.chain + [ChainRow(f.upToSeq, f.upToVV, f.blob)], live := {})
  }

  /** Every device installed and empty, and nothing on the server. */
  ghost predicate Init(w: World) {
    && w.log == [] && w.chain == [] && w.wire == {} && w.live == {}
    && forall d :: 0 <= d < |w.nodes| ==> Installed(w.nodes[d])
  }

  ghost predicate Installed(n: Node) {
    && n.sys.e.codec.Valid()
    && n == Node(Sys(Boot(n.sys.e.docId, n.sys.e.codec, EMPTY), EMPTY, [EMPTY]), map[], FRESH_LINK, {})
  }

  /** The steps can be taken one after the other. */
  ghost predicate Runs(w: World, steps: seq<Label>)
    decreases |steps|, 0
  {
    if steps == [] then true
    else
      var before := steps[..|steps| - 1];
      Runs(w, before) && Enabled(Reach(w, before), steps[|steps| - 1])
  }

  ghost function Reach(w: World, steps: seq<Label>): World
    requires Runs(w, steps)
    decreases |steps|, 1
  {
    if steps == [] then w
    else Next(Reach(w, steps[..|steps| - 1]), steps[|steps| - 1])
  }
}

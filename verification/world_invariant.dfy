/** The invariant of every reachable world. */
module WorldInvariant {
  import opened Wrappers
  import opened Operations
  import opened Protocol
  import opened LocalStore
  import opened Documents
  import opened EngineSpec
  import opened EngineCoherence
  import EngineDiscipline
  import opened World
  import opened LogFacts
  import opened NodeInvariant
  import opened CallInvariant
  import opened LinkInvariant
  import opened StepInvariant

  ghost predicate NodesInv(w: World) {
    forall d :: 0 <= d < |w.nodes| ==> NodeInv(d, w.log, w.chain, w.nodes[d])
  }

  ghost predicate WireInv(w: World) {
    forall p :: p in w.wire ==>
      p.0 < |w.nodes| && FrameOk(w.log, w.nodes[p.0].minted, Durable(w.nodes[p.0].sys.st), p.1)
  }

  ghost predicate RowsInv(w: World) {
    forall r :: r in w.log ==> r.device < |w.nodes|
  }

  /** A snapshot made for the chain as it stands takes it on. */
  ghost predicate LiveOk(log: seq<Row>, chain: seq<ChainRow>, f: ClientFrame) {
    && f.PushSnapshot?
    && f.fromSeq == (if chain == [] then None else Some(chain[|chain| - 1].upToSeq))
    && ReachesOn(log, ChainVV(chain, |chain|), f.upToSeq, f.upToVV, f.blob)
  }

  ghost predicate LiveInv(w: World) { forall p :: p in w.live ==> LiveOk(w.log, w.chain, p.1) }

  ghost predicate WorldInv(w: World) {
    ServerInv(w.log, w.chain) && NodesInv(w) && WireInv(w) && RowsInv(w) && LiveInv(w)
  }

  // ---- init ----

  lemma EmptyStore(c: Codec, d: nat)
    ensures StoreInv(c, d, [], map[], EMPTY)
    ensures Durable(EMPTY) == {}
  {}

  lemma InstalledInv(d: nat, n: Node)
    requires Installed(n)
    ensures NodeInv(d, [], [], n)
  {
    var c := n.sys.e.codec;
    EmptyStore(c, d);
    RestartSound(n.sys.e.docId, c, d, [], map[], EMPTY);
    BootIsCoherent(n.sys.e.docId, c, EMPTY, [EMPTY]);
    EngineDiscipline.BootIsDisciplined(n.sys.e.docId, c, EMPTY);
  }

  lemma InitInv(w: World)
    requires Init(w)
    ensures WorldInv(w)
  {
    forall d | 0 <= d < |w.nodes| ensures NodeInv(d, w.log, w.chain, w.nodes[d]) {
      InstalledInv(d, w.nodes[d]);
    }
  }

  // ---- a device takes a step ----

  /** Nothing said earlier becomes untrue when a device makes more pushes. */
  lemma FrameStays(log: seq<Row>, m: map<nat, set<Op>>, n: map<nat, set<Op>>, disk: set<Op>, more: set<Op>,
                   f: ClientFrame)
    requires FrameOk(log, m, disk, f) && disk <= more && forall id :: id in m ==> id in n && n[id] == m[id]
    ensures FrameOk(log, n, more, f)
  {}

  lemma ReplaceNode(w: World, d: nat, n: Node)
    requires WorldInv(w) && d < |w.nodes| && NodeInv(d, w.log, w.chain, n)
    requires forall id :: id in w.nodes[d].minted ==> id in n.minted && n.minted[id] == w.nodes[d].minted[id]
    requires Durable(w.nodes[d].sys.st) <= Durable(n.sys.st)
    ensures WorldInv(w.(nodes := w.nodes[d := n]))
  {
    var r := w.(nodes := w.nodes[d := n]);
    forall p | p in r.wire
      ensures p.0 < |r.nodes| && FrameOk(r.log, r.nodes[p.0].minted, Durable(r.nodes[p.0].sys.st), p.1)
    {
      if p.0 == d {
        FrameStays(w.log, w.nodes[d].minted, n.minted, Durable(w.nodes[d].sys.st), Durable(n.sys.st), p.1);
      }
    }
  }

  lemma InContext(w: World, d: nat, call: Call)
    requires WorldInv(w) && d < |w.nodes| && Allowed(w, d, call)
    ensures CallContext(w, d, call)
  {}

  lemma DoKeeps(w: World, d: nat, call: Call)
    requires WorldInv(w) && Enabled(w, Do(d, call))
    ensures WorldInv(Next(w, Do(d, call)))
  {
    InContext(w, d, call);
    StepKeeps(w, d, call);
    StepNotes(w, d, call);
    ReplaceNode(w, d, Step(w.log, w.nodes[d], call));
    forall f | f in Answers(w.chain, w.nodes[d].sys.e, call) ensures LiveOk(w.log, w.chain, f) {
      AnswerLive(w, d, call);
    }
  }

  /** What answers a request for the next row takes the chain on. */
  lemma AnswerLive(w: World, d: nat, call: Call)
    requires CallContext(w, d, call)
    ensures forall f :: f in Answers(w.chain, w.nodes[d].sys.e, call) ==> LiveOk(w.log, w.chain, f)
  {
    if Answers(w.chain, w.nodes[d].sys.e, call) != {} {
      MadeLive(d, w.log, w.chain, w.nodes[d], call.input.frame.floor, call.input.frame.base);
    }
  }

  lemma MadeLive(d: nat, log: seq<Row>, chain: seq<ChainRow>, n: Node, floor: nat, base: Option<SnapshotBase>)
    requires NodeInv(d, log, chain, n) && PastPull(n.sys.e.state) && base == Base(chain)
    requires base.Some? ==> base.value.vv <= n.sys.e.known
    ensures LiveOk(log, chain, Produced(n.sys.e, floor, base))
  {
    BeginSafe(d, log, chain, n);
    Shapes(d, log, n.minted, n.residue, Begin(n));
    ProducedReaches(d, log, chain, n.link, n.sys.e, floor, base);
  }

  lemma StepNotes(w: World, d: nat, call: Call)
    requires CallContext(w, d, call)
    ensures var m := w.nodes[d].minted;
            var n := Note(m, Run(w.nodes[d].sys, call).st);
            forall id :: id in m ==> id in n && n[id] == m[id]
  {
    CallKept(w, d, call);
    var r := Run(w.nodes[d].sys, call);
    NoteExtends(r.e.codec, d, w.log, w.nodes[d].minted, r.st);
  }

  lemma CrashKeeps(w: World, d: nat, call: Call, k: nat)
    requires WorldInv(w) && Enabled(w, Crash(d, call, k))
    ensures WorldInv(Next(w, Crash(d, call, k)))
  {
    InContext(w, d, call);
    RestartKeeps(w, d, call, k);
    CrashNotes(w, d, call, k);
    ReplaceNode(w, d, Restart(w.nodes[d], call, k));
  }

  lemma CrashNotes(w: World, d: nat, call: Call, k: nat)
    requires CallContext(w, d, call) && k < |Run(w.nodes[d].sys, call).history|
    ensures var m := w.nodes[d].minted;
            var n := Note(m, Run(w.nodes[d].sys, call).history[k]);
            forall id :: id in m ==> id in n && n[id] == m[id]
  {
    CallKept(w, d, call);
    var r := Run(w.nodes[d].sys, call);
    assert r.history[k] in r.history;
    NoteExtends(r.e.codec, d, w.log, w.nodes[d].minted, r.history[k]);
  }

  // ---- the network ----

  lemma PoppedInv(d: nat, log: seq<Row>, chain: seq<ChainRow>, n: Node)
    requires NodeInv(d, log, chain, n)
    ensures NodeInv(d, log, chain, n.(sys := n.sys.(e := PopOutbox(n.sys.e))))
  {
    var r := n.sys.(e := PopOutbox(n.sys.e));
    assert r == Apply(n.sys, Pop);
    CallCoherent(n.sys, Pop);
    EngineDiscipline.CallKeeps(n.sys, Pop);
    UnlearnedLink(d, log, chain, n.link, n.sys.e, r.e);
  }

  lemma ShipKeeps(w: World, d: nat)
    requires WorldInv(w) && Enabled(w, Ship(d))
    ensures WorldInv(Next(w, Ship(d)))
  {
    var n := w.nodes[d];
    var f := n.sys.e.outbox[0];
    assert NodeInv(d, w.log, w.chain, n);
    assert f in n.sys.e.outbox;
    assert FrameOk(w.log, n.minted, Durable(n.sys.st), f);
    PoppedInv(d, w.log, w.chain, n);
    ReplaceNode(w.(wire := w.wire + {(d, f)}), d, n.(sys := n.sys.(e := PopOutbox(n.sys.e))));
  }

  // ---- the server stores a row ----

  lemma StoreStays(c: Codec, d: nat, log: seq<Row>, r: Row, m: map<nat, set<Op>>, st: Store)
    requires StoreInv(c, d, log, m, st)
    requires r.device == d ==> r.pushId in Note(m, st) && Note(m, st)[r.pushId] == r.blob.ops
    ensures StoreInv(c, d, log + [r], m, st)
  {
    AllGrow(log, r);
    UptoGrow(log, r, st.ackedSeq);
    var n := Note(m, st);
    forall id | id in n ensures MintOk(c, d, log + [r], st, id, n[id]) {
      assert MintOk(c, d, log, st, id, n[id]);
    }
    forall row | row in st.wal && row.serverSeq.Some?
      ensures 1 <= row.serverSeq.value <= |log + [r]| && row.payload == (log + [r])[row.serverSeq.value - 1].blob
    {
      assert (log + [r])[row.serverSeq.value - 1] == log[row.serverSeq.value - 1];
    }
  }

  lemma FrameLogStays(log: seq<Row>, r: Row, m: map<nat, set<Op>>, disk: set<Op>, f: ClientFrame)
    requires FrameOk(log, m, disk, f)
    ensures FrameOk(log + [r], m, disk, f)
  {
    if f.Ack? {
      UptoGrow(log, r, f.lastAcked);
    }
    if f.PullUpdates? {
      UptoGrow(log, r, f.since);
    }
  }

  lemma EngineStays(d: nat, log: seq<Row>, r: Row, m: map<nat, set<Op>>, residue: set<Op>, e: Engine, st: Store)
    requires EngineInv(d, log, m, residue, e, st)
    ensures EngineInv(d, log + [r], m, residue, e, st)
  {
    AllGrow(log, r);
    UptoGrow(log, r, e.contig);
    forall f | f in e.outbox ensures FrameOk(log + [r], Note(m, st), Durable(st), f) {
      FrameLogStays(log, r, Note(m, st), Durable(st), f);
    }
  }

  lemma ToldStays(d: nat, log: seq<Row>, r: Row, l: Link, e: Engine)
    requires l.base <= |log| && ToldInv(d, log, l, e)
    ensures ToldInv(d, log + [r], l, e)
  {
    UptoGrow(log, r, l.base);
    UptoGrow(log, r, l.since);
    GotOpsGrow(log, r, l.got);
    forall k | k in l.got ensures 1 <= k <= |log + [r]| && (log + [r])[k - 1].blob.ops <= e.known * e.doc.ops {
      assert (log + [r])[k - 1] == log[k - 1];
    }
  }

  lemma LinkStays(d: nat, log: seq<Row>, chain: seq<ChainRow>, r: Row, l: Link, e: Engine)
    requires LinkInv(d, log, chain, l, e)
    ensures LinkInv(d, log + [r], chain, l, e)
  {
    if e.state != Disconnected && e.state != Bootstrapping {
      ToldStays(d, log, r, l, e);
    }
  }

  lemma NodeStays(d: nat, log: seq<Row>, chain: seq<ChainRow>, r: Row, n: Node)
    requires NodeInv(d, log, chain, n) && ChainInv(log, chain)
    requires r.device == d ==> r.pushId in n.minted && n.minted[r.pushId] == r.blob.ops
    ensures NodeInv(d, log + [r], chain, n)
  {
    StoreStays(n.sys.e.codec, d, log, r, n.minted, n.sys.st);
    EngineStays(d, log, r, n.minted, n.residue, n.sys.e, n.sys.st);
    LinkStays(d, log, chain, r, n.link, n.sys.e);
  }

  /** A pushed row enters the log only once, and carries only what its device
      minted for it. */
  lemma RowEnters(w: World, d: nat, push: PushBlob)
    requires WorldInv(w) && Enabled(w, Insert(d, push)) && !Inserted(w.log, d, push.id)
    ensures d < |w.nodes| && push.id in w.nodes[d].minted && w.nodes[d].minted[push.id] == push.blob.ops
    ensures LogInv(w.log + [Row(d, push.id, push.blob)])
  {
    var f :| (d, f) in w.wire && f.PushUpdates? && push in f.updates;
    assert FrameOk(w.log, w.nodes[d].minted, Durable(w.nodes[d].sys.st), f);
    var n := w.nodes[d];
    assert NodeInv(d, w.log, w.chain, n);
    assert MintOk(n.sys.e.codec, d, w.log, n.sys.st, push.id, n.minted[push.id]);
    assert n.sys.e.codec.Bounded(push.blob.ops);
    LogGrow(w.log, Row(d, push.id, push.blob), n.sys.e.codec.bound(push.blob.ops));
  }

  lemma InsertKeeps(w: World, d: nat, push: PushBlob)
    requires WorldInv(w) && Enabled(w, Insert(d, push))
    ensures WorldInv(Next(w, Insert(d, push)))
  {
    if !Inserted(w.log, d, push.id) {
      var row := Row(d, push.id, push.blob);
      RowEnters(w, d, push);
      ChainGrow(w.log, row, w.chain);
      forall i | 0 <= i < |w.nodes| ensures NodeInv(i, w.log + [row], w.chain, w.nodes[i]) {
        NodeStays(i, w.log, w.chain, row, w.nodes[i]);
      }
      forall p | p in w.live ensures LiveOk(w.log + [row], w.chain, p.1) {
        var f := p.1;
        ReachesStill(w.log, row, ChainVV(w.chain, |w.chain|), f.upToSeq, f.upToVV, f.blob);
      }
      forall p | p in w.wire ensures FrameOk(w.log + [row], w.nodes[p.0].minted, Durable(w.nodes[p.0].sys.st), p.1) {
        FrameLogStays(w.log, row, w.nodes[p.0].minted, Durable(w.nodes[p.0].sys.st), p.1);
      }
    }
  }

  // ---- the server stores a snapshot ----

  lemma ChainLinkStays(d: nat, log: seq<Row>, chain: seq<ChainRow>, c: ChainRow, l: Link, e: Engine)
    requires LinkInv(d, log, chain, l, e)
    ensures LinkInv(d, log, chain + [c], l, e)
  {
    if e.state == Bootstrapping {
      assert ChainVV(chain + [c], l.chained) == ChainVV(chain, l.chained);
    }
  }

  lemma StoreSnapshotKeeps(w: World, d: nat, f: ClientFrame)
    requires WorldInv(w) && Enabled(w, StoreSnapshot(d, f))
    ensures WorldInv(Next(w, StoreSnapshot(d, f)))
  {
    var c := ChainRow(f.upToSeq, f.upToVV, f.blob);
    assert LiveOk(w.log, w.chain, (d, f).1);
    ChainExtend(w.log, w.chain, c);
    forall i | 0 <= i < |w.nodes| ensures NodeInv(i, w.log, w.chain + [c], w.nodes[i]) {
      ChainLinkStays(i, w.log, w.chain, c, w.nodes[i].link, w.nodes[i].sys.e);
    }
  }

  // ---- every reachable world ----

  lemma StepsKeep(w: World, l: Label)
    requires WorldInv(w) && Enabled(w, l)
    ensures WorldInv(Next(w, l))
  {
    match l {
      case Do(d, call) => DoKeeps(w, d, call);
      case Crash(d, call, k) => CrashKeeps(w, d, call, k);
      case Ship(d) => ShipKeeps(w, d);
      case Insert(d, push) => InsertKeeps(w, d, push);
      case StoreSnapshot(d, f) => StoreSnapshotKeeps(w, d, f);
    }
  }

  lemma {:induction false} Reachable(w: World, steps: seq<Label>)
    requires Init(w) && Runs(w, steps)
    ensures WorldInv(Reach(w, steps))
  {
    if steps == [] {
      InitInv(w);
    } else {
      var before := steps[..|steps| - 1];
      Reachable(w, before);
      StepsKeep(Reach(w, before), steps[|steps| - 1]);
    }
  }
}

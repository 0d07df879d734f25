/** The host object and the windows' bridges, call by call, are a world of
    `MirrorConvergence`: what is proved of every run of pipes is of them. */
module MirrorSimulation {
  import opened Wrappers
  import opened Operations
  import opened Mirrors
  import opened MirrorBridging
  import C = MirrorConvergence

  function Gifts(us: seq<Update>): (r: seq<Told>)
    ensures |r| == |us| && forall i :: 0 <= i < |r| ==> r[i] == Given(us[i])
  {
    seq(|us|, i requires 0 <= i < |us| => Given(us[i]))
  }

  // ---- one subscription ----

  /** The host's record of a subscription of `doc` is as the pipe says. */
  predicate HostEnd(subs: map<nat, Subscriber>, sinks: map<nat, seq<Told>>, doc: nat, id: nat, p: C.Pipe) {
    && id in subs && subs[id] == p.sub && p.sub.doc == doc
    && id in sinks && sinks[id] == Gifts(p.given)
    && |p.down| <= |p.given| && p.down == p.given[|p.given| - |p.down|..]
  }

  /** And so is the bridge, the host having taken `taken` of its sends. */
  ghost predicate BridgeEnd(b: MirrorBridge, c: Codec, doc: nat, p: C.Pipe, taken: nat)
    reads b
  {
    && b.Valid() && !b.stopped && b.codec == c
    && taken <= |SentFor(b.sent, doc)| && p.up == SentFor(b.sent, doc)[taken..]
    && match p.bridge
       case Opening(pending) => doc in b.pending && b.pending[doc] == pending
       case Open(e) => doc in b.engines && b.engines[doc] == e
  }

  /** What a pass makes of a subscription, on the host's side and the pipe's. */
  lemma Fans(host: set<Op>, p: C.Pipe)
    requires |p.down| <= |p.given| && p.down == p.given[|p.given| - |p.down|..]
    ensures var r := C.Fanned(host, p);
            && Gifts(p.given) + Owed(p.sub, host) == Gifts(r.given) && r.sub == Caught(p.sub, host)
            && |r.down| <= |r.given| && r.down == r.given[|r.given| - |r.down|..]
            && r.up == p.up && r.bridge == p.bridge && r.sub.doc == p.sub.doc
  {
    if host <= p.sub.lastSent {
      assert p.down + [] == p.down && p.given + [] == p.given;
    } else {
      var u := host - p.sub.lastSent;
      assert Gifts(p.given) + [Given(u)] == Gifts(p.given + [u]);
      assert p.down + [u] == (p.given + [u])[|p.given| - |p.down|..];
    }
  }

  // ---- one host and its windows ----

  predicate HostSide(subs: map<nat, Subscriber>, sinks: map<nat, seq<Told>>, doc: nat, pipes: map<nat, C.Pipe>) {
    forall id :: id in pipes ==> HostEnd(subs, sinks, doc, id, pipes[id])
  }

  ghost predicate BridgeSide(bs: map<nat, MirrorBridge>, c: Codec, doc: nat, pipes: map<nat, C.Pipe>,
                             taken: map<nat, nat>)
    reads bs.Values
  {
    && bs.Keys == taken.Keys == pipes.Keys
    && (forall id :: id in pipes ==> BridgeEnd(bs[id], c, doc, pipes[id], taken[id]))
    && forall i, j :: i in bs && j in bs && i != j ==> bs[i] != bs[j]
  }

  /** The host, and a bridge for each subscription of the doc, stand as a world
      that some run of pipes reaches. */
  ghost predicate Stands(h: Mirrors.Host, bs: map<nat, MirrorBridge>, w: C.World, taken: map<nat, nat>)
    reads h, bs.Values
  {
    && h.Valid() && h.codec == w.codec && w.doc in h.docs && h.docs[w.doc] == w.host && C.Reached(w)
    && HostSide(h.subscribers, h.sinks, w.doc, w.pipes) && BridgeSide(bs, w.codec, w.doc, w.pipes, taken)
  }

  lemma ReachedNext(w: C.World, l: C.Label)
    requires C.Reached(w) && C.Enabled(w, l)
    ensures C.Reached(C.Next(w, l))
  {
    var w0, steps :| C.Init(w0) && C.Runs(w0, steps) && C.Reach(w0, steps) == w;
    assert (steps + [l])[..|steps|] == steps;
    assert C.Runs(w0, steps + [l]) && C.Reach(w0, steps + [l]) == C.Next(w, l);
  }

  method Start(codec: Codec, doc: nat, ops: set<Op>) returns (h: Mirrors.Host, ghost w: C.World)
    requires codec.Valid() && Closed(ops)
    ensures fresh(h) && Stands(h, map[], w, map[]) && w == C.World(codec, doc, ops, map[])
  {
    h := new Mirrors.Host(codec);
    h.OpenDoc(doc, ops);
    w := C.World(codec, doc, ops, map[]);
    assert C.Init(w) && C.Runs(w, []) && C.Reach(w, []) == w;
  }

  // ---- a window opens the doc ----

  lemma OneMore(bs: map<nat, MirrorBridge>, b: MirrorBridge, c: Codec, id: nat, doc: nat,
                pipes: map<nat, C.Pipe>, p: C.Pipe, taken: map<nat, nat>, n: nat)
    requires BridgeSide(bs, c, doc, pipes, taken) && id !in bs && b !in bs.Values && BridgeEnd(b, c, doc, p, n)
    ensures BridgeSide(bs[id := b], c, doc, pipes[id := p], taken[id := n])
  {
    forall i | i in bs ensures bs[i] != b {
      assert bs[i] in bs.Values;
    }
  }

  lemma JoinSides(subs: map<nat, Subscriber>, sinks: map<nat, seq<Told>>, doc: nat, pipes: map<nat, C.Pipe>,
                  id: nat, host: set<Op>, peer: Peer, born: nat)
    requires HostSide(subs, sinks, doc, pipes) && id !in sinks
    ensures id !in pipes
    ensures HostSide(subs[id := Subscriber(doc, peer, host)], sinks[id := []], doc,
                     pipes[id := C.Begun(doc, host, peer, born)])
  {
    forall i | i in pipes ensures i in sinks {
      assert HostEnd(subs, sinks, doc, i, pipes[i]);
    }
  }

  lemma Joined(w: C.World, id: nat, peer: Peer, born: nat) returns (v: C.World)
    requires C.Reached(w) && C.Enabled(w, C.Subscribe(id, peer, born))
    ensures v == C.Next(w, C.Subscribe(id, peer, born)) && C.Reached(v)
    ensures v == w.(pipes := w.pipes[id := C.Begun(w.doc, w.host, peer, born)])
  {
    ReachedNext(w, C.Subscribe(id, peer, born));
    v := C.Next(w, C.Subscribe(id, peer, born));
  }

  method Join(h: Mirrors.Host, b: MirrorBridge, doc: nat, peer: Peer, ghost born: nat) returns (id: nat)
    requires h.Valid() && doc in h.docs && b.Valid() && b.codec == h.codec
    requires !b.stopped && doc !in b.engines && doc !in b.pending
    modifies h, b
    ensures h.Valid() && h.docs == old(h.docs) && id !in old(h.sinks)
    ensures h.subscribers == old(h.subscribers)[id := Subscriber(doc, peer, h.docs[doc])]
    ensures h.sinks == old(h.sinks)[id := []]
    ensures BridgeEnd(b, h.codec, doc, C.Begun(doc, h.docs[doc], peer, born), |SentFor(b.sent, doc)|)
  {
    var ok := b.BeginOpen(doc);
    var sub, seed := h.OnSubscribe(doc, peer);
    id := sub.value;
  }

  /** The host subscribes a window, and its bridge waits for the seed. */
  method Subscribe(h: Mirrors.Host, bs: map<nat, MirrorBridge>, b: MirrorBridge, doc: nat, peer: Peer, born: nat,
                   ghost w: C.World, ghost taken: map<nat, nat>)
    returns (id: nat, ghost v: C.World, ghost t: map<nat, nat>)
    requires Stands(h, bs, w, taken) && doc == w.doc && b !in bs.Values && b.Valid() && b.codec == h.codec
    requires !b.stopped && doc !in b.engines && doc !in b.pending
    requires (forall i :: i in w.pipes ==> w.pipes[i].sub.peer != peer)
    requires forall n: nat :: Op(peer, n) in w.host <==> n < born
    modifies h, b
    ensures id !in bs && v == C.Next(w, C.Subscribe(id, peer, born)) && Stands(h, bs[id := b], v, t)
  {
    id := Join(h, b, doc, peer, born);
    assert BridgeSide(bs, w.codec, w.doc, w.pipes, taken);
    JoinSides(old(h.subscribers), old(h.sinks), doc, w.pipes, id, w.host, peer, born);
    t := taken[id := |SentFor(b.sent, doc)|];
    OneMore(bs, b, w.codec, id, doc, w.pipes, C.Begun(doc, w.host, peer, born), taken, |SentFor(b.sent, doc)|);
    v := Joined(w, id, peer, born);
  }

  // ---- the host moves ----

  /** A command, or a frame from the server. */
  method Change(h: Mirrors.Host, bs: map<nat, MirrorBridge>, doc: nat, ops: set<Op>,
                ghost w: C.World, ghost taken: map<nat, nat>)
    returns (ghost v: C.World)
    requires Stands(h, bs, w, taken) && doc == w.doc && C.Enabled(w, C.Change(ops))
    modifies h
    ensures v == C.Next(w, C.Change(ops)) && Stands(h, bs, v, taken)
  {
    h.OnChange(doc, ops);
    ReachedNext(w, C.Change(ops));
    v := C.Next(w, C.Change(ops));
  }

  function FannedAll(host: set<Op>, pipes: map<nat, C.Pipe>): map<nat, C.Pipe> {
    map id | id in pipes :: C.Fanned(host, pipes[id])
  }

  lemma FanSides(docs: map<nat, set<Op>>, subs: map<nat, Subscriber>, sinks: map<nat, seq<Told>>, doc: nat,
                 pipes: map<nat, C.Pipe>)
    requires doc in docs && HostSide(subs, sinks, doc, pipes)
    ensures HostSide(Kept(docs, subs), Heard(docs, subs, sinks, {}), doc, FannedAll(docs[doc], pipes))
  {
    forall id | id in pipes
      ensures HostEnd(Kept(docs, subs), Heard(docs, subs, sinks, {}), doc, id, C.Fanned(docs[doc], pipes[id]))
    {
      assert HostEnd(subs, sinks, doc, id, pipes[id]);
      Fans(docs[doc], pipes[id]);
    }
  }

  lemma FanBridges(bs: map<nat, MirrorBridge>, c: Codec, host: set<Op>, doc: nat, pipes: map<nat, C.Pipe>,
                   taken: map<nat, nat>)
    requires BridgeSide(bs, c, doc, pipes, taken)
    ensures BridgeSide(bs, c, doc, FannedAll(host, pipes), taken)
  {
    forall id | id in pipes ensures BridgeEnd(bs[id], c, doc, C.Fanned(host, pipes[id]), taken[id]) {
      assert BridgeEnd(bs[id], c, doc, pipes[id], taken[id]);
    }
  }

  /** One pass of the host over all its mirrors. */
  method Fan(h: Mirrors.Host, bs: map<nat, MirrorBridge>, ghost w: C.World, ghost taken: map<nat, nat>)
    returns (ghost v: C.World)
    requires Stands(h, bs, w, taken)
    modifies h
    ensures v == C.Next(w, C.FanOut) && Stands(h, bs, v, taken)
  {
    FanSides(h.docs, h.subscribers, h.sinks, w.doc, w.pipes);
    h.FanOut();
    FanBridges(bs, w.codec, w.host, w.doc, w.pipes, taken);
    ReachedNext(w, C.FanOut);
    v := C.Next(w, C.FanOut);
    assert v.pipes == FannedAll(w.host, w.pipes);
  }

  lemma ImportBridges(bs: map<nat, MirrorBridge>, c: Codec, id: nat, doc: nat, pipes: map<nat, C.Pipe>,
                      taken: map<nat, nat>)
    requires BridgeSide(bs, c, doc, pipes, taken) && id in pipes && pipes[id].up != [] && pipes[id].cuts != []
    ensures BridgeSide(bs, c, doc, pipes[id := C.ImportedPipe(c, pipes[id])], taken[id := taken[id] + 1])
  {
    assert BridgeEnd(bs[id], c, doc, pipes[id], taken[id]);
    assert BridgeEnd(bs[id], c, doc, C.ImportedPipe(c, pipes[id]), taken[id] + 1);
  }

  lemma ImportSides(c: Codec, subs: map<nat, Subscriber>, sinks: map<nat, seq<Told>>, id: nat, doc: nat,
                    pipes: map<nat, C.Pipe>)
    requires HostSide(subs, sinks, doc, pipes) && id in pipes && pipes[id].up != [] && pipes[id].cuts != []
    requires id in subs
    ensures var sub := subs[id].(lastSent := subs[id].lastSent + c.bound(pipes[id].up[0]));
            HostSide(subs[id := sub], sinks, doc, pipes[id := C.ImportedPipe(c, pipes[id])])
  {
    assert HostEnd(subs, sinks, doc, id, pipes[id]);
  }

  lemma Imported(w: C.World, id: nat) returns (v: C.World)
    requires C.Reached(w) && C.Enabled(w, C.Import(id))
    ensures v == C.Next(w, C.Import(id)) && C.Reached(v)
    ensures v == w.(host := w.host + w.pipes[id].up[0],
                    pipes := w.pipes[id := C.ImportedPipe(w.codec, w.pipes[id])])
  {
    ReachedNext(w, C.Import(id));
    v := C.Next(w, C.Import(id));
  }

  /** The host takes the first of a bridge's sends it has not. */
  method Import(h: Mirrors.Host, bs: map<nat, MirrorBridge>, id: nat, u: Update,
                ghost w: C.World, ghost taken: map<nat, nat>)
    returns (ghost v: C.World, ghost t: map<nat, nat>)
    requires Stands(h, bs, w, taken) && C.Enabled(w, C.Import(id)) && u == w.pipes[id].up[0]
    modifies h
    ensures v == C.Next(w, C.Import(id)) && Stands(h, bs, v, t)
  {
    assert HostEnd(h.subscribers, h.sinks, w.doc, id, w.pipes[id]);
    var ok := h.TakeImport(id, u);
    t := taken[id := taken[id] + 1];
    ImportSides(w.codec, old(h.subscribers), h.sinks, id, w.doc, w.pipes);
    ImportBridges(bs, w.codec, id, w.doc, w.pipes, taken);
    v := Imported(w, id);
  }

  /** The host's one turn for both: what a mirror sent, then a pass. */
  method ImportAndFan(h: Mirrors.Host, bs: map<nat, MirrorBridge>, id: nat, u: Update,
                      ghost w: C.World, ghost taken: map<nat, nat>)
    returns (ghost v: C.World, ghost t: map<nat, nat>)
    requires Stands(h, bs, w, taken) && C.Enabled(w, C.Import(id)) && u == w.pipes[id].up[0]
    modifies h
    ensures v == C.Next(C.Next(w, C.Import(id)), C.FanOut) && Stands(h, bs, v, t)
  {
    v, t := Import(h, bs, id, u, w, taken);
    v := Fan(h, bs, v, t);
  }

  // ---- a bridge moves ----

  /** The other bridges are where they were. */
  ghost predicate OthersEnd(bs: map<nat, MirrorBridge>, c: Codec, id: nat, doc: nat, pipes: map<nat, C.Pipe>,
                            taken: map<nat, nat>)
    reads bs.Values
  {
    && bs.Keys == taken.Keys == pipes.Keys
    && (forall i :: i in pipes && i != id ==> BridgeEnd(bs[i], c, doc, pipes[i], taken[i]))
    && forall i, j :: i in bs && j in bs && i != j ==> bs[i] != bs[j]
  }

  lemma OneMoves(bs: map<nat, MirrorBridge>, c: Codec, id: nat, doc: nat, pipes: map<nat, C.Pipe>, p: C.Pipe,
                 taken: map<nat, nat>)
    requires OthersEnd(bs, c, id, doc, pipes, taken) && id in pipes && BridgeEnd(bs[id], c, doc, p, taken[id])
    ensures BridgeSide(bs, c, doc, pipes[id := p], taken)
  {}

  lemma SameHostEnd(h: Mirrors.Host, w: C.World, id: nat, p: C.Pipe)
    requires HostSide(h.subscribers, h.sinks, w.doc, w.pipes) && id in w.pipes
    requires p.sub == w.pipes[id].sub && p.given == w.pipes[id].given
    requires p.down == w.pipes[id].down || (w.pipes[id].down != [] && p.down == w.pipes[id].down[1..])
    ensures HostSide(h.subscribers, h.sinks, w.doc, w.pipes[id := p])
  {
    assert HostEnd(h.subscribers, h.sinks, w.doc, id, w.pipes[id]);
    assert HostEnd(h.subscribers, h.sinks, w.doc, id, p);
  }

  method ArriveEnd(b: MirrorBridge, c: Codec, doc: nat, seed: set<Op>, ghost p: C.Pipe, ghost taken: nat)
    requires BridgeEnd(b, c, doc, p, taken) && p.bridge.Opening? && seed == p.seed
    modifies b
    ensures BridgeEnd(b, c, doc, C.Arrived(c, p), taken)
  {
    var ok := b.FinishOpen(doc, seed);
  }

  method DeliverEnd(b: MirrorBridge, c: Codec, doc: nat, u: Update, ghost p: C.Pipe, ghost taken: nat)
    requires BridgeEnd(b, c, doc, p, taken) && p.down != [] && u == p.down[0]
    modifies b
    ensures BridgeEnd(b, c, doc, C.Delivered(c, p), taken)
  {
    b.HandleUpdate(doc, u);
  }

  method PumpEnd(b: MirrorBridge, c: Codec, ghost doc: nat, ghost p: C.Pipe, ghost taken: nat)
    requires BridgeEnd(b, c, doc, p, taken) && p.bridge.Open?
    modifies b
    ensures BridgeEnd(b, c, doc, C.Pumped(p), taken)
  {
    b.PumpOutbox();
  }

  /** A seed arrives. */
  method Arrive(h: Mirrors.Host, bs: map<nat, MirrorBridge>, id: nat, doc: nat, seed: set<Op>,
                ghost w: C.World, ghost taken: map<nat, nat>)
    returns (ghost v: C.World)
    requires Stands(h, bs, w, taken) && C.Enabled(w, C.SeedArrives(id)) && doc == w.doc && seed == w.pipes[id].seed
    modifies bs[id]
    ensures v == C.Next(w, C.SeedArrives(id)) && Stands(h, bs, v, taken)
  {
    ghost var p := C.Arrived(w.codec, w.pipes[id]);
    ArriveEnd(bs[id], h.codec, doc, seed, w.pipes[id], taken[id]);
    OneMoves(bs, w.codec, id, doc, w.pipes, p, taken);
    SameHostEnd(h, w, id, p);
    ReachedNext(w, C.SeedArrives(id));
    v := C.Next(w, C.SeedArrives(id));
  }

  /** The first update still on its way down reaches a bridge. */
  method Deliver(h: Mirrors.Host, bs: map<nat, MirrorBridge>, id: nat, doc: nat, u: Update,
                 ghost w: C.World, ghost taken: map<nat, nat>)
    returns (ghost v: C.World)
    requires Stands(h, bs, w, taken) && C.Enabled(w, C.Deliver(id)) && doc == w.doc && u == w.pipes[id].down[0]
    modifies bs[id]
    ensures v == C.Next(w, C.Deliver(id)) && Stands(h, bs, v, taken)
  {
    ghost var p := C.Delivered(w.codec, w.pipes[id]);
    DeliverEnd(bs[id], h.codec, doc, u, w.pipes[id], taken[id]);
    OneMoves(bs, w.codec, id, doc, w.pipes, p, taken);
    SameHostEnd(h, w, id, p);
    ReachedNext(w, C.Deliver(id));
    v := C.Next(w, C.Deliver(id));
  }

  method Commit(h: Mirrors.Host, bs: map<nat, MirrorBridge>, id: nat, doc: nat, count: nat, ops: set<Op>,
                ghost w: C.World, ghost taken: map<nat, nat>)
    returns (ghost v: C.World)
    requires Stands(h, bs, w, taken) && C.Enabled(w, C.Commit(id, count)) && doc == w.doc
    requires var p := w.pipes[id]; ops == C.Run(p.sub.peer, p.next, p.next + count)
    modifies bs[id]
    ensures v == C.Next(w, C.Commit(id, count)) && Stands(h, bs, v, taken)
  {
    ghost var p := C.Committed(w.pipes[id], count);
    bs[id].Commit(doc, ops);
    OneMoves(bs, w.codec, id, doc, w.pipes, p, taken);
    SameHostEnd(h, w, id, p);
    ReachedNext(w, C.Commit(id, count));
    v := C.Next(w, C.Commit(id, count));
  }

  method Flush(h: Mirrors.Host, bs: map<nat, MirrorBridge>, id: nat, doc: nat,
               ghost w: C.World, ghost taken: map<nat, nat>)
    returns (ghost v: C.World)
    requires Stands(h, bs, w, taken) && C.Enabled(w, C.Flush(id)) && doc == w.doc
    modifies bs[id]
    ensures v == C.Next(w, C.Flush(id)) && Stands(h, bs, v, taken)
  {
    ghost var p := C.FlushedPipe(w.pipes[id]);
    bs[id].Flush(doc);
    OneMoves(bs, w.codec, id, doc, w.pipes, p, taken);
    SameHostEnd(h, w, id, p);
    ReachedNext(w, C.Flush(id));
    v := C.Next(w, C.Flush(id));
  }

  method Pump(h: Mirrors.Host, bs: map<nat, MirrorBridge>, id: nat, ghost w: C.World, ghost taken: map<nat, nat>)
    returns (ghost v: C.World)
    requires Stands(h, bs, w, taken) && C.Enabled(w, C.Pump(id))
    modifies bs[id]
    ensures v == C.Next(w, C.Pump(id)) && Stands(h, bs, v, taken)
  {
    ghost var p := C.Pumped(w.pipes[id]);
    PumpEnd(bs[id], h.codec, w.doc, w.pipes[id], taken[id]);
    OneMoves(bs, w.codec, id, w.doc, w.pipes, p, taken);
    SameHostEnd(h, w, id, p);
    ReachedNext(w, C.Pump(id));
    v := C.Next(w, C.Pump(id));
  }

  // ---- at rest ----

  /** Everything handed to a bridge has reached it, everything it sent has been
      taken, it has flushed, and a pass has run since. */
  ghost predicate AtRest(h: Mirrors.Host, b: MirrorBridge, id: nat, doc: nat, p: C.Pipe, taken: nat)
    requires BridgeEnd(b, h.codec, doc, p, taken) && doc in h.docs
    reads h, b
  {
    && p.bridge.Open? && p.down == [] && taken == |SentFor(b.sent, doc)|
    && var e := b.engines[doc];
       && e.outbox == [] && e.ops <= e.lastSent
       && id in h.subscribers && h.docs[doc] <= h.subscribers[id].lastSent
  }

  /** So wherever these calls have led, a window's engine at rest is the
      host's doc. */
  lemma ObjectsAgree(h: Mirrors.Host, bs: map<nat, MirrorBridge>, id: nat, w: C.World, taken: map<nat, nat>)
    requires Stands(h, bs, w, taken) && id in bs
    requires AtRest(h, bs[id], id, w.doc, w.pipes[id], taken[id])
    ensures bs[id].engines[w.doc].ops == h.docs[w.doc]
  {
    assert HostEnd(h.subscribers, h.sinks, w.doc, id, w.pipes[id]);
    C.DrainedEqualsHost(w, id);
  }
}

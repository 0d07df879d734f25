/** One doc, its host, and any number of mirrors of it. Updates travel each
    way in order; commands, frames from the server and the other mirrors
    change the doc in between. */
module MirrorConvergence {
  import opened Wrappers
  import opened Operations
  import opened Mirrors

  /** A mirror's engine exists once its seed has arrived; updates that come
      first wait. */
  datatype Bridge =
    | Opening(pending: seq<Update>)
    | Open(engine: MirrorEngine)

  /** One subscription: the host's record, the updates on their way down, the
      bridge, the sends on their way up. The rest is history: the seed, all
      that was ever sent down, what of it was applied, and the counter of the
      mirror's peer at the seed, up to the last import, at each cut between
      the updates still to be imported, and now. */
  datatype Pipe = Pipe(
    sub: Subscriber, down: seq<Update>, bridge: Bridge, up: seq<Update>,
    seed: set<Op>, given: seq<Update>, applied: seq<Update>,
    born: nat, imported: nat, cuts: seq<nat>, next: nat)

  datatype World = World(codec: Codec, doc: nat, host: set<Op>, pipes: map<nat, Pipe>)

  datatype Label =
    | Change(ops: set<Op>)
    | Subscribe(id: nat, peer: Peer, born: nat)
    | FanOut
    | SeedArrives(id: nat)
    | Deliver(id: nat)
    | Commit(id: nat, count: nat)
    | Flush(id: nat)
    | Pump(id: nat)
    | Import(id: nat)

  /** Operations `a` to `b` of a peer. */
  function Run(p: Peer, a: nat, b: nat): set<Op> {
    set c | a <= c < b :: Op(p, c)
  }

  function Union(us: seq<Update>): set<Op> {
    if us == [] then {} else Union(us[..|us| - 1]) + us[|us| - 1]
  }

  lemma UnionMore(us: seq<Update>, u: Update)
    ensures Union(us + [u]) == Union(us) + u
  {
    assert (us + [u])[..|us|] == us;
  }

  lemma {:induction false} UnionConcat(a: seq<Update>, b: seq<Update>)
    ensures Union(a + b) == Union(a) + Union(b)
  {
    if b == [] {
      assert a + b == a;
    } else {
      assert a + b == (a + b[..|b| - 1]) + [b[|b| - 1]];
      UnionMore(a + b[..|b| - 1], b[|b| - 1]);
      UnionConcat(a, b[..|b| - 1]);
    }
  }

  // ---- steps ----

  function Begun(doc: nat, host: set<Op>, peer: Peer, born: nat): Pipe {
    Pipe(Subscriber(doc, peer, host), [], Opening([]), [], host, [], [], born, born, [], born)
  }

  function Fanned(host: set<Op>, p: Pipe): Pipe {
    var owed := if host <= p.sub.lastSent then [] else [host - p.sub.lastSent];
    p.(sub := Caught(p.sub, host), down := p.down + owed, given := p.given + owed)
  }

  function Arrived(c: Codec, p: Pipe): Pipe
    requires p.bridge.Opening?
  {
    p.(bridge := Open(AppliedAll(c, Seeded(p.seed), p.bridge.pending)), applied := p.bridge.pending)
  }

  function Delivered(c: Codec, p: Pipe): Pipe
    requires p.down != []
  {
    var u := p.down[0];
    if p.bridge.Opening? then p.(down := p.down[1..], bridge := Opening(p.bridge.pending + [u]))
    else p.(down := p.down[1..], bridge := Open(Applied(c, p.bridge.engine, u)), applied := p.applied + [u])
  }

  function Committed(p: Pipe, count: nat): Pipe
    requires p.bridge.Open?
  {
    var e := p.bridge.engine;
    p.(bridge := Open(e.(ops := e.ops + Run(p.sub.peer, p.next, p.next + count))), next := p.next + count)
  }

  function FlushedPipe(p: Pipe): Pipe
    requires p.bridge.Open?
  {
    var e := p.bridge.engine;
    p.(bridge := Open(Flushed(e)), cuts := if e.ops <= e.lastSent then p.cuts else p.cuts + [p.next])
  }

  function Pumped(p: Pipe): Pipe
    requires p.bridge.Open?
  {
    var e := p.bridge.engine;
    p.(bridge := Open(e.(outbox := [])), up := p.up + e.outbox)
  }

  function ImportedPipe(c: Codec, p: Pipe): Pipe
    requires p.up != [] && p.cuts != []
  {
    p.(sub := p.sub.(lastSent := p.sub.lastSent + c.bound(p.up[0])), up := p.up[1..],
       imported := p.cuts[0], cuts := p.cuts[1..])
  }

  /** A live mirror writes under a peer leased to it alone. */
  ghost predicate Enabled(w: World, l: Label) {
    match l
    case Change(ops) =>
      && Closed(w.host + ops)
      && forall id, o :: id in w.pipes && o in ops ==> o.peer != w.pipes[id].sub.peer
    case Subscribe(id, peer, born) =>
      && id !in w.pipes && (forall i :: i in w.pipes ==> w.pipes[i].sub.peer != peer)
      && forall n: nat :: Op(peer, n) in w.host <==> n < born
    case FanOut => true
    case SeedArrives(id) => id in w.pipes && w.pipes[id].bridge.Opening?
    case Deliver(id) => id in w.pipes && w.pipes[id].down != []
    case Commit(id, _) => id in w.pipes && w.pipes[id].bridge.Open?
    case Flush(id) => id in w.pipes && w.pipes[id].bridge.Open?
    case Pump(id) => id in w.pipes && w.pipes[id].bridge.Open?
    case Import(id) => id in w.pipes && w.pipes[id].up != [] && w.pipes[id].cuts != []
  }

  ghost function Next(w: World, l: Label): World
    requires Enabled(w, l)
  {
    match l
    case Change(ops) => w.(host := w.host + ops)
    case Subscribe(id, peer, born) => w.(pipes := w.pipes[id := Begun(w.doc, w.host, peer, born)])
    case FanOut => w.(pipes := map id | id in w.pipes :: Fanned(w.host, w.pipes[id]))
    case SeedArrives(id) => w.(pipes := w.pipes[id := Arrived(w.codec, w.pipes[id])])
    case Deliver(id) => w.(pipes := w.pipes[id := Delivered(w.codec, w.pipes[id])])
    case Commit(id, n) => w.(pipes := w.pipes[id := Committed(w.pipes[id], n)])
    case Flush(id) => w.(pipes := w.pipes[id := FlushedPipe(w.pipes[id])])
    case Pump(id) => w.(pipes := w.pipes[id := Pumped(w.pipes[id])])
    case Import(id) =>
      w.(host := w.host + w.pipes[id].up[0], pipes := w.pipes[id := ImportedPipe(w.codec, w.pipes[id])])
  }

  ghost predicate Init(w: World) { w.codec.Valid() && Closed(w.host) && w.pipes == map[] }

  ghost predicate Runs(w: World, steps: seq<Label>)
    decreases |steps|, 0
  {
    steps == [] ||
    (Runs(w, steps[..|steps| - 1]) && Enabled(Reach(w, steps[..|steps| - 1]), steps[|steps| - 1]))
  }

  ghost function Reach(w: World, steps: seq<Label>): World
    requires Runs(w, steps)
    decreases |steps|, 1
  {
    if steps == [] then w else Next(Reach(w, steps[..|steps| - 1]), steps[|steps| - 1])
  }

  // ---- the invariant ----

  /** The updates still to be imported: consecutive runs of the peer. */
  function Chunks(peer: Peer, from: nat, cuts: seq<nat>): seq<Update>
    decreases |cuts|
  {
    if cuts == [] then [] else [Run(peer, from, cuts[0])] + Chunks(peer, cuts[0], cuts[1..])
  }

  predicate Climbs(from: nat, cuts: seq<nat>)
    decreases |cuts|
  {
    cuts == [] || (from < cuts[0] && Climbs(cuts[0], cuts[1..]))
  }

  function Last(from: nat, cuts: seq<nat>): nat {
    if cuts == [] then from else cuts[|cuts| - 1]
  }

  ghost predicate SeedInv(p: Pipe) {
    && Closed(p.seed)
    && forall n: nat :: Op(p.sub.peer, n) in p.seed <==> n < p.born
  }

  /** An update sent down: nothing the mirror made, nothing sent before, and
      nothing it declares goes beyond what was. */
  ghost predicate GivenOk(c: Codec, p: Pipe, k: nat)
    requires k < |p.given|
  {
    && (forall o :: o in p.given[k] ==> o.peer != p.sub.peer)
    && p.given[k] !! p.seed + Union(p.given[..k])
    && c.bound(p.given[k]) <= p.seed + Union(p.given[..k]) + p.given[k]
  }

  ghost predicate HostInv(host: set<Op>, p: Pipe) {
    && Closed(host) && p.born <= p.imported
    && p.sub.lastSent == p.seed + Union(p.given) + Run(p.sub.peer, p.born, p.imported)
    && p.sub.lastSent <= host
    && forall n: nat :: Op(p.sub.peer, n) in host ==> n < p.imported
  }

  ghost predicate BridgeInv(p: Pipe) {
    && Climbs(p.imported, p.cuts) && Last(p.imported, p.cuts) <= p.next
    && match p.bridge
       case Opening(pending) =>
         p.given == pending + p.down && p.applied == [] && p.up == [] && p.cuts == [] && p.imported == p.next == p.born
       case Open(e) =>
         && p.given == p.applied + p.down
         && p.up + e.outbox == Chunks(p.sub.peer, p.imported, p.cuts)
         && e.ops == p.seed + Union(p.applied) + Run(p.sub.peer, p.born, p.next)
         && e.lastSent == p.seed + Union(p.applied) + Run(p.sub.peer, p.born, Last(p.imported, p.cuts))
  }

  ghost predicate PipeInv(c: Codec, host: set<Op>, p: Pipe) {
    && c.Valid() && SeedInv(p) && HostInv(host, p) && BridgeInv(p)
    && forall k :: 0 <= k < |p.given| ==> GivenOk(c, p, k)
  }

  ghost predicate WorldInv(w: World) {
    && w.codec.Valid() && Closed(w.host)
    && (forall id :: id in w.pipes ==> PipeInv(w.codec, w.host, w.pipes[id]))
    && forall i, j :: i in w.pipes && j in w.pipes && i != j ==> w.pipes[i].sub.peer != w.pipes[j].sub.peer
  }

  // ---- each step keeps it ----

  lemma HostGrows(c: Codec, host: set<Op>, ops: set<Op>, p: Pipe)
    requires PipeInv(c, host, p) && Closed(host + ops)
    requires forall o :: o in ops ==> o.peer != p.sub.peer
    ensures PipeInv(c, host + ops, p)
  {}

  lemma BegunInv(c: Codec, doc: nat, host: set<Op>, peer: Peer, born: nat)
    requires c.Valid() && Closed(host) && forall n: nat :: Op(peer, n) in host <==> n < born
    ensures PipeInv(c, host, Begun(doc, host, peer, born))
  {}

  lemma GivenStays(c: Codec, p: Pipe, r: Pipe, u: Update)
    requires forall k :: 0 <= k < |p.given| ==> GivenOk(c, p, k)
    requires r.given == p.given + [u] && r.seed == p.seed && r.sub.peer == p.sub.peer
    requires forall o :: o in u ==> o.peer != p.sub.peer
    requires u !! p.seed + Union(p.given) && c.bound(u) <= p.seed + Union(p.given) + u
    ensures forall k :: 0 <= k < |r.given| ==> GivenOk(c, r, k)
  {
    forall k | 0 <= k < |r.given| ensures GivenOk(c, r, k) {
      if k < |p.given| {
        assert GivenOk(c, p, k);
        assert r.given[..k] == p.given[..k];
      } else {
        assert r.given[..k] == p.given;
      }
    }
  }

  /** What a pass sends is what the doc has past the mirror. */
  lemma OwedIsNew(c: Codec, host: set<Op>, p: Pipe)
    requires PipeInv(c, host, p)
    ensures var u := host - p.sub.lastSent;
            && (forall o :: o in u ==> o.peer != p.sub.peer)
            && u !! p.seed + Union(p.given) && c.bound(u) <= p.seed + Union(p.given) + u
  {
    var u := host - p.sub.lastSent;
    forall o | o in host && o.peer == p.sub.peer ensures o in p.sub.lastSent {
      assert o == Op(p.sub.peer, o.counter);
      if o.counter < p.born { assert o in p.seed; } else { assert o in Run(p.sub.peer, p.born, p.imported); }
    }
    BoundLeast(c, u, host);
    OtherPeers(c, u, p.sub.peer);
  }

  /** A blob declares nothing of a peer it has nothing of. */
  lemma OtherPeers(c: Codec, u: Update, peer: Peer)
    requires c.Valid() && forall o :: o in u ==> o.peer != peer
    ensures forall o :: o in c.bound(u) ==> o.peer != peer
  {
    var keep := set o | o in c.bound(u) && o.peer != peer;
    assert c.Bounded(u);
    assert Closed(keep) && u <= keep;
  }

  lemma FannedHost(c: Codec, host: set<Op>, p: Pipe)
    requires PipeInv(c, host, p) && !(host <= p.sub.lastSent)
    ensures HostInv(host, Fanned(host, p))
  {
    var u := host - p.sub.lastSent;
    var r := Fanned(host, p);
    UnionMore(p.given, u);
    assert host == p.sub.lastSent + u;
    assert Union(r.given) == Union(p.given) + u;
    assert r.seed + Union(r.given) + Run(r.sub.peer, r.born, r.imported) == p.sub.lastSent + u;
  }

  lemma FannedBridge(host: set<Op>, p: Pipe)
    requires BridgeInv(p) && !(host <= p.sub.lastSent)
    ensures BridgeInv(Fanned(host, p))
  {
    var u := host - p.sub.lastSent;
    if p.bridge.Opening? {
      assert p.bridge.pending + p.down + [u] == p.bridge.pending + (p.down + [u]);
    } else {
      assert p.applied + p.down + [u] == p.applied + (p.down + [u]);
    }
  }

  lemma FannedGiven(c: Codec, host: set<Op>, p: Pipe)
    requires PipeInv(c, host, p) && !(host <= p.sub.lastSent)
    ensures var r := Fanned(host, p); forall k :: 0 <= k < |r.given| ==> GivenOk(c, r, k)
  {
    OwedIsNew(c, host, p);
    GivenStays(c, p, Fanned(host, p), host - p.sub.lastSent);
  }

  lemma FannedInv(c: Codec, host: set<Op>, p: Pipe)
    requires PipeInv(c, host, p)
    ensures PipeInv(c, host, Fanned(host, p)) && Fanned(host, p).sub.lastSent == host
  {
    if host <= p.sub.lastSent {
      NothingOwed(host, p);
    } else {
      FannedHost(c, host, p);
      FannedBridge(host, p);
      FannedGiven(c, host, p);
    }
  }

  lemma NothingOwed(host: set<Op>, p: Pipe)
    requires host <= p.sub.lastSent
    ensures Fanned(host, p) == p
  {
    assert p.down + [] == p.down && p.given + [] == p.given;
  }

  lemma {:induction false} AppliedAllIs(c: Codec, p: Pipe, us: seq<Update>)
    requires c.Valid() && |us| <= |p.given| && us == p.given[..|us|]
    requires forall k :: 0 <= k < |p.given| ==> GivenOk(c, p, k)
    ensures AppliedAll(c, Seeded(p.seed), us) == MirrorEngine(p.seed + Union(us), p.seed + Union(us), [])
  {
    if us != [] {
      var before := us[..|us| - 1];
      assert before == p.given[..|before|];
      AppliedAllIs(c, p, before);
      assert GivenOk(c, p, |us| - 1);
      assert c.Bounded(us[|us| - 1]);
      assert p.given[..|us| - 1] == before;
    }
  }

  lemma ArrivedInv(c: Codec, host: set<Op>, p: Pipe)
    requires PipeInv(c, host, p) && p.bridge.Opening?
    ensures PipeInv(c, host, Arrived(c, p))
  {
    AppliedAllIs(c, p, p.bridge.pending);
    var r := Arrived(c, p);
    forall k | 0 <= k < |r.given| ensures GivenOk(c, r, k) {
      assert GivenOk(c, p, k);
    }
  }

  lemma WaitedInv(c: Codec, host: set<Op>, p: Pipe)
    requires PipeInv(c, host, p) && p.down != [] && p.bridge.Opening?
    ensures PipeInv(c, host, Delivered(c, p))
  {
    var r := Delivered(c, p);
    assert p.bridge.pending + p.down == (p.bridge.pending + [p.down[0]]) + p.down[1..];
    GivenSame(c, p, r);
  }

  lemma AppliedBridge(c: Codec, p: Pipe)
    requires c.Valid() && BridgeInv(p) && p.down != [] && p.bridge.Open?
    requires forall k :: 0 <= k < |p.given| ==> GivenOk(c, p, k)
    ensures BridgeInv(Delivered(c, p))
  {
    var u := p.down[0];
    var k := |p.applied|;
    assert p.given[k] == u && p.given[..k] == p.applied;
    assert GivenOk(c, p, k);
    assert c.Bounded(u);
    UnionMore(p.applied, u);
    assert p.applied + p.down == (p.applied + [u]) + p.down[1..];
  }

  lemma DeliveredInv(c: Codec, host: set<Op>, p: Pipe)
    requires PipeInv(c, host, p) && p.down != []
    ensures PipeInv(c, host, Delivered(c, p))
  {
    if p.bridge.Opening? {
      WaitedInv(c, host, p);
    } else {
      AppliedBridge(c, p);
      GivenSame(c, p, Delivered(c, p));
    }
  }

  lemma GivenSame(c: Codec, p: Pipe, r: Pipe)
    requires forall k :: 0 <= k < |p.given| ==> GivenOk(c, p, k)
    requires r.given == p.given && r.seed == p.seed && r.sub.peer == p.sub.peer
    ensures forall k :: 0 <= k < |r.given| ==> GivenOk(c, r, k)
  {
    forall k | 0 <= k < |r.given| ensures GivenOk(c, r, k) {
      assert GivenOk(c, p, k);
    }
  }

  lemma RunSplit(peer: Peer, a: nat, b: nat, c: nat)
    requires a <= b <= c
    ensures Run(peer, a, c) == Run(peer, a, b) + Run(peer, b, c)
    ensures Run(peer, a, b) !! Run(peer, b, c)
  {}

  lemma CommittedInv(c: Codec, host: set<Op>, p: Pipe, n: nat)
    requires PipeInv(c, host, p) && p.bridge.Open?
    ensures PipeInv(c, host, Committed(p, n))
  {
    LastClimbs(p.imported, p.cuts);
    RunSplit(p.sub.peer, p.born, p.next, p.next + n);
    GivenSame(c, p, Committed(p, n));
  }

  lemma {:induction false} LastClimbs(from: nat, cuts: seq<nat>)
    requires Climbs(from, cuts)
    ensures from <= Last(from, cuts)
    decreases |cuts|
  {
    if cuts != [] {
      LastClimbs(cuts[0], cuts[1..]);
    }
  }

  lemma {:induction false} ChunksMore(peer: Peer, from: nat, cuts: seq<nat>, n: nat)
    requires Climbs(from, cuts) && Last(from, cuts) < n
    ensures Climbs(from, cuts + [n])
    ensures Chunks(peer, from, cuts + [n]) == Chunks(peer, from, cuts) + [Run(peer, Last(from, cuts), n)]
    decreases |cuts|
  {
    if cuts != [] {
      assert (cuts + [n])[1..] == cuts[1..] + [n];
      ChunksMore(peer, cuts[0], cuts[1..], n);
    } else {
      assert Chunks(peer, n, []) == [];
    }
  }

  /** Nothing but its own unflushed commits is past what a mirror has sent. */
  lemma UnsentIsOwn(c: Codec, host: set<Op>, p: Pipe)
    requires PipeInv(c, host, p) && p.bridge.Open?
    ensures var e := p.bridge.engine;
            var last := Last(p.imported, p.cuts);
            && e.ops - e.lastSent == Run(p.sub.peer, last, p.next)
            && (e.ops <= e.lastSent <==> last == p.next)
  {
    var last := Last(p.imported, p.cuts);
    LastClimbs(p.imported, p.cuts);
    RunSplit(p.sub.peer, p.born, last, p.next);
    OwnNotGiven(c, p, p.applied);
    forall o | o in Run(p.sub.peer, last, p.next) ensures o !in p.seed {
      assert o == Op(p.sub.peer, o.counter);
    }
    if last < p.next {
      assert Op(p.sub.peer, last) in Run(p.sub.peer, last, p.next);
    }
  }

  lemma {:induction false} OwnNotGiven(c: Codec, p: Pipe, us: seq<Update>)
    requires |us| <= |p.given| && us == p.given[..|us|]
    requires forall k :: 0 <= k < |p.given| ==> GivenOk(c, p, k)
    ensures forall o :: o in Union(us) ==> o.peer != p.sub.peer
  {
    if us != [] {
      OwnNotGiven(c, p, us[..|us| - 1]);
      assert GivenOk(c, p, |us| - 1);
    }
  }

  lemma FlushedInv(c: Codec, host: set<Op>, p: Pipe)
    requires PipeInv(c, host, p) && p.bridge.Open?
    ensures PipeInv(c, host, FlushedPipe(p))
  {
    UnsentIsOwn(c, host, p);
    GivenSame(c, p, FlushedPipe(p));
    var e := p.bridge.engine;
    if !(e.ops <= e.lastSent) {
      var last := Last(p.imported, p.cuts);
      assert last < p.next;
      ChunksMore(p.sub.peer, p.imported, p.cuts, p.next);
      assert p.up + (e.outbox + [e.ops - e.lastSent]) == (p.up + e.outbox) + [e.ops - e.lastSent];
    }
  }

  lemma PumpedInv(c: Codec, host: set<Op>, p: Pipe)
    requires PipeInv(c, host, p) && p.bridge.Open?
    ensures PipeInv(c, host, Pumped(p))
  {
    assert p.up + p.bridge.engine.outbox + [] == p.up + p.bridge.engine.outbox;
    GivenSame(c, p, Pumped(p));
  }

  /** An import adds the next run of the mirror's peer, new to the doc, and
      declares no more than the mirror was known to hold. */
  lemma ImportIsNext(c: Codec, host: set<Op>, p: Pipe)
    requires PipeInv(c, host, p) && p.up != [] && p.cuts != []
    ensures p.bridge.Open? && p.imported < p.cuts[0]
    ensures p.up[0] == Run(p.sub.peer, p.imported, p.cuts[0])
    ensures p.up[0] !! host && Closed(host + p.up[0])
    ensures p.sub.lastSent + c.bound(p.up[0]) == p.sub.lastSent + p.up[0]
  {
    var peer, u := p.sub.peer, p.up[0];
    assert u == (p.up + p.bridge.engine.outbox)[0] == Chunks(peer, p.imported, p.cuts)[0];
    forall n: nat | n < p.imported ensures Op(peer, n) in p.sub.lastSent {
      if n < p.born { assert Op(peer, n) in p.seed; } else { assert Op(peer, n) in Run(peer, p.born, p.imported); }
    }
    var s := host + u;
    forall a, b | b in s && UpTo(a, b) ensures a in s {
      if b !in host { assert a == Op(peer, a.counter); }
    }
    var whole := Run(peer, 0, p.cuts[0]);
    forall a, b | b in whole && UpTo(a, b) ensures a in whole {
      assert a == Op(peer, a.counter);
    }
    BoundLeast(c, u, whole);
    forall o | o in whole ensures o in p.sub.lastSent + u {
      assert o == Op(peer, o.counter);
    }
    forall o | o in u ensures o !in host {
      assert o == Op(peer, o.counter);
    }
  }

  lemma ImportedInv(c: Codec, host: set<Op>, p: Pipe)
    requires PipeInv(c, host, p) && p.up != [] && p.cuts != []
    ensures PipeInv(c, host + p.up[0], ImportedPipe(c, p))
  {
    var r := ImportedPipe(c, p);
    ImportIsNext(c, host, p);
    RunSplit(p.sub.peer, p.born, p.imported, p.cuts[0]);
    GivenSame(c, p, r);
    assert p.up + p.bridge.engine.outbox == [p.up[0]] + (p.up[1..] + p.bridge.engine.outbox);
    assert p.up[1..] + p.bridge.engine.outbox == Chunks(p.sub.peer, p.imported, p.cuts)[1..];
    assert Last(p.cuts[0], p.cuts[1..]) == Last(p.imported, p.cuts);
    forall n: nat | Op(p.sub.peer, n) in host + p.up[0] ensures n < p.cuts[0] {}
  }

  lemma PutPipe(w: World, id: nat, p: Pipe)
    requires WorldInv(w) && id in w.pipes && PipeInv(w.codec, w.host, p) && p.sub.peer == w.pipes[id].sub.peer
    ensures WorldInv(w.(pipes := w.pipes[id := p]))
  {}

  lemma StepKeeps(w: World, l: Label)
    requires WorldInv(w) && Enabled(w, l)
    ensures WorldInv(Next(w, l))
  {
    match l {
      case Change(ops) =>
        forall id | id in w.pipes ensures PipeInv(w.codec, w.host + ops, w.pipes[id]) {
          HostGrows(w.codec, w.host, ops, w.pipes[id]);
        }
      case Subscribe(id, peer, born) => BegunInv(w.codec, w.doc, w.host, peer, born);
      case FanOut =>
        forall id | id in w.pipes ensures PipeInv(w.codec, w.host, Fanned(w.host, w.pipes[id])) {
          FannedInv(w.codec, w.host, w.pipes[id]);
        }
      case SeedArrives(id) =>
        ArrivedInv(w.codec, w.host, w.pipes[id]);
        PutPipe(w, id, Arrived(w.codec, w.pipes[id]));
      case Deliver(id) =>
        DeliveredInv(w.codec, w.host, w.pipes[id]);
        PutPipe(w, id, Delivered(w.codec, w.pipes[id]));
      case Commit(id, n) =>
        CommittedInv(w.codec, w.host, w.pipes[id], n);
        PutPipe(w, id, Committed(w.pipes[id], n));
      case Flush(id) =>
        FlushedInv(w.codec, w.host, w.pipes[id]);
        PutPipe(w, id, FlushedPipe(w.pipes[id]));
      case Pump(id) =>
        PumpedInv(w.codec, w.host, w.pipes[id]);
        PutPipe(w, id, Pumped(w.pipes[id]));
      case Import(id) => ImportKeeps(w, id);
    }
  }

  lemma ImportKeeps(w: World, id: nat)
    requires WorldInv(w) && Enabled(w, Import(id))
    ensures WorldInv(Next(w, Import(id)))
  {
    var p := w.pipes[id];
    ImportIsNext(w.codec, w.host, p);
    ImportedInv(w.codec, w.host, p);
    OthersGrow(w, id, p.up[0]);
  }

  lemma OthersGrow(w: World, id: nat, u: Update)
    requires WorldInv(w) && id in w.pipes && Closed(w.host + u)
    requires forall o :: o in u ==> o.peer == w.pipes[id].sub.peer
    ensures forall i :: i in w.pipes && i != id ==> PipeInv(w.codec, w.host + u, w.pipes[i])
  {
    forall i | i in w.pipes && i != id ensures PipeInv(w.codec, w.host + u, w.pipes[i]) {
      HostGrows(w.codec, w.host, u, w.pipes[i]);
    }
  }

  lemma {:induction false} Reachable(w: World, steps: seq<Label>)
    requires Init(w) && Runs(w, steps)
    ensures WorldInv(Reach(w, steps))
  {
    if steps != [] {
      Reachable(w, steps[..|steps| - 1]);
      StepKeeps(Reach(w, steps[..|steps| - 1]), steps[|steps| - 1]);
    }
  }

  // ---- what it is for ----

  ghost predicate Reached(w: World) {
    exists w0, steps :: Init(w0) && Runs(w0, steps) && Reach(w0, steps) == w
  }

  lemma ReachedInv(w: World)
    requires Reached(w)
    ensures WorldInv(w)
  {
    var w0, steps :| Init(w0) && Runs(w0, steps) && Reach(w0, steps) == w;
    Reachable(w0, steps);
  }

  function Waiting(p: Pipe): seq<Update> { if p.bridge.Opening? then p.bridge.pending else [] }

  /** What a mirror holds, or will once its seed is in. */
  function Holds(p: Pipe): set<Op> { if p.bridge.Opening? then p.seed else p.bridge.engine.ops }

  /** What the host takes a mirror to have, it has or is being sent; and after
      a pass that is the whole doc. */
  lemma LastSentIsHeld(w: World, id: nat)
    requires Reached(w) && id in w.pipes
    ensures var p := w.pipes[id];
            && p.sub.lastSent <= Holds(p) + Union(Waiting(p)) + Union(p.down)
            && p.sub.lastSent <= w.host
            && Next(w, FanOut).pipes[id].sub.lastSent == w.host
  {
    ReachedInv(w);
    var p := w.pipes[id];
    FannedInv(w.codec, w.host, p);
    if p.bridge.Opening? {
      UnionConcat(p.bridge.pending, p.down);
    } else {
      UnionConcat(p.applied, p.down);
      LastClimbs(p.imported, p.cuts);
    }
  }

  /** Nothing is sent to a mirror twice, nothing it was seeded with, and
      nothing it wrote; and what was sent is applied in order, once. */
  lemma DeliveredOnce(w: World, id: nat, i: nat, j: nat)
    requires Reached(w) && id in w.pipes && i < j < |w.pipes[id].given|
    ensures var p := w.pipes[id];
            && p.given[i] !! p.given[j] && p.given[j] !! p.seed
            && (forall o :: o in p.given[j] ==> o.peer != p.sub.peer)
            && p.given == p.applied + Waiting(p) + p.down
  {
    ReachedInv(w);
    var p := w.pipes[id];
    assert GivenOk(w.codec, p, j);
    InUnion(p.given[..j], i);
    assert p.given[..j][i] == p.given[i];
    assert p.applied + [] == p.applied && [] + Waiting(p) == Waiting(p);
  }

  lemma {:induction false} InUnion(us: seq<Update>, i: nat)
    requires i < |us|
    ensures us[i] <= Union(us)
  {
    if i < |us| - 1 {
      InUnion(us[..|us| - 1], i);
    }
  }

  /** Everything on its way has arrived, the mirror has flushed, and a pass has
      run since the doc last changed. */
  ghost predicate Drained(w: World, id: nat)
    requires id in w.pipes
  {
    var p := w.pipes[id];
    && p.down == [] && p.up == [] && w.host <= p.sub.lastSent
    && p.bridge.Open? && p.bridge.engine.outbox == [] && p.bridge.engine.ops <= p.bridge.engine.lastSent
  }

  /** A drained mirror is the host's doc. */
  lemma DrainedEqualsHost(w: World, id: nat)
    requires Reached(w) && id in w.pipes && Drained(w, id)
    ensures w.pipes[id].bridge.engine.ops == w.host
  {
    ReachedInv(w);
    var p := w.pipes[id];
    UnsentIsOwn(w.codec, w.host, p);
    assert p.up + p.bridge.engine.outbox == [];
    assert p.cuts == [];
    assert p.applied + p.down == p.applied;
  }

  /** A mirror's commits reach the doc once: each import is new to it. */
  lemma ImportedOnce(w: World, id: nat)
    requires Reached(w) && Enabled(w, Import(id))
    ensures w.pipes[id].up[0] !! w.host
    ensures var p := w.pipes[id]; Next(w, Import(id)).pipes[id].sub.lastSent == p.sub.lastSent + p.up[0]
  {
    ReachedInv(w);
    ImportIsNext(w.codec, w.host, w.pipes[id]);
  }

  /** A mirror's updates can always be imported, so a drained one is always
      within reach. */
  lemma UpdatesImport(w: World, id: nat)
    requires Reached(w) && id in w.pipes && w.pipes[id].up != []
    ensures Enabled(w, Import(id))
  {
    ReachedInv(w);
    var p := w.pipes[id];
    assert |p.up + p.bridge.engine.outbox| > 0;
  }
}

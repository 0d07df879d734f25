/** What the turns of a host keep, and what they send: no engine loses an
    operation, what was received or committed is durable, and the wire carries
    what each engine queued. */
module HostKeeping {
  import opened Wrappers
  import opened Operations
  import opened Protocol
  import opened LocalStore
  import opened Documents
  import opened EngineSpec
  import opened EngineCoherence
  import opened CallInvariant
  import opened StepInvariant
  import opened EngineCalm
  import opened EngineDisk
  import EngineLaws
  import opened HostSession

  // ---- nothing is lost ----

  lemma PersistedKeeps(s: Sys)
    ensures Keeps(s, Persisted(s)) && Secured(s, Persisted(s))
  {
    var c := Capture(s);
    CallKeeps(s, CaptureOps);
    CaptureSaves(s);
    if Coherent(s) { PersistBoundsReplay(s, []); }
    FoldedKeeps(c);
    KeepsOn(s, c, Folded(c));
    NotedKeeps(Folded(c));
    KeepsOn(c, Folded(c), Persisted(s));
    KeepsOn(s, c, Persisted(s));
    if s.e.codec.Valid() { StaysDurable(s, c, Persisted(s)); }
  }

  lemma FoldedKeeps(s: Sys)
    ensures Keeps(s, Folded(s))
  {
    CallKeeps(s, FoldPast(SNAPSHOT_MAX_WAL_ROWS, SNAPSHOT_MAX_WAL_BYTES));
  }

  lemma NotedKeeps(s: Sys)
    ensures Keeps(s, NotifyDurable(s, s.e.contig))
  {
    CallKeeps(s, OnDisk(s.e.contig));
  }

  lemma StaysDurable(a: Sys, b: Sys, c: Sys)
    requires b.e.doc.ops == a.e.doc.ops && Keeps(b, c) && Uncaptured(a) <= Durable(b.st)
    ensures Uncaptured(a) <= Durable(c.st)
  {
    assert Uncaptured(a) <= Saved(b) <= Saved(c);
  }

  /** It acks the frontier if that is news. */
  lemma PersistedSpeaks(s: Sys)
    requires s.e.sentAck == s.e.durable <= s.e.contig
    ensures Persisted(s).e.outbox == s.e.outbox + (if s.e.durable < s.e.contig then [Ack(s.e.contig)] else [])
  {
    EngineLaws.NoticeAcks(Folded(Capture(s)), s.e.contig);
  }

  /** Every engine still here holds what it did, on disk what it had there. */
  ghost predicate AllKept(docs: Session, r: Session) {
    r.Keys <= docs.Keys && forall id {:trigger Keeps(docs[id], r[id])} :: id in r ==> Keeps(docs[id], r[id])
  }

  /** And what was uncaptured or not yet durable is durable. */
  ghost predicate AllDurable(docs: Session, r: Session) {
    AllKept(docs, r) && forall id {:trigger Secured(docs[id], r[id])} :: id in r ==> Secured(docs[id], r[id])
  }

  ghost predicate Secured(a: Sys, b: Sys) {
    (Coherent(a) ==> AtFrontier(b)) && (a.e.codec.Valid() ==> Uncaptured(a) <= Durable(b.st))
  }

  lemma AllPersistedKept(docs: Session)
    ensures AllDurable(docs, AllPersisted(docs))
  {
    forall id | id in docs ensures Keeps(docs[id], Persisted(docs[id])) && Secured(docs[id], Persisted(docs[id])) {
      PersistedKeeps(docs[id]);
    }
  }

  lemma AllCalledKept(docs: Session, call: Call)
    requires !call.Bytes? && !call.Commit?
    ensures AllKept(docs, ForAll(docs, call))
  {
    forall id | id in docs ensures Keeps(docs[id], Apply(docs[id], call)) {
      CallKeeps(docs[id], call);
    }
  }

  lemma AllFoldedKept(docs: Session)
    ensures AllKept(docs, Each(docs, Folded))
  {
    forall id | id in docs ensures Keeps(docs[id], Folded(docs[id])) {
      FoldedKeeps(docs[id]);
    }
  }

  lemma EmptiedKept(docs: Session)
    ensures AllKept(docs, Each(docs, Emptied)) && AllKept(docs, Each(docs, Quieted))
  {}

  lemma AllKeptSelf(docs: Session)
    ensures AllKept(docs, docs)
  {}

  lemma KeptOn(a: Session, b: Session, c: Session)
    requires AllKept(a, b) && AllKept(b, c)
    ensures AllKept(a, c)
  {
    forall id | id in c ensures Keeps(a[id], c[id]) {
      assert Keeps(b[id], c[id]) && Keeps(a[id], b[id]);
      KeepsOn(a[id], b[id], c[id]);
    }
  }

  lemma DurableOn(a: Session, b: Session, c: Session)
    requires AllDurable(a, b) && AllKept(b, c)
    ensures AllDurable(a, c)
  {
    KeptOn(a, b, c);
    forall id | id in c ensures Secured(a[id], c[id]) {
      assert Keeps(b[id], c[id]) && Keeps(a[id], b[id]) && Secured(a[id], b[id]);
      SecuredOn(a[id], b[id], c[id]);
    }
  }

  lemma FoldedDurable(a: Session, b: Session)
    requires AllDurable(a, b)
    ensures AllDurable(a, Each(b, Folded)) && Each(b, Folded).Keys == b.Keys
  {
    AllFoldedKept(b);
    DurableOn(a, b, Each(b, Folded));
  }

  lemma SecuredOn(a: Sys, b: Sys, c: Sys)
    requires Keeps(a, b) && Secured(a, b) && Keeps(b, c)
    ensures Secured(a, c)
  {
    if a.e.codec.Valid() { StaysDurable(a, b, c); }
  }

  // ---- reading what was said ----

  /** What a host is at while it reads: its engines, whether it has a socket,
      its parked syncs and their answers. */
  datatype Desk = Desk(docs: Session, socket: bool, parked: nat, answers: seq<bool>)

  /** What reading makes of it: no engine loses anything; each parked sync is
      answered when home's pull completes or the socket goes; and when the
      socket goes every engine goes down. */
  ghost predicate Reads(was: Desk, home: nat, pulled: bool, killed: bool, now: Desk) {
    && home in was.docs && now.docs.Keys == was.docs.Keys && AllKept(was.docs, now.docs)
    && (AllCalm(was.docs) ==> AllCalm(now.docs))
    && (now.socket <==> was.socket && !killed)
    && (killed ==> AllDown(now.docs))
    && (!killed ==> SameLines(was.docs, now.docs))
    && Answered(was.parked, was.answers, now.parked, now.answers, pulled, killed)
  }

  ghost predicate AllDown(docs: Session) { forall id :: id in docs ==> !Online(docs[id]) }

  ghost predicate SameLines(docs: Session, r: Session)
    requires r.Keys == docs.Keys
  {
    forall id :: id in r ==> (Online(r[id]) <==> Online(docs[id]))
  }

  lemma ReadsNone(was: Desk, home: nat)
    requires home in was.docs
    ensures Reads(was, home, false, false, was)
  {
    AllKeptSelf(was.docs);
  }

  lemma ReadsOn(a: Desk, b: Desk, c: Desk, home: nat, drained: seq<(nat, Event)>, i: nat)
    requires i < |drained|
    requires Reads(a, home, Pulls(drained[..i], home), !NoneKills(drained[..i], home), b)
    requires var id, ev := drained[i].0, drained[i].1;
             Reads(b, home, id == home && ev.PulledInitial?, Kills(id, ev, home), c)
    ensures Reads(a, home, Pulls(drained[..i + 1], home), !NoneKills(drained[..i + 1], home), c)
  {
    var id, ev := drained[i].0, drained[i].1;
    assert drained[..i + 1][..i] == drained[..i];
    PullsNext(drained, home, i);
    KeptOn(a.docs, b.docs, c.docs);
    AnsweredOn(a.parked, a.answers, b.parked, b.answers, c.parked, c.answers, Pulls(drained[..i], home),
               !NoneKills(drained[..i], home), id == home && ev.PulledInitial?, Kills(id, ev, home));
  }

  // ---- what reaches the wire ----

  /** What was sent for one doc, in order. */
  function OnWire(wire: seq<(nat, ClientFrame)>, id: nat): seq<ClientFrame> {
    if wire == [] then []
    else
      var front := OnWire(wire[..|wire| - 1], id);
      if wire[|wire| - 1].0 == id then front + [wire[|wire| - 1].1] else front
  }

  lemma OnWireMore(wire: seq<(nat, ClientFrame)>, id: nat, frame: ClientFrame, other: nat)
    ensures OnWire(wire + [(id, frame)], other) == OnWire(wire, other) + (if other == id then [frame] else [])
  {
    assert (wire + [(id, frame)])[..|wire|] == wire;
  }

  function OutboxOf(docs: Session, id: nat): seq<ClientFrame> { if id in docs then docs[id].e.outbox else [] }

  /** All the engines in `ids` had queued has left, in order. */
  ghost predicate Wired(was: seq<(nat, ClientFrame)>, wire: seq<(nat, ClientFrame)>, docs: Session, ids: set<nat>) {
    forall id :: OnWire(wire, id) == OnWire(was, id) + (if id in ids then OutboxOf(docs, id) else [])
  }

  /** What a pump leaves of `docs`, and what it sends. */
  ghost predicate Pumped(docs: Session, home: nat, socket: bool, sendOk: bool, keys: set<nat>,
                         was: seq<(nat, ClientFrame)>, wire: seq<(nat, ClientFrame)>) {
    if SendFails(socket, sendOk, docs) then keys == docs.Keys && wire == was
    else keys == Remaining(docs, home) && if socket then Wired(was, wire, docs, docs.Keys) else wire == was
  }

  lemma EmptiedSame(docs: Session, home: nat)
    ensures Remaining(Each(docs, Emptied), home) == Remaining(docs, home)
    ensures Survives(Each(docs, Emptied), home) <==> Survives(docs, home)
  {
    var r := Each(docs, Emptied);
    if !Survives(docs, home) {
      var id, ev :| id in docs && ev in docs[id].e.events && Kills(id, ev, home);
      assert ev in r[id].e.events;
    }
    if !Survives(r, home) {
      var id, ev :| id in r && ev in r[id].e.events && Kills(id, ev, home);
      assert ev in docs[id].e.events;
    }
  }

  lemma KeptLess(a: Session, b: Session, gone: set<nat>)
    requires AllKept(a, b)
    ensures AllKept(a, b - gone)
  {}

  /** Calm engines that are down say one thing when a socket comes up. */
  lemma OpensAll(was: seq<(nat, ClientFrame)>, wire: seq<(nat, ClientFrame)>, docs: Session)
    requires AllCalm(docs) && forall id :: id in docs ==> !Online(docs[id])
    requires Wired(was, wire, ForAll(docs, Connected), docs.Keys)
    ensures forall id :: OnWire(wire, id) == OnWire(was, id) + (if id in docs then [OpenDoc] else [])
  {
    forall id | id in docs ensures OutboxOf(ForAll(docs, Connected), id) == [OpenDoc] {
      assert Calm(docs[id].e);
    }
  }

  lemma ConnectedRemain(docs: Session, home: nat)
    requires AllCalm(docs) && forall id :: id in docs ==> !Online(docs[id])
    ensures Remaining(ForAll(docs, Connected), home) == docs.Keys
  {
    forall id | id in docs ensures !SaidClosed(Apply(docs[id], Connected).e.events) {
      assert !Speaks(docs[id].e.events);
    }
  }

  // ---- what a turn makes of the engines ----

  /** What bytes make of the engine they are for, once all is durable: it holds
      what they brought and no more, knows what they taught, has the rows on
      disk, and its stored cursor is its frontier. */
  ghost predicate Took(a: Sys, call: Call, b: Sys) {
    && b.e.docId == a.e.docId
    && b.e.doc.ops == a.e.doc.ops + EngineLaws.Brought(a.e, call)
    && b.e.known == a.e.known + EngineLaws.Taught(a.e, call)
    && a.e.contig <= b.e.contig
    && Saved(a) <= Saved(b) && Lands(a, call, b)
    && (Coherent(a) ==> Coherent(b) && AtFrontier(b))
  }

  lemma TookOn(a: Sys, call: Call, b: Sys)
    requires Keeps(Apply(a, call), b) && Secured(Apply(a, call), b)
    ensures Took(a, call, b)
  {
    var r := Apply(a, call);
    EngineLaws.EveryCallLawful(a, call);
    CallLands(a, call);
    if Coherent(a) { CallCoherent(a, call); }
    LandsOn(a, call, r, b);
  }

  /** The engine the bytes are for took them in, and every other is as it was. */
  ghost predicate TookAlone(docs: Session, t: nat, call: Call, r: Session) {
    && r.Keys <= docs.Keys
    && (t in r ==> Took(docs[t], call, r[t]))
    && forall id {:trigger Keeps(docs[id], r[id])} :: id in r && id != t ==>
         Keeps(docs[id], r[id]) && Secured(docs[id], r[id])
  }

  lemma RoutedTook(docs: Session, home: nat, input: Inbound, freshId: nat, r: Session)
    requires AllDurable(Routed(docs, home, input, freshId), r)
    ensures TookAlone(docs, Target(input, home), Bytes(input, freshId), r)
  {
    var t, m := Target(input, home), Routed(docs, home, input, freshId);
    forall id | id in r ensures Keeps(m[id], r[id]) && Secured(m[id], r[id]) {}
    if t in r { TookOn(docs[t], Bytes(input, freshId), r[t]); }
  }

  lemma SaidOne(events: seq<Event>, more: seq<Event>)
    requires !Speaks(events)
    ensures SaidClosed(events + more) <==> SaidClosed(more)
  {
    if SaidClosed(more) {
      var ev :| ev in more && ev.ClosedByServer?;
      assert ev in events + more;
    }
  }

  lemma SaysClosed(s: Sys, call: Call)
    requires call.Bytes? && !Speaks(s.e.events)
    ensures SaidClosed(Apply(s, call).e.events) <==> EngineLaws.Closes(s.e, call)
  {
    EngineLaws.EveryCallLawful(s, call);
    LawfulSaysClosed(s, call, Apply(s, call));
  }

  lemma LawfulSaysClosed(s: Sys, call: Call, r: Sys)
    requires call.Bytes? && !Speaks(s.e.events) && EngineLaws.Talked(s, call, r)
    ensures SaidClosed(r.e.events) <==> EngineLaws.Closes(s.e, call)
  {
    if EngineLaws.Amiss(s.e, call) {
      SaidOne(s.e.events, [r.e.events[|s.e.events|]]);
      assert r.e.events == s.e.events + [r.e.events[|s.e.events|]];
    } else {
      var said := EngineLaws.Reported(s.e, r.e, call);
      SaidOne(s.e.events, said);
      if EngineLaws.Closes(s.e, call) { assert said[0] in said; }
    }
  }

  /** The one doc bytes can take from the host. */
  function Taken(docs: Session, home: nat, t: nat, call: Call): set<nat> {
    if t in docs && t != home && EngineLaws.Closes(docs[t].e, call) then {t} else {}
  }

  lemma RoutedSays(docs: Session, home: nat, input: Inbound, freshId: nat, id: nat)
    requires AllCalm(docs) && id in docs
    ensures var t, call := Target(input, home), Bytes(input, freshId);
            SaidClosed(AllPersisted(Routed(docs, home, input, freshId))[id].e.events) <==>
            id == t && EngineLaws.Closes(docs[t].e, call)
  {
    var r := Routed(docs, home, input, freshId)[id];
    if id == Target(input, home) {
      BytesCalm(docs[id], input, freshId);
      SaysClosed(docs[id], Bytes(input, freshId));
    }
    assert Steady(r.e, {});
    PersistedSteady(r, {});
  }

  lemma RoutedRemain(docs: Session, home: nat, input: Inbound, freshId: nat)
    requires AllCalm(docs)
    ensures Remaining(AllPersisted(Routed(docs, home, input, freshId)), home) ==
            docs.Keys - Taken(docs, home, Target(input, home), Bytes(input, freshId))
  {
    forall id | id in docs
      ensures SaidClosed(AllPersisted(Routed(docs, home, input, freshId))[id].e.events) <==>
              id == Target(input, home) && EngineLaws.Closes(docs[Target(input, home)].e, Bytes(input, freshId))
    {
      RoutedSays(docs, home, input, freshId, id);
    }
  }

  lemma SilentRemain(docs: Session, home: nat)
    requires Silent(docs)
    ensures Remaining(docs, home) == docs.Keys
  {
    forall id | id in docs ensures !SaidClosed(docs[id].e.events) {
      assert !Speaks(docs[id].e.events);
    }
  }

  /** The end of home's pull is there to be read. */
  lemma RoutedPulls(docs: Session, home: nat, input: Inbound, freshId: nat)
    requires AllCalm(docs) && home in docs && Target(input, home) == home
    requires EngineLaws.EndsPull(docs[home].e, Bytes(input, freshId))
    ensures PulledInitial in AllPersisted(Routed(docs, home, input, freshId))[home].e.events
  {
    PulledStays(docs[home], input, freshId);
  }

  lemma PulledStays(s: Sys, input: Inbound, freshId: nat)
    requires Calm(s.e) && EngineLaws.EndsPull(s.e, Bytes(input, freshId))
    ensures PulledInitial in Persisted(Apply(s, Bytes(input, freshId))).e.events
  {
    var r := Apply(s, Bytes(input, freshId));
    EngineLaws.EveryCallLawful(s, Bytes(input, freshId));
    LawfulPulls(s, Bytes(input, freshId), r);
    BytesCalm(s, input, freshId);
    PersistedSteady(r, {});
  }

  lemma LawfulPulls(s: Sys, call: Call, r: Sys)
    requires EngineLaws.EndsPull(s.e, call) && EngineLaws.Talked(s, call, r)
    ensures PulledInitial in r.e.events
  {
    var said := EngineLaws.Reported(s.e, r.e, call);
    assert said[|said| - 1] == PulledInitial;
    assert r.e.events[|r.e.events| - 1] == PulledInitial;
  }

  /** The bytes end home's pull. */
  predicate EndsHomePull(docs: Session, home: nat, input: Inbound, freshId: nat) {
    home in docs && Target(input, home) == home && EngineLaws.EndsPull(docs[home].e, Bytes(input, freshId))
  }

  /** Each parked sync is answered once or still parked, with yes while the
      socket is up; none is parked once home's pull is complete. */
  ghost predicate SyncsKept(parked: nat, answers: seq<bool>, left: nat, now: seq<bool>, socket: bool, pulled: bool) {
    && answers <= now && |now| + left == |answers| + parked
    && (socket ==> forall k :: |answers| <= k < |now| ==> now[k])
    && (pulled ==> left == 0)
  }

  lemma MessageSyncs(docs: Session, home: nat, input: Inbound, freshId: nat, parked: nat, answers: seq<bool>,
                     left: nat, now: seq<bool>, socket: bool)
    requires home in docs
    requires Answered(parked, answers, left, now,
                      PulledInitial in AllPersisted(Routed(docs, home, input, freshId))[home].e.events, !socket)
    ensures SyncsKept(parked, answers, left, now, socket, AllCalm(docs) && EndsHomePull(docs, home, input, freshId))
  {
    if AllCalm(docs) && EndsHomePull(docs, home, input, freshId) { RoutedPulls(docs, home, input, freshId); }
  }

  /** What a calm engine has for the wire after bytes and a persist: what the
      bytes made it queue, and an ack of what they made durable. */
  function Replies(a: Sys, call: Call): seq<ClientFrame> {
    var r := Apply(a, call).e;
    r.outbox + if a.e.contig < r.contig then [Ack(r.contig)] else []
  }

  lemma RoutedSpeaks(docs: Session, home: nat, input: Inbound, freshId: nat, id: nat)
    requires AllCalm(docs)
    ensures OutboxOf(AllPersisted(Routed(docs, home, input, freshId)), id) ==
            if id in docs && id == Target(input, home) then Replies(docs[id], Bytes(input, freshId)) else []
  {
    var r := Routed(docs, home, input, freshId);
    if id in docs {
      if id == Target(input, home) {
        BytesCalm(docs[id], input, freshId);
        EngineLaws.EveryCallLawful(docs[id], Bytes(input, freshId));
        assert r[id].e.durable == docs[id].e.durable == docs[id].e.contig;
      }
      PersistedSpeaks(r[id]);
    }
  }

  /** All of that, of calm engines: every engine, the docs left, the wire. */
  lemma RoutedCalm(docs: Session, home: nat, input: Inbound, freshId: nat, sendOk: bool, keys: set<nat>,
                   was: seq<(nat, ClientFrame)>, wire: seq<(nat, ClientFrame)>)
    requires AllCalm(docs)
    requires var p := AllPersisted(Routed(docs, home, input, freshId));
             Pumped(p, home, true, sendOk, keys, was, wire)
    ensures Primed(AllPersisted(Routed(docs, home, input, freshId)))
    ensures var t, call := Target(input, home), Bytes(input, freshId);
            && keys == docs.Keys - Taken(docs, home, t, call)
            && (sendOk ==> SentOnly(was, wire, t, if t in docs then Replies(docs[t], call) else []))
  {
    var p := AllPersisted(Routed(docs, home, input, freshId));
    RoutedPrimed(docs, home, input, freshId);
    RoutedRemain(docs, home, input, freshId);
    if SendFails(true, sendOk, p) { SilentRemain(p, home); }
    forall id { RoutedSpeaks(docs, home, input, freshId, id); }
  }

  /** Only `id` had anything to send: `frames`. */
  ghost predicate SentOnly(was: seq<(nat, ClientFrame)>, wire: seq<(nat, ClientFrame)>, id: nat,
                           frames: seq<ClientFrame>) {
    forall other :: OnWire(wire, other) == OnWire(was, other) + (if other == id then frames else [])
  }

  // ---- what a command makes of its engine ----

  /** A commit finds the engine idle, with something for the server. */
  predicate Starts(a: Sys, ops: set<Op>) { a.e.state == Idle && !(a.e.codec.bound(a.e.doc.ops + ops) <= a.e.known) }

  /** All the server is not known to have, the new operations with it. */
  function News(a: Sys, ops: set<Op>): Blob {
    var news := a.e.doc.ops + ops - a.e.known;
    Blob(news, a.e.codec.bytes(news))
  }

  function PushFor(a: Sys, ops: set<Op>, freshId: nat): ClientFrame {
    PushUpdates([PushBlob(freshId, News(a, ops))])
  }

  /** The operations are in the doc, those never captured before are on disk,
      and from idle the push with all of them is on record. */
  ghost predicate Committed(a: Sys, ops: set<Op>, freshId: nat, b: Sys) {
    && b.e.docId == a.e.docId && b.e.doc.ops == a.e.doc.ops + ops
    && b.e.known == a.e.known && b.e.contig == a.e.contig
    && Saved(a) <= Saved(b)
    && (a.e.codec.Valid() ==> ops - a.e.doc.persisted <= Durable(b.st))
    && (Coherent(a) ==> Coherent(b) && AtFrontier(b))
    && (Starts(a, ops) && a.e.inFlight == None ==> OnRecord(b, freshId, News(a, ops)))
  }

  ghost predicate OnRecord(b: Sys, id: nat, payload: Blob) {
    && b.e.inFlight.Some? && b.e.inFlight.value.id == id && b.e.inFlight.value.payload == payload
    && b.st.inFlight.Some? && b.st.inFlight.value.id == id && b.st.inFlight.value.payload == payload
  }

  /** Persist leaves what a push is made of. */
  lemma PersistedTalk(s: Sys)
    ensures var r := Persisted(s).e;
            && r.state == s.e.state && r.inFlight == s.e.inFlight && r.known == s.e.known && r.doc.ops == s.e.doc.ops
            && r.codec == s.e.codec
  {}

  lemma FlushedStarts(s: Sys, freshId: nat)
    requires s.e.inFlight == None
    ensures var r := Apply(Persisted(s), FlushCall(freshId));
            if Starts(s, {}) then
              OnRecord(r, freshId, News(s, {})) && r.e.outbox == Persisted(s).e.outbox + [PushFor(s, {}, freshId)]
            else r.e.outbox == Persisted(s).e.outbox
  {
    var p := Persisted(s);
    PersistedTalk(s);
    EngineLaws.EveryCallLawful(p, FlushCall(freshId));
    assert s.e.doc.ops + {} == s.e.doc.ops;
  }

  /** A push on record stays on record. */
  lemma RecordedOn(a: Sys, b: Sys, id: nat, payload: Blob)
    requires OnRecord(a, id, payload) && Keeps(a, b)
    ensures OnRecord(b, id, payload)
  {}

  lemma CommitHolds(a: Sys, ops: set<Op>, b: Sys)
    requires Keeps(Apply(a, Commit(ops)), b) && Secured(Apply(a, Commit(ops)), b)
    ensures b.e.docId == a.e.docId && b.e.doc.ops == a.e.doc.ops + ops
    ensures b.e.known == a.e.known && b.e.contig == a.e.contig && Saved(a) <= Saved(b)
    ensures a.e.codec.Valid() ==> ops - a.e.doc.persisted <= Durable(b.st)
    ensures Coherent(a) ==> Coherent(b) && AtFrontier(b)
  {
    if Coherent(a) { CallCoherent(a, Commit(ops)); }
  }

  lemma CommitRecords(a: Sys, ops: set<Op>, freshId: nat, b: Sys)
    requires Keeps(Apply(Persisted(Apply(a, Commit(ops))), FlushCall(freshId)), b)
    requires Starts(a, ops) && a.e.inFlight == None
    ensures OnRecord(b, freshId, News(a, ops))
  {
    var r := Apply(a, Commit(ops));
    FlushedStarts(r, freshId);
    assert News(r, {}) == News(a, ops) && r.e.doc.ops + {} == r.e.doc.ops;
    RecordedOn(Apply(Persisted(r), FlushCall(freshId)), b, freshId, News(a, ops));
  }

  lemma CommittedOn(a: Sys, ops: set<Op>, freshId: nat, b: Sys)
    requires Keeps(Apply(Persisted(Apply(a, Commit(ops))), FlushCall(freshId)), b)
    ensures Committed(a, ops, freshId, b)
  {
    var r := Apply(a, Commit(ops));
    PersistedFlushed(r, freshId, b);
    CommitHolds(a, ops, b);
    if Starts(a, ops) && a.e.inFlight == None { CommitRecords(a, ops, freshId, b); }
  }

  lemma PersistedFlushed(r: Sys, freshId: nat, b: Sys)
    requires Keeps(Apply(Persisted(r), FlushCall(freshId)), b)
    ensures Keeps(r, b) && Secured(r, b)
  {
    PersistedKeeps(r);
    CallKeeps(Persisted(r), FlushCall(freshId));
    KeepsOn(Persisted(r), Apply(Persisted(r), FlushCall(freshId)), b);
    KeepsOn(r, Persisted(r), b);
    SecuredOn(r, Persisted(r), b);
  }

  // ---- what persisting and flushing make of all of them ----

  function FlushedAll(docs: Session, freshId: nat): Session { ForAll(AllPersisted(docs), FlushCall(freshId)) }

  lemma FlushedDurable(docs: Session, freshId: nat, r: Session)
    requires AllKept(FlushedAll(docs, freshId), r)
    ensures AllDurable(docs, r)
  {
    var p := FlushedAll(docs, freshId);
    forall id | id in r ensures Keeps(docs[id], r[id]) && Secured(docs[id], r[id]) {
      assert Keeps(p[id], r[id]);
      PersistedFlushed(docs[id], freshId, r[id]);
    }
  }

  /** The engine of the command took it in, and every other is as it was. */
  ghost predicate CommittedAlone(docs: Session, id: nat, ops: set<Op>, freshId: nat, r: Session) {
    && r.Keys <= docs.Keys
    && (id in r && id in docs ==> Committed(docs[id], ops, freshId, r[id]))
    && forall other {:trigger Keeps(docs[other], r[other])} :: other in r && other != id ==>
         Keeps(docs[other], r[other]) && Secured(docs[other], r[other])
  }

  lemma CommandTook(docs: Session, id: nat, ops: set<Op>, freshId: nat, r: Session)
    requires id in docs && AllKept(FlushedAll(docs[id := Apply(docs[id], Commit(ops))], freshId), r)
    ensures CommittedAlone(docs, id, ops, freshId, r)
  {
    var m := docs[id := Apply(docs[id], Commit(ops))];
    FlushedDurable(m, freshId, r);
    forall other | other in r && other != id
      ensures Keeps(docs[other], r[other]) && Secured(docs[other], r[other])
    {
      assert Keeps(m[other], r[other]) && Secured(m[other], r[other]);
    }
    if id in r {
      assert Keeps(FlushedAll(m, freshId)[id], r[id]);
      CommittedOn(docs[id], ops, freshId, r[id]);
    }
  }

  /** A calm engine has nothing to flush but what was just committed. */
  lemma CalmStarts(a: Sys, ops: set<Op>, freshId: nat)
    requires Calm(a.e)
    ensures Apply(Persisted(Apply(a, Commit(ops))), FlushCall(freshId)).e.outbox ==
            if Starts(a, ops) then [PushFor(a, ops, freshId)] else []
  {
    var r := Apply(a, Commit(ops));
    PersistedSpeaks(r);
    PersistedTalk(r);
    if a.e.state == Idle {
      FlushedStarts(r, freshId);
      assert r.e.doc.ops + {} == r.e.doc.ops && News(r, {}) == News(a, ops);
    }
  }

  lemma NothingStarts(a: Sys)
    requires Calm(a.e)
    ensures !Starts(a, {})
  {
    if a.e.state == Idle {
      BoundLeast(a.e.codec, a.e.doc.ops, a.e.known);
      assert a.e.doc.ops + {} == a.e.doc.ops;
    }
  }

  lemma NoCommit(s: Sys)
    ensures Apply(s, Commit({})) == s
  {
    assert s.e.doc.ops + {} == s.e.doc.ops;
  }

  lemma CommandSpeaks(docs: Session, id: nat, ops: set<Op>, freshId: nat, other: nat)
    requires AllCalm(docs) && id in docs
    ensures OutboxOf(FlushedAll(docs[id := Apply(docs[id], Commit(ops))], freshId), other) ==
            if other == id && Starts(docs[id], ops) then [PushFor(docs[id], ops, freshId)] else []
  {
    if other == id {
      CalmStarts(docs[id], ops, freshId);
    } else if other in docs {
      CalmSilent(docs[other], freshId);
    }
  }

  lemma CommandCalm(docs: Session, id: nat, ops: set<Op>, freshId: nat, home: nat, socket: bool, sendOk: bool,
                    keys: set<nat>, was: seq<(nat, ClientFrame)>, wire: seq<(nat, ClientFrame)>)
    requires AllCalm(docs) && id in docs
    requires var p := FlushedAll(docs[id := Apply(docs[id], Commit(ops))], freshId);
             Pumped(p, home, socket, sendOk, keys, was, wire)
    ensures Primed(FlushedAll(docs[id := Apply(docs[id], Commit(ops))], freshId)) && keys == docs.Keys
    ensures socket && sendOk ==>
              SentOnly(was, wire, id, if Starts(docs[id], ops) then [PushFor(docs[id], ops, freshId)] else [])
  {
    CommandPrimed(docs, id, ops, freshId);
    SilentRemain(FlushedAll(docs[id := Apply(docs[id], Commit(ops))], freshId), home);
    var p := FlushedAll(docs[id := Apply(docs[id], Commit(ops))], freshId);
    forall other
      ensures OutboxOf(p, other) ==
              if other == id && Starts(docs[id], ops) then [PushFor(docs[id], ops, freshId)] else []
    {
      CommandSpeaks(docs, id, ops, freshId, other);
    }
  }

  /** Of calm engines nothing is left to send: a persist or a sync finds it
      all sent. */
  lemma QuietFlush(docs: Session, late: bool, freshId: nat, home: nat, socket: bool, sendOk: bool,
                   keys: set<nat>, was: seq<(nat, ClientFrame)>, wire: seq<(nat, ClientFrame)>)
    requires AllCalm(docs)
    requires var r := if late then Each(docs, s => Apply(s, Tick)) else docs;
             Pumped(ForAll(r, FlushCall(freshId)), home, socket, sendOk, keys, was, wire)
    ensures keys == docs.Keys && forall id :: OnWire(wire, id) == OnWire(was, id)
  {
    var r := if late then Each(docs, s => Apply(s, Tick)) else docs;
    var p := ForAll(r, FlushCall(freshId));
    forall id | id in docs ensures p[id].e.outbox == [] && !SaidClosed(p[id].e.events) {
      TickWaits(docs[id], late, freshId);
      TickSays(docs[id], late, freshId);
    }
  }

  lemma TickSays(s: Sys, late: bool, freshId: nat)
    requires Calm(s.e)
    ensures !SaidClosed(Apply(if late then Apply(s, Tick) else s, FlushCall(freshId)).e.events)
  {
    var t := if late then Apply(s, Tick) else s;
    TimeoutSteady(s.e);
    FlushSteady(t, freshId, {});
    assert !Speaks(s.e.events);
  }

  lemma FlushedRemain(docs: Session, freshId: nat, home: nat)
    requires Silent(FlushedAll(docs, freshId))
    ensures Remaining(FlushedAll(docs, freshId), home) == FlushedAll(docs, freshId).Keys == docs.Keys
  {
    SilentRemain(FlushedAll(docs, freshId), home);
  }

  lemma CreatedCalm(docs: Session, id: nat, s: Sys, freshId: nat, home: nat, socket: bool, sendOk: bool,
                    keys: set<nat>, was: seq<(nat, ClientFrame)>, wire: seq<(nat, ClientFrame)>)
    requires AllCalm(docs) && id !in docs && Calm(s.e) && !Online(s)
    requires var p := FlushedAll(docs[id := if socket then Apply(s, Connected) else s], freshId);
             Pumped(p, home, socket, sendOk, keys, was, wire)
    ensures Primed(FlushedAll(docs[id := if socket then Apply(s, Connected) else s], freshId))
    ensures keys == docs.Keys + {id} && (socket && sendOk ==> SentOnly(was, wire, id, [OpenDoc]))
  {
    CreatedPrimed(docs, id, s, socket, freshId);
    FlushedRemain(docs[id := if socket then Apply(s, Connected) else s], freshId, home);
    if socket && sendOk { CreatedWires(docs, id, s, freshId, was, wire); }
  }

  lemma CreatedWires(docs: Session, id: nat, s: Sys, freshId: nat,
                     was: seq<(nat, ClientFrame)>, wire: seq<(nat, ClientFrame)>)
    requires AllCalm(docs) && id !in docs && Calm(s.e) && !Online(s)
    requires var p := FlushedAll(docs[id := Apply(s, Connected)], freshId); Wired(was, wire, p, p.Keys)
    ensures SentOnly(was, wire, id, [OpenDoc])
  {
    var p := FlushedAll(docs[id := Apply(s, Connected)], freshId);
    forall other ensures OutboxOf(p, other) == if other == id then [OpenDoc] else [] {
      if other == id { CreatedSpeaks(s, freshId); } else if other in docs { CalmSilent(docs[other], freshId); }
    }
  }

  lemma CreatedSpeaks(s: Sys, freshId: nat)
    requires Calm(s.e) && !Online(s)
    ensures Apply(Persisted(Apply(s, Connected)), FlushCall(freshId)).e.outbox == [OpenDoc]
  {
    var r := Apply(s, Connected);
    PersistedSpeaks(r);
    PersistedTalk(r);
  }

  lemma CalmSilent(s: Sys, freshId: nat)
    requires Calm(s.e)
    ensures Apply(Persisted(s), FlushCall(freshId)).e.outbox == []
  {
    CalmStarts(s, {}, freshId);
    NoCommit(s);
    NothingStarts(s);
  }

  lemma CreatedKept(docs: Session, id: nat, s: Sys, socket: bool, r: Session)
    requires id !in docs && AllDurable(docs[id := if socket then Apply(s, Connected) else s], r)
    ensures id in r ==> Keeps(s, r[id]) && (Coherent(s) ==> AtFrontier(r[id]))
    ensures AllDurable(docs, r - {id})
  {
    var m := docs[id := if socket then Apply(s, Connected) else s];
    if id in r {
      assert Keeps(m[id], r[id]) && Secured(m[id], r[id]);
      CallKeeps(s, Connected);
      KeepsOn(s, m[id], r[id]);
    }
    forall other | other in r - {id} ensures Keeps(docs[other], r[other]) && Secured(docs[other], r[other]) {
      assert Keeps(m[other], r[other]) && Secured(m[other], r[other]);
    }
  }
}

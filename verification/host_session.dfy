/** The engines of one host as a value: what persisting, flushing, routing and
    reading what they said make of all of them. */
module HostSession {
  import opened Wrappers
  import opened Operations
  import opened Protocol
  import opened LocalStore
  import opened Documents
  import opened EngineSpec
  import opened EngineCoherence
  import opened CallInvariant
  import opened StepInvariant
  import opened EngineCalm
  import opened EngineDisk
  import EngineLaws

  const SNAPSHOT_MAX_WAL_ROWS: nat := 100
  const SNAPSHOT_MAX_WAL_BYTES: nat := 4 * 1024 * 1024
  const BACKOFF_MIN: nat := 500
  const BACKOFF_MAX: nat := 30_000

  predicate Online(s: Sys) { s.e.state != Disconnected }

  // ---- what an engine says when it goes down by itself ----

  /** Events are only ever added. */
  ghost predicate Louder(s: Sys, r: Sys) { s.e.events <= r.e.events }

  /** A change of state the host can tell of: up stays up, or a fatal event
      says why; down stays down. */
  ghost predicate Told(s: Sys, r: Sys) {
    && Louder(s, r)
    && (!Online(s) ==> !Online(r))
    && (Online(s) && !Online(r) ==> Speaks(r.e.events))
  }

  lemma {:induction false} AppendRowsEvents(s: Sys, updates: seq<StoredBlob>)
    ensures AppendRows(s, updates).e.events == s.e.events
  {
    if updates != [] {
      AppendRowsEvents(s, updates[..|updates| - 1]);
    }
  }

  lemma ApplyRemoteTold(s: Sys, updates: seq<StoredBlob>)
    ensures Louder(s, ApplyRemoteUpdates(s, updates)) && ApplyRemoteUpdates(s, updates).e.state == s.e.state
  {
    LinkInvariant.RowsApplied(s, updates);
    if updates != [] {
      var c := s.e.codec;
      var e := s.e.(doc := ApplyRemote(c, s.e.doc, Blobs(updates)), known := s.e.known + BlobRange(c, Blobs(updates)));
      AppendRowsEvents(s.(e := e), updates);
    }
  }

  lemma TryStartPushTold(s: Sys, id: nat)
    requires Online(s)
    ensures Louder(s, TryStartPush(s, id)) && Online(TryStartPush(s, id))
  {}

  lemma BatchTold(s: Sys, updates: seq<StoredBlob>, complete: bool, id: nat)
    requires Online(s)
    ensures Told(s, OnBatch(s, updates, complete, id))
  {
    if s.e.state != Bootstrapping {
      BatchCases(s, updates, complete, id);
      ApplyRemoteTold(s, updates);
      TryStartPushTold(Pulled(ApplyRemoteUpdates(s, updates)), id);
    }
  }

  lemma AckTold(s: Sys, acks: seq<PushAck>, id: nat)
    requires Online(s)
    ensures Told(s, OnAck(s, acks, id))
  {
    if Accepts(s.e, acks) {
      AckAccepted(s, acks, id);
      TryStartPushTold(Acked(s, acks[0]), id);
    }
  }

  lemma ClosedTold(s: Sys, reason: string)
    ensures var r := s.(e := GoDisconnected(Emit(s.e, ClosedByServer(reason))));
            Louder(s, r) && Speaks(r.e.events)
  {
    var r := GoDisconnected(Emit(s.e, ClosedByServer(reason)));
    assert r.events[|s.e.events|] == ClosedByServer(reason);
    assert ClosedByServer(reason) in r.events && Fatal(ClosedByServer(reason));
  }

  lemma OpenedTold(s: Sys, epoch: nat)
    requires Online(s)
    ensures Told(s, s.(e := OnDocOpened(s.e, epoch))) && Told(s, s.(e := OnSnapshotRequired(s.e)))
  {}

  lemma RequestTold(s: Sys, floor: nat, base: Option<SnapshotBase>)
    requires Online(s)
    ensures Told(s, s.(e := OnSnapshotRequest(s.e, floor, base)))
  {}

  lemma SnapshotTold(s: Sys, upTo: nat, blob: Blob, complete: bool)
    requires Online(s)
    ensures Told(s, OnSnapshot(s, upTo, blob, complete))
  {}

  lemma FrameTold(s: Sys, f: ServerFrame, id: nat)
    requires Online(s)
    ensures Told(s, HandleFrame(s, f, id))
  {
    match f {
      case DocRejected(reason) => ClosedTold(s, "doc rejected: " + reason);
      case DocClosed(reason) => ClosedTold(s, "doc closed: " + reason);
      case UpdatesBatch(updates, complete) => BatchTold(s, updates, complete, id);
      case UpdatesBroadcast(updates) => ApplyRemoteTold(s, updates);
      case UpdatesAck(acks) => AckTold(s, acks, id);
      case Snapshot(upTo, blob, complete) => SnapshotTold(s, upTo, blob, complete);
      case DocOpened(epoch) => OpenedTold(s, epoch);
      case SnapshotRequired(_) => OpenedTold(s, 0);
      case SnapshotRequest(_, floor, base) => RequestTold(s, floor, base);
      case Presence(_) =>
    }
  }

  /** Whatever is asked of an engine, but to connect or disconnect. */
  lemma CallTold(s: Sys, call: Call)
    requires !call.Connected? && !call.Dropped?
    ensures Told(s, Apply(s, call))
  {
    match call {
      case Bytes(input, id) =>
        if Online(s) && input.Frame? && input.doc == s.e.docId { FrameTold(s, input.frame, id); }
      case FlushCall(id) => if Online(s) { TryStartPushTold(s, id); }
      case _ =>
    }
  }

  // ---- persisting ----

  /** `persist_engine_state`, for one engine. */
  function Persisted(s: Sys): Sys {
    var folded := SnapshotIfWalExceeds(Capture(s), SNAPSHOT_MAX_WAL_ROWS, SNAPSHOT_MAX_WAL_BYTES);
    NotifyDurable(folded, folded.e.contig)
  }

  lemma FoldBounds(s: Sys)
    requires Coherent(s)
    ensures var r := SnapshotIfWalExceeds(s, SNAPSHOT_MAX_WAL_ROWS, SNAPSHOT_MAX_WAL_BYTES);
            Coherent(r) && |r.st.wal| < SNAPSHOT_MAX_WAL_ROWS && WalBytes(r.st.wal) <= SNAPSHOT_MAX_WAL_BYTES
  {
    CaptureCoherent(s);
    FoldCoherent(Capture(s));
  }

  lemma NotifyAll(s: Sys)
    requires Coherent(s)
    ensures var r := NotifyDurable(s, s.e.contig);
            Coherent(r) && r.st.wal == s.st.wal && r.st.ackedSeq == r.e.durable == r.e.contig
  {}

  /** After it, at any point of any run: fewer than 100 rows and at most 4 MiB
      to replay, and the frontier is the resume cursor. */
  lemma PersistBoundsReplay(s: Sys, calls: seq<Call>)
    requires Coherent(s)
    ensures var r := Persisted(Exec(s, calls));
            && Coherent(r)
            && |r.st.wal| < SNAPSHOT_MAX_WAL_ROWS && WalBytes(r.st.wal) <= SNAPSHOT_MAX_WAL_BYTES
            && r.st.ackedSeq == r.e.durable == r.e.contig
  {
    RunCoherent(s, calls);
    var x := Capture(Exec(s, calls));
    CaptureCoherent(Exec(s, calls));
    FoldBounds(x);
    NotifyAll(SnapshotIfWalExceeds(x, SNAPSHOT_MAX_WAL_ROWS, SNAPSHOT_MAX_WAL_BYTES));
  }

  lemma PersistedSteady(s: Sys, late: set<Op>)
    requires Steady(s.e, late)
    ensures var r := Persisted(s).e;
            && Steady(r, late) && r.contig == r.durable && r.events == s.e.events
            && (s.e.contig == s.e.durable ==> r.outbox == s.e.outbox)
  {
    CaptureSteady(s, late);
    FoldSteady(Capture(s), SNAPSHOT_MAX_WAL_ROWS, SNAPSHOT_MAX_WAL_BYTES, late);
    NotifySteady(SnapshotIfWalExceeds(Capture(s), SNAPSHOT_MAX_WAL_ROWS, SNAPSHOT_MAX_WAL_BYTES), late);
  }

  lemma PersistedTold(s: Sys)
    ensures Told(s, Persisted(s)) && Persisted(s).e.state == s.e.state
  {}

  // ---- the host ----

  type Session = map<nat, Sys>

  function Each(docs: Session, f: Sys -> Sys): Session {
    map id | id in docs :: f(docs[id])
  }

  function ForAll(docs: Session, call: Call): Session {
    map id | id in docs :: Apply(docs[id], call)
  }

  function AllPersisted(docs: Session): Session { Each(docs, Persisted) }

  /** Nothing goes up or down, and nothing said is lost. */
  ghost predicate AllTold(docs: Session, r: Session) {
    r.Keys == docs.Keys && forall id :: id in docs ==> Told(docs[id], r[id]) && (Online(docs[id]) <==> Online(r[id]))
  }

  lemma AllPersistedTold(docs: Session)
    ensures AllTold(docs, AllPersisted(docs))
  {
    forall id | id in docs
      ensures Told(docs[id], Persisted(docs[id])) && (Online(docs[id]) <==> Online(Persisted(docs[id])))
    {
      PersistedTold(docs[id]);
    }
  }

  function Folded(s: Sys): Sys { SnapshotIfWalExceeds(s, SNAPSHOT_MAX_WAL_ROWS, SNAPSHOT_MAX_WAL_BYTES) }

  lemma AllFoldedTold(docs: Session)
    ensures AllTold(docs, Each(docs, Folded))
  {
    forall id | id in docs
      ensures Told(docs[id], Folded(docs[id])) && (Online(docs[id]) <==> Online(Folded(docs[id])))
    {
      FoldedTold(docs[id]);
    }
  }

  lemma FoldedTold(s: Sys)
    ensures Told(s, Folded(s)) && Folded(s).e.state == s.e.state
  {}

  lemma AllFlushedTold(docs: Session, freshId: nat)
    ensures forall id :: id in docs ==>
              var r := ForAll(docs, FlushCall(freshId))[id];
              Told(docs[id], r) && (Online(docs[id]) <==> Online(r))
  {
    forall id | id in docs
      ensures var r := Apply(docs[id], FlushCall(freshId));
              Told(docs[id], r) && (Online(docs[id]) <==> Online(r))
    {
      FlushTold(docs[id], freshId);
    }
  }

  lemma FlushTold(s: Sys, freshId: nat)
    ensures var r := Apply(s, FlushCall(freshId)); Told(s, r) && (Online(s) <==> Online(r))
  {
    if Online(s) { TryStartPushTold(s, freshId); }
  }

  /** As `f` leaves some of the engines. */
  function EachIn(docs: Session, ids: set<nat>, f: Sys -> Sys): Session {
    map id | id in docs :: if id in ids then f(docs[id]) else docs[id]
  }

  /** The engine bytes are for: the one they name, or home if they name none. */
  function Target(input: Inbound, home: nat): nat { if input.Frame? then input.doc else home }

  /** Bytes reach that engine alone; a doc not held here is not for us. */
  function Routed(docs: Session, home: nat, input: Inbound, freshId: nat): Session {
    var t := Target(input, home);
    if t in docs then docs[t := Apply(docs[t], Bytes(input, freshId))] else docs
  }

  /** No engine has a frame for the wire. */
  predicate NothingQueued(docs: Session) { forall id :: id in docs ==> docs[id].e.outbox == [] }

  // ---- nothing fatal is left unread ----

  ghost predicate AllCalm(docs: Session) { forall id :: id in docs ==> Calm(docs[id].e) }

  ghost predicate Silent(docs: Session) { forall id :: id in docs ==> !Speaks(docs[id].e.events) }

  ghost predicate AllSteady(docs: Session, late: set<Op>) {
    forall id :: id in docs ==> Steady(docs[id].e, late) && docs[id].e.contig == docs[id].e.durable
  }

  /** What a pump finds: if some engine has said something fatal there is
      nothing to send, so the send cannot fail before it is read. */
  ghost predicate Primed(docs: Session) { AllSteady(docs, {}) && (NothingQueued(docs) || Silent(docs)) }

  lemma PersistedCalm(docs: Session)
    requires AllCalm(docs)
    ensures AllCalm(AllPersisted(docs))
  {
    forall id | id in docs ensures Calm(Persisted(docs[id]).e) {
      PersistedSteady(docs[id], {});
    }
  }

  lemma FoldedCalm(docs: Session)
    requires AllCalm(docs)
    ensures AllCalm(Each(docs, Folded))
  {
    forall id | id in docs ensures Calm(Folded(docs[id]).e) {
      FoldSteady(docs[id], SNAPSHOT_MAX_WAL_ROWS, SNAPSHOT_MAX_WAL_BYTES, {});
    }
  }

  lemma FlushedCalm(docs: Session, freshId: nat)
    requires AllCalm(docs)
    ensures AllCalm(ForAll(docs, FlushCall(freshId)))
  {
    forall id | id in docs ensures Calm(Apply(docs[id], FlushCall(freshId)).e) {
      FlushCalm(docs[id], freshId);
    }
  }

  lemma DroppedCalm(docs: Session)
    requires AllSteady(docs, {}) && Silent(docs)
    ensures AllCalm(ForAll(docs, Dropped))
  {
    forall id | id in docs ensures Calm(Apply(docs[id], Dropped).e) {
      DropCalm(docs[id].e);
    }
  }

  lemma RoutedPrimed(docs: Session, home: nat, input: Inbound, freshId: nat)
    requires AllCalm(docs)
    ensures Primed(AllPersisted(Routed(docs, home, input, freshId)))
  {
    var r := Routed(docs, home, input, freshId);
    var t := Target(input, home);
    if t in docs { BytesCalm(docs[t], input, freshId); }
    forall id | id in r
      ensures var p := Persisted(r[id]).e;
              && Steady(p, {}) && p.contig == p.durable && p.events == r[id].e.events
              && (r[id].e.contig == r[id].e.durable ==> p.outbox == r[id].e.outbox)
    {
      PersistedSteady(r[id], {});
    }
  }

  lemma LateSteady(e: Engine, late: set<Op>)
    requires Steady(e, {})
    ensures Steady(e, late)
  {}

  /** Durable and flushed: what was queued on the way was queued in silence. */
  lemma FlushedPrimed(docs: Session, late: set<Op>, freshId: nat)
    requires forall id :: id in docs ==> Steady(docs[id].e, late)
    requires Silent(docs)
    ensures Primed(ForAll(AllPersisted(docs), FlushCall(freshId)))
    ensures Silent(ForAll(AllPersisted(docs), FlushCall(freshId)))
  {
    forall id | id in docs
      ensures var r := Apply(Persisted(docs[id]), FlushCall(freshId)).e;
              Steady(r, {}) && r.contig == r.durable && r.events == docs[id].e.events
    {
      PersistedSteady(docs[id], late);
      FlushSteady(Persisted(docs[id]), freshId, late);
    }
  }

  lemma CommandPrimed(docs: Session, id: nat, ops: set<Op>, freshId: nat)
    requires AllCalm(docs) && id in docs
    ensures var p := ForAll(AllPersisted(docs[id := Apply(docs[id], Commit(ops))]), FlushCall(freshId));
            Primed(p) && Silent(p)
  {
    var r := docs[id := Apply(docs[id], Commit(ops))];
    forall i | i in r ensures Steady(r[i].e, ops) && !Speaks(r[i].e.events) {
      LateSteady(docs[i].e, ops);
    }
    FlushedPrimed(r, ops, freshId);
  }

  lemma CreatedPrimed(docs: Session, id: nat, s: Sys, socket: bool, freshId: nat)
    requires AllCalm(docs) && Calm(s.e) && !Online(s)
    ensures var r := docs[id := if socket then Apply(s, Connected) else s];
            Primed(ForAll(AllPersisted(r), FlushCall(freshId))) && Silent(ForAll(AllPersisted(r), FlushCall(freshId)))
  {
    ConnectSteady(s.e);
    FlushedPrimed(docs[id := if socket then Apply(s, Connected) else s], {}, freshId);
  }

  lemma TickPrimed(docs: Session, late: bool, freshId: nat)
    requires AllCalm(docs)
    ensures var r := if late then Each(docs, s => Apply(s, Tick)) else docs;
            Primed(ForAll(r, FlushCall(freshId)))
  {
    forall id | id in docs
      ensures var r := if late then Apply(docs[id], Tick) else docs[id];
              Waits(Apply(r, FlushCall(freshId)).e)
    {
      TickWaits(docs[id], late, freshId);
    }
  }

  ghost predicate Waits(e: Engine) { Steady(e, {}) && e.contig == e.durable && e.outbox == [] }

  lemma TickWaits(s: Sys, late: bool, freshId: nat)
    requires Calm(s.e)
    ensures Waits(Apply(if late then Apply(s, Tick) else s, FlushCall(freshId)).e)
  {
    TimeoutSteady(s.e);
    FlushSteady(if late then Apply(s, Tick) else s, freshId, {});
  }

  /** Every engine idle. */
  predicate Resting(docs: Session) { forall id :: id in docs ==> docs[id].e.state == Idle }

  lemma PersistedResting(docs: Session)
    ensures Resting(AllPersisted(docs)) <==> Resting(docs)
  {
    forall id | id in docs ensures Persisted(docs[id]).e.state == docs[id].e.state {
      PersistedTold(docs[id]);
    }
    forall id | id in docs ensures AllPersisted(docs)[id].e.state == docs[id].e.state {}
  }

  lemma ConnectedPrimed(docs: Session)
    requires AllCalm(docs) && forall id :: id in docs ==> !Online(docs[id])
    ensures Primed(ForAll(docs, Connected))
  {
    forall id | id in docs
      ensures var r := Apply(docs[id], Connected).e;
              Steady(r, {}) && r.contig == r.durable && !Speaks(r.events)
    {
      ConnectSteady(docs[id].e);
    }
  }

  /** Sent and read, an engine is calm again. */
  lemma PumpedCalm(docs: Session, socket: bool)
    requires AllSteady(docs, {}) && (!socket ==> forall id :: id in docs ==> !Online(docs[id]))
    ensures AllCalm(Each(if socket then Each(docs, Emptied) else docs, Quieted))
  {}

  lemma CalmSurvives(docs: Session, home: nat)
    requires AllCalm(docs)
    ensures Survives(docs, home)
  {
    forall id, ev | id in docs && ev in docs[id].e.events ensures !Kills(id, ev, home) {
      assert !Speaks(docs[id].e.events);
    }
  }

  // ---- what is read of what was said ----

  /** The server closed the doc. */
  ghost predicate SaidClosed(events: seq<Event>) { exists ev :: ev in events && ev.ClosedByServer? }

  /** The docs the host is left with once it reads that. Home always stays. */
  ghost function Remaining(docs: Session, home: nat): set<nat> {
    set id | id in docs && (id == home || !SaidClosed(docs[id].e.events))
  }

  /** The docs, home apart, that the server closed. */
  function ClosedDocs(drained: seq<(nat, Event)>, home: nat): set<nat> {
    if drained == [] then {}
    else
      var last := drained[|drained| - 1];
      ClosedDocs(drained[..|drained| - 1], home) + if last.1.ClosedByServer? && last.0 != home then {last.0} else {}
  }

  lemma ClosedNext(drained: seq<(nat, Event)>, home: nat, i: nat)
    requires i < |drained|
    ensures ClosedDocs(drained[..i + 1], home) ==
            ClosedDocs(drained[..i], home)
            + if drained[i].1.ClosedByServer? && drained[i].0 != home then {drained[i].0} else {}
  {
    assert drained[..i + 1][..i] == drained[..i];
  }

  lemma {:induction false} ClosedDocsAre(drained: seq<(nat, Event)>, home: nat, id: nat)
    ensures id in ClosedDocs(drained, home) <==> id != home && exists ev :: (id, ev) in drained && ev.ClosedByServer?
  {
    if drained != [] {
      var front, last := drained[..|drained| - 1], drained[|drained| - 1];
      ClosedDocsAre(front, home, id);
      assert forall d :: d in drained <==> d in front || d == last;
      assert last == (last.0, last.1);
    }
  }

  lemma ClosedDocsSaid(docs: Session, drained: seq<(nat, Event)>, home: nat)
    requires forall id, ev :: id in docs && ev in docs[id].e.events <==> (id, ev) in drained
    ensures docs.Keys - ClosedDocs(drained, home) == Remaining(docs, home)
  {
    forall id ensures id in docs.Keys - ClosedDocs(drained, home) <==> id in Remaining(docs, home) {
      ClosedDocsAre(drained, home, id);
    }
  }

  /** A send fails only if there is something to send. */
  predicate SendFails(socket: bool, sendOk: bool, docs: Session) { socket && !sendOk && !NothingQueued(docs) }

  /** With its first `n` frames gone. */
  function Unsent(s: Sys, n: nat): Sys
    requires n <= |s.e.outbox|
  {
    s.(e := s.e.(outbox := s.e.outbox[n..]))
  }

  /** An event that takes the socket down when it is read. */
  predicate Kills(id: nat, ev: Event, home: nat) { ev.Error? || (ev.ClosedByServer? && id == home) }

  /** No such event is waiting. */
  ghost predicate Survives(docs: Session, home: nat) {
    forall id, ev :: id in docs && ev in docs[id].e.events ==> !Kills(id, ev, home)
  }

  lemma ConnectedSurvive(docs: Session, r: Session, home: nat)
    requires r.Keys == docs.Keys
    requires forall id :: id in docs ==> r[id].e.events == docs[id].e.events + [ConnStateChanged(true)]
    ensures Survives(r, home) <==> Survives(docs, home)
  {
    if !Survives(docs, home) {
      var id, ev :| id in docs && ev in docs[id].e.events && Kills(id, ev, home);
      assert ev in r[id].e.events;
    }
  }

  // ---- parked syncs ----

  /** Of `parked` requests those now answered are added to `answers`, each
      once. All are when the pull completes, with yes, or when the connection
      is lost; else none is. */
  ghost predicate Answered(parked: nat, answers: seq<bool>, left: nat, now: seq<bool>, pulled: bool, lost: bool) {
    && answers <= now && |now| + left == |answers| + parked
    && (pulled || lost ==> left == 0)
    && (!pulled && !lost ==> left == parked)
    && (!lost ==> forall k :: |answers| <= k < |now| ==> now[k])
  }

  lemma AnsweredOn(p: nat, r: seq<bool>, q: nat, s: seq<bool>, n: nat, t: seq<bool>, pulled: bool, lost: bool,
                   pulls: bool, loses: bool)
    requires Answered(p, r, q, s, pulled, lost) && Answered(q, s, n, t, pulls, loses)
    ensures Answered(p, r, n, t, pulled || pulls, lost || loses)
  {
    forall k | |r| <= k < |t| && !lost && !loses ensures t[k] {
      if k < |s| { assert t[k] == s[k]; }
    }
  }

  predicate Pulls(drained: seq<(nat, Event)>, home: nat) { (home, PulledInitial) in drained }

  lemma PullsNext(drained: seq<(nat, Event)>, home: nat, i: nat)
    requires i < |drained|
    ensures Pulls(drained[..i + 1], home) <==>
              Pulls(drained[..i], home) || (drained[i].0 == home && drained[i].1.PulledInitial?)
  {
    assert drained[..i + 1] == drained[..i] + [drained[i]];
    assert drained[i] == (drained[i].0, drained[i].1);
  }

  predicate NoneKills(drained: seq<(nat, Event)>, home: nat) {
    if drained == [] then true
    else
      var last := drained[|drained| - 1];
      NoneKills(drained[..|drained| - 1], home) && !Kills(last.0, last.1, home)
  }

  lemma {:induction false} NoneKillsAre(drained: seq<(nat, Event)>, home: nat)
    ensures NoneKills(drained, home) <==> forall id, ev :: (id, ev) in drained ==> !Kills(id, ev, home)
  {
    if drained != [] {
      var front, last := drained[..|drained| - 1], drained[|drained| - 1];
      NoneKillsAre(front, home);
      assert forall d :: d in drained <==> d in front || d == last;
      assert last == (last.0, last.1);
    }
  }

  /** What home said of the kind takes the socket down when it is read. */
  lemma SpokenKills(docs: Session, drained: seq<(nat, Event)>, home: nat)
    requires home in docs
    requires forall id, ev :: id in docs && ev in docs[id].e.events <==> (id, ev) in drained
    ensures Speaks(docs[home].e.events) ==> !NoneKills(drained, home)
  {
    NoneKillsAre(drained, home);
    if Speaks(docs[home].e.events) {
      var ev :| ev in docs[home].e.events && Fatal(ev);
      assert (home, ev) in drained && Kills(home, ev, home);
    }
  }

  lemma AllReadOrNone(docs: Session, drained: seq<(nat, Event)>, home: nat)
    requires forall id, ev :: id in docs && ev in docs[id].e.events <==> (id, ev) in drained
    ensures Survives(docs, home) <==> NoneKills(drained, home)
  {
    NoneKillsAre(drained, home);
  }

  function Emptied(s: Sys): Sys { s.(e := s.e.(outbox := [])) }

  function Quieted(s: Sys): Sys { s.(e := s.e.(events := [])) }

  lemma AllTimedOut(docs: Session)
    ensures AllTold(docs, Each(docs, s => Apply(s, Tick)))
  {
    forall id | id in docs
      ensures var r := Apply(docs[id], Tick); Told(docs[id], r) && (Online(docs[id]) <==> Online(r))
    {
      CallTold(docs[id], Tick);
    }
  }
}

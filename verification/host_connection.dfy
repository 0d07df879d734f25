/** One socket, many engines: the host loop and its session, over the engines
    as the sync specification has them. */
module HostConnection {
  import opened Wrappers
  import opened Operations
  import opened Protocol
  import opened LocalStore
  import opened Documents
  import opened EngineSpec
  import opened EngineCoherence
  import opened CallInvariant
  import opened StepInvariant
  import opened EngineCalm
  import opened EngineDisk
  import opened HostSession
  import opened HostKeeping

  class Host {
    const home: nat
    var docs: Session
    /** Everything sent, on one connection after another. */
    var wire: seq<(nat, ClientFrame)>
    var socket: bool
    var connecting: bool
    var backoff: nat
    var awaitingPong: bool
    var pendingSyncs: nat
    var resolved: seq<bool>

    /** Engines and socket agree: without a socket every engine is down, and a
        home engine that is down under a socket has said so in an event the
        host has yet to read. */
    ghost predicate Valid()
      reads this
    {
      && home in docs
      && (!socket ==> forall id :: id in docs ==> !Online(docs[id]))
      && (socket && !Online(docs[home]) ==> Speaks(docs[home].e.events))
      && (connecting ==> !socket)
      && BACKOFF_MIN <= backoff <= BACKOFF_MAX
    }

    /** Between two turns of the loop there is nothing left to read. */
    ghost predicate AtRest()
      reads this
    {
      Valid() && (socket ==> Online(docs[home]))
    }

    constructor (home: nat, docs: Session)
      requires home in docs && forall id :: id in docs ==> !Online(docs[id])
      ensures AtRest() && !socket && !connecting && this.home == home && this.docs == docs && wire == []
    {
      this.home, this.docs, wire := home, docs, [];
      socket, connecting, backoff, awaitingPong, pendingSyncs, resolved := false, false, BACKOFF_MIN, false, 0, [];
    }

    // ---- the session's loops over its engines ----

    method ForEachEngine(f: Sys -> Sys)
      modifies this`docs
      ensures docs == Each(old(docs), f)
    {
      ForEachIn(docs.Keys, f);
    }

    method ForEachIn(ids: set<nat>, f: Sys -> Sys)
      modifies this`docs
      ensures docs == EachIn(old(docs), ids, f)
    {
      var rest := docs.Keys * ids;
      while rest != {}
        invariant rest <= old(docs).Keys * ids
        invariant docs == EachIn(old(docs), ids - rest, f)
      {
        var id :| id in rest;
        rest := rest - {id};
        docs := docs[id := f(docs[id])];
      }
    }

    method ConnectAll()
      requires forall id :: id in docs ==> !Online(docs[id])
      modifies this`docs
      ensures docs == ForAll(old(docs), Connected) && AllKept(old(docs), docs)
      ensures forall id :: id in docs ==>
                docs[id].e.state == Opening && docs[id].e.events == old(docs)[id].e.events + [ConnStateChanged(true)]
    {
      ForEachEngine(s => Apply(s, Connected));
      AllCalledKept(old(docs), Connected);
    }

    method DisconnectAll()
      modifies this`docs
      ensures docs == ForAll(old(docs), Dropped) && AllKept(old(docs), docs)
      ensures forall id :: id in docs ==> !Online(docs[id])
    {
      ForEachEngine(s => Apply(s, Dropped));
      AllCalledKept(old(docs), Dropped);
    }

    method FlushAll(freshId: nat)
      requires Valid()
      modifies this`docs
      ensures Valid() && docs == ForAll(old(docs), FlushCall(freshId)) && AllKept(old(docs), docs)
      ensures forall id :: id in docs ==> (Online(docs[id]) <==> Online(old(docs)[id]))
    {
      ForEachEngine(s => Apply(s, FlushCall(freshId)));
      AllFlushedTold(old(docs), freshId);
      AllCalledKept(old(docs), FlushCall(freshId));
    }

    method PersistAll()
      requires Valid()
      modifies this`docs
      ensures Valid() && docs == AllPersisted(old(docs)) && AllDurable(old(docs), docs)
      ensures AllCalm(old(docs)) ==> AllCalm(docs)
      ensures forall id :: id in docs ==> (Online(docs[id]) <==> Online(old(docs)[id]))
    {
      ForEachEngine(Persisted);
      AllPersistedTold(old(docs));
      AllPersistedKept(old(docs));
      if AllCalm(old(docs)) { PersistedCalm(old(docs)); }
    }

    // ---- the connection ----

    method ResolvePendingSyncs(online: bool)
      modifies this`pendingSyncs, this`resolved
      ensures pendingSyncs == 0 && resolved == old(resolved) + seq(old(pendingSyncs), _ => online)
    {
      resolved := resolved + seq(pendingSyncs, _ => online);
      pendingSyncs := 0;
    }

    method ScheduleReconnect()
      requires BACKOFF_MIN <= backoff <= BACKOFF_MAX
      modifies this`backoff
      ensures BACKOFF_MIN <= backoff <= BACKOFF_MAX && backoff == Min(2 * old(backoff), BACKOFF_MAX)
    {
      backoff := if BACKOFF_MAX < backoff * 2 then BACKOFF_MAX else backoff * 2;
    }

    method DropSocket()
      requires BACKOFF_MIN <= backoff <= BACKOFF_MAX
      modifies this`socket, this`awaitingPong, this`pendingSyncs, this`resolved, this`backoff
      ensures !socket && !awaitingPong && BACKOFF_MIN <= backoff <= BACKOFF_MAX
      ensures pendingSyncs == 0 && resolved == old(resolved) + seq(old(pendingSyncs), _ => false)
      ensures backoff == Min(2 * old(backoff), BACKOFF_MAX)
    {
      socket := false;
      ResolvePendingSyncs(false);
      awaitingPong := false;
      ScheduleReconnect();
    }

    method GiveUp()
      requires home in docs && BACKOFF_MIN <= backoff <= BACKOFF_MAX && (connecting ==> !socket)
      modifies this
      ensures AtRest() && !socket && docs == ForAll(old(docs), Dropped) && connecting == old(connecting)
      ensures AllKept(old(docs), docs) && docs.Keys == old(docs).Keys && wire == old(wire) && !awaitingPong
      ensures pendingSyncs == 0 && resolved == old(resolved) + seq(old(pendingSyncs), _ => false)
      ensures backoff == Min(2 * old(backoff), BACKOFF_MAX)
      ensures AllSteady(old(docs), {}) && Silent(old(docs)) ==> AllCalm(docs)
    {
      DisconnectAll();
      if AllSteady(old(docs), {}) && Silent(old(docs)) { DroppedCalm(old(docs)); }
      DropSocket();
    }

    method StartConnect()
      requires AtRest() && !socket && !connecting
      modifies this`connecting
      ensures AtRest() && connecting
    {
      connecting := true;
    }

    /** The engines are all down when a socket arrives, so none of them is
        asked to connect twice. A fatal event the last connection left unread
        takes the new one down at once; without one it stays up. */
    method OnConnectResult(up: bool, sendOk: bool, freshId: nat)
      requires AtRest() && connecting
      modifies this
      ensures AtRest() && !connecting
      ensures !up ==> !socket && docs == old(docs)
      ensures up && sendOk ==> (socket <==> Survives(old(docs), home))
      ensures AllCalm(old(docs)) ==> AllCalm(docs) && (up && sendOk ==> socket)
      ensures AllKept(old(docs), docs) && (AllCalm(old(docs)) ==> docs.Keys == old(docs).Keys)
      ensures up && sendOk && AllCalm(old(docs)) ==>
                forall id :: OnWire(wire, id) == OnWire(old(wire), id) + (if id in old(docs) then [OpenDoc] else [])
    {
      connecting := false;
      if !up {
        AllKeptSelf(docs);
        ResolvePendingSyncs(false);
        ScheduleReconnect();
        return;
      }
      socket, backoff, awaitingPong := true, BACKOFF_MIN, false;
      OpenDocs(sendOk, freshId);
    }

    method OpenDocs(sendOk: bool, freshId: nat)
      requires home in docs && socket && !connecting && BACKOFF_MIN <= backoff <= BACKOFF_MAX
      requires forall id :: id in docs ==> !Online(docs[id])
      modifies this
      ensures AtRest() && !connecting && AllKept(old(docs), docs)
      ensures sendOk ==> (socket <==> Survives(old(docs), home))
      ensures AllCalm(old(docs)) ==> AllCalm(docs) && docs.Keys == old(docs).Keys && (sendOk ==> socket)
      ensures sendOk && AllCalm(old(docs)) ==>
                forall id :: OnWire(wire, id) == OnWire(old(wire), id) + (if id in old(docs) then [OpenDoc] else [])
    {
      ConnectAll();
      ghost var opening := docs;
      ConnectedSurvive(old(docs), docs, home);
      if AllCalm(old(docs)) {
        ConnectedPrimed(old(docs));
        ConnectedRemain(old(docs), home);
        CalmSurvives(old(docs), home);
      }
      Pump(sendOk, freshId);
      KeptOn(old(docs), opening, docs);
      if sendOk && AllCalm(old(docs)) { OpensAll(old(wire), wire, old(docs)); }
    }

    /** One engine's frames leave for the wire. */
    method SendOutbox(id: nat)
      requires id in docs
      modifies this`docs, this`wire
      ensures docs == old(docs)[id := Emptied(old(docs)[id])]
      ensures Wired(old(wire), wire, old(docs), {id})
    {
      ghost var sent := 0;
      while docs[id].e.outbox != []
        invariant sent <= |old(docs)[id].e.outbox|
        invariant docs == old(docs)[id := Unsent(old(docs)[id], sent)]
        invariant forall other :: OnWire(wire, other) ==
                    OnWire(old(wire), other) + (if other == id then old(docs)[id].e.outbox[..sent] else [])
        decreases |docs[id].e.outbox|
      {
        var frame := docs[id].e.outbox[0];
        ghost var was := wire;
        docs := docs[id := Apply(docs[id], Pop)];
        wire := wire + [(id, frame)];
        sent := sent + 1;
        forall other { OnWireMore(was, id, frame, other); }
      }
    }

    /** Every engine's frames leave for the wire. */
    method SendOutboxes()
      modifies this`docs, this`wire
      ensures docs == Each(old(docs), Emptied)
      ensures Wired(old(wire), wire, old(docs), old(docs).Keys)
    {
      var rest := docs.Keys;
      while rest != {}
        invariant rest <= old(docs).Keys
        invariant docs == EachIn(old(docs), old(docs).Keys - rest, Emptied)
        invariant Wired(old(wire), wire, old(docs), old(docs).Keys - rest)
      {
        var id :| id in rest;
        rest := rest - {id};
        SendOutbox(id);
      }
    }

    /** Every engine's events, in turn, tagged by doc. */
    method DrainEvents() returns (drained: seq<(nat, Event)>)
      modifies this`docs
      ensures docs == Each(old(docs), Quieted)
      ensures forall id, ev :: id in old(docs) && ev in old(docs)[id].e.events <==> (id, ev) in drained
    {
      drained := [];
      var rest := docs.Keys;
      while rest != {}
        invariant rest <= docs.Keys && docs == old(docs)
        invariant forall id, ev :: id in docs && id !in rest && ev in docs[id].e.events <==> (id, ev) in drained
      {
        var id :| id in rest;
        rest := rest - {id};
        var events := docs[id].e.events;
        var tagged := seq(|events|, i requires 0 <= i < |events| => (id, events[i]));
        forall ev | ev in events ensures (id, ev) in tagged {
          var i :| 0 <= i < |events| && events[i] == ev;
          assert tagged[i] == (id, ev);
        }
        drained := drained + tagged;
      }
      ForEachEngine(Quieted);
    }

    /** Send what the engines queued, then act on what they said. Afterwards
        the socket is up only if the home engine is. A send that fails leaves
        everything said unread; with nothing to send, none does. */
    method Pump(sendOk: bool, freshId: nat)
      requires Valid()
      modifies this
      ensures AtRest() && connecting == old(connecting)
      ensures !old(socket) ==> !socket
      ensures old(socket) && (sendOk || NothingQueued(old(docs))) ==> (socket <==> Survives(old(docs), home))
      ensures old(socket) && !sendOk && !NothingQueued(old(docs)) ==> !socket && docs == ForAll(old(docs), Dropped)
      ensures Primed(old(docs)) ==> AllCalm(docs)
      ensures AllKept(old(docs), docs)
      ensures Pumped(old(docs), home, old(socket), sendOk, docs.Keys, old(wire), wire)
      ensures Answered(old(pendingSyncs), old(resolved), pendingSyncs, resolved,
                       PulledInitial in old(docs)[home].e.events,
                       SendFails(old(socket), sendOk, old(docs)) || !Survives(old(docs), home))
    {
      if socket && !sendOk && !NothingQueued(docs) {
        GiveUp();
        return;
      }
      SendAndRead(freshId);
    }

    method SendAndRead(freshId: nat)
      requires Valid()
      modifies this
      ensures AtRest() && connecting == old(connecting)
      ensures !old(socket) ==> !socket
      ensures old(socket) ==> (socket <==> Survives(old(docs), home))
      ensures AllSteady(old(docs), {}) ==> AllCalm(docs)
      ensures AllKept(old(docs), docs) && docs.Keys == Remaining(old(docs), home)
      ensures if old(socket) then Wired(old(wire), wire, old(docs), old(docs).Keys) else wire == old(wire)
      ensures Answered(old(pendingSyncs), old(resolved), pendingSyncs, resolved,
                       PulledInitial in old(docs)[home].e.events, !Survives(old(docs), home))
    {
      if AllSteady(docs, {}) { PumpedCalm(docs, socket); }
      EmptiedKept(docs);
      EmptiedSame(docs, home);
      AllKeptSelf(docs);
      if socket {
        SendOutboxes();
      }
      ghost var said := docs;
      ReadAll(freshId);
      KeptOn(old(docs), said, docs);
    }

    ghost function AtDesk(): Desk
      reads this
    {
      Desk(docs, socket, pendingSyncs, resolved)
    }

    /** Act on what every engine said, and forget the docs the server closed. */
    method ReadAll(freshId: nat)
      requires Valid()
      modifies this
      ensures AtRest() && connecting == old(connecting) && wire == old(wire)
      ensures !old(socket) ==> !socket
      ensures old(socket) ==> (socket <==> Survives(old(docs), home))
      ensures AllCalm(Each(old(docs), Quieted)) ==> AllCalm(docs)
      ensures AllKept(old(docs), docs) && docs.Keys == Remaining(old(docs), home)
      ensures Answered(old(pendingSyncs), old(resolved), pendingSyncs, resolved,
                       PulledInitial in old(docs)[home].e.events, !Survives(old(docs), home))
    {
      EmptiedKept(docs);
      var drained := DrainEvents();
      SpokenKills(old(docs), drained, home);
      ClosedDocsSaid(old(docs), drained, home);
      AllReadOrNone(old(docs), drained, home);
      ghost var quiet := docs;
      var gone := ReadEvents(drained, freshId);
      KeptOn(old(docs), quiet, docs);
      // The program drops the socket here if the home engine is down; it
      // never is.
      if socket && !Online(docs[home]) {
        assert false;
      }
      KeptLess(old(docs), docs, gone);
      docs := docs - gone;
    }

    /** Act on each event; the docs to forget are left for afterwards. */
    method ReadEvents(drained: seq<(nat, Event)>, freshId: nat) returns (gone: set<nat>)
      requires home in docs && BACKOFF_MIN <= backoff <= BACKOFF_MAX && (connecting ==> !socket)
      modifies this
      ensures BACKOFF_MIN <= backoff <= BACKOFF_MAX && connecting == old(connecting) && wire == old(wire)
      ensures Reads(old(AtDesk()), home, Pulls(drained, home), !NoneKills(drained, home), AtDesk())
      ensures gone == ClosedDocs(drained, home)
    {
      gone := {};
      ReadsNone(AtDesk(), home);
      for i := 0 to |drained|
        invariant home in docs && BACKOFF_MIN <= backoff <= BACKOFF_MAX && (connecting ==> !socket)
        invariant connecting == old(connecting) && wire == old(wire)
        invariant Reads(old(AtDesk()), home, Pulls(drained[..i], home), !NoneKills(drained[..i], home), AtDesk())
        invariant gone == ClosedDocs(drained[..i], home)
      {
        var forget := ReadNext(drained, i, freshId, old(AtDesk()));
        ClosedNext(drained, home, i);
        if forget {
          gone := gone + {drained[i].0};
        }
      }
      assert drained[..|drained|] == drained;
    }

    method ReadNext(drained: seq<(nat, Event)>, i: nat, freshId: nat, ghost first: Desk) returns (forget: bool)
      requires i < |drained|
      requires home in docs && BACKOFF_MIN <= backoff <= BACKOFF_MAX && (connecting ==> !socket)
      requires Reads(first, home, Pulls(drained[..i], home), !NoneKills(drained[..i], home), AtDesk())
      modifies this
      ensures forget <==> drained[i].1.ClosedByServer? && drained[i].0 != home
      ensures BACKOFF_MIN <= backoff <= BACKOFF_MAX && connecting == old(connecting) && wire == old(wire)
      ensures home in docs && (connecting ==> !socket)
      ensures Reads(first, home, Pulls(drained[..i + 1], home), !NoneKills(drained[..i + 1], home), AtDesk())
    {
      forget := ReadEvent(drained[i].0, drained[i].1, freshId);
      ReadsOn(first, old(AtDesk()), AtDesk(), home, drained, i);
    }

    method ReadEvent(id: nat, ev: Event, freshId: nat) returns (forget: bool)
      requires home in docs && BACKOFF_MIN <= backoff <= BACKOFF_MAX && (connecting ==> !socket)
      modifies this
      ensures forget <==> ev.ClosedByServer? && id != home
      ensures BACKOFF_MIN <= backoff <= BACKOFF_MAX && connecting == old(connecting) && wire == old(wire)
      ensures (connecting ==> !socket)
      ensures Reads(old(AtDesk()), home, id == home && ev.PulledInitial?, Kills(id, ev, home), AtDesk())
    {
      forget := false;
      ReadsNone(AtDesk(), home);
      if ev.PulledInitial? && id == home && 0 < pendingSyncs {
        FlushPending(freshId);
      } else if ev.Error? {
        GiveUp();
      } else if ev.ClosedByServer? {
        if id != home {
          forget := true;
        } else {
          GiveUp();
        }
      }
    }

    method FlushPending(freshId: nat)
      requires home in docs
      modifies this`docs, this`pendingSyncs, this`resolved
      ensures docs.Keys == old(docs).Keys
      ensures forall id :: id in docs ==> (Online(docs[id]) <==> Online(old(docs)[id]))
      ensures pendingSyncs == 0 && resolved == old(resolved) + seq(old(pendingSyncs), _ => true)
      ensures AllCalm(old(docs)) ==> AllCalm(docs)
      ensures AllKept(old(docs), docs)
    {
      AllCalledKept(docs, FlushCall(freshId));
      ForEachEngine(s => Apply(s, FlushCall(freshId)));
      AllFlushedTold(old(docs), freshId);
      if AllCalm(old(docs)) { FlushedCalm(old(docs), freshId); }
      ResolvePendingSyncs(true);
    }

    // ---- the loop's other turns ----

    method RouteServerBytes(input: Inbound, freshId: nat)
      requires Valid()
      modifies this`docs
      ensures Valid() && docs == Routed(old(docs), home, input, freshId)
    {
      var target := Target(input, home);
      if target in docs {
        CallTold(docs[target], Bytes(input, freshId));
        docs := docs[target := Apply(docs[target], Bytes(input, freshId))];
      }
    }

    /** `stored` is whether the storage took it all; if not, the engines in
        `reached` were persisted before it failed, and nobody reads what any
        engine said. */
    method OnWsMessage(input: Inbound, stored: bool, reached: set<nat>, sendOk: bool, freshId: nat)
      requires AtRest() && socket
      modifies this
      ensures AtRest() && connecting == old(connecting)
      ensures var r := Routed(old(docs), home, input, freshId);
              !stored ==> !socket && docs == ForAll(EachIn(r, reached, Persisted), Dropped)
      ensures stored && AllCalm(old(docs)) ==> AllCalm(docs)
      ensures stored ==> TookAlone(old(docs), Target(input, home), Bytes(input, freshId), docs)
      ensures stored && AllCalm(old(docs)) ==>
                docs.Keys == old(docs).Keys - Taken(old(docs), home, Target(input, home), Bytes(input, freshId))
      ensures stored && sendOk && AllCalm(old(docs)) ==>
                var t, call := Target(input, home), Bytes(input, freshId);
                SentOnly(old(wire), wire, t, if t in old(docs) then Replies(old(docs)[t], call) else [])
      ensures stored ==>
                SyncsKept(old(pendingSyncs), old(resolved), pendingSyncs, resolved, socket,
                          AllCalm(old(docs)) && EndsHomePull(old(docs), home, input, freshId))
    {
      RouteServerBytes(input, freshId);
      if !stored {
        ForEachIn(reached, Persisted);
        GiveUp();
        return;
      }
      PersistAndPump(sendOk, freshId);
      RoutedTook(old(docs), home, input, freshId, docs);
      MessageSyncs(old(docs), home, input, freshId, old(pendingSyncs), old(resolved), pendingSyncs, resolved, socket);
      if AllCalm(old(docs)) {
        RoutedCalm(old(docs), home, input, freshId, sendOk, docs.Keys, old(wire), wire);
      }
    }

    method PersistAndPump(sendOk: bool, freshId: nat)
      requires Valid() && socket
      modifies this
      ensures AtRest() && connecting == old(connecting) && AllDurable(old(docs), docs)
      ensures var p := AllPersisted(old(docs));
              && (Primed(p) ==> AllCalm(docs))
              && Pumped(p, home, true, sendOk, docs.Keys, old(wire), wire)
              && Answered(old(pendingSyncs), old(resolved), pendingSyncs, resolved, PulledInitial in p[home].e.events,
                          !socket)
    {
      PersistAll();
      ghost var stored := docs;
      Pump(sendOk, freshId);
      DurableOn(old(docs), stored, docs);
    }

    method OnSocketClosed()
      requires AtRest() && socket
      modifies this
      ensures AtRest() && !socket && docs == ForAll(old(docs), Dropped)
      ensures AllCalm(old(docs)) ==> AllCalm(docs)
      ensures AllKept(old(docs), docs) && docs.Keys == old(docs).Keys && wire == old(wire)
    {
      GiveUp();
    }

    /** A command or a mirror's import changed a doc here: durable, then on
        the wire. */
    method OnCommand(id: nat, ops: set<Op>, sendOk: bool, freshId: nat)
      requires AtRest() && id in docs
      modifies this
      ensures AtRest() && connecting == old(connecting)
      ensures AllCalm(old(docs)) ==> AllCalm(docs) && docs.Keys == old(docs).Keys
      ensures CommittedAlone(old(docs), id, ops, freshId, docs)
      ensures old(socket) && sendOk && AllCalm(old(docs)) ==>
                SentOnly(old(wire), wire, id,
                         if Starts(old(docs)[id], ops) then [PushFor(old(docs)[id], ops, freshId)] else [])
    {
      CallTold(docs[id], Commit(ops));
      docs := docs[id := Apply(docs[id], Commit(ops))];
      PersistFlushPump(freshId, sendOk);
      CommandTook(old(docs), id, ops, freshId, docs);
      if AllCalm(old(docs)) {
        CommandCalm(old(docs), id, ops, freshId, home, old(socket), sendOk, docs.Keys, old(wire), wire);
      }
    }

    method PersistFlushPump(freshId: nat, sendOk: bool)
      requires Valid()
      modifies this
      ensures AtRest() && connecting == old(connecting)
      ensures var p := FlushedAll(old(docs), freshId);
              && (Primed(p) ==> AllCalm(docs)) && AllKept(p, docs)
              && Pumped(p, home, old(socket), sendOk, docs.Keys, old(wire), wire)
    {
      PersistAll();
      FlushAndPump(freshId, sendOk);
    }

    method FoldAll()
      requires Valid()
      modifies this`docs
      ensures Valid() && docs == Each(old(docs), Folded) && docs.Keys == old(docs).Keys
      ensures AllCalm(old(docs)) ==> AllCalm(docs)
      ensures forall id :: id in docs ==> (Online(docs[id]) <==> Online(old(docs)[id]))
    {
      ForEachEngine(Folded);
      AllFoldedTold(old(docs));
      if AllCalm(old(docs)) { FoldedCalm(old(docs)); }
    }

    method TimeoutAll()
      requires Valid()
      modifies this`docs
      ensures Valid() && docs == Each(old(docs), s => Apply(s, Tick)) && AllKept(old(docs), docs)
    {
      ForEachEngine(s => Apply(s, Tick));
      AllTimedOut(old(docs));
      AllCalledKept(old(docs), Tick);
    }

    method OnPersistTick(handshakeLate: bool, sendOk: bool, freshId: nat)
      requires AtRest()
      modifies this
      ensures AtRest() && AllDurable(old(docs), docs)
      ensures AllCalm(old(docs)) ==>
                AllCalm(docs) && docs.Keys == old(docs).Keys && forall id :: OnWire(wire, id) == OnWire(old(wire), id)
    {
      PersistAndFold();
      ghost var folded := docs;
      if socket {
        TimeoutFlushPump(handshakeLate, sendOk, freshId);
        DurableOn(old(docs), folded, docs);
      }
    }

    method PersistAndFold()
      requires Valid()
      modifies this`docs
      ensures Valid() && AllDurable(old(docs), docs) && docs.Keys == old(docs).Keys
      ensures Online(docs[home]) <==> Online(old(docs)[home])
      ensures AllCalm(old(docs)) ==> AllCalm(docs)
    {
      PersistAll();
      FoldedDurable(old(docs), docs);
      FoldAll();
    }

    method TimeoutFlushPump(handshakeLate: bool, sendOk: bool, freshId: nat)
      requires AtRest() && socket
      modifies this
      ensures AtRest() && AllKept(old(docs), docs)
      ensures AllCalm(old(docs)) ==>
                AllCalm(docs) && docs.Keys == old(docs).Keys && forall id :: OnWire(wire, id) == OnWire(old(wire), id)
    {
      if AllCalm(docs) { TickPrimed(docs, handshakeLate, freshId); }
      AllKeptSelf(docs);
      if handshakeLate {
        TimeoutAll();
      }
      ghost var timed := docs;
      FlushAndPump(freshId, sendOk);
      KeptOn(old(docs), timed, docs);
      if AllCalm(old(docs)) {
        QuietFlush(old(docs), handshakeLate, freshId, home, true, sendOk, docs.Keys, old(wire), wire);
      }
    }

    method OnPingTick(pingOk: bool)
      requires AtRest() && socket
      modifies this
      ensures AtRest()
      ensures AllCalm(old(docs)) ==> AllCalm(docs)
      ensures AllKept(old(docs), docs) && docs.Keys == old(docs).Keys && wire == old(wire)
      ensures socket == (!old(awaitingPong) && pingOk) && awaitingPong == socket
    {
      AllKeptSelf(docs);
      if awaitingPong {
        GiveUp();
        return;
      }
      if pingOk {
        awaitingPong := true;
      } else {
        GiveUp();
      }
    }

    method OnPong()
      requires AtRest() && socket
      modifies this`awaitingPong
      ensures AtRest() && !awaitingPong
    {
      awaitingPong := false;
    }

    method FlushAndPump(freshId: nat, sendOk: bool)
      requires Valid()
      modifies this
      ensures AtRest() && connecting == old(connecting) && AllKept(old(docs), docs)
      ensures var p := ForAll(old(docs), FlushCall(freshId));
              && (Primed(p) ==> AllCalm(docs)) && AllKept(p, docs)
              && Pumped(p, home, old(socket), sendOk, docs.Keys, old(wire), wire)
    {
      FlushAll(freshId);
      ghost var p := docs;
      Pump(sendOk, freshId);
      KeptOn(old(docs), p, docs);
    }

    method AllIdle() returns (idle: bool)
      ensures idle <==> Resting(docs)
    {
      idle := forall id :: id in docs ==> docs[id].e.state == Idle;
    }

    /** Answered at once if every engine is idle on a socket, and parked until
        the pull completes or the connection is lost if not. */
    method OnSyncRequest(freshId: nat, sendOk: bool)
      requires AtRest()
      modifies this
      ensures AtRest() && AllDurable(old(docs), docs)
      ensures AllCalm(old(docs)) ==> AllCalm(docs) && docs.Keys == old(docs).Keys
      ensures !(old(socket) && Resting(old(docs))) ==> pendingSyncs == old(pendingSyncs) + 1 && socket == old(socket)
    {
      PersistForSync();
      ghost var stored := docs;
      SyncNowOrLater(freshId, sendOk);
      DurableOn(old(docs), stored, docs);
    }

    method PersistForSync()
      requires AtRest()
      modifies this`docs
      ensures AtRest() && AllDurable(old(docs), docs) && docs.Keys == old(docs).Keys
      ensures AllCalm(old(docs)) ==> AllCalm(docs)
      ensures Resting(docs) <==> Resting(old(docs))
    {
      PersistAll();
      PersistedResting(old(docs));
    }

    method SyncNowOrLater(freshId: nat, sendOk: bool)
      requires AtRest()
      modifies this
      ensures AtRest() && AllKept(old(docs), docs)
      ensures AllCalm(old(docs)) ==> AllCalm(docs) && docs.Keys == old(docs).Keys
      ensures !(old(socket) && Resting(old(docs))) ==> pendingSyncs == old(pendingSyncs) + 1 && socket == old(socket)
    {
      var idle := AllIdle();
      if socket && idle {
        if AllCalm(docs) { TickPrimed(docs, false, freshId); }
        FlushAndPump(freshId, sendOk);
        if AllCalm(old(docs)) {
          QuietFlush(old(docs), false, freshId, home, true, sendOk, docs.Keys, old(wire), wire);
        }
      } else {
        AllKeptSelf(docs);
        pendingSyncs := pendingSyncs + 1;
      }
    }

    method OnReconnectRequest()
      requires AtRest()
      modifies this
      ensures AtRest() && !socket
      ensures AllCalm(old(docs)) ==> AllCalm(docs)
      ensures AllKept(old(docs), docs) && docs.Keys == old(docs).Keys && wire == old(wire)
    {
      AllKeptSelf(docs);
      backoff := BACKOFF_MIN;
      if socket {
        GiveUp();
      }
    }

    /** A workspace created here opens on a live socket at once. */
    method OnCreateDoc(id: nat, s: Sys, sendOk: bool, freshId: nat)
      requires AtRest() && id !in docs && !Online(s)
      modifies this
      ensures AtRest()
      ensures id in docs ==> Keeps(s, docs[id]) && (Coherent(s) ==> AtFrontier(docs[id]))
      ensures AllDurable(old(docs), docs - {id})
      ensures AllCalm(old(docs)) && Calm(s.e) ==> AllCalm(docs) && docs.Keys == old(docs).Keys + {id}
      ensures old(socket) && sendOk && AllCalm(old(docs)) && Calm(s.e) ==> SentOnly(old(wire), wire, id, [OpenDoc])
    {
      docs := docs[id := if socket then Apply(s, Connected) else s];
      ghost var made := docs;
      PersistFlushPump(freshId, sendOk);
      FlushedDurable(made, freshId, docs);
      CreatedKept(old(docs), id, s, old(socket), docs);
      if AllCalm(old(docs)) && Calm(s.e) {
        CreatedCalm(old(docs), id, s, freshId, home, old(socket), sendOk, docs.Keys, old(wire), wire);
      }
    }

    /** Never Home. */
    method ForgetDoc(id: nat) returns (ok: bool)
      requires AtRest()
      modifies this`docs
      ensures AtRest() && (ok <==> id != home)
      ensures AllCalm(old(docs)) ==> AllCalm(docs)
      ensures docs == if ok then old(docs) - {id} else old(docs)
    {
      if id == home {
        return false;
      }
      docs := docs - {id};
      ok := true;
    }
  }

  lemma UnreadAfter(docs: Session, home: nat, freshId: nat)
    requires home in docs && Online(docs[home])
    ensures !Survives(ForAll(EachIn(Routed(docs, home, Undecodable, freshId), {}, Persisted), Dropped), home)
  {
    var ev := Error("decode ServerFrame");
    var r := Apply(docs[home], Bytes(Undecodable, freshId));
    var left := ForAll(EachIn(Routed(docs, home, Undecodable, freshId), {}, Persisted), Dropped);
    assert r.e.events == docs[home].e.events + [ev];
    assert ev in r.e.events;
    assert left[home] == Apply(r, Dropped) && ev in left[home].e.events && Kills(home, ev, home);
  }

  /** A run that leaves a fatal event unread: bytes that do not decode, and a
      storage that fails before the host reads what the engine said of them. */
  method LeavesUnread(home: nat, docs: Session, freshId: nat) returns (h: Host)
    requires home in docs && Survives(docs, home) && forall id :: id in docs ==> !Online(docs[id])
    ensures fresh(h) && h.AtRest() && h.connecting && !Survives(h.docs, h.home)
  {
    h := new Host(home, docs);
    h.StartConnect();
    h.OnConnectResult(true, true, freshId);
    UnreadAfter(h.docs, home, freshId);
    h.OnWsMessage(Undecodable, false, {}, true, freshId);
    h.StartConnect();
  }

  /** The connection after it succeeds, sends, and is taken down at once. */
  method TakenDownAtOnce(home: nat, docs: Session, freshId: nat) returns (h: Host)
    requires home in docs && Survives(docs, home) && forall id :: id in docs ==> !Online(docs[id])
    ensures fresh(h) && h.AtRest() && !h.socket && !h.connecting
  {
    h := LeavesUnread(home, docs, freshId);
    h.OnConnectResult(true, true, freshId);
    assert !h.socket;
  }
}

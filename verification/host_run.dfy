/** A host from boot, turn after turn: while the storage takes what it is given
    nothing fatal is left unread, and no socket is taken down as it comes up. */
module HostRun {
  import opened Wrappers
  import opened Operations
  import opened Protocol
  import opened LocalStore
  import opened EngineSpec
  import opened EngineCoherence
  import opened EngineCalm
  import opened EngineDisk
  import EngineLaws
  import CallInvariant
  import opened HostSession
  import opened HostKeeping
  import opened HostConnection

  /** A turn of the loop whose storage calls succeed. */
  datatype Turn =
    | Dial
    | DialEnds(up: bool, sendOk: bool, id: nat)
    | Message(input: Inbound, sendOk: bool, id: nat)
    | SocketClosed
    | Command(doc: nat, ops: set<Op>, sendOk: bool, id: nat)
    | PersistTick(handshakeLate: bool, sendOk: bool, id: nat)
    | PingTick(pingOk: bool)
    | Pong
    | SyncRequest(sendOk: bool, id: nat)
    | ReconnectRequest
    | Create(doc: nat, stored: Store, sendOk: bool, id: nat)
    | Forget(doc: nat)

  /** What a store holds where version vectors are: version vectors; and its
      rows in the order they were numbered. */
  ghost predicate Bootable(st: Store) {
    Closed(st.knownVV) && (st.inFlight.Some? ==> Closed(st.inFlight.value.toVV)) && Ordered(st)
  }

  /** Every engine stands as its storage does, its frontier is the stored
      cursor, and it is the engine of its doc. */
  ghost predicate Stands(docs: Session) {
    forall id {:trigger StandsOne(id, docs[id])} :: id in docs ==> StandsOne(id, docs[id])
  }

  ghost predicate StandsOne(id: nat, s: Sys) { Coherent(s) && AtFrontier(s) && s.e.docId == id }

  /** Nothing a doc held is gone, from memory or from disk. */
  ghost predicate Grown(a: Sys, b: Sys) {
    a.e.doc.ops <= b.e.doc.ops && Saved(a) <= Saved(b) && a.e.contig <= b.e.contig && a.e.known <= b.e.known
  }

  /** The docs of `docs` are all still there and none has lost anything, but
      for those in `gone`, which is never Home. */
  ghost predicate AllGrown(docs: Session, gone: set<nat>, r: Session) {
    && docs.Keys - gone <= r.Keys
    && forall id {:trigger Grown(docs[id], r[id])} :: id in docs && id in r ==> Grown(docs[id], r[id])
  }

  function Booted(id: nat, c: Codec, st: Store): Sys { Sys(EngineSpec.Boot(id, c, st), st, [st]) }

  lemma BootedCalm(id: nat, c: Codec, st: Store)
    requires c.Valid() && Bootable(st)
    ensures Calm(Booted(id, c, st).e) && !Online(Booted(id, c, st))
    ensures StandsOne(id, Booted(id, c, st)) && Saved(Booted(id, c, st)) == Durable(st)
  {
    BootIsCalm(id, c, st);
    BootIsCoherent(id, c, st, [st]);
    CallInvariant.ReplayIsDurable(c, st);
  }

  /** The doc a turn may take from the host: one it is told to forget, or one
      the server closed. */
  function LetGo(docs: Session, home: nat, turn: Turn): set<nat> {
    match turn
    case Forget(doc) => if doc == home then {} else {doc}
    case Message(input, _, id) => Taken(docs, home, Target(input, home), Bytes(input, id))
    case _ => {}
  }

  lemma KeptStands(docs: Session, r: Session)
    requires AllKept(docs, r) && Stands(docs)
    ensures Stands(r) && AllGrown(docs, docs.Keys - r.Keys, r)
  {
    forall id | id in r ensures StandsOne(id, r[id]) && Grown(docs[id], r[id]) {
      assert Keeps(docs[id], r[id]) && StandsOne(id, docs[id]);
    }
  }

  lemma TookStands(docs: Session, t: nat, call: Call, r: Session)
    requires TookAlone(docs, t, call, r) && Stands(docs)
    ensures Stands(r) && AllGrown(docs, docs.Keys - r.Keys, r)
  {
    forall id | id in r ensures StandsOne(id, r[id]) && Grown(docs[id], r[id]) {
      assert StandsOne(id, docs[id]);
      assert id != t ==> Keeps(docs[id], r[id]);
    }
  }

  lemma CommittedStands(docs: Session, t: nat, ops: set<Op>, freshId: nat, r: Session)
    requires t in docs && CommittedAlone(docs, t, ops, freshId, r) && Stands(docs)
    ensures Stands(r) && AllGrown(docs, docs.Keys - r.Keys, r)
  {
    forall id | id in r ensures StandsOne(id, r[id]) && Grown(docs[id], r[id]) {
      assert StandsOne(id, docs[id]);
      assert id != t ==> Keeps(docs[id], r[id]);
    }
  }

  lemma CreatedStands(docs: Session, t: nat, s: Sys, r: Session)
    requires t !in docs && t in r && AllDurable(docs, r - {t}) && Keeps(s, r[t]) && StandsOne(t, s) && Stands(docs)
    requires r.Keys == docs.Keys + {t}
    ensures Stands(r) && AllGrown(docs, {}, r)
  {
    KeptStands(docs, r - {t});
    forall id | id in r ensures StandsOne(id, r[id]) && (id in docs ==> Grown(docs[id], r[id])) {
      if id != t {
        var o := r - {t};
        assert StandsOne(id, o[id]) && Grown(docs[id], o[id]);
      }
    }
  }

  /** One turn, if the host is where it can be taken. `lost` is whether a
      connection that came up, and could send, was lost in it. */
  method Take(h: Host, c: Codec, turn: Turn) returns (lost: bool)
    requires h.AtRest() && AllCalm(h.docs) && Stands(h.docs)
    requires c.Valid() && (turn.Create? ==> Bootable(turn.stored))
    modifies h
    ensures h.AtRest() && AllCalm(h.docs) && !lost
    ensures Stands(h.docs) && AllGrown(old(h.docs), LetGo(old(h.docs), h.home, turn), h.docs)
  {
    lost := false;
    AllKeptSelf(h.docs);
    KeptStands(h.docs, h.docs);
    match turn {
      case Dial => if !h.socket && !h.connecting { h.StartConnect(); }
      case DialEnds(up, sendOk, id) => lost := TakeDial(h, up, sendOk, id);
      case Message(input, sendOk, id) =>
        if h.socket {
          h.OnWsMessage(input, true, {}, sendOk, id);
          TookStands(old(h.docs), Target(input, h.home), Bytes(input, id), h.docs);
        }
      case Command(doc, ops, sendOk, id) =>
        if doc in h.docs {
          h.OnCommand(doc, ops, sendOk, id);
          CommittedStands(old(h.docs), doc, ops, id, h.docs);
        }
      case Create(doc, stored, sendOk, id) =>
        if doc !in h.docs {
          BootedCalm(doc, c, stored);
          h.OnCreateDoc(doc, Booted(doc, c, stored), sendOk, id);
          CreatedStands(old(h.docs), doc, Booted(doc, c, stored), h.docs);
        }
      case Forget(doc) =>
        var ok := h.ForgetDoc(doc);
      case _ => TakeQuiet(h, turn);
    }
  }

  method TakeDial(h: Host, up: bool, sendOk: bool, id: nat) returns (lost: bool)
    requires h.AtRest() && AllCalm(h.docs) && Stands(h.docs)
    modifies h
    ensures h.AtRest() && AllCalm(h.docs) && !lost
    ensures Stands(h.docs) && AllGrown(old(h.docs), {}, h.docs)
  {
    lost := false;
    AllKeptSelf(h.docs);
    if h.connecting {
      h.OnConnectResult(up, sendOk, id);
      lost := up && sendOk && !h.socket;
    }
    KeptStands(old(h.docs), h.docs);
  }

  /** The turns that bring nothing new. */
  method TakeQuiet(h: Host, turn: Turn)
    requires h.AtRest() && AllCalm(h.docs) && Stands(h.docs)
    requires turn.SocketClosed? || turn.PersistTick? || turn.PingTick? || turn.Pong? || turn.SyncRequest?
             || turn.ReconnectRequest?
    modifies h
    ensures h.AtRest() && AllCalm(h.docs)
    ensures Stands(h.docs) && AllGrown(old(h.docs), {}, h.docs)
  {
    AllKeptSelf(h.docs);
    match turn {
      case SocketClosed => if h.socket { h.OnSocketClosed(); }
      case PersistTick(late, sendOk, id) => h.OnPersistTick(late, sendOk, id);
      case PingTick(ok) => if h.socket { h.OnPingTick(ok); }
      case Pong => if h.socket { h.OnPong(); }
      case SyncRequest(sendOk, id) => h.OnSyncRequest(id, sendOk);
      case ReconnectRequest => h.OnReconnectRequest();
    }
    KeptStands(old(h.docs), h.docs);
  }

  /** A turn that cannot take the doc `id` from the host. */
  predicate Spares(turn: Turn, id: nat) {
    && turn != Forget(id)
    && (turn.Message? && turn.input.Frame? && turn.input.doc == id ==>
          !turn.input.frame.DocRejected? && !turn.input.frame.DocClosed?)
  }

  /** `id` is still here, and has on disk what was stored. */
  ghost predicate Holds(docs: Session, id: nat, st: Store) { id in docs && Durable(st) <= Saved(docs[id]) }

  /** So is every stored doc that no turn of `turns` could take away, and Home
      whatever they were. */
  ghost predicate AllHeld(stores: map<nat, Store>, home: nat, turns: seq<Turn>, docs: Session) {
    forall id {:trigger Holds(docs, id, stores[id])} ::
      id in stores && (id == home || forall turn :: turn in turns ==> Spares(turn, id)) ==> Holds(docs, id, stores[id])
  }

  lemma SparedStays(docs: Session, home: nat, turn: Turn, id: nat)
    requires id == home || Spares(turn, id)
    ensures id !in LetGo(docs, home, turn)
  {}

  lemma HeldOn(stores: map<nat, Store>, home: nat, turns: seq<Turn>, i: nat, docs: Session, r: Session)
    requires i < |turns| && AllHeld(stores, home, turns[..i], docs) && AllGrown(docs, LetGo(docs, home, turns[i]), r)
    ensures AllHeld(stores, home, turns[..i + 1], r)
  {
    forall id | id in stores && (id == home || forall turn :: turn in turns[..i + 1] ==> Spares(turn, id))
      ensures Holds(r, id, stores[id])
    {
      assert turns[i] in turns[..i + 1] && forall turn :: turn in turns[..i] ==> turn in turns[..i + 1];
      assert Holds(docs, id, stores[id]);
      SparedStays(docs, home, turns[i], id);
      assert Grown(docs[id], r[id]);
    }
  }

  method Boot(home: nat, c: Codec, stores: map<nat, Store>) returns (h: Host)
    requires c.Valid() && home in stores && forall id :: id in stores ==> Bootable(stores[id])
    ensures fresh(h) && h.home == home && h.AtRest() && AllCalm(h.docs) && Stands(h.docs)
    ensures AllHeld(stores, home, [], h.docs)
  {
    var docs := map id | id in stores :: Booted(id, c, stores[id]);
    forall id | id in docs
      ensures Calm(docs[id].e) && !Online(docs[id]) && StandsOne(id, docs[id]) && Holds(docs, id, stores[id])
    {
      BootedCalm(id, c, stores[id]);
    }
    h := new Host(home, docs);
  }

  method TakeNext(h: Host, c: Codec, ghost stores: map<nat, Store>, turns: seq<Turn>, i: nat) returns (lost: bool)
    requires h.AtRest() && AllCalm(h.docs) && Stands(h.docs) && c.Valid()
    requires i < |turns| && (turns[i].Create? ==> Bootable(turns[i].stored))
    requires AllHeld(stores, h.home, turns[..i], h.docs)
    modifies h
    ensures h.AtRest() && AllCalm(h.docs) && Stands(h.docs) && !lost
    ensures AllHeld(stores, h.home, turns[..i + 1], h.docs)
  {
    lost := Take(h, c, turns[i]);
    HeldOn(stores, h.home, turns, i, old(h.docs), h.docs);
  }

  /** From whatever is stored, and through any turns: what was stored of a doc
      is held, and on disk, as long as nobody takes the doc away. */
  method RunFromBoot(home: nat, c: Codec, stores: map<nat, Store>, turns: seq<Turn>) returns (h: Host, lost: seq<bool>)
    requires c.Valid() && home in stores && forall id :: id in stores ==> Bootable(stores[id])
    requires forall turn :: turn in turns && turn.Create? ==> Bootable(turn.stored)
    ensures fresh(h) && h.AtRest() && AllCalm(h.docs) && Stands(h.docs)
    ensures |lost| == |turns| && forall i :: 0 <= i < |turns| ==> !lost[i]
    ensures AllHeld(stores, home, turns, h.docs)
  {
    h := Boot(home, c, stores);
    lost := [];
    for i := 0 to |turns|
      invariant fresh(h) && h.home == home && h.AtRest() && AllCalm(h.docs) && Stands(h.docs)
      invariant |lost| == i && forall j :: 0 <= j < i ==> !lost[j]
      invariant AllHeld(stores, home, turns[..i], h.docs)
    {
      var l := TakeNext(h, c, stores, turns, i);
      lost := lost + [l];
    }
    assert turns[..|turns|] == turns;
  }
}

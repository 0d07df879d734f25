/** The host's mirrors: windows that hold a copy of a doc. One version vector
    per subscriber drives what the host sends it. */
module Mirrors {
  import opened Wrappers
  import opened Operations

  type Update = set<Op>

  datatype Subscriber = Subscriber(doc: nat, peer: Peer, lastSent: set<Op>)

  datatype Told = Given(update: Update) | Stopped

  /** What a sink may have been told: updates that bring something, and at
      most one stop, after all of them and only to one no longer served. */
  ghost predicate WellTold(told: seq<Told>, served: bool) {
    && (forall k :: 0 <= k < |told| && told[k].Given? ==> told[k].update != {})
    && (forall k :: 0 <= k < |told| && told[k].Stopped? ==> k == |told| - 1 && !served)
  }

  /** So a window that was told so was told once, hears nothing more, and is
      served no more. */
  lemma StopIsLast(told: seq<Told>, served: bool)
    requires WellTold(told, served) && Stopped in told
    ensures !served && told[|told| - 1] == Stopped && Stopped !in told[..|told| - 1]
  {
    var k :| 0 <= k < |told| && told[k] == Stopped;
  }

  /** What a pass makes of one subscriber and its sink. A doc that is gone: one
      thing more, that it stopped, and nothing after. A doc that is open: what
      it holds past the last delivery, if anything, and no more is owed. */
  ghost predicate Served(docs: map<nat, set<Op>>, sub: Subscriber, was: seq<Told>, id: nat,
                         subs: map<nat, Subscriber>, sinks: map<nat, seq<Told>>) {
    && id in sinks
    && if sub.doc !in docs then id !in subs && sinks[id] == was + [Stopped]
       else if docs[sub.doc] <= sub.lastSent then id in subs && subs[id] == sub && sinks[id] == was
       else
         && id in subs && subs[id] == Subscriber(sub.doc, sub.peer, docs[sub.doc])
         && sinks[id] == was + [Given(docs[sub.doc] - sub.lastSent)]
  }

  ghost predicate AllWell(subs: map<nat, Subscriber>, sinks: map<nat, seq<Told>>) {
    forall id :: id in sinks ==> WellTold(sinks[id], id in subs)
  }

  /** A pass over all of them; nobody else hears anything. */
  ghost predicate AllServed(docs: map<nat, set<Op>>, subs: map<nat, Subscriber>, was: map<nat, seq<Told>>,
                            now: map<nat, Subscriber>, sinks: map<nat, seq<Told>>) {
    && now.Keys <= subs.Keys && sinks.Keys == was.Keys
    && (forall id :: id in subs && id in was ==> Served(docs, subs[id], was[id], id, now, sinks))
    && (forall id :: id in was && id !in subs ==> sinks[id] == was[id])
  }

  /** What one pass over a subscriber of `doc` hands its sink, if anything. */
  function Owed(sub: Subscriber, doc: set<Op>): seq<Told> {
    if doc <= sub.lastSent then [] else [Given(doc - sub.lastSent)]
  }

  function Caught(sub: Subscriber, doc: set<Op>): Subscriber {
    if doc <= sub.lastSent then sub else sub.(lastSent := doc)
  }

  // ---- the mirror's engine ----

  datatype MirrorEngine = MirrorEngine(ops: set<Op>, lastSent: set<Op>, outbox: seq<Update>)

  function Seeded(seed: set<Op>): MirrorEngine { MirrorEngine(seed, seed, []) }

  function Flushed(m: MirrorEngine): MirrorEngine {
    if m.ops <= m.lastSent then m
    else MirrorEngine(m.ops, m.ops, m.outbox + [m.ops - m.lastSent])
  }

  function Applied(c: Codec, m: MirrorEngine, u: Update): MirrorEngine {
    m.(ops := m.ops + u, lastSent := m.lastSent + c.bound(u))
  }

  function AppliedAll(c: Codec, m: MirrorEngine, us: seq<Update>): MirrorEngine {
    if us == [] then m else Applied(c, AppliedAll(c, m, us[..|us| - 1]), us[|us| - 1])
  }

  // ---- the host ----

  class Host {
    const codec: Codec
    var docs: map<nat, set<Op>>
    var subscribers: map<nat, Subscriber>
    var nextSubscriber: nat
    ghost var sinks: map<nat, seq<Told>>

    ghost predicate Valid()
      reads this
    {
      && subscribers.Keys <= sinks.Keys
      && (forall id :: id in sinks ==> id < nextSubscriber)
      && AllWell(subscribers, sinks)
    }

    constructor (codec: Codec)
      ensures Valid() && docs == map[] && subscribers == map[] && this.codec == codec
    {
      this.codec := codec;
      docs, subscribers, nextSubscriber, sinks := map[], map[], 0, map[];
    }

    method OpenDoc(doc: nat, ops: set<Op>)
      requires doc !in docs
      modifies this`docs
      ensures docs == old(docs)[doc := ops]
    {
      docs := docs[doc := ops];
    }

    /** The seed is the doc as it stands, and deliveries start right after. */
    method OnSubscribe(doc: nat, peer: Peer) returns (id: Option<nat>, seed: set<Op>)
      requires Valid()
      modifies this`subscribers, this`nextSubscriber, this`sinks
      ensures Valid()
      ensures id == None <==> doc !in docs
      ensures id == None ==> unchanged(this)
      ensures id.Some? ==>
                && id.value !in old(sinks) && seed == docs[doc]
                && subscribers == old(subscribers)[id.value := Subscriber(doc, peer, seed)]
                && sinks == old(sinks)[id.value := []]
    {
      if doc !in docs {
        return None, {};
      }
      seed := docs[doc];
      id := Some(nextSubscriber);
      nextSubscriber := nextSubscriber + 1;
      subscribers := subscribers[id.value := Subscriber(doc, peer, seed)];
      sinks := sinks[id.value := []];
    }

    method OnUnsubscribe(id: nat)
      requires Valid()
      modifies this`subscribers
      ensures Valid() && subscribers == old(subscribers) - {id}
    {
      subscribers := subscribers - {id};
    }

    /** A mirror's own update: into the doc, past its next delivery, and on to
        every other mirror. */
    method OnImport(id: nat, u: Update) returns (ok: bool)
      requires Valid()
      modifies this`docs, this`subscribers, this`sinks
      ensures Valid()
      ensures ok <==> id in old(subscribers) && old(subscribers)[id].doc in old(docs)
      ensures !ok ==> unchanged(this)
      ensures ok ==>
                var sub := old(subscribers)[id];
                var subs := old(subscribers)[id := sub.(lastSent := sub.lastSent + codec.bound(u))];
                && docs == old(docs)[sub.doc := old(docs)[sub.doc] + u]
                && sinks == Heard(docs, subs, old(sinks), {}) && subscribers == Kept(docs, subs)
                && AllServed(docs, subs, old(sinks), subscribers, sinks)
    {
      ok := TakeImport(id, u);
      if ok {
        FanOut();
      }
    }

    method TakeImport(id: nat, u: Update) returns (ok: bool)
      requires Valid()
      modifies this`docs, this`subscribers
      ensures Valid()
      ensures ok <==> id in old(subscribers) && old(subscribers)[id].doc in old(docs)
      ensures !ok ==> unchanged(this)
      ensures ok ==>
                var sub := old(subscribers)[id];
                && docs == old(docs)[sub.doc := old(docs)[sub.doc] + u]
                && subscribers == old(subscribers)[id := sub.(lastSent := sub.lastSent + codec.bound(u))]
    {
      if id !in subscribers || subscribers[id].doc !in docs {
        return false;
      }
      var sub := subscribers[id];
      docs := docs[sub.doc := docs[sub.doc] + u];
      subscribers := subscribers[id := sub.(lastSent := sub.lastSent + codec.bound(u))];
      ok := true;
    }

    /** A command here, or a frame from the server. */
    method OnChange(doc: nat, u: Update)
      requires doc in docs
      modifies this`docs
      ensures docs == old(docs)[doc := old(docs)[doc] + u]
    {
      docs := docs[doc := docs[doc] + u];
    }

    method CloseDoc(doc: nat)
      modifies this`docs
      ensures docs == old(docs) - {doc}
    {
      docs := docs - {doc};
    }

    /** Bring every mirror up to its doc; tell those whose doc is gone, and
        drop them. */
    method FanOut()
      requires Valid()
      modifies this`subscribers, this`sinks
      ensures Valid() && sinks == Heard(docs, old(subscribers), old(sinks), {})
      ensures subscribers == Kept(docs, old(subscribers))
      ensures AllServed(docs, old(subscribers), old(sinks), subscribers, sinks)
    {
      ServeAll();
      DroppedAreGone(docs, old(subscribers));
      subscribers := subscribers - Docless(docs, subscribers);
      PassServes(docs, old(subscribers), old(sinks));
      ServedWell(docs, old(subscribers), old(sinks), subscribers, sinks);
    }

    method ServeAll()
      requires subscribers.Keys <= sinks.Keys
      modifies this`subscribers, this`sinks
      ensures subscribers == Passed(docs, old(subscribers), {})
      ensures sinks == Heard(docs, old(subscribers), old(sinks), {})
    {
      var rest := subscribers.Keys;
      NothingHeard(docs, subscribers, sinks);
      while rest != {}
        invariant rest <= old(subscribers).Keys
        invariant subscribers == Passed(docs, old(subscribers), rest)
        invariant sinks == Heard(docs, old(subscribers), old(sinks), rest)
      {
        var id :| id in rest;
        OneMore(docs, old(subscribers), old(sinks), rest, id);
        rest := rest - {id};
        Serve(id);
      }
    }

    method Serve(id: nat)
      requires id in subscribers && id in sinks
      modifies this`subscribers, this`sinks
      ensures subscribers == old(subscribers)[id := PassedOne(docs, old(subscribers)[id])]
      ensures sinks == old(sinks)[id := old(sinks)[id] + HeardOne(docs, old(subscribers)[id])]
    {
      var sub := subscribers[id];
      assert sinks[id] + [] == sinks[id];
      if sub.doc !in docs {
        sinks := sinks[id := sinks[id] + [Stopped]];
      } else if !(docs[sub.doc] <= sub.lastSent) {
        sinks := sinks[id := sinks[id] + [Given(docs[sub.doc] - sub.lastSent)]];
        subscribers := subscribers[id := sub.(lastSent := docs[sub.doc])];
      }
    }
  }

  // ---- a pass over the subscribers, `rest` still to come ----

  function PassedOne(docs: map<nat, set<Op>>, sub: Subscriber): Subscriber {
    if sub.doc in docs then Caught(sub, docs[sub.doc]) else sub
  }

  /** The subscribers whose docs are open, caught up. */
  function Kept(docs: map<nat, set<Op>>, subs: map<nat, Subscriber>): map<nat, Subscriber> {
    map id | id in subs && subs[id].doc in docs :: Caught(subs[id], docs[subs[id].doc])
  }

  function HeardOne(docs: map<nat, set<Op>>, sub: Subscriber): seq<Told> {
    if sub.doc in docs then Owed(sub, docs[sub.doc]) else [Stopped]
  }

  function Passed(docs: map<nat, set<Op>>, subs: map<nat, Subscriber>, rest: set<nat>): map<nat, Subscriber> {
    map id | id in subs :: if id in rest then subs[id] else PassedOne(docs, subs[id])
  }

  function Heard(docs: map<nat, set<Op>>, subs: map<nat, Subscriber>, sinks: map<nat, seq<Told>>, rest: set<nat>)
    : map<nat, seq<Told>>
  {
    map id | id in sinks :: if id in subs && id !in rest then sinks[id] + HeardOne(docs, subs[id]) else sinks[id]
  }

  lemma PassServesOne(docs: map<nat, set<Op>>, subs: map<nat, Subscriber>, sinks: map<nat, seq<Told>>, id: nat)
    requires id in subs && id in sinks
    ensures Served(docs, subs[id], sinks[id], id, Kept(docs, subs), Heard(docs, subs, sinks, {}))
  {
    assert sinks[id] + [] == sinks[id];
  }

  lemma PassServes(docs: map<nat, set<Op>>, subs: map<nat, Subscriber>, sinks: map<nat, seq<Told>>)
    ensures AllServed(docs, subs, sinks, Kept(docs, subs), Heard(docs, subs, sinks, {}))
  {
    forall id | id in subs && id in sinks
      ensures Served(docs, subs[id], sinks[id], id, Kept(docs, subs), Heard(docs, subs, sinks, {}))
    {
      PassServesOne(docs, subs, sinks, id);
    }
  }

  lemma ServedWell(docs: map<nat, set<Op>>, subs: map<nat, Subscriber>, was: map<nat, seq<Told>>,
                   now: map<nat, Subscriber>, sinks: map<nat, seq<Told>>)
    requires AllServed(docs, subs, was, now, sinks) && AllWell(subs, was)
    ensures AllWell(now, sinks)
  {
    forall id | id in sinks ensures WellTold(sinks[id], id in now) {
      assert WellTold(was[id], id in subs);
      if id in subs {
        assert Served(docs, subs[id], was[id], id, now, sinks);
        if subs[id].doc in docs { Past(docs[subs[id].doc], subs[id].lastSent); }
      }
    }
  }

  lemma Past(doc: set<Op>, sent: set<Op>)
    ensures doc <= sent <==> doc - sent == {}
  {
    assert doc <= doc - sent + sent;
  }

  function Docless(docs: map<nat, set<Op>>, subs: map<nat, Subscriber>): set<nat> {
    set id | id in subs && subs[id].doc !in docs
  }

  lemma DroppedAreGone(docs: map<nat, set<Op>>, subs: map<nat, Subscriber>)
    ensures Passed(docs, subs, {}) - Docless(docs, Passed(docs, subs, {})) == Kept(docs, subs)
  {}

  lemma NothingHeard(docs: map<nat, set<Op>>, subs: map<nat, Subscriber>, sinks: map<nat, seq<Told>>)
    ensures Passed(docs, subs, subs.Keys) == subs && Heard(docs, subs, sinks, subs.Keys) == sinks
  {}

  lemma OneMore(docs: map<nat, set<Op>>, subs: map<nat, Subscriber>, sinks: map<nat, seq<Told>>,
                rest: set<nat>, id: nat)
    requires id in rest && id in subs && id in sinks
    ensures Passed(docs, subs, rest - {id}) == Passed(docs, subs, rest)[id := PassedOne(docs, subs[id])]
    ensures Passed(docs, subs, rest)[id] == subs[id] && Heard(docs, subs, sinks, rest)[id] == sinks[id]
    ensures Heard(docs, subs, sinks, rest - {id}) ==
        Heard(docs, subs, sinks, rest)[id := sinks[id] + HeardOne(docs, subs[id])]
  {}
}

/** The window's side: engines routed by doc, updates that arrive before an
    engine exists, and one chain of sends to the host. */
module MirrorBridging {
  import opened Wrappers
  import opened Operations
  import opened Mirrors

  /** What was handed to the host for one doc, in order. */
  function SentFor(sent: seq<(nat, Update)>, doc: nat): seq<Update> {
    if sent == [] then []
    else
      var rest := SentFor(sent[..|sent| - 1], doc);
      if sent[|sent| - 1].0 == doc then rest + [sent[|sent| - 1].1] else rest
  }

  lemma SentMore(sent: seq<(nat, Update)>, doc: nat, u: Update, d: nat)
    ensures SentFor(sent + [(doc, u)], d) == if d == doc then SentFor(sent, d) + [u] else SentFor(sent, d)
  {
    assert (sent + [(doc, u)])[..|sent|] == sent;
  }

  function UnionOf(us: seq<Update>): set<Op> { set u, o | u in us && o in u :: o }

  /** A seed with updates applied holds the seed and them, sends none of them
      back, and has nothing to send. */
  lemma {:induction false} AppliedAllIs(c: Codec, seed: set<Op>, us: seq<Update>)
    ensures var m := AppliedAll(c, Seeded(seed), us);
            m.ops == seed + UnionOf(us) && m.outbox == [] && seed <= m.lastSent
  {
    if us != [] {
      AppliedAllIs(c, seed, us[..|us| - 1]);
      assert forall u :: u in us <==> u in us[..|us| - 1] || u == us[|us| - 1];
    }
  }

  class MirrorBridge {
    const codec: Codec
    var engines: map<nat, MirrorEngine>
    var pending: map<nat, seq<Update>>
    var sent: seq<(nat, Update)>
    var online: bool
    var stopped: bool
    var errors: nat

    ghost predicate Valid()
      reads this
    {
      engines.Keys !! pending.Keys && (stopped ==> engines == map[])
    }

    constructor (codec: Codec)
      ensures Valid() && engines == map[] && pending == map[] && sent == [] && this.codec == codec
    {
      this.codec := codec;
      engines, pending, sent, online, stopped, errors := map[], map[], [], false, false, 0;
    }

    /** The subscribe goes out; updates may overtake its answer. */
    method BeginOpen(doc: nat) returns (ok: bool)
      requires Valid()
      modifies this`pending
      ensures Valid() && (ok <==> !stopped && doc !in engines && doc !in old(pending))
      ensures pending == if ok then old(pending)[doc := []] else old(pending)
    {
      if stopped || doc in engines || doc in pending {
        return false;
      }
      pending := pending[doc := []];
      ok := true;
    }

    /** The seed is here: what waited is applied to it, in order, once. */
    method FinishOpen(doc: nat, seed: set<Op>) returns (ok: bool)
      requires Valid() && doc !in engines
      modifies this`engines, this`pending, this`online
      ensures Valid() && pending == old(pending) - {doc} && ok == !stopped
      ensures engines ==
              if stopped then old(engines)
              else
                var queued := if doc in old(pending) then old(pending)[doc] else [];
                old(engines)[doc := AppliedAll(codec, Seeded(seed), queued)]
      ensures online == (old(online) || ok)
      ensures ok ==>
                var queued := if doc in old(pending) then old(pending)[doc] else [];
                engines[doc].ops == seed + UnionOf(queued) && engines[doc].outbox == []
                && seed <= engines[doc].lastSent
    {
      AppliedAllIs(codec, seed, if doc in pending then pending[doc] else []);
      var engine := Seeded(seed);
      var queued := if doc in pending then pending[doc] else [];
      pending := pending - {doc};
      if stopped {
        return false;
      }
      for i := 0 to |queued|
        invariant engine == AppliedAll(codec, Seeded(seed), queued[..i])
      {
        assert queued[..i + 1][..i] == queued[..i];
        engine := Applied(codec, engine, queued[i]);
      }
      assert queued[..|queued|] == queued;
      engines := engines[doc := engine];
      online := true;
      ok := true;
    }

    method FailOpen(doc: nat)
      requires Valid()
      modifies this`pending
      ensures Valid() && pending == old(pending) - {doc}
    {
      pending := pending - {doc};
    }

    /** An update is applied, or waits for its engine, or is refused: it is
        dropped only when the doc is not open here. */
    method HandleUpdate(doc: nat, u: Update)
      requires Valid()
      modifies this`engines, this`pending, this`errors
      ensures Valid()
      ensures engines ==
              if doc in old(engines) then old(engines)[doc := Applied(codec, old(engines)[doc], u)] else old(engines)
      ensures !stopped && doc in old(engines) ==>
                var was := old(engines)[doc];
                engines[doc] == MirrorEngine(was.ops + u, was.lastSent + codec.bound(u), was.outbox)
      ensures pending ==
              if doc in old(pending) && !stopped then old(pending)[doc := old(pending)[doc] + [u]] else old(pending)
      ensures errors == old(errors) + if stopped || doc in old(engines) || doc in old(pending) then 0 else 1
    {
      if stopped {
        return;
      }
      if doc !in engines {
        if doc in pending {
          pending := pending[doc := pending[doc] + [u]];
          return;
        }
        errors := errors + 1;
        return;
      }
      engines := engines[doc := Applied(codec, engines[doc], u)];
    }

    /** Everything `flush` exported for the doc joins the chain, in order. */
    method PumpOne(doc: nat)
      requires Valid() && doc in engines
      modifies this`engines, this`sent
      ensures Valid() && engines == old(engines)[doc := old(engines)[doc].(outbox := [])]
      ensures forall d ::
                SentFor(sent, d) == (if d == doc then SentFor(old(sent), d) + old(engines)[doc].outbox
                    else SentFor(old(sent), d))
    {
      var outbox := engines[doc].outbox;
      engines := engines[doc := engines[doc].(outbox := [])];
      for i := 0 to |outbox|
        invariant Valid() && engines == old(engines)[doc := old(engines)[doc].(outbox := [])]
        invariant forall d ::
          SentFor(sent, d) == (if d == doc then SentFor(old(sent), d) + outbox[..i] else SentFor(old(sent), d))
      {
        forall d ensures SentFor(sent + [(doc, outbox[i])], d) ==
          if d == doc then SentFor(sent, d) + [outbox[i]] else SentFor(sent, d)
        {
          SentMore(sent, doc, outbox[i], d);
        }
        assert outbox[..i + 1] == outbox[..i] + [outbox[i]];
        sent := sent + [(doc, outbox[i])];
      }
      assert outbox[..|outbox|] == outbox;
    }

    method PumpOutbox()
      requires Valid()
      modifies this`engines, this`sent
      ensures Valid() && engines.Keys == old(engines).Keys
      ensures stopped ==> engines == old(engines) && sent == old(sent)
      ensures !stopped ==> forall d :: d in engines ==>
                && engines[d] == old(engines)[d].(outbox := [])
                && SentFor(sent, d) == SentFor(old(sent), d) + old(engines)[d].outbox
      ensures forall d :: d !in engines ==> SentFor(sent, d) == SentFor(old(sent), d)
    {
      if stopped {
        return;
      }
      var rest := engines.Keys;
      while rest != {}
        invariant Valid() && rest <= engines.Keys == old(engines).Keys
        invariant forall d :: d in engines && d !in rest ==>
          && engines[d] == old(engines)[d].(outbox := [])
          && SentFor(sent, d) == SentFor(old(sent), d) + old(engines)[d].outbox
        invariant forall d :: d in rest ==> engines[d] == old(engines)[d]
        invariant forall d :: d in rest || d !in engines ==> SentFor(sent, d) == SentFor(old(sent), d)
      {
        var doc :| doc in rest;
        rest := rest - {doc};
        PumpOne(doc);
      }
    }

    /** A local commit in the window, then the store's flush. */
    method Commit(doc: nat, ops: set<Op>)
      requires Valid() && doc in engines
      modifies this`engines
      ensures Valid()
      ensures engines == old(engines)[doc := old(engines)[doc].(ops := old(engines)[doc].ops + ops)]
    {
      engines := engines[doc := engines[doc].(ops := engines[doc].ops + ops)];
    }

    method Flush(doc: nat)
      requires Valid() && doc in engines
      modifies this`engines
      ensures Valid() && engines == old(engines)[doc := Flushed(old(engines)[doc])]
      ensures var was := old(engines)[doc];
              engines[doc] == if was.ops <= was.lastSent then was
                              else MirrorEngine(was.ops, was.ops, was.outbox + [was.ops - was.lastSent])
    {
      var m := engines[doc];
      if !(m.ops <= m.lastSent) {
        engines := engines[doc := MirrorEngine(m.ops, m.ops, m.outbox + [m.ops - m.lastSent])];
      }
    }

    /** The host closed the doc. If its open is still in flight, it is routed
        again when the seed arrives: `StoppedWhileOpening`. */
    method HandleStopped(doc: nat)
      requires Valid()
      modifies this`engines, this`pending, this`online
      ensures Valid()
      ensures !stopped ==> engines == old(engines) - {doc} && pending == old(pending) - {doc}
      ensures stopped ==> engines == old(engines) && pending == old(pending)
    {
      if stopped || !(doc in engines || doc in pending) {
        return;
      }
      engines, pending := engines - {doc}, pending - {doc};
      if engines == map[] && pending == map[] && online {
        online := false;
      }
    }

    method Stop()
      requires Valid()
      modifies this`engines, this`pending, this`online, this`stopped
      ensures Valid() && stopped && engines == map[]
      ensures pending == if old(stopped) then old(pending) else map[]
    {
      if stopped {
        return;
      }
      stopped, engines, pending, online := true, map[], map[], false;
    }
  }

  /** A stop that overtakes the answer to `open` does not hold: the doc is
      routed all the same, and what came in between is lost to it. */
  method StoppedWhileOpening(b: MirrorBridge, doc: nat, seed: set<Op>, u: Update)
    requires b.Valid() && !b.stopped && doc !in b.engines && doc !in b.pending
    modifies b
    ensures b.Valid() && doc in b.engines && b.engines[doc] == Seeded(seed)
    ensures b.errors == old(b.errors) + 1
  {
    var ok := b.BeginOpen(doc);
    b.HandleStopped(doc);
    b.HandleUpdate(doc, u);
    ok := b.FinishOpen(doc, seed);
  }
}

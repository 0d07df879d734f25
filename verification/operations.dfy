/** CRDT operations as identities. A peer id is leased to one device at a
    time, so a peer names its device; an operation is a peer and a counter. */
module Operations {
  datatype Peer = Peer(device: nat, slot: nat)
  datatype Op = Op(peer: Peer, counter: nat)

  /** `a` is `b` or an operation the same peer minted before it. */
  predicate UpTo(a: Op, b: Op) {
    a.peer == b.peer && a.counter <= b.counter
  }

  /** `s` holds every earlier operation of each peer it mentions. A version
      vector is represented by the closed set it covers. */
  ghost predicate Closed(s: set<Op>) {
    forall a, b :: b in s && UpTo(a, b) ==> a in s
  }

  /** As `Closed`, for the peers of one device only. */
  ghost predicate ClosedFor(device: nat, s: set<Op>) {
    forall a, b :: b in s && UpTo(a, b) && b.peer.device == device ==> a in s
  }

  /** Every operation of `s` was minted on `device`. */
  ghost predicate OwnedBy(device: nat, s: set<Op>) {
    forall o :: o in s ==> o.peer.device == device
  }

  /** `v` is the version vector bounding `s`: the least closed set around it. */
  ghost predicate IsBound(v: set<Op>, s: set<Op>) {
    && s <= v
    && Closed(v)
    && forall t :: s <= t && Closed(t) ==> v <= t
  }

  /** What the CRDT library and the sealing decide about a set of operations:
      the version range an encoded blob of them declares, and the number of
      bytes (ciphertext and nonce) it is stored as. */
  datatype Codec = Codec(bound: set<Op> -> set<Op>, bytes: set<Op> -> nat) {
    ghost predicate Valid() {
      forall s :: Bounded(s)
    }

    ghost predicate Bounded(s: set<Op>) { IsBound(bound(s), s) }
  }

  /** A blob never declares operations of a device beyond what a set closed
      for that device holds, if it carries none beyond it. */
  lemma BoundOwn(c: Codec, device: nat, s: set<Op>, t: set<Op>)
    requires c.Valid()
    requires ClosedFor(device, t)
    requires forall o :: o in s && o.peer.device == device ==> o in t
    ensures forall o :: o in c.bound(s) && o.peer.device == device ==> o in t
  {
    assert c.Bounded(s);
    var keep := set o | o in c.bound(s) && (o.peer.device == device ==> o in t);
    assert Closed(keep);
    assert s <= keep;
  }

  lemma BoundOfClosed(c: Codec, s: set<Op>)
    requires c.Valid() && Closed(s)
    ensures c.bound(s) == s
  {
    assert c.Bounded(s);
  }

  lemma BoundLeast(c: Codec, s: set<Op>, t: set<Op>)
    requires c.Valid() && s <= t && Closed(t)
    ensures s <= c.bound(s) <= t
  {
    assert c.Bounded(s);
  }

  // A valid codec exists: the bound can be computed.

  function Below(s: set<Op>): set<Op> {
    set o, c | o in s && 0 <= c <= o.counter :: Op(o.peer, c)
  }

  lemma BelowIsBound(s: set<Op>)
    ensures IsBound(Below(s), s)
  {
    forall a, b | b in Below(s) && UpTo(a, b) ensures a in Below(s) {
      var o, c :| o in s && 0 <= c <= o.counter && b == Op(o.peer, c);
      assert a == Op(o.peer, a.counter);
    }
    forall o | o in s ensures o in Below(s) {
      assert o == Op(o.peer, o.counter);
    }
    forall t, a | s <= t && Closed(t) && a in Below(s) ensures a in t {
      var o, c :| o in s && 0 <= c <= o.counter && a == Op(o.peer, c);
      assert o in t && UpTo(a, o);
    }
  }

  lemma ValidCodecExists()
    ensures Codec(Below, (s: set<Op>) => |s|).Valid()
  {
    var c := Codec(Below, (s: set<Op>) => |s|);
    forall s ensures c.Bounded(s) {
      BelowIsBound(s);
    }
  }
}

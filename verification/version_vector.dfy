/** Version vectors as Loro keeps them, one next-counter per peer, against the
    set of operations each covers. Everywhere else in this project a version
    vector is that covered set; the lemmas here say that merging, comparing
    and bounding mean the same thing on either side. */
module VersionVectors {
  import opened Operations

  type VersionVector = map<Peer, nat>

  function Next(v: VersionVector, p: Peer): nat {
    if p in v then v[p] else 0
  }

  function Covered(v: VersionVector): set<Op> {
    set p, c | p in v && 0 <= c < v[p] :: Op(p, c)
  }

  lemma CoveredIff(v: VersionVector, o: Op)
    ensures o in Covered(v) <==> o.counter < Next(v, o.peer)
  {
    assert o == Op(o.peer, o.counter);
  }

  /** Pointwise maximum. */
  function Merge(a: VersionVector, b: VersionVector): VersionVector {
    map p | p in a.Keys + b.Keys :: if Next(a, p) < Next(b, p) then Next(b, p) else Next(a, p)
  }

  /** `a` is at least `b` for every peer of `b`. */
  predicate Includes(a: VersionVector, b: VersionVector) {
    forall p :: p in b ==> b[p] <= Next(a, p)
  }

  /** The declared range of a blob holding `s`: one past its last counter,
      for each peer it mentions. */
  ghost predicate Bounds(v: VersionVector, s: set<Op>) {
    && (forall o :: o in s ==> o.counter < Next(v, o.peer))
    && (forall p :: p in v && 0 < v[p] ==> Op(p, v[p] - 1) in s)
  }

  lemma CoveredIsClosed(v: VersionVector)
    ensures Closed(Covered(v))
  {
    forall a, b | b in Covered(v) && UpTo(a, b) ensures a in Covered(v) {
      CoveredIff(v, a);
      CoveredIff(v, b);
    }
  }

  lemma MergeCoversUnion(a: VersionVector, b: VersionVector)
    ensures Covered(Merge(a, b)) == Covered(a) + Covered(b)
  {
    forall o: Op ensures o in Covered(Merge(a, b)) <==> o in Covered(a) + Covered(b) {
      CoveredIff(a, o);
      CoveredIff(b, o);
      CoveredIff(Merge(a, b), o);
    }
  }

  lemma IncludesIffSuperset(a: VersionVector, b: VersionVector)
    ensures Includes(a, b) <==> Covered(b) <= Covered(a)
  {
    if Includes(a, b) {
      forall o | o in Covered(b) ensures o in Covered(a) {
        CoveredIff(a, o);
        CoveredIff(b, o);
      }
    }
    if Covered(b) <= Covered(a) {
      forall p | p in b ensures b[p] <= Next(a, p) {
        if 0 < b[p] {
          CoveredIff(b, Op(p, b[p] - 1));
          CoveredIff(a, Op(p, b[p] - 1));
        }
      }
    }
  }

  /** The declared range of a blob covers the least closed set around what
      the blob carries. */
  lemma BoundsIsBound(v: VersionVector, s: set<Op>)
    requires Bounds(v, s)
    ensures IsBound(Covered(v), s)
  {
    CoveredIsClosed(v);
    forall o | o in s ensures o in Covered(v) {
      CoveredIff(v, o);
    }
    forall t, o | s <= t && Closed(t) && o in Covered(v) ensures o in t {
      CoveredIff(v, o);
      assert UpTo(o, Op(o.peer, v[o.peer] - 1));
    }
  }

  /** Every closed set is what some version vector covers. */
  lemma {:induction false} ClosedIsCovered(s: set<Op>) returns (v: VersionVector)
    requires Closed(s)
    ensures Covered(v) == s
    decreases |s|
  {
    if s == {} {
      v := map[];
    } else {
      var o :| o in s;
      var top := LastOf(s, o);
      var rest := set x | x in s && x.peer != o.peer;
      assert rest < s by { assert o in s && o !in rest; }
      CardinalityShrinks(rest, s);
      var w := ClosedIsCovered(rest);
      v := w[o.peer := top.counter + 1];
      forall x: Op ensures x in Covered(v) <==> x in s {
        CoveredIff(v, x);
        CoveredIff(w, x);
        if x.peer == o.peer && x.counter <= top.counter {
          assert UpTo(x, top);
        }
      }
    }
  }

  lemma CardinalityShrinks(a: set<Op>, b: set<Op>)
    requires a < b
    ensures |a| < |b|
  {
    var o :| o in b && o !in a;
    CardinalityMonotone(a, b - {o});
  }

  lemma {:induction false} CardinalityMonotone(a: set<Op>, b: set<Op>)
    requires a <= b
    ensures |a| <= |b|
  {
    if a != {} {
      var o :| o in a;
      CardinalityMonotone(a - {o}, b - {o});
    }
  }

  lemma {:induction false} LastOf(s: set<Op>, o: Op) returns (top: Op)
    requires o in s
    ensures top in s && top.peer == o.peer
    ensures forall x :: x in s && x.peer == o.peer ==> x.counter <= top.counter
    decreases |s|
  {
    if x :| x in s && x.peer == o.peer && o.counter < x.counter {
      CardinalityShrinks(s - {o}, s);
      top := LastOf(s - {o}, x);
    } else {
      top := o;
    }
  }
}

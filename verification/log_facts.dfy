/** The server's log and snapshot chain: what every reachable one satisfies. */
module LogFacts {
  import opened Wrappers
  import opened Operations
  import opened Protocol
  import opened World

  lemma {:induction false} UptoMonotone(log: seq<Row>, j: nat, k: nat)
    requires j <= k <= |log|
    ensures Upto(log, j) <= Upto(log, k)
  {
    if j < k {
      UptoMonotone(log, j, k - 1);
    }
  }

  lemma UptoRow(log: seq<Row>, i: nat, k: nat)
    requires i < k <= |log|
    ensures log[i].blob.ops <= Upto(log, k)
  {
    UptoMonotone(log, i + 1, k);
  }

  lemma {:induction false} UptoGrow(log: seq<Row>, r: Row, k: nat)
    requires k <= |log|
    ensures Upto(log + [r], k) == Upto(log, k)
  {
    if 0 < k {
      UptoGrow(log, r, k - 1);
    }
  }

  lemma AllGrow(log: seq<Row>, r: Row)
    ensures All(log + [r]) == All(log) + r.blob.ops
  {
    UptoGrow(log, r, |log|);
  }

  lemma {:induction false} UptoHas(log: seq<Row>, k: nat, o: Op) returns (i: nat)
    requires k <= |log| && o in Upto(log, k)
    ensures i < k && o in log[i].blob.ops
  {
    if o in log[k - 1].blob.ops {
      i := k - 1;
    } else {
      i := UptoHas(log, k - 1, o);
    }
  }

  /** `s` holds nothing but the device's own operations and those of `t`. */
  ghost predicate Within(d: nat, s: set<Op>, t: set<Op>) {
    forall o :: o in s ==> o.peer.device == d || o in t
  }

  /** Rows carry their own device's operations, no push is stored twice, and
      every prefix of the log is closed. */
  ghost predicate LogInv(log: seq<Row>) {
    && (forall r :: r in log ==> OwnedBy(r.device, r.blob.ops))
    && (forall i, j :: 0 <= i < j < |log| ==> log[i].device != log[j].device || log[i].pushId != log[j].pushId)
    && (forall k :: 0 <= k <= |log| ==> Closed(Upto(log, k)))
  }

  /** What the first `j` rows of the chain should come to. */
  function ChainVV(chain: seq<ChainRow>, j: nat): set<Op>
    requires j <= |chain|
  {
    if j == 0 then {} else chain[j - 1].upToVV
  }

  /** Each stored snapshot row takes the chain from exactly the version vector
      of the row before to exactly its own, which covers the log up to its
      sequence number and nothing the log has not. */
  ghost predicate ChainInv(log: seq<Row>, chain: seq<ChainRow>) {
    forall j :: 0 <= j < |chain| ==> ChainRowInv(log, chain, j)
  }

  ghost predicate ChainRowInv(log: seq<Row>, chain: seq<ChainRow>, j: nat)
    requires j < |chain|
  {
    ReachesOn(log, ChainVV(chain, j), chain[j].upToSeq, chain[j].upToVV, chain[j].blob)
  }

  /** A snapshot from `vv` on, up to `upToVV` and row `upTo`. */
  ghost predicate ReachesOn(log: seq<Row>, vv: set<Op>, upTo: nat, upToVV: set<Op>, blob: Blob) {
    && upTo <= |log| && Upto(log, upTo) <= upToVV <= All(log) && Closed(upToVV)
    && vv <= upToVV && blob.ops == upToVV - vv
  }

  lemma LogGrow(log: seq<Row>, r: Row, v: set<Op>)
    requires LogInv(log) && OwnedBy(r.device, r.blob.ops) && !Inserted(log, r.device, r.pushId)
    requires IsBound(v, r.blob.ops) && v <= r.blob.ops + All(log)
    ensures LogInv(log + [r])
  {
    AllGrow(log, r);
    forall k | 0 <= k <= |log + [r]| ensures Closed(Upto(log + [r], k)) {
      if k <= |log| {
        UptoGrow(log, r, k);
      } else {
        assert Closed(All(log));
        var s := All(log) + r.blob.ops;
        forall a, b | b in s && UpTo(a, b) ensures a in s {
          if b in r.blob.ops { assert a in v; }
        }
      }
    }
    forall i, j | 0 <= i < j < |log + [r]|
      ensures (log + [r])[i].device != (log + [r])[j].device || (log + [r])[i].pushId != (log + [r])[j].pushId
    {
      if j == |log| { assert log[i] in log; }
    }
  }

  lemma ReachesStill(log: seq<Row>, r: Row, vv: set<Op>, upTo: nat, upToVV: set<Op>, blob: Blob)
    requires ReachesOn(log, vv, upTo, upToVV, blob)
    ensures ReachesOn(log + [r], vv, upTo, upToVV, blob)
  {
    UptoGrow(log, r, upTo);
    AllGrow(log, r);
  }

  lemma ChainGrow(log: seq<Row>, r: Row, chain: seq<ChainRow>)
    requires ChainInv(log, chain)
    ensures ChainInv(log + [r], chain)
  {
    forall j | 0 <= j < |chain| ensures ChainRowInv(log + [r], chain, j) {
      assert ChainRowInv(log, chain, j);
      ReachesStill(log, r, ChainVV(chain, j), chain[j].upToSeq, chain[j].upToVV, chain[j].blob);
    }
  }

  lemma ChainExtend(log: seq<Row>, chain: seq<ChainRow>, c: ChainRow)
    requires ChainInv(log, chain)
    requires ReachesOn(log, ChainVV(chain, |chain|), c.upToSeq, c.upToVV, c.blob)
    ensures ChainInv(log, chain + [c])
  {
    forall j | 0 <= j < |chain + [c]| ensures ChainRowInv(log, chain + [c], j) {
      assert ChainVV(chain + [c], j) == ChainVV(chain, j);
      if j < |chain| {
        assert ChainRowInv(log, chain, j);
        assert (chain + [c])[j] == chain[j];
      }
    }
  }

  /** What importing the first `k` rows of the chain gives. */
  function ChainOps(chain: seq<ChainRow>, k: nat): set<Op>
    requires k <= |chain|
  {
    if k == 0 then {} else ChainOps(chain, k - 1) + chain[k - 1].blob.ops
  }

  lemma {:induction false} ChainReaches(log: seq<Row>, chain: seq<ChainRow>, k: nat)
    requires ChainInv(log, chain) && k <= |chain|
    ensures ChainOps(chain, k) == ChainVV(chain, k)
  {
    if 0 < k {
      ChainReaches(log, chain, k - 1);
      assert ChainRowInv(log, chain, k - 1);
    }
  }

  lemma ChainAt(log: seq<Row>, chain: seq<ChainRow>, k: nat)
    requires ChainInv(log, chain) && 0 < k <= |chain|
    ensures var row := chain[k - 1];
            && row.upToSeq <= |log| && Upto(log, row.upToSeq) <= ChainOps(chain, k) == row.upToVV <= All(log)
            && row.blob.ops !! ChainOps(chain, k - 1)
  {
    ChainReaches(log, chain, k);
    ChainReaches(log, chain, k - 1);
    assert ChainRowInv(log, chain, k - 1);
  }

  // ---- what a connection tells of ----

  function RowOps(log: seq<Row>, n: nat): set<Op> {
    if 1 <= n <= |log| then log[n - 1].blob.ops else {}
  }

  function GotOps(log: seq<Row>, got: set<nat>): set<Op> {
    set n, o | n in got && o in RowOps(log, n) :: o
  }

  /** The rows the pull was asked for and those delivered or acked since. */
  function Told(log: seq<Row>, l: Link): set<Op>
    requires l.base <= |log|
  {
    Upto(log, l.base) + GotOps(log, l.got)
  }

  lemma GotOpsGrow(log: seq<Row>, r: Row, got: set<nat>)
    requires forall k :: k in got ==> 1 <= k <= |log|
    ensures GotOps(log + [r], got) == GotOps(log, got)
  {
    forall k | k in got ensures RowOps(log + [r], k) == RowOps(log, k) {}
  }

  /** A bound holds only operations of peers the set has. */
  lemma BoundPeers(c: Codec, s: set<Op>, o: Op) returns (p: Op)
    requires c.Valid() && o in c.bound(s)
    ensures p in s && p.peer == o.peer
  {
    assert c.Bounded(s);
    if forall q :: q in s ==> q.peer != o.peer {
      var keep := set q | q in c.bound(s) && q.peer != o.peer;
      assert Closed(keep) && s <= keep;
    }
    p :| p in s && p.peer == o.peer;
  }

  /** What a row declares has been told of, if the earlier rows of its device
      have. */
  lemma RowDeclares(c: Codec, log: seq<Row>, k: nat, base: nat, got: set<nat>)
    requires c.Valid() && LogInv(log) && 1 <= k <= |log| && base <= |log| && k in got
    requires forall i :: base <= i < k - 1 && log[i].device == log[k - 1].device ==> i + 1 in got
    ensures log[k - 1].blob.ops <= c.bound(log[k - 1].blob.ops) <= Upto(log, base) + GotOps(log, got)
  {
    var row := log[k - 1];
    UptoRow(log, k - 1, k);
    BoundLeast(c, row.blob.ops, Upto(log, k));
    forall o | o in c.bound(row.blob.ops) ensures o in Upto(log, base) + GotOps(log, got) {
      var i := UptoHas(log, k, o);
      var p := BoundPeers(c, row.blob.ops, o);
      assert row in log && log[i] in log;
      assert log[i].device == row.device;
      if i < base {
        UptoRow(log, i, base);
      } else {
        assert i + 1 in got && o in RowOps(log, i + 1);
      }
    }
  }
}

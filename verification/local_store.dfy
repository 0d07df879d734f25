/** What one doc's local storage holds and what each storage call makes of
    it: the contract every backend of the client implements. */
module LocalStore {
  import opened Wrappers
  import opened Operations
  import opened Protocol

  datatype Snap = Snap(upToLocalSeq: nat, payload: Blob)
  datatype WalRow = WalRow(localSeq: nat, serverSeq: Option<nat>, payload: Blob)
  datatype InFlightPush = InFlightPush(id: nat, payload: Blob, fromVV: set<Op>, toVV: set<Op>)

  /** `nextLocalSeq` is the highest local sequence number ever assigned. */
  datatype Store = Store(
    nextLocalSeq: nat,
    snapshot: Option<Snap>,
    wal: seq<WalRow>,
    ackedSeq: nat,
    knownVV: set<Op>,
    inFlight: Option<InFlightPush>)

  const EMPTY: Store := Store(0, None, [], 0, {}, None)

  function AppendLocal(st: Store, payload: Blob): Store {
    var n := st.nextLocalSeq + 1;
    st.(nextLocalSeq := n, wal := st.wal + [WalRow(n, None, payload)])
  }

  /** The local sequence number of the row already holding server row `k`. */
  function FindServerSeq(wal: seq<WalRow>, k: nat): (r: Option<nat>)
    ensures r == None <==> forall row :: row in wal ==> row.serverSeq != Some(k)
    ensures r.Some? ==> exists row :: row in wal && row.serverSeq == Some(k) && row.localSeq == r.value
  {
    if wal == [] then None
    else if wal[0].serverSeq == Some(k) then Some(wal[0].localSeq)
    else
      assert forall row :: row in wal <==> row == wal[0] || row in wal[1..];
      FindServerSeq(wal[1..], k)
  }

  function AppendRemote(st: Store, k: nat, payload: Blob, known: set<Op>): Store {
    if FindServerSeq(st.wal, k).Some? then st.(knownVV := known)
    else
      var n := st.nextLocalSeq + 1;
      st.(nextLocalSeq := n, knownVV := known, wal := st.wal + [WalRow(n, Some(k), payload)])
  }

  /** The rows past `cutoff`, in order. */
  function Retained(wal: seq<WalRow>, cutoff: nat): seq<WalRow> {
    if wal == [] then []
    else
      var rest := Retained(wal[..|wal| - 1], cutoff);
      if cutoff < wal[|wal| - 1].localSeq then rest + [wal[|wal| - 1]] else rest
  }

  lemma {:induction false} RetainedIn(wal: seq<WalRow>, cutoff: nat)
    ensures forall row :: row in Retained(wal, cutoff) <==> row in wal && cutoff < row.localSeq
  {
    if wal != [] {
      RetainedIn(wal[..|wal| - 1], cutoff);
      assert forall row :: row in wal <==> row in wal[..|wal| - 1] || row == wal[|wal| - 1];
    }
  }

  /** The snapshot row records the counter, not the cutoff. */
  function WriteSnapshot(st: Store, cutoff: nat, payload: Blob): Store {
    st.(snapshot := Some(Snap(st.nextLocalSeq, payload)), wal := Retained(st.wal, cutoff))
  }

  function WriteAcked(st: Store, seqNo: nat): Store { st.(ackedSeq := seqNo) }

  function WriteKnown(st: Store, known: set<Op>): Store { st.(knownVV := known) }

  function PutInFlight(st: Store, push: InFlightPush): Store { st.(inFlight := Some(push)) }

  /** Clears the record only if it is the one named. */
  function CompletePush(st: Store, id: nat, known: set<Op>): Store {
    st.(knownVV := known,
        inFlight := if st.inFlight.Some? && st.inFlight.value.id == id then None else st.inFlight)
  }

  function WalBytes(wal: seq<WalRow>): nat {
    if wal == [] then 0 else WalBytes(wal[..|wal| - 1]) + wal[|wal| - 1].payload.bytes
  }

  /** The cursors a booting engine is seeded with. */
  datatype BootMeta = BootMeta(
    lastLocalSeq: nat,
    ackedSeq: nat,
    knownVV: set<Op>,
    inFlight: Option<InFlightPush>,
    walRows: nat,
    walBytes: nat)

  function Meta(st: Store): BootMeta {
    BootMeta(st.nextLocalSeq, st.ackedSeq, st.knownVV, st.inFlight, |st.wal|, WalBytes(st.wal))
  }

  /** What a boot feeds the doc: the snapshot, then every surviving row. */
  function ReplayBlobs(st: Store): seq<Blob> {
    (if st.snapshot.Some? then [st.snapshot.value.payload] else []) + Payloads(st.wal)
  }

  function Payloads(wal: seq<WalRow>): (r: seq<Blob>)
    ensures |r| == |wal| && forall i :: 0 <= i < |r| ==> r[i] == wal[i].payload
  {
    seq(|wal|, i requires 0 <= i < |wal| => wal[i].payload)
  }

  function WalOps(wal: seq<WalRow>): set<Op> {
    if wal == [] then {} else WalOps(wal[..|wal| - 1]) + wal[|wal| - 1].payload.ops
  }

  function SnapOps(snapshot: Option<Snap>): set<Op> {
    if snapshot.Some? then snapshot.value.payload.ops else {}
  }

  /** Everything a boot from `st` recovers. */
  function Durable(st: Store): set<Op> {
    SnapOps(st.snapshot) + WalOps(st.wal)
  }

  lemma WalOpsAppend(wal: seq<WalRow>, row: WalRow)
    ensures WalOps(wal + [row]) == WalOps(wal) + row.payload.ops
    ensures WalBytes(wal + [row]) == WalBytes(wal) + row.payload.bytes
  {
    assert (wal + [row])[..|wal|] == wal;
  }

  lemma {:induction false} RowInWalOps(wal: seq<WalRow>, row: WalRow)
    requires row in wal
    ensures row.payload.ops <= WalOps(wal)
  {
    if row != wal[|wal| - 1] {
      RowInWalOps(wal[..|wal| - 1], row);
    }
  }

  lemma {:induction false} WalOpsWithin(wal: seq<WalRow>, s: set<Op>)
    requires forall row :: row in wal ==> row.payload.ops <= s
    ensures WalOps(wal) <= s
  {
    if wal != [] {
      WalOpsWithin(wal[..|wal| - 1], s);
    }
  }

  lemma DurableAppendLocal(st: Store, payload: Blob)
    ensures Durable(AppendLocal(st, payload)) == Durable(st) + payload.ops
  {
    WalOpsAppend(st.wal, WalRow(st.nextLocalSeq + 1, None, payload));
  }

  /** A redelivered row adds nothing; its first delivery must have carried
      the same operations for the result to hold them. */
  lemma DurableAppendRemote(st: Store, k: nat, payload: Blob, known: set<Op>)
    requires forall row :: row in st.wal && row.serverSeq == Some(k) ==> row.payload == payload
    ensures Durable(AppendRemote(st, k, payload, known)) == Durable(st) + payload.ops
  {
    if FindServerSeq(st.wal, k).Some? {
      var row :| row in st.wal && row.serverSeq == Some(k);
      RowInWalOps(st.wal, row);
    } else {
      WalOpsAppend(st.wal, WalRow(st.nextLocalSeq + 1, Some(k), payload));
    }
  }

  /** A snapshot holding everything durable loses nothing, whatever the
      cutoff; at the newest row it leaves the log empty. */
  lemma DurableWriteSnapshot(st: Store, cutoff: nat, payload: Blob)
    requires Durable(st) <= payload.ops
    ensures Durable(WriteSnapshot(st, cutoff, payload)) == payload.ops
  {
    RetainedIn(st.wal, cutoff);
    forall row | row in Retained(st.wal, cutoff) ensures row.payload.ops <= payload.ops {
      RowInWalOps(st.wal, row);
    }
    WalOpsWithin(Retained(st.wal, cutoff), payload.ops);
  }

  /** Local sequence numbers increase along the log and never pass the
      counter, so no number is handed out twice. */
  ghost predicate Ordered(st: Store) {
    && (forall i, j :: 0 <= i < j < |st.wal| ==> st.wal[i].localSeq < st.wal[j].localSeq)
    && (forall row :: row in st.wal ==> 1 <= row.localSeq <= st.nextLocalSeq)
  }

  lemma RetainedAppend(wal: seq<WalRow>, row: WalRow, cutoff: nat)
    ensures Retained(wal + [row], cutoff) ==
            if cutoff < row.localSeq then Retained(wal, cutoff) + [row] else Retained(wal, cutoff)
  {
    assert (wal + [row])[..|wal|] == wal;
  }

  lemma {:induction false} RetainedNothing(wal: seq<WalRow>, cutoff: nat)
    requires forall row :: row in wal ==> row.localSeq <= cutoff
    ensures Retained(wal, cutoff) == []
  {
    if wal != [] {
      RetainedNothing(wal[..|wal| - 1], cutoff);
    }
  }

  /** A boot reads the snapshot first, if there is one, and then every row in
      the order it was stored. */
  lemma ReplayInOrder(st: Store, i: nat)
    requires i < |st.wal|
    ensures var r, first := ReplayBlobs(st), if st.snapshot.Some? then 1 else 0;
            && |r| == first + |st.wal| && r[first + i] == st.wal[i].payload
            && (st.snapshot.Some? ==> r[0] == st.snapshot.value.payload)
  {}
}

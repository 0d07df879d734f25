/** The SQLite backend: four tables shared by every doc. It keeps no counter:
    the next local sequence number is derived from the rows that survive. */
module SqliteTables {
  import opened Wrappers
  import opened Operations
  import opened Protocol
  import opened LocalStore
  import opened Documents

  datatype DocRow = DocRow(ackedSeq: nat, knownVV: set<Op>)
  datatype SqlRow = SqlRow(doc: nat, localSeq: nat, serverSeq: Option<nat>, payload: Blob)

  const NEVER_SYNCED: DocRow := DocRow(0, {})

  /** The rows of one doc, in table order. */
  function RowsOf(wal: seq<SqlRow>, doc: nat): seq<WalRow> {
    if wal == [] then []
    else
      var r := wal[|wal| - 1];
      var rest := RowsOf(wal[..|wal| - 1], doc);
      if r.doc == doc then rest + [WalRow(r.localSeq, r.serverSeq, r.payload)] else rest
  }

  function MaxSeq(rows: seq<WalRow>): nat {
    if rows == [] then 0 else Max(MaxSeq(rows[..|rows| - 1]), rows[|rows| - 1].localSeq)
  }

  lemma RowsAppend(wal: seq<SqlRow>, r: SqlRow, doc: nat)
    ensures RowsOf(wal + [r], doc) ==
            if r.doc == doc then RowsOf(wal, doc) + [WalRow(r.localSeq, r.serverSeq, r.payload)] else RowsOf(wal, doc)
  {
    assert (wal + [r])[..|wal|] == wal;
  }

  lemma {:induction false} RowsConcat(a: seq<SqlRow>, b: seq<SqlRow>, doc: nat)
    ensures RowsOf(a + b, doc) == RowsOf(a, doc) + RowsOf(b, doc)
  {
    if b == [] {
      assert a + b == a;
    } else {
      RowsConcat(a, b[..|b| - 1], doc);
      assert (a + b)[..|a + b| - 1] == a + b[..|b| - 1];
    }
  }

  lemma MaxAppend(rows: seq<WalRow>, row: WalRow)
    ensures MaxSeq(rows + [row]) == Max(MaxSeq(rows), row.localSeq)
  {
    assert (rows + [row])[..|rows|] == rows;
  }

  lemma {:induction false} MaxBounds(rows: seq<WalRow>, row: WalRow)
    requires row in rows
    ensures row.localSeq <= MaxSeq(rows)
  {
    if row != rows[|rows| - 1] {
      MaxBounds(rows[..|rows| - 1], row);
    }
  }

  lemma {:induction false} MaxLeast(rows: seq<WalRow>, n: nat)
    requires forall row :: row in rows ==> row.localSeq <= n
    ensures MaxSeq(rows) <= n
  {
    if rows != [] {
      MaxLeast(rows[..|rows| - 1], n);
    }
  }

  lemma RetainedMax(rows: seq<WalRow>, cutoff: nat)
    ensures MaxSeq(Retained(rows, cutoff)) <= MaxSeq(rows)
  {
    RetainedIn(rows, cutoff);
    forall row | row in Retained(rows, cutoff) ensures row.localSeq <= MaxSeq(rows) {
      MaxBounds(rows, row);
    }
    MaxLeast(Retained(rows, cutoff), MaxSeq(rows));
  }

  /** The first match is found wherever it stands. */
  lemma {:induction false} FindPast(a: seq<WalRow>, row: WalRow, b: seq<WalRow>, k: nat)
    requires forall r :: r in a ==> r.serverSeq != Some(k)
    requires row.serverSeq == Some(k)
    ensures FindServerSeq(a + [row] + b, k) == Some(row.localSeq)
  {
    var all := a + [row] + b;
    if a != [] {
      assert all[0] == a[0] && a[0] in a;
      assert all[1..] == a[1..] + [row] + b;
      FindPast(a[1..], row, b, k);
    }
  }

  ghost predicate ServerUnique(wal: seq<WalRow>) {
    forall i, j :: 0 <= i < j < |wal| && wal[i].serverSeq.Some? ==> wal[i].serverSeq != wal[j].serverSeq
  }

  ghost predicate Rising(wal: seq<WalRow>) {
    forall i, j :: 0 <= i < j < |wal| ==> wal[i].localSeq < wal[j].localSeq
  }

  /** What the unique indexes ask of one doc's rows. Rows stand in the order
      of their local sequence numbers, so `ORDER BY` changes nothing. */
  ghost predicate Keyed(st: Store) {
    Ordered(st) && ServerUnique(st.wal)
  }

  lemma AppendKeyed(st: Store, serverSeq: Option<nat>, payload: Blob)
    requires Keyed(st)
    requires serverSeq.Some? ==> FindServerSeq(st.wal, serverSeq.value) == None
    ensures Keyed(st.(nextLocalSeq := st.nextLocalSeq + 1,
                      wal := st.wal + [WalRow(st.nextLocalSeq + 1, serverSeq, payload)]))
  {
    var wal := st.wal + [WalRow(st.nextLocalSeq + 1, serverSeq, payload)];
    forall i, j | 0 <= i < j < |wal| && wal[i].serverSeq.Some? ensures wal[i].serverSeq != wal[j].serverSeq {
      if j == |st.wal| { assert st.wal[i] in st.wal; }
    }
  }

  lemma {:induction false} RetainedKeyed(wal: seq<WalRow>, cutoff: nat)
    requires Rising(wal) && ServerUnique(wal)
    ensures Rising(Retained(wal, cutoff)) && ServerUnique(Retained(wal, cutoff))
  {
    if wal != [] {
      var before := wal[..|wal| - 1];
      RetainedKeyed(before, cutoff);
      RetainedIn(before, cutoff);
      KeyedOneMore(before, Retained(before, cutoff), wal[|wal| - 1]);
      assert before + [wal[|wal| - 1]] == wal;
    }
  }

  lemma KeyedOneMore(wal: seq<WalRow>, kept: seq<WalRow>, last: WalRow)
    requires Rising(wal + [last]) && ServerUnique(wal + [last])
    requires Rising(kept) && ServerUnique(kept) && forall row :: row in kept ==> row in wal
    ensures Rising(kept + [last]) && ServerUnique(kept + [last])
  {
    forall j | 0 <= j < |kept|
      ensures kept[j].localSeq < last.localSeq && (kept[j].serverSeq.Some? ==> kept[j].serverSeq != last.serverSeq)
    {
      assert kept[j] in wal;
      var k :| 0 <= k < |wal| && wal[k] == kept[j];
      assert (wal + [last])[k] == kept[j] && (wal + [last])[|wal|] == last;
    }
  }

  // ---- the tables as a value ----

  datatype Tables = Tables(
    docs: map<nat, DocRow>,
    snapshots: map<nat, Snap>,
    wal: seq<SqlRow>,
    inFlightPush: map<nat, InFlightPush>)

  /** The highest local sequence number a doc ever had: of its surviving rows,
      or noted with its snapshot. */
  function HighWater(t: Tables, doc: nat): nat {
    Max(MaxSeq(RowsOf(t.wal, doc)), if doc in t.snapshots then t.snapshots[doc].upToLocalSeq else 0)
  }

  /** One doc's share of the tables, as the storage contract sees it. */
  function View(t: Tables, doc: nat): Store {
    var row := if doc in t.docs then t.docs[doc] else NEVER_SYNCED;
    Store(HighWater(t, doc),
          if doc in t.snapshots then Some(t.snapshots[doc]) else None,
          RowsOf(t.wal, doc),
          row.ackedSeq,
          row.knownVV,
          if doc in t.inFlightPush then Some(t.inFlightPush[doc]) else None)
  }

  /** Foreign keys and unique indexes hold. */
  ghost predicate Consistent(t: Tables) {
    && (forall r :: r in t.wal ==> r.doc in t.docs)
    && t.snapshots.Keys <= t.docs.Keys && t.inFlightPush.Keys <= t.docs.Keys
    && AllKeyed(t)
  }

  ghost predicate AllKeyed(t: Tables) {
    forall doc :: DocKeyed(t, doc)
  }

  ghost predicate DocKeyed(t: Tables, doc: nat) { Keyed(View(t, doc)) }

  /** Only `doc` reads differently. */
  ghost predicate OthersKept(t: Tables, r: Tables, doc: nat) {
    forall other :: other != doc ==> View(r, other) == View(t, other)
  }

  function Inserted(t: Tables, doc: nat, serverSeq: Option<nat>, payload: Blob): Tables {
    t.(wal := t.wal + [SqlRow(doc, HighWater(t, doc) + 1, serverSeq, payload)])
  }

  /** A row numbered past the derived high-water is the next row of the
      contract's counter. */
  lemma InsertOwn(t: Tables, doc: nat, serverSeq: Option<nat>, payload: Blob)
    ensures var n := HighWater(t, doc) + 1;
            var st := View(t, doc);
            View(Inserted(t, doc, serverSeq, payload), doc)
            == st.(nextLocalSeq := n, wal := st.wal + [WalRow(n, serverSeq, payload)])
  {
    var n := HighWater(t, doc) + 1;
    RowsAppend(t.wal, SqlRow(doc, n, serverSeq, payload), doc);
    MaxAppend(RowsOf(t.wal, doc), WalRow(n, serverSeq, payload));
  }

  lemma InsertOther(t: Tables, doc: nat, serverSeq: Option<nat>, payload: Blob, d: nat)
    requires d != doc
    ensures View(Inserted(t, doc, serverSeq, payload), d) == View(t, d)
  {
    RowsAppend(t.wal, SqlRow(doc, HighWater(t, doc) + 1, serverSeq, payload), d);
  }

  lemma InsertView(t: Tables, doc: nat, serverSeq: Option<nat>, payload: Blob)
    ensures var n := HighWater(t, doc) + 1;
            var r := Inserted(t, doc, serverSeq, payload);
            var st := View(t, doc);
            && OthersKept(t, r, doc)
            && View(r, doc) == st.(nextLocalSeq := n, wal := st.wal + [WalRow(n, serverSeq, payload)])
  {
    InsertOwn(t, doc, serverSeq, payload);
    forall d | d != doc ensures View(Inserted(t, doc, serverSeq, payload), d) == View(t, d) {
      InsertOther(t, doc, serverSeq, payload, d);
    }
  }

  lemma InsertConsistent(t: Tables, doc: nat, serverSeq: Option<nat>, payload: Blob)
    requires Consistent(t) && doc in t.docs
    requires serverSeq.Some? ==> FindServerSeq(View(t, doc).wal, serverSeq.value) == None
    ensures Consistent(Inserted(t, doc, serverSeq, payload))
  {
    var r := Inserted(t, doc, serverSeq, payload);
    InsertView(t, doc, serverSeq, payload);
    assert DocKeyed(t, doc);
    AppendKeyed(View(t, doc), serverSeq, payload);
    KeyedElsewhere(t, r, doc);
  }

  lemma KeyedElsewhere(t: Tables, r: Tables, doc: nat)
    requires AllKeyed(t) && OthersKept(t, r, doc) && DocKeyed(r, doc)
    ensures AllKeyed(r)
  {
    forall d ensures DocKeyed(r, d) {
      assert DocKeyed(t, d);
    }
  }

  function Pruned(wal: seq<SqlRow>, doc: nat, cutoff: nat): seq<SqlRow> {
    if wal == [] then []
    else
      var r := wal[|wal| - 1];
      var rest := Pruned(wal[..|wal| - 1], doc, cutoff);
      if r.doc == doc && r.localSeq <= cutoff then rest else rest + [r]
  }

  lemma {:induction false} PrunedOwn(wal: seq<SqlRow>, doc: nat, cutoff: nat)
    ensures RowsOf(Pruned(wal, doc, cutoff), doc) == Retained(RowsOf(wal, doc), cutoff)
  {
    if wal != [] {
      var r := wal[|wal| - 1];
      var before := wal[..|wal| - 1];
      PrunedOwn(before, doc, cutoff);
      RowsAppend(Pruned(before, doc, cutoff), r, doc);
      RetainedAppend(RowsOf(before, doc), WalRow(r.localSeq, r.serverSeq, r.payload), cutoff);
    }
  }

  lemma {:induction false} PrunedOthers(wal: seq<SqlRow>, doc: nat, cutoff: nat, d: nat)
    requires d != doc
    ensures RowsOf(Pruned(wal, doc, cutoff), d) == RowsOf(wal, d)
  {
    if wal != [] {
      PrunedOthers(wal[..|wal| - 1], doc, cutoff, d);
      RowsAppend(Pruned(wal[..|wal| - 1], doc, cutoff), wal[|wal| - 1], d);
    }
  }

  lemma {:induction false} PrunedIn(wal: seq<SqlRow>, doc: nat, cutoff: nat)
    ensures forall r :: r in Pruned(wal, doc, cutoff) ==> r in wal
  {
    if wal != [] {
      PrunedIn(wal[..|wal| - 1], doc, cutoff);
    }
  }

  function Folded(t: Tables, doc: nat, cutoff: nat, payload: Blob): Tables {
    t.(snapshots := t.snapshots[doc := Snap(HighWater(t, doc), payload)], wal := Pruned(t.wal, doc, cutoff))
  }

  /** Recording the high-water with the snapshot keeps it derivable after the
      rows that carried it are gone. */
  lemma FoldView(t: Tables, doc: nat, cutoff: nat, payload: Blob)
    ensures var r := Folded(t, doc, cutoff, payload);
            OthersKept(t, r, doc) && View(r, doc) == WriteSnapshot(View(t, doc), cutoff, payload)
  {
    var r := Folded(t, doc, cutoff, payload);
    PrunedOwn(t.wal, doc, cutoff);
    RetainedMax(RowsOf(t.wal, doc), cutoff);
    forall d | d != doc ensures View(r, d) == View(t, d) {
      PrunedOthers(t.wal, doc, cutoff, d);
    }
  }

  lemma WriteSnapshotKeyed(st: Store, cutoff: nat, payload: Blob)
    requires Keyed(st)
    ensures Keyed(WriteSnapshot(st, cutoff, payload))
  {
    RetainedKeyed(st.wal, cutoff);
    RetainedIn(st.wal, cutoff);
  }

  lemma FoldConsistent(t: Tables, doc: nat, cutoff: nat, payload: Blob)
    requires Consistent(t) && doc in t.docs
    ensures Consistent(Folded(t, doc, cutoff, payload))
  {
    FoldView(t, doc, cutoff, payload);
    assert DocKeyed(t, doc);
    WriteSnapshotKeyed(View(t, doc), cutoff, payload);
    KeyedElsewhere(t, Folded(t, doc, cutoff, payload), doc);
    PrunedIn(t.wal, doc, cutoff);
  }

  lemma CursorView(t: Tables, doc: nat, row: DocRow)
    requires Consistent(t)
    ensures var r := t.(docs := t.docs[doc := row]);
            && Consistent(r) && OthersKept(t, r, doc)
            && View(r, doc) == View(t, doc).(ackedSeq := row.ackedSeq, knownVV := row.knownVV)
  {
    var r := t.(docs := t.docs[doc := row]);
    assert DocKeyed(t, doc);
    KeyedElsewhere(t, r, doc);
  }

  lemma PushView(t: Tables, doc: nat, m: map<nat, InFlightPush>)
    requires Consistent(t) && m.Keys <= t.docs.Keys
    requires forall d :: d != doc ==> (d in m <==> d in t.inFlightPush) && (d in m ==> m[d] == t.inFlightPush[d])
    ensures var r := t.(inFlightPush := m);
            && Consistent(r) && OthersKept(t, r, doc)
            && View(r, doc) == View(t, doc).(inFlight := if doc in m then Some(m[doc]) else None)
  {
    var r := t.(inFlightPush := m);
    assert DocKeyed(t, doc);
    KeyedElsewhere(t, r, doc);
  }

  // ---- the backend ----

  class SqliteStorage {
    var docs: map<nat, DocRow>
    var snapshots: map<nat, Snap>
    var wal: seq<SqlRow>
    var inFlightPush: map<nat, InFlightPush>

    ghost function Content(): Tables
      reads this
    {
      Tables(docs, snapshots, wal, inFlightPush)
    }

    ghost predicate Valid()
      reads this
    {
      Consistent(Content())
    }

    constructor ()
      ensures Valid() && forall doc :: View(Content(), doc) == EMPTY
    {
      docs, snapshots, wal, inFlightPush := map[], map[], [], map[];
    }

    method EnsureDoc(doc: nat)
      requires Valid()
      modifies this`docs
      ensures Valid() && doc in docs
      ensures forall d :: View(Content(), d) == View(old(Content()), d)
    {
      if doc !in docs {
        CursorView(Content(), doc, NEVER_SYNCED);
        docs := docs[doc := NEVER_SYNCED];
      }
    }

    method MaxLocalSeq(doc: nat) returns (n: nat)
      ensures n == HighWater(Content(), doc)
    {
      n := 0;
      for i := 0 to |wal|
        invariant n == MaxSeq(RowsOf(wal[..i], doc))
      {
        assert wal[..i + 1] == wal[..i] + [wal[i]];
        RowsAppend(wal[..i], wal[i], doc);
        if wal[i].doc == doc {
          MaxAppend(RowsOf(wal[..i], doc), WalRow(wal[i].localSeq, wal[i].serverSeq, wal[i].payload));
          if n < wal[i].localSeq {
            n := wal[i].localSeq;
          }
        }
      }
      assert wal[..|wal|] == wal;
      if doc in snapshots && n < snapshots[doc].upToLocalSeq {
        n := snapshots[doc].upToLocalSeq;
      }
    }

    method SelectByServerSeq(doc: nat, k: nat) returns (existing: Option<nat>)
      ensures existing == FindServerSeq(RowsOf(wal, doc), k)
    {
      for i := 0 to |wal|
        invariant forall r :: r in RowsOf(wal[..i], doc) ==> r.serverSeq != Some(k)
      {
        assert wal[..i + 1] == wal[..i] + [wal[i]];
        RowsAppend(wal[..i], wal[i], doc);
        if wal[i].doc == doc && wal[i].serverSeq == Some(k) {
          var row := WalRow(wal[i].localSeq, wal[i].serverSeq, wal[i].payload);
          assert wal == wal[..i + 1] + wal[i + 1..];
          RowsConcat(wal[..i + 1], wal[i + 1..], doc);
          FindPast(RowsOf(wal[..i], doc), row, RowsOf(wal[i + 1..], doc), k);
          return Some(wal[i].localSeq);
        }
      }
      assert wal[..|wal|] == wal;
      existing := None;
    }

    method Boot(doc: nat) returns (meta: BootMeta, replay: seq<Blob>)
      ensures meta == Meta(View(Content(), doc)) && replay == ReplayBlobs(View(Content(), doc))
    {
      ghost var st := View(Content(), doc);
      var rows, bytes, payloads := 0, 0, [];
      for i := 0 to |wal|
        invariant rows == |RowsOf(wal[..i], doc)| && bytes == WalBytes(RowsOf(wal[..i], doc))
        invariant payloads == Payloads(RowsOf(wal[..i], doc))
      {
        assert wal[..i + 1] == wal[..i] + [wal[i]];
        RowsAppend(wal[..i], wal[i], doc);
        assert rows == |RowsOf(wal[..i], doc)|;
        if wal[i].doc == doc {
          WalOpsAppend(RowsOf(wal[..i], doc), WalRow(wal[i].localSeq, wal[i].serverSeq, wal[i].payload));
          rows, bytes, payloads := rows + 1, bytes + wal[i].payload.bytes, payloads + [wal[i].payload];
        }
      }
      assert wal[..|wal|] == wal;
      var high := MaxLocalSeq(doc);
      var row := if doc in docs then docs[doc] else NEVER_SYNCED;
      var push := if doc in inFlightPush then Some(inFlightPush[doc]) else None;
      meta := BootMeta(high, row.ackedSeq, row.knownVV, push, rows, bytes);
      replay := (if doc in snapshots then [snapshots[doc].payload] else []) + payloads;
    }

    method InsertRow(doc: nat, serverSeq: Option<nat>, payload: Blob) returns (localSeq: nat)
      requires Valid() && doc in docs
      requires serverSeq.Some? ==> FindServerSeq(View(Content(), doc).wal, serverSeq.value) == None
      modifies this`wal
      ensures Valid() && OthersKept(old(Content()), Content(), doc)
      ensures localSeq == View(old(Content()), doc).nextLocalSeq + 1
      ensures var st := View(old(Content()), doc);
              View(Content(), doc) ==
                st.(nextLocalSeq := localSeq, wal := st.wal + [WalRow(localSeq, serverSeq, payload)])
    {
      var high := MaxLocalSeq(doc);
      ghost var t := Content();
      InsertView(t, doc, serverSeq, payload);
      InsertConsistent(t, doc, serverSeq, payload);
      localSeq := high + 1;
      wal := wal + [SqlRow(doc, localSeq, serverSeq, payload)];
      assert Content() == Inserted(t, doc, serverSeq, payload);
    }

    method UpdateKnown(doc: nat, known: set<Op>)
      requires Valid() && doc in docs
      modifies this`docs
      ensures Valid() && OthersKept(old(Content()), Content(), doc) && doc in docs
      ensures View(Content(), doc) == WriteKnown(View(old(Content()), doc), known)
    {
      CursorView(Content(), doc, docs[doc].(knownVV := known));
      docs := docs[doc := docs[doc].(knownVV := known)];
    }

    method AppendLocalWal(doc: nat, payload: Blob) returns (localSeq: nat)
      requires Valid()
      modifies this
      ensures Valid() && OthersKept(old(Content()), Content(), doc)
      ensures View(Content(), doc) == AppendLocal(View(old(Content()), doc), payload)
      ensures localSeq == View(Content(), doc).nextLocalSeq
    {
      EnsureDoc(doc);
      localSeq := InsertRow(doc, None, payload);
    }

    method AppendRemoteWal(doc: nat, serverSeq: nat, payload: Blob, known: set<Op>)
      returns (localSeq: nat, inserted: bool)
      requires Valid()
      modifies this
      ensures Valid() && OthersKept(old(Content()), Content(), doc)
      ensures View(Content(), doc) == AppendRemote(View(old(Content()), doc), serverSeq, payload, known)
      ensures var existing := FindServerSeq(View(old(Content()), doc).wal, serverSeq);
              && (inserted <==> existing == None)
              && localSeq == if inserted then View(Content(), doc).nextLocalSeq else existing.value
    {
      EnsureDoc(doc);
      UpdateKnown(doc, known);
      var existing := SelectByServerSeq(doc, serverSeq);
      if existing.Some? {
        return existing.value, false;
      }
      localSeq := InsertRow(doc, Some(serverSeq), payload);
      inserted := true;
    }

    method DeleteUpTo(doc: nat, cutoff: nat)
      modifies this`wal
      ensures wal == Pruned(old(wal), doc, cutoff)
    {
      var kept := [];
      for i := 0 to |wal|
        invariant kept == Pruned(wal[..i], doc, cutoff) && wal == old(wal)
      {
        assert wal[..i + 1][..i] == wal[..i];
        if !(wal[i].doc == doc && wal[i].localSeq <= cutoff) {
          kept := kept + [wal[i]];
        }
      }
      assert wal[..|wal|] == wal;
      wal := kept;
    }

    method PutSnapshot(doc: nat, cutoff: nat, payload: Blob)
      requires Valid()
      modifies this
      ensures Valid() && OthersKept(old(Content()), Content(), doc)
      ensures View(Content(), doc) == WriteSnapshot(View(old(Content()), doc), cutoff, payload)
    {
      EnsureDoc(doc);
      var high := MaxLocalSeq(doc);
      FoldView(Content(), doc, cutoff, payload);
      FoldConsistent(Content(), doc, cutoff, payload);
      snapshots := snapshots[doc := Snap(high, payload)];
      DeleteUpTo(doc, cutoff);
    }

    method PutAckedSeq(doc: nat, seqNo: nat)
      requires Valid()
      modifies this
      ensures Valid() && OthersKept(old(Content()), Content(), doc)
      ensures View(Content(), doc) == WriteAcked(View(old(Content()), doc), seqNo)
    {
      EnsureDoc(doc);
      CursorView(Content(), doc, docs[doc].(ackedSeq := seqNo));
      docs := docs[doc := docs[doc].(ackedSeq := seqNo)];
    }

    method PutKnownVV(doc: nat, known: set<Op>)
      requires Valid()
      modifies this
      ensures Valid() && OthersKept(old(Content()), Content(), doc)
      ensures View(Content(), doc) == WriteKnown(View(old(Content()), doc), known)
    {
      EnsureDoc(doc);
      UpdateKnown(doc, known);
    }

    method PutInFlightPush(doc: nat, push: InFlightPush)
      requires Valid()
      modifies this
      ensures Valid() && OthersKept(old(Content()), Content(), doc)
      ensures View(Content(), doc) == PutInFlight(View(old(Content()), doc), push)
    {
      EnsureDoc(doc);
      PushView(Content(), doc, inFlightPush[doc := push]);
      inFlightPush := inFlightPush[doc := push];
    }

    method FinishPush(doc: nat, id: nat, known: set<Op>)
      requires Valid()
      modifies this
      ensures Valid() && OthersKept(old(Content()), Content(), doc)
      ensures View(Content(), doc) == CompletePush(View(old(Content()), doc), id, known)
    {
      EnsureDoc(doc);
      UpdateKnown(doc, known);
      if doc in inFlightPush && inFlightPush[doc].id == id {
        PushView(Content(), doc, inFlightPush - {doc});
        inFlightPush := inFlightPush - {doc};
      }
    }
  }
}

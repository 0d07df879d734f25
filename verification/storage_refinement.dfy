/** Both backends answer every sequence of storage calls alike, and what the
    contract they share promises over whole sequences. */
module StorageRefinement {
  import opened Wrappers
  import opened Operations
  import opened Protocol
  import opened LocalStore
  import opened MemoryStorage
  import SqliteTables

  datatype StorageCall =
    | BootDoc
    | LocalRow(payload: Blob)
    | RemoteRow(serverSeq: nat, payload: Blob, known: set<Op>)
    | Snapshot(cutoff: nat, payload: Blob)
    | AckedSeq(seqNo: nat)
    | KnownVV(known: set<Op>)
    | RecordPush(push: InFlightPush)
    | FinishPush(id: nat, known: set<Op>)

  datatype Reply =
    | Done
    | Row(localSeq: nat, inserted: bool)
    | Booted(meta: BootMeta, replay: seq<Blob>)

  function After(st: Store, call: StorageCall): Store {
    match call
    case BootDoc => st
    case LocalRow(payload) => AppendLocal(st, payload)
    case RemoteRow(k, payload, known) => AppendRemote(st, k, payload, known)
    case Snapshot(cutoff, payload) => WriteSnapshot(st, cutoff, payload)
    case AckedSeq(n) => WriteAcked(st, n)
    case KnownVV(known) => WriteKnown(st, known)
    case RecordPush(push) => PutInFlight(st, push)
    case FinishPush(id, known) => CompletePush(st, id, known)
  }

  function Answer(st: Store, call: StorageCall): Reply {
    match call
    case BootDoc => Booted(Meta(st), ReplayBlobs(st))
    case LocalRow(_) => Row(st.nextLocalSeq + 1, true)
    case RemoteRow(k, _, _) =>
      var existing := FindServerSeq(st.wal, k);
      if existing.Some? then Row(existing.value, false) else Row(st.nextLocalSeq + 1, true)
    case _ => Done
  }

  function AfterAll(st: Store, calls: seq<StorageCall>): Store {
    if calls == [] then st else After(AfterAll(st, calls[..|calls| - 1]), calls[|calls| - 1])
  }

  // ---- the two backends ----

  method OnMem(mem: MemStorage, call: StorageCall) returns (reply: Reply)
    modifies mem
    ensures mem.Contents() == After(old(mem.Contents()), call)
    ensures reply == Answer(old(mem.Contents()), call)
  {
    reply := Done;
    match call {
      case BootDoc =>
        var meta, replay := mem.Boot();
        reply := Booted(meta, replay);
      case LocalRow(payload) =>
        var n := mem.AppendLocalWal(payload);
        reply := Row(n, true);
      case RemoteRow(k, payload, known) =>
        var n, inserted := mem.AppendRemoteWal(k, payload, known);
        reply := Row(n, inserted);
      case Snapshot(cutoff, payload) => mem.PutSnapshot(cutoff, payload);
      case AckedSeq(n) => mem.PutAckedSeq(n);
      case KnownVV(known) => mem.PutKnownVV(known);
      case RecordPush(push) => mem.PutInFlightPush(push);
      case FinishPush(id, known) => mem.FinishPush(id, known);
    }
  }

  method OnSql(sql: SqliteTables.SqliteStorage, doc: nat, call: StorageCall) returns (reply: Reply)
    requires sql.Valid()
    modifies sql
    ensures sql.Valid()
    ensures SqliteTables.OthersKept(old(sql.Content()), sql.Content(), doc)
    ensures SqliteTables.View(sql.Content(), doc) == After(SqliteTables.View(old(sql.Content()), doc), call)
    ensures reply == Answer(SqliteTables.View(old(sql.Content()), doc), call)
  {
    reply := Done;
    match call {
      case BootDoc =>
        var meta, replay := sql.Boot(doc);
        reply := Booted(meta, replay);
      case LocalRow(payload) =>
        var n := sql.AppendLocalWal(doc, payload);
        reply := Row(n, true);
      case RemoteRow(k, payload, known) =>
        var n, inserted := sql.AppendRemoteWal(doc, k, payload, known);
        reply := Row(n, inserted);
      case Snapshot(cutoff, payload) => sql.PutSnapshot(doc, cutoff, payload);
      case AckedSeq(n) => sql.PutAckedSeq(doc, n);
      case KnownVV(known) => sql.PutKnownVV(doc, known);
      case RecordPush(push) => sql.PutInFlightPush(doc, push);
      case FinishPush(id, known) => sql.FinishPush(doc, id, known);
    }
  }

  /** Whatever the calls, the backends reply alike, and end alike; SQLite's
      other docs read as before. */
  method SameReplies(mem: MemStorage, sql: SqliteTables.SqliteStorage, doc: nat, calls: seq<StorageCall>)
    returns (a: seq<Reply>, b: seq<Reply>)
    requires sql.Valid() && SqliteTables.View(sql.Content(), doc) == mem.Contents()
    modifies mem, sql
    ensures a == b && |a| == |calls|
    ensures SqliteTables.View(sql.Content(), doc) == mem.Contents() == AfterAll(old(mem.Contents()), calls)
    ensures sql.Valid() && SqliteTables.OthersKept(old(sql.Content()), sql.Content(), doc)
  {
    a, b := [], [];
    for i := 0 to |calls|
      invariant a == b && |a| == i
      invariant SqliteTables.View(sql.Content(), doc) == mem.Contents() == AfterAll(old(mem.Contents()), calls[..i])
      invariant sql.Valid() && SqliteTables.OthersKept(old(sql.Content()), sql.Content(), doc)
    {
      assert calls[..i + 1][..i] == calls[..i];
      var x := OnMem(mem, calls[i]);
      var y := OnSql(sql, doc, calls[i]);
      a, b := a + [x], b + [y];
    }
    assert calls[..|calls|] == calls;
  }

  // ---- what any backend promises over a sequence ----

  lemma CounterRises(st: Store, call: StorageCall)
    ensures st.nextLocalSeq <= After(st, call).nextLocalSeq
    ensures var r := Answer(st, call);
            r.Row? && r.inserted ==> r.localSeq == st.nextLocalSeq + 1 == After(st, call).nextLocalSeq
  {}

  lemma {:induction false} CounterNeverFalls(st: Store, calls: seq<StorageCall>, i: nat)
    requires i <= |calls|
    ensures AfterAll(st, calls[..i]).nextLocalSeq <= AfterAll(st, calls).nextLocalSeq
    decreases |calls|
  {
    if i == |calls| {
      assert calls[..i] == calls;
    } else {
      var before := calls[..|calls| - 1];
      CounterNeverFalls(st, before, i);
      assert before[..i] == calls[..i];
      CounterRises(AfterAll(st, before), calls[|calls| - 1]);
    }
  }

  /** A local sequence number is given out once, whatever is pruned between. */
  lemma NeverReused(st: Store, calls: seq<StorageCall>, i: nat, j: nat)
    requires i < j < |calls|
    requires var r := Answer(AfterAll(st, calls[..i]), calls[i]); r.Row? && r.inserted
    requires var r := Answer(AfterAll(st, calls[..j]), calls[j]); r.Row? && r.inserted
    ensures Answer(AfterAll(st, calls[..i]), calls[i]).localSeq < Answer(AfterAll(st, calls[..j]), calls[j]).localSeq
  {
    CounterRises(AfterAll(st, calls[..i]), calls[i]);
    CounterRises(AfterAll(st, calls[..j]), calls[j]);
    CounterNeverFalls(st, calls[..j], i + 1);
    assert calls[..j][..i + 1] == calls[..i + 1];
    assert calls[..i + 1][..i] == calls[..i];
  }

  lemma {:induction false} FindInTail(wal: seq<WalRow>, row: WalRow, k: nat)
    requires row.serverSeq == Some(k) && FindServerSeq(wal, k) == None
    ensures FindServerSeq(wal + [row], k) == Some(row.localSeq)
  {
    assert wal + [row] + [] == wal + [row];
    SqliteTables.FindPast(wal, row, [], k);
  }

  /** A row delivered again gets its first number back and stores nothing. */
  lemma RedeliveryIsIdempotent(st: Store, k: nat, p: Blob, q: Blob, v: set<Op>, u: set<Op>)
    ensures var once := AppendRemote(st, k, p, v);
            && AppendRemote(once, k, q, u) == once.(knownVV := u)
            && Answer(once, RemoteRow(k, q, u)) == Row(Answer(st, RemoteRow(k, p, v)).localSeq, false)
  {
    if FindServerSeq(st.wal, k) == None {
      FindInTail(st.wal, WalRow(st.nextLocalSeq + 1, Some(k), p), k);
    }
  }

  /** Pruning is exact: a row survives a snapshot exactly when it is past the
      cutoff, and the survivors keep their order. */
  lemma SnapshotPrunes(st: Store, cutoff: nat, payload: Blob, row: WalRow)
    ensures row in WriteSnapshot(st, cutoff, payload).wal <==> row in st.wal && cutoff < row.localSeq
    ensures SqliteTables.Keyed(st) ==> SqliteTables.Keyed(WriteSnapshot(st, cutoff, payload))
  {
    RetainedIn(st.wal, cutoff);
    if SqliteTables.Keyed(st) {
      SqliteTables.WriteSnapshotKeyed(st, cutoff, payload);
    }
  }
}

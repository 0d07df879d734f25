/** The replicated doc as the engine sees it: the operations it holds and the
    capture cursor, a version vector. Merging is union. */
module Documents {
  import opened Wrappers
  import opened Operations
  import opened Protocol

  datatype Doc = Doc(ops: set<Op>, persisted: set<Op>)

  const EMPTY_DOC: Doc := Doc({}, {})

  function OplogVV(c: Codec, d: Doc): set<Op> { c.bound(d.ops) }

  function Seal(c: Codec, ops: set<Op>): Blob { Blob(ops, c.bytes(ops)) }

  predicate HasUncaptured(c: Codec, d: Doc) { OplogVV(c, d) != d.persisted }

  function PendingExport(c: Codec, d: Doc): Blob { Seal(c, d.ops - d.persisted) }

  /** Everything past `from`; nothing when `from` covers the whole doc. */
  function ExportSince(c: Codec, d: Doc, from: set<Op>): Option<Blob> {
    if OplogVV(c, d) <= from then None else Some(Seal(c, d.ops - from))
  }

  function SnapshotBlob(c: Codec, d: Doc): Blob { Seal(c, d.ops) }

  function SnapshotBlobAt(c: Codec, d: Doc, vv: set<Op>): Blob { Seal(c, d.ops * vv) }

  function DeltaBlobBetween(c: Codec, d: Doc, from: set<Op>, to: set<Op>): Blob {
    Seal(c, d.ops * (to - from))
  }

  function MarkPersistedAt(d: Doc, vv: set<Op>): Doc { d.(persisted := d.persisted + vv) }

  function BlobOps(blobs: seq<Blob>): set<Op> {
    if blobs == [] then {} else BlobOps(blobs[..|blobs| - 1]) + blobs[|blobs| - 1].ops
  }

  /** The union of the ranges the blobs declare. */
  function BlobRange(c: Codec, blobs: seq<Blob>): set<Op> {
    if blobs == [] then {}
    else BlobRange(c, blobs[..|blobs| - 1]) + c.bound(blobs[|blobs| - 1].ops)
  }

  /** Import every blob; the capture cursor advances by what they declare. */
  function ApplyRemote(c: Codec, d: Doc, blobs: seq<Blob>): Doc {
    Doc(d.ops + BlobOps(blobs), d.persisted + BlobRange(c, blobs))
  }

  method ApplyRemoteBatch(c: Codec, d: Doc, blobs: seq<Blob>) returns (r: Doc, imported: set<Op>)
    ensures r == ApplyRemote(c, d, blobs)
    ensures imported == BlobRange(c, blobs)
  {
    r, imported := d, {};
    for i := 0 to |blobs|
      invariant r == ApplyRemote(c, d, blobs[..i])
      invariant imported == BlobRange(c, blobs[..i])
    {
      assert blobs[..i + 1][..i] == blobs[..i];
      var declared := c.bound(blobs[i].ops);
      r := Doc(r.ops + blobs[i].ops, r.persisted + declared);
      imported := imported + declared;
    }
    assert blobs[..|blobs|] == blobs;
  }

  lemma {:induction false} BlobIn(c: Codec, blobs: seq<Blob>, i: nat)
    requires i < |blobs|
    ensures blobs[i].ops <= BlobOps(blobs) && c.bound(blobs[i].ops) <= BlobRange(c, blobs)
  {
    if i < |blobs| - 1 {
      assert blobs[..|blobs| - 1][i] == blobs[i];
      BlobIn(c, blobs[..|blobs| - 1], i);
    }
  }

  lemma {:induction false} BlobsWithin(c: Codec, blobs: seq<Blob>, s: set<Op>, r: set<Op>)
    requires forall b :: b in blobs ==> b.ops <= s && c.bound(b.ops) <= r
    ensures BlobOps(blobs) <= s && BlobRange(c, blobs) <= r
  {
    if blobs != [] {
      BlobsWithin(c, blobs[..|blobs| - 1], s, r);
    }
  }

  lemma {:induction false} RangeCovers(c: Codec, blobs: seq<Blob>)
    requires c.Valid()
    ensures BlobOps(blobs) <= BlobRange(c, blobs) && Closed(BlobRange(c, blobs))
  {
    if blobs != [] {
      RangeCovers(c, blobs[..|blobs| - 1]);
      assert c.Bounded(blobs[|blobs| - 1].ops);
    }
  }
}

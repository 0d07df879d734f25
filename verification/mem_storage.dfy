/** The in-memory backend. Each method leaves the store that the storage
    contract's function for it describes, and records it in `history`. */
module MemoryStorage {
  import opened Wrappers
  import opened Operations
  import opened Protocol
  import opened LocalStore

  class MemStorage {
    var nextLocalSeq: nat
    var snapshot: Option<Snap>
    var wal: seq<WalRow>
    var ackedSeq: nat
    var knownVV: set<Op>
    var inFlight: Option<InFlightPush>
    ghost var history: seq<Store>

    ghost function Contents(): Store
      reads this
    {
      Store(nextLocalSeq, snapshot, wal, ackedSeq, knownVV, inFlight)
    }

    constructor ()
      ensures Contents() == EMPTY && history == [EMPTY]
    {
      nextLocalSeq, snapshot, wal, ackedSeq, knownVV, inFlight := 0, None, [], 0, {}, None;
      history := [EMPTY];
    }

    method Boot() returns (meta: BootMeta, replay: seq<Blob>)
      ensures meta == Meta(Contents()) && replay == ReplayBlobs(Contents())
    {
      var bytes := 0;
      var payloads := [];
      for i := 0 to |wal|
        invariant bytes == WalBytes(wal[..i])
        invariant payloads == Payloads(wal[..i])
      {
        assert wal[..i + 1][..i] == wal[..i];
        bytes := bytes + wal[i].payload.bytes;
        payloads := payloads + [wal[i].payload];
      }
      assert wal[..|wal|] == wal;
      meta := BootMeta(nextLocalSeq, ackedSeq, knownVV, inFlight, |wal|, bytes);
      replay := (if snapshot.Some? then [snapshot.value.payload] else []) + payloads;
    }

    method AppendLocalWal(payload: Blob) returns (localSeq: nat)
      modifies this
      ensures Contents() == AppendLocal(old(Contents()), payload)
      ensures localSeq == Contents().nextLocalSeq
      ensures history == old(history) + [Contents()]
    {
      nextLocalSeq := nextLocalSeq + 1;
      localSeq := nextLocalSeq;
      wal := wal + [WalRow(localSeq, None, payload)];
      history := history + [Contents()];
    }

    method FindRemote(serverSeq: nat) returns (existing: Option<nat>)
      ensures existing == FindServerSeq(wal, serverSeq)
    {
      for i := 0 to |wal|
        invariant FindServerSeq(wal, serverSeq) == FindServerSeq(wal[i..], serverSeq)
      {
        if wal[i].serverSeq == Some(serverSeq) {
          return Some(wal[i].localSeq);
        }
        assert wal[i..][1..] == wal[i + 1..];
      }
      existing := None;
    }

    method AppendRemoteWal(serverSeq: nat, payload: Blob, known: set<Op>) returns (localSeq: nat, inserted: bool)
      modifies this
      ensures Contents() == AppendRemote(old(Contents()), serverSeq, payload, known)
      ensures inserted <==> FindServerSeq(old(wal), serverSeq) == None
      ensures localSeq == (if inserted then Contents().nextLocalSeq else FindServerSeq(old(wal), serverSeq).value)
      ensures history == old(history) + [Contents()]
    {
      knownVV := known;
      var existing := FindRemote(serverSeq);
      if existing.Some? {
        localSeq, inserted := existing.value, false;
      } else {
        nextLocalSeq := nextLocalSeq + 1;
        localSeq, inserted := nextLocalSeq, true;
        wal := wal + [WalRow(localSeq, Some(serverSeq), payload)];
      }
      history := history + [Contents()];
    }

    method Retain(cutoff: nat) returns (kept: seq<WalRow>)
      ensures kept == Retained(wal, cutoff)
    {
      kept := [];
      for i := 0 to |wal|
        invariant kept == Retained(wal[..i], cutoff)
      {
        RetainedAppend(wal[..i], wal[i], cutoff);
        assert wal[..i + 1] == wal[..i] + [wal[i]];
        if cutoff < wal[i].localSeq {
          kept := kept + [wal[i]];
        }
      }
      assert wal[..|wal|] == wal;
    }

    method PutSnapshot(cutoff: nat, payload: Blob)
      modifies this
      ensures Contents() == WriteSnapshot(old(Contents()), cutoff, payload)
      ensures history == old(history) + [Contents()]
    {
      snapshot := Some(Snap(nextLocalSeq, payload));
      wal := Retain(cutoff);
      history := history + [Contents()];
    }

    method PutAckedSeq(seqNo: nat)
      modifies this
      ensures Contents() == WriteAcked(old(Contents()), seqNo)
      ensures history == old(history) + [Contents()]
    {
      ackedSeq := seqNo;
      history := history + [Contents()];
    }

    method PutKnownVV(known: set<Op>)
      modifies this
      ensures Contents() == WriteKnown(old(Contents()), known)
      ensures history == old(history) + [Contents()]
    {
      knownVV := known;
      history := history + [Contents()];
    }

    method PutInFlightPush(push: InFlightPush)
      modifies this
      ensures Contents() == PutInFlight(old(Contents()), push)
      ensures history == old(history) + [Contents()]
    {
      inFlight := Some(push);
      history := history + [Contents()];
    }

    method FinishPush(id: nat, known: set<Op>)
      modifies this
      ensures Contents() == CompletePush(old(Contents()), id, known)
      ensures history == old(history) + [Contents()]
    {
      knownVV := known;
      if inFlight.Some? && inFlight.value.id == id {
        inFlight := None;
      }
      history := history + [Contents()];
    }
  }
}

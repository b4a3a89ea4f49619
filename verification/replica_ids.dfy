/**
 * Replica identifiers (`[u8; 32]`) and their fixed-stride flattening into
 * the contiguous buffer the native `pc1` reads through one pointer.
 */
module ReplicaIds {
  import opened Bytes

  const IdSize: nat := 32

  /** A `[u8; 32]` replica identifier. */
  type ReplicaId = s: seq<u8> | |s| == IdSize witness seq(32, _ => 0)

  /** Cuts a buffer back into consecutive 32-byte identifiers. */
  function Chunk(buf: seq<u8>): (ids: seq<ReplicaId>)
    requires |buf| % IdSize == 0
    ensures |ids| * IdSize == |buf|
    ensures forall i, j :: 0 <= i < |ids| && 0 <= j < IdSize ==> ids[i][j] == buf[IdSize * i + j]
  {
    if |buf| == 0 then []
    else
      var rest := Chunk(buf[IdSize..]);
      [buf[..IdSize]] + rest
  }

  /** The buffer holds exactly 32 bytes per identifier. */
  lemma {:induction false} FlattenIdsLength(ids: seq<ReplicaId>)
    ensures |Flatten(ids)| == IdSize * |ids|
  {
    if ids != [] {
      FlattenIdsLength(ids[1..]);
    }
  }

  /** Byte `32 * i + j` of the buffer is byte `j` of identifier `i`. */
  lemma {:induction false} FlattenIdsAt(ids: seq<ReplicaId>, i: nat, j: nat)
    requires i < |ids| && j < IdSize
    ensures IdSize * i + j < |Flatten(ids)|
    ensures Flatten(ids)[IdSize * i + j] == ids[i][j]
  {
    FlattenIdsLength(ids);
    if i > 0 {
      FlattenIdsAt(ids[1..], i - 1, j);
      assert Flatten(ids) == ids[0] + Flatten(ids[1..]);
    }
  }

  /** Re-chunking the flattened buffer gives back the ordered identifiers. */
  lemma ChunkFlattenIds(ids: seq<ReplicaId>)
    ensures |Flatten(ids)| % IdSize == 0
    ensures Chunk(Flatten(ids)) == ids
  {
    FlattenIdsLength(ids);
    var back := Chunk(Flatten(ids));
    forall i | 0 <= i < |ids|
      ensures back[i] == ids[i]
    {
      forall j | 0 <= j < IdSize
        ensures back[i][j] == ids[i][j]
      {
        FlattenIdsAt(ids, i, j);
      }
    }
  }

  /** Every 32-aligned buffer is the flattening of its chunks. */
  lemma {:induction false} FlattenIdsChunk(buf: seq<u8>)
    requires |buf| % IdSize == 0
    ensures Flatten(Chunk(buf)) == buf
  {
    if |buf| > 0 {
      FlattenIdsChunk(buf[IdSize..]);
      assert buf == buf[..IdSize] + buf[IdSize..];
    }
  }

  /** Distinct batches give distinct buffers: the layout loses nothing. */
  lemma FlattenIdsInjective(a: seq<ReplicaId>, b: seq<ReplicaId>)
    requires Flatten(a) == Flatten(b)
    ensures a == b
  {
    ChunkFlattenIds(a);
    ChunkFlattenIds(b);
  }
}

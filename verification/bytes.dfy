/**
 * Machine integer types of the wrapper's signatures and the byte-level
 * `flatten().collect::<Vec<u8>>()` that the wrapper applies to lists of
 * byte strings.
 */
module Bytes {
  newtype u8 = x: int | 0 <= x < 0x100
  newtype u32 = x: int | 0 <= x < 0x1_0000_0000
  /** `usize` on a 64-bit target. */
  newtype usize = x: int | 0 <= x < 0x1_0000_0000_0000_0000

  /** Sum of the lengths of the pieces. */
  function TotalLength(pieces: seq<seq<u8>>): nat
  {
    if pieces == [] then 0 else |pieces[0]| + TotalLength(pieces[1..])
  }

  /** Where piece `i` starts in the flattened buffer. */
  function Offset(pieces: seq<seq<u8>>, i: nat): nat
    requires i <= |pieces|
  {
    TotalLength(pieces[..i])
  }

  /**
   * Iterator `flatten` collected into a `Vec<u8>`: the pieces one after
   * the other, nothing added between or after them.
   */
  function Flatten(pieces: seq<seq<u8>>): (r: seq<u8>)
    ensures |r| == TotalLength(pieces)
  {
    if pieces == [] then [] else pieces[0] + Flatten(pieces[1..])
  }

  lemma {:induction false} TotalLengthAppend(pieces: seq<seq<u8>>, last: seq<u8>)
    ensures TotalLength(pieces + [last]) == TotalLength(pieces) + |last|
  {
    if pieces != [] {
      assert (pieces + [last])[1..] == pieces[1..] + [last];
      TotalLengthAppend(pieces[1..], last);
    }
  }

  lemma {:induction false} FlattenAppend(pieces: seq<seq<u8>>, last: seq<u8>)
    ensures Flatten(pieces + [last]) == Flatten(pieces) + last
  {
    if pieces != [] {
      assert (pieces + [last])[1..] == pieces[1..] + [last];
      FlattenAppend(pieces[1..], last);
    }
  }

  /**
   * Piece `i` sits unchanged at its offset, ending where piece `i + 1`
   * begins: no separator or terminator is inserted.
   */
  lemma {:induction false} FlattenPlacesPiece(pieces: seq<seq<u8>>, i: nat)
    requires i < |pieces|
    ensures Offset(pieces, i) + |pieces[i]| == Offset(pieces, i + 1) <= |Flatten(pieces)|
    ensures Flatten(pieces)[Offset(pieces, i)..Offset(pieces, i + 1)] == pieces[i]
  {
    var pre := pieces[..i];
    assert pieces[..i + 1] == pre + [pieces[i]];
    TotalLengthAppend(pre, pieces[i]);
    FlattenAppend(pre, pieces[i]);
    FlattenPrefix(pieces, i + 1);
    var whole := Flatten(pieces);
    var head := Flatten(pieces[..i + 1]);
    assert whole[..|head|] == head;
    assert head == Flatten(pre) + pieces[i];
    assert |Flatten(pre)| == Offset(pieces, i);
  }

  /** Flattening a prefix of the pieces gives a prefix of the buffer. */
  lemma {:induction false} FlattenPrefix(pieces: seq<seq<u8>>, k: nat)
    requires k <= |pieces|
    ensures Flatten(pieces) == Flatten(pieces[..k]) + Flatten(pieces[k..])
  {
    if k > 0 {
      assert pieces[..k][1..] == pieces[1..][..k - 1];
      assert pieces[k..] == pieces[1..][k - 1..];
      FlattenPrefix(pieces[1..], k - 1);
    }
  }

  /**
   * The buffer contains a 0 byte exactly when some piece does: flattening
   * adds no terminators.
   */
  lemma {:induction false} FlattenHasNulIff(pieces: seq<seq<u8>>)
    ensures 0 in Flatten(pieces) <==> exists i :: 0 <= i < |pieces| && 0 in pieces[i]
  {
    if pieces != [] {
      FlattenHasNulIff(pieces[1..]);
      assert 0 in Flatten(pieces) <==> 0 in pieces[0] || 0 in Flatten(pieces[1..]);
      if 0 in Flatten(pieces[1..]) {
        var j :| 0 <= j < |pieces[1..]| && 0 in pieces[1..][j];
        assert 0 in pieces[j + 1];
      }
      if exists i :: 0 <= i < |pieces| && 0 in pieces[i] {
        var i :| 0 <= i < |pieces| && 0 in pieces[i];
        if i > 0 {
          assert 0 in pieces[1..][i - 1];
        }
      }
    }
  }
}

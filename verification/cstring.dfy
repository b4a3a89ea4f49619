/**
 * `std::ffi::CString::new` on the bytes of a Unix path
 * (`as_os_str().as_bytes()` is the identity on bytes there) and the
 * inverse view `CStr::to_bytes`.
 */
module CStrings {
  import opened Wrappers
  import opened Bytes

  /** A NUL-terminated byte string with no interior NUL. */
  predicate IsCString(c: seq<u8>)
  {
    |c| >= 1 && c[|c| - 1] == 0 && 0 !in c[..|c| - 1]
  }

  type CString = c: seq<u8> | IsCString(c) witness [0]

  /** `NulError`: where the first 0 byte is, and the rejected bytes. */
  datatype NulError = NulError(position: nat, bytes: seq<u8>)

  /** `memchr(0, bytes)`: the index of the first 0 byte, if any. */
  function FindNul(bytes: seq<u8>): (r: Option<nat>)
    ensures r.None? <==> 0 !in bytes
    ensures r.Some? ==> r.value < |bytes| && bytes[r.value] == 0
    ensures r.Some? ==> forall k :: 0 <= k < r.value ==> bytes[k] != 0
  {
    if bytes == [] then None
    else if bytes[0] == 0 then Some(0)
    else
      match FindNul(bytes[1..])
      case None => None
      case Some(i) =>
        Some(i + 1)
  }

  /**
   * `CString::new`: refuses bytes holding a 0, reporting the first one;
   * otherwise appends a single terminating 0.
   */
  function New(bytes: seq<u8>): (r: Result<CString, NulError>)
    ensures r.Failure? <==> 0 in bytes
    ensures r.Failure? ==> r.error.bytes == bytes && r.error.position < |bytes|
    ensures r.Failure? ==> bytes[r.error.position] == 0
    ensures r.Failure? ==> forall k :: 0 <= k < r.error.position ==> bytes[k] != 0
    ensures r.Success? ==> |r.value| == |bytes| + 1 && r.value[..|bytes|] == bytes
  {
    match FindNul(bytes)
    case Some(i) => Failure(NulError(i, bytes))
    case None =>
      assert (bytes + [0])[..|bytes|] == bytes;
      Success(bytes + [0])
  }

  /** `CStr::to_bytes`: the string without its terminator. */
  function ToBytes(c: CString): (r: seq<u8>)
    ensures |r| + 1 == |c| && 0 !in r
  {
    c[..|c| - 1]
  }

  /** Encoding a NUL-free path and dropping the terminator gives back the path. */
  lemma NewToBytes(bytes: seq<u8>)
    requires 0 !in bytes
    ensures New(bytes).Success? && ToBytes(New(bytes).value) == bytes
  {
  }

  /** Every C string is the encoding of its bytes. */
  lemma ToBytesNew(c: CString)
    ensures New(ToBytes(c)) == Success(c)
  {
    assert ToBytes(c) + [0] == c;
  }

  /** Two paths that encode successfully encode equally only if they are equal. */
  lemma NewInjective(a: seq<u8>, b: seq<u8>)
    requires New(a).Success? && New(b).Success? && New(a) == New(b)
    ensures a == b
  {
    NewToBytes(a);
    NewToBytes(b);
  }
}

// Small shared value types used across the model.

module Wrappers {
  datatype Option<T> = None | Some(value: T)
  {
    predicate IsSome() { Some? }
  }

  /** An operation that either produces a value or throws with a message. */
  datatype Result<T> = Ok(value: T) | Err(error: string)
}

module Bytes {
  /** One octet as stored in an ArrayBuffer / Uint8Array. */
  type byte = x: int | 0 <= x < 256

  /** Two's-complement, little-endian int16 as written by DataView.setInt16(_, _, true). */
  function LE16(v: int): (r: seq<byte>)
    ensures |r| == 2
    ensures r[0] as int + 256 * (r[1] as int) == v % 65536
  {
    var u := v % 65536;
    [u % 256, u / 256]
  }

  /** Two's-complement, little-endian int32 as written by DataView.setInt32(_, _, true). */
  function LE32(v: int): (r: seq<byte>)
    ensures |r| == 4
  {
    var u := v % 4294967296;
    var q1 := u / 256;
    var q2 := q1 / 256;
    [u % 256, q1 % 256, q2 % 256, q2 / 256]
  }

  /** Reads back an unsigned little-endian 32-bit word. */
  function ReadLE32(b: seq<byte>): (r: nat)
    requires |b| == 4
  {
    b[0] as int + 256 * ((b[1] as int) + 256 * ((b[2] as int) + 256 * (b[3] as int)))
  }

  /** The four bytes of LE32(v) spell v modulo 2^32. */
  lemma LE32Value(v: int)
    ensures ReadLE32(LE32(v)) == v % 4294967296
  {
    var u := v % 4294967296;
    var q1 := u / 256;
    var q2 := q1 / 256;
    assert u == u % 256 + 256 * q1;
    assert q1 == q1 % 256 + 256 * q2;
    assert q2 == q2 % 256 + 256 * (q2 / 256);
  }

  lemma AppendAssoc(a: seq<byte>, b: seq<byte>, c: seq<byte>)
    ensures a + (b + c) == (a + b) + c
  {
  }

  /** n zero bytes, the content of a freshly allocated Uint8Array(n). */
  function Zeros(n: nat): (r: seq<byte>)
    ensures |r| == n
    ensures forall i :: 0 <= i < n ==> r[i] == 0
  {
    seq(n, _ => 0)
  }
}

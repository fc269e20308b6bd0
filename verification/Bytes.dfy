/** Byte strings and the big-endian 32-bit integers of struct.pack(">I", n). */
module Bytes {

  newtype byte = x: int | 0 <= x < 256

  type Bytes = seq<byte>

  datatype Option<T> = None | Some(value: T)

  predicate FitsU32(n: int) {
    0 <= n < 0x1_0000_0000
  }

  function PackU32(n: int): (b: Bytes)
    requires FitsU32(n)
    ensures |b| == 4
  {
    [(n / 0x100_0000) as byte, (n / 0x1_0000 % 0x100) as byte, (n / 0x100 % 0x100) as byte, (n % 0x100) as byte]
  }

  function UnpackU32(b: Bytes): (n: int)
    requires |b| == 4
    ensures FitsU32(n)
  {
    b[0] as int * 0x100_0000 + b[1] as int * 0x1_0000 + b[2] as int * 0x100 + b[3] as int
  }

  lemma UnpackPack(n: int)
    requires FitsU32(n)
    ensures UnpackU32(PackU32(n)) == n
  {
    var q1 := n / 0x100;
    var q2, q3 := q1 / 0x100, q1 / 0x100 / 0x100;
    QuotientOfQuotient(n);
    assert n == q1 * 0x100 + n % 0x100;
    assert q1 == q2 * 0x100 + q1 % 0x100;
    assert q2 == q3 * 0x100 + q2 % 0x100;
  }

  lemma QuotientOfQuotient(n: nat)
    ensures n / 0x100 / 0x100 == n / 0x1_0000 && n / 0x100 / 0x100 / 0x100 == n / 0x100_0000
  {
  }

  lemma PackInjective(m: int, n: int)
    requires FitsU32(m) && FitsU32(n) && PackU32(m) == PackU32(n)
    ensures m == n
  {
    UnpackPack(m);
    UnpackPack(n);
  }

  lemma SliceOfSlice<T>(s: seq<T>, lo: nat, hi: nat, i: nat, j: nat)
    requires lo <= hi <= |s| && i <= j <= hi - lo
    ensures s[lo..hi][i..j] == s[lo + i..lo + j]
  {
    var a, b := s[lo..hi][i..j], s[lo + i..lo + j];
    forall k | 0 <= k < j - i ensures a[k] == b[k] {
      assert a[k] == s[lo..hi][i + k] == s[lo + (i + k)];
    }
  }

  /** A sealing function with associated data, and its partial inverse. */
  datatype Aead = Aead(seal: (Bytes, Bytes, Bytes, Bytes) -> Bytes,
                       open: (Bytes, Bytes, Bytes, Bytes) -> Option<Bytes>) {

    /** Opening undoes sealing, and a sealed text is 16 bytes longer (section 2.8 of RFC 8439). */
    ghost predicate Correct() {
      forall key, nonce, aad, text ::
        && open(key, nonce, aad, seal(key, nonce, aad, text)) == Some(text)
        && |seal(key, nonce, aad, text)| == |text| + 16
    }

    /** No piece of the stream is a forgery: whatever opens under the key was sealed with this nonce, data and text. */
    ghost predicate NoForgery(key: Bytes, sealed: set<(Bytes, Bytes, Bytes)>, stream: Bytes) {
      forall i, j, nonce, aad | 0 <= i <= j <= |stream| && open(key, nonce, aad, stream[i..j]).Some? ::
        (nonce, aad, open(key, nonce, aad, stream[i..j]).value) in sealed
    }
  }
}

// Little-endian bytes of the 4-byte words a file holds.
module Bytes {
  import opened Corpus

  type Byte = x: int | 0 <= x < 256

  const U32_LIMIT: int := 0x1_0000_0000

  /** The unsigned reading of a word, and the word with a given unsigned reading. */
  function Bits(w: Word): (u: nat)
    ensures u < U32_LIMIT
  {
    if w < 0 then w + U32_LIMIT else w
  }

  function ToWord(u: nat): (w: Word)
    requires u < U32_LIMIT
    ensures Bits(w) == u
  {
    if u < 0x8000_0000 then u else u - U32_LIMIT
  }

  /** Base-256 digit b of u. */
  function Digit(u: nat, b: nat): Byte {
    if b == 0 then u % 256 else Digit(u / 256, b - 1)
  }

  function ByteOf(w: Word, b: nat): Byte { Digit(Bits(w), b) }

  function WordOf(b0: Byte, b1: Byte, b2: Byte, b3: Byte): Word {
    ToWord(b0 + 256 * (b1 + 256 * (b2 + 256 * b3)))
  }

  /** The least significant byte comes first. */
  lemma LittleEndian()
    ensures Encode([0x04030201]) == [1, 2, 3, 4]
  {
    ByteIn([0x04030201], 0, 0, 0);
    ByteIn([0x04030201], 0, 1, 1);
    ByteIn([0x04030201], 0, 2, 2);
    ByteIn([0x04030201], 0, 3, 3);
    DigitsMake(0x04030201);
  }

  lemma DigitsMake(u: nat)
    requires u < U32_LIMIT
    ensures Digit(u, 0) + 256 * (Digit(u, 1) + 256 * (Digit(u, 2) + 256 * Digit(u, 3))) == u
  {
    var u1 := u / 256;
    var u2 := u1 / 256;
    var u3 := u2 / 256;
    assert u3 < 256;
    assert Digit(u, 1) == Digit(u1, 0);
    assert Digit(u, 2) == Digit(u1, 1) == Digit(u2, 0);
    assert Digit(u, 3) == Digit(u1, 2) == Digit(u2, 1) == Digit(u3, 0) == u3;
  }

  lemma WordRoundTrip(w: Word)
    ensures WordOf(ByteOf(w, 0), ByteOf(w, 1), ByteOf(w, 2), ByteOf(w, 3)) == w
  {
    DigitsMake(Bits(w));
  }

  function Encode(words: seq<Word>): (bytes: seq<Byte>)
    ensures |bytes| == 4 * |words|
  {
    seq(4 * |words|, p requires 0 <= p < 4 * |words| => ByteOf(words[p / 4], p % 4))
  }

  /** Whole words of a byte string; a trailing part of a word is not read. */
  function Decode(bytes: seq<Byte>): (words: seq<Word>)
    ensures |words| == |bytes| / 4
  {
    seq(|bytes| / 4, k requires 0 <= k < |bytes| / 4 => WordAt(bytes, 4 * k))
  }

  function WordAt(bytes: seq<Byte>, at: nat): Word
    requires at + 4 <= |bytes|
  {
    WordOf(bytes[at], bytes[at + 1], bytes[at + 2], bytes[at + 3])
  }

  lemma ByteIn(words: seq<Word>, k: nat, b: nat, p: nat)
    requires k < |words| && b < 4 && p == 4 * k + b
    ensures Encode(words)[p] == ByteOf(words[k], b)
  {
    assert p / 4 == k && p % 4 == b;
  }

  lemma WordIn(words: seq<Word>, k: nat)
    requires k < |words|
    ensures WordAt(Encode(words), 4 * k) == words[k]
  {
    var p := 4 * k;
    ByteIn(words, k, 0, p);
    ByteIn(words, k, 1, p + 1);
    ByteIn(words, k, 2, p + 2);
    ByteIn(words, k, 3, p + 3);
    WordRoundTrip(words[k]);
  }

  lemma DecodeEncode(words: seq<Word>)
    ensures Decode(Encode(words)) == words
  {
    forall k | 0 <= k < |words| ensures WordAt(Encode(words), 4 * k) == words[k] {
      WordIn(words, k);
    }
  }

  lemma EncodeAppend(a: seq<Word>, b: seq<Word>)
    ensures Encode(a + b) == Encode(a) + Encode(b)
  {
    forall p | 0 <= p < 4 * |a + b| ensures Encode(a + b)[p] == (Encode(a) + Encode(b))[p] {
      if p >= 4 * |a| {
        assert p / 4 == |a| + (p - 4 * |a|) / 4;
      }
    }
  }

  /** A read of words [first, last) of a byte string. */
  lemma DecodeSlice(bytes: seq<Byte>, first: nat, last: nat)
    requires first <= last && 4 * last <= |bytes|
    ensures Decode(bytes[4 * first..4 * last]) == Decode(bytes)[first..last]
  {
    forall k | 0 <= k < last - first ensures WordAt(bytes[4 * first..4 * last], 4 * k) == WordAt(bytes, 4 * (first + k)) {
    }
  }

  /** A u64 in two words, low word first. */
  function LowWord(u: nat): Word { ToWord(u % U32_LIMIT) }

  function HighWord(u: nat): Word
    requires u < U64_LIMIT
  {
    ToWord(u / U32_LIMIT)
  }

  function U64(low: Word, high: Word): (u: nat)
    ensures u < U64_LIMIT
  {
    Bits(low) + U32_LIMIT * Bits(high)
  }

  lemma U64RoundTrip(u: nat)
    requires u < U64_LIMIT
    ensures U64(LowWord(u), HighWord(u)) == u
  {
  }
}

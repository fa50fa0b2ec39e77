/**
 * The `Ident` handle of the span crate: a non-empty piece of identifier text
 * together with one 64-bit word that packs the text's byte length (low 32 bits)
 * with the top 32 bits of the text's hash (high 32 bits).
 *
 * The handle's pointer is modelled by the text it points at; `usize` and `u64`
 * quantities are `bv64` values, so the bit operations are the source's own.
 * Facts about words are stated over plain `bv64` values first and then lifted
 * to handles.
 */
module SpanIdent {

  /** `u32::MAX as u64`: selects the length half of the packed word. */
  const LengthMask: bv64 := 0xFFFF_FFFF

  /** `!(u32::MAX as u64)`: selects the hash half of the packed word. */
  const HashMask: bv64 := 0xFFFF_FFFF_0000_0000

  /** Texts are shorter than 2^32 bytes, so their length fits the low half. */
  const MaxLen: int := 0x1_0000_0000

  /** A fresh hasher run over a text and finished (FxHasher in the source). */
  type Hasher = string -> bv64

  /** `text` is what the pointer designates; `lenAndHash` is the packed word. */
  datatype Ident = Ident(text: string, lenAndHash: bv64)

  // ---------------------------------------------------------------------
  // Words

  /** The length half of a word: `w as u32`, widened back. */
  function LowHalf(w: bv64): bv64
  {
    w & LengthMask
  }

  /** The hash half of a word, with the low 32 bits cleared. */
  function HighHalf(w: bv64): bv64
  {
    w & HashMask
  }

  /** `rotate_left(32 - 7)`. */
  function Rotate(w: bv64): bv64
  {
    w.RotateLeft(25)
  }

  /** Bits 32..63 of a word, shifted down. */
  function Top32(w: bv64): bv64
  {
    w >> 32
  }

  /** Bits 39..63 of a word, shifted down: the 25 hash bits a rotation brings to the bottom. */
  function Top25(w: bv64): bv64
  {
    w >> 39
  }

  /** The bottom 25 bits of a word. */
  function Bottom25(w: bv64): bv64
  {
    w & 0x1FF_FFFF
  }

  /** A word below 2^32 has an empty hash half. */
  lemma SmallWordHasNoHashHalf(w: bv64)
    requires w < 0x1_0000_0000
    ensures HighHalf(w) == 0
  {
  }

  /** The length half of any word is below 2^32. */
  lemma LowHalfBelowU32(w: bv64)
    ensures LowHalf(w) < 0x1_0000_0000
  {
  }

  lemma OrKeepsLowBits(len: bv64, h: bv64)
    requires len & HashMask == 0
    requires h & LengthMask == 0
    ensures (len | h) & LengthMask == len
  {
  }

  lemma OrKeepsHighBits(len: bv64, h: bv64)
    requires len & HashMask == 0
    requires h & LengthMask == 0
    ensures (len | h) & HashMask == h
  {
  }

  lemma ClearedHashHasNoLowBits(h: bv64)
    ensures (h & HashMask) & LengthMask == 0
  {
  }

  lemma NoHighBitsMeansLow(len: bv64)
    requires len & HashMask == 0
    ensures len & LengthMask == len
  {
  }

  /** OR-ing a short length into a cleared hash keeps the length in the low half. */
  lemma PackKeepsLength(len: bv64, hash: bv64)
    requires HighHalf(len) == 0
    ensures LowHalf(len | HighHalf(hash)) == LowHalf(len)
  {
    ClearedHashHasNoLowBits(hash);
    OrKeepsLowBits(len, hash & HashMask);
    NoHighBitsMeansLow(len);
  }

  /** OR-ing a short length into a cleared hash keeps the hash in the high half. */
  lemma PackKeepsHash(len: bv64, hash: bv64)
    requires HighHalf(len) == 0
    ensures HighHalf(len | HighHalf(hash)) == HighHalf(hash)
  {
    ClearedHashHasNoLowBits(hash);
    OrKeepsHighBits(len, hash & HashMask);
  }

  /** A word is determined by its two halves. */
  lemma WordFromHalves(x: bv64, y: bv64)
    requires LowHalf(x) == LowHalf(y)
    requires HighHalf(x) == HighHalf(y)
    ensures x == y
  {
  }

  /** Words with equal hash halves agree on their top 32 bits. */
  lemma HashHalfTop32(x: bv64, h: bv64)
    requires HighHalf(x) == HighHalf(h)
    ensures Top32(x) == Top32(h)
  {
  }

  /** Rotation loses no bit: `rotate_right` undoes it. */
  lemma RotationUndone(w: bv64)
    ensures Rotate(w).RotateRight(25) == w
  {
  }

  /** Hence the rotation is injective. */
  lemma RotationInjective(x: bv64, y: bv64)
    requires Rotate(x) == Rotate(y)
    ensures x == y
  {
    RotationUndone(x);
    RotationUndone(y);
  }

  /** The top 7 bits of a rotated word are its bits 32..38. */
  lemma RotatedTopBits(w: bv64)
    ensures w.RotateLeft(25) >> 57 == (w >> 32) & 0x7F
  {
  }

  /** Words with equal hash halves rotate to words with the same bottom 25 bits. */
  lemma RotatedLowBitsOfHashHalf(w: bv64, h: bv64)
    requires HighHalf(w) == HighHalf(h)
    ensures Bottom25(Rotate(w)) == Top25(h)
  {
  }

  // ---------------------------------------------------------------------
  // Lengths

  /** `s.len() as u64`, the byte length as a machine word. */
  function UsizeLen(s: string): bv64
    requires |s| < MaxLen
  {
    |s| as bv64
  }

  lemma UsizeLenBelowU32(s: string)
    requires |s| < MaxLen
    ensures UsizeLen(s) < 0x1_0000_0000
  {
  }

  /** The byte length of a text leaves the hash half of its word clear. */
  lemma UsizeLenHasNoHashHalf(s: string)
    requires |s| < MaxLen
    ensures HighHalf(UsizeLen(s)) == 0
  {
    UsizeLenBelowU32(s);
    SmallWordHasNoHashHalf(UsizeLen(s));
  }

  // ---------------------------------------------------------------------
  // Handles

  /**
   * The packed word of a handle built from its own text: the low half holds
   * the text's byte length, the high half the top of the text's hash.
   */
  predicate WellFormed(id: Ident, hasher: Hasher)
  {
    && 0 < |id.text| < MaxLen
    && LowHalf(id.lenAndHash) == UsizeLen(id.text)
    && HighHalf(id.lenAndHash) == HighHalf(hasher(id.text))
  }

  /**
   * `len | hash`: a length with an empty hash half OR-ed into a hash whose
   * low half is cleared; each half of the result is the corresponding input.
   */
  function Pack(len: bv64, hash: bv64): (w: bv64)
    requires HighHalf(len) == 0
    ensures LowHalf(w) == len
    ensures HighHalf(w) == HighHalf(hash)
  {
    NoHighBitsMeansLow(len);
    PackKeepsLength(len, hash);
    PackKeepsHash(len, hash);
    len | HighHalf(hash)
  }

  /**
   * `Ident::new`: the assertion rejects empty text, and the source assumes
   * (and does not mask) a length below 2^32.
   */
  function New(s: string, hasher: Hasher): (id: Ident)
    requires 0 < |s| < MaxLen
    ensures WellFormed(id, hasher)
    ensures AsStr(id) == s
  {
    UsizeLenHasNoHashHalf(s);
    Ident(s, Pack(UsizeLen(s), hasher(s)))
  }

  /** `len`: the low 32 bits of the packed word, widened back to `usize`. */
  function Len(id: Ident): (n: bv64)
    ensures n < 0x1_0000_0000
  {
    LowHalfBelowU32(id.lenAndHash);
    LowHalf(id.lenAndHash)
  }

  /** `as_str`: the text the handle designates. */
  function AsStr(id: Ident): string
  {
    id.text
  }

  /** `len()` of a fresh handle is the byte length of its text. */
  lemma NewLen(s: string, hasher: Hasher)
    requires 0 < |s| < MaxLen
    ensures Len(New(s, hasher)) == UsizeLen(s)
  {
  }

  /** `Ident::new("hello").len()` is 5. */
  lemma HelloHasLengthFive(hasher: Hasher)
    ensures Len(New("hello", hasher)) == 5
  {
    NewLen("hello", hasher);
  }

  /** The top 32 bits of a fresh handle's word are the top 32 bits of the text's hash. */
  lemma NewHashHalf(s: string, hasher: Hasher)
    requires 0 < |s| < MaxLen
    ensures Top32(New(s, hasher).lenAndHash) == Top32(hasher(s))
  {
    var id := New(s, hasher);
    HashHalfTop32(id.lenAndHash, hasher(s));
  }

  /**
   * `PartialEq for Ident`: compare the packed words first and the texts only
   * when the words match.
   */
  function Eq(a: Ident, b: Ident): (r: bool)
    ensures r ==> AsStr(a) == AsStr(b)
    ensures a.lenAndHash != b.lenAndHash ==> !r
  {
    a.lenAndHash == b.lenAndHash && AsStr(a) == AsStr(b)
  }

  /** Equal texts give equal packed words: the word is a function of the text. */
  lemma SameTextSameWord(a: Ident, b: Ident, hasher: Hasher)
    requires WellFormed(a, hasher) && WellFormed(b, hasher)
    requires AsStr(a) == AsStr(b)
    ensures a.lenAndHash == b.lenAndHash
  {
    WordFromHalves(a.lenAndHash, b.lenAndHash);
  }

  /** On handles built by one hasher, the fast equality is exactly text equality. */
  lemma EqIsTextEquality(a: Ident, b: Ident, hasher: Hasher)
    requires WellFormed(a, hasher) && WellFormed(b, hasher)
    ensures Eq(a, b) <==> AsStr(a) == AsStr(b)
  {
    if AsStr(a) == AsStr(b) {
      SameTextSameWord(a, b, hasher);
    }
  }

  /** Two handles made by `new` are equal exactly when their texts are. */
  lemma NewOfEqualTexts(s: string, t: string, hasher: Hasher)
    requires 0 < |s| < MaxLen && 0 < |t| < MaxLen
    ensures Eq(New(s, hasher), New(t, hasher)) <==> s == t
  {
    EqIsTextEquality(New(s, hasher), New(t, hasher), hasher);
  }

  /**
   * Differing packed words decide inequality whatever the texts are: the text
   * comparison is never reached.
   */
  lemma UnequalWordsShortCircuit(a: Ident, b: Ident, s: string, t: string)
    requires a.lenAndHash != b.lenAndHash
    ensures !Eq(a, b)
    ensures !Eq(Ident(s, a.lenAndHash), Ident(t, b.lenAndHash))
  {
  }

  /** Handles whose lengths differ are never equal. */
  lemma DifferentLengthsNeverEqual(a: Ident, b: Ident)
    requires Len(a) != Len(b)
    ensures !Eq(a, b)
  {
  }

  /** `PartialEq<str>`, `PartialEq<T: AsRef<str>>` and `Cow == Ident`: plain text equality. */
  function EqText(id: Ident, other: string): (r: bool)
    ensures r <==> Eq(id, Ident(other, id.lenAndHash))
  {
    AsStr(id) == other
  }

  /** Comparing a fresh handle with a text compares the texts themselves. */
  lemma NewEqText(s: string, other: string, hasher: Hasher)
    requires 0 < |s| < MaxLen
    ensures EqText(New(s, hasher), other) <==> s == other
  {
  }

  /** On well-formed handles, comparing with a text agrees with comparing handles. */
  lemma EqTextAgreesWithEq(a: Ident, b: Ident, hasher: Hasher)
    requires WellFormed(a, hasher) && WellFormed(b, hasher)
    ensures EqText(a, AsStr(b)) <==> Eq(a, b)
  {
    EqIsTextEquality(a, b, hasher);
  }

  /** The word `Hash` writes to the hasher. */
  function HashWord(id: Ident): (w: bv64)
    ensures w.RotateRight(25) == id.lenAndHash
  {
    RotationUndone(id.lenAndHash);
    Rotate(id.lenAndHash)
  }

  /** The rotation is a bijection: distinct packed words hash-write distinct values. */
  lemma HashWordInjective(a: Ident, b: Ident)
    ensures HashWord(a) == HashWord(b) <==> a.lenAndHash == b.lenAndHash
  {
    if HashWord(a) == HashWord(b) {
      RotationInjective(a.lenAndHash, b.lenAndHash);
    }
  }

  /** `Hash` agrees with `==`: equal handles write equal words. */
  lemma EqualIdentsHashAlike(a: Ident, b: Ident)
    requires Eq(a, b)
    ensures HashWord(a) == HashWord(b)
  {
  }

  /** Of a well-formed handle, the top 7 written bits are bits 32..38 of the text's hash. */
  lemma HashWordTopBitsAreHash(id: Ident, hasher: Hasher)
    requires WellFormed(id, hasher)
    ensures HashWord(id) >> 57 == (hasher(AsStr(id)) >> 32) & 0x7F
  {
    RotatedTopBits(id.lenAndHash);
    HashHalfTop32(id.lenAndHash, hasher(AsStr(id)));
  }

  /**
   * Of a well-formed handle, the bottom 25 written bits are bits 39..63 of the
   * text's hash: no bit of the length lands where the hash table looks.
   */
  lemma HashWordLowBitsAreHash(id: Ident, hasher: Hasher)
    requires WellFormed(id, hasher)
    ensures Bottom25(HashWord(id)) == Top25(hasher(AsStr(id)))
  {
    RotatedLowBitsOfHashHalf(id.lenAndHash, hasher(AsStr(id)));
  }

  /** `FromIn<&Ident>`: the handle itself, no copy. */
  function FromInIdent(id: Ident): (r: Ident)
    ensures Eq(r, id)
  {
    id
  }

  /** `FromIn<&str>` (and `String`): the text copied into the arena, then `new`. */
  function FromInStr(s: string, hasher: Hasher): (r: Ident)
    requires 0 < |s| < MaxLen
    ensures WellFormed(r, hasher)
    ensures AsStr(r) == s
  {
    New(s, hasher)
  }

  /** `CloneIn`: a handle over a copy of the text in another arena. */
  function CloneIn(id: Ident, hasher: Hasher): (r: Ident)
    requires WellFormed(id, hasher)
    ensures WellFormed(r, hasher)
    ensures AsStr(r) == AsStr(id)
    ensures Eq(r, id)
  {
    var r := FromInStr(AsStr(id), hasher);
    EqIsTextEquality(r, id, hasher);
    r
  }

  /** `Dummy`: the one-letter identifier `x`. */
  function Dummy(hasher: Hasher): (r: Ident)
    ensures WellFormed(r, hasher)
    ensures AsStr(r) == "x"
  {
    New("x", hasher)
  }
}

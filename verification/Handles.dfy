/** Sensor handles as the proxy encodes them: a signed 32-bit number whose top
    byte names the sub-HAL that owns the sensor. */
module Handles {
  import opened Words

  /** An int32_t. */
  type Handle = h: int | -0x8000_0000 <= h < 0x8000_0000

  /** The handle that stands for every sensor in configDirectReport. */
  const ALL_SENSORS: Handle := -1

  /** An upper bound on the length of a vector of pointers. */
  const MAX_VECTOR_LENGTH: nat := 0x8000_0000_0000_0000

  /** The two's complement bit pattern of a handle, read as an unsigned number. */
  function Pattern(h: Handle): nat {
    if h < 0 then h + TWO_32 else h
  }

  /** The handle with the given top byte and the given 24 low bits. */
  function FromParts(top: nat, low: nat): Handle
    requires top < 256 && low < TWO_24
  {
    if top < 128 then top * TWO_24 + low else top * TWO_24 + low - TWO_32
  }

  function TopByte(h: Handle): (top: nat)
    ensures top < 256
  {
    Pattern(h) / TWO_24
  }

  function BitOr(a: nat, b: nat): nat {
    if a == 0 then b else if b == 0 then a
    else 2 * BitOr(a / 2, b / 2) + (if a % 2 == 1 || b % 2 == 1 then 1 else 0)
  }

  /** The bitwise `or` of two bytes. */
  function ByteOr(a: nat, b: nat): (or: nat)
    requires a < 256 && b < 256
    ensures or < 256
  {
    BitOrFits(a, b, 256);
    BitOr(a, b)
  }

  lemma {:induction false} BitOrFits(a: nat, b: nat, bound: nat)
    requires a < bound && b < bound
    requires bound in {1, 2, 4, 8, 16, 32, 64, 128, 256}
    ensures BitOr(a, b) < bound
  {
    if a != 0 && b != 0 {
      BitOrFits(a / 2, b / 2, bound / 2);
    }
  }

  /** Casting the index to int32_t and shifting it left by 24 bits keeps its
      low byte, as the top byte of the result; the `or` then leaves the 24 low
      bits of the handle alone. */
  function SetSubHalIndex(h: Handle, subHalIndex: nat): Handle {
    FromParts(ByteOr(TopByte(h), subHalIndex % 256), ClearSubHalIndex(h))
  }

  /** The arithmetic right shift keeps the sign, and so does the cast to the 64-bit size_t. */
  function ExtractSubHalIndex(h: Handle): nat {
    if h < 0 then h / TWO_24 + TWO_64 else h / TWO_24
  }

  /** The handle under the complement of the top-byte mask. */
  function ClearSubHalIndex(h: Handle): (local: Handle)
    ensures 0 <= local < TWO_24
  {
    Pattern(h) % TWO_24
  }

  predicate SubHalIndexIsClear(h: Handle) {
    TopByte(h) == 0
  }

  predicate IsSubHalIndexValid(h: Handle, subHalCount: nat) {
    ExtractSubHalIndex(h) < subHalCount
  }

  lemma PartsOfHandle(h: Handle)
    ensures FromParts(TopByte(h), ClearSubHalIndex(h)) == h
    ensures h < 0 <==> TopByte(h) >= 128
    ensures SubHalIndexIsClear(h) <==> 0 <= h < TWO_24
    ensures SubHalIndexIsClear(h) <==> ClearSubHalIndex(h) == h
    ensures ExtractSubHalIndex(h) == if h < 0 then TopByte(h) - 256 + TWO_64 else TopByte(h)
  {}

  lemma HandleOfParts(top: nat, low: nat)
    requires top < 256 && low < TWO_24
    ensures TopByte(FromParts(top, low)) == top
    ensures ClearSubHalIndex(FromParts(top, low)) == low
  {}

  /** Tagging never changes the local part of a handle, and on a handle whose
      top byte is clear the tag is the low byte of the index. */
  lemma TaggedParts(h: Handle, i: nat)
    ensures ClearSubHalIndex(SetSubHalIndex(h, i)) == ClearSubHalIndex(h)
    ensures SubHalIndexIsClear(h) ==> TopByte(SetSubHalIndex(h, i)) == i % 256
  {
    HandleOfParts(ByteOr(TopByte(h), i % 256), ClearSubHalIndex(h));
  }

  /** A local handle tagged with an index comes apart into that index and that
      handle again exactly when the index is below 128; from 128 to 255 the
      tagged handle is negative, and from 256 on it names another sub-HAL. */
  lemma TagRoundTrip(h: Handle, i: nat)
    requires SubHalIndexIsClear(h) && i < MAX_VECTOR_LENGTH
    ensures ClearSubHalIndex(SetSubHalIndex(h, i)) == h
    ensures ExtractSubHalIndex(SetSubHalIndex(h, i)) == i <==> i < 128
    ensures SetSubHalIndex(h, i) < 0 <==> i % 256 >= 128
  {
    TaggedParts(h, i);
    PartsOfHandle(h);
    PartsOfHandle(SetSubHalIndex(h, i));
  }

  /** Every non-negative handle is the tag of one local handle with one index
      below 128, so tagging is a bijection onto the non-negative handles. */
  lemma TagIsOnto(g: Handle)
    requires g >= 0
    ensures SubHalIndexIsClear(ClearSubHalIndex(g)) && ExtractSubHalIndex(g) < 128
    ensures SetSubHalIndex(ClearSubHalIndex(g), ExtractSubHalIndex(g)) == g
  {
    var local, i := ClearSubHalIndex(g), ExtractSubHalIndex(g);
    PartsOfHandle(g);
    PartsOfHandle(local);
    assert ByteOr(TopByte(local), i % 256) == i;
  }

  /** No sub-HAL list is long enough for a negative handle to be valid. */
  lemma NegativeIsInvalid(g: Handle, subHalCount: nat)
    requires subHalCount <= MAX_VECTOR_LENGTH
    ensures g < 0 ==> !IsSubHalIndexValid(g, subHalCount)
  {
    PartsOfHandle(g);
  }

  /** Tagged handles agree exactly when their local handles do and the low
      bytes of their indices do. */
  lemma TagIsInjective(h: Handle, i: nat, h': Handle, i': nat)
    requires SubHalIndexIsClear(h) && SubHalIndexIsClear(h')
    ensures SetSubHalIndex(h, i) == SetSubHalIndex(h', i') <==> h == h' && i % 256 == i' % 256
  {
    TaggedParts(h, i);
    TaggedParts(h', i');
    PartsOfHandle(h);
    PartsOfHandle(h');
  }

  // ------------------------------------------------------- tags as numbers and bits

  /** A tag is the local handle plus the low byte of the index, 24 bits up, in
      two's complement. */
  lemma TagIsNumber(h: Handle, i: nat)
    requires 0 <= h < TWO_24
    ensures SetSubHalIndex(h, i) ==
            (if i % 256 < 128 then i % 256 * 0x100_0000 + h else (i % 256 - 256) * 0x100_0000 + h)
  {
    TaggedParts(h, i);
    PartsOfHandle(h);
    PartsOfHandle(SetSubHalIndex(h, i));
  }

  /** What the proxy takes from a handle: its 24 low bits, and what is above them. */
  lemma PartsAreNumbers(g: Handle)
    ensures ClearSubHalIndex(g) == g % 0x100_0000
    ensures ExtractSubHalIndex(g) == if g >= 0 then g / 0x100_0000 else g / 0x100_0000 + 0x1_0000_0000_0000_0000
    ensures SubHalIndexIsClear(g) <==> 0 <= g < 0x100_0000
  {
    PartsOfHandle(g);
    if g < 0 {
      assert Pattern(g) == g + 256 * 0x100_0000;
    }
  }

  /** Whether bit number k of n is set. */
  predicate Bit(n: nat, k: nat) {
    if k == 0 then n % 2 == 1 else Bit(n / 2, k - 1)
  }

  function Power(n: nat): (p: nat)
    ensures p > 0
  {
    if n == 0 then 1 else 2 * Power(n - 1)
  }

  lemma {:induction false} NoBit(k: nat)
    ensures !Bit(0, k)
  {
    if k > 0 {
      NoBit(k - 1);
    }
  }

  lemma {:induction false} BitOrBits(a: nat, b: nat, k: nat)
    ensures Bit(BitOr(a, b), k) <==> Bit(a, k) || Bit(b, k)
  {
    NoBit(k);
    if a != 0 && b != 0 {
      var rest := BitOr(a / 2, b / 2);
      assert BitOr(a, b) / 2 == rest;
      if k > 0 {
        BitOrBits(a / 2, b / 2, k - 1);
      }
    }
  }

  lemma {:induction false} BitOfSum(top: nat, low: nat, n: nat, k: nat)
    requires low < Power(n)
    ensures Bit(top * Power(n) + low, k) == if k < n then Bit(low, k) else Bit(top, k - n)
  {
    if n > 0 {
      var half := top * Power(n - 1);
      assert top * Power(n) == 2 * half;
      assert (2 * half + low) / 2 == half + low / 2 && (2 * half + low) % 2 == low % 2;
      if k > 0 {
        BitOfSum(top, low / 2, n - 1, k - 1);
      }
    }
  }

  lemma PatternBits(h: Handle, k: nat)
    ensures Bit(Pattern(h), k) == if k < 24 then Bit(ClearSubHalIndex(h), k) else Bit(TopByte(h), k - 24)
  {
    assert Power(8) == 0x100 && Power(16) == 0x1_0000 && Power(24) == 0x100_0000;
    BitOfSum(TopByte(h), ClearSubHalIndex(h), 24, k);
  }

  lemma LowByteBits(i: nat, k: nat)
    requires k < 8
    ensures Bit(i % 256, k) == Bit(i, k)
  {
    assert Power(8) == 256;
    BitOfSum(i / 256, i % 256, 8, k);
    assert i / 256 * 256 + i % 256 == i;
  }

  /** Bit by bit, tagging any handle, well-formed or not, is the `or` of the
      handle and the index shifted left by 24. */
  lemma TaggedBits(h: Handle, i: nat, k: nat)
    requires k < 32
    ensures Bit(Pattern(SetSubHalIndex(h, i)), k) <==> Bit(Pattern(h), k) || (k >= 24 && Bit(i, k - 24))
  {
    var g := SetSubHalIndex(h, i);
    PatternBits(h, k);
    PatternBits(g, k);
    HandleOfParts(ByteOr(TopByte(h), i % 256), ClearSubHalIndex(h));
    if k >= 24 {
      BitOrBits(TopByte(h), i % 256, k - 24);
      LowByteBits(i, k - 24);
    }
  }
}

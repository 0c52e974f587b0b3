/**
 The 14-byte slot of src/engine/slot.rs: either a short key and value in place, or a
 fingerprint and the index of a slab entry.
 */
module Slots {
  import opened Base

  type Slot = s: seq<bv8> | |s| == 14 witness seq(14, i => 0)

  function EmptySlot(): Slot { seq(14, i => 0) }

  /** 0 = inline, 1 = slab. */
  function Mode(s: Slot): bv8 { (s[0] >> 7) & 1 }

  predicate FitsInline(key: Bytes, value: Bytes) { |key| <= 6 && |value| <= 7 }

  // ---------------------------------------------------------------------
  // Inline mode
  // ---------------------------------------------------------------------

  function InlineHeader(key: Bytes, value: Bytes): bv8
    requires FitsInline(key, value)
  {
    ((|key| as bv8) << 4) | (((|value| as bv8) & 0x07) << 1)
  }

  function Pad(s: Bytes, n: nat): (r: Bytes)
    requires |s| <= n
    ensures |r| == n && r[..|s|] == s
  {
    s + seq(n - |s|, i => 0)
  }

  function SetInline(key: Bytes, value: Bytes): (s: Slot)
    requires FitsInline(key, value)
  {
    [InlineHeader(key, value)] + Pad(key, 6) + Pad(value, 7)
  }

  function KeyLen(s: Slot): (n: nat)
    ensures n < 8
  {
    ((s[0] >> 4) & 0x07) as nat
  }

  function ValLen(s: Slot): (n: nat)
    ensures n < 8
  {
    ((s[0] >> 1) & 0x07) as nat
  }

  function InlineKey(s: Slot): Bytes { s[1..1 + KeyLen(s)] }

  function InlineValue(s: Slot): Bytes { s[7..7 + ValLen(s)] }

  lemma NatByte(n: nat)
    requires n < 8
    ensures (n as bv8) as nat == n && n as bv8 <= 7
  {
    match n { case 0 => case 1 => case 2 => case 3 => case 4 => case 5 => case 6 => case _ => }
  }

  lemma HeaderFields(k: bv8, v: bv8)
    requires k <= 7 && v <= 7
    ensures var h := (k << 4) | ((v & 0x07) << 1); (h >> 7) & 1 == 0 && (h >> 4) & 0x07 == k && (h >> 1) & 0x07 == v
  {}

  /** An inline slot gives back what was put in, including empty keys and values. */
  lemma InlineRoundTrip(key: Bytes, value: Bytes)
    requires FitsInline(key, value)
    ensures var s := SetInline(key, value);
            Mode(s) == 0 && InlineKey(s) == key && InlineValue(s) == value
  {
    var s := SetInline(key, value);
    NatByte(|key|);
    NatByte(|value|);
    HeaderFields(|key| as bv8, |value| as bv8);
    assert s[1..7] == Pad(key, 6);
    assert s[7..14] == Pad(value, 7);
    assert s[1..1 + |key|] == s[1..7][..|key|];
    assert s[7..7 + |value|] == s[7..14][..|value|];
  }

  // ---------------------------------------------------------------------
  // Slab mode
  // ---------------------------------------------------------------------

  // A byte is two nibbles; the tables are `as u8` and back on 0..15.

  function Nib(n: nat): (b: bv8)
    requires n < 16
    ensures b <= 15
  {
    match n
    case 0 => 0 case 1 => 1 case 2 => 2 case 3 => 3 case 4 => 4 case 5 => 5 case 6 => 6 case 7 => 7
    case 8 => 8 case 9 => 9 case 10 => 10 case 11 => 11 case 12 => 12 case 13 => 13 case 14 => 14 case _ => 15
  }

  function NibVal(b: bv8): (n: nat)
    requires b <= 15
    ensures n < 16
  {
    if b == 0 then 0 else if b == 1 then 1 else if b == 2 then 2 else if b == 3 then 3
    else if b == 4 then 4 else if b == 5 then 5 else if b == 6 then 6 else if b == 7 then 7
    else if b == 8 then 8 else if b == 9 then 9 else if b == 10 then 10 else if b == 11 then 11
    else if b == 12 then 12 else if b == 13 then 13 else if b == 14 then 14 else 15
  }

  function Byte(n: nat): bv8
    requires n < 256
  {
    (Nib(n / 16) << 4) | Nib(n % 16)
  }

  function ByteVal(b: bv8): nat { 16 * NibVal(b >> 4) + NibVal(b & 0x0F) }

  /** Little-endian bytes of an index. */
  function LeBytes(n: nat, k: nat): (s: Bytes)
    ensures |s| == k
    decreases k
  {
    if k == 0 then [] else [Byte(n % 256)] + LeBytes(n / 256, k - 1)
  }

  function FromLe(s: Bytes): nat
    decreases |s|
  {
    if s == [] then 0 else ByteVal(s[0]) + 256 * FromLe(s[1..])
  }

  function Pow256(k: nat): nat { if k == 0 then 1 else 256 * Pow256(k - 1) }

  lemma NibRoundTrip(n: nat)
    requires n < 16
    ensures NibVal(Nib(n)) == n
  {}

  lemma NibblesApart(a: bv8, b: bv8)
    requires a <= 15 && b <= 15
    ensures ((a << 4) | b) >> 4 == a && ((a << 4) | b) & 0x0F == b
  {}

  lemma ByteRoundTrip(n: nat)
    requires n < 256
    ensures ByteVal(Byte(n)) == n
  {
    hide Nib, NibVal;
    NibRoundTrip(n / 16);
    NibRoundTrip(n % 16);
    NibblesApart(Nib(n / 16), Nib(n % 16));
  }

  lemma {:induction false} LeRoundTrip(n: nat, k: nat)
    requires n < Pow256(k)
    ensures FromLe(LeBytes(n, k)) == n
    decreases k
  {
    hide Byte, ByteVal;
    if k > 0 {
      LeRoundTrip(n / 256, k - 1);
      ByteRoundTrip(n % 256);
      assert LeBytes(n, k)[1..] == LeBytes(n / 256, k - 1);
    }
  }

  lemma Pow256Eight()
    ensures Pow256(8) == U64
  {
    assert Pow256(4) == 0x1_0000_0000;
    assert Pow256(8) == 256 * (256 * (256 * (256 * Pow256(4))));
  }

  function FpByte(fp: bv64, k: bv64): bv8
    requires k <= 24
  {
    ((fp >> k) & 0xFF) as bv8
  }

  function FpBytes(fp: bv64): (s: Bytes)
    ensures |s| == 4
  {
    [FpByte(fp, 0), FpByte(fp, 8), FpByte(fp, 16), FpByte(fp, 24)]
  }

  function FpFrom(s: Bytes): bv64
    requires |s| == 4
  {
    (s[0] as bv64) | ((s[1] as bv64) << 8) | ((s[2] as bv64) << 16) | ((s[3] as bv64) << 24)
  }

  lemma FpRoundTrip(fp: bv64)
    requires fp <= 0xFFFF_FFFF
    ensures FpFrom(FpBytes(fp)) == fp
  {}

  function SlabHeader(hi: bv64): bv8 { 0x80 | ((hi & 0x7F) as bv8) }

  function SetSlab(hi: bv64, fp: bv64, idx: nat): (s: Slot) {
    [SlabHeader(hi)] + FpBytes(fp) + [0] + LeBytes(idx, 8)
  }

  function SlabIdx(s: Slot): nat { FromLe(s[6..14]) }

  function ExtHi(s: Slot): bv64 { (s[0] & 0x7F) as bv64 }

  function ExtFp(s: Slot): bv64 { FpFrom(s[1..5]) }

  lemma SlabHeaderFields(hi: bv64)
    ensures var h := SlabHeader(hi); (h >> 7) & 1 == 1 && (h & 0x7F) as bv64 == hi & 0x7F
  {}

  /** A slab slot gives back its fingerprint and its 64-bit index. */
  lemma SlabRoundTrip(hi: bv64, fp: bv64, idx: nat)
    requires fp <= 0xFFFF_FFFF && hi <= 0x7F && idx < U64
    ensures var s := SetSlab(hi, fp, idx);
            Mode(s) == 1 && ExtHi(s) == hi && ExtFp(s) == fp && SlabIdx(s) == idx
  {
    hide FpBytes, FpFrom, LeBytes, FromLe, SlabHeader;
    var s := SetSlab(hi, fp, idx);
    SlabHeaderFields(hi);
    FpRoundTrip(fp);
    Pow256Eight();
    LeRoundTrip(idx, 8);
    assert s[1..5] == FpBytes(fp);
    assert s[6..14] == LeBytes(idx, 8);
  }
}

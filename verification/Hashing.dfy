/**
 Hash splitting and bucket indexing (src/engine/hash.rs, src/sharded.rs,
 `bucket_index` in src/sync.rs).  The 64-bit hash itself is a parameter.
 */
module Hashing {
  import opened Base

  /** How a table places keys: the hash function and whether shard bits are removed first. */
  datatype Config = Config(hash: Bytes -> bv64, sharded: bool)

  function H2Of(h: bv64): bv64 { (h >> 57) & 0x7F }

  function ExtHiOf(h: bv64): bv64 { (h >> 50) & 0x7F }

  function ExtFpOf(h: bv64): bv64 { (h >> 18) & 0xFFFF_FFFF }

  /** The hash without shard bits 14..17, closed up. */
  function BucketHash(h: bv64): bv64 {
    (h & 0x3FFF) | ((h >> 4) & !0x3FFF)
  }

  /** Bits 14..17. */
  function ShardOf(h: bv64): bv64 { (h >> 14) & 0x0F }

  predicate Odd(h: bv64) { h & 1 == 1 }

  function Half(h: bv64): bv64 { h >> 1 }

  /** Value of the low `k` bits: what `h as usize & mask` is for a mask of `k` ones (MaskedIsLow). */
  function Low(h: bv64, k: nat): (n: nat)
    ensures n < Pow2(k)
    decreases k
  {
    if k == 0 then 0 else (if Odd(h) then 1 else 0) + 2 * Low(Half(h), k - 1)
  }

  function IndexOf(c: Config, key: Bytes, bits: nat): (b: nat)
    ensures b < Pow2(bits)
  {
    Low(if c.sharded then BucketHash(c.hash(key)) else c.hash(key), bits)
  }

  /** `m` is 2^k - 1. */
  predicate IsMask(m: bv64, k: nat)
    decreases k
  {
    if k == 0 then m == 0 else Odd(m) && IsMask(Half(m), k - 1)
  }

  function Masked(h: bv64, m: bv64): bv64 { h & m }

  /** Masking with 2^k - 1 keeps exactly the low `k` bits. */
  lemma {:induction false} MaskedIsLow(h: bv64, m: bv64, k: nat, n: nat)
    requires IsMask(m, k) && k <= n
    ensures Low(Masked(h, m), n) == Low(h, k)
    decreases n
  {
    hide Masked, Half, Odd;
    if k == 0 {
      MaskedNone(h);
      ZeroIsLow(Masked(h, m), n);
    } else {
      MaskedIsLow(Half(h), Half(m), k - 1, n - 1);
      ShiftMasked(h, m);
    }
  }

  lemma MaskedNone(h: bv64)
    ensures Masked(h, 0) == 0
  {}

  lemma ShiftMasked(h: bv64, m: bv64)
    ensures Half(Masked(h, m)) == Masked(Half(h), Half(m)) && (Odd(m) ==> Odd(Masked(h, m)) == Odd(h))
  {}

  lemma {:induction false} ZeroIsLow(h: bv64, n: nat)
    requires h == 0
    ensures Low(h, n) == 0
    decreases n
  {
    if n > 0 {
      assert Half(h) == 0 && !Odd(h);
      ZeroIsLow(Half(h), n - 1);
    }
  }

  /** Masks are nested: keys that share a bucket of a larger table share one of a smaller table. */
  lemma {:induction false} LowNested(g: bv64, h: bv64, j: nat, k: nat)
    requires j <= k && Low(g, k) == Low(h, k)
    ensures Low(g, j) == Low(h, j)
    decreases j
  {
    hide Half, Odd;
    if j > 0 { LowNested(Half(g), Half(h), j - 1, k - 1); }
  }

  lemma IndexNested(c: Config, x: Bytes, y: Bytes, j: nat, k: nat)
    requires j <= k && IndexOf(c, x, k) == IndexOf(c, y, k)
    ensures IndexOf(c, x, j) == IndexOf(c, y, j)
  {
    if c.sharded {
      LowNested(BucketHash(c.hash(x)), BucketHash(c.hash(y)), j, k);
    } else {
      LowNested(c.hash(x), c.hash(y), j, k);
    }
  }

  /** Exponent of `n.max(1).next_power_of_two()`. */
  function CeilBits(n: nat): (k: nat)
    ensures Pow2(k) >= n && (k == 0 || Pow2(k - 1) < n)
  {
    CeilFrom(n, 0)
  }

  function CeilFrom(n: nat, k: nat): (r: nat)
    requires k == 0 || Pow2(k - 1) < n
    ensures Pow2(r) >= n && (r == 0 || Pow2(r - 1) < n)
    decreases n - Pow2(k)
  {
    if Pow2(k) >= n then k else CeilFrom(n, k + 1)
  }

  lemma {:induction false} Pow2Grows(j: nat, k: nat)
    requires j < k
    ensures Pow2(j) < Pow2(k)
    decreases k
  {
    if j < k - 1 { Pow2Grows(j, k - 1); }
  }

  lemma SmallerBits(j: nat, k: nat)
    requires Pow2(j) < Pow2(k)
    ensures j < k
  {
    if k < j { Pow2Grows(k, j); }
  }

  /** An unsharded table indexes by the hash itself: with 2^bits buckets, `hash & (2^bits - 1)`. */
  lemma PlainIndex(c: Config, key: Bytes, m: bv64, bits: nat)
    requires !c.sharded && IsMask(m, bits) && bits <= 64
    ensures IndexOf(c, key, bits) == Low(c.hash(key) & m, 64)
  {
    hide Low, IsMask;
    MaskedIsLow(c.hash(key), m, bits, 64);
  }

  /** The fingerprints are the hash's top 46 bits, split 7, 7 and 32. */
  lemma HashSplit(h: bv64)
    ensures H2Of(h) <= 0x7F && ExtHiOf(h) <= 0x7F && ExtFpOf(h) <= 0xFFFF_FFFF
    ensures h == (H2Of(h) << 57) | (ExtHiOf(h) << 50) | (ExtFpOf(h) << 18) | (h & 0x3_FFFF)
  {}

  /** Twice a power of two is the next one. */
  lemma {:induction false} CeilDouble(b: nat)
    ensures CeilBits(2 * Pow2(b)) == b + 1
  {
    hide CeilFrom;
    assert Pow2(b + 1) == 2 * Pow2(b);
    var k := CeilBits(2 * Pow2(b));
    if k < b + 1 { Pow2Grows(k, b + 1); } else if k > b + 2 { Pow2Grows(b + 1, k - 1); }
  }
}

/** Types shared by every part of the model. */
module Base {

  datatype Option<+T> = None | Some(value: T)

  /** Keys and values are byte strings, as in the raw API. */
  type Bytes = seq<bv8>

  /** What a slot or a slab entry stores. */
  datatype KV = KV(key: Bytes, value: Bytes)

  /** A slot's insertion epoch and per-entry TTL (src/raw.rs, SlotTTL). */
  datatype Ttl = Ttl(epoch: nat, ttl: nat)

  /** Position of a slot: bucket and slot index. */
  datatype Loc = Loc(b: nat, i: nat)

  const U64: nat := 0x1_0000_0000_0000_0000
  const U64_MAX: nat := 0xFFFF_FFFF_FFFF_FFFF

  /** Wrapping of a 64-bit counter. */
  function Wrap64(n: nat): nat { n % U64 }

  /** A vector of 64-byte buckets cannot be longer than this. */
  const MAX_BUCKETS: nat := 0x200_0000_0000_0000

  function Pow2(k: nat): (p: nat)
    ensures p >= 1
  {
    if k == 0 then 1 else 2 * Pow2(k - 1)
  }
}

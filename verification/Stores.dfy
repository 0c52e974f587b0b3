/**
 The table as a value: buckets of packed words and 14-byte slots, slab contents, free
 list and TTL stamps.  Raw and concurrent maps both act on it.

 `Good(st, c, dirty)` is the representation invariant; `dirty` are the slots whose lock
 holder has started to rewrite them.  It covers location by hash, fingerprints, key
 uniqueness and slab ownership.  `owner` is auxiliary: which slot holds a slab index.
 */
module Stores {
  import opened Base
  import opened MetaWord
  import opened Slots
  import opened Hashing
  import opened Slab

  datatype Bucket = Bucket(meta: bv64, slots: seq<Slot>)

  datatype Store = Store(
    bits: nat,
    buckets: seq<Bucket>,
    entries: seq<KV>,
    free: seq<nat>,
    owner: seq<Option<Loc>>,
    ttls: seq<Ttl>)

  predicate Shape(st: Store) {
    && |st.buckets| == Pow2(st.bits) <= MAX_BUCKETS
    && (forall b :: 0 <= b < |st.buckets| ==> |st.buckets[b].slots| == 4)
    && |st.ttls| == 4 * |st.buckets|
    && |st.owner| == |st.entries|
  }

  predicate InRange(st: Store, l: Loc) {
    l.b < |st.buckets| && l.i < 4
  }

  function RecOfLoc(st: Store, l: Loc): Rec
    requires InRange(st, l)
  {
    RecAt(st.buckets[l.b].meta, l.i)
  }

  function SlotAt(st: Store, l: Loc): Slot
    requires Shape(st) && InRange(st, l)
  {
    st.buckets[l.b].slots[l.i]
  }

  function TtlAt(st: Store, l: Loc): Ttl
    requires Shape(st) && InRange(st, l)
  {
    st.ttls[l.b * 4 + l.i]
  }

  /** The pair a slot stands for. */
  function KvAt(st: Store, l: Loc): KV
    requires Shape(st) && InRange(st, l)
  {
    var s := SlotAt(st, l);
    if Mode(s) == 0 then KV(InlineKey(s), InlineValue(s))
    else if SlabIdx(s) < |st.entries| then st.entries[SlabIdx(s)]
    else KV([], [])
  }

  predicate IsFull(st: Store, l: Loc)
    requires InRange(st, l)
  {
    RecOfLoc(st, l).state == Full
  }

  /** An occupied slot that nobody is rewriting. */
  predicate Live(st: Store, dirty: set<Loc>, l: Loc) {
    InRange(st, l) && IsFull(st, l) && l !in dirty
  }

  /** The slot sits in the bucket of its key, with that key's fingerprints, and owns its slab entry. */
  ghost predicate SlotGood(st: Store, c: Config, l: Loc)
    requires Shape(st) && InRange(st, l)
  {
    var key := KvAt(st, l).key;
    var s := SlotAt(st, l);
    && l.b == IndexOf(c, key, st.bits)
    && RecOfLoc(st, l).h2 == H2Of(c.hash(key))
    && (Mode(s) != 0 ==>
          && SlabIdx(s) < |st.entries| && st.owner[SlabIdx(s)] == Some(l)
          && ExtHi(s) == ExtHiOf(c.hash(key)) && ExtFp(s) == ExtFpOf(c.hash(key)))
  }

  ghost predicate OwnerGood(st: Store, dirty: set<Loc>, x: nat)
    requires Shape(st) && x < |st.owner|
  {
    match st.owner[x]
    case None => x in st.free
    case Some(l) => x !in st.free && Live(st, dirty, l) && Mode(SlotAt(st, l)) != 0 && SlabIdx(SlotAt(st, l)) == x
  }

  ghost predicate PoolGood(st: Store, dirty: set<Loc>)
    requires Shape(st)
  {
    && (forall x :: 0 <= x < |st.owner| ==> OwnerGood(st, dirty, x))
    && (forall f :: f in st.free ==> f < |st.entries|)
    && (forall i, j :: 0 <= i < j < |st.free| ==> st.free[i] != st.free[j])
    && |st.entries| <= 4 * |st.buckets|
  }

  ghost predicate Good(st: Store, c: Config, dirty: set<Loc>) {
    && Shape(st)
    && (forall l :: Live(st, dirty, l) ==> SlotGood(st, c, l))
    && (forall l, m :: Live(st, dirty, l) && Live(st, dirty, m) && l != m ==> KvAt(st, l).key != KvAt(st, m).key)
    && PoolGood(st, dirty)
  }

  // ---------------------------------------------------------------------
  // Primitive updates
  // ---------------------------------------------------------------------

  function SetSlot(st: Store, l: Loc, s: Slot): (st': Store)
    requires Shape(st) && InRange(st, l)
    ensures Shape(st')
  {
    st.(buckets := st.buckets[l.b := st.buckets[l.b].(slots := st.buckets[l.b].slots[l.i := s])])
  }

  function SetMeta(st: Store, b: nat, w: bv64): (st': Store)
    requires Shape(st) && b < |st.buckets|
    ensures Shape(st')
  {
    st.(buckets := st.buckets[b := st.buckets[b].(meta := w)])
  }

  /** Give back the slab entry of a slot that is about to be rewritten. */
  function Release(st: Store, l: Loc): (st': Store)
    requires Shape(st) && InRange(st, l)
    ensures Shape(st')
  {
    var s := SlotAt(st, l);
    if Mode(s) != 0 && SlabIdx(s) < |st.owner| then
      st.(free := st.free + [SlabIdx(s)], owner := st.owner[SlabIdx(s) := None])
    else st
  }

  function AllocOwner(owner: seq<Option<Loc>>, idx: nat, l: Loc): seq<Option<Loc>>
    requires idx <= |owner|
  {
    if idx < |owner| then owner[idx := Some(l)] else owner + [Some(l)]
  }

  /** The pool after an allocation for `l`, before the slot is written. */
  function Allocated(st: Store, l: Loc, kv: KV): (st': Store)
    requires Shape(st) && forall f :: f in st.free ==> f < |st.entries|
    ensures Shape(st')
  {
    var idx := AllocIdx(st.entries, st.free);
    assert st.free != [] ==> idx in st.free;
    st.(entries := AllocEntries(st.entries, st.free, kv), free := AllocFree(st.free), owner := AllocOwner(st.owner, idx, l))
  }

  /** Store a pair in a slot: in place when it fits, else in a slab entry. */
  function Place(st: Store, c: Config, l: Loc, kv: KV): (st': Store)
    requires Shape(st) && InRange(st, l)
    requires forall f :: f in st.free ==> f < |st.entries|
    ensures Shape(st')
  {
    if FitsInline(kv.key, kv.value) then SetSlot(st, l, SetInline(kv.key, kv.value))
    else
      var h := c.hash(kv.key);
      SetSlot(Allocated(st, l, kv), l, SetSlab(ExtHiOf(h), ExtFpOf(h), AllocIdx(st.entries, st.free)))
  }

  function SetTtl(st: Store, l: Loc, t: Ttl): (st': Store)
    requires Shape(st) && InRange(st, l)
    ensures Shape(st')
  {
    st.(ttls := st.ttls[l.b * 4 + l.i := t])
  }

  function EmptyStore(bits: nat): (st: Store)
    requires Pow2(bits) <= MAX_BUCKETS
    ensures Shape(st)
  {
    Store(bits, seq(Pow2(bits), i => Bucket(0, [EmptySlot(), EmptySlot(), EmptySlot(), EmptySlot()])),
          [], [], [], seq(4 * Pow2(bits), i => Ttl(0, 0)))
  }

  lemma EmptyStoreGood(c: Config, bits: nat)
    requires Pow2(bits) <= MAX_BUCKETS
    ensures Good(EmptyStore(bits), c, {})
    ensures forall l :: InRange(EmptyStore(bits), l) ==> RecOfLoc(EmptyStore(bits), l).state == Empty
  {
    hide Pow2, IndexOf;
    ZeroWord();
  }

  lemma ZeroWord()
    ensures forall i: nat :: i < 4 ==> RecAt(0, i).state == Empty
  {
    forall i: nat | i < 4 ensures RecAt(0, i).state == Empty { }
  }

  // ---------------------------------------------------------------------
  // Lookup
  // ---------------------------------------------------------------------

  /** `matches_key`: direct comparison inline, 39-bit fingerprint and then the full key in the slab. */
  predicate Matches(st: Store, c: Config, l: Loc, key: Bytes)
    requires Shape(st) && InRange(st, l)
  {
    var s := SlotAt(st, l);
    if Mode(s) == 0 then InlineKey(s) == key
    else
      && ExtHi(s) == ExtHiOf(c.hash(key)) && ExtFp(s) == ExtFpOf(c.hash(key))
      && SlabIdx(s) < |st.entries| && st.entries[SlabIdx(s)].key == key
  }

  /** On a good slot the fingerprint filters never change the answer. */
  lemma MatchesIsKey(st: Store, c: Config, dirty: set<Loc>, l: Loc, key: Bytes)
    requires Good(st, c, dirty) && Live(st, dirty, l)
    ensures Matches(st, c, l, key) <==> KvAt(st, l).key == key
    ensures KvAt(st, l).key == key ==> RecOfLoc(st, l).h2 == H2Of(c.hash(key)) && l.b == IndexOf(c, key, st.bits)
  {
    hide RecAt, Mode, SlabIdx, InlineKey, InlineValue, ExtHi, ExtFp, IndexOf, H2Of, ExtHiOf, ExtFpOf;
    assert SlotGood(st, c, l);
  }

  // ---------------------------------------------------------------------
  // What each update keeps
  // ---------------------------------------------------------------------

  /** Words that agree on state and fingerprint of every slot but `i`. */
  ghost predicate SameBut(v: bv64, w: bv64, i: nat) {
    forall j: nat :: j < 4 && j != i ==> RecAt(w, j).state == RecAt(v, j).state && RecAt(w, j).h2 == RecAt(v, j).h2
  }

  /** Starting to rewrite a slot: its slab entry, if any, goes to the free list. */
  lemma ReleaseGood(st: Store, c: Config, dirty: set<Loc>, l: Loc)
    requires Good(st, c, dirty) && Live(st, dirty, l)
    ensures Good(Release(st, l), c, dirty + {l})
    ensures forall m :: InRange(st, m) ==> KvAt(Release(st, l), m) == KvAt(st, m)
  {
    hide RecAt, Mode, SlabIdx, InlineKey, InlineValue, ExtHi, ExtFp, IndexOf, H2Of, ExtHiOf, ExtFpOf;
    var st', dirty' := Release(st, l), dirty + {l};
    assert SlotGood(st, c, l);
    var idx := SlabIdx(SlotAt(st, l));
    if Mode(SlotAt(st, l)) != 0 { assert OwnerGood(st, dirty, idx); }
    forall m | Live(st', dirty', m) ensures SlotGood(st', c, m) {
      assert Live(st, dirty, m) && SlotGood(st, c, m);
    }
    forall x | 0 <= x < |st'.owner| ensures OwnerGood(st', dirty', x) {
      assert OwnerGood(st, dirty, x);
    }
    forall m, n | Live(st', dirty', m) && Live(st', dirty', n) && m != n ensures KvAt(st', m).key != KvAt(st', n).key {
      assert Live(st, dirty, m) && Live(st, dirty, n);
    }
  }

  /** A free slot may be claimed for writing as it is. */
  lemma VacantGood(st: Store, c: Config, dirty: set<Loc>, l: Loc)
    requires Good(st, c, dirty) && InRange(st, l) && !IsFull(st, l)
    ensures Good(st, c, dirty + {l})
  {
    hide RecAt, Mode, SlabIdx, InlineKey, InlineValue, ExtHi, ExtFp, IndexOf, H2Of, ExtHiOf, ExtFpOf;
    forall m | Live(st, dirty + {l}, m) ensures Live(st, dirty, m) {}
    forall x | 0 <= x < |st.owner| ensures OwnerGood(st, dirty + {l}, x) { assert OwnerGood(st, dirty, x); }
  }

  /** Slots and words outside one location are untouched. */
  ghost predicate OthersKept(st: Store, st': Store, l: Loc)
    requires Shape(st) && Shape(st')
  {
    && |st'.buckets| == |st.buckets| && st'.bits == st.bits
    && (forall m :: InRange(st, m) && m != l ==>
          SlotAt(st', m) == SlotAt(st, m) &&
          RecOfLoc(st', m).state == RecOfLoc(st, m).state && RecOfLoc(st', m).h2 == RecOfLoc(st, m).h2)
  }

  lemma WriteKeepsOthers(st: Store, l: Loc, s: Slot, w: bv64)
    requires Shape(st) && InRange(st, l) && SameBut(st.buckets[l.b].meta, w, l.i)
    ensures OthersKept(st, SetMeta(SetSlot(st, l, s), l.b, w), l)
    ensures SlotAt(SetMeta(SetSlot(st, l, s), l.b, w), l) == s
    ensures RecOfLoc(SetMeta(SetSlot(st, l, s), l.b, w), l) == RecAt(w, l.i)
  {
    hide RecAt;
    var st' := SetMeta(SetSlot(st, l, s), l.b, w);
    forall m | InRange(st, m) && m != l
      ensures SlotAt(st', m) == SlotAt(st, m) &&
              RecOfLoc(st', m).state == RecOfLoc(st, m).state && RecOfLoc(st', m).h2 == RecOfLoc(st, m).h2
    {}
  }

  /** Distinct numbers below `n` are at most `n` many. */
  lemma {:induction false} Pigeonhole(s: seq<nat>, n: nat)
    requires forall i :: 0 <= i < |s| ==> s[i] < n
    requires forall i, j :: 0 <= i < j < |s| ==> s[i] != s[j]
    ensures |s| <= n
    decreases n
  {
    assert |s| > 0 ==> s[0] < n;
    if n > 0 && |s| > 0 {
      if k :| 0 <= k < |s| && s[k] == n - 1 {
        var t := s[..k] + s[k + 1..];
        forall i, j | 0 <= i < j < |t| ensures t[i] != t[j] {
          var i', j' := if i < k then i else i + 1, if j < k then j else j + 1;
          assert t[i] == s[i'] && t[j] == s[j'];
        }
        Pigeonhole(t, n - 1);
      } else {
        Pigeonhole(s, n - 1);
      }
    }
  }

  /** With an empty free list every slab entry belongs to a different live slot. */
  lemma PoolHasRoom(st: Store, dirty: set<Loc>, l: Loc)
    requires Shape(st) && PoolGood(st, dirty) && InRange(st, l) && !Live(st, dirty, l) && st.free == []
    ensures |st.entries| + 1 <= 4 * |st.buckets|
  {
    hide RecAt, Mode, SlabIdx;
    var flat := seq(|st.owner|, x requires 0 <= x < |st.owner| =>
      if st.owner[x].Some? then 4 * st.owner[x].value.b + st.owner[x].value.i else 0);
    forall x | 0 <= x < |flat|
      ensures st.owner[x].Some? && flat[x] < 4 * |st.buckets| && flat[x] != 4 * l.b + l.i
    {
      assert OwnerGood(st, dirty, x);
    }
    forall x, y | 0 <= x < y < |flat| ensures flat[x] != flat[y] {
      assert OwnerGood(st, dirty, x) && OwnerGood(st, dirty, y);
    }
    Pigeonhole(flat + [4 * l.b + l.i], 4 * |st.buckets|);
  }

  /** A key may go to `l`: right bucket, no live slot holds it, and the new word announces it. */
  ghost predicate MayPlace(st: Store, c: Config, dirty: set<Loc>, l: Loc, key: Bytes, w: bv64)
    requires Shape(st)
  {
    && InRange(st, l) && l in dirty && l.b == IndexOf(c, key, st.bits)
    && (forall m :: Live(st, dirty, m) ==> KvAt(st, m).key != key)
    && SameBut(st.buckets[l.b].meta, w, l.i) && RecAt(w, l.i).state == Full && RecAt(w, l.i).h2 == H2Of(c.hash(key))
  }

  lemma InlineGood(st: Store, c: Config, dirty: set<Loc>, l: Loc, kv: KV, w: bv64)
    requires Good(st, c, dirty) && MayPlace(st, c, dirty, l, kv.key, w) && FitsInline(kv.key, kv.value)
    ensures var st' := SetMeta(Place(st, c, l, kv), l.b, w);
            && Good(st', c, dirty - {l}) && Live(st', dirty - {l}, l) && KvAt(st', l) == kv
            && (forall m :: Live(st, dirty, m) ==> Live(st', dirty - {l}, m) && KvAt(st', m) == KvAt(st, m))
            && (forall m :: Live(st', dirty - {l}, m) && m != l ==> Live(st, dirty, m))
  {
    hide RecAt, Mode, SlabIdx, InlineKey, InlineValue, ExtHi, ExtFp, IndexOf, H2Of, ExtHiOf, ExtFpOf, SetInline;
    var st', dirty' := SetMeta(Place(st, c, l, kv), l.b, w), dirty - {l};
    InlineRoundTrip(kv.key, kv.value);
    WriteKeepsOthers(st, l, SetInline(kv.key, kv.value), w);
    forall m | Live(st', dirty', m) && m != l ensures Live(st, dirty, m) && KvAt(st', m) == KvAt(st, m) && SlotGood(st', c, m) {
      assert SlotGood(st, c, m);
    }
    forall x | 0 <= x < |st'.owner| ensures OwnerGood(st', dirty', x) { assert OwnerGood(st, dirty, x); }
  }

  /** An allocation touches no entry a live slot owns. */
  lemma AllocKeepsLive(st: Store, c: Config, dirty: set<Loc>, l: Loc, kv: KV)
    requires Good(st, c, dirty) && InRange(st, l) && l in dirty
    ensures var a := Allocated(st, l, kv);
            var idx := AllocIdx(st.entries, st.free);
            && Shape(a) && idx < |a.entries| <= 4 * |a.buckets| && a.entries[idx] == kv && a.owner[idx] == Some(l)
            && (forall x :: 0 <= x < |st.owner| && x != idx ==> a.entries[x] == st.entries[x] && a.owner[x] == st.owner[x])
            && (forall x :: x in a.free <==> x in st.free && x != idx)
            && (forall x :: 0 <= x < |st.owner| && st.owner[x].Some? ==> x != idx)
            && |st.owner| <= |a.owner| <= |st.owner| + 1 && (|a.owner| > |st.owner| ==> idx == |st.owner|)
            && (forall i, j :: 0 <= i < j < |a.free| ==> a.free[i] != a.free[j])
  {
    hide RecAt, Mode, SlabIdx;
    var idx := AllocIdx(st.entries, st.free);
    if st.free == [] {
      PoolHasRoom(st, dirty, l);
    } else {
      assert idx in st.free;
      forall x | x in st.free && x != idx ensures x in AllocFree(st.free) {
        var i :| 0 <= i < |st.free| && st.free[i] == x;
        assert AllocFree(st.free)[i] == x;
      }
      assert OwnerGood(st, dirty, idx);
    }
    forall x | 0 <= x < |st.owner| && st.owner[x].Some? ensures x != idx { assert OwnerGood(st, dirty, x); }
  }

  lemma SlabGood(st: Store, c: Config, dirty: set<Loc>, l: Loc, kv: KV, w: bv64)
    requires Good(st, c, dirty) && MayPlace(st, c, dirty, l, kv.key, w) && !FitsInline(kv.key, kv.value)
    ensures var st' := SetMeta(Place(st, c, l, kv), l.b, w);
            && Good(st', c, dirty - {l}) && Live(st', dirty - {l}, l) && KvAt(st', l) == kv
            && (forall m :: Live(st, dirty, m) ==> Live(st', dirty - {l}, m) && KvAt(st', m) == KvAt(st, m))
            && (forall m :: Live(st', dirty - {l}, m) && m != l ==> Live(st, dirty, m))
  {
    hide RecAt, Mode, SlabIdx, InlineKey, InlineValue, ExtHi, ExtFp, IndexOf, H2Of, ExtHiOf, ExtFpOf, SetSlab,
         AllocIdx, AllocEntries, AllocFree, AllocOwner;
    var a := Allocated(st, l, kv);
    var idx, h := AllocIdx(st.entries, st.free), c.hash(kv.key);
    AllocKeepsLive(st, c, dirty, l, kv);
    FpSmall(h);
    SlabRoundTrip(ExtHiOf(h), ExtFpOf(h), idx);
    var st', dirty' := SetMeta(Place(st, c, l, kv), l.b, w), dirty - {l};
    WriteKeepsOthers(a, l, SetSlab(ExtHiOf(h), ExtFpOf(h), idx), w);
    forall m | Live(st', dirty', m) && m != l ensures Live(st, dirty, m) && KvAt(st', m) == KvAt(st, m) && SlotGood(st', c, m) {
      assert SlotGood(st, c, m);
    }
    assert st'.owner == a.owner && st'.free == a.free && st'.entries == a.entries;
    forall x | 0 <= x < |st'.owner| ensures OwnerGood(st', dirty', x) {
      if x == idx {
        assert x !in st'.free && Live(st', dirty', l) && SlabIdx(SlotAt(st', l)) == x;
      } else {
        assert OwnerGood(st, dirty, x);
      }
    }
  }

  lemma FpSmall(h: bv64)
    ensures ExtFpOf(h) <= 0xFFFF_FFFF && ExtHiOf(h) <= 0x7F && H2Of(h) & 0x7F == H2Of(h)
  {}

  /** Placing a key in a claimed slot keeps the invariant, shows the pair there and moves nothing else. */
  lemma PlaceGood(st: Store, c: Config, dirty: set<Loc>, l: Loc, kv: KV, w: bv64)
    requires Good(st, c, dirty) && MayPlace(st, c, dirty, l, kv.key, w)
    ensures var st' := SetMeta(Place(st, c, l, kv), l.b, w);
            && Good(st', c, dirty - {l}) && Live(st', dirty - {l}, l) && KvAt(st', l) == kv
            && (forall m :: Live(st, dirty, m) ==> Live(st', dirty - {l}, m) && KvAt(st', m) == KvAt(st, m))
            && (forall m :: Live(st', dirty - {l}, m) && m != l ==> Live(st, dirty, m))
  {
    hide Good, MayPlace, Place, Live, KvAt;
    if FitsInline(kv.key, kv.value) { InlineGood(st, c, dirty, l, kv, w); } else { SlabGood(st, c, dirty, l, kv, w); }
  }

  /** Emptying a claimed slot: the word now says it is not Full. */
  lemma VacateGood(st: Store, c: Config, dirty: set<Loc>, l: Loc, s: Slot, w: bv64)
    requires Good(st, c, dirty) && InRange(st, l) && l in dirty
    requires SameBut(st.buckets[l.b].meta, w, l.i) && RecAt(w, l.i).state != Full
    ensures var st' := SetMeta(SetSlot(st, l, s), l.b, w);
            && Good(st', c, dirty - {l})
            && (forall m :: Live(st, dirty, m) <==> Live(st', dirty - {l}, m))
            && (forall m :: Live(st, dirty, m) ==> KvAt(st', m) == KvAt(st, m))
  {
    hide RecAt, Mode, SlabIdx, InlineKey, InlineValue, ExtHi, ExtFp, IndexOf, H2Of, ExtHiOf, ExtFpOf;
    var st', dirty' := SetMeta(SetSlot(st, l, s), l.b, w), dirty - {l};
    WriteKeepsOthers(st, l, s, w);
    forall m | Live(st', dirty', m) ensures Live(st, dirty, m) && KvAt(st', m) == KvAt(st, m) && SlotGood(st', c, m) {
      assert SlotGood(st, c, m);
    }
    forall x | 0 <= x < |st'.owner| ensures OwnerGood(st', dirty', x) { assert OwnerGood(st, dirty, x); }
  }

  /** Policy updates change no state, fingerprint, key, value or ownership. */
  lemma TouchGood(st: Store, c: Config, dirty: set<Loc>, b: nat, w: bv64)
    requires Good(st, c, dirty) && b < |st.buckets| && SameBut(st.buckets[b].meta, w, 4)
    ensures var st' := SetMeta(st, b, w);
            && Good(st', c, dirty)
            && (forall m :: Live(st', dirty, m) <==> Live(st, dirty, m))
            && (forall m :: InRange(st, m) ==> KvAt(st', m) == KvAt(st, m) && TtlAt(st', m) == TtlAt(st, m))
  {
    hide RecAt, Mode, SlabIdx, InlineKey, InlineValue, ExtHi, ExtFp, IndexOf, H2Of, ExtHiOf, ExtFpOf;
    var st' := SetMeta(st, b, w);
    forall m | InRange(st, m)
      ensures SlotAt(st', m) == SlotAt(st, m) && KvAt(st', m) == KvAt(st, m)
      ensures RecOfLoc(st', m).state == RecOfLoc(st, m).state && RecOfLoc(st', m).h2 == RecOfLoc(st, m).h2
    {}
    forall m | Live(st', dirty, m) ensures SlotGood(st', c, m) { assert SlotGood(st, c, m); }
    forall x | 0 <= x < |st'.owner| ensures OwnerGood(st', dirty, x) { assert OwnerGood(st, dirty, x); }
  }

  lemma StampGood(st: Store, c: Config, dirty: set<Loc>, l: Loc, t: Ttl)
    requires Good(st, c, dirty) && InRange(st, l)
    ensures var st' := SetTtl(st, l, t);
            && Good(st', c, dirty)
            && (forall m :: Live(st', dirty, m) <==> Live(st, dirty, m))
            && (forall m :: InRange(st, m) ==> KvAt(st', m) == KvAt(st, m))
            && (forall m :: InRange(st, m) ==> TtlAt(st', m) == if m == l then t else TtlAt(st, m))
  {
    hide RecAt, Mode, SlabIdx, InlineKey, InlineValue, ExtHi, ExtFp, IndexOf, H2Of, ExtHiOf, ExtFpOf;
    var st' := SetTtl(st, l, t);
    forall m | InRange(st, m) ensures KvAt(st', m) == KvAt(st, m) {}
    forall m | Live(st', dirty, m) ensures SlotGood(st', c, m) { assert Live(st, dirty, m) && SlotGood(st, c, m); }
    forall x | 0 <= x < |st'.owner| ensures OwnerGood(st', dirty, x) { assert OwnerGood(st, dirty, x); }
  }

  lemma OnAccessSameBut(v: bv64, i: nat)
    requires i < 4
    ensures SameBut(v, OnAccess(v, i), 4)
  {
    hide RecAt, OnAccess;
    OnAccessRecs(v, i);
  }

  /** The word a fresh insert leaves: Full, the key's fingerprint, frequency 0 and recency 1. */
  function FreshWord(v: bv64, i: nat, h2: bv64): bv64
    requires i < 4
  {
    OnInsert(WithH2(WithState(v, i, Full), i, h2), i)
  }

  lemma FreshWordRecs(v: bv64, i: nat, h: bv64)
    requires i < 4
    ensures forall j: nat :: j < 4 ==>
              RecAt(FreshWord(v, i, H2Of(h)), j) == if j == i then Rec(Full, H2Of(h), 0, 1) else RecAt(v, j)
  {
    hide RecAt, WithState, WithH2, OnInsert, H2Of;
    var v1 := WithState(v, i, Full);
    WithStateRecs(v, i, Full);
    WithH2Recs(v1, i, H2Of(h));
    OnInsertRecs(WithH2(v1, i, H2Of(h)), i);
    FpSmall(h);
  }
}

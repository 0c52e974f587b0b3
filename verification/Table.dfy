/**
 The mutable table: what `PulseMapRaw` (src/raw.rs) and `MapInner` (src/sync.rs) have in
 common.  Its methods do the program's word, slot and slab operations; their contracts
 speak about the cells the table stands for.
 */
module Tables {
  import opened Base
  import opened MetaWord
  import opened Slots
  import opened Hashing
  import opened Slab
  import opened Stores
  import opened Views
  import Cells

  class Table {
    const c: Config
    const bits: nat
    const pool: SlabPool
    var buckets: seq<Stores.Bucket>
    var ttls: seq<Ttl>
    ghost var owner: seq<Option<Loc>>

    ghost function Snap(): Store
      reads this, pool
    {
      Store(bits, buckets, pool.contents, pool.freeList, owner, ttls)
    }

    ghost predicate Valid()
      reads this, pool, pool.repr
    {
      pool.Valid() && this !in pool.repr && Good(Snap(), c, {})
    }

    /** What the table holds. */
    ghost function Content(): (v: seq<Cells.Bucket>)
      reads this, pool, pool.repr
      requires Valid()
      ensures |v| == |buckets| == Pow2(bits)
    {
      View(Snap())
    }

    constructor (c: Config, bits: nat)
      requires Pow2(bits) <= MAX_BUCKETS
      ensures Valid() && fresh(pool) && fresh(pool.repr) && this.c == c && this.bits == bits
      ensures Snap() == EmptyStore(bits)
    {
      this.c, this.bits := c, bits;
      var p := new SlabPool();
      pool := p;
      buckets := seq(Pow2(bits), i => Stores.Bucket(0, [EmptySlot(), EmptySlot(), EmptySlot(), EmptySlot()]));
      ttls := seq(4 * Pow2(bits), i => Ttl(0, 0));
      owner := [];
      new;
      EmptyStoreGood(c, bits);
      assert Snap() == EmptyStore(bits);
    }

    /** `matches_key` on one slot. */
    method MatchAt(l: Loc, key: Bytes) returns (ok: bool)
      requires Valid() && InRange(Snap(), l) && IsFull(Snap(), l)
      ensures ok <==> KvAt(Snap(), l).key == key
    {
      hide RecAt, InlineKey, InlineValue, IndexOf, H2Of, ExtHiOf, ExtFpOf, SlabIdx, Mode, ExtHi, ExtFp, PoolGood;
      ghost var st := Snap();
      assert Live(st, {}, l) && SlotGood(st, c, l);
      MatchesIsKey(st, c, {}, l, key);
      var s := buckets[l.b].slots[l.i];
      var h := c.hash(key);
      if Mode(s) == 0 {
        ok := InlineKey(s) == key;
      } else if ExtHi(s) != ExtHiOf(h) || ExtFp(s) != ExtFpOf(h) {
        ok := false;
      } else {
        var kv := pool.Get(SlabIdx(s));
        ok := kv.key == key;
      }
    }

    /** The value of an occupied slot. */
    method ValueAt(l: Loc) returns (kv: KV)
      requires Valid() && InRange(Snap(), l) && IsFull(Snap(), l)
      ensures kv == KvAt(Snap(), l)
    {
      hide RecAt, InlineKey, InlineValue, IndexOf, H2Of, SlabIdx, Mode, ExtHi, ExtFp, PoolGood;
      assert Live(Snap(), {}, l) && SlotGood(Snap(), c, l);
      var s := buckets[l.b].slots[l.i];
      if Mode(s) == 0 {
        kv := KV(InlineKey(s), InlineValue(s));
      } else {
        kv := pool.Get(SlabIdx(s));
      }
    }

    /** The slot of the key's bucket that holds the key, found through the fingerprint mask. */
    method Locate(key: Bytes) returns (b: nat, r: Option<nat>)
      requires Valid()
      ensures b == IndexOf(c, key, bits) < |buckets|
      ensures r == Cells.Find(Content()[b], key)
    {
      hide RecAt, Good, KvAt, ScalarMask, Bit, IndexOf, H2Of, Unpack;
      GoodShape(Snap(), c, {});
      ghost var st := Snap();
      b := IndexOf(c, key, bits);
      var v := buckets[b].meta;
      var h2 := H2Of(c.hash(key));
      var m := ScalarMask(v, h2);
      MaskCovers(st, c, b, key);
      while m != 0
        invariant m <= 0x0F
        invariant forall j: nat :: j < 4 && Bit(m, j) ==> IsFull(st, Loc(b, j))
        invariant forall j: nat :: j < 4 && Cells.Holds(Content()[b][j], key) ==> Bit(m, j)
        decreases m
      {
        var i := LowestBit(m);
        ClearLowest(m);
        assert Bit(m, i);
        var hit := MatchAt(Loc(b, i), key);
        ViewAt(st, Loc(b, i));
        if hit {
          FoundUnique(st, c, b, i, key);
          return b, Some(i);
        }
        m := m & (m - 1);
      }
      ZeroHasNoBits();
      r := None;
    }

    /** Count an access to slot `l`. */
    method Touch(l: Loc)
      requires Valid() && InRange(Snap(), l)
      modifies this`buckets
      ensures Valid() && Content() == old(Content()[l.b := Cells.Touch(Content()[l.b], l.i)])
    {
      hide Good, View, OnAccess;
      ghost var st := Snap();
      GoodShape(st, c, {});
      TouchView(st, c, l);
      var w := ComputeOnAccess(buckets[l.b].meta, l.i);
      buckets := buckets[l.b := buckets[l.b].(meta := w)];
      assert Snap() == TouchStore(st, l);
    }

    /** Give a slot's slab entry back to the pool. */
    method FreeSlab(l: Loc)
      requires pool.Valid() && this !in pool.repr && Shape(Snap()) && InRange(Snap(), l)
      requires Mode(buckets[l.b].slots[l.i]) != 0 ==> SlabIdx(buckets[l.b].slots[l.i]) < |owner|
      modifies this`owner, pool`freeList
      ensures pool.Valid() && Snap() == Release(old(Snap()), l)
    {
      hide Mode, SlabIdx;
      var s := buckets[l.b].slots[l.i];
      if Mode(s) != 0 {
        pool.Free(SlabIdx(s));
        owner := owner[SlabIdx(s) := None];
      }
    }

    /** Store a pair in a slot, in place or in the slab. */
    method Put(l: Loc, kv: KV)
      requires pool.Valid() && this !in pool.repr && Shape(Snap()) && InRange(Snap(), l) && FreeListInRange(Snap())
      requires |kv.key| + |kv.value| < U32
      modifies this`buckets, this`owner, pool.repr
      ensures pool.Valid() && fresh(pool.repr - old(pool.repr)) && Snap() == Place(old(Snap()), c, l, kv)
    {
      hide SetInline, SetSlab, ExtHiOf, ExtFpOf, AllocIdx, AllocEntries, AllocFree;
      if FitsInline(kv.key, kv.value) {
        buckets := buckets[l.b := buckets[l.b].(slots := buckets[l.b].slots[l.i := SetInline(kv.key, kv.value)])];
      } else {
        ghost var st := Snap();
        var h := c.hash(kv.key);
        AllocInRange(st);
        var idx := pool.Alloc(kv.key, kv.value);
        owner := AllocOwner(owner, idx, l);
        buckets := buckets[l.b := buckets[l.b].(slots := buckets[l.b].slots[l.i := SetSlab(ExtHiOf(h), ExtFpOf(h), idx)])];
      }
    }

    method Stamp(l: Loc, t: Ttl)
      requires Shape(Snap()) && InRange(Snap(), l)
      modifies this`ttls
      ensures Snap() == SetTtl(old(Snap()), l, t)
    {
      ttls := ttls[l.b * 4 + l.i := t];
    }

    method PutWord(b: nat, w: bv64)
      requires Shape(Snap()) && b < |buckets|
      modifies this`buckets
      ensures Snap() == SetMeta(old(Snap()), b, w)
    {
      buckets := buckets[b := buckets[b].(meta := w)];
    }

    /** Overwrite a resident key. */
    method Update(l: Loc, kv: KV, t: Ttl)
      requires Valid() && Live(Snap(), {}, l) && KvAt(Snap(), l).key == kv.key && |kv.key| + |kv.value| < U32
      modifies this`buckets, this`owner, this`ttls, pool.repr
      ensures Valid() && fresh(pool.repr - old(pool.repr))
      ensures Content() == old(Content()[l.b := Cells.UpdateAt(Content()[l.b], l.i, kv, t)])
    {
      hide Good, View, OnAccess, Place, Release, KvAt, Mode, SlabIdx, Live;
      ghost var st := Snap();
      GoodShape(st, c, {});
      LiveSlab(st, c, l);
      UpdateView(st, c, l, kv, t);
      ReleaseFrame(st, l);
      FreeSlab(l);
      PlaceFrame(Snap(), c, l, kv);
      Put(l, kv);
      var w := ComputeOnAccess(buckets[l.b].meta, l.i);
      PutWord(l.b, w);
      Stamp(l, t);
      assert Snap() == UpdateStore(st, c, l, kv, t);
    }

    /** Put a key that is not resident into a slot of its bucket, dropping whatever is there. */
    method Fresh(l: Loc, kv: KV, t: Ttl)
      requires Valid() && InRange(Snap(), l) && Absent(Snap(), kv.key) && l.b == IndexOf(c, kv.key, bits)
      requires |kv.key| + |kv.value| < U32
      modifies this`buckets, this`owner, this`ttls, pool.repr
      ensures Valid() && fresh(pool.repr - old(pool.repr))
      ensures Content() == old(Content()[l.b := Cells.FreshAt(Content()[l.b], l.i, kv, t)])
    {
      hide Good, View, WithState, WithH2, OnInsert, Place, Release, KvAt, Mode, SlabIdx, State, RecAt, IndexOf, H2Of;
      ghost var st := Snap();
      GoodShape(st, c, {});
      FreshView(st, c, l, kv, t);
      ReclaimFrame(st, l);
      StateOfRec(buckets[l.b].meta, l.i);
      if State(buckets[l.b].meta, l.i) == Full {
        LiveSlab(st, c, l);
        FreeSlab(l);
      }
      assert Snap() == Reclaim(st, l);
      PlaceFrame(Snap(), c, l, kv);
      Put(l, kv);
      PutWord(l.b, WithState(buckets[l.b].meta, l.i, Full));
      PutWord(l.b, WithH2(buckets[l.b].meta, l.i, H2Of(c.hash(kv.key))));
      PutWord(l.b, OnInsert(buckets[l.b].meta, l.i));
      Stamp(l, t);
      assert Snap() == FreshStore(st, c, l, kv, t);
    }

    /** Empty an occupied slot. */
    method Remove(l: Loc)
      requires Valid() && Live(Snap(), {}, l)
      modifies this`buckets, this`owner, pool`freeList
      ensures Valid()
      ensures Content() == old(Content()[l.b := Content()[l.b][l.i := Cells.Vacant]])
    {
      hide Good, View, WithState, Release, KvAt, Mode, SlabIdx, RecAt, EmptySlot;
      ghost var st := Snap();
      GoodShape(st, c, {});
      LiveSlab(st, c, l);
      RemoveView(st, c, l);
      ReleaseFrame(st, l);
      FreeSlab(l);
      PutWord(l.b, WithState(buckets[l.b].meta, l.i, Tombstone));
      buckets := buckets[l.b := buckets[l.b].(slots := buckets[l.b].slots[l.i := EmptySlot()])];
      assert Snap() == RemoveStore(st, l);
    }
  }

  lemma StateOfRec(v: bv64, i: nat)
    requires i < 4
    ensures RecAt(v, i).state == State(v, i)
  {
    hide State, H2, Prio, FreqOf, RecOf;
  }

  lemma AllocInRange(st: Store)
    requires Shape(st) && FreeListInRange(st)
    ensures AllocIdx(st.entries, st.free) <= |st.owner|
  {
    assert st.free != [] ==> st.free[|st.free| - 1] in st.free;
  }

  lemma LiveSlab(st: Store, c: Config, l: Loc)
    requires Good(st, c, {}) && Live(st, {}, l)
    ensures InRange(st, l) && (Mode(SlotAt(st, l)) != 0 ==> SlabIdx(SlotAt(st, l)) < |st.owner|)
  {
    hide RecAt, Mode, SlabIdx, IndexOf, H2Of, ExtHi, ExtFp, PoolGood;
    assert SlotGood(st, c, l);
  }

  /** The fingerprint mask names only occupied slots and every slot that holds the key. */
  lemma MaskCovers(st: Store, c: Config, b: nat, key: Bytes)
    requires Good(st, c, {}) && b == IndexOf(c, key, st.bits) && b < |st.buckets|
    ensures var m := ScalarMask(st.buckets[b].meta, H2Of(c.hash(key)));
            && m <= 0x0F
            && (forall j: nat :: j < 4 && Bit(m, j) ==> IsFull(st, Loc(b, j)))
            && (forall j: nat :: j < 4 && Cells.Holds(View(st)[b][j], key) ==> Bit(m, j))
  {
    hide RecAt, KvAt, ScalarMask, Bit, IndexOf, H2Of, Unpack, PoolGood, SlotGood, View;
    var v, h2 := st.buckets[b].meta, H2Of(c.hash(key));
    var m := ScalarMask(v, h2);
    ScalarMaskIsCandidates(v, h2);
    FpSmall(c.hash(key));
    Low7Is(h2);
    forall j: nat | j < 4
      ensures Bit(m, j) ==> IsFull(st, Loc(b, j))
      ensures Cells.Holds(View(st)[b][j], key) ==> Bit(m, j)
    {
      assert Bit(m, j) <==> j in Candidates(v, h2) by { assert j in MaskSlots(m) <==> Bit(m, j); }
      UnpackAt(v, j);
      ViewAt(st, Loc(b, j));
      if IsFull(st, Loc(b, j)) {
        assert Live(st, {}, Loc(b, j));
        MatchesIsKey(st, c, {}, Loc(b, j), key);
      }
    }
  }

  lemma Low7Is(x: bv64)
    ensures Low7(x) == x & 0x7F
  {}

  /** Keys are unique, so the slot found is the first one. */
  lemma FoundUnique(st: Store, c: Config, b: nat, i: nat, key: Bytes)
    requires Good(st, c, {}) && InRange(st, Loc(b, i)) && IsFull(st, Loc(b, i)) && KvAt(st, Loc(b, i)).key == key
    ensures Cells.Find(View(st)[b], key) == Some(i)
  {
    hide RecAt, KvAt, PoolGood, SlotGood, View;
    assert Live(st, {}, Loc(b, i));
    forall j: nat | j < 4 ensures Cells.Holds(View(st)[b][j], key) <==> j == i {
      ViewAt(st, Loc(b, j));
      if j != i && IsFull(st, Loc(b, j)) { assert Live(st, {}, Loc(b, j)); }
    }
  }

  /** A key that its bucket does not hold is held nowhere. */
  lemma NotFoundAbsent(st: Store, c: Config, key: Bytes)
    requires Good(st, c, {}) && IndexOf(c, key, st.bits) < |st.buckets|
    requires Cells.Find(View(st)[IndexOf(c, key, st.bits)], key).None?
    ensures Absent(st, key)
  {
    hide RecAt, KvAt, PoolGood, SlotGood, View, IndexOf;
    forall m | Live(st, {}, m) ensures KvAt(st, m).key != key {
      ViewAt(st, m);
      MatchesIsKey(st, c, {}, m, key);
    }
  }

  /** A found slot is occupied by the key. */
  lemma FoundLive(st: Store, b: nat, i: nat, key: Bytes)
    requires Shape(st) && b < |st.buckets| && i < 4 && Cells.Holds(View(st)[b][i], key)
    ensures Live(st, {}, Loc(b, i)) && KvAt(st, Loc(b, i)).key == key && View(st)[b][i].e.value == KvAt(st, Loc(b, i)).value
    ensures View(st)[b][i].e.epoch == TtlAt(st, Loc(b, i)).epoch && View(st)[b][i].e.ttl == TtlAt(st, Loc(b, i)).ttl
  {
    hide RecAt, KvAt, View;
    ViewAt(st, Loc(b, i));
  }

  /** The victim the packed word names is the victim of the cells. */
  lemma VictimOfWord(st: Store, b: nat, i: nat)
    requires Shape(st) && b < |st.buckets| && MetaWord.IsVictim(Unpack(st.buckets[b].meta), i)
    ensures Cells.IsVictim(View(st)[b], i)
  {
    hide RecAt, KvAt, View, Unpack;
    var v := st.buckets[b].meta;
    forall j: nat | j < 4
      ensures Unpack(v)[j] == RecAt(v, j) && (View(st)[b][j].Held? <==> RecAt(v, j).state == Full)
      ensures View(st)[b][j].Held? ==> View(st)[b][j].e.Priority() == RecAt(v, j).Priority()
    {
      UnpackAt(v, j);
      ViewAt(st, Loc(b, j));
    }
  }

  lemma HeldOfWord(st: Store, b: nat, i: nat)
    requires Shape(st) && b < |st.buckets| && i < 4
    ensures View(st)[b][i].Held? <==> Unpack(st.buckets[b].meta)[i].state == Full
    ensures Unpack(st.buckets[b].meta)[i].state == State(st.buckets[b].meta, i)
  {
    hide RecAt, KvAt, View, Unpack, State;
    UnpackAt(st.buckets[b].meta, i);
    StateOfRec(st.buckets[b].meta, i);
    ViewAt(st, Loc(b, i));
  }
}

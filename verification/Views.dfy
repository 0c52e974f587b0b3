/**
 The bridge between the stored table (Stores) and its meaning (Cells), and the three
 composite updates of the maps: update a resident key, insert a fresh one, remove one.
 */
module Views {
  import opened Base
  import opened MetaWord
  import opened Slots
  import opened Hashing
  import opened Stores
  import Cells

  function EntryAt(st: Store, l: Loc): Cells.Entry
    requires Shape(st) && InRange(st, l)
  {
    var kv, r, t := KvAt(st, l), RecOfLoc(st, l), TtlAt(st, l);
    Cells.Entry(kv.key, kv.value, r.freq, r.rec, t.epoch, t.ttl)
  }

  function CellAt(st: Store, l: Loc): Cells.Cell
    requires Shape(st) && InRange(st, l)
  {
    if IsFull(st, l) then Cells.Held(EntryAt(st, l)) else Cells.Vacant
  }

  function BucketAt(st: Store, b: nat): Cells.Bucket
    requires Shape(st) && b < |st.buckets|
  {
    [CellAt(st, Loc(b, 0)), CellAt(st, Loc(b, 1)), CellAt(st, Loc(b, 2)), CellAt(st, Loc(b, 3))]
  }

  function View(st: Store): (v: seq<Cells.Bucket>)
    requires Shape(st)
    ensures |v| == |st.buckets|
  {
    seq(|st.buckets|, b requires 0 <= b < |st.buckets| => BucketAt(st, b))
  }

  // ---------------------------------------------------------------------
  // Composite updates
  // ---------------------------------------------------------------------

  predicate FreeListInRange(st: Store) { forall f :: f in st.free ==> f < |st.entries| }

  /** Update in place: free the old slab entry, store the pair, count an access, stamp. */
  function UpdateStore(st: Store, c: Config, l: Loc, kv: KV, t: Ttl): (st': Store)
    requires Shape(st) && InRange(st, l) && FreeListInRange(Release(st, l))
    ensures Shape(st')
  {
    SetTtl(SetMeta(Place(Release(st, l), c, l, kv), l.b, OnAccess(st.buckets[l.b].meta, l.i)), l, t)
  }

  /** Insert a fresh key: reclaim the slot if occupied, store the pair, announce it, stamp. */
  function FreshStore(st: Store, c: Config, l: Loc, kv: KV, t: Ttl): (st': Store)
    requires Shape(st) && InRange(st, l) && FreeListInRange(Reclaim(st, l))
    ensures Shape(st')
  {
    var w := FreshWord(st.buckets[l.b].meta, l.i, H2Of(c.hash(kv.key)));
    SetTtl(SetMeta(Place(Reclaim(st, l), c, l, kv), l.b, w), l, t)
  }

  function Reclaim(st: Store, l: Loc): (st': Store)
    requires Shape(st) && InRange(st, l)
    ensures Shape(st')
  {
    if IsFull(st, l) then Release(st, l) else st
  }

  /** Remove: free the slab entry, mark the slot a tombstone, clear it. */
  function RemoveStore(st: Store, l: Loc): (st': Store)
    requires Shape(st) && InRange(st, l)
    ensures Shape(st')
  {
    SetMeta(SetSlot(Release(st, l), l, EmptySlot()), l.b, WithState(st.buckets[l.b].meta, l.i, Tombstone))
  }

  function TouchStore(st: Store, l: Loc): (st': Store)
    requires Shape(st) && InRange(st, l)
    ensures Shape(st')
  {
    SetMeta(st, l.b, OnAccess(st.buckets[l.b].meta, l.i))
  }

  /** No live slot holds the key. */
  ghost predicate Absent(st: Store, key: Bytes)
    requires Shape(st)
  {
    forall m :: Live(st, {}, m) ==> KvAt(st, m).key != key
  }

  // ---------------------------------------------------------------------
  // Views change bucket by bucket
  // ---------------------------------------------------------------------

  /** If only bucket `b` changed, the view changed only there. */
  lemma ViewIs(st: Store, st': Store, b: nat, nb: Cells.Bucket)
    requires Shape(st) && Shape(st') && |st'.buckets| == |st.buckets| && b < |st.buckets|
    requires forall l :: InRange(st, l) && l.b != b ==> CellAt(st', l) == CellAt(st, l)
    requires forall i: nat :: i < 4 ==> CellAt(st', Loc(b, i)) == nb[i]
    ensures View(st') == View(st)[b := nb]
  {
    hide CellAt;
    forall x | 0 <= x < |st.buckets| ensures BucketAt(st', x) == View(st)[b := nb][x] {
      if x != b {
        forall i: nat | i < 4 ensures CellAt(st', Loc(x, i)) == CellAt(st, Loc(x, i)) { assert InRange(st, Loc(x, i)); }
      }
    }
  }

  lemma ViewAt(st: Store, l: Loc)
    requires Shape(st) && InRange(st, l)
    ensures View(st)[l.b][l.i] == CellAt(st, l)
  {
    hide CellAt;
    assert BucketAt(st, l.b)[l.i] == CellAt(st, Loc(l.b, l.i));
  }

  lemma TouchView(st: Store, c: Config, l: Loc)
    requires Good(st, c, {}) && InRange(st, l)
    ensures Good(TouchStore(st, l), c, {})
    ensures View(TouchStore(st, l)) == View(st)[l.b := Cells.Touch(View(st)[l.b], l.i)]
  {
    hide RecAt, OnAccess, Good, KvAt, TtlAt, View, Cells.Touch;
    var v := st.buckets[l.b].meta;
    GoodShape(st, c, {});
    var st' := TouchStore(st, l);
    OnAccessSameBut(v, l.i);
    TouchGood(st, c, {}, l.b, OnAccess(v, l.i));
    OnAccessRecs(v, l.i);
    var nb := Cells.Touch(View(st)[l.b], l.i);
    forall i: nat | i < 4 ensures CellAt(st', Loc(l.b, i)) == nb[i] {
      ViewAt(st, Loc(l.b, i));
      TouchAt(View(st)[l.b], l.i, i);
    }
    ViewIs(st, st', l.b, nb);
  }

  lemma GoodShape(st: Store, c: Config, dirty: set<Loc>)
    requires Good(st, c, dirty)
    ensures Shape(st) && FreeListInRange(st)
  {}

  /** The composite updates rewrite one slot, one word and one stamp. */
  ghost predicate Rewritten(st: Store, st': Store, l: Loc, w: bv64, t: Ttl)
    requires Shape(st) && Shape(st') && InRange(st, l)
  {
    && |st'.buckets| == |st.buckets|
    && (forall b :: 0 <= b < |st.buckets| ==> st'.buckets[b].meta == if b == l.b then w else st.buckets[b].meta)
    && st'.ttls == st.ttls[l.b * 4 + l.i := t]
    && (forall m :: Live(st, {}, m) && m != l ==> KvAt(st', m) == KvAt(st, m))
    && SameBut(st.buckets[l.b].meta, w, l.i)
  }

  /** Cells other than the rewritten one keep their entry; in the same bucket the new word gives the counters. */
  lemma OtherCells(st: Store, st': Store, l: Loc, w: bv64, t: Ttl, m: Loc)
    requires Shape(st) && Shape(st') && InRange(st, l) && Rewritten(st, st', l, w, t) && InRange(st, m) && m != l
    ensures m.b != l.b ==> CellAt(st', m) == CellAt(st, m)
    ensures m.b == l.b && CellAt(st, m).Vacant? ==> CellAt(st', m).Vacant?
    ensures m.b == l.b && CellAt(st, m).Held? ==>
              CellAt(st', m) == Cells.Held(CellAt(st, m).e.(freq := RecAt(w, m.i).freq, rec := RecAt(w, m.i).rec))
  {
    hide RecAt, KvAt;
    assert TtlAt(st', m) == TtlAt(st, m);
    if IsFull(st, m) { assert Live(st, {}, m); }
  }

  lemma UpdateGood(st: Store, c: Config, l: Loc, kv: KV, t: Ttl)
    requires Good(st, c, {}) && Live(st, {}, l) && KvAt(st, l).key == kv.key
    ensures FreeListInRange(Release(st, l))
    ensures var st' := UpdateStore(st, c, l, kv, t);
            && Good(st', c, {}) && Live(st', {}, l) && KvAt(st', l) == kv
            && Rewritten(st, st', l, OnAccess(st.buckets[l.b].meta, l.i), t)
  {
    hide RecAt, OnAccess, KvAt, Place, Release, PoolGood, SlotGood, OwnerGood;
    var v := st.buckets[l.b].meta;
    var w := OnAccess(v, l.i);
    UpdateMayPlace(st, c, l, kv.key);
    var st1 := Release(st, l);
    GoodShape(st1, c, {l});
    PlaceGood(st1, c, {l}, l, kv, w);
    assert {l} - {l} == {};
    var st2 := SetMeta(Place(st1, c, l, kv), l.b, w);
    StampGood(st2, c, {}, l, t);
    PlaceFrame(st1, c, l, kv);
    ReleaseFrame(st, l);
    forall m | Live(st, {}, m) && m != l ensures KvAt(SetTtl(st2, l, t), m) == KvAt(st, m) { assert Live(st1, {l}, m); }
  }

  lemma ReleaseFrame(st: Store, l: Loc)
    requires Shape(st) && InRange(st, l)
    ensures var r := Release(st, l); r.buckets == st.buckets && r.ttls == st.ttls && r.bits == st.bits && r.entries == st.entries
  {}

  lemma PlaceFrame(st: Store, c: Config, l: Loc, kv: KV)
    requires Shape(st) && InRange(st, l) && FreeListInRange(st)
    ensures var p := Place(st, c, l, kv);
            && p.ttls == st.ttls && p.bits == st.bits && |p.buckets| == |st.buckets|
            && forall b :: 0 <= b < |st.buckets| ==> p.buckets[b].meta == st.buckets[b].meta
  {}

  lemma UpdateMayPlace(st: Store, c: Config, l: Loc, key: Bytes)
    requires Good(st, c, {}) && Live(st, {}, l) && KvAt(st, l).key == key
    ensures var w := OnAccess(st.buckets[l.b].meta, l.i);
            && Good(Release(st, l), c, {l}) && MayPlace(Release(st, l), c, {l}, l, key, w)
            && SameBut(st.buckets[l.b].meta, w, l.i)
            && (forall m :: InRange(st, m) ==> KvAt(Release(st, l), m) == KvAt(st, m))
  {
    hide RecAt, OnAccess, KvAt, PoolGood, OwnerGood, Mode, SlabIdx, IndexOf, H2Of, ExtHi, ExtFp;
    assert SlotGood(st, c, l);
    ReleaseGood(st, c, {}, l);
    assert {} + {l} == {l};
    OnAccessRecs(st.buckets[l.b].meta, l.i);
    forall m | Live(Release(st, l), {l}, m) ensures KvAt(Release(st, l), m).key != key { assert Live(st, {}, m); }
  }

  lemma UpdateView(st: Store, c: Config, l: Loc, kv: KV, t: Ttl)
    requires Good(st, c, {}) && Live(st, {}, l) && KvAt(st, l).key == kv.key
    ensures FreeListInRange(Release(st, l)) && Good(UpdateStore(st, c, l, kv, t), c, {})
    ensures View(UpdateStore(st, c, l, kv, t)) == View(st)[l.b := Cells.UpdateAt(View(st)[l.b], l.i, kv, t)]
  {
    hide RecAt, OnAccess, KvAt, Place, Release, Good, UpdateStore, View, Cells.Touch;
    GoodShape(st, c, {});
    UpdateGood(st, c, l, kv, t);
    var st' := UpdateStore(st, c, l, kv, t);
    var w := OnAccess(st.buckets[l.b].meta, l.i);
    OnAccessRecs(st.buckets[l.b].meta, l.i);
    var nb := Cells.UpdateAt(View(st)[l.b], l.i, kv, t);
    forall m | InRange(st, m) && m.b != l.b ensures CellAt(st', m) == CellAt(st, m) { OtherCells(st, st', l, w, t, m); }
    forall i: nat | i < 4 ensures CellAt(st', Loc(l.b, i)) == nb[i] {
      ViewAt(st, Loc(l.b, i));
      TouchAt(View(st)[l.b], l.i, i);
      TouchAt(View(st)[l.b], l.i, l.i);
      if i != l.i { OtherCells(st, st', l, w, t, Loc(l.b, i)); } else { assert TtlAt(st', l) == t; }
    }
    ViewIs(st, st', l.b, nb);
  }

  lemma TouchAt(b: Cells.Bucket, i: nat, j: nat)
    requires j < 4
    ensures Cells.Touch(b, i)[j] == Cells.TouchCell(b[j], i == j)
  {}

  lemma FreshMayPlace(st: Store, c: Config, l: Loc, key: Bytes)
    requires Good(st, c, {}) && InRange(st, l) && Absent(st, key) && l.b == IndexOf(c, key, st.bits)
    ensures var w := FreshWord(st.buckets[l.b].meta, l.i, H2Of(c.hash(key)));
            && SameBut(st.buckets[l.b].meta, w, l.i)
            && Good(Reclaim(st, l), c, {l}) && MayPlace(Reclaim(st, l), c, {l}, l, key, w)
    ensures Reclaim(st, l).buckets == st.buckets && forall m :: InRange(st, m) ==> KvAt(Reclaim(st, l), m) == KvAt(st, m)
  {
    hide RecAt, FreshWord, KvAt, PoolGood, OwnerGood, SlotGood, Mode, SlabIdx, IndexOf, H2Of, ExtHi, ExtFp;
    assert {} + {l} == {l};
    if IsFull(st, l) { ReleaseGood(st, c, {}, l); } else { VacantGood(st, c, {}, l); }
    FreshWordRecs(st.buckets[l.b].meta, l.i, c.hash(key));
    forall m | Live(Reclaim(st, l), {l}, m) ensures KvAt(Reclaim(st, l), m).key != key { assert Live(st, {}, m); }
  }

  lemma FreshGood(st: Store, c: Config, l: Loc, kv: KV, t: Ttl)
    requires Good(st, c, {}) && InRange(st, l) && Absent(st, kv.key) && l.b == IndexOf(c, kv.key, st.bits)
    ensures FreeListInRange(Reclaim(st, l))
    ensures var st' := FreshStore(st, c, l, kv, t);
            && Good(st', c, {}) && Live(st', {}, l) && KvAt(st', l) == kv
            && Rewritten(st, st', l, FreshWord(st.buckets[l.b].meta, l.i, H2Of(c.hash(kv.key))), t)
  {
    hide RecAt, FreshWord, KvAt, Place, Reclaim, PoolGood, SlotGood, OwnerGood, IndexOf, H2Of;
    var v := st.buckets[l.b].meta;
    var w := FreshWord(v, l.i, H2Of(c.hash(kv.key)));
    FreshMayPlace(st, c, l, kv.key);
    var st1 := Reclaim(st, l);
    GoodShape(st1, c, {l});
    PlaceGood(st1, c, {l}, l, kv, w);
    assert {l} - {l} == {};
    var st2 := SetMeta(Place(st1, c, l, kv), l.b, w);
    StampGood(st2, c, {}, l, t);
    PlaceFrame(st1, c, l, kv);
    ReclaimFrame(st, l);
    forall m | Live(st, {}, m) && m != l ensures KvAt(SetTtl(st2, l, t), m) == KvAt(st, m) { assert Live(st1, {l}, m); }
  }

  lemma ReclaimFrame(st: Store, l: Loc)
    requires Shape(st) && InRange(st, l)
    ensures var r := Reclaim(st, l); r.buckets == st.buckets && r.ttls == st.ttls && r.bits == st.bits && r.entries == st.entries
  {}

  lemma FreshView(st: Store, c: Config, l: Loc, kv: KV, t: Ttl)
    requires Good(st, c, {}) && InRange(st, l) && Absent(st, kv.key) && l.b == IndexOf(c, kv.key, st.bits)
    ensures FreeListInRange(Reclaim(st, l)) && Good(FreshStore(st, c, l, kv, t), c, {})
    ensures View(FreshStore(st, c, l, kv, t)) == View(st)[l.b := Cells.FreshAt(View(st)[l.b], l.i, kv, t)]
  {
    hide RecAt, FreshWord, KvAt, Place, Reclaim, Good, FreshStore, IndexOf, H2Of;
    GoodShape(st, c, {});
    FreshGood(st, c, l, kv, t);
    var st' := FreshStore(st, c, l, kv, t);
    var w := FreshWord(st.buckets[l.b].meta, l.i, H2Of(c.hash(kv.key)));
    FreshWordRecs(st.buckets[l.b].meta, l.i, c.hash(kv.key));
    var nb := Cells.FreshAt(View(st)[l.b], l.i, kv, t);
    forall m | InRange(st, m) && m.b != l.b ensures CellAt(st', m) == CellAt(st, m) { OtherCells(st, st', l, w, t, m); }
    forall i: nat | i < 4 ensures CellAt(st', Loc(l.b, i)) == nb[i] {
      ViewAt(st, Loc(l.b, i));
      if i != l.i { OtherCells(st, st', l, w, t, Loc(l.b, i)); } else { assert TtlAt(st', l) == t; }
    }
    ViewIs(st, st', l.b, nb);
  }

  lemma RemoveGood(st: Store, c: Config, l: Loc)
    requires Good(st, c, {}) && Live(st, {}, l)
    ensures var st' := RemoveStore(st, l);
            && Good(st', c, {}) && !IsFull(st', l)
            && Rewritten(st, st', l, WithState(st.buckets[l.b].meta, l.i, Tombstone), TtlAt(st, l))
  {
    hide RecAt, WithState, KvAt, Release, PoolGood, SlotGood, OwnerGood;
    var w := WithState(st.buckets[l.b].meta, l.i, Tombstone);
    WithStateRecs(st.buckets[l.b].meta, l.i, Tombstone);
    ReleaseGood(st, c, {}, l);
    ReleaseFrame(st, l);
    assert {} + {l} == {l} && {l} - {l} == {};
    VacateGood(Release(st, l), c, {l}, l, EmptySlot(), w);
    forall m | Live(st, {}, m) && m != l ensures KvAt(RemoveStore(st, l), m) == KvAt(st, m) {
      assert Live(Release(st, l), {l}, m);
    }
  }

  lemma RemoveView(st: Store, c: Config, l: Loc)
    requires Good(st, c, {}) && Live(st, {}, l)
    ensures Good(RemoveStore(st, l), c, {})
    ensures View(RemoveStore(st, l)) == View(st)[l.b := View(st)[l.b][l.i := Cells.Vacant]]
  {
    hide RecAt, WithState, KvAt, Release, Good, RemoveStore;
    GoodShape(st, c, {});
    RemoveGood(st, c, l);
    var st' := RemoveStore(st, l);
    var w := WithState(st.buckets[l.b].meta, l.i, Tombstone);
    WithStateRecs(st.buckets[l.b].meta, l.i, Tombstone);
    var nb := View(st)[l.b][l.i := Cells.Vacant];
    forall m | InRange(st, m) && m.b != l.b ensures CellAt(st', m) == CellAt(st, m) { OtherCells(st, st', l, w, TtlAt(st, l), m); }
    forall i: nat | i < 4 ensures CellAt(st', Loc(l.b, i)) == nb[i] {
      ViewAt(st, Loc(l.b, i));
      if i != l.i { OtherCells(st, st', l, w, TtlAt(st, l), Loc(l.b, i)); }
    }
    ViewIs(st, st', l.b, nb);
  }

  lemma EmptyView(c: Config, bits: nat)
    requires Pow2(bits) <= MAX_BUCKETS
    ensures View(EmptyStore(bits)) == seq(Pow2(bits), i => [Cells.Vacant, Cells.Vacant, Cells.Vacant, Cells.Vacant])
  {
    hide RecAt, KvAt, Good, Pow2;
    EmptyStoreGood(c, bits);
    var st := EmptyStore(bits);
    forall b, i | 0 <= b < Pow2(bits) && 0 <= i < 4 ensures CellAt(st, Loc(b, i)) == Cells.Vacant {
      assert InRange(st, Loc(b, i));
    }
  }
}

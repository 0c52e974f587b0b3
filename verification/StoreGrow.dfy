/** The rebuilt table of `resize` as a value; ConcurrentMap builds it in place. */
module StoreGrow {
  import opened Base
  import opened Hashing
  import opened Stores
  import opened Views
  import opened MetaWord
  import Slots
  import Cells
  import H = Rehash

  ghost function Fill(c: Config, bits: nat, es: seq<H.Item>): (r: Option<Store>)
    requires Pow2(bits) <= MAX_BUCKETS
    ensures r.Some? ==> Shape(r.value) && r.value.bits == bits
    decreases |es|
  {
    hide Reclaim, View, IndexOf, FreshStore, Release, Place, KvAt, RecAt;
    if es == [] then Some(EmptyStore(bits))
    else
      var n := |es| - 1;
      var prev := Fill(c, bits, es[..n]);
      if prev.None? then None
      else
        var b := IndexOf(c, es[n].kv.key, bits);
        var f := Cells.VacantFrom(View(prev.value)[b], 0);
        if f.None? || !FreeListInRange(Reclaim(prev.value, Loc(b, f.value))) then None
        else Some(FreshStore(prev.value, c, Loc(b, f.value), es[n].kv, es[n].t))
  }

  /** A key outside the items placed so far is nowhere in the new table. */
  lemma NewKeyAbsent(st: Store, c: Config, bits: nat, es: seq<H.Item>, key: Bytes)
    requires Good(st, c, {}) && H.PlaceAll(c, bits, es) == Some(View(st))
    requires forall i :: 0 <= i < |es| ==> es[i].kv.key != key
    ensures Absent(st, key)
  {
    hide RecAt, KvAt, View, H.PlaceAll, IndexOf;
    forall m | Live(st, {}, m) ensures KvAt(st, m).key != key {
      ViewAt(st, m);
      var it := H.ItemOf(View(st)[m.b][m.i].e);
      assert H.Present(View(st), m.b, it);
      H.PlacedExactly(c, bits, es, m.b, it);
    }
  }

  /** What a good table gives the rehash: every entry in its bucket, no key twice. */
  lemma GoodCells(st: Store, c: Config)
    requires Good(st, c, {})
    ensures H.Located(c, st.bits, View(st)) && H.UniqueKeys(View(st))
  {
    hide RecAt, KvAt, View, PoolGood, IndexOf, Slots.Mode, Slots.SlabIdx, H2Of;
    forall b, i | 0 <= b < |st.buckets| && 0 <= i < 4 && View(st)[b][i].Held?
      ensures Live(st, {}, Loc(b, i)) && View(st)[b][i].e.key == KvAt(st, Loc(b, i)).key
      ensures IndexOf(c, View(st)[b][i].e.key, st.bits) == b
    {
      ViewAt(st, Loc(b, i));
      assert SlotGood(st, c, Loc(b, i));
    }
  }

  /** Filling an empty table with distinct keys gives a good table that shows what PlaceAll says. */
  lemma {:induction false} FillIsPlaceAll(c: Config, bits: nat, es: seq<H.Item>)
    requires Pow2(bits) <= MAX_BUCKETS && H.DistinctKeys(es) && H.PlaceAll(c, bits, es).Some?
    ensures var r := Fill(c, bits, es);
            r.Some? && Good(r.value, c, {}) && View(r.value) == H.PlaceAll(c, bits, es).value
    decreases |es|
  {
    hide Good, View, IndexOf, FreshStore, Reclaim, Cells.FreshAt, Absent;
    if es == [] {
      EmptyStoreGood(c, bits);
      EmptyView(c, bits);
    } else {
      var n := |es| - 1;
      FillIsPlaceAll(c, bits, es[..n]);
      var st, e := Fill(c, bits, es[..n]).value, es[n];
      GoodShape(st, c, {});
      NewKeyAbsent(st, c, bits, es[..n], e.kv.key);
      var b := IndexOf(c, e.kv.key, bits);
      var f := Cells.VacantFrom(View(st)[b], 0).value;
      FreshView(st, c, Loc(b, f), e.kv, e.t);
    }
  }
}

/**
 Growing the table (`resize` in src/sync.rs): collect every occupied slot, expired ones and
 empty keys included, and place each into the first free slot of its new bucket.
 */
module Rehash {
  import opened Base
  import opened Hashing
  import opened Cells
  import R = RawSpec
  import N = RawRuns

  /** What survives a resize: key, value and stamp, not the access counters. */
  datatype Item = Item(kv: KV, t: Ttl)

  function ItemOf(e: Entry): Item { Item(KV(e.key, e.value), Ttl(e.epoch, e.ttl)) }

  function BucketItems(bk: Bucket, n: nat): (s: seq<Item>)
    requires n <= 4
    ensures |s| <= n
  {
    if n == 0 then [] else BucketItems(bk, n - 1) + if bk[n - 1].Held? then [ItemOf(bk[n - 1].e)] else []
  }

  /** Items of the first buckets, in slot order. */
  function Items(cells: seq<Bucket>): seq<Item>
    decreases |cells|
  {
    if cells == [] then [] else Items(cells[..|cells| - 1]) + BucketItems(cells[|cells| - 1], 4)
  }

  function EmptyCells(bits: nat): (s: seq<Bucket>)
    ensures |s| == Pow2(bits)
  {
    seq(Pow2(bits), i => [Vacant, Vacant, Vacant, Vacant])
  }

  /** Place items one by one; None when one finds its bucket full. */
  function PlaceAll(c: Config, bits: nat, es: seq<Item>): (r: Option<seq<Bucket>>)
    ensures r.Some? ==> |r.value| == Pow2(bits)
    decreases |es|
  {
    if es == [] then Some(EmptyCells(bits))
    else
      var n := |es| - 1;
      var prev := PlaceAll(c, bits, es[..n]);
      if prev.None? then None
      else
        var b := IndexOf(c, es[n].kv.key, bits);
        var f := VacantFrom(prev.value[b], 0);
        if f.None? then None else Some(prev.value[b := FreshAt(prev.value[b], f.value, es[n].kv, es[n].t)])
  }

  /** How many items want bucket `b`. */
  function Load(c: Config, bits: nat, es: seq<Item>, b: nat): nat
    decreases |es|
  {
    if es == [] then 0
    else Load(c, bits, es[..|es| - 1], b) + if IndexOf(c, es[|es| - 1].kv.key, bits) == b then 1 else 0
  }

  ghost predicate Fits(c: Config, bits: nat, es: seq<Item>) {
    forall b :: 0 <= b < Pow2(bits) ==> Load(c, bits, es, b) <= 4
  }

  lemma {:induction false} LoadMonotone(c: Config, bits: nat, es: seq<Item>, n: nat, b: nat)
    requires n <= |es|
    ensures Load(c, bits, es[..n], b) <= Load(c, bits, es, b)
    decreases |es|
  {
    if n == |es| {
      assert es[..n] == es;
    } else {
      LoadMonotone(c, bits, es[..|es| - 1], n, b);
      assert es[..|es| - 1][..n] == es[..n];
    }
  }

  lemma OnesFull(bk: Bucket)
    ensures N.Ones(bk) <= 4 && (VacantFrom(bk, 0).None? <==> N.Ones(bk) == 4)
  {}

  /** While it succeeds, a bucket holds as many entries as items asked for it. */
  lemma {:induction false} PlacedLoad(c: Config, bits: nat, es: seq<Item>, b: nat)
    requires PlaceAll(c, bits, es).Some? && b < Pow2(bits)
    ensures N.Ones(PlaceAll(c, bits, es).value[b]) == Load(c, bits, es, b)
    decreases |es|
  {
    hide N.Ones, IndexOf, FreshAt;
    if es == [] {
      assert N.Ones([Vacant, Vacant, Vacant, Vacant]) == 0 by { NoOnes(); }
    } else {
      var n := |es| - 1;
      PlacedLoad(c, bits, es[..n], b);
      var prev := PlaceAll(c, bits, es[..n]).value;
      var x := IndexOf(c, es[n].kv.key, bits);
      N.OnesFresh(prev[x], VacantFrom(prev[x], 0).value, es[n].kv, es[n].t);
    }
  }

  lemma NoOnes()
    ensures N.Ones([Vacant, Vacant, Vacant, Vacant]) == 0
  {}

  /** Placement overflows exactly when some bucket is asked for more than four times. */
  lemma {:induction false} SucceedsIffFits(c: Config, bits: nat, es: seq<Item>)
    ensures PlaceAll(c, bits, es).Some? <==> Fits(c, bits, es)
    decreases |es|
  {
    hide N.Ones, IndexOf, FreshAt;
    if es != [] {
      var n := |es| - 1;
      SucceedsIffFits(c, bits, es[..n]);
      var x := IndexOf(c, es[n].kv.key, bits);
      if PlaceAll(c, bits, es[..n]).Some? {
        var prev := PlaceAll(c, bits, es[..n]).value;
        PlacedLoad(c, bits, es[..n], x);
        OnesFull(prev[x]);
        if VacantFrom(prev[x], 0).None? {
          assert Load(c, bits, es, x) == 5;
        } else {
          forall b | 0 <= b < Pow2(bits) ensures Load(c, bits, es, b) <= 4 {
            assert Load(c, bits, es[..n], b) <= 4;
          }
        }
      } else {
        var b :| 0 <= b < Pow2(bits) && Load(c, bits, es[..n], b) > 4;
        LoadMonotone(c, bits, es, n, b);
      }
    }
  }

  // ---------------------------------------------------------------------
  // Growth never overflows
  // ---------------------------------------------------------------------

  /** Every entry sits in the bucket of its key. */
  ghost predicate Located(c: Config, bits: nat, cells: seq<Bucket>) {
    forall b, i :: 0 <= b < |cells| && 0 <= i < 4 && cells[b][i].Held? ==> IndexOf(c, cells[b][i].e.key, bits) == b
  }

  /** All items of `es` come from old bucket `x`, or none of them maps to new bucket `b`. */
  lemma {:induction false} BucketLoad(c: Config, bits: nat, bk: Bucket, n: nat, b: nat)
    requires n <= 4
    ensures Load(c, bits, BucketItems(bk, n), b) <= n
    decreases n
  {
    hide IndexOf;
    if n > 0 {
      BucketLoad(c, bits, bk, n - 1, b);
      LoadAppend(c, bits, BucketItems(bk, n - 1), if bk[n - 1].Held? then [ItemOf(bk[n - 1].e)] else [], b);
    }
  }

  lemma {:induction false} LoadAppend(c: Config, bits: nat, es: seq<Item>, more: seq<Item>, b: nat)
    ensures Load(c, bits, es + more, b) == Load(c, bits, es, b) + Load(c, bits, more, b)
    ensures |more| <= 1 ==> Load(c, bits, more, b) <= 1
    decreases |more|
  {
    hide IndexOf;
    if more == [] {
      assert es + more == es;
    } else {
      LoadAppend(c, bits, es, more[..|more| - 1], b);
      assert (es + more)[..|es + more| - 1] == es + more[..|more| - 1];
      if |more| == 1 { assert more[..0] == []; }
    }
  }

  lemma {:induction false} NoLoad(c: Config, bits: nat, es: seq<Item>, b: nat)
    requires forall k :: 0 <= k < |es| ==> IndexOf(c, es[k].kv.key, bits) != b
    ensures Load(c, bits, es, b) == 0
    decreases |es|
  {
    hide IndexOf;
    if es != [] { NoLoad(c, bits, es[..|es| - 1], b); }
  }

  /** Items of a bucket keep its old index, so a new bucket with another old index gets none of them. */
  lemma {:induction false} ForeignBucket(c: Config, was: nat, bits: nat, bk: Bucket, x: nat, y: Bytes, n: nat, b: nat)
    requires was <= bits && n <= 4 && IndexOf(c, y, bits) == b && IndexOf(c, y, was) != x
    requires forall i :: 0 <= i < 4 && bk[i].Held? ==> IndexOf(c, bk[i].e.key, was) == x
    ensures forall k :: 0 <= k < |BucketItems(bk, n)| ==> IndexOf(c, BucketItems(bk, n)[k].kv.key, bits) != b
    decreases n
  {
    hide IndexOf;
    if n > 0 {
      ForeignBucket(c, was, bits, bk, x, y, n - 1, b);
      if bk[n - 1].Held? && IndexOf(c, bk[n - 1].e.key, bits) == b { IndexNested(c, bk[n - 1].e.key, y, was, bits); }
    }
  }

  /** The load of a new bucket comes from one old bucket. */
  lemma {:induction false} GrowthLoad(c: Config, was: nat, bits: nat, cells: seq<Bucket>, b: nat, y: Bytes)
    requires was <= bits && Located(c, was, cells) && IndexOf(c, y, bits) == b
    ensures Load(c, bits, Items(cells), b) <= if IndexOf(c, y, was) < |cells| then 4 else 0
    decreases |cells|
  {
    hide IndexOf;
    if cells != [] {
      var n := |cells| - 1;
      assert Located(c, was, cells[..n]) by { assert forall x :: 0 <= x < n ==> cells[..n][x] == cells[x]; }
      GrowthLoad(c, was, bits, cells[..n], b, y);
      LoadAppend(c, bits, Items(cells[..n]), BucketItems(cells[n], 4), b);
      if IndexOf(c, y, was) == n {
        BucketLoad(c, bits, cells[n], 4, b);
      } else {
        ForeignBucket(c, was, bits, cells[n], n, y, 4, b);
        NoLoad(c, bits, BucketItems(cells[n], 4), b);
      }
    }
  }

  lemma {:induction false} SomeKeyOrNoLoad(c: Config, bits: nat, es: seq<Item>, b: nat)
    ensures Load(c, bits, es, b) > 0 ==> exists k :: 0 <= k < |es| && IndexOf(c, es[k].kv.key, bits) == b
    decreases |es|
  {
    hide IndexOf;
    if es != [] {
      SomeKeyOrNoLoad(c, bits, es[..|es| - 1], b);
      if Load(c, bits, es[..|es| - 1], b) > 0 {
        var k :| 0 <= k < |es| - 1 && IndexOf(c, es[..|es| - 1][k].kv.key, bits) == b;
        assert IndexOf(c, es[k].kv.key, bits) == b;
      }
    }
  }

  /** From any well-placed table, plain or sharded, growing to any larger power of two fits at the first try. */
  lemma GrowthFits(c: Config, was: nat, bits: nat, cells: seq<Bucket>)
    requires was <= bits && Located(c, was, cells)
    ensures Fits(c, bits, Items(cells)) && PlaceAll(c, bits, Items(cells)).Some?
  {
    hide IndexOf, PlaceAll, Items, Load;
    forall b | 0 <= b < Pow2(bits) ensures Load(c, bits, Items(cells), b) <= 4 {
      SomeKeyOrNoLoad(c, bits, Items(cells), b);
      if Load(c, bits, Items(cells), b) > 0 {
        var k :| 0 <= k < |Items(cells)| && IndexOf(c, Items(cells)[k].kv.key, bits) == b;
        GrowthLoad(c, was, bits, cells, b, Items(cells)[k].kv.key);
      }
    }
    SucceedsIffFits(c, bits, Items(cells));
  }

  // ---------------------------------------------------------------------
  // Growth preserves meaning
  // ---------------------------------------------------------------------

  /** An item is present when its entry sits somewhere in the cells. */
  predicate Present(cells: seq<Bucket>, b: nat, it: Item) {
    b < |cells| && exists i :: 0 <= i < 4 && cells[b][i].Held? && ItemOf(cells[b][i].e) == it
  }

  lemma FreshPresent(bk: Bucket, f: nat, x: Item, cells: seq<Bucket>, b: nat, it: Item)
    requires b < |cells| && cells[b] == bk && f < 4 && bk[f].Vacant?
    ensures Present(cells[b := FreshAt(bk, f, x.kv, x.t)], b, it) <==> it == x || Present(cells, b, it)
  {
    var nb := FreshAt(bk, f, x.kv, x.t);
    var after := cells[b := nb];
    assert after[b] == nb && after[b][f].Held? && ItemOf(after[b][f].e) == x;
    if Present(cells, b, it) {
      var i :| 0 <= i < 4 && cells[b][i].Held? && ItemOf(cells[b][i].e) == it;
      assert after[b][i] == cells[b][i];
    }
    if Present(after, b, it) && it != x {
      var i :| 0 <= i < 4 && after[b][i].Held? && ItemOf(after[b][i].e) == it;
      assert after[b][i] == cells[b][i];
    }
  }

  /** The placed table holds exactly the given items, each in the bucket of its key, freshly counted. */
  lemma {:induction false} PlacedExactly(c: Config, bits: nat, es: seq<Item>, b: nat, it: Item)
    requires PlaceAll(c, bits, es).Some?
    ensures Present(PlaceAll(c, bits, es).value, b, it) <==> it in es && b == IndexOf(c, it.kv.key, bits)
    decreases |es|
  {
    hide IndexOf, FreshAt;
    if es != [] {
      var n := |es| - 1;
      PlacedExactly(c, bits, es[..n], b, it);
      var prev := PlaceAll(c, bits, es[..n]).value;
      var x := IndexOf(c, es[n].kv.key, bits);
      FreshPresent(prev[x], VacantFrom(prev[x], 0).value, es[n], prev, x, it);
      assert es == es[..n] + [es[n]];
    }
  }

  /** The items that want bucket `b`, in order. */
  function Wanting(c: Config, bits: nat, es: seq<Item>, b: nat): seq<Item>
    decreases |es|
  {
    if es == [] then []
    else Wanting(c, bits, es[..|es| - 1], b) + if IndexOf(c, es[|es| - 1].kv.key, bits) == b then [es[|es| - 1]] else []
  }

  /** A bucket holding these items in its first cells, fresh, and nothing else. */
  ghost predicate Packed(bk: Bucket, xs: seq<Item>) {
    && |xs| <= 4
    && (forall i :: 0 <= i < |xs| ==> bk[i] == Held(Entry(xs[i].kv.key, xs[i].kv.value, 0, 1, xs[i].t.epoch, xs[i].t.ttl)))
    && (forall i :: |xs| <= i < 4 ==> bk[i] == Vacant)
  }

  /**
   Where growth puts things: the items of a new bucket fill its first cells in the order in
   which the old slots were scanned, each with frequency 0 and recency 1.
   */
  lemma {:induction false} PlacedInOrder(c: Config, bits: nat, es: seq<Item>, b: nat)
    requires PlaceAll(c, bits, es).Some? && b < Pow2(bits)
    ensures Packed(PlaceAll(c, bits, es).value[b], Wanting(c, bits, es, b))
    decreases |es|
  {
    hide IndexOf;
    if es != [] { PlacedInOrder(c, bits, es[..|es| - 1], b); }
  }

  lemma {:induction false} PlacedCount(c: Config, bits: nat, es: seq<Item>)
    requires PlaceAll(c, bits, es).Some?
    ensures N.Occupied(PlaceAll(c, bits, es).value) == |es|
    decreases |es|
  {
    hide IndexOf, FreshAt, N.Ones, N.Occupied;
    if es == [] {
      N.OccupiedNone(Pow2(bits));
    } else {
      var n := |es| - 1;
      PlacedCount(c, bits, es[..n]);
      var prev := PlaceAll(c, bits, es[..n]).value;
      var x := IndexOf(c, es[n].kv.key, bits);
      var f := VacantFrom(prev[x], 0).value;
      N.OnesFresh(prev[x], f, es[n].kv, es[n].t);
      N.OccupiedUpdate(prev, x, FreshAt(prev[x], f, es[n].kv, es[n].t));
    }
  }

  lemma {:induction false} BucketItemsIn(bk: Bucket, n: nat, it: Item)
    requires n <= 4
    ensures it in BucketItems(bk, n) <==> exists i :: 0 <= i < n && bk[i].Held? && ItemOf(bk[i].e) == it
    decreases n
  {
    if n > 0 {
      BucketItemsIn(bk, n - 1, it);
      if it in BucketItems(bk, n) && it !in BucketItems(bk, n - 1) { assert bk[n - 1].Held? && ItemOf(bk[n - 1].e) == it; }
    }
  }

  lemma {:induction false} ItemsIn(cells: seq<Bucket>, it: Item)
    ensures it in Items(cells) <==> exists b: nat :: Present(cells, b, it)
    decreases |cells|
  {
    hide BucketItems;
    if cells != [] {
      var n := |cells| - 1;
      ItemsIn(cells[..n], it);
      BucketItemsIn(cells[n], 4, it);
      if b: nat :| Present(cells, b, it) {
        if b < n { assert Present(cells[..n], b, it); }
      }
      if b: nat :| Present(cells[..n], b, it) { assert Present(cells, b, it); }
      if it in BucketItems(cells[n], 4) { assert Present(cells, n, it); }
    }
  }

  lemma {:induction false} ItemsCount(cells: seq<Bucket>)
    ensures |Items(cells)| == N.Occupied(cells)
    decreases |cells|
  {
    hide BucketItems, N.Ones;
    if cells != [] {
      ItemsCount(cells[..|cells| - 1]);
      BucketCount(cells[|cells| - 1]);
    }
  }

  lemma BucketCount(bk: Bucket)
    ensures |BucketItems(bk, 4)| == N.Ones(bk)
  {
    assert |BucketItems(bk, 1)| == if bk[0].Held? then 1 else 0;
    assert |BucketItems(bk, 2)| == |BucketItems(bk, 1)| + if bk[1].Held? then 1 else 0;
    assert |BucketItems(bk, 3)| == |BucketItems(bk, 2)| + if bk[2].Held? then 1 else 0;
  }

  /** Every occupied slot of a map, wherever it is. */
  ghost predicate Has(cells: seq<Bucket>, it: Item) { exists b: nat :: Present(cells, b, it) }

  /** No key occurs twice. */
  ghost predicate UniqueKeys(cells: seq<Bucket>) {
    forall b, i, b', i' ::
      0 <= b < |cells| && 0 <= i < 4 && 0 <= b' < |cells| && 0 <= i' < 4 && (b != b' || i != i')
      ==> cells[b][i].Held? && cells[b'][i'].Held? ==> cells[b][i].e.key != cells[b'][i'].e.key
  }

  predicate DistinctKeys(es: seq<Item>) { forall i, j :: 0 <= i < j < |es| ==> es[i].kv.key != es[j].kv.key }

  lemma {:induction false} BucketItemsDistinct(bk: Bucket, n: nat)
    requires n <= 4
    requires forall i, j :: 0 <= i < j < n && bk[i].Held? && bk[j].Held? ==> bk[i].e.key != bk[j].e.key
    ensures DistinctKeys(BucketItems(bk, n))
    decreases n
  {
    if n > 0 {
      BucketItemsDistinct(bk, n - 1);
      var front := BucketItems(bk, n - 1);
      forall k | 0 <= k < |front| ensures bk[n - 1].Held? ==> front[k].kv.key != bk[n - 1].e.key {
        BucketItemsIn(bk, n - 1, front[k]);
      }
    }
  }

  /** Unique keys give distinct items. */
  lemma {:induction false} ItemsDistinct(cells: seq<Bucket>)
    requires UniqueKeys(cells)
    ensures DistinctKeys(Items(cells))
    decreases |cells|
  {
    hide BucketItems;
    if cells != [] {
      var n := |cells| - 1;
      var front, last := Items(cells[..n]), BucketItems(cells[n], 4);
      assert forall x :: 0 <= x < n ==> cells[..n][x] == cells[x];
      ItemsDistinct(cells[..n]);
      BucketItemsDistinct(cells[n], 4);
      forall i, j | 0 <= i < |front| && 0 <= j < |last| ensures front[i].kv.key != last[j].kv.key {
        ItemsIn(cells[..n], front[i]);
        BucketItemsIn(cells[n], 4, last[j]);
        var b: nat :| Present(cells[..n], b, front[i]);
        var x :| 0 <= x < 4 && cells[..n][b][x].Held? && ItemOf(cells[..n][b][x].e) == front[i];
        var y :| 0 <= y < 4 && cells[n][y].Held? && ItemOf(cells[n][y].e) == last[j];
        assert cells[b][x].e.key != cells[n][y].e.key;
      }
    }
  }

  /** The map after growing to 2^bits buckets: same items, same count, counters reset. */
  function Grown(c: Config, m: R.Map, bits: nat): (m': R.Map)
    requires PlaceAll(c, bits, Items(m.cells)).Some?
    ensures R.Sized(m')
  {
    m.(bits := bits, cells := PlaceAll(c, bits, Items(m.cells)).value, count := |Items(m.cells)|)
  }

  /**
   `resize` preserves meaning: the same (key, value, epoch, TTL) items, each now in the
   bucket of its key, and the counter it stores is the one already there.
   */
  lemma GrowthKeepsItems(c: Config, m: R.Map, bits: nat)
    requires m.bits <= bits && Located(c, m.bits, m.cells) && m.count == N.Occupied(m.cells)
    ensures PlaceAll(c, bits, Items(m.cells)).Some?
    ensures var m' := Grown(c, m, bits);
            && (forall it :: Has(m'.cells, it) <==> Has(m.cells, it))
            && Located(c, bits, m'.cells)
            && m'.count == m.count == N.Occupied(m'.cells)
  {
    hide IndexOf, PlaceAll, Items, N.Occupied;
    GrowthFits(c, m.bits, bits, m.cells);
    var es := Items(m.cells);
    var cells' := PlaceAll(c, bits, es).value;
    forall it ensures Has(cells', it) <==> Has(m.cells, it) {
      ItemsIn(m.cells, it);
      forall b: nat ensures Present(cells', b, it) <==> it in es && b == IndexOf(c, it.kv.key, bits) {
        PlacedExactly(c, bits, es, b, it);
      }
      if it in es { assert Present(cells', IndexOf(c, it.kv.key, bits), it); }
    }
    forall b, i | 0 <= b < |cells'| && 0 <= i < 4 && cells'[b][i].Held? ensures IndexOf(c, cells'[b][i].e.key, bits) == b {
      var it := ItemOf(cells'[b][i].e);
      assert Present(cells', b, it);
      PlacedExactly(c, bits, es, b, it);
    }
    PlacedCount(c, bits, es);
    ItemsCount(m.cells);
  }

  /** Every lookup at the same epoch answers as before. */
  lemma GrowthKeepsAnswers(c: Config, m: R.Map, bits: nat, key: Bytes)
    requires R.Sized(m) && m.bits <= bits && Located(c, m.bits, m.cells) && UniqueKeys(m.cells) && m.count == N.Occupied(m.cells)
    ensures PlaceAll(c, bits, Items(m.cells)).Some?
    ensures R.Peek(c, Grown(c, m, bits), key) == R.Peek(c, m, key)
  {
    hide IndexOf, PlaceAll, Items, N.Occupied, Expired;
    GrowthKeepsItems(c, m, bits);
    var m' := Grown(c, m, bits);
    var b, b' := R.At(c, m, key), R.At(c, m', key);
    var f, f' := R.FindIn(c, m, key), R.FindIn(c, m', key);
    if f.Some? {
      var it := ItemOf(m.cells[b][f.value].e);
      assert Present(m.cells, b, it);
      assert Has(m'.cells, it);
      KeyFound(c, m', key, it);
    }
    if f'.Some? {
      var it := ItemOf(m'.cells[b'][f'.value].e);
      assert Present(m'.cells, b', it);
      assert Has(m.cells, it);
      KeyFound(c, m, key, it);
      SameItem(m, key, b, f.value, it);
    }
  }

  /** A present item's key is found in its bucket. */
  lemma KeyFound(c: Config, m: R.Map, key: Bytes, it: Item)
    requires R.Sized(m) && Located(c, m.bits, m.cells) && Has(m.cells, it) && it.kv.key == key
    ensures R.FindIn(c, m, key).Some? && Present(m.cells, R.At(c, m, key), it)
  {
    hide IndexOf;
    var b: nat :| Present(m.cells, b, it);
    var i :| 0 <= i < 4 && m.cells[b][i].Held? && ItemOf(m.cells[b][i].e) == it;
    assert Holds(m.cells[b][i], key);
  }

  lemma SameItem(m: R.Map, key: Bytes, b: nat, i: nat, it: Item)
    requires UniqueKeys(m.cells) && b < |m.cells| && i < 4 && Holds(m.cells[b][i], key)
    requires Present(m.cells, b, it) && it.kv.key == key
    ensures ItemOf(m.cells[b][i].e) == it
  {
    var j :| 0 <= j < 4 && m.cells[b][j].Held? && ItemOf(m.cells[b][j].e) == it;
  }
}

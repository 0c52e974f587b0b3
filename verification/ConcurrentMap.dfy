/**
 `ConcurrentPulseMap` of src/sync.rs driven by one thread: the same table as the raw map,
 deferred access events, and `resize`.  Interleavings are treated from LockSys on.
 */
module ConcurrentMaps {
  import opened Base
  import opened MetaWord
  import opened Hashing
  import opened Slab
  import opened Stores
  import opened Views
  import opened Tables
  import opened AccessBuffers
  import Cells
  import R = RawSpec
  import N = RawRuns
  import H = Rehash
  import G = StoreGrow
  import S = SyncSpec
  import SR = SyncRuns
  import Ring = AccessRing
  import RM = RawMaps

  predicate Small(cells: seq<Cells.Bucket>) {
    forall b, i :: 0 <= b < |cells| && 0 <= i < 4 && cells[b][i].Held? ==> |cells[b][i].e.key| + |cells[b][i].e.value| < U32
  }

  /** Items with different keys, each small enough for the slab. */
  predicate Placeable(es: seq<H.Item>) {
    && H.DistinctKeys(es)
    && (forall i :: 0 <= i < |es| ==> |es[i].kv.key| + |es[i].kv.value| < U32)
  }

  lemma {:induction false} OverflowStays(c: Config, bits: nat, es: seq<H.Item>, k: nat)
    requires k <= |es| && H.PlaceAll(c, bits, es[..k]).None?
    ensures H.PlaceAll(c, bits, es).None?
    decreases |es|
  {
    hide IndexOf;
    if k == |es| {
      assert es[..k] == es;
    } else {
      assert es[..|es| - 1][..k] == es[..k];
      OverflowStays(c, bits, es[..|es| - 1], k);
    }
  }

  lemma FreeOfWord(st: Store, b: nat, r: Option<nat>)
    requires Shape(st) && b < |st.buckets|
    requires r.Some? ==> r.value < 4 && Unpack(st.buckets[b].meta)[r.value].state != Full &&
                         forall j :: 0 <= j < r.value ==> Unpack(st.buckets[b].meta)[j].state == Full
    requires r.None? ==> forall j :: 0 <= j < 4 ==> Unpack(st.buckets[b].meta)[j].state == Full
    ensures r == Cells.VacantFrom(View(st)[b], 0)
  {
    hide RecAt, KvAt, View, Unpack, State;
    forall i: nat | i < 4 ensures View(st)[b][i].Held? <==> Unpack(st.buckets[b].meta)[i].state == Full {
      HeldOfWord(st, b, i);
    }
  }

  /** One attempt of the retry loop: succeeds exactly when no bucket is asked for a fifth entry. */
  method TryRehash(c: Config, es: seq<H.Item>, bits: nat) returns (ok: bool, t: Table)
    requires Pow2(bits) <= MAX_BUCKETS && Placeable(es)
    ensures t.Valid() && fresh(t) && fresh(t.pool) && fresh(t.pool.repr) && t.c == c && t.bits == bits
    ensures ok <==> H.PlaceAll(c, bits, es).Some?
    ensures ok <==> H.Fits(c, bits, es)
    ensures ok ==> t.Content() == H.PlaceAll(c, bits, es).value
  {
    hide Good, View, Unpack, KvAt, Live, Absent, IndexOf, H.Fits, Cells.FreshAt;
    H.SucceedsIffFits(c, bits, es);
    t := new Table(c, bits);
    EmptyView(c, bits);
    var k := 0;
    while k < |es|
      invariant k <= |es| && t.Valid() && t.c == c && t.bits == bits
      invariant fresh(t) && fresh(t.pool) && fresh(t.pool.repr)
      invariant H.PlaceAll(c, bits, es[..k]) == Some(t.Content())
    {
      GoodShape(t.Snap(), c, {});
      var e := es[k];
      var b := IndexOf(c, e.kv.key, bits);
      var free := FindFreeSlot(t.buckets[b].meta);
      FreeOfWord(t.Snap(), b, free);
      assert es[..k + 1][..k] == es[..k] && es[..k + 1][k] == e;
      if free.None? {
        OverflowStays(c, bits, es, k + 1);
        return false, t;
      }
      G.NewKeyAbsent(t.Snap(), c, bits, es[..k], e.kv.key);
      t.Fresh(Loc(b, free.value), e.kv, e.t);
      k := k + 1;
    }
    assert es[..k] == es;
    ok := true;
  }

  lemma ItemsPlaceable(cells: seq<Cells.Bucket>)
    requires H.UniqueKeys(cells) && Small(cells)
    ensures Placeable(H.Items(cells))
  {
    hide H.Items;
    var es := H.Items(cells);
    H.ItemsDistinct(cells);
    forall k | 0 <= k < |es| ensures |es[k].kv.key| + |es[k].kv.value| < U32 {
      H.ItemsIn(cells, es[k]);
      var b: nat :| H.Present(cells, b, es[k]);
    }
  }

  function Locs(q: seq<Ring.Event>): (s: seq<Loc>)
    ensures |s| == |q|
  {
    seq(|q|, k requires 0 <= k < |q| => Loc(q[k].bucket, q[k].slot))
  }

  class ConcurrentMap {
    const c: Config
    const autoResize: bool
    const buffer: AccessBuffer
    var table: Table
    var count: nat
    var evictionCount: nat
    var currentEpoch: nat
    var defaultTtl: nat

    ghost predicate Valid()
      reads this, buffer, table, table.pool, table.pool.repr
    {
      && table.Valid() && table.c == c && this !in table.pool.repr && buffer !in table.pool.repr
      && buffer.Valid() && buffer.cap == S.RING_CAPACITY
      && currentEpoch < U64 && count == N.Occupied(table.Content())
      && Small(table.Content()) && S.InCells(table.Content(), Locs(buffer.Queue()))
    }

    /** The objects the map is made of. */
    ghost function Footprint(): set<object>
      reads this, table.pool
    {
      {this, buffer, table, table.pool} + table.pool.repr
    }

    ghost function Abs(): (s: S.Sync)
      reads this, buffer, table, table.pool, table.pool.repr
      requires Valid()
      ensures S.Sized(s) && S.InCells(s.m.cells, s.queue)
    {
      S.Sync(R.Map(table.bits, table.Content(), currentEpoch, defaultTtl, count, evictionCount), Locs(buffer.Queue()))
    }

    constructor (c: Config, numBuckets: nat, autoResize: bool)
      requires Pow2(CeilBits(numBuckets)) <= MAX_BUCKETS
      ensures Valid() && this.c == c && this.autoResize == autoResize
      ensures fresh(Footprint() - {this})
      ensures Abs() == S.Sync(R.NewMap(CeilBits(numBuckets)), [])
    {
      hide CeilBits, Stores.Good, Ring.Inv, N.Occupied, View;
      var bits := CeilBits(numBuckets);
      this.c, this.autoResize := c, autoResize;
      var t := new Table(c, bits);
      table := t;
      var buf := new AccessBuffer(S.RING_CAPACITY);
      buffer := buf;
      count, evictionCount, currentEpoch, defaultTtl := 0, 0, 0, 0;
      new;
      EmptyView(c, bits);
      N.OccupiedNone(Pow2(bits));
    }

    /** `set_ttl`: the default TTL, for entries already there as well. */
    method SetTtl(ttl: nat)
      requires Valid()
      modifies this`defaultTtl
      ensures Valid() && defaultTtl == ttl && Abs() == old(Abs()).(m := old(Abs()).m.(dflt := ttl))
    {
      hide N.Occupied, View, Small, Ring.Inv, S.InCells, Stores.Good;
      defaultTtl := ttl;
    }

    /** Every occupied slot with its stamp, in slot order. */
    method Collect() returns (es: seq<H.Item>)
      requires Valid()
      ensures es == H.Items(table.Content())
    {
      hide Good, View, RecAt, KvAt, State, Unpack, N.Occupied, H.BucketItems, Small, S.InCells, Ring.Inv;
      GoodShape(table.Snap(), c, {});
      ghost var cells := table.Content();
      es := [];
      for b := 0 to |table.buckets|
        invariant es == H.Items(cells[..b])
      {
        ghost var front := es;
        NoBucketItems(cells[b]);
        for i := 0 to 4
          invariant es == front + H.BucketItems(cells[b], i)
        {
          HeldOfWord(table.Snap(), b, i);
          MoreBucketItems(cells[b], i);
          if State(table.buckets[b].meta, i) == Full {
            ViewAt(table.Snap(), Loc(b, i));
            var kv := table.ValueAt(Loc(b, i));
            es := es + [H.Item(kv, table.ttls[b * 4 + i])];
          }
        }
        assert cells[..b + 1][..b] == cells[..b];
      }
      assert cells[..|cells|] == cells;
    }

    /** `resize`: at most one attempt is ever needed, and the size is the requested power of two. */
    method Resize(newNum: nat)
      requires Valid() && 2 * Pow2(CeilBits(newNum)) <= MAX_BUCKETS
      modifies this`table, this`count, buffer
      ensures Valid() && (table == old(table) || (fresh(table) && fresh(table.pool) && fresh(table.pool.repr)))
      ensures Abs() == SR.Grow(c, old(Abs()), newNum)
      ensures forall key :: R.Peek(c, Abs().m, key) == old(R.Peek(c, Abs().m, key))
      ensures |table.buckets| == if old(|table.buckets|) >= Pow2(CeilBits(newNum)) then old(|table.buckets|) else Pow2(CeilBits(newNum))
    {
      hide Good, View, N.Occupied, CeilBits, Ring.Inv, H.PlaceAll, H.Items, H.Located, H.UniqueKeys, H.Fits, IndexOf, R.Peek;
      ghost var m := Abs().m;
      GoodShape(table.Snap(), c, {});
      G.GoodCells(table.Snap(), c);
      forall key ensures R.Peek(c, SR.Grow(c, Abs(), newNum).m, key) == R.Peek(c, m, key) {
        SR.GrowAnswers(c, Abs(), newNum, key);
      }
      var bits := CeilBits(newNum);
      if |table.buckets| >= Pow2(bits) { return; }
      SmallerBits(table.bits, bits);
      buffer.Clear();
      var es := Collect();
      ItemsPlaceable(m.cells);
      var t := RehashLoop(c, es, bits, table.bits, m.cells);
      H.GrowthKeepsItems(c, m, bits);
      PlacedSmall(c, bits, es);
      table := t;
      count := |es|;
    }

    /** One turn of the drain: pop an event, lock its bucket, count the access. */
    method DrainOne() returns (more: bool)
      requires Valid()
      modifies table`buckets, buffer
      ensures Valid() && more == (|old(Abs()).queue| > 0)
      ensures !more ==> Abs() == old(Abs())
      ensures more ==> var s, l := old(Abs()), old(Abs()).queue[0];
                       Abs() == S.Sync(s.m.(cells := s.m.cells[l.b := Cells.Touch(s.m.cells[l.b], l.i)]), s.queue[1..])
    {
      hide Good, View, N.Occupied, Ring.Inv, Cells.Touch;
      GoodShape(table.Snap(), c, {});
      ghost var q := buffer.Queue();
      var ev := buffer.Pop();
      if ev.None? { return false; }
      ghost var cells := table.Content();
      assert Locs(q)[0] == Loc(ev.value.bucket, ev.value.slot) && Locs(q[1..]) == Locs(q)[1..];
      table.Touch(Loc(ev.value.bucket, ev.value.slot));
      TouchKeeps(cells, ev.value.bucket, ev.value.slot);
      return true;
    }

    /** Apply up to a batch of deferred accesses. */
    method DrainBatch()
      requires Valid()
      modifies table`buckets, buffer
      ensures Valid() && Abs() == S.Drained(old(Abs()))
    {
      hide Good, View, N.Occupied, Ring.Inv, Small, Cells.Touch, Valid;
      ghost var s := Abs();
      var k := 0;
      while k < S.DRAIN_BATCH
        invariant Valid() && k <= S.Batch(s.queue)
        invariant Abs() == S.Sync(s.m.(cells := S.ApplyAll(s.m.cells, s.queue[..k])), s.queue[k..])
      {
        DrainStep(s.m.cells, s.queue, k);
        var more := DrainOne();
        if !more {
          assert k == |s.queue|;
          break;
        }
        k := k + 1;
      }
    }

    /** `is_expired` on one slot. */
    method IsExpired(l: Loc) returns (r: bool)
      requires Valid() && InRange(table.Snap(), l)
      ensures r == Cells.Expired(TtlAt(table.Snap(), l).epoch, TtlAt(table.Snap(), l).ttl, currentEpoch, defaultTtl)
    {
      hide N.Occupied, Ring.Inv, Small, S.InCells;
      var entry := table.ttls[l.b * 4 + l.i];
      var effective := if entry.ttl == 0 then defaultTtl else entry.ttl;
      if effective == 0 || effective == U64_MAX { return false; }
      return Cells.WrappingSub(currentEpoch, entry.epoch) > effective;
    }

    /** A free slot, else the victim; expired entries get no preference here. */
    method PickTarget(b: nat) returns (i: nat, isEviction: bool)
      requires Valid() && b < |table.buckets|
      ensures i == Cells.SyncTarget(table.Content()[b]) && isEviction == table.Content()[b][i].Held?
    {
      hide Good, View, RecAt, KvAt, State, Unpack, Cells.IsVictim, MetaWord.IsVictim, N.Occupied, Ring.Inv, Small, S.InCells;
      ghost var st := table.Snap();
      GoodShape(st, c, {});
      var g := FindFreeSlot(table.buckets[b].meta);
      FreeOfWord(st, b, g);
      if g.Some? { return g.value, false; }
      var v := FindEvictTarget(table.buckets[b].meta);
      HeldOfWord(st, b, 0);
      assert v.Some?;
      VictimOfWord(st, b, v.value);
      assert v.value < 4 && table.Content()[b][v.value].Held? by { RM.VictimHeld(table.Content()[b], v.value); }
      Cells.VictimUnique(table.Content()[b], v.value, Cells.Victim(table.Content()[b]));
      return v.value, true;
    }

    /** The part of an insert under the bucket lock. */
    method PutKey(key: Bytes, value: Bytes, ttl: nat)
      requires Valid() && |key| + |value| < U32
      modifies this`count, this`evictionCount, this`currentEpoch, table, table.pool.repr
      ensures Valid() && table == old(table) && fresh(table.pool.repr - old(table.pool.repr))
      ensures Abs() == S.Sync(S.Put(c, old(Abs()).m, KV(key, value), ttl), old(Abs()).queue)
    {
      hide Good, View, RecAt, KvAt, Cells.Find, IndexOf, N.Occupied, Live, Absent, Ring.Inv, Cells.UpdateAt, Cells.FreshAt, Cells.SyncTarget;
      ghost var m := Abs().m;
      GoodShape(table.Snap(), c, {});
      PutKeeps(c, m, KV(key, value), ttl);
      currentEpoch := (currentEpoch + 1) % U64;
      var t := Ttl(currentEpoch, ttl);
      var b, r := table.Locate(key);
      if r.Some? {
        FoundLive(table.Snap(), b, r.value, key) by { Cells.FindHolds(table.Content()[b], key); }
        table.Update(Loc(b, r.value), KV(key, value), t);
        return;
      }
      var target, isEviction := PickTarget(b);
      if isEviction { evictionCount := evictionCount + 1; }
      NotFoundAbsent(table.Snap(), c, key);
      table.Fresh(Loc(b, target), KV(key, value), t);
      if !isEviction { count := count + 1; }
    }

    /** `insert` and `insert_ttl`: maybe grow, apply deferred reads, then store the pair. */
    method Insert(key: Bytes, value: Bytes, ttl: nat)
      requires Valid() && |key| + |value| < U32
      requires autoResize ==> 4 * |table.buckets| <= MAX_BUCKETS
      modifies this, buffer, table, table.pool.repr
      ensures Valid()
      ensures var grown := SR.AutoGrow(c, old(Abs()), autoResize);
              S.InCells(grown.m.cells, grown.queue) && Abs() == S.Insert(c, grown, KV(key, value), ttl)
    {
      hide Valid, SR.Grow, S.Put, S.Drained, S.InCells, CeilBits;
      SizeOf();
      if autoResize {
        var n := |table.buckets|;
        if 4 * count > 3 * (4 * n) {
          CeilDouble(table.bits);
          Resize(2 * n);
        }
      }
      DrainBatch();
      PutKey(key, value, ttl);
    }

    lemma SizeOf()
      requires Valid()
      ensures |table.buckets| == Pow2(table.bits) == |Abs().m.cells| && Abs().m.count == count
    {
      hide Good, View, N.Occupied, Ring.Inv, Small, S.InCells;
      GoodShape(table.Snap(), c, {});
    }

    /** `get`: the answer; a hit queues an access event, silently dropped when the ring is full. */
    method Get(key: Bytes) returns (v: Option<Bytes>)
      requires Valid()
      modifies buffer
      ensures Valid()
      ensures v == R.Peek(c, old(Abs()).m, key) && Abs() == S.Get(c, old(Abs()), key)
    {
      hide Good, View, RecAt, KvAt, Cells.Expired, Cells.Find, IndexOf, N.Occupied, Small, Ring.Inv;
      GoodShape(table.Snap(), c, {});
      var b, r := table.Locate(key);
      if r.None? { return None; }
      Cells.FindHolds(table.Content()[b], key);
      FoundLive(table.Snap(), b, r.value, key);
      var x := IsExpired(Loc(b, r.value));
      if x { return None; }
      ghost var q := buffer.Queue();
      var e := Ring.Event(b, r.value);
      assert Locs(q + [e]) == Locs(q) + [Loc(b, r.value)];
      var pushed := buffer.Push(e);
      var kv := table.ValueAt(Loc(b, r.value));
      return Some(kv.value);
    }

    method Peek(key: Bytes) returns (v: Option<Bytes>)
      requires Valid()
      ensures v == R.Peek(c, Abs().m, key)
    {
      hide Good, View, RecAt, KvAt, Cells.Expired, Cells.Find, IndexOf, N.Occupied, Small, Ring.Inv, S.InCells;
      GoodShape(table.Snap(), c, {});
      var b, r := table.Locate(key);
      if r.None? { return None; }
      Cells.FindHolds(table.Content()[b], key);
      FoundLive(table.Snap(), b, r.value, key);
      var x := IsExpired(Loc(b, r.value));
      if x { return None; }
      var kv := table.ValueAt(Loc(b, r.value));
      return Some(kv.value);
    }

    method Remove(key: Bytes) returns (found: bool)
      requires Valid()
      modifies this`count, table, table.pool`freeList
      ensures Valid()
      ensures found == R.FindIn(c, old(Abs()).m, key).Some?
      ensures Abs() == old(Abs()).(m := R.Remove(c, old(Abs()).m, key))
    {
      hide Good, View, RecAt, KvAt, Cells.Find, IndexOf, N.Occupied, Live, Ring.Inv;
      GoodShape(table.Snap(), c, {});
      ghost var m := Abs().m;
      N.CountStep(c, m, R.OpRemove(key));
      var b, r := table.Locate(key);
      if r.None? { return false; }
      Cells.FindHolds(table.Content()[b], key);
      FoundLive(table.Snap(), b, r.value, key);
      RM.RemovePositive(c, m, key);
      table.Remove(Loc(b, r.value));
      count := count - 1;
      return true;
    }
  }

  /** An insert keeps the counter exact and the entries small. */
  lemma PutKeeps(c: Config, m: R.Map, kv: KV, ttl: nat)
    requires R.Sized(m) && m.count == N.Occupied(m.cells) && Small(m.cells) && |kv.key| + |kv.value| < U32
    ensures var m' := S.Put(c, m, kv, ttl); m'.count == N.Occupied(m'.cells) && Small(m'.cells)
  {
    hide IndexOf, Cells.Find, Cells.Touch, Cells.SyncTarget, N.Ones, N.Occupied, Wrap64;
    var b, now := R.At(c, m, kv.key), R.Next(m.epoch);
    var bk, f := m.cells[b], R.FindIn(c, m, kv.key);
    var m' := S.Put(c, m, kv, ttl);
    if f.Some? {
      Cells.FindHolds(bk, kv.key);
      N.OnesUpdate(bk, f.value, kv, Ttl(now, ttl));
      R.TouchKeys(bk, f.value);
    } else {
      N.OnesFresh(bk, Cells.SyncTarget(bk), kv, Ttl(now, ttl));
    }
    N.OccupiedUpdate(m.cells, b, m'.cells[b]);
  }

  /** Counting an access keeps the number of entries and their sizes. */
  lemma TouchKeeps(cells: seq<Cells.Bucket>, b: nat, i: nat)
    requires b < |cells| && i < 4
    ensures var out := cells[b := Cells.Touch(cells[b], i)];
            N.Occupied(out) == N.Occupied(cells) && (Small(cells) ==> Small(out))
  {
    hide Cells.Touch, N.Ones, N.Occupied;
    N.OnesTouch(cells[b], i);
    N.OccupiedUpdate(cells, b, Cells.Touch(cells[b], i));
    R.TouchKeys(cells[b], i);
  }

  /**
   The retry loop.  For a well-placed table grown to a larger power of two the first
   attempt succeeds, so the loop body never runs and the size is the requested one.
   */
  method RehashLoop(c: Config, es: seq<H.Item>, bits0: nat, ghost was: nat, ghost cells: seq<Cells.Bucket>) returns (t: Table)
    requires was <= bits0 && H.Located(c, was, cells) && es == H.Items(cells) && Placeable(es)
    requires 2 * Pow2(bits0) <= MAX_BUCKETS
    ensures t.Valid() && fresh(t) && fresh(t.pool) && fresh(t.pool.repr) && t.c == c && t.bits == bits0
    ensures H.PlaceAll(c, bits0, es).Some? && t.Content() == H.PlaceAll(c, bits0, es).value
  {
    hide Good, View, H.PlaceAll, H.Items, H.Located, H.Fits, IndexOf, Placeable;
    ghost var attempts := 1;
    var bits := bits0;
    var ok;
    ok, t := TryRehash(c, es, bits);
    while !ok
      invariant t.Valid() && fresh(t) && fresh(t.pool) && fresh(t.pool.repr) && t.c == c && t.bits == bits
      invariant ok <==> H.PlaceAll(c, bits, es).Some?
      invariant ok <==> H.Fits(c, bits, es)
      invariant ok ==> t.Content() == H.PlaceAll(c, bits, es).value
      invariant (bits == bits0 && attempts == 1) || !H.Fits(c, bits0, es)
      invariant bits >= was && (ok || 2 * Pow2(bits) <= MAX_BUCKETS)
      decreases if ok then 0 else 1
    {
      bits := bits + 1;
      ok, t := TryRehash(c, es, bits);
      attempts := attempts + 1;
      H.GrowthFits(c, was, bits, cells);
    }
    H.GrowthFits(c, was, bits0, cells);
    assert attempts == 1 && bits == bits0;
  }

  lemma NoBucketItems(bk: Cells.Bucket)
    ensures H.BucketItems(bk, 0) == []
  {}

  lemma MoreBucketItems(bk: Cells.Bucket, i: nat)
    requires i < 4
    ensures H.BucketItems(bk, i + 1) == H.BucketItems(bk, i) + if bk[i].Held? then [H.ItemOf(bk[i].e)] else []
  {}

  lemma PlacedSmall(c: Config, bits: nat, es: seq<H.Item>)
    requires H.PlaceAll(c, bits, es).Some? && Placeable(es)
    ensures Small(H.PlaceAll(c, bits, es).value)
  {
    hide H.PlaceAll, IndexOf;
    var cells := H.PlaceAll(c, bits, es).value;
    forall b, i | 0 <= b < |cells| && 0 <= i < 4 && cells[b][i].Held?
      ensures |cells[b][i].e.key| + |cells[b][i].e.value| < U32
    {
      var it := H.ItemOf(cells[b][i].e);
      assert H.Present(cells, b, it);
      H.PlacedExactly(c, bits, es, b, it);
    }
  }

  lemma DrainStep(cells: seq<Cells.Bucket>, queue: seq<Loc>, k: nat)
    requires S.InCells(cells, queue) && k <= |queue|
    ensures S.ApplyAll(cells, queue[..0]) == cells
    ensures k < |queue| ==>
              var now := S.ApplyAll(cells, queue[..k]);
              S.ApplyAll(cells, queue[..k + 1]) == now[queue[k].b := Cells.Touch(now[queue[k].b], queue[k].i)]
  {
    hide Cells.Touch;
    if k < |queue| { assert queue[..k + 1][..k] == queue[..k]; }
  }
}

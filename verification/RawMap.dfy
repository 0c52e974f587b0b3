/** `PulseMapRaw` of src/raw.rs and `RawIter` of src/iter.rs, proved against RawSpec. */
module RawMaps {
  import opened Base
  import opened MetaWord
  import opened Hashing
  import opened Slab
  import opened Stores
  import opened Views
  import opened Tables
  import Cells
  import RawSpec
  import RawRuns

  class RawMap {
    const table: Table
    var count: nat
    var evictionCount: nat
    var currentEpoch: nat
    var defaultTtl: nat

    ghost predicate Valid()
      reads this, table, table.pool, table.pool.repr
    {
      && table.Valid() && this !in table.pool.repr
      && currentEpoch < U64 && count == RawRuns.Occupied(table.Content())
    }

    /** The abstract map. */
    ghost function Abs(): (m: RawSpec.Map)
      reads this, table, table.pool, table.pool.repr
      requires Valid()
      ensures RawSpec.Sized(m)
    {
      RawSpec.Map(table.bits, table.Content(), currentEpoch, defaultTtl, count, evictionCount)
    }

    /** `new`: the bucket count is rounded up to a power of two. */
    constructor (hash: Bytes -> bv64, numBuckets: nat)
      requires Pow2(CeilBits(numBuckets)) <= MAX_BUCKETS
      ensures Valid() && fresh(table) && fresh(table.pool) && fresh(table.pool.repr)
      ensures table.c == Config(hash, false) && Abs() == RawSpec.NewMap(CeilBits(numBuckets))
    {
      hide CeilBits;
      var bits := CeilBits(numBuckets);
      var t := new Table(Config(hash, false), bits);
      table := t;
      count, evictionCount, currentEpoch, defaultTtl := 0, 0, 0, 0;
      new;
      EmptyView(t.c, bits);
      RawRuns.OccupiedNone(Pow2(bits));
    }

    method SetTtl(ttl: nat)
      requires Valid()
      modifies this`defaultTtl
      ensures Valid() && Abs() == old(Abs()).(dflt := ttl)
    {
      defaultTtl := ttl;
    }

    /** `is_expired` on one slot. */
    method IsExpired(l: Loc) returns (r: bool)
      requires Valid() && InRange(table.Snap(), l)
      ensures r == Cells.Expired(TtlAt(table.Snap(), l).epoch, TtlAt(table.Snap(), l).ttl, currentEpoch, defaultTtl)
    {
      var entry := table.ttls[l.b * 4 + l.i];
      var effective := if entry.ttl == 0 then defaultTtl else entry.ttl;
      if effective == 0 || effective == U64_MAX { return false; }
      return Cells.WrappingSub(currentEpoch, entry.epoch) > effective;
    }

    /** First slot of a bucket that is free or expired. */
    method FindFreeOrExpired(b: nat) returns (r: Option<nat>)
      requires Valid() && b < |table.buckets|
      ensures r == Cells.GoneFrom(table.Content()[b], currentEpoch, defaultTtl, 0)
    {
      hide Cells.Expired, Good, View, RecAt, KvAt, State, Unpack;
      GoodShape(table.Snap(), table.c, {});
      ghost var bk := table.Content()[b];
      for i := 0 to 4
        invariant Cells.GoneFrom(bk, currentEpoch, defaultTtl, 0) == Cells.GoneFrom(bk, currentEpoch, defaultTtl, i)
      {
        HeldOfWord(table.Snap(), b, i);
        ViewAt(table.Snap(), Loc(b, i));
        if State(table.buckets[b].meta, i) != Full { return Some(i); }
        var x := IsExpired(Loc(b, i));
        if x { return Some(i); }
      }
      r := None;
    }

    /** `insert` and `insert_ttl`. */
    method Insert(key: Bytes, value: Bytes, ttl: nat)
      requires Valid() && |key| + |value| < U32
      modifies this, table, table.pool.repr
      ensures Valid() && fresh(table.pool.repr - old(table.pool.repr))
      ensures Abs() == RawSpec.Insert(table.c, old(Abs()), KV(key, value), ttl)
    {
      hide Good, View, RecAt, KvAt, State, Unpack, Cells.Expired, Cells.Find, IndexOf, RawRuns.Occupied, Live, Absent;
      ghost var m := Abs();
      GoodShape(table.Snap(), table.c, {});
      RawRuns.CountStep(table.c, m, RawSpec.OpInsert(KV(key, value), ttl));
      currentEpoch := (currentEpoch + 1) % U64;
      var t := Ttl(currentEpoch, ttl);
      var b, r := table.Locate(key);
      if r.Some? {
        FoundLive(table.Snap(), b, r.value, key) by { Cells.FindHolds(table.Content()[b], key); }
        table.Update(Loc(b, r.value), KV(key, value), t);
        return;
      }
      var target, isEviction := PickTarget(b);
      if isEviction { evictionCount := evictionCount + 1; }
      NotFoundAbsent(table.Snap(), table.c, key);
      table.Fresh(Loc(b, target), KV(key, value), t);
      if !isEviction { count := count + 1; }
    }

    /** A free or expired slot, else the victim; the victim always exists then. */
    method PickTarget(b: nat) returns (i: nat, isEviction: bool)
      requires Valid() && b < |table.buckets|
      ensures i == Cells.RawTarget(table.Content()[b], currentEpoch, defaultTtl)
      ensures isEviction == table.Content()[b][i].Held?
    {
      hide Good, View, RecAt, KvAt, State, Unpack, Cells.Expired, Cells.IsVictim, MetaWord.IsVictim;
      ghost var st := table.Snap();
      GoodShape(st, table.c, {});
      var g := FindFreeOrExpired(b);
      if g.Some? {
        HeldOfWord(st, b, g.value);
        return g.value, State(table.buckets[b].meta, g.value) == Full;
      }
      var v := FindEvictTarget(table.buckets[b].meta);
      HeldOfWord(st, b, 0);
      assert v.Some?;
      VictimOfWord(st, b, v.value);
      assert v.value < 4 && table.Content()[b][v.value].Held? by { VictimHeld(table.Content()[b], v.value); }
      Cells.VictimUnique(table.Content()[b], v.value, Cells.Victim(table.Content()[b]));
      return v.value, true;
    }

    /** `get`: the answer, and the access counted on a hit. */
    method Get(key: Bytes) returns (v: Option<Bytes>)
      requires Valid()
      modifies table`buckets
      ensures Valid()
      ensures v == RawSpec.Peek(table.c, old(Abs()), key) && Abs() == RawSpec.Get(table.c, old(Abs()), key)
    {
      hide Good, View, RecAt, KvAt, Cells.Expired, Cells.Find, IndexOf, RawRuns.Occupied, Cells.Touch;
      GoodShape(table.Snap(), table.c, {});
      RawRuns.CountStep(table.c, Abs(), RawSpec.OpGet(key));
      var b, r := table.Locate(key);
      if r.None? { return None; }
      Cells.FindHolds(table.Content()[b], key);
      FoundLive(table.Snap(), b, r.value, key);
      var x := IsExpired(Loc(b, r.value));
      if x { return None; }
      var kv := table.ValueAt(Loc(b, r.value));
      table.Touch(Loc(b, r.value));
      return Some(kv.value);
    }

    method Peek(key: Bytes) returns (v: Option<Bytes>)
      requires Valid()
      ensures v == RawSpec.Peek(table.c, Abs(), key)
    {
      hide Good, View, RecAt, KvAt, Cells.Expired, Cells.Find, IndexOf, RawRuns.Occupied;
      GoodShape(table.Snap(), table.c, {});
      var b, r := table.Locate(key);
      if r.None? { return None; }
      Cells.FindHolds(table.Content()[b], key);
      FoundLive(table.Snap(), b, r.value, key);
      var x := IsExpired(Loc(b, r.value));
      if x { return None; }
      var kv := table.ValueAt(Loc(b, r.value));
      return Some(kv.value);
    }

    /** The two nested scans of `RawIter::next`: skip to the first occupied slot at or after (b0, i0). */
    method Advance(b0: nat, i0: nat) returns (b: nat, i: nat, r: Option<KV>)
      requires Valid() && i0 <= 4
      ensures i <= 4
      ensures r.Some? ==> Remaining(table.Content(), b0, i0) == [r.value] + Remaining(table.Content(), b, i)
      ensures r.None? ==> Remaining(table.Content(), b0, i0) == [] && Remaining(table.Content(), b, i) == []
    {
      hide Good, View, RecAt, KvAt, State, Unpack, RawRuns.Occupied, Remaining;
      ghost var cells := table.Content();
      GoodShape(table.Snap(), table.c, {});
      b, i := b0, i0;
      while b < |table.buckets|
        invariant i <= 4 && Remaining(cells, b, i) == Remaining(cells, b0, i0)
      {
        while i < 4
          invariant i <= 4 && Remaining(cells, b, i) == Remaining(cells, b0, i0)
        {
          var idx := i;
          i := i + 1;
          HeldOfWord(table.Snap(), b, idx);
          RemainingAt(cells, b, idx);
          if State(table.buckets[b].meta, idx) == Full {
            ViewAt(table.Snap(), Loc(b, idx));
            var kv := table.ValueAt(Loc(b, idx));
            return b, i, Some(kv);
          }
        }
        RemainingAt(cells, b, 4);
        b := b + 1;
        i := 0;
      }
      RemainingDone(cells, b, i);
      r := None;
    }

    method Remove(key: Bytes) returns (found: bool)
      requires Valid()
      modifies this`count, table, table.pool`freeList
      ensures Valid()
      ensures found == RawSpec.FindIn(table.c, old(Abs()), key).Some? && Abs() == RawSpec.Remove(table.c, old(Abs()), key)
    {
      hide Good, View, RecAt, KvAt, Cells.Find, IndexOf, RawRuns.Occupied, Live;
      GoodShape(table.Snap(), table.c, {});
      RawRuns.CountStep(table.c, Abs(), RawSpec.OpRemove(key));
      var b, r := table.Locate(key);
      if r.None? { return false; }
      Cells.FindHolds(table.Content()[b], key);
      FoundLive(table.Snap(), b, r.value, key);
      RemovePositive(table.c, Abs(), key);
      table.Remove(Loc(b, r.value));
      count := count - 1;
      return true;
    }
  }

  lemma VictimHeld(bk: Cells.Bucket, i: nat)
    requires Cells.IsVictim(bk, i)
    ensures i < 4 && bk[i].Held?
  {}

  /** The counter never underflows. */
  lemma RemovePositive(c: Config, m: RawSpec.Map, key: Bytes)
    requires RawSpec.Sized(m) && m.count == RawRuns.Occupied(m.cells) && RawSpec.FindIn(c, m, key).Some?
    ensures m.count > 0
  {
    hide IndexOf, RawRuns.Occupied;
    RawRuns.CountStep(c, m, RawSpec.OpRemove(key));
  }

  // ---------------------------------------------------------------------
  // RawIter
  // ---------------------------------------------------------------------

  /** Pairs of the occupied cells of one bucket from slot `i` on. */
  function HeldFrom(bk: Cells.Bucket, i: nat): seq<KV>
    requires i <= 4
    decreases 4 - i
  {
    if i == 4 then []
    else (if bk[i].Held? then [KV(bk[i].e.key, bk[i].e.value)] else []) + HeldFrom(bk, i + 1)
  }

  /** What an iterator standing at (b, i) still has to yield. */
  function Remaining(cells: seq<Cells.Bucket>, b: nat, i: nat): seq<KV>
    requires i <= 4
    decreases |cells| - b
  {
    if b >= |cells| then [] else HeldFrom(cells[b], i) + Remaining(cells, b + 1, 0)
  }

  /** One step of the scan: a vacant slot is skipped, an occupied one yields its pair. */
  lemma {:induction false} RemainingAt(cells: seq<Cells.Bucket>, b: nat, i: nat)
    requires b < |cells| && i <= 4
    ensures i == 4 ==> Remaining(cells, b, i) == Remaining(cells, b + 1, 0)
    ensures i < 4 && cells[b][i].Vacant? ==> Remaining(cells, b, i) == Remaining(cells, b, i + 1)
    ensures i < 4 && cells[b][i].Held? ==>
              Remaining(cells, b, i) == [KV(cells[b][i].e.key, cells[b][i].e.value)] + Remaining(cells, b, i + 1)
  {
    if i < 4 {
      var rest, more := Remaining(cells, b + 1, 0), HeldFrom(cells[b], i + 1);
      if cells[b][i].Held? {
        var one := [KV(cells[b][i].e.key, cells[b][i].e.value)];
        assert (one + more) + rest == one + (more + rest);
      } else {
        assert [] + more == more;
      }
    }
  }

  lemma RemainingDone(cells: seq<Cells.Bucket>, b: nat, i: nat)
    requires b >= |cells| && i <= 4
    ensures Remaining(cells, b, i) == []
  {}

  lemma {:induction false} RemainingCount(cells: seq<Cells.Bucket>, b: nat)
    requires b <= |cells|
    ensures |Remaining(cells, b, 0)| == RawRuns.Occupied(cells) - RawRuns.Occupied(cells[..b])
    decreases |cells| - b
  {
    hide RawRuns.Ones;
    if b == |cells| {
      assert cells[..b] == cells;
    } else {
      RemainingCount(cells, b + 1);
      assert cells[..b + 1][..b] == cells[..b];
      HeldOnes(cells[b]);
    }
  }

  lemma HeldOnes(bk: Cells.Bucket)
    ensures |HeldFrom(bk, 0)| == RawRuns.Ones(bk)
  {
    assert |HeldFrom(bk, 3)| == if bk[3].Held? then 1 else 0;
    assert |HeldFrom(bk, 2)| == |HeldFrom(bk, 3)| + if bk[2].Held? then 1 else 0;
    assert |HeldFrom(bk, 1)| == |HeldFrom(bk, 2)| + if bk[1].Held? then 1 else 0;
  }

  /** A full iteration yields exactly `len()` pairs. */
  lemma IterationLength(cells: seq<Cells.Bucket>)
    ensures |Remaining(cells, 0, 0)| == RawRuns.Occupied(cells)
  {
    RemainingCount(cells, 0);
    assert cells[..0] == [];
  }

  class RawIter {
    const source: RawMap
    var bucketIdx: nat
    var slotIdx: nat

    ghost predicate Valid()
      reads this
    {
      slotIdx <= 4
    }

    constructor (source: RawMap)
      ensures this.source == source && bucketIdx == 0 && slotIdx == 0 && Valid()
    {
      this.source := source;
      bucketIdx, slotIdx := 0, 0;
    }

    /** Yields the first remaining pair and steps past it; None exactly when nothing remains. */
    method Next() returns (r: Option<KV>)
      requires Valid() && source.Valid() && this !in source.table.pool.repr
      modifies this
      ensures Valid() && source.Valid() && source.table.Content() == old(source.table.Content())
      ensures var rest := old(Remaining(source.table.Content(), bucketIdx, slotIdx));
              && (r.Some? ==> rest == [r.value] + Remaining(source.table.Content(), bucketIdx, slotIdx))
              && (r.None? ==> rest == [] && Remaining(source.table.Content(), bucketIdx, slotIdx) == [])
    {
      var b, i;
      b, i, r := source.Advance(bucketIdx, slotIdx);
      bucketIdx, slotIdx := b, i;
    }
  }
}

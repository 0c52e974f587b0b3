/**
 Whole histories of the concurrent map used by one thread, with `resize` calls and
 auto-growth anywhere in them: hits, expiry and the well-placedness of the table.
 */
module SyncRuns {
  import opened Base
  import opened Hashing
  import opened Cells
  import opened SyncSpec
  import R = RawSpec
  import N = RawRuns
  import H = Rehash

  /** `resize`: grow to the next power of two, or do nothing; queued events are dropped. */
  function Grow(c: Config, s: Sync, newNum: nat): (s': Sync)
    requires Sized(s)
    ensures Sized(s') && (InCells(s.m.cells, s.queue) ==> InCells(s'.m.cells, s'.queue))
  {
    var bits := CeilBits(newNum);
    if Pow2(s.m.bits) >= Pow2(bits) || H.PlaceAll(c, bits, H.Items(s.m.cells)).None? then s
    else Sync(H.Grown(c, s.m, bits), [])
  }

  /** The auto-resize condition: more than three quarters of the slots are occupied. */
  predicate Crowded(s: Sync) { 4 * s.m.count > 3 * (4 * |s.m.cells|) }

  function AutoGrow(c: Config, s: Sync, auto: bool): (s': Sync)
    requires Sized(s)
    ensures Sized(s') && (InCells(s.m.cells, s.queue) ==> InCells(s'.m.cells, s'.queue))
  {
    if auto && Crowded(s) then Grow(c, s, 2 * |s.m.cells|) else s
  }

  datatype Event = Do(op: R.Op) | Resize(n: nat)

  function Step(c: Config, auto: bool, s: Sync, x: Event): (s': Sync)
    requires Sized(s) && InCells(s.m.cells, s.queue)
    ensures Sized(s')
  {
    match x
    case Resize(n) => Grow(c, s, n)
    case Do(op) =>
      if op.OpInsert? then Insert(c, AutoGrow(c, s, auto), op.kv, op.ttl) else SyncSpec.Step(c, s, op)
  }

  lemma StepInCells(c: Config, auto: bool, s: Sync, x: Event)
    requires Sized(s) && InCells(s.m.cells, s.queue)
    ensures InCells(Step(c, auto, s, x).m.cells, Step(c, auto, s, x).queue)
  {
    hide Grow, AutoGrow, InCells, Insert, SyncSpec.Step;
    match x
    case Resize(n) =>
    case Do(op) =>
      if op.OpInsert? {
        SyncSpec.StepInCells(c, AutoGrow(c, s, auto), op);
        InsertStep(c, AutoGrow(c, s, auto), op);
      } else {
        SyncSpec.StepInCells(c, s, op);
      }
  }

  lemma InsertStep(c: Config, s: Sync, op: R.Op)
    requires Sized(s) && InCells(s.m.cells, s.queue) && op.OpInsert?
    ensures SyncSpec.Step(c, s, op) == Insert(c, s, op.kv, op.ttl)
  {}

  function Run(c: Config, auto: bool, s: Sync, xs: seq<Event>): (s': Sync)
    requires Sized(s) && InCells(s.m.cells, s.queue)
    ensures Sized(s') && InCells(s'.m.cells, s'.queue)
    decreases |xs|
  {
    if xs == [] then s
    else
      var prev := Run(c, auto, s, xs[..|xs| - 1]);
      StepInCells(c, auto, prev, xs[|xs| - 1]);
      Step(c, auto, prev, xs[|xs| - 1])
  }

  function New(bits: nat): (s: Sync)
    ensures Sized(s) && InCells(s.m.cells, s.queue)
  {
    Sync(R.NewMap(bits), [])
  }

  /** The operations of a history, resizes left out. */
  function Ops(xs: seq<Event>): seq<R.Op>
    decreases |xs|
  {
    if xs == [] then []
    else Ops(xs[..|xs| - 1]) + if xs[|xs| - 1].Do? then [xs[|xs| - 1].op] else []
  }

  // ---------------------------------------------------------------------
  // What every history keeps
  // ---------------------------------------------------------------------

  /** The table accounts for the history, and the counter for the table. */
  ghost predicate SyncOk(c: Config, ops: seq<R.Op>, s: Sync) {
    && Sized(s) && InCells(s.m.cells, s.queue)
    && R.MapOk(c, ops, s.m) && s.m.count == N.Occupied(s.m.cells)
  }

  /** Every entry in the bucket of its key, and no key twice. */
  lemma MapPlaced(c: Config, ops: seq<R.Op>, m: R.Map)
    requires R.MapOk(c, ops, m)
    ensures H.Located(c, m.bits, m.cells) && H.UniqueKeys(m.cells)
  {
    hide R.FromHistory, IndexOf, Wrap64;
    forall b, i | 0 <= b < |m.cells| && 0 <= i < 4 && m.cells[b][i].Held? ensures IndexOf(c, m.cells[b][i].e.key, m.bits) == b {
      assert R.BucketOk(c, m.bits, ops, b, m.cells[b]);
    }
    forall b, i, b', i' | 0 <= b < |m.cells| && 0 <= i < 4 && 0 <= b' < |m.cells| && 0 <= i' < 4 && (b != b' || i != i')
                          && m.cells[b][i].Held? && m.cells[b'][i'].Held?
      ensures m.cells[b][i].e.key != m.cells[b'][i'].e.key
    {
      assert R.BucketOk(c, m.bits, ops, b, m.cells[b]);
    }
  }

  lemma {:induction false} ApplyOk(c: Config, ops: seq<R.Op>, m: R.Map, queue: seq<Loc>)
    requires R.MapOk(c, ops, m) && InCells(m.cells, queue)
    ensures R.MapOk(c, ops, m.(cells := ApplyAll(m.cells, queue)))
    ensures N.Occupied(ApplyAll(m.cells, queue)) == N.Occupied(m.cells)
    decreases |queue|
  {
    hide R.FromHistory, IndexOf, Wrap64, Touch, R.BucketOk, N.Ones, N.Occupied;
    if queue != [] {
      var n := |queue| - 1;
      ApplyOk(c, ops, m, queue[..n]);
      var mid := ApplyAll(m.cells, queue[..n]);
      var b := queue[n].b;
      assert R.BucketOk(c, m.bits, ops, b, mid[b]);
      R.TouchOk(c, m.bits, ops, b, mid[b], queue[n].i);
      N.OnesTouch(mid[b], queue[n].i);
      N.OccupiedUpdate(mid, b, Touch(mid[b], queue[n].i));
    }
  }

  lemma DrainedOk(c: Config, ops: seq<R.Op>, s: Sync)
    requires SyncOk(c, ops, s)
    ensures R.MapOk(c, ops, Drained(s).m) && Drained(s).m.count == N.Occupied(Drained(s).m.cells)
  {
    hide R.MapOk, N.Occupied, ApplyAll;
    ApplyOk(c, ops, s.m, s.queue[..Batch(s.queue)]);
  }

  /** Placing items of different keys puts no key twice. */
  lemma {:induction false} PlacedUnique(c: Config, bits: nat, es: seq<H.Item>)
    requires H.DistinctKeys(es) && H.PlaceAll(c, bits, es).Some?
    ensures H.UniqueKeys(H.PlaceAll(c, bits, es).value)
    decreases |es|
  {
    hide IndexOf;
    if es != [] {
      var n := |es| - 1;
      PlacedUnique(c, bits, es[..n]);
      var prev := H.PlaceAll(c, bits, es[..n]).value;
      forall b, i | 0 <= b < |prev| && 0 <= i < 4 && prev[b][i].Held? ensures prev[b][i].e.key != es[n].kv.key {
        var it := H.ItemOf(prev[b][i].e);
        assert H.Present(prev, b, it);
        H.PlacedExactly(c, bits, es[..n], b, it);
      }
    }
  }

  /** An entry with the item of an old entry has its history. */
  lemma ItemHistory(c: Config, ops: seq<R.Op>, m: R.Map, e: Entry)
    requires R.MapOk(c, ops, m) && H.Has(m.cells, H.ItemOf(e))
    ensures R.FromHistory(ops, e)
  {
    hide R.FromHistory, IndexOf, Wrap64;
    var b: nat :| H.Present(m.cells, b, H.ItemOf(e));
    var i :| 0 <= i < 4 && m.cells[b][i].Held? && H.ItemOf(m.cells[b][i].e) == H.ItemOf(e);
    assert R.BucketOk(c, m.bits, ops, b, m.cells[b]);
    R.HistoryCounters(ops, m.cells[b][i].e, e);
  }

  lemma GrownOk(c: Config, ops: seq<R.Op>, m: R.Map, bits: nat)
    requires R.MapOk(c, ops, m) && m.count == N.Occupied(m.cells) && m.bits <= bits
    ensures H.PlaceAll(c, bits, H.Items(m.cells)).Some?
    ensures R.MapOk(c, ops, H.Grown(c, m, bits)) && H.Grown(c, m, bits).count == N.Occupied(H.Grown(c, m, bits).cells)
  {
    hide R.FromHistory, IndexOf, Wrap64, N.Occupied, H.PlaceAll, H.Items, H.Has;
    MapPlaced(c, ops, m);
    H.GrowthKeepsItems(c, m, bits);
    H.ItemsDistinct(m.cells);
    PlacedUnique(c, bits, H.Items(m.cells));
    var m' := H.Grown(c, m, bits);
    forall b, i | 0 <= b < |m'.cells| && 0 <= i < 4 && m'.cells[b][i].Held? ensures R.FromHistory(ops, m'.cells[b][i].e) {
      assert H.Present(m'.cells, b, H.ItemOf(m'.cells[b][i].e));
      assert H.Has(m'.cells, H.ItemOf(m'.cells[b][i].e)) by { HasOf(m'.cells, b, H.ItemOf(m'.cells[b][i].e)); }
      ItemHistory(c, ops, m, m'.cells[b][i].e);
    }
    forall b | 0 <= b < |m'.cells| ensures R.BucketOk(c, bits, ops, b, m'.cells[b]) {}
  }

  lemma HasOf(cells: seq<Bucket>, b: nat, it: H.Item)
    requires H.Present(cells, b, it)
    ensures H.Has(cells, it)
  {}

  lemma GrowOk(c: Config, ops: seq<R.Op>, s: Sync, n: nat)
    requires SyncOk(c, ops, s)
    ensures SyncOk(c, ops, Grow(c, s, n))
  {
    hide R.MapOk, N.Occupied, CeilBits, H.PlaceAll, H.Items;
    if Pow2(s.m.bits) < Pow2(CeilBits(n)) {
      SmallerBits(s.m.bits, CeilBits(n));
      GrownOk(c, ops, s.m, CeilBits(n));
    }
  }

  lemma InsertedOk(c: Config, ops: seq<R.Op>, s: Sync, op: R.Op)
    requires SyncOk(c, ops, s) && op.OpInsert?
    ensures SyncOk(c, ops + [op], Insert(c, s, op.kv, op.ttl))
  {
    hide R.MapOk, N.Occupied, R.InsertAt, SyncTarget, ApplyAll, IndexOf;
    DrainedOk(c, ops, s);
    var m := Drained(s).m;
    var i := SyncTarget(m.cells[R.At(c, m, op.kv.key)]);
    R.InsertOk(c, ops, m, op, i);
    PutCount(c, m, op.kv, op.ttl, i);
    SyncSpec.StepInCells(c, s, op);
    InsertStep(c, s, op);
  }

  lemma PutCount(c: Config, m: R.Map, kv: KV, ttl: nat, i: nat)
    requires R.Sized(m) && m.count == N.Occupied(m.cells) && i < 4
    ensures R.InsertAt(c, m, kv, ttl, i).count == N.Occupied(R.InsertAt(c, m, kv, ttl, i).cells)
  {
    hide IndexOf, UpdateAt, FreshAt, N.Ones, N.Occupied, Wrap64;
    var b, now := R.At(c, m, kv.key), R.Next(m.epoch);
    var bk, f := m.cells[b], R.FindIn(c, m, kv.key);
    FindHolds(bk, kv.key);
    if f.Some? {
      N.OnesUpdate(bk, f.value, kv, Ttl(now, ttl));
      N.OccupiedUpdate(m.cells, b, UpdateAt(bk, f.value, kv, Ttl(now, ttl)));
    } else {
      N.OnesFresh(bk, i, kv, Ttl(now, ttl));
      N.OccupiedUpdate(m.cells, b, FreshAt(bk, i, kv, Ttl(now, ttl)));
    }
  }

  /** Reads queue events, a remove empties a cell, and set_ttl changes the default. */
  lemma OtherOk(c: Config, ops: seq<R.Op>, s: Sync, op: R.Op)
    requires SyncOk(c, ops, s) && !op.OpInsert?
    ensures SyncOk(c, ops + [op], SyncSpec.Step(c, s, op))
  {
    hide R.MapOk, N.Occupied, R.Remove, R.Get;
    SyncSpec.StepInCells(c, s, op);
    if op.OpGet? {
      QuietOk(c, ops, s.m, op);
    } else {
      R.StepOk(c, ops, s.m, op);
      N.CountStep(c, s.m, op);
    }
  }

  /** A read that changes nothing. */
  lemma QuietOk(c: Config, ops: seq<R.Op>, m: R.Map, op: R.Op)
    requires R.MapOk(c, ops, m) && (op.OpGet? || op.OpPeek?)
    ensures R.MapOk(c, ops + [op], m)
  {
    hide R.FromHistory, IndexOf, Wrap64;
    R.InsertsGrow(ops, op);
    forall b | 0 <= b < |m.cells| ensures R.BucketOk(c, m.bits, ops + [op], b, m.cells[b]) {
      assert R.BucketOk(c, m.bits, ops, b, m.cells[b]);
      R.BucketGrows(c, m.bits, ops, op, b, m.cells[b]);
    }
  }

  lemma StepOk(c: Config, auto: bool, ops: seq<R.Op>, s: Sync, x: Event)
    requires SyncOk(c, ops, s)
    ensures SyncOk(c, ops + if x.Do? then [x.op] else [], Step(c, auto, s, x))
  {
    hide SyncOk, Grow, Insert, SyncSpec.Step, Crowded, Sized, InCells;
    assert ops + [] == ops;
    assert Sized(s) && InCells(s.m.cells, s.queue) by { SyncShape(c, ops, s); }
    match x
    case Resize(n) => GrowOk(c, ops, s, n);
    case Do(op) =>
      if op.OpInsert? {
        if auto && Crowded(s) { GrowOk(c, ops, s, 2 * |s.m.cells|); }
        InsertedOk(c, ops, AutoGrow(c, s, auto), op);
      } else {
        OtherOk(c, ops, s, op);
      }
  }

  lemma SyncShape(c: Config, ops: seq<R.Op>, s: Sync)
    requires SyncOk(c, ops, s)
    ensures Sized(s) && InCells(s.m.cells, s.queue)
  {}

  lemma {:induction false} RunOk(c: Config, auto: bool, bits: nat, xs: seq<Event>)
    ensures SyncOk(c, Ops(xs), Run(c, auto, New(bits), xs))
    decreases |xs|
  {
    hide SyncOk, Step, New, Sized, InCells;
    if xs == [] {
      NewOk(c, bits);
    } else {
      var n := |xs| - 1;
      RunOk(c, auto, bits, xs[..n]);
      var s := Run(c, auto, New(bits), xs[..n]);
      StepOk(c, auto, Ops(xs[..n]), s, xs[n]);
      assert Ops(xs[..n]) + [] == Ops(xs[..n]);
    }
  }

  lemma NewOk(c: Config, bits: nat)
    ensures SyncOk(c, [], New(bits))
  {
    hide R.MapOk, N.Occupied, Pow2;
    R.NewOk(c, bits);
    N.OccupiedNone(Pow2(bits));
  }

  // ---------------------------------------------------------------------
  // Results over histories
  // ---------------------------------------------------------------------

  /** A hit is the value of the last insert of its key with no remove since, across any resizes. */
  lemma HitIsLastInsert(c: Config, auto: bool, bits: nat, xs: seq<Event>, key: Bytes)
    ensures var m, ops := Run(c, auto, New(bits), xs).m, Ops(xs);
            var p := R.LastInsert(ops, key);
            && (R.Peek(c, m, key).Some? ==> p.Some? && R.Peek(c, m, key).value == ops[p.value].kv.value)
            && (p.None? ==> R.FindIn(c, m, key).None? && R.Peek(c, m, key).None?)
  {
    hide R.MapOk, Run, R.Peek, R.FindIn;
    RunOk(c, auto, bits, xs);
    N.HitIn(c, Ops(xs), Run(c, auto, New(bits), xs).m, key);
  }

  /** A resident entry is hidden exactly when more inserts than its effective TTL came after its own. */
  lemma HiddenIffOld(c: Config, auto: bool, bits: nat, xs: seq<Event>, key: Bytes)
    requires R.FindIn(c, Run(c, auto, New(bits), xs).m, key).Some?
    ensures R.LastInsert(Ops(xs), key).Some?
    ensures var m, ops := Run(c, auto, New(bits), xs).m, Ops(xs);
            var t := N.Limit(ops, key);
            N.Age(ops, key) < U64 ==> (R.Peek(c, m, key).None? <==> t != 0 && t != U64 - 1 && N.Age(ops, key) > t)
  {
    hide R.MapOk, Run, R.Peek, R.FindIn, N.Age, N.Limit;
    RunOk(c, auto, bits, xs);
    N.HiddenIn(c, Ops(xs), Run(c, auto, New(bits), xs).m, key);
  }

  lemma {:induction false} OpsSplit(xs: seq<Event>, more: seq<Event>)
    ensures Ops(xs + more) == Ops(xs) + Ops(more)
    decreases |more|
  {
    if more == [] {
      assert xs + more == xs;
    } else {
      OpsSplit(xs, more[..|more| - 1]);
      assert (xs + more)[..|xs + more| - 1] == xs + more[..|more| - 1];
    }
  }

  lemma {:induction false} DefaultKept(c: Config, auto: bool, s: Sync, xs: seq<Event>, more: seq<Event>)
    requires Sized(s) && InCells(s.m.cells, s.queue) && forall i :: 0 <= i < |more| ==> !(more[i].Do? && more[i].op.OpSetTtl?)
    ensures Run(c, auto, s, xs + more).m.dflt == Run(c, auto, s, xs).m.dflt
    decreases |more|
  {
    hide Step, Sized, InCells;
    if more == [] {
      assert xs + more == xs;
    } else {
      DefaultKept(c, auto, s, xs, more[..|more| - 1]);
      assert (xs + more)[..|xs + more| - 1] == xs + more[..|more| - 1];
      StepDefault(c, auto, Run(c, auto, s, xs + more[..|more| - 1]), more[|more| - 1]);
    }
  }

  lemma StepDefault(c: Config, auto: bool, s: Sync, x: Event)
    requires Sized(s) && InCells(s.m.cells, s.queue) && !(x.Do? && x.op.OpSetTtl?)
    ensures Step(c, auto, s, x).m.dflt == s.m.dflt
  {
    hide IndexOf, Find, SyncTarget, ApplyAll, H.PlaceAll, H.Items, CeilBits, UpdateAt, FreshAt, R.Peek, InCells;
  }

  lemma {:induction false} OpsHave(more: seq<Event>, key: Bytes)
    requires forall i :: 0 <= i < |more| && more[i].Do? && more[i].op.OpInsert? ==> more[i].op.kv.key != key
    ensures forall i :: 0 <= i < |Ops(more)| && Ops(more)[i].OpInsert? ==> Ops(more)[i].kv.key != key
    decreases |more|
  {
    if more != [] { OpsHave(more[..|more| - 1], key); }
  }

  /** Under a fixed default TTL an expired key stays hidden until it is inserted again, across any resizes. */
  lemma ExpiredStaysHidden(c: Config, auto: bool, bits: nat, xs: seq<Event>, more: seq<Event>, key: Bytes)
    requires var m := Run(c, auto, New(bits), xs).m; R.FindIn(c, m, key).Some? && R.Peek(c, m, key).None?
    requires forall i :: 0 <= i < |more| && more[i].Do? ==> !more[i].op.OpSetTtl? && (more[i].op.OpInsert? ==> more[i].op.kv.key != key)
    requires R.LastInsert(Ops(xs), key).Some? && N.Age(Ops(xs), key) + R.Inserts(Ops(more)) < U64
    ensures R.Peek(c, Run(c, auto, New(bits), xs + more).m, key).None?
  {
    hide R.MapOk, Run, R.Peek, R.FindIn, N.Age;
    RunOk(c, auto, bits, xs);
    RunOk(c, auto, bits, xs + more);
    OpsSplit(xs, more);
    OpsHave(more, key);
    DefaultKept(c, auto, New(bits), xs, more);
    N.HiddenLater(c, Ops(xs), Run(c, auto, New(bits), xs).m, Ops(more), Run(c, auto, New(bits), xs + more).m, key);
  }

  /** Growing a well-placed map changes no answer. */
  lemma GrowAnswers(c: Config, s: Sync, n: nat, key: Bytes)
    requires Sized(s) && H.Located(c, s.m.bits, s.m.cells) && H.UniqueKeys(s.m.cells) && s.m.count == N.Occupied(s.m.cells)
    ensures R.Peek(c, Grow(c, s, n).m, key) == R.Peek(c, s.m, key)
  {
    hide R.Peek, CeilBits, H.PlaceAll, H.Items, N.Occupied, H.Grown, H.Located, H.UniqueKeys;
    if Pow2(s.m.bits) < Pow2(CeilBits(n)) {
      SmallerBits(s.m.bits, CeilBits(n));
      H.GrowthKeepsAnswers(c, s.m, CeilBits(n), key);
    }
  }

  /** After any history a resize changes no answer. */
  lemma ResizeKeepsAnswers(c: Config, auto: bool, bits: nat, xs: seq<Event>, n: nat, key: Bytes)
    ensures R.Peek(c, Grow(c, Run(c, auto, New(bits), xs), n).m, key) == R.Peek(c, Run(c, auto, New(bits), xs).m, key)
  {
    hide R.MapOk, Run, R.Peek, N.Occupied, H.Located, H.UniqueKeys;
    RunOk(c, auto, bits, xs);
    MapPlaced(c, Ops(xs), Run(c, auto, New(bits), xs).m);
    GrowAnswers(c, Run(c, auto, New(bits), xs), n, key);
  }
}

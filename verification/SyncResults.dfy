/**
 What the concurrent map does with its queue of deferred events, where its inserts go, what
 may leave it and when it grows, step by step and over whole histories of one thread.
 */
module SyncResults {
  import opened Base
  import opened Hashing
  import opened Cells
  import opened SyncSpec
  import opened SyncRuns
  import R = RawSpec
  import N = RawRuns
  import H = Rehash

  // ---------------------------------------------------------------------
  // The queue
  // ---------------------------------------------------------------------

  /** The cells with every pending event applied. */
  function Settled(s: Sync): seq<Bucket>
    requires InCells(s.m.cells, s.queue)
  {
    ApplyAll(s.m.cells, s.queue)
  }

  lemma {:induction false} ApplySplit(cells: seq<Bucket>, queue: seq<Loc>, more: seq<Loc>)
    requires InCells(cells, queue) && InCells(cells, more)
    ensures InCells(cells, queue + more) && InCells(ApplyAll(cells, queue), more)
    ensures ApplyAll(cells, queue + more) == ApplyAll(ApplyAll(cells, queue), more)
    decreases |more|
  {
    hide Touch;
    if more == [] {
      assert queue + more == queue;
    } else {
      ApplySplit(cells, queue, more[..|more| - 1]);
      assert (queue + more)[..|queue + more| - 1] == queue + more[..|more| - 1];
    }
  }

  /**
   The drain of an insert takes the oldest 64 events, or all if there are fewer, and changes
   nothing about the cells with all events applied.
   */
  lemma DrainKeepsSettled(s: Sync)
    requires Sized(s) && InCells(s.m.cells, s.queue)
    ensures InCells(Drained(s).m.cells, Drained(s).queue)
    ensures Settled(Drained(s)) == Settled(s)
    ensures Drained(s).queue == if |s.queue| <= 64 then [] else s.queue[64..]
    ensures Drained(s).m == s.m.(cells := Drained(s).m.cells) && |Drained(s).m.cells| == |s.m.cells|
  {
    hide ApplyAll;
    var n := Batch(s.queue);
    assert s.queue[..n] + s.queue[n..] == s.queue;
    ApplySplit(s.m.cells, s.queue[..n], s.queue[n..]);
  }

  /** The cell `l` names holds `key`. */
  predicate Names(cells: seq<Bucket>, l: Loc, key: Bytes) {
    l.b < |cells| && l.i < 4 && Holds(cells[l.b][l.i], key)
  }

  /**
   `get` queues an event exactly for a hit while fewer than 4096 are pending; the event names
   the cell that holds the key.  The map itself does not change.
   */
  lemma GetQueues(c: Config, s: Sync, key: Bytes)
    requires Sized(s) && InCells(s.m.cells, s.queue)
    ensures Get(c, s, key).m == s.m
    ensures if R.Peek(c, s.m, key).Some? && |s.queue| < 4096 then
              exists l :: Names(s.m.cells, l, key) && Get(c, s, key).queue == s.queue + [l]
            else Get(c, s, key).queue == s.queue
  {
    hide IndexOf, Find, Expired;
    var b, f := R.At(c, s.m, key), R.FindIn(c, s.m, key);
    FindHolds(s.m.cells[b], key);
    if f.Some? { assert Names(s.m.cells, Loc(b, f.value), key); }
  }

  // ---------------------------------------------------------------------
  // Inserts
  // ---------------------------------------------------------------------

  /** The map an insert stores into: grown if it was crowded, then drained. */
  function Ready(c: Config, auto: bool, s: Sync): (d: Sync)
    requires Sized(s) && InCells(s.m.cells, s.queue)
    ensures Sized(d)
  {
    Drained(AutoGrow(c, s, auto))
  }

  /**
   The insert of the concurrent map, in full and for any TTL.  A resident key is updated in
   place.  An absent one goes to the first vacant cell of its bucket, expired entries getting
   no preference, or, when none is vacant, in place of the entry of least priority.  The rest
   of the map is untouched.
   */
  lemma InsertPlaces(c: Config, auto: bool, s: Sync, kv: KV, ttl: nat)
    requires Sized(s) && InCells(s.m.cells, s.queue)
    ensures var d, s' := Ready(c, auto, s), SyncRuns.Step(c, auto, s, Do(R.OpInsert(kv, ttl)));
            s'.queue == d.queue &&
            exists i :: 0 <= i < 4 && N.Stored(c, d.m, s'.m, kv, ttl, i) &&
              var before := d.m.cells[R.At(c, d.m, kv.key)];
              (forall j :: 0 <= j < 4 ==> !Holds(before[j], kv.key)) ==>
                if exists j :: 0 <= j < 4 && before[j].Vacant?
                then before[i].Vacant? && forall j :: 0 <= j < i ==> before[j].Held?
                else IsVictim(before, i)
  {
    hide IndexOf, R.InsertAt, IsVictim, N.Stored, AutoGrow, Drained, InCells;
    var d := Ready(c, auto, s);
    var before := d.m.cells[R.At(c, d.m, kv.key)];
    var i0, f := SyncTarget(before), R.FindIn(c, d.m, kv.key);
    N.InsertAtStores(c, d.m, kv, ttl, i0);
    SyncTargetIs(before);
    FindHolds(before, kv.key);
    assert N.Stored(c, d.m, SyncRuns.Step(c, auto, s, Do(R.OpInsert(kv, ttl))).m, kv, ttl, if f.Some? then f.value else i0);
  }

  /** A key can be read right after its insert, whatever the TTLs, the queue and the growth. */
  lemma ReadYourWrite(c: Config, auto: bool, s: Sync, kv: KV, ttl: nat)
    requires Sized(s) && InCells(s.m.cells, s.queue)
    ensures R.Peek(c, SyncRuns.Step(c, auto, s, Do(R.OpInsert(kv, ttl))).m, kv.key) == Some(kv.value)
  {
    hide IndexOf, R.InsertAt, R.Peek, SyncTarget, AutoGrow, Drained, InCells;
    var d := Ready(c, auto, s);
    N.ReadAfter(c, d.m, kv, ttl, SyncTarget(d.m.cells[R.At(c, d.m, kv.key)]));
  }

  // ---------------------------------------------------------------------
  // What leaves
  // ---------------------------------------------------------------------

  lemma GrowKeepsFind(c: Config, ops: seq<R.Op>, s: Sync, n: nat, key: Bytes)
    requires SyncOk(c, ops, s) && R.FindIn(c, s.m, key).Some?
    ensures R.FindIn(c, Grow(c, s, n).m, key).Some?
  {
    hide IndexOf, H.PlaceAll, H.Items, R.FromHistory, N.Occupied, CeilBits, R.BucketOk;
    if Pow2(s.m.bits) < Pow2(CeilBits(n)) {
      SmallerBits(s.m.bits, CeilBits(n));
      MapPlaced(c, ops, s.m);
      H.GrowthKeepsItems(c, s.m, CeilBits(n));
      var b := R.At(c, s.m, key);
      FindHolds(s.m.cells[b], key);
      var it := H.ItemOf(s.m.cells[b][R.FindIn(c, s.m, key).value].e);
      assert H.Present(s.m.cells, b, it);
      HasOf(s.m.cells, b, it);
      H.KeyFound(c, H.Grown(c, s.m, CeilBits(n)), key, it);
    }
  }

  lemma DrainKeepsFind(c: Config, s: Sync, key: Bytes)
    requires Sized(s) && InCells(s.m.cells, s.queue)
    ensures R.FindIn(c, Drained(s).m, key) == R.FindIn(c, s.m, key)
  {
    hide IndexOf, ApplyAll, Find;
    var b := R.At(c, s.m, key);
    ApplySame(s.m.cells, s.queue[..Batch(s.queue)], b);
    FindSame(s.m.cells[b], Drained(s).m.cells[b], key);
  }

  /** Why an insert may have pushed a key out: it was the least-priority entry of a full bucket, and the new key was absent. */
  ghost predicate PushedOut(c: Config, d: R.Map, newKey: Bytes, key: Bytes) {
    && R.Sized(d) && R.At(c, d, newKey) == R.At(c, d, key) && R.FindIn(c, d, newKey).None? && R.FindIn(c, d, key).Some?
    && var bk := d.cells[R.At(c, d, key)];
       (forall j :: 0 <= j < 4 ==> bk[j].Held?) && IsVictim(bk, R.FindIn(c, d, key).value)
  }

  /** Storing one key can only push out the victim. */
  lemma StoreLeaves(c: Config, d: R.Map, kv: KV, ttl: nat, key: Bytes)
    requires R.Sized(d) && R.FindIn(c, d, key).Some?
    requires R.FindIn(c, R.InsertAt(c, d, kv, ttl, SyncTarget(d.cells[R.At(c, d, kv.key)])), key).None?
    ensures PushedOut(c, d, kv.key, key)
  {
    hide IndexOf, Touch, SyncTarget, IsVictim;
    var bk, b := d.cells[R.At(c, d, kv.key)], R.At(c, d, key);
    FindHolds(d.cells[b], key);
    SyncTargetIs(bk);
    if R.FindIn(c, d, kv.key).Some? { R.TouchKeys(bk, R.FindIn(c, d, kv.key).value); }
    var d' := R.InsertAt(c, d, kv, ttl, SyncTarget(bk));
    assert d'.bits == d.bits && !Holds(d'.cells[b][R.FindIn(c, d, key).value], key);
  }

  /**
   Nothing else leaves.  Over every history, with resizes and auto-growth, a resident key is
   gone after a step only if it was removed, or if the step inserted an absent key into a full
   bucket and it was the entry of least priority there.
   */
  lemma OnlyTheseLeave(c: Config, auto: bool, bits: nat, xs: seq<Event>, x: Event, key: Bytes)
    ensures var s := SyncRuns.Run(c, auto, New(bits), xs);
            R.FindIn(c, s.m, key).Some? && R.FindIn(c, SyncRuns.Step(c, auto, s, x).m, key).None? ==>
              x.Do? && ((x.op.OpRemove? && x.op.key == key) ||
                        (x.op.OpInsert? && PushedOut(c, Ready(c, auto, s).m, x.op.kv.key, key)))
  {
    hide SyncRuns.Run, SyncOk, R.FindIn, Grow, Drained, PushedOut, R.InsertAt, R.At, InCells, Crowded;
    RunOk(c, auto, bits, xs);
    var s := SyncRuns.Run(c, auto, New(bits), xs);
    if R.FindIn(c, s.m, key).Some? {
      match x
      case Resize(n) => GrowKeepsFind(c, Ops(xs), s, n, key);
      case Do(op) =>
        if op.OpInsert? {
          if auto && Crowded(s) { GrowKeepsFind(c, Ops(xs), s, 2 * |s.m.cells|, key); }
          InsertLeaves(c, AutoGrow(c, s, auto), op.kv, op.ttl, key);
        } else {
          OtherLeaves(c, s, op, key);
        }
    }
  }

  lemma InsertLeaves(c: Config, s: Sync, kv: KV, ttl: nat, key: Bytes)
    requires Sized(s) && InCells(s.m.cells, s.queue) && R.FindIn(c, s.m, key).Some?
    ensures R.FindIn(c, Insert(c, s, kv, ttl).m, key).None? ==> PushedOut(c, Drained(s).m, kv.key, key)
  {
    hide R.FindIn, Drained, PushedOut, R.InsertAt, R.At, InCells, SyncTarget;
    DrainKeepsFind(c, s, key);
    if R.FindIn(c, Insert(c, s, kv, ttl).m, key).None? { StoreLeaves(c, Drained(s).m, kv, ttl, key); }
  }

  lemma OtherLeaves(c: Config, s: Sync, op: R.Op, key: Bytes)
    requires Sized(s) && InCells(s.m.cells, s.queue) && !op.OpInsert? && R.FindIn(c, s.m, key).Some?
    ensures R.FindIn(c, SyncSpec.Step(c, s, op).m, key).None? ==> op.OpRemove? && op.key == key
  {
    hide IndexOf, InCells;
    var b := R.At(c, s.m, key);
    FindHolds(s.m.cells[b], key);
    if op.OpRemove? { FindHolds(s.m.cells[R.At(c, s.m, op.key)], op.key); }
  }

  // ---------------------------------------------------------------------
  // Growth
  // ---------------------------------------------------------------------

  /**
   Sizes over every history.  `resize` gives the next power of two of its argument unless the
   map is already that large; an insert of an auto-resizing map doubles it exactly when more
   than three quarters of the slots were occupied; nothing else changes it.
   */
  lemma SizeRule(c: Config, auto: bool, bits: nat, xs: seq<Event>, x: Event)
    ensures var s := SyncRuns.Run(c, auto, New(bits), xs);
            var was, now := |s.m.cells|, |SyncRuns.Step(c, auto, s, x).m.cells|;
            now == match x
                   case Resize(n) => if was < Pow2(CeilBits(n)) then Pow2(CeilBits(n)) else was
                   case Do(op) => if op.OpInsert? && auto && 4 * s.m.count > 12 * was then 2 * was else was
  {
    hide SyncRuns.Run, SyncOk, CeilBits, Pow2, R.InsertAt, ApplyAll, R.Remove, Crowded, Sized, InCells, Grow;
    RunOk(c, auto, bits, xs);
    var s := SyncRuns.Run(c, auto, New(bits), xs);
    SyncShape(c, Ops(xs), s);
    match x
    case Resize(n) => GrowSize(c, Ops(xs), s, n);
    case Do(op) =>
      if op.OpInsert? {
        CrowdedIs(s);
        if auto && Crowded(s) {
          GrowSize(c, Ops(xs), s, 2 * |s.m.cells|);
          Doubles(s);
        }
        InsertSize(c, AutoGrow(c, s, auto), op);
      } else {
        SyncSpec.StepInCells(c, s, op);
      }
  }

  lemma CrowdedIs(s: Sync)
    ensures Crowded(s) <==> 4 * s.m.count > 12 * |s.m.cells|
  {}

  lemma Doubles(s: Sync)
    requires Sized(s)
    ensures Pow2(CeilBits(2 * |s.m.cells|)) == 2 * |s.m.cells| && |s.m.cells| >= 1
  {
    CeilDouble(s.m.bits);
  }

  lemma InsertSize(c: Config, s: Sync, op: R.Op)
    requires Sized(s) && InCells(s.m.cells, s.queue) && op.OpInsert?
    ensures |Insert(c, s, op.kv, op.ttl).m.cells| == |s.m.cells|
  {
    SyncSpec.StepInCells(c, s, op);
    InsertStep(c, s, op);
  }

  lemma GrowSize(c: Config, ops: seq<R.Op>, s: Sync, n: nat)
    requires SyncOk(c, ops, s)
    ensures |Grow(c, s, n).m.cells| == if |s.m.cells| < Pow2(CeilBits(n)) then Pow2(CeilBits(n)) else |s.m.cells|
    ensures |Grow(c, s, n).m.cells| != |s.m.cells| ==> Grow(c, s, n).queue == []
  {
    hide R.MapOk, N.Occupied, CeilBits, H.PlaceAll, H.Items;
    if Pow2(s.m.bits) < Pow2(CeilBits(n)) {
      SmallerBits(s.m.bits, CeilBits(n));
      GrownOk(c, ops, s.m, CeilBits(n));
    }
  }

  /** A step that enlarges the table leaves no event queued. */
  lemma GrowthEmptiesQueue(c: Config, auto: bool, bits: nat, xs: seq<Event>, x: Event)
    ensures var s := SyncRuns.Run(c, auto, New(bits), xs);
            |SyncRuns.Step(c, auto, s, x).m.cells| != |s.m.cells| ==> SyncRuns.Step(c, auto, s, x).queue == []
  {
    hide SyncRuns.Run, SyncOk, CeilBits, Pow2, R.InsertAt, ApplyAll, R.Remove, Crowded, Sized, InCells, Grow;
    RunOk(c, auto, bits, xs);
    var s := SyncRuns.Run(c, auto, New(bits), xs);
    SyncShape(c, Ops(xs), s);
    match x
    case Resize(n) => GrowSize(c, Ops(xs), s, n);
    case Do(op) =>
      if op.OpInsert? {
        if auto && Crowded(s) { GrowSize(c, Ops(xs), s, 2 * |s.m.cells|); }
        InsertSize(c, AutoGrow(c, s, auto), op);
      } else {
        SyncSpec.StepInCells(c, s, op);
      }
  }

  /** Event `l` was recorded at step `n`, by a hit on the cell it names, under the present bucket count. */
  ghost predicate RecordedAt(c: Config, auto: bool, bits: nat, xs: seq<Event>, n: nat, l: Loc)
    requires n < |xs|
  {
    var q, s := SyncRuns.Run(c, auto, New(bits), xs[..n]), SyncRuns.Run(c, auto, New(bits), xs);
    && xs[n].Do? && xs[n].op.OpGet? && R.Peek(c, q.m, xs[n].op.key).Some?
    && Names(q.m.cells, l, xs[n].op.key) && |q.m.cells| == |s.m.cells|
  }

  /** Every queued event of a history was recorded by a hit under the present bucket count, never before a resize. */
  lemma {:induction false} QueueIsRecent(c: Config, auto: bool, bits: nat, xs: seq<Event>, l: Loc)
    requires l in SyncRuns.Run(c, auto, New(bits), xs).queue
    ensures exists n :: 0 <= n < |xs| && RecordedAt(c, auto, bits, xs, n, l)
    decreases |xs|
  {
    hide SyncRuns.Step, Sized, InCells, R.Peek, Get;
    if xs != [] {
      var m := |xs| - 1;
      var q, s := SyncRuns.Run(c, auto, New(bits), xs[..m]), SyncRuns.Run(c, auto, New(bits), xs);
      GrowthEmptiesQueue(c, auto, bits, xs[..m], xs[m]);
      StepQueue(c, auto, q, xs[m]);
      if l in q.queue {
        QueueIsRecent(c, auto, bits, xs[..m], l);
        var n :| 0 <= n < m && RecordedAt(c, auto, bits, xs[..m], n, l);
        assert xs[..m][..n] == xs[..n];
        assert RecordedAt(c, auto, bits, xs, n, l);
      } else {
        GetQueues(c, q, xs[m].op.key);
        StepGet(c, auto, q, xs[m]);
        assert xs[..m] == xs[..m];
        assert RecordedAt(c, auto, bits, xs, m, l);
      }
    }
  }

  lemma StepGet(c: Config, auto: bool, s: Sync, x: Event)
    requires Sized(s) && InCells(s.m.cells, s.queue) && x.Do? && x.op.OpGet?
    ensures SyncRuns.Step(c, auto, s, x) == Get(c, s, x.op.key)
  {}

  /** Only a `get` adds events. */
  lemma StepQueue(c: Config, auto: bool, s: Sync, x: Event)
    requires Sized(s) && InCells(s.m.cells, s.queue)
    ensures forall l :: l in SyncRuns.Step(c, auto, s, x).queue && l !in s.queue ==> x.Do? && x.op.OpGet?
    ensures |SyncRuns.Step(c, auto, s, x).queue| > |s.queue| ==> x.Do? && x.op.OpGet?
    ensures |s.queue| <= 4096 ==> |SyncRuns.Step(c, auto, s, x).queue| <= 4096
  {
    hide R.InsertAt, ApplyAll, R.Remove, R.Peek, R.FindIn, H.PlaceAll, H.Items, CeilBits, Crowded, InCells;
  }

  /** The queue never holds more than 4096 events. */
  lemma {:induction false} QueueBounded(c: Config, auto: bool, bits: nat, xs: seq<Event>)
    ensures |SyncRuns.Run(c, auto, New(bits), xs).queue| <= 4096
    decreases |xs|
  {
    hide SyncRuns.Step, Sized, InCells;
    if xs != [] {
      QueueBounded(c, auto, bits, xs[..|xs| - 1]);
      StepQueue(c, auto, SyncRuns.Run(c, auto, New(bits), xs[..|xs| - 1]), xs[|xs| - 1]);
    }
  }

  // ---------------------------------------------------------------------
  // set_ttl and the counters
  // ---------------------------------------------------------------------

  /** The default TTL in force is the argument of the last `set_ttl`, across any resizes. */
  lemma DefaultIsLast(c: Config, auto: bool, bits: nat, xs: seq<Event>)
    ensures SyncRuns.Run(c, auto, New(bits), xs).m.dflt == R.LastTtl(Ops(xs))
  {
    hide SyncRuns.Run, R.LastTtl, R.BucketOk;
    RunOk(c, auto, bits, xs);
  }

  /** Inserts of a history that found their key resident. */
  function Updates(c: Config, auto: bool, bits: nat, xs: seq<Event>): nat
    decreases |xs|
  {
    if xs == [] then 0
    else
      var n := |xs| - 1;
      Updates(c, auto, bits, xs[..n]) +
      (if xs[n].Do? && xs[n].op.OpInsert? && R.FindIn(c, SyncRuns.Run(c, auto, New(bits), xs[..n]).m, xs[n].op.kv.key).Some? then 1 else 0)
  }

  function Removes(c: Config, auto: bool, bits: nat, xs: seq<Event>): nat
    decreases |xs|
  {
    if xs == [] then 0
    else
      var n := |xs| - 1;
      Removes(c, auto, bits, xs[..n]) +
      (if xs[n].Do? && xs[n].op.OpRemove? && R.FindIn(c, SyncRuns.Run(c, auto, New(bits), xs[..n]).m, xs[n].op.key).Some? then 1 else 0)
  }

  /** How one step moves the length and eviction counters. */
  lemma StepBalance(c: Config, auto: bool, ops: seq<R.Op>, s: Sync, x: Event)
    requires SyncOk(c, ops, s)
    ensures Sized(s) && InCells(s.m.cells, s.queue)
    ensures var m, m' := s.m, SyncRuns.Step(c, auto, s, x).m;
            m'.count + m'.evictions == m.count + m.evictions
            + (if x.Do? && x.op.OpInsert? && R.FindIn(c, m, x.op.kv.key).None? then 1 else 0)
            - (if x.Do? && x.op.OpRemove? && R.FindIn(c, m, x.op.key).Some? then 1 else 0)
  {
    hide SyncOk, R.FindIn, Grow, Insert, Crowded, R.At, Sized, InCells;
    SyncShape(c, ops, s);
    match x
    case Resize(n) => GrowCounts(c, ops, s, n);
    case Do(op) =>
      if op.OpInsert? {
        var n := 2 * |s.m.cells|;
        if auto && Crowded(s) { GrowCounts(c, ops, s, n); GrowFindSame(c, ops, s, n, op.kv.key); }
        InsertCounts(c, AutoGrow(c, s, auto), op.kv, op.ttl);
      }
  }

  lemma GrowCounts(c: Config, ops: seq<R.Op>, s: Sync, n: nat)
    requires SyncOk(c, ops, s)
    ensures Grow(c, s, n).m.count == s.m.count && Grow(c, s, n).m.evictions == s.m.evictions
  {
    hide R.BucketOk, H.PlaceAll, H.Items, N.Occupied, CeilBits;
    H.ItemsCount(s.m.cells);
  }

  lemma GrowFindSame(c: Config, ops: seq<R.Op>, s: Sync, n: nat, key: Bytes)
    requires SyncOk(c, ops, s)
    ensures R.FindIn(c, Grow(c, s, n).m, key).Some? == R.FindIn(c, s.m, key).Some?
  {
    hide IndexOf, H.PlaceAll, H.Items, R.FromHistory, N.Occupied, CeilBits, R.BucketOk;
    if R.FindIn(c, s.m, key).Some? {
      GrowKeepsFind(c, ops, s, n, key);
    } else if Pow2(s.m.bits) < Pow2(CeilBits(n)) {
      SmallerBits(s.m.bits, CeilBits(n));
      MapPlaced(c, ops, s.m);
      H.GrowthKeepsItems(c, s.m, CeilBits(n));
      var m' := H.Grown(c, s.m, CeilBits(n));
      if R.FindIn(c, m', key).Some? {
        var b := R.At(c, m', key);
        FindHolds(m'.cells[b], key);
        var it := H.ItemOf(m'.cells[b][R.FindIn(c, m', key).value].e);
        assert H.Present(m'.cells, b, it);
        HasOf(m'.cells, b, it);
        H.KeyFound(c, s.m, key, it);
      }
    }
  }

  lemma InsertCounts(c: Config, s: Sync, kv: KV, ttl: nat)
    requires Sized(s) && InCells(s.m.cells, s.queue)
    ensures var m, m' := s.m, Insert(c, s, kv, ttl).m;
            m'.count + m'.evictions == m.count + m.evictions + (if R.FindIn(c, m, kv.key).None? then 1 else 0)
  {
    hide R.At, ApplyAll, UpdateAt, FreshAt, SyncTarget, InCells, R.FindIn;
    DrainKeepsFind(c, s, kv.key);
  }

  /** Conservation over histories with resizes: every insert is an update, an eviction, a later remove or still in the map. */
  lemma {:induction false} InsertsBalance(c: Config, auto: bool, bits: nat, xs: seq<Event>)
    ensures var m := SyncRuns.Run(c, auto, New(bits), xs).m;
            && m.count == N.Occupied(m.cells)
            && R.Inserts(Ops(xs)) == Updates(c, auto, bits, xs) + m.evictions + Removes(c, auto, bits, xs) + m.count
    decreases |xs|
  {
    hide SyncRuns.Step, SyncOk, R.FindIn, N.Occupied, Sized, InCells;
    RunOk(c, auto, bits, xs);
    assert SyncRuns.Run(c, auto, New(bits), xs).m.count == N.Occupied(SyncRuns.Run(c, auto, New(bits), xs).m.cells) by { SyncCount(c, Ops(xs), SyncRuns.Run(c, auto, New(bits), xs)); }
    if xs != [] {
      var n := |xs| - 1;
      InsertsBalance(c, auto, bits, xs[..n]);
      RunOk(c, auto, bits, xs[..n]);
      StepBalance(c, auto, Ops(xs[..n]), SyncRuns.Run(c, auto, New(bits), xs[..n]), xs[n]);
      if xs[n].Do? { R.InsertsGrow(Ops(xs[..n]), xs[n].op); }
      assert Ops(xs[..n]) + [] == Ops(xs[..n]);
    }
  }

  lemma SyncCount(c: Config, ops: seq<R.Op>, s: Sync)
    requires SyncOk(c, ops, s)
    ensures s.m.count == N.Occupied(s.m.cells)
  {}
}

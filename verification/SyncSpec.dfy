/**
 The concurrent map (src/sync.rs) used by one thread, as functions on cells and the queue
 of deferred access events, and the proof that deferring changes nothing a caller or the
 eviction policy can see.
 */
module SyncSpec {
  import opened Base
  import opened Hashing
  import opened Cells
  import R = RawSpec
  import S = Scan

  /** Deferred accesses, oldest first. */
  datatype Sync = Sync(m: R.Map, queue: seq<Loc>)

  const DRAIN_BATCH: nat := 64
  const RING_CAPACITY: nat := 4096

  predicate Sized(s: Sync) { R.Sized(s.m) }

  predicate InCells(cells: seq<Bucket>, queue: seq<Loc>) {
    forall k :: 0 <= k < |queue| ==> queue[k].b < |cells| && queue[k].i < 4
  }

  /** Apply queued accesses in order. */
  function ApplyAll(cells: seq<Bucket>, queue: seq<Loc>): (out: seq<Bucket>)
    requires InCells(cells, queue)
    ensures |out| == |cells|
    decreases |queue|
  {
    if queue == [] then cells
    else
      var n := |queue| - 1;
      var mid := ApplyAll(cells, queue[..n]);
      mid[queue[n].b := Touch(mid[queue[n].b], queue[n].i)]
  }

  function Batch(queue: seq<Loc>): nat { if |queue| < DRAIN_BATCH then |queue| else DRAIN_BATCH }

  /** The drain at the start of an insert. */
  function Drained(s: Sync): (s': Sync)
    requires Sized(s) && InCells(s.m.cells, s.queue)
    ensures Sized(s')
  {
    Sync(s.m.(cells := ApplyAll(s.m.cells, s.queue[..Batch(s.queue)])), s.queue[Batch(s.queue)..])
  }

  /** `insert_internal` after its drain; unlike the raw map it takes a vacant slot or the victim. */
  function Put(c: Config, m: R.Map, kv: KV, ttl: nat): (m': R.Map)
    requires R.Sized(m)
    ensures R.Sized(m') && |m'.cells| == |m.cells|
  {
    R.InsertAt(c, m, kv, ttl, SyncTarget(m.cells[R.At(c, m, kv.key)]))
  }

  function Insert(c: Config, s: Sync, kv: KV, ttl: nat): (s': Sync)
    requires Sized(s) && InCells(s.m.cells, s.queue)
    ensures Sized(s')
  {
    var d := Drained(s);
    Sync(Put(c, d.m, kv, ttl), d.queue)
  }

  function Get(c: Config, s: Sync, key: Bytes): (s': Sync)
    requires Sized(s)
    ensures Sized(s')
  {
    if R.Peek(c, s.m, key).None? || |s.queue| >= RING_CAPACITY then s
    else s.(queue := s.queue + [Loc(R.At(c, s.m, key), R.FindIn(c, s.m, key).value)])
  }

  function Step(c: Config, s: Sync, op: R.Op): (s': Sync)
    requires Sized(s) && InCells(s.m.cells, s.queue)
    ensures Sized(s')
  {
    match op
    case OpInsert(kv, ttl) => Insert(c, s, kv, ttl)
    case OpGet(key) => Get(c, s, key)
    case OpPeek(key) => s
    case OpRemove(key) => s.(m := R.Remove(c, s.m, key))
    case OpSetTtl(d) => s.(m := s.m.(dflt := d))
  }

  lemma StepInCells(c: Config, s: Sync, op: R.Op)
    requires Sized(s) && InCells(s.m.cells, s.queue)
    ensures InCells(Step(c, s, op).m.cells, Step(c, s, op).queue) && |Step(c, s, op).m.cells| == |s.m.cells|
  {
    hide IndexOf, Find, Touch, SyncTarget, ApplyAll;
    if op.OpGet? { FindHolds(s.m.cells[R.At(c, s.m, op.key)], op.key); }
  }

  function Run(c: Config, s: Sync, ops: seq<R.Op>): (s': Sync)
    requires Sized(s) && InCells(s.m.cells, s.queue)
    ensures Sized(s') && InCells(s'.m.cells, s'.queue)
    decreases |ops|
  {
    if ops == [] then s
    else
      var prev := Run(c, s, ops[..|ops| - 1]);
      StepInCells(c, prev, ops[|ops| - 1]);
      Step(c, prev, ops[|ops| - 1])
  }

  // ---------------------------------------------------------------------
  // Deferred tracking simulates inline tracking
  // ---------------------------------------------------------------------

  /** Cells that differ at most in their access counters. */
  ghost predicate SameEntry(x: Cell, y: Cell) {
    x.Held? == y.Held? && (x.Held? ==> y.e == x.e.(freq := y.e.freq, rec := y.e.rec))
  }

  ghost predicate SameEntries(x: Bucket, y: Bucket) { forall i :: 0 <= i < 4 ==> SameEntry(x[i], y[i]) }

  lemma TouchSame(bk: Bucket, i: nat)
    ensures SameEntries(bk, Touch(bk, i))
  {}

  lemma {:induction false} ApplySame(cells: seq<Bucket>, queue: seq<Loc>, b: nat)
    requires InCells(cells, queue) && b < |cells|
    ensures SameEntries(cells[b], ApplyAll(cells, queue)[b])
    decreases |queue|
  {
    hide Touch;
    if queue != [] {
      var n := |queue| - 1;
      ApplySame(cells, queue[..n], b);
      TouchSame(ApplyAll(cells, queue[..n])[queue[n].b], queue[n].i);
    }
  }

  lemma FindSame(x: Bucket, y: Bucket, key: Bytes)
    requires SameEntries(x, y)
    ensures Find(x, key) == Find(y, key)
  {}

  /** A pending event and a remove can be swapped. */
  lemma TouchRemove(bk: Bucket, i: nat, j: nat)
    requires j < 4
    ensures Touch(bk[j := Vacant], i) == Touch(bk, i)[j := Vacant]
  {}

  lemma {:induction false} ApplyRemove(cells: seq<Bucket>, queue: seq<Loc>, b: nat, j: nat)
    requires InCells(cells, queue) && b < |cells| && j < 4
    ensures ApplyAll(cells[b := cells[b][j := Vacant]], queue) ==
            ApplyAll(cells, queue)[b := ApplyAll(cells, queue)[b][j := Vacant]]
    decreases |queue|
  {
    hide Touch;
    if queue != [] {
      var n := |queue| - 1;
      ApplyRemove(cells, queue[..n], b, j);
      TouchRemove(ApplyAll(cells, queue[..n])[b], queue[n].i, j);
    }
  }

  /** The raw map is the concurrent one with its pending events applied. */
  ghost predicate Simulates(r: R.Map, s: Sync) {
    && Sized(s) && InCells(s.m.cells, s.queue)
    && r == s.m.(cells := ApplyAll(s.m.cells, s.queue))
    && S.TtlOff(r) && |s.queue| <= DRAIN_BATCH
  }

  lemma PeekSame(c: Config, r: R.Map, s: Sync, key: Bytes)
    requires Simulates(r, s)
    ensures R.FindIn(c, r, key) == R.FindIn(c, s.m, key) && R.Peek(c, r, key) == R.Peek(c, s.m, key)
  {
    hide IndexOf, Find, Expired, ApplyAll;
    var b := R.At(c, r, key);
    ApplySame(s.m.cells, s.queue, b);
    FindSame(s.m.cells[b], r.cells[b], key);
    FindHolds(s.m.cells[b], key);
  }

  lemma TargetSame(bk: Bucket, now: nat, dflt: nat)
    requires dflt == 0 && S.NoExpiryIn(bk)
    ensures RawTarget(bk, now, dflt) == SyncTarget(bk)
  {
    hide Expired, Victim;
    S.NothingGone(bk, now, dflt);
  }

  lemma SimulateInsert(c: Config, r: R.Map, s: Sync, kv: KV, ttl: nat)
    requires Simulates(r, s) && (ttl == 0 || ttl == U64_MAX)
    ensures Simulates(R.Insert(c, r, kv, ttl), Insert(c, s, kv, ttl))
    ensures Insert(c, s, kv, ttl).queue == [] && Drained(s).m.cells == r.cells
  {
    hide IndexOf, Find, Expired, ApplyAll, RawTarget, SyncTarget, UpdateAt, FreshAt, Wrap64;
    assert s.queue[..|s.queue|] == s.queue;
    var b := R.At(c, r, kv.key);
    TargetSame(r.cells[b], R.Next(r.epoch), r.dflt);
    var s' := Insert(c, s, kv, ttl);
    assert s'.m == R.Insert(c, r, kv, ttl);
    NoEvents(s'.m.cells);
    InsertTtlOff(c, r, kv, ttl);
  }

  lemma NoEvents(cells: seq<Bucket>)
    ensures ApplyAll(cells, []) == cells
  {}

  lemma InsertTtlOff(c: Config, r: R.Map, kv: KV, ttl: nat)
    requires R.Sized(r) && S.TtlOff(r) && (ttl == 0 || ttl == U64_MAX)
    ensures S.TtlOff(R.Insert(c, r, kv, ttl))
  {
    hide IndexOf, Find, RawTarget, Wrap64, Touch;
    var b := R.At(c, r, kv.key);
    if R.FindIn(c, r, kv.key).Some? {
      FindHolds(r.cells[b], kv.key);
      S.NoExpiryTouch(r.cells[b], R.FindIn(c, r, kv.key).value);
    }
  }

  lemma SimulateGet(c: Config, r: R.Map, s: Sync, key: Bytes)
    requires Simulates(r, s)
    requires |s.queue| < DRAIN_BATCH || R.Peek(c, r, key).None?
    ensures Simulates(R.Get(c, r, key), Get(c, s, key))
  {
    hide IndexOf, Find, Expired, Touch;
    PeekSame(c, r, s, key);
    if R.Peek(c, r, key).Some? {
      var b, i := R.At(c, r, key), R.FindIn(c, r, key).value;
      FindHolds(s.m.cells[b], key);
      var q := s.queue + [Loc(b, i)];
      assert q[..|s.queue|] == s.queue;
      S.NoExpiryTouch(r.cells[b], i);
    }
  }

  lemma SimulateRemove(c: Config, r: R.Map, s: Sync, key: Bytes)
    requires Simulates(r, s)
    ensures Simulates(R.Remove(c, r, key), s.(m := R.Remove(c, s.m, key)))
  {
    hide IndexOf, Find, Expired, ApplyAll;
    PeekSame(c, r, s, key);
    var b, f := R.At(c, r, key), R.FindIn(c, r, key);
    FindHolds(s.m.cells[b], key);
    if f.Some? { ApplyRemove(s.m.cells, s.queue, b, f.value); }
  }

  /** Read hits since the last insert, in the raw run. */
  function Gap(c: Config, m: R.Map, ops: seq<R.Op>): nat
    requires R.Sized(m)
    decreases |ops|
  {
    if ops == [] then 0
    else
      var n := |ops| - 1;
      if ops[n].OpInsert? then 0
      else Gap(c, m, ops[..n]) + if ops[n].OpGet? && R.Peek(c, R.Run(c, m, ops[..n]), ops[n].key).Some? then 1 else 0
  }

  /** TTL stays off, and no insert-free stretch has more than 64 read hits. */
  ghost predicate Gentle(c: Config, m: R.Map, ops: seq<R.Op>)
    requires R.Sized(m)
  {
    && (forall k :: 0 <= k < |ops| ==> !ops[k].OpSetTtl? && (ops[k].OpInsert? ==> ops[k].ttl == 0 || ops[k].ttl == U64_MAX))
    && (forall n :: 0 <= n <= |ops| ==> Gap(c, m, ops[..n]) <= DRAIN_BATCH)
  }

  /**
   Deferring is invisible: over any gentle run every lookup answers as in the raw map,
   and the raw map's state is the concurrent map's with the pending events applied.  So
   right after the drain of an insert both hold the same entries with the same counters
   and pick the same victim.
   */
  lemma {:induction false} DeferredSimulatesInline(c: Config, bits: nat, ops: seq<R.Op>)
    requires Gentle(c, R.NewMap(bits), ops)
    ensures var r, s := R.Run(c, R.NewMap(bits), ops), Run(c, Sync(R.NewMap(bits), []), ops);
            && Simulates(r, s) && |s.queue| == Gap(c, R.NewMap(bits), ops)
            && forall key :: R.Peek(c, r, key) == R.Peek(c, s.m, key)
    decreases |ops|
  {
    hide Simulates, R.Peek, R.Insert, R.Get, R.Remove, Insert, Get, R.Remove;
    var m0, s0 := R.NewMap(bits), Sync(R.NewMap(bits), []);
    if ops == [] {
      StartSimulates(bits);
    } else {
      var n := |ops| - 1;
      var r, s := R.Run(c, m0, ops[..n]), Run(c, s0, ops[..n]);
      assert forall k :: 0 <= k <= n ==> ops[..n][..k] == ops[..k];
      assert forall k :: 0 <= k < n ==> ops[..n][k] == ops[k];
      DeferredSimulatesInline(c, bits, ops[..n]);
      assert ops[..|ops|] == ops;
      SimulateStep(c, r, s, ops[n], Gap(c, m0, ops));
    }
    var r, s := R.Run(c, m0, ops), Run(c, s0, ops);
    forall key ensures R.Peek(c, r, key) == R.Peek(c, s.m, key) { PeekSame(c, r, s, key); }
  }

  lemma StartSimulates(bits: nat)
    ensures Simulates(R.NewMap(bits), Sync(R.NewMap(bits), []))
  {
    hide Pow2;
  }

  lemma SimulateStep(c: Config, r: R.Map, s: Sync, op: R.Op, gap: nat)
    requires Simulates(r, s) && !op.OpSetTtl? && (op.OpInsert? ==> op.ttl == 0 || op.ttl == U64_MAX)
    requires gap <= DRAIN_BATCH
    requires gap == if op.OpInsert? then 0
                    else |s.queue| + if op.OpGet? && R.Peek(c, r, op.key).Some? then 1 else 0
    ensures Simulates(R.Step(c, r, op), Step(c, s, op)) && |Step(c, s, op).queue| == gap
  {
    hide R.Insert, R.Remove, Insert, Expired, ApplyAll, IndexOf, Find, S.TtlOff;
    match op
    case OpInsert(kv, ttl) => SimulateInsert(c, r, s, kv, ttl);
    case OpGet(key) => PeekSame(c, r, s, key); SimulateGet(c, r, s, key);
    case OpRemove(key) => SimulateRemove(c, r, s, key);
    case OpPeek(_) =>
  }
}

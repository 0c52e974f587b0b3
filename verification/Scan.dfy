/**
 Scan resistance of the raw map with TTL off: however many one-shot keys stream through,
 a bucket loses at most one entry that was ever hit.
 */
module Scan {
  import opened Base
  import opened Hashing
  import opened Cells
  import opened RawSpec

  predicate NoExpiryIn(bk: Bucket) { forall i :: 0 <= i < 4 && bk[i].Held? ==> bk[i].e.ttl == 0 || bk[i].e.ttl == U64_MAX }

  /** TTL is off: no default, and no entry carries a finite one. */
  ghost predicate TtlOff(m: Map) {
    m.dflt == 0 && forall b :: 0 <= b < |m.cells| ==> NoExpiryIn(m.cells[b])
  }

  /** Keys a history inserts. */
  function Scanned(ops: seq<Op>): set<Bytes> {
    set k | 0 <= k < |ops| && ops[k].OpInsert? :: ops[k].kv.key
  }

  /** A scan: distinct keys, not resident before, never read; older keys may be read, any key removed. */
  ghost predicate IsScan(c: Config, m: Map, ops: seq<Op>)
    requires Sized(m)
  {
    && (forall k :: 0 <= k < |ops| && ops[k].OpInsert? ==>
          FindIn(c, m, ops[k].kv.key).None? && (ops[k].ttl == 0 || ops[k].ttl == U64_MAX))
    && (forall j, k :: 0 <= j < k < |ops| && ops[j].OpInsert? && ops[k].OpInsert? ==> ops[j].kv.key != ops[k].kv.key)
    && (forall k :: 0 <= k < |ops| && ops[k].OpGet? ==> ops[k].key !in Scanned(ops))
    && (forall k :: 0 <= k < |ops| ==> !ops[k].OpSetTtl?)
  }

  /** Does this step push an entry that was ever hit out of bucket `b`? */
  predicate EvictsHot(c: Config, m: Map, op: Op, b: nat)
    requires Sized(m)
  {
    && op.OpInsert? && At(c, m, op.kv.key) == b && FindIn(c, m, op.kv.key).None?
    && var cell := m.cells[b][RawTarget(m.cells[b], Next(m.epoch), m.dflt)]; cell.Held? && cell.e.freq >= 1
  }

  function HotEvictions(c: Config, m: Map, ops: seq<Op>, b: nat): nat
    requires Sized(m)
    decreases |ops|
  {
    if ops == [] then 0
    else
      var n := |ops| - 1;
      HotEvictions(c, m, ops[..n], b) + if EvictsHot(c, Run(c, m, ops[..n]), ops[n], b) then 1 else 0
  }

  /** A cell that goes before any entry that was hit: vacant, or a scanned key nobody read. */
  predicate ColdCell(cell: Cell, scan: set<Bytes>) {
    cell.Vacant? || (cell.e.key in scan && cell.e.freq == 0 && cell.e.rec <= 1)
  }

  predicate Cold(bk: Bucket, scan: set<Bytes>) {
    ColdCell(bk[0], scan) || ColdCell(bk[1], scan) || ColdCell(bk[2], scan) || ColdCell(bk[3], scan)
  }

  /** With a cold cell in the bucket the next insert takes a vacant slot or an entry never hit. */
  lemma ColdGoesFirst(bk: Bucket, now: nat, dflt: nat, scan: set<Bytes>)
    requires Cold(bk, scan) && dflt == 0 && NoExpiryIn(bk)
    ensures var cell := bk[RawTarget(bk, now, dflt)]; cell.Held? ==> cell.e.freq == 0
  {
    hide WrappingSub;
    if !AllHeld(bk) {
      assert GoneFrom(bk, now, dflt, 0).Some?;
    } else {
      NothingGone(bk, now, dflt);
      var v := Victim(bk);
      assert bk[v].e.Priority() <= 1;
    }
  }

  lemma NothingGone(bk: Bucket, now: nat, dflt: nat)
    requires dflt == 0 && NoExpiryIn(bk)
    ensures forall i :: 0 <= i < 4 && bk[i].Held? ==> !Gone(bk[i], now, dflt)
  {
    hide WrappingSub;
  }

  lemma ColdTouch(bk: Bucket, i: nat, scan: set<Bytes>)
    requires Cold(bk, scan) && i < 4 && bk[i].Held? && bk[i].e.key !in scan
    ensures Cold(Touch(bk, i), scan)
  {}

  lemma NoExpiryTouch(bk: Bucket, i: nat)
    requires NoExpiryIn(bk)
    ensures NoExpiryIn(Touch(bk, i))
  {}

  /** One step of a scan, for one bucket. */
  lemma ScanStep(c: Config, m: Map, op: Op, b: nat, scan: set<Bytes>)
    requires Sized(m) && b < |m.cells| && TtlOff(m)
    requires op.OpInsert? ==> FindIn(c, m, op.kv.key).None? && op.kv.key in scan && (op.ttl == 0 || op.ttl == U64_MAX)
    requires op.OpGet? ==> op.key !in scan
    requires !op.OpSetTtl?
    ensures var m' := Step(c, m, op);
            && TtlOff(m') && |m'.cells| == |m.cells| && m'.bits == m.bits
            && (Cold(m.cells[b], scan) ==> Cold(m'.cells[b], scan) && !EvictsHot(c, m, op, b))
            && (op.OpInsert? && At(c, m, op.kv.key) == b ==> Cold(m'.cells[b], scan))
            && ((op.OpInsert? && At(c, m, op.kv.key) == b) || !EvictsHot(c, m, op, b))
  {
    hide IndexOf, Expired, Touch, RawTarget, Wrap64, Cold, Find;
    var m' := Step(c, m, op);
    match op
    case OpInsert(kv, ttl) =>
      var x := At(c, m, kv.key);
      var bk := m.cells[x];
      var i := RawTarget(bk, Next(m.epoch), m.dflt);
      ColdFresh(bk, i, kv, Ttl(Next(m.epoch), ttl), scan);
      if x == b && Cold(bk, scan) { ColdGoesFirst(bk, Next(m.epoch), m.dflt, scan); }
    case OpGet(key) =>
      if Peek(c, m, key).Some? {
        var x, i := At(c, m, key), FindIn(c, m, key).value;
        NoExpiryTouch(m.cells[x], i);
        FindHolds(m.cells[x], key);
        if x == b && Cold(m.cells[b], scan) { ColdTouch(m.cells[b], i, scan); }
      }
    case OpRemove(key) =>
      if FindIn(c, m, key).Some? {
        FindHolds(m.cells[At(c, m, key)], key);
        ColdRemove(m.cells[At(c, m, key)], FindIn(c, m, key).value, scan);
      }
    case OpPeek(key) =>
  }

  lemma ColdFresh(bk: Bucket, i: nat, kv: KV, t: Ttl, scan: set<Bytes>)
    requires i < 4 && kv.key in scan
    ensures Cold(FreshAt(bk, i, kv, t), scan)
  {}

  lemma ColdRemove(bk: Bucket, i: nat, scan: set<Bytes>)
    requires i < 4
    ensures Cold(bk[i := Vacant], scan)
  {}

  /** A key that is not inserted does not become resident. */
  lemma StaysAbsent(c: Config, m: Map, op: Op, key: Bytes)
    requires Sized(m) && FindIn(c, m, key).None? && (op.OpInsert? ==> op.kv.key != key)
    ensures FindIn(c, Step(c, m, op), key).None?
  {
    hide IndexOf, Expired, Touch, RawTarget, Wrap64;
    var m' := Step(c, m, op);
    var b := At(c, m, key);
    assert m'.bits == m.bits;
    match op
    case OpInsert(kv, ttl) =>
      if FindIn(c, m, kv.key).Some? { TouchKeys(m.cells[At(c, m, kv.key)], FindIn(c, m, kv.key).value); }
    case OpGet(k) =>
      if Peek(c, m, k).Some? { TouchKeys(m.cells[At(c, m, k)], FindIn(c, m, k).value); }
    case _ =>
  }

  lemma {:induction false} RunStaysAbsent(c: Config, m: Map, ops: seq<Op>, key: Bytes)
    requires Sized(m) && FindIn(c, m, key).None?
    requires forall k :: 0 <= k < |ops| && ops[k].OpInsert? ==> ops[k].kv.key != key
    ensures FindIn(c, Run(c, m, ops), key).None?
    decreases |ops|
  {
    hide FindIn, Step;
    if ops != [] {
      var n := |ops| - 1;
      RunStaysAbsent(c, m, ops[..n], key);
      StaysAbsent(c, Run(c, m, ops[..n]), ops[n], key);
    }
  }

  predicate Touches(c: Config, m: Map, ops: seq<Op>, b: nat)
    requires Sized(m)
  {
    exists k :: 0 <= k < |ops| && ops[k].OpInsert? && At(c, m, ops[k].kv.key) == b
  }

  lemma {:induction false} ScanInvariant(c: Config, m: Map, ops: seq<Op>, all: seq<Op>, b: nat)
    requires Sized(m) && TtlOff(m) && b < |m.cells| && IsScan(c, m, all) && ops <= all
    ensures var m' := Run(c, m, ops);
            && TtlOff(m') && |m'.cells| == |m.cells| && m'.bits == m.bits
            && (if Touches(c, m, ops, b) then Cold(m'.cells[b], Scanned(all)) && HotEvictions(c, m, ops, b) <= 1
                else HotEvictions(c, m, ops, b) == 0)
    decreases |ops|
  {
    hide Step, Cold, EvictsHot, TtlOff, FindIn, IndexOf;
    if ops != [] {
      var n := |ops| - 1;
      var prev, op := Run(c, m, ops[..n]), ops[n];
      ScanInvariant(c, m, ops[..n], all, b);
      assert op == all[n];
      if op.OpInsert? {
        assert forall k :: 0 <= k < n ==> ops[..n][k] == all[k];
        RunStaysAbsent(c, m, ops[..n], op.kv.key);
      }
      ScanStep(c, prev, op, b, Scanned(all));
      assert Touches(c, m, ops[..n], b) ==> Touches(c, m, ops, b) by {
        assert forall k :: 0 <= k < n ==> ops[..n][k] == ops[k];
      }
      assert Touches(c, m, ops, b) && !Touches(c, m, ops[..n], b) ==> op.OpInsert? && At(c, m, op.kv.key) == b by {
        assert forall k :: 0 <= k < n ==> ops[..n][k] == ops[k];
      }
    }
  }

  /**
   From any state with TTL off, any scan, of any length and with any reads of older keys
   and any removes in between, evicts at most one ever-hit entry per bucket.
   */
  lemma ScanResistance(c: Config, m: Map, ops: seq<Op>, b: nat)
    requires Sized(m) && TtlOff(m) && b < |m.cells| && IsScan(c, m, ops)
    ensures HotEvictions(c, m, ops, b) <= 1
  {
    ScanInvariant(c, m, ops, ops, b);
  }
}

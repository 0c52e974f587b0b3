/**
 The raw map (src/raw.rs) as functions on cells, and what whole runs of it promise.
 RawMap proves that the program's methods compute these functions.
 */
module RawSpec {
  import opened Base
  import opened Hashing
  import opened Cells

  datatype Map = Map(bits: nat, cells: seq<Bucket>, epoch: nat, dflt: nat, count: int, evictions: nat)

  function NewMap(bits: nat): Map {
    Map(bits, seq(Pow2(bits), i => [Vacant, Vacant, Vacant, Vacant]), 0, 0, 0, 0)
  }

  predicate Sized(m: Map) { |m.cells| == Pow2(m.bits) }

  function At(c: Config, m: Map, key: Bytes): (b: nat)
    requires Sized(m)
    ensures b < |m.cells|
  {
    IndexOf(c, key, m.bits)
  }

  function FindIn(c: Config, m: Map, key: Bytes): Option<nat>
    requires Sized(m)
  {
    Find(m.cells[At(c, m, key)], key)
  }

  function Next(epoch: nat): nat { Wrap64(epoch + 1) }

  /** An insert that puts a key that is not resident into cell `i` of its bucket. */
  function InsertAt(c: Config, m: Map, kv: KV, ttl: nat, i: nat): (m': Map)
    requires Sized(m) && i < 4
    ensures Sized(m')
  {
    var now, b := Next(m.epoch), At(c, m, kv.key);
    var bk, f := m.cells[b], FindIn(c, m, kv.key);
    if f.Some? then
      m.(epoch := now, cells := m.cells[b := UpdateAt(bk, f.value, kv, Ttl(now, ttl))])
    else
      m.(epoch := now,
         cells := m.cells[b := FreshAt(bk, i, kv, Ttl(now, ttl))],
         count := if bk[i].Held? then m.count else m.count + 1,
         evictions := if bk[i].Held? then m.evictions + 1 else m.evictions)
  }

  function Insert(c: Config, m: Map, kv: KV, ttl: nat): (m': Map)
    requires Sized(m)
    ensures Sized(m')
  {
    InsertAt(c, m, kv, ttl, RawTarget(m.cells[At(c, m, kv.key)], Next(m.epoch), m.dflt))
  }

  /** The answer of `get` and `peek`. */
  function Peek(c: Config, m: Map, key: Bytes): Option<Bytes>
    requires Sized(m)
  {
    var b, f := At(c, m, key), FindIn(c, m, key);
    if f.None? then None
    else
      var e := m.cells[b][f.value].e;
      if Expired(e.epoch, e.ttl, m.epoch, m.dflt) then None else Some(e.value)
  }

  /** The state after `get`: a hit counts as an access. */
  function Get(c: Config, m: Map, key: Bytes): (m': Map)
    requires Sized(m)
    ensures Sized(m')
  {
    var b, f := At(c, m, key), FindIn(c, m, key);
    if Peek(c, m, key).None? then m else m.(cells := m.cells[b := Touch(m.cells[b], f.value)])
  }

  function Remove(c: Config, m: Map, key: Bytes): (m': Map)
    requires Sized(m)
    ensures Sized(m')
  {
    var b, f := At(c, m, key), FindIn(c, m, key);
    if f.None? then m
    else m.(cells := m.cells[b := m.cells[b][f.value := Vacant]], count := m.count - 1)
  }

  // ---------------------------------------------------------------------
  // Runs
  // ---------------------------------------------------------------------

  datatype Op =
    | OpInsert(kv: KV, ttl: nat)
    | OpGet(key: Bytes)
    | OpPeek(key: Bytes)
    | OpRemove(key: Bytes)
    | OpSetTtl(dflt: nat)

  function Step(c: Config, m: Map, op: Op): (m': Map)
    requires Sized(m)
    ensures Sized(m')
  {
    match op
    case OpInsert(kv, ttl) => Insert(c, m, kv, ttl)
    case OpGet(key) => Get(c, m, key)
    case OpPeek(key) => m
    case OpRemove(key) => Remove(c, m, key)
    case OpSetTtl(d) => m.(dflt := d)
  }

  function Run(c: Config, m: Map, ops: seq<Op>): (m': Map)
    requires Sized(m)
    ensures Sized(m')
    decreases |ops|
  {
    if ops == [] then m else Step(c, Run(c, m, ops[..|ops| - 1]), ops[|ops| - 1])
  }

  /** Number of inserts in a history. */
  function Inserts(ops: seq<Op>): (n: nat)
    decreases |ops|
  {
    if ops == [] then 0
    else Inserts(ops[..|ops| - 1]) + (if ops[|ops| - 1].OpInsert? then 1 else 0)
  }

  /** The reference for the default TTL: the last one set, 0 before any. */
  function LastTtl(ops: seq<Op>): nat
    decreases |ops|
  {
    if ops == [] then 0
    else if ops[|ops| - 1].OpSetTtl? then ops[|ops| - 1].dflt
    else LastTtl(ops[..|ops| - 1])
  }

  /** The reference: position of the last insert of a key that no later remove undid. */
  function LastInsert(ops: seq<Op>, key: Bytes): (r: Option<nat>)
    ensures r.Some? ==> r.value < |ops| && ops[r.value].OpInsert? && ops[r.value].kv.key == key
    decreases |ops|
  {
    if ops == [] then None
    else
      var n := |ops| - 1;
      match ops[n]
      case OpInsert(kv, _) => if kv.key == key then Some(n) else LastInsert(ops[..n], key)
      case OpRemove(k) => if k == key then None else LastInsert(ops[..n], key)
      case _ => LastInsert(ops[..n], key)
  }

  /** An entry comes from the last insert of its key, and carries its value, TTL and stamp. */
  ghost predicate FromHistory(ops: seq<Op>, e: Entry) {
    var p := LastInsert(ops, e.key);
    && p.Some?
    && e.value == ops[p.value].kv.value && e.ttl == ops[p.value].ttl
    && e.epoch == Wrap64(Inserts(ops[..p.value + 1]))
  }

  /** Every entry is in the bucket of its key, alone with that key, and comes from the history. */
  ghost predicate BucketOk(c: Config, bits: nat, ops: seq<Op>, b: nat, bk: Bucket) {
    && (forall i :: 0 <= i < 4 && bk[i].Held? ==> IndexOf(c, bk[i].e.key, bits) == b && FromHistory(ops, bk[i].e))
    && (forall i, j :: 0 <= i < j < 4 && bk[i].Held? && bk[j].Held? ==> bk[i].e.key != bk[j].e.key)
  }

  ghost predicate MapOk(c: Config, ops: seq<Op>, m: Map) {
    && Sized(m)
    && m.epoch == Wrap64(Inserts(ops)) && m.dflt == LastTtl(ops)
    && (forall b :: 0 <= b < |m.cells| ==> BucketOk(c, m.bits, ops, b, m.cells[b]))
  }

  lemma LastInsertGrows(ops: seq<Op>, op: Op, key: Bytes)
    requires op.OpInsert? ==> op.kv.key != key
    requires op.OpRemove? ==> op.key != key
    ensures LastInsert(ops + [op], key) == LastInsert(ops, key)
  {
    assert (ops + [op])[..|ops|] == ops;
  }

  /** Operations on other keys leave an entry's provenance alone. */
  lemma HistoryGrows(ops: seq<Op>, op: Op, e: Entry)
    requires FromHistory(ops, e)
    requires op.OpInsert? ==> op.kv.key != e.key
    requires op.OpRemove? ==> op.key != e.key
    ensures FromHistory(ops + [op], e)
  {
    hide Wrap64;
    LastInsertGrows(ops, op, e.key);
    var p := LastInsert(ops, e.key).value;
    assert (ops + [op])[..p + 1] == ops[..p + 1];
  }

  lemma HistoryStarts(ops: seq<Op>, op: Op, e: Entry)
    requires op.OpInsert? && op.kv == KV(e.key, e.value) && op.ttl == e.ttl
    requires e.epoch == Wrap64(Inserts(ops) + 1)
    ensures FromHistory(ops + [op], e)
  {
    hide Wrap64;
    assert (ops + [op])[..|ops|] == ops;
    assert (ops + [op])[..|ops| + 1] == ops + [op];
    assert Inserts(ops + [op]) == Inserts(ops) + 1;
  }

  /** Provenance ignores the access counters. */
  lemma HistoryCounters(ops: seq<Op>, e: Entry, e': Entry)
    requires FromHistory(ops, e) && e' == e.(freq := e'.freq, rec := e'.rec)
    ensures FromHistory(ops, e')
  {}

  lemma NextIs(n: nat)
    ensures Next(Wrap64(n)) == Wrap64(n + 1)
  {}

  /** In every bucket, entries that an operation does not concern stay well placed. */
  lemma BucketGrows(c: Config, bits: nat, ops: seq<Op>, op: Op, b: nat, bk: Bucket)
    requires BucketOk(c, bits, ops, b, bk)
    requires forall i :: 0 <= i < 4 && bk[i].Held? ==>
               (op.OpInsert? ==> op.kv.key != bk[i].e.key) && (op.OpRemove? ==> op.key != bk[i].e.key)
    ensures BucketOk(c, bits, ops + [op], b, bk)
  {
    hide FromHistory;
    forall i | 0 <= i < 4 && bk[i].Held? ensures FromHistory(ops + [op], bk[i].e) { HistoryGrows(ops, op, bk[i].e); }
  }

  /** The bucket an operation works on, its entries possibly re-counted. */
  lemma TouchOk(c: Config, bits: nat, ops: seq<Op>, b: nat, bk: Bucket, i: nat)
    requires BucketOk(c, bits, ops, b, bk)
    ensures BucketOk(c, bits, ops, b, Touch(bk, i))
  {
    hide FromHistory, IndexOf;
    var t := Touch(bk, i);
    forall j | 0 <= j < 4 && t[j].Held? ensures IndexOf(c, t[j].e.key, bits) == b && FromHistory(ops, t[j].e) {
      HistoryCounters(ops, bk[j].e, t[j].e);
    }
  }

  /** Keys of another bucket are other keys. */
  lemma OtherBucket(c: Config, ops: seq<Op>, m: Map, op: Op, key: Bytes, b: nat)
    requires MapOk(c, ops, m) && b < |m.cells| && b != At(c, m, key)
    requires (op.OpInsert? ==> op.kv.key == key) && (op.OpRemove? ==> op.key == key)
    ensures BucketOk(c, m.bits, ops + [op], b, m.cells[b])
  {
    hide FromHistory, IndexOf;
    assert BucketOk(c, m.bits, ops, b, m.cells[b]);
    BucketGrows(c, m.bits, ops, op, b, m.cells[b]);
  }

  lemma InsertsGrow(ops: seq<Op>, op: Op)
    ensures Inserts(ops + [op]) == Inserts(ops) + if op.OpInsert? then 1 else 0
    ensures LastTtl(ops + [op]) == if op.OpSetTtl? then op.dflt else LastTtl(ops)
  {
    assert (ops + [op])[..|ops|] == ops;
  }

  lemma UpdateOk(c: Config, ops: seq<Op>, m: Map, op: Op, i0: nat)
    requires MapOk(c, ops, m) && op.OpInsert? && FindIn(c, m, op.kv.key).Some? && i0 < 4
    ensures MapOk(c, ops + [op], InsertAt(c, m, op.kv, op.ttl, i0))
  {
    hide FromHistory, IndexOf, Wrap64, Touch;
    var kv, b := op.kv, At(c, m, op.kv.key);
    var bk, i := m.cells[b], FindIn(c, m, kv.key).value;
    var m' := InsertAt(c, m, kv, op.ttl, i0);
    NextIs(Inserts(ops));
    InsertsGrow(ops, op);
    assert BucketOk(c, m.bits, ops, b, bk);
    TouchOk(c, m.bits, ops, b, bk, i);
    var t, u := Touch(bk, i), m'.cells[b];
    TouchKeys(bk, i);
    forall j | 0 <= j < 4 && u[j].Held? ensures IndexOf(c, u[j].e.key, m.bits) == b && FromHistory(ops + [op], u[j].e) {
      if j == i { HistoryStarts(ops, op, u[j].e); } else { HistoryGrows(ops, op, t[j].e); }
    }
    forall x | 0 <= x < |m.cells| && x != b ensures BucketOk(c, m.bits, ops + [op], x, m'.cells[x]) {
      OtherBucket(c, ops, m, op, kv.key, x);
    }
  }

  lemma TouchKeys(bk: Bucket, i: nat)
    ensures forall j :: 0 <= j < 4 ==> Touch(bk, i)[j].Held? == bk[j].Held?
    ensures forall j :: 0 <= j < 4 && bk[j].Held? ==>
              Touch(bk, i)[j].e == bk[j].e.(freq := Touch(bk, i)[j].e.freq, rec := Touch(bk, i)[j].e.rec)
  {}

  lemma FreshOk(c: Config, ops: seq<Op>, m: Map, op: Op, i: nat)
    requires MapOk(c, ops, m) && op.OpInsert? && FindIn(c, m, op.kv.key).None? && i < 4
    ensures MapOk(c, ops + [op], InsertAt(c, m, op.kv, op.ttl, i))
  {
    hide FromHistory, IndexOf, Wrap64;
    var kv, b := op.kv, At(c, m, op.kv.key);
    var bk := m.cells[b];
    var m' := InsertAt(c, m, kv, op.ttl, i);
    NextIs(Inserts(ops));
    InsertsGrow(ops, op);
    assert BucketOk(c, m.bits, ops, b, bk);
    var u := m'.cells[b];
    forall j | 0 <= j < 4 && u[j].Held? ensures IndexOf(c, u[j].e.key, m.bits) == b && FromHistory(ops + [op], u[j].e) {
      if j == i { HistoryStarts(ops, op, u[j].e); } else { HistoryGrows(ops, op, bk[j].e); }
    }
    forall x | 0 <= x < |m.cells| && x != b ensures BucketOk(c, m.bits, ops + [op], x, m'.cells[x]) {
      OtherBucket(c, ops, m, op, kv.key, x);
    }
  }

  /** An insert into any cell keeps the account of the history. */
  lemma InsertOk(c: Config, ops: seq<Op>, m: Map, op: Op, i: nat)
    requires MapOk(c, ops, m) && op.OpInsert? && i < 4
    ensures MapOk(c, ops + [op], InsertAt(c, m, op.kv, op.ttl, i))
  {
    hide BucketOk, InsertAt, FindIn;
    if FindIn(c, m, op.kv.key).Some? { UpdateOk(c, ops, m, op, i); } else { FreshOk(c, ops, m, op, i); }
  }

  lemma RemoveOk(c: Config, ops: seq<Op>, m: Map, op: Op)
    requires MapOk(c, ops, m) && op.OpRemove?
    ensures MapOk(c, ops + [op], Step(c, m, op))
  {
    hide FromHistory, IndexOf, Wrap64;
    var b := At(c, m, op.key);
    var bk := m.cells[b];
    var m' := Step(c, m, op);
    InsertsGrow(ops, op);
    assert BucketOk(c, m.bits, ops, b, bk);
    BucketGrows(c, m.bits, ops, op, b, m'.cells[b]) by {
      assert BucketOk(c, m.bits, ops, b, m'.cells[b]);
    }
    forall x | 0 <= x < |m.cells| && x != b ensures BucketOk(c, m.bits, ops + [op], x, m'.cells[x]) {
      OtherBucket(c, ops, m, op, op.key, x);
    }
  }

  lemma ReadOk(c: Config, ops: seq<Op>, m: Map, op: Op)
    requires MapOk(c, ops, m) && !op.OpInsert? && !op.OpRemove?
    ensures MapOk(c, ops + [op], Step(c, m, op))
  {
    hide FromHistory, IndexOf, Wrap64, Touch, Expired;
    var m' := Step(c, m, op);
    InsertsGrow(ops, op);
    forall x | 0 <= x < |m.cells| ensures BucketOk(c, m.bits, ops + [op], x, m'.cells[x]) {
      assert BucketOk(c, m.bits, ops, x, m.cells[x]);
      if m'.cells[x] != m.cells[x] { TouchOk(c, m.bits, ops, x, m.cells[x], FindIn(c, m, op.key).value); }
      BucketGrows(c, m.bits, ops, op, x, m'.cells[x]);
    }
  }

  lemma {:induction false} RunOk(c: Config, bits: nat, ops: seq<Op>)
    ensures MapOk(c, ops, Run(c, NewMap(bits), ops))
    decreases |ops|
  {
    hide MapOk, Step;
    if ops == [] {
      NewOk(c, bits);
    } else {
      var n := |ops| - 1;
      var m := Run(c, NewMap(bits), ops[..n]);
      RunOk(c, bits, ops[..n]);
      assert ops[..n] + [ops[n]] == ops;
      StepOk(c, ops[..n], m, ops[n]);
    }
  }

  lemma NewOk(c: Config, bits: nat)
    ensures MapOk(c, [], NewMap(bits))
  {}

  lemma StepOk(c: Config, ops: seq<Op>, m: Map, op: Op)
    requires MapOk(c, ops, m)
    ensures MapOk(c, ops + [op], Step(c, m, op))
  {
    hide BucketOk, FindIn, InsertAt, Get, Remove, RawTarget, IndexOf;
    if op.OpInsert? {
      InsertOk(c, ops, m, op, RawTarget(m.cells[At(c, m, op.kv.key)], Next(m.epoch), m.dflt));
    } else if op.OpRemove? {
      RemoveOk(c, ops, m, op);
    } else {
      ReadOk(c, ops, m, op);
    }
  }
}

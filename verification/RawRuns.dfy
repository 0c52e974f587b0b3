/**
 What every run of the raw map promises: it refines a plain map that may forget, expiry
 is an exact count of inserts, displacement follows the stated order, and the counters
 balance.
 */
module RawRuns {
  import opened Base
  import opened Hashing
  import opened Cells
  import opened RawSpec

  // ---------------------------------------------------------------------
  // A plain map that may forget
  // ---------------------------------------------------------------------

  /** In a map that accounts for a history a hit is the value of the last insert of its key. */
  lemma HitIn(c: Config, ops: seq<Op>, m: Map, key: Bytes)
    requires MapOk(c, ops, m)
    ensures var p := LastInsert(ops, key);
            && (Peek(c, m, key).Some? ==> p.Some? && Peek(c, m, key).value == ops[p.value].kv.value)
            && (p.None? ==> FindIn(c, m, key).None? && Peek(c, m, key).None?)
  {
    hide IndexOf, Wrap64, Inserts, Expired;
    assert BucketOk(c, m.bits, ops, At(c, m, key), m.cells[At(c, m, key)]);
  }

  /** A hit is the value of the last insert of that key, with no remove since; a missing history is a miss. */
  lemma HitIsLastInsert(c: Config, bits: nat, ops: seq<Op>, key: Bytes)
    ensures var m, p := Run(c, NewMap(bits), ops), LastInsert(ops, key);
            && (Peek(c, m, key).Some? ==> p.Some? && Peek(c, m, key).value == ops[p.value].kv.value)
            && (p.None? ==> FindIn(c, m, key).None? && Peek(c, m, key).None?)
  {
    hide MapOk, Run, Peek, FindIn;
    RunOk(c, bits, ops);
    HitIn(c, ops, Run(c, NewMap(bits), ops), key);
  }

  /** Each resident key sits in exactly one slot, in the bucket its hash selects. */
  lemma OneSlotPerKey(c: Config, bits: nat, ops: seq<Op>, b: nat, i: nat)
    requires var m := Run(c, NewMap(bits), ops); b < |m.cells| && i < 4 && m.cells[b][i].Held?
    ensures var m := Run(c, NewMap(bits), ops);
            && b == At(c, m, m.cells[b][i].e.key) && FindIn(c, m, m.cells[b][i].e.key) == Some(i)
            && (forall b', i' :: 0 <= b' < |m.cells| && 0 <= i' < 4 && Holds(m.cells[b'][i'], m.cells[b][i].e.key) ==>
                  b' == b && i' == i)
  {
    hide IndexOf, Wrap64, Inserts, Run, FromHistory;
    var m := Run(c, NewMap(bits), ops);
    RunOk(c, bits, ops);
    assert BucketOk(c, m.bits, ops, b, m.cells[b]);
    forall b', i' | 0 <= b' < |m.cells| && 0 <= i' < 4 && Holds(m.cells[b'][i'], m.cells[b][i].e.key)
      ensures b' == b && i' == i
    {
      assert BucketOk(c, m.bits, ops, b', m.cells[b']);
    }
  }

  /** After a remove the key is gone until it is inserted again. */
  lemma RemovedIsAbsent(c: Config, bits: nat, ops: seq<Op>, more: seq<Op>, key: Bytes)
    requires forall i :: 0 <= i < |more| && more[i].OpInsert? ==> more[i].kv.key != key
    ensures Peek(c, Run(c, NewMap(bits), ops + [OpRemove(key)] + more), key).None?
  {
    hide Run, Peek;
    NoInsertNoHistory(ops + [OpRemove(key)], more, key);
    assert (ops + [OpRemove(key)])[..|ops|] == ops;
    HitIsLastInsert(c, bits, ops + [OpRemove(key)] + more, key);
  }

  /** Without an insert of the key, the last insert stays where it was or is undone. */
  lemma {:induction false} NoInsertNoHistory(ops: seq<Op>, more: seq<Op>, key: Bytes)
    requires forall i :: 0 <= i < |more| && more[i].OpInsert? ==> more[i].kv.key != key
    ensures LastInsert(ops + more, key).Some? ==> LastInsert(ops + more, key) == LastInsert(ops, key)
    decreases |more|
  {
    if more == [] {
      assert ops + more == ops;
    } else {
      var n := |more| - 1;
      NoInsertNoHistory(ops, more[..n], key);
      assert (ops + more)[..|ops + more| - 1] == ops + more[..n];
    }
  }

  /** A stored key can be read right away, wherever it was put. */
  lemma ReadAfter(c: Config, m: Map, kv: KV, ttl: nat, i0: nat)
    requires Sized(m) && i0 < 4
    ensures Peek(c, InsertAt(c, m, kv, ttl, i0), kv.key) == Some(kv.value)
  {
    hide IndexOf, Touch;
    var b := At(c, m, kv.key);
    var bk := m.cells[b];
    if FindIn(c, m, kv.key).Some? { TouchKeys(bk, FindIn(c, m, kv.key).value); }
    var m' := InsertAt(c, m, kv, ttl, i0);
    assert m'.bits == m.bits && At(c, m', kv.key) == b;
    var f := FindIn(c, m', kv.key);
    assert f.Some? && Holds(m'.cells[b][f.value], kv.key);
    var i := if FindIn(c, m, kv.key).Some? then FindIn(c, m, kv.key).value else i0;
    assert f == Some(i);
    assert m'.cells[b][i].e.epoch == m'.epoch && m'.epoch < U64;
    FreshStamp(m'.epoch, ttl, m.dflt);
  }

  /** A key can be read right after its insert, whatever the TTLs and the state. */
  lemma ReadYourWrite(c: Config, m: Map, kv: KV, ttl: nat)
    requires Sized(m)
    ensures Peek(c, Insert(c, m, kv, ttl), kv.key) == Some(kv.value)
  {
    hide InsertAt, Peek, IndexOf, RawTarget;
    ReadAfter(c, m, kv, ttl, RawTarget(m.cells[At(c, m, kv.key)], Next(m.epoch), m.dflt));
  }

  lemma FreshStamp(now: nat, ttl: nat, dflt: nat)
    requires now < U64
    ensures !Expired(now, ttl, now, dflt)
  {}

  // ---------------------------------------------------------------------
  // Expiry is an exact count of inserts
  // ---------------------------------------------------------------------

  lemma {:induction false} InsertsSplit(ops: seq<Op>, more: seq<Op>)
    ensures Inserts(ops + more) == Inserts(ops) + Inserts(more)
    decreases |more|
  {
    if more == [] {
      assert ops + more == ops;
    } else {
      InsertsSplit(ops, more[..|more| - 1]);
      assert (ops + more)[..|ops + more| - 1] == ops + more[..|more| - 1];
    }
  }

  /** The age in a wrapping counter is the true age while fewer than 2^64 inserts passed. */
  lemma WrappedAge(a: nat, n: nat)
    requires n < U64
    ensures WrappingSub(Wrap64(a + n), Wrap64(a)) == n
  {}

  /** Number of inserts after the last insert of a resident key. */
  function Age(ops: seq<Op>, key: Bytes): nat
    requires LastInsert(ops, key).Some?
  {
    Inserts(ops[LastInsert(ops, key).value + 1..])
  }

  /** The TTL of the key's last insert, or the default last set by `set_ttl` when it is 0. */
  function Limit(ops: seq<Op>, key: Bytes): nat
    requires LastInsert(ops, key).Some?
  {
    var ttl := ops[LastInsert(ops, key).value].ttl;
    if ttl == 0 then LastTtl(ops) else ttl
  }

  /** In a map that accounts for a history an entry is hidden exactly when it is too old. */
  lemma HiddenIn(c: Config, ops: seq<Op>, m: Map, key: Bytes)
    requires MapOk(c, ops, m) && FindIn(c, m, key).Some?
    ensures LastInsert(ops, key).Some? && m.dflt == LastTtl(ops)
    ensures var t := Limit(ops, key);
            Age(ops, key) < U64 ==> (Peek(c, m, key).None? <==> t != 0 && t != U64 - 1 && Age(ops, key) > t)
  {
    hide IndexOf, Wrap64, Inserts, WrappingSub, LastTtl;
    var b, i := At(c, m, key), FindIn(c, m, key).value;
    assert BucketOk(c, m.bits, ops, b, m.cells[b]);
    var p := LastInsert(ops, key).value;
    assert ops[..p + 1] + ops[p + 1..] == ops;
    InsertsSplit(ops[..p + 1], ops[p + 1..]);
    if Age(ops, key) < U64 { WrappedAge(Inserts(ops[..p + 1]), Age(ops, key)); }
  }

  /** A resident entry is hidden exactly when more inserts than its effective TTL came after its own. */
  lemma HiddenIffOld(c: Config, bits: nat, ops: seq<Op>, key: Bytes)
    requires FindIn(c, Run(c, NewMap(bits), ops), key).Some?
    ensures LastInsert(ops, key).Some?
    ensures var m := Run(c, NewMap(bits), ops);
            var t := Limit(ops, key);
            Age(ops, key) < U64 ==> (Peek(c, m, key).None? <==> t != 0 && t != U64 - 1 && Age(ops, key) > t)
  {
    hide MapOk, Run, Peek, FindIn, Age, Limit;
    RunOk(c, bits, ops);
    HiddenIn(c, ops, Run(c, NewMap(bits), ops), key);
  }

  /** Hidden, it stays hidden in any later map with the same default, until the key is inserted again. */
  lemma HiddenLater(c: Config, ops: seq<Op>, m: Map, more: seq<Op>, m': Map, key: Bytes)
    requires MapOk(c, ops, m) && MapOk(c, ops + more, m') && Sized(m) && Sized(m') && m'.dflt == m.dflt
    requires FindIn(c, m, key).Some? && Peek(c, m, key).None?
    requires forall i :: 0 <= i < |more| && more[i].OpInsert? ==> more[i].kv.key != key
    requires LastInsert(ops, key).Some? && Age(ops, key) + Inserts(more) < U64
    ensures Peek(c, m', key).None?
  {
    hide Peek, Inserts, FindIn, LastInsert, MapOk, LastTtl;
    HiddenIn(c, ops, m, key);
    if FindIn(c, m', key).None? {
      assert Peek(c, m', key).None? by { HitNeedsFind(c, m', key); }
    } else {
      HiddenIn(c, ops + more, m', key);
      NoInsertNoHistory(ops, more, key);
      var p := LastInsert(ops, key).value;
      assert (ops + more)[p + 1..] == ops[p + 1..] + more;
      InsertsSplit(ops[p + 1..], more);
    }
  }

  /** The default TTL in force is the argument of the last `set_ttl`, 0 before any. */
  lemma DefaultIsLast(c: Config, bits: nat, ops: seq<Op>)
    ensures Run(c, NewMap(bits), ops).dflt == LastTtl(ops)
  {
    hide BucketOk, Run, LastTtl;
    RunOk(c, bits, ops);
  }

  lemma {:induction false} DefaultKept(c: Config, m: Map, ops: seq<Op>, more: seq<Op>)
    requires Sized(m) && forall i :: 0 <= i < |more| ==> !more[i].OpSetTtl?
    ensures Run(c, m, ops + more).dflt == Run(c, m, ops).dflt
    decreases |more|
  {
    hide Find, RawTarget, Touch, IndexOf, Peek;
    if more == [] {
      assert ops + more == ops;
    } else {
      DefaultKept(c, m, ops, more[..|more| - 1]);
      assert (ops + more)[..|ops + more| - 1] == ops + more[..|more| - 1];
    }
  }

  /** Under a fixed default TTL an expired key stays hidden until it is inserted again. */
  lemma ExpiredStaysHidden(c: Config, bits: nat, ops: seq<Op>, more: seq<Op>, key: Bytes)
    requires FindIn(c, Run(c, NewMap(bits), ops), key).Some? && Peek(c, Run(c, NewMap(bits), ops), key).None?
    requires forall i :: 0 <= i < |more| ==> !more[i].OpSetTtl? && (more[i].OpInsert? ==> more[i].kv.key != key)
    requires LastInsert(ops, key).Some? && Age(ops, key) + Inserts(more) < U64
    ensures Peek(c, Run(c, NewMap(bits), ops + more), key).None?
  {
    hide MapOk, Run, Peek, FindIn, Age;
    RunOk(c, bits, ops);
    RunOk(c, bits, ops + more);
    DefaultKept(c, NewMap(bits), ops, more);
    HiddenLater(c, ops, Run(c, NewMap(bits), ops), more, Run(c, NewMap(bits), ops + more), key);
  }

  lemma HitNeedsFind(c: Config, m: Map, key: Bytes)
    requires Sized(m) && FindIn(c, m, key).None?
    ensures Peek(c, m, key).None?
  {}

  // ---------------------------------------------------------------------
  // Displacement
  // ---------------------------------------------------------------------

  /**
   An insert drops an unexpired entry of another key only when all four cells of the
   bucket hold unexpired entries, and then it drops the one of least priority.
   */
  lemma DisplacesOnlyWhenFull(c: Config, m: Map, kv: KV, ttl: nat, i: nat)
    requires Sized(m) && i < 4
    requires var bk, now := m.cells[At(c, m, kv.key)], Next(m.epoch);
             !Gone(bk[i], now, m.dflt) && bk[i].e.key != kv.key
    requires !Holds(Insert(c, m, kv, ttl).cells[At(c, m, kv.key)][i], m.cells[At(c, m, kv.key)][i].e.key)
    ensures var bk, now := m.cells[At(c, m, kv.key)], Next(m.epoch);
            && (forall j :: 0 <= j < 4 ==> !Gone(bk[j], now, m.dflt) && bk[j].e.key != kv.key)
            && IsVictim(bk, i) && Insert(c, m, kv, ttl).evictions == m.evictions + 1
  {
    hide IndexOf, Touch, Expired;
    var bk := m.cells[At(c, m, kv.key)];
    if FindIn(c, m, kv.key).Some? { TouchKeys(bk, FindIn(c, m, kv.key).value); }
  }

  /** An insert with the target given: the key's bucket cell by cell, the other buckets as they were. */
  ghost predicate Stored(c: Config, m: Map, m': Map, kv: KV, ttl: nat, i: nat) {
    && Sized(m) && Sized(m') && m'.bits == m.bits && m'.dflt == m.dflt && m'.epoch == (m.epoch + 1) % U64
    && (forall b :: 0 <= b < |m.cells| && b != At(c, m, kv.key) ==> m'.cells[b] == m.cells[b])
    && var before, after := m.cells[At(c, m, kv.key)], m'.cells[At(c, m, kv.key)];
       if forall j :: 0 <= j < 4 ==> !Holds(before[j], kv.key) then
         && FilledIn(before, after, i, Entry(kv.key, kv.value, 0, 1, m'.epoch, ttl))
         && m'.count == m.count + (if before[i].Vacant? then 1 else 0)
         && m'.evictions == m.evictions + (if before[i].Vacant? then 0 else 1)
       else UpdatedIn(before, after, i, kv, Ttl(m'.epoch, ttl)) && m'.count == m.count && m'.evictions == m.evictions
  }

  lemma InsertAtStores(c: Config, m: Map, kv: KV, ttl: nat, i0: nat)
    requires Sized(m) && i0 < 4
    ensures var before, f := m.cells[At(c, m, kv.key)], FindIn(c, m, kv.key);
            && (f.None? <==> forall j :: 0 <= j < 4 ==> !Holds(before[j], kv.key))
            && Stored(c, m, InsertAt(c, m, kv, ttl, i0), kv, ttl, if f.Some? then f.value else i0)
  {
    hide IndexOf, UpdateAt, FreshAt, FilledIn, UpdatedIn;
    var before, f, now := m.cells[At(c, m, kv.key)], FindIn(c, m, kv.key), Next(m.epoch);
    FindHolds(before, kv.key);
    if f.Some? { UpdateUpdates(before, f.value, kv, Ttl(now, ttl)); } else { FreshFills(before, i0, kv, Ttl(now, ttl)); }
    assert m.cells[At(c, m, kv.key)] == before;
  }

  /** A cell an insert may take before any victim: vacant, or older than its TTL at epoch `now`. */
  predicate Takeable(x: Cell, now: nat, dflt: nat) {
    x.Vacant? || var t := if x.e.ttl == 0 then dflt else x.e.ttl; t != 0 && t != U64 - 1 && (now + U64 - x.e.epoch % U64) % U64 > t
  }

  /**
   The raw insert, in full.  A resident key is updated in place.  An absent one goes to the
   first cell that is vacant or expired, or, when no cell is, in place of the entry of least
   priority.  The rest of the map is untouched.
   */
  lemma InsertPlaces(c: Config, m: Map, kv: KV, ttl: nat)
    requires Sized(m)
    ensures exists i :: 0 <= i < 4 && Stored(c, m, Insert(c, m, kv, ttl), kv, ttl, i) &&
              var before, now := m.cells[At(c, m, kv.key)], (m.epoch + 1) % U64;
              (forall j :: 0 <= j < 4 ==> !Holds(before[j], kv.key)) ==>
                if exists j :: 0 <= j < 4 && Takeable(before[j], now, m.dflt)
                then Takeable(before[i], now, m.dflt) && forall j :: 0 <= j < i ==> !Takeable(before[j], now, m.dflt)
                else IsVictim(before, i)
  {
    hide IndexOf, InsertAt, Takeable, IsVictim, Stored;
    var before, now := m.cells[At(c, m, kv.key)], Next(m.epoch);
    var i0 := RawTarget(before, now, m.dflt);
    InsertAtStores(c, m, kv, ttl, i0);
    TargetIs(before, now, m.dflt);
    FindHolds(before, kv.key);
    var f := FindIn(c, m, kv.key);
    assert Stored(c, m, Insert(c, m, kv, ttl), kv, ttl, if f.Some? then f.value else i0);
  }

  lemma GoneIs(x: Cell, now: nat, dflt: nat)
    ensures Gone(x, now, dflt) <==> Takeable(x, now, dflt)
  {}

  lemma TargetIs(bk: Bucket, now: nat, dflt: nat)
    ensures var i := RawTarget(bk, now, dflt);
            i < 4 &&
            if exists j :: 0 <= j < 4 && Takeable(bk[j], now, dflt)
            then Takeable(bk[i], now, dflt) && forall j :: 0 <= j < i ==> !Takeable(bk[j], now, dflt)
            else IsVictim(bk, i)
  {
    forall j | 0 <= j < 4 ensures Gone(bk[j], now, dflt) <==> Takeable(bk[j], now, dflt) { GoneIs(bk[j], now, dflt); }
    hide Expired, Takeable, Gone;
    var g := GoneFrom(bk, now, dflt, 0);
    if g.Some? { assert Gone(bk[g.value], now, dflt); }
  }

  /**
   Nothing else leaves.  A resident key is gone after an operation only if it was removed, or
   if another key, absent before, took its cell: an expired one, or the least-priority one of
   four unexpired ones.
   */
  lemma OnlyTheseLeave(c: Config, m: Map, op: Op, key: Bytes)
    requires Sized(m) && FindIn(c, m, key).Some? && FindIn(c, Step(c, m, op), key).None?
    ensures || (op.OpRemove? && op.key == key)
            || (op.OpInsert? && At(c, m, op.kv.key) == At(c, m, key) && FindIn(c, m, op.kv.key).None? &&
                var bk, i, now := m.cells[At(c, m, key)], FindIn(c, m, key).value, (m.epoch + 1) % U64;
                i < 4 && (Takeable(bk[i], now, m.dflt) || (IsVictim(bk, i) && forall j :: 0 <= j < 4 ==> !Takeable(bk[j], now, m.dflt))))
  {
    hide IndexOf, Takeable, Touch, RawTarget, IsVictim;
    var b := At(c, m, key);
    FindHolds(m.cells[b], key);
    var i := FindIn(c, m, key).value;
    assert Step(c, m, op).bits == m.bits && !Holds(Step(c, m, op).cells[b][i], key);
    match op
    case OpInsert(kv, ttl) =>
      TargetIs(m.cells[At(c, m, kv.key)], Next(m.epoch), m.dflt);
      if FindIn(c, m, kv.key).Some? { TouchKeys(m.cells[At(c, m, kv.key)], FindIn(c, m, kv.key).value); }
    case OpGet(k) =>
      if Peek(c, m, k).Some? { TouchKeys(m.cells[At(c, m, k)], FindIn(c, m, k).value); }
    case _ =>
  }

  // ---------------------------------------------------------------------
  // Counters balance
  // ---------------------------------------------------------------------

  function Ones(b: Bucket): nat {
    (if b[0].Held? then 1 else 0) + (if b[1].Held? then 1 else 0) + (if b[2].Held? then 1 else 0) + (if b[3].Held? then 1 else 0)
  }

  /** Number of occupied slots. */
  function Occupied(cells: seq<Bucket>): nat
    decreases |cells|
  {
    if cells == [] then 0 else Occupied(cells[..|cells| - 1]) + Ones(cells[|cells| - 1])
  }

  lemma {:induction false} OccupiedUpdate(cells: seq<Bucket>, b: nat, nb: Bucket)
    requires b < |cells|
    ensures Occupied(cells[b := nb]) == Occupied(cells) - Ones(cells[b]) + Ones(nb)
    decreases |cells|
  {
    hide Ones;
    var n := |cells| - 1;
    if b == n {
      assert cells[b := nb][..n] == cells[..n];
    } else {
      OccupiedUpdate(cells[..n], b, nb);
      assert cells[b := nb][..n] == cells[..n][b := nb];
    }
  }

  lemma {:induction false} OccupiedNone(n: nat)
    ensures Occupied(seq(n, i => [Vacant, Vacant, Vacant, Vacant])) == 0
    decreases n
  {
    if n > 0 {
      var s: seq<Bucket> := seq(n, i => [Vacant, Vacant, Vacant, Vacant]);
      assert s[..n - 1] == seq(n - 1, i => [Vacant, Vacant, Vacant, Vacant]);
      OccupiedNone(n - 1);
    }
  }

  /** Inserts that found their key resident. */
  function Updates(c: Config, m: Map, ops: seq<Op>): nat
    requires Sized(m)
    decreases |ops|
  {
    if ops == [] then 0
    else
      var n := |ops| - 1;
      Updates(c, m, ops[..n]) +
      (if ops[n].OpInsert? && FindIn(c, Run(c, m, ops[..n]), ops[n].kv.key).Some? then 1 else 0)
  }

  /** Removes that found their key. */
  function Removes(c: Config, m: Map, ops: seq<Op>): nat
    requires Sized(m)
    decreases |ops|
  {
    if ops == [] then 0
    else
      var n := |ops| - 1;
      Removes(c, m, ops[..n]) +
      (if ops[n].OpRemove? && FindIn(c, Run(c, m, ops[..n]), ops[n].key).Some? then 1 else 0)
  }

  lemma OnesTouch(b: Bucket, i: nat)
    ensures Ones(Touch(b, i)) == Ones(b)
  {}

  lemma OnesUpdate(b: Bucket, i: nat, kv: KV, t: Ttl)
    requires i < 4
    ensures Ones(UpdateAt(b, i, kv, t)) == Ones(b)
  {}

  lemma OnesFresh(b: Bucket, i: nat, kv: KV, t: Ttl)
    requires i < 4
    ensures Ones(FreshAt(b, i, kv, t)) == Ones(b) + if b[i].Held? then 0 else 1
  {}

  lemma OnesRemove(b: Bucket, i: nat)
    requires i < 4 && b[i].Held?
    ensures Ones(b[i := Vacant]) == Ones(b) - 1
  {}

  lemma CountInsert(c: Config, m: Map, kv: KV, ttl: nat)
    requires Sized(m) && m.count == Occupied(m.cells)
    ensures Insert(c, m, kv, ttl).count == Occupied(Insert(c, m, kv, ttl).cells)
  {
    hide IndexOf, UpdateAt, FreshAt, RawTarget, Ones, Occupied, Wrap64;
    var b, now := At(c, m, kv.key), Next(m.epoch);
    var bk, f := m.cells[b], FindIn(c, m, kv.key);
    if f.Some? {
      OnesUpdate(bk, f.value, kv, Ttl(now, ttl));
      OccupiedUpdate(m.cells, b, UpdateAt(bk, f.value, kv, Ttl(now, ttl)));
    } else {
      var i := RawTarget(bk, now, m.dflt);
      OnesFresh(bk, i, kv, Ttl(now, ttl));
      OccupiedUpdate(m.cells, b, FreshAt(bk, i, kv, Ttl(now, ttl)));
    }
  }

  /** The length counter is the number of occupied slots after every step. */
  lemma CountStep(c: Config, m: Map, op: Op)
    requires Sized(m) && m.count == Occupied(m.cells)
    ensures Step(c, m, op).count == Occupied(Step(c, m, op).cells)
  {
    hide IndexOf, Touch, Expired, Insert, Ones, Occupied;
    match op
    case OpInsert(kv, ttl) =>
      CountInsert(c, m, kv, ttl);
    case OpGet(key) =>
      var b, f := At(c, m, key), FindIn(c, m, key);
      if Peek(c, m, key).Some? {
        OnesTouch(m.cells[b], f.value);
        OccupiedUpdate(m.cells, b, Touch(m.cells[b], f.value));
      }
    case OpRemove(key) =>
      var b, f := At(c, m, key), FindIn(c, m, key);
      if f.Some? {
        OnesRemove(m.cells[b], f.value);
        OccupiedUpdate(m.cells, b, m.cells[b][f.value := Vacant]);
      }
    case _ =>
  }

  /** Conservation: every insert is an update, an eviction, a later remove or still in the map. */
  lemma {:induction false} InsertsBalance(c: Config, bits: nat, ops: seq<Op>)
    ensures var m := Run(c, NewMap(bits), ops);
            && m.count == Occupied(m.cells)
            && Inserts(ops) == Updates(c, NewMap(bits), ops) + m.evictions + Removes(c, NewMap(bits), ops) + m.count
    decreases |ops|
  {
    hide Find, Touch, RawTarget, IndexOf, Expired, Occupied;
    if ops == [] {
      OccupiedNone(Pow2(bits));
    } else {
      var n := |ops| - 1;
      InsertsBalance(c, bits, ops[..n]);
      CountStep(c, Run(c, NewMap(bits), ops[..n]), ops[n]);
    }
  }
}

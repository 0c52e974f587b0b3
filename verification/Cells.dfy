/**
 What the maps mean: buckets of four cells, each vacant or holding an entry.  Packed
 words, slot bytes, fingerprints and the slab are gone.  Lookup, expiry, victim choice
 and the access counters are stated here once, and every map operation is a function
 on this state.
 */
module Cells {
  import opened Base
  import opened Hashing

  datatype Entry = Entry(key: Bytes, value: Bytes, freq: nat, rec: nat, epoch: nat, ttl: nat) {
    /** Frequency above recency, as the seven priority bits are compared. */
    function Priority(): nat { 8 * freq + rec }
  }

  datatype Cell = Vacant | Held(e: Entry)

  type Bucket = b: seq<Cell> | |b| == 4 witness [Vacant, Vacant, Vacant, Vacant]

  predicate Holds(c: Cell, key: Bytes) { c.Held? && c.e.key == key }

  /** First cell at or after `i` that holds the key. */
  function FindFrom(b: Bucket, key: Bytes, i: nat): (r: Option<nat>)
    requires i <= 4
    ensures r.Some? ==> i <= r.value < 4 && Holds(b[r.value], key) && forall j :: i <= j < r.value ==> !Holds(b[j], key)
    ensures r.None? ==> forall j :: i <= j < 4 ==> !Holds(b[j], key)
    decreases 4 - i
  {
    if i == 4 then None else if Holds(b[i], key) then Some(i) else FindFrom(b, key, i + 1)
  }

  function Find(b: Bucket, key: Bytes): Option<nat> { FindFrom(b, key, 0) }

  lemma FindHolds(b: Bucket, key: Bytes)
    ensures Find(b, key).Some? ==> Find(b, key).value < 4 && Holds(b[Find(b, key).value], key)
  {}

  // ---------------------------------------------------------------------
  // Access counters
  // ---------------------------------------------------------------------

  function Min15(n: nat): nat { if n < 15 then n else 15 }

  function TouchCell(c: Cell, hit: bool): Cell {
    if c.Vacant? then c
    else if hit then Held(c.e.(freq := Min15(c.e.freq + 1), rec := 7))
    else Held(c.e.(rec := if c.e.rec > 0 then c.e.rec - 1 else 0))
  }

  /** An access event for cell `i`: that cell is boosted, every other entry ages. */
  function Touch(b: Bucket, i: nat): (r: Bucket) {
    [TouchCell(b[0], i == 0), TouchCell(b[1], i == 1), TouchCell(b[2], i == 2), TouchCell(b[3], i == 3)]
  }

  // ---------------------------------------------------------------------
  // Expiry
  // ---------------------------------------------------------------------

  function EffectiveTtl(ttl: nat, dflt: nat): nat { if ttl == 0 then dflt else ttl }

  function WrappingSub(a: nat, b: nat): nat { (a + U64 - b % U64) % U64 }

  /** `is_expired`: age in inserts, modulo 2^64, beyond the effective TTL; 0 and MAX never expire. */
  predicate Expired(epoch: nat, ttl: nat, now: nat, dflt: nat) {
    var t := EffectiveTtl(ttl, dflt);
    t != 0 && t != U64_MAX && WrappingSub(now, epoch) > t
  }

  predicate Gone(c: Cell, now: nat, dflt: nat) {
    c.Vacant? || Expired(c.e.epoch, c.e.ttl, now, dflt)
  }

  // ---------------------------------------------------------------------
  // Where a new key goes
  // ---------------------------------------------------------------------

  /** First vacant or expired cell. */
  function GoneFrom(b: Bucket, now: nat, dflt: nat, i: nat): (r: Option<nat>)
    requires i <= 4
    ensures r.Some? ==> i <= r.value < 4 && Gone(b[r.value], now, dflt) &&
                        forall j :: i <= j < r.value ==> !Gone(b[j], now, dflt)
    ensures r.None? ==> forall j :: i <= j < 4 ==> !Gone(b[j], now, dflt)
    decreases 4 - i
  {
    if i == 4 then None else if Gone(b[i], now, dflt) then Some(i) else GoneFrom(b, now, dflt, i + 1)
  }

  function VacantFrom(b: Bucket, i: nat): (r: Option<nat>)
    requires i <= 4
    ensures r.Some? ==> i <= r.value < 4 && b[r.value].Vacant? && forall j :: i <= j < r.value ==> b[j].Held?
    ensures r.None? ==> forall j :: i <= j < 4 ==> b[j].Held?
    decreases 4 - i
  {
    if i == 4 then None else if b[i].Vacant? then Some(i) else VacantFrom(b, i + 1)
  }

  predicate AllHeld(b: Bucket) { b[0].Held? && b[1].Held? && b[2].Held? && b[3].Held? }

  /** The entry of least priority, first on ties. */
  ghost predicate IsVictim(b: Bucket, i: nat) {
    && i < 4 && b[i].Held?
    && (forall j :: 0 <= j < 4 && b[j].Held? ==> b[i].e.Priority() <= b[j].e.Priority())
    && (forall j :: 0 <= j < i && b[j].Held? ==> b[i].e.Priority() < b[j].e.Priority())
  }

  /** The cheaper of two entries, the first on a tie. */
  function Lesser(b: Bucket, i: nat, j: nat): (k: nat)
    requires i < j < 4 && AllHeld(b)
    ensures k == i || k == j
    ensures b[k].e.Priority() <= b[i].e.Priority() && b[k].e.Priority() <= b[j].e.Priority()
    ensures k == j ==> b[j].e.Priority() < b[i].e.Priority()
  {
    if b[j].e.Priority() < b[i].e.Priority() then j else i
  }

  function Victim(b: Bucket): (i: nat)
    requires AllHeld(b)
    ensures IsVictim(b, i)
  {
    Lesser(b, Lesser(b, Lesser(b, 0, 1), 2), 3)
  }

  lemma VictimUnique(b: Bucket, i: nat, j: nat)
    requires IsVictim(b, i) && IsVictim(b, j)
    ensures i == j
  {}

  /** Where the raw map puts a key that is not resident. */
  function RawTarget(b: Bucket, now: nat, dflt: nat): (i: nat)
    ensures i < 4
  {
    var g := GoneFrom(b, now, dflt, 0);
    if g.Some? then g.value else Victim(b)
  }

  /** Where the concurrent map puts it: it never reclaims expired entries first. */
  function SyncTarget(b: Bucket): (i: nat)
    ensures i < 4
  {
    var g := VacantFrom(b, 0);
    if g.Some? then g.value else Victim(b)
  }

  // ---------------------------------------------------------------------
  // Bucket operations
  // ---------------------------------------------------------------------

  /** Update of a resident key: same cell, counters of an access, new value and stamp. */
  function UpdateAt(b: Bucket, i: nat, kv: KV, t: Ttl): Bucket
    requires i < 4
  {
    var u := Touch(b, i);
    if u[i].Held? then u[i := Held(u[i].e.(key := kv.key, value := kv.value, epoch := t.epoch, ttl := t.ttl))] else u
  }

  function FreshAt(b: Bucket, i: nat, kv: KV, t: Ttl): Bucket
    requires i < 4
  {
    b[i := Held(Entry(kv.key, kv.value, 0, 1, t.epoch, t.ttl))]
  }

  /** The first vacant cell, or, when none is vacant, the victim; expired entries get no preference. */
  lemma SyncTargetIs(bk: Bucket)
    ensures var i := SyncTarget(bk);
            i < 4 &&
            if exists j :: 0 <= j < 4 && bk[j].Vacant? then bk[i].Vacant? && forall j :: 0 <= j < i ==> bk[j].Held?
            else IsVictim(bk, i)
  {}

  /** A store of the concurrent map: the resident cell, else the one SyncTarget names. */
  function SyncStored(b: Bucket, kv: KV, t: Ttl): Bucket {
    var f := Find(b, kv.key);
    if f.Some? then UpdateAt(b, f.value, kv, t) else FreshAt(b, SyncTarget(b), kv, t)
  }

  function Without(b: Bucket, key: Bytes): Bucket {
    var f := Find(b, key);
    if f.Some? then b[f.value := Vacant] else b
  }

  // ---------------------------------------------------------------------
  // What an insert may do to a bucket, cell by cell
  // ---------------------------------------------------------------------

  /** Cell `i` now holds this entry; the other cells are as they were. */
  ghost predicate FilledIn(before: Bucket, after: Bucket, i: nat, e: Entry) {
    i < 4 && after[i] == Held(e) && forall j :: 0 <= j < 4 && j != i ==> after[j] == before[j]
  }

  /** `y` is `x` after an access to another cell. */
  predicate AgedBy1(x: Cell, y: Cell) {
    if x.Vacant? then y.Vacant? else y == Held(x.e.(rec := if x.e.rec == 0 then 0 else x.e.rec - 1))
  }

  /** The key's own cell `i` has the new pair and stamp and counts an access; the others age. */
  ghost predicate UpdatedIn(before: Bucket, after: Bucket, i: nat, kv: KV, t: Ttl) {
    && i < 4 && Holds(before[i], kv.key)
    && after[i] == Held(Entry(kv.key, kv.value, if before[i].e.freq >= 15 then 15 else before[i].e.freq + 1, 7, t.epoch, t.ttl))
    && forall j :: 0 <= j < 4 && j != i ==> AgedBy1(before[j], after[j])
  }

  lemma FreshFills(b: Bucket, i: nat, kv: KV, t: Ttl)
    requires i < 4
    ensures FilledIn(b, FreshAt(b, i, kv, t), i, Entry(kv.key, kv.value, 0, 1, t.epoch, t.ttl))
  {}

  lemma UpdateUpdates(b: Bucket, i: nat, kv: KV, t: Ttl)
    requires i < 4 && Holds(b[i], kv.key)
    ensures UpdatedIn(b, UpdateAt(b, i, kv, t), i, kv, t)
  {}
}

/**
 The concurrent map (src/sync.rs) as a step system at lock granularity: any number of
 threads run insert, get, peek, remove and resize; a step is the work between two lock
 operations.  Locks are the RwLock around the table, one spinlock per bucket, the slab
 mutex and the epochs mutex.

 `HoldsOf` says which locks a thread holds at each program point.  A step may happen when
 every lock it newly takes is free, and the lock words are updated to match.

 Auxiliary state: `log` records inserts, removes and hits in the order in which they take
 effect, each inside the bucket-lock section of its operation; `dirty` are the slots being
 rewritten; `layout` counts resizes; `advances` counts epoch advances without wrapping.
 */
module LockSys {
  import opened Base
  import opened MetaWord
  import opened Slots
  import opened Hashing
  import opened Stores
  import opened Views
  import Cells

  datatype Env = Env(c: Config, auto: bool)

  datatype Op = Insert(kv: KV, ttl: nat) | Get(key: Bytes) | Peek(key: Bytes) | Remove(key: Bytes) | Resize(n: nat)

  function KeyOf(op: Op): Bytes {
    match op
    case Insert(kv, _) => kv.key
    case Get(k) => k
    case Peek(k) => k
    case Remove(k) => k
    case Resize(_) => []
  }

  /** Why a slot is being rewritten. */
  datatype Kind = Update | Fresh | Evict | Drop

  /** A deferred access and the layout it was recorded under. */
  datatype Tagged = Tagged(loc: Loc, layout: nat)

  datatype Pc =
    | Idle
    | AutoRead | AutoCheck            // load-factor test of an auto-resizing map
    | GrowWait(n: nat) | GrowWork(n: nat)
    | Advance                         // epoch fetch_add
    | WantRead
    | Draining(j: nat) | DrainLock(j: nat, ev: Tagged) | DrainApply(j: nat, ev: Tagged)
    | WantLock
    | Scan(i: nat) | WantScan(i: nat) | Scanning(i: nat)
    | WantTtl(i: nat) | ReadTtl(i: nat) | Judge(i: nat, t: Ttl)
    | WantValue(i: nat) | ReadValue(i: nat)
    | WantFree(i: nat, kind: Kind) | Freeing(i: nat, kind: Kind)
    | Storing(i: nat, kind: Kind) | WantAlloc(i: nat, kind: Kind) | Allocating(i: nat, kind: Kind)
    | LoadEpoch(i: nat, kind: Kind)
    | WantStamp(i: nat, kind: Kind, e: nat, at: nat) | Stamping(i: nat, kind: Kind, e: nat, at: nat)
    | CountUp(i: nat)
    | Clearing(i: nat) | CountDown
    | Unlock | Unread

  /** `seen` is auxiliary: the bucket as it was when the thread took its lock. */
  datatype Thread = Thread(op: Op, b: nat, pc: Pc, seen: Cells.Bucket)

  /** `at` in Stamped is the number of epoch advances when the insert loaded the epoch. */
  datatype Logged =
    | Inserted(key: Bytes, value: Bytes, ttl: nat)
    | Stamped(key: Bytes, at: nat)
    | Removed(key: Bytes)
    | Hit(key: Bytes, value: Bytes)

  datatype Sys = Sys(
    st: Store,
    readers: set<nat>, writer: Option<nat>, locks: map<nat, nat>, slab: Option<nat>, epochs: Option<nat>,
    count: int, evictions: nat, epoch: nat, advances: nat, dflt: nat,
    queue: seq<Tagged>, layout: nat,
    dirty: set<Loc>, log: seq<Logged>,
    threads: map<nat, Thread>)

  const NOBODY := Thread(Resize(0), 0, Idle, [Cells.Vacant, Cells.Vacant, Cells.Vacant, Cells.Vacant])

  function Th(s: Sys, t: nat): Thread { if t in s.threads then s.threads[t] else NOBODY }

  // ---------------------------------------------------------------------
  // Locks
  // ---------------------------------------------------------------------

  datatype Holds = Holds(read: bool, write: bool, bucket: Option<nat>, slab: bool, epochs: bool)

  /** Outside the read-locked part of an operation. */
  predicate Outside(pc: Pc) {
    pc.Idle? || pc.AutoRead? || pc.GrowWait? || pc.GrowWork? || pc.Advance? || pc.WantRead?
  }

  /** Read-locked, but not in the thread's own bucket section. */
  predicate Before(pc: Pc) {
    pc.AutoCheck? || pc.Draining? || pc.DrainLock? || pc.DrainApply? || pc.WantLock? || pc.Unread?
  }

  predicate InBucket(pc: Pc) { !Outside(pc) && !Before(pc) }

  function HoldsOf(th: Thread): Holds {
    Holds(
      !Outside(th.pc),
      th.pc.GrowWork?,
      if th.pc.DrainApply? then Some(th.pc.ev.loc.b) else if InBucket(th.pc) then Some(th.b) else None,
      || th.pc.Scanning? || th.pc.ReadValue? || th.pc.Freeing? || th.pc.Allocating?
      || (th.op.Peek? && (th.pc.WantTtl? || th.pc.ReadTtl? || th.pc.Judge?)),
      th.pc.ReadTtl? || th.pc.Stamping?)
  }

  /** Every lock that `h'` has and `h` has not is free. */
  predicate CanTake(s: Sys, h: Holds, h': Holds) {
    && (h'.read && !h.read ==> s.writer.None?)
    && (h'.write && !h.write ==> s.writer.None? && s.readers == {})
    && (h'.bucket.Some? && h'.bucket != h.bucket ==> h'.bucket.value !in s.locks)
    && (h'.slab && !h.slab ==> s.slab.None?)
    && (h'.epochs && !h.epochs ==> s.epochs.None?)
  }

  function Mutex(m: Option<nat>, t: nat, was: bool, now: bool): Option<nat> {
    if now then Some(t) else if was then None else m
  }

  function Relocked(locks: map<nat, nat>, t: nat, was: Option<nat>, now: Option<nat>): map<nat, nat> {
    var freed := if was.Some? then locks - {was.value} else locks;
    if now.Some? then freed[now.value := t] else freed
  }

  /** Move thread `t` to `th'` and let the lock words follow. */
  function Relock(s: Sys, t: nat, th': Thread): Sys {
    var h, h' := HoldsOf(Th(s, t)), HoldsOf(th');
    s.(readers := if h'.read then s.readers + {t} else s.readers - {t},
       writer := Mutex(s.writer, t, h.write, h'.write),
       locks := Relocked(s.locks, t, h.bucket, h'.bucket),
       slab := Mutex(s.slab, t, h.slab, h'.slab),
       epochs := Mutex(s.epochs, t, h.epochs, h'.epochs),
       threads := s.threads[t := th'])
  }

  ghost predicate RwOk(s: Sys) {
    && (forall t: nat :: t in s.readers <==> HoldsOf(Th(s, t)).read)
    && (forall t: nat :: s.writer == Some(t) <==> HoldsOf(Th(s, t)).write)
    && (s.writer.Some? ==> s.readers == {})
  }

  ghost predicate BucketsOk(s: Sys) {
    && (forall b: nat :: b in s.locks ==> HoldsOf(Th(s, s.locks[b])).bucket == Some(b))
    && (forall t: nat :: var hb := HoldsOf(Th(s, t)).bucket; hb.Some? ==> hb.value in s.locks && s.locks[hb.value] == t)
  }

  ghost predicate MutexesOk(s: Sys) {
    && (forall t: nat :: s.slab == Some(t) <==> HoldsOf(Th(s, t)).slab)
    && (forall t: nat :: s.epochs == Some(t) <==> HoldsOf(Th(s, t)).epochs)
  }

  /** The lock words say who holds what. */
  ghost predicate LockOk(s: Sys) { RwOk(s) && BucketsOk(s) && MutexesOk(s) }

  lemma RelockTh(s: Sys, t: nat, th': Thread)
    ensures Th(Relock(s, t, th'), t) == th'
    ensures forall u: nat :: u != t ==> Th(Relock(s, t, th'), u) == Th(s, u)
  {
    hide HoldsOf;
  }

  lemma RwRelock(s: Sys, t: nat, th': Thread)
    requires RwOk(s) && CanTake(s, HoldsOf(Th(s, t)), HoldsOf(th'))
    ensures RwOk(Relock(s, t, th'))
  {
    var h, h' := HoldsOf(Th(s, t)), HoldsOf(th');
    assert !(h.read && h.write) && !(h'.read && h'.write);
    RwRelockAt(s, t, th');
  }

  lemma RwRelockAt(s: Sys, t: nat, th': Thread)
    requires RwOk(s) && CanTake(s, HoldsOf(Th(s, t)), HoldsOf(th'))
    requires var h, h' := HoldsOf(Th(s, t)), HoldsOf(th'); !(h.read && h.write) && !(h'.read && h'.write)
    ensures RwOk(Relock(s, t, th'))
  {
    hide HoldsOf, Relocked, Th;
    RelockTh(s, t, th');
  }

  lemma BucketsRelock(s: Sys, t: nat, th': Thread)
    requires BucketsOk(s) && CanTake(s, HoldsOf(Th(s, t)), HoldsOf(th'))
    ensures BucketsOk(Relock(s, t, th'))
  {
    hide HoldsOf, Mutex, Th;
    RelockTh(s, t, th');
  }

  lemma MutexesRelock(s: Sys, t: nat, th': Thread)
    requires MutexesOk(s) && CanTake(s, HoldsOf(Th(s, t)), HoldsOf(th'))
    ensures MutexesOk(Relock(s, t, th'))
  {
    hide HoldsOf, Relocked, Th;
    RelockTh(s, t, th');
  }

  lemma RelockOk(s: Sys, t: nat, th': Thread)
    requires LockOk(s) && CanTake(s, HoldsOf(Th(s, t)), HoldsOf(th'))
    ensures LockOk(Relock(s, t, th'))
  {
    hide HoldsOf, Relock, RwOk, BucketsOk, MutexesOk;
    RwRelock(s, t, th');
    BucketsRelock(s, t, th');
    MutexesRelock(s, t, th');
  }

  // ---------------------------------------------------------------------
  // Reference meaning of the log
  // ---------------------------------------------------------------------

  /** An insert: its value, its TTL, and its stamp once it has one. */
  datatype Entered = Entered(value: Bytes, ttl: nat, at: Option<nat>)

  function After(was: Option<Entered>, e: Logged, key: Bytes): Option<Entered> {
    if e.key != key then was
    else
      match e
      case Inserted(_, value, ttl) => Some(Entered(value, ttl, None))
      case Stamped(_, at) => if was.Some? then Some(was.value.(at := Some(at))) else None
      case Removed(_) => None
      case Hit(_, _) => was
  }

  /** The most recent insert of the key with no later remove. */
  function Latest(log: seq<Logged>, key: Bytes): Option<Entered>
    decreases |log|
  {
    if log == [] then None else After(Latest(log[..|log| - 1], key), log[|log| - 1], key)
  }

  /** The insert's value is this one. */
  predicate Gave(x: Option<Entered>, value: Bytes) { x.Some? && x.value.value == value }

  /** Every hit in the log returned the latest value at that moment. */
  ghost predicate HitsOk(log: seq<Logged>) {
    forall p :: 0 <= p < |log| && log[p].Hit? ==> Gave(Latest(log[..p], log[p].key), log[p].value)
  }

  lemma LatestAppend(log: seq<Logged>, e: Logged, key: Bytes)
    ensures Latest(log + [e], key) == After(Latest(log, key), e, key)
  {
    assert (log + [e])[..|log|] == log;
  }

  lemma HitsAppend(log: seq<Logged>, e: Logged)
    requires HitsOk(log) && (e.Hit? ==> Gave(Latest(log, e.key), e.value))
    ensures HitsOk(log + [e])
  {
    hide Latest;
    forall p | 0 <= p < |log + [e]| && (log + [e])[p].Hit?
      ensures Gave(Latest((log + [e])[..p], (log + [e])[p].key), (log + [e])[p].value)
    {
      assert p < |log| ==> (log + [e])[..p] == log[..p];
      assert p == |log| ==> (log + [e])[..p] == log;
    }
  }
}

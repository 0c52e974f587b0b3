/** The steps of the lock-granularity system and the invariant they keep. */
module LockSteps {
  import opened Base
  import opened MetaWord
  import opened Slots
  import opened Hashing
  import opened Stores
  import opened Views
  import opened LockSys
  import Cells
  import N = RawRuns
  import H = Rehash
  import G = StoreGrow
  import S = SyncSpec

  // ---------------------------------------------------------------------
  // What each thread relies on
  // ---------------------------------------------------------------------

  predicate Holding(st: Store, dirty: set<Loc>, l: Loc, key: Bytes)
    requires Shape(st)
  {
    Live(st, dirty, l) && KvAt(st, l).key == key
  }

  /** No live slot of bucket `b` below `n` holds the key. */
  predicate NoneBelow(st: Store, dirty: set<Loc>, b: nat, n: nat, key: Bytes)
    requires Shape(st)
  {
    forall j: nat :: j < n ==> !Holding(st, dirty, Loc(b, j), key)
  }

  predicate EvOk(st: Store, layout: nat, ev: Tagged) {
    InRange(st, ev.loc) && ev.layout == layout
  }

  /** The slot a thread is rewriting. */
  function Rewriting(th: Thread): Option<Loc> {
    if th.pc.Storing? || th.pc.WantAlloc? || th.pc.Allocating? || th.pc.Clearing? then Some(Loc(th.b, th.pc.i)) else None
  }

  /** Program points after an insert's scan, by why the slot is rewritten. */
  predicate StoringOk(st: Store, dirty: set<Loc>, c: Config, th: Thread, i: nat, kind: Kind)
    requires Shape(st)
  {
    var l, key := Loc(th.b, i), KeyOf(th.op);
    && i < 4 && InRange(st, l) && l in dirty && th.op.Insert? && kind != Drop
    && NoneBelow(st, dirty, th.b, 4, key)
    && (kind == Fresh <==> !IsFull(st, l))
    && (kind == Update ==> RecOfLoc(st, l).h2 == H2Of(c.hash(key)))
  }

  predicate FreeingOk(st: Store, dirty: set<Loc>, th: Thread, i: nat, kind: Kind)
    requires Shape(st)
  {
    var l, key := Loc(th.b, i), KeyOf(th.op);
    && i < 4 && Live(st, dirty, l) && Mode(SlotAt(st, l)) != 0 && kind != Fresh
    && (th.op.Insert? || th.op.Remove?) && (kind == Drop <==> th.op.Remove?)
    && (if kind == Evict then NoneBelow(st, dirty, th.b, 4, key) else Holding(st, dirty, l, key))
  }

  predicate StampOk(st: Store, th: Thread, i: nat) {
    i < 4 && InRange(st, Loc(th.b, i)) && IsFull(st, Loc(th.b, i)) && th.op.Insert?
  }

  predicate PcOk(st: Store, dirty: set<Loc>, layout: nat, c: Config, th: Thread)
    requires Shape(st)
  {
    var key := KeyOf(th.op);
    match th.pc
    case Idle => true
    case AutoRead => th.op.Insert?
    case AutoCheck => th.op.Insert?
    case GrowWait(n) => Pow2(CeilBits(n)) <= MAX_BUCKETS
    case GrowWork(n) => Pow2(CeilBits(n)) <= MAX_BUCKETS
    case Advance => th.op.Insert?
    case WantRead => !th.op.Resize?
    case Draining(j) => th.op.Insert?
    case DrainLock(j, ev) => th.op.Insert? && EvOk(st, layout, ev)
    case DrainApply(j, ev) => th.op.Insert? && EvOk(st, layout, ev)
    case WantLock => !th.op.Resize?
    case Scan(i) => i <= 4 && NoneBelow(st, dirty, th.b, i, key) && !th.op.Resize?
    case WantScan(i) => i < 4 && NoneBelow(st, dirty, th.b, i, key) && Live(st, dirty, Loc(th.b, i)) && !th.op.Resize?
    case Scanning(i) => i < 4 && NoneBelow(st, dirty, th.b, i, key) && Live(st, dirty, Loc(th.b, i)) && !th.op.Resize?
    case WantTtl(i) => i < 4 && Holding(st, dirty, Loc(th.b, i), key) && (th.op.Get? || th.op.Peek?)
    case ReadTtl(i) => i < 4 && Holding(st, dirty, Loc(th.b, i), key) && (th.op.Get? || th.op.Peek?)
    case Judge(i, t) => i < 4 && Holding(st, dirty, Loc(th.b, i), key) && (th.op.Get? || th.op.Peek?)
    case WantValue(i) => i < 4 && Holding(st, dirty, Loc(th.b, i), key) && th.op.Get?
    case ReadValue(i) => i < 4 && Holding(st, dirty, Loc(th.b, i), key) && th.op.Get?
    case WantFree(i, kind) => FreeingOk(st, dirty, th, i, kind)
    case Freeing(i, kind) => FreeingOk(st, dirty, th, i, kind)
    case Storing(i, kind) => StoringOk(st, dirty, c, th, i, kind)
    case WantAlloc(i, kind) => StoringOk(st, dirty, c, th, i, kind)
    case Allocating(i, kind) => StoringOk(st, dirty, c, th, i, kind)
    case LoadEpoch(i, kind) => StampOk(st, th, i)
    case WantStamp(i, kind, e, at) => StampOk(st, th, i)
    case Stamping(i, kind, e, at) => StampOk(st, th, i)
    case CountUp(i) => StampOk(st, th, i)
    case Clearing(i) =>
      && i < 4 && InRange(st, Loc(th.b, i)) && Loc(th.b, i) in dirty && IsFull(st, Loc(th.b, i))
      && NoneBelow(st, dirty, th.b, 4, key) && th.op.Remove?
    case CountDown => true
    case Unlock => true
    case Unread => true
  }

  /** Program points where the thread's bucket number is that of its key under the current table. */
  predicate Placed(pc: Pc) { !Outside(pc) && !pc.AutoCheck? }

  predicate ThreadOk(st: Store, dirty: set<Loc>, layout: nat, c: Config, th: Thread)
    requires Shape(st)
  {
    PcOk(st, dirty, layout, c, th) && (Placed(th.pc) ==> th.b == IndexOf(c, KeyOf(th.op), st.bits) && th.b < |st.buckets|)
  }

  // ---------------------------------------------------------------------
  // The invariant
  // ---------------------------------------------------------------------

  /** Inserts whose slot is already Full but not yet counted. */
  predicate AddPending(th: Thread) {
    || ((th.pc.LoadEpoch? || th.pc.WantStamp? || th.pc.Stamping?) && th.pc.kind == Fresh)
    || th.pc.CountUp?
  }

  predicate SubPending(th: Thread) { th.pc.CountDown? }

  function Adds(threads: map<nat, Thread>): set<nat> { set t | t in threads && AddPending(threads[t]) }

  function Subs(threads: map<nat, Thread>): set<nat> { set t | t in threads && SubPending(threads[t]) }

  ghost predicate DirtyOk(s: Sys) {
    forall l :: l in s.dirty ==> l.b in s.locks && Rewriting(Th(s, s.locks[l.b])) == Some(l)
  }

  ghost predicate QueueOk(st: Store, layout: nat, queue: seq<Tagged>) {
    forall k :: 0 <= k < |queue| ==> EvOk(st, layout, queue[k])
  }

  /** Every live slot holds the latest value of its key. */
  ghost predicate Current(st: Store, dirty: set<Loc>, log: seq<Logged>)
    requires Shape(st)
  {
    forall l :: Live(st, dirty, l) ==> Gave(Latest(log, KvAt(st, l).key), KvAt(st, l).value)
  }

  ghost predicate LogOk(s: Sys)
    requires Shape(s.st)
  {
    Current(s.st, s.dirty, s.log) && HitsOk(s.log)
  }

  /** The counter and the occupied slots differ only by operations still inside their bucket section. */
  ghost predicate CountOk(s: Sys)
    requires Shape(s.st)
  {
    s.count + |Adds(s.threads)| == N.Occupied(View(s.st)) + |Subs(s.threads)|
  }

  ghost predicate AllThreadsOk(env: Env, s: Sys)
    requires Shape(s.st)
  {
    forall t: nat :: ThreadOk(s.st, s.dirty, s.layout, env.c, Th(s, t))
  }

  ghost predicate Inv(env: Env, s: Sys) {
    && LockOk(s)
    && Good(s.st, env.c, s.dirty)
    && AllThreadsOk(env, s)
    && DirtyOk(s)
    && QueueOk(s.st, s.layout, s.queue)
    && LogOk(s)
    && CountOk(s)
  }

  // ---------------------------------------------------------------------
  // Steps
  // ---------------------------------------------------------------------

  /** The pair an insert stores, and the word it leaves. */
  function PutWord(st: Store, c: Config, l: Loc, key: Bytes, kind: Kind): bv64
    requires Shape(st) && InRange(st, l)
  {
    if kind == Update then OnAccess(st.buckets[l.b].meta, l.i) else FreshWord(st.buckets[l.b].meta, l.i, H2Of(c.hash(key)))
  }

  function PutStore(st: Store, c: Config, l: Loc, kv: KV, kind: Kind): (st': Store)
    requires Shape(st) && InRange(st, l) && FreeListInRange(st)
    ensures Shape(st')
  {
    SetMeta(Place(st, c, l, kv), l.b, PutWord(st, c, l, kv.key, kind))
  }

  function ClearStore(st: Store, l: Loc): (st': Store)
    requires Shape(st) && InRange(st, l)
    ensures Shape(st')
  {
    SetMeta(SetSlot(st, l, EmptySlot()), l.b, WithState(st.buckets[l.b].meta, l.i, Tombstone))
  }

  /** `resize` under the write lock. */
  ghost function GrowStep(env: Env, s: Sys, n: nat): Sys
    requires Shape(s.st) && Pow2(CeilBits(n)) <= MAX_BUCKETS
  {
    var bits := CeilBits(n);
    if Pow2(s.st.bits) >= Pow2(bits) then s
    else
      var es := H.Items(View(s.st));
      var r := G.Fill(env.c, bits, es);
      if r.None? then s
      else s.(st := r.value, count := |es|, queue := [], layout := s.layout + 1)
  }

  /** Where the scan of an insert that did not find its key goes next. */
  function AfterMiss(st: Store, b: nat): (Pc, bool)
    requires Shape(st) && b < |st.buckets|
  {
    var i := Cells.SyncTarget(BucketAt(st, b));
    if !IsFull(st, Loc(b, i)) then (Storing(i, Fresh), false)
    else if Mode(SlotAt(st, Loc(b, i))) != 0 then (WantFree(i, Evict), false)
    else (Storing(i, Evict), true)
  }

  /** One slot of the scan: the fingerprint filters that need no slab, then maybe the slab. */
  function ScanSlot(st: Store, c: Config, th: Thread, i: nat): Pc
    requires Shape(st) && i < 4 && InRange(st, Loc(th.b, i))
  {
    var l, key := Loc(th.b, i), KeyOf(th.op);
    var sl, h := SlotAt(st, l), c.hash(key);
    if !IsFull(st, l) || RecOfLoc(st, l).h2 != H2Of(h) then Scan(i + 1)
    else if !th.op.Get? then WantScan(i)
    else if Mode(sl) == 0 then (if InlineKey(sl) == key then WantTtl(i) else Scan(i + 1))
    else if ExtHi(sl) != ExtHiOf(h) || ExtFp(sl) != ExtFpOf(h) then Scan(i + 1)
    else WantScan(i)
  }

  /** After a match under the slab lock; the flag says whether the slot turns dirty now. */
  function AfterMatch(st: Store, th: Thread, i: nat): (Pc, bool)
    requires Shape(st) && i < 4 && InRange(st, Loc(th.b, i))
  {
    var slab := Mode(SlotAt(st, Loc(th.b, i))) != 0;
    match th.op
    case Insert(_, _) => if slab then (WantFree(i, Update), false) else (Storing(i, Update), true)
    case Remove(_) => if slab then (WantFree(i, Drop), false) else (Clearing(i), true)
    case _ => (WantTtl(i), false)
  }

  /** The ring may refuse an event; it holds at most its capacity. */
  function Pushed(queue: seq<Tagged>, ev: Tagged, lossy: bool): seq<Tagged> {
    if lossy || |queue| >= S.RING_CAPACITY then queue else queue + [ev]
  }

  /** State and program counter after one step of thread `t`, locks apart. */
  ghost function Next(env: Env, s: Sys, t: nat, lossy: bool): (r: (Sys, Thread))
    requires Good(s.st, env.c, s.dirty) && ThreadOk(s.st, s.dirty, s.layout, env.c, Th(s, t))
  {
    GoodShape(s.st, env.c, s.dirty);
    var th := Th(s, t);
    var st, c, key := s.st, env.c, KeyOf(th.op);
    match th.pc
    case Idle => (s, th)
    case AutoRead => (s, th.(pc := AutoCheck))
    case AutoCheck =>
      var n := |st.buckets|;
      if env.auto && 4 * s.count > 3 * (4 * n) && Pow2(CeilBits(2 * n)) <= MAX_BUCKETS then (s, th.(pc := GrowWait(2 * n)))
      else (s, th.(pc := Advance))
    case GrowWait(n) => (s, th.(pc := GrowWork(n)))
    case GrowWork(n) => (GrowStep(env, s, n), th.(pc := if th.op.Insert? then Advance else Idle))
    case Advance => (s.(epoch := Wrap64(s.epoch + 1), advances := s.advances + 1), th.(pc := WantRead))
    case WantRead => (s, th.(b := IndexOf(c, key, st.bits), pc := if th.op.Insert? then Draining(0) else WantLock))
    case Draining(j) =>
      if j < S.DRAIN_BATCH && s.queue != [] && !lossy then (s.(queue := s.queue[1..]), th.(pc := DrainLock(j, s.queue[0])))
      else (s, th.(pc := WantLock))
    case DrainLock(j, ev) => (s, th.(pc := DrainApply(j, ev)))
    case DrainApply(j, ev) => (s.(st := TouchStore(st, ev.loc)), th.(pc := Draining(j + 1)))
    case WantLock => (s, th.(pc := Scan(0), seen := BucketAt(st, th.b)))
    case Scan(i) =>
      if i < 4 then (s, th.(pc := ScanSlot(st, c, th, i)))
      else if th.op.Insert? then
        var (pc, evicted) := AfterMiss(st, th.b);
        (s.(evictions := if evicted then s.evictions + 1 else s.evictions,
            dirty := if pc.Storing? then s.dirty + {Loc(th.b, pc.i)} else s.dirty),
         th.(pc := pc))
      else
        (if th.op.Remove? then s.(log := s.log + [Removed(key)]) else s, th.(pc := Unlock))
    case WantScan(i) => (s, th.(pc := Scanning(i)))
    case Scanning(i) =>
      if !Matches(st, c, Loc(th.b, i), key) then (s, th.(pc := Scan(i + 1)))
      else
        var (pc, turns) := AfterMatch(st, th, i);
        (s.(dirty := if turns then s.dirty + {Loc(th.b, i)} else s.dirty), th.(pc := pc))
    case WantTtl(i) => (s, th.(pc := ReadTtl(i)))
    case ReadTtl(i) => (s, th.(pc := Judge(i, TtlAt(st, Loc(th.b, i)))))
    case Judge(i, tt) =>
      var l := Loc(th.b, i);
      if Cells.Expired(tt.epoch, tt.ttl, s.epoch, s.dflt) then (s, th.(pc := Unlock))
      else if th.op.Peek? then (s.(log := s.log + [Hit(key, KvAt(st, l).value)]), th.(pc := Unlock))
      else
        var s1 := s.(queue := Pushed(s.queue, Tagged(l, s.layout), lossy));
        if Mode(SlotAt(st, l)) == 0 then (s1.(log := s.log + [Hit(key, KvAt(st, l).value)]), th.(pc := Unlock))
        else (s1, th.(pc := WantValue(i)))
    case WantValue(i) => (s, th.(pc := ReadValue(i)))
    case ReadValue(i) => (s.(log := s.log + [Hit(key, KvAt(st, Loc(th.b, i)).value)]), th.(pc := Unlock))
    case WantFree(i, kind) => (s, th.(pc := Freeing(i, kind)))
    case Freeing(i, kind) =>
      (s.(st := Release(st, Loc(th.b, i)), dirty := s.dirty + {Loc(th.b, i)},
          evictions := if kind == Evict then s.evictions + 1 else s.evictions),
       th.(pc := if kind == Drop then Clearing(i) else Storing(i, kind)))
    case Storing(i, kind) =>
      if FitsInline(key, th.op.kv.value) then PutStep(env, s, th, i, kind) else (s, th.(pc := WantAlloc(i, kind)))
    case WantAlloc(i, kind) => (s, th.(pc := Allocating(i, kind)))
    case Allocating(i, kind) => PutStep(env, s, th, i, kind)
    case LoadEpoch(i, kind) => (s, th.(pc := WantStamp(i, kind, s.epoch, s.advances)))
    case WantStamp(i, kind, e, at) => (s, th.(pc := Stamping(i, kind, e, at)))
    case Stamping(i, kind, e, at) =>
      (s.(st := SetTtl(st, Loc(th.b, i), Ttl(e, th.op.ttl)), log := s.log + [Stamped(key, at)]),
       th.(pc := if kind == Fresh then CountUp(i) else Unlock))
    case CountUp(i) => (s.(count := s.count + 1), th.(pc := Unlock))
    case Clearing(i) =>
      (s.(st := ClearStore(st, Loc(th.b, i)), dirty := s.dirty - {Loc(th.b, i)}, log := s.log + [Removed(key)]),
       th.(pc := CountDown))
    case CountDown => (s.(count := s.count - 1), th.(pc := Unlock))
    case Unlock => (s, th.(pc := Unread))
    case Unread => (s, th.(pc := Idle))
  }

  /** The insert takes effect: slot, word and log in one private section. */
  ghost function PutStep(env: Env, s: Sys, th: Thread, i: nat, kind: Kind): (Sys, Thread)
    requires Good(s.st, env.c, s.dirty) && InRange(s.st, Loc(th.b, i)) && th.op.Insert?
  {
    GoodShape(s.st, env.c, s.dirty);
    (s.(st := PutStore(s.st, env.c, Loc(th.b, i), th.op.kv, kind), dirty := s.dirty - {Loc(th.b, i)},
        log := s.log + [Inserted(th.op.kv.key, th.op.kv.value, th.op.ttl)]),
     th.(pc := LoadEpoch(i, kind)))
  }

  datatype Action = Begin(t: nat, op: Op) | Go(t: nat, lossy: bool) | SetDefault(ttl: nat)

  /** First program point of an operation. */
  function Entry(env: Env, op: Op): Pc {
    match op
    case Insert(_, _) => if env.auto then AutoRead else Advance
    case Resize(n) => GrowWait(n)
    case _ => WantRead
  }

  /** A blocked step, and an action that does not apply, change nothing. */
  ghost function Step(env: Env, s: Sys, a: Action): Sys
    requires Inv(env, s)
  {
    match a
    case Begin(t, op) =>
      if Th(s, t).pc.Idle? && (op.Resize? ==> Pow2(CeilBits(op.n)) <= MAX_BUCKETS) then
        Relock(s, t, Thread(op, 0, Entry(env, op), NOBODY.seen))
      else s
    case Go(t, lossy) =>
      assert ThreadOk(s.st, s.dirty, s.layout, env.c, Th(s, t));
      var (s1, th') := Next(env, s, t, lossy);
      if CanTake(s, HoldsOf(Th(s, t)), HoldsOf(th')) then Relock(s1, t, th') else s
    case SetDefault(d) => s.(dflt := d)
  }
}

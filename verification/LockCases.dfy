/** Preservation of the lock-protocol invariant, one lemma per kind of step. */
module LockCases {
  import opened Base
  import opened MetaWord
  import opened Slots
  import opened Hashing
  import opened Stores
  import opened Views
  import opened LockSys
  import opened LockSteps
  import opened LockSafety
  import N = RawRuns

  /** What a lone step of a thread may use. */
  lemma InvParts(env: Env, s: Sys, t: nat)
    requires Inv(env, s)
    ensures Shape(s.st) && FreeListInRange(s.st) && BucketsOk(s)
    ensures ThreadOk(s.st, s.dirty, s.layout, env.c, Th(s, t))
    ensures Current(s.st, s.dirty, s.log) && HitsOk(s.log) && QueueOk(s.st, s.layout, s.queue)
  {
    hide Current, HitsOk, QueueOk, ThreadOk, DirtyOk, CountOk;
    GoodShape(s.st, env.c, s.dirty);
  }

  /** In its own bucket a thread sees as dirty only the slot it is rewriting itself. */
  lemma OwnBucketClean(env: Env, s: Sys, t: nat, l: Loc)
    requires Inv(env, s) && InBucket(Th(s, t).pc) && l.b == Th(s, t).b && Rewriting(Th(s, t)) != Some(l)
    ensures l !in s.dirty
  {
    hide Good, AllThreadsOk, QueueOk, LogOk, CountOk, RwOk, MutexesOk;
    assert HoldsOf(Th(s, t)).bucket == Some(l.b);
  }

  /** A slot that fails a filter does not hold the key. */
  lemma NotHeldHere(st: Store, c: Config, dirty: set<Loc>, l: Loc, key: Bytes)
    requires Good(st, c, dirty) && InRange(st, l)
    requires !IsFull(st, l) || RecOfLoc(st, l).h2 != H2Of(c.hash(key)) || !Matches(st, c, l, key)
    ensures !Holding(st, dirty, l, key)
  {
    hide RecAt, KvAt, Good, Matches, H2Of;
    if Live(st, dirty, l) { MatchesIsKey(st, c, dirty, l, key); }
  }

  lemma HeldHere(st: Store, c: Config, dirty: set<Loc>, l: Loc, key: Bytes)
    requires Good(st, c, dirty) && Live(st, dirty, l) && Matches(st, c, l, key)
    ensures Holding(st, dirty, l, key)
  {
    hide RecAt, KvAt, Good, Matches, H2Of;
    MatchesIsKey(st, c, dirty, l, key);
  }

  lemma NoneMore(st: Store, dirty: set<Loc>, b: nat, i: nat, key: Bytes)
    requires Shape(st) && NoneBelow(st, dirty, b, i, key) && !Holding(st, dirty, Loc(b, i), key)
    ensures NoneBelow(st, dirty, b, i + 1, key)
  {
    hide Holding;
  }

  /** The filters of `get` decide as the full comparison would. */
  lemma InlineMatch(st: Store, c: Config, l: Loc, key: Bytes)
    requires Shape(st) && InRange(st, l)
    ensures Mode(SlotAt(st, l)) == 0 ==> (Matches(st, c, l, key) <==> InlineKey(SlotAt(st, l)) == key)
    ensures Mode(SlotAt(st, l)) != 0 && (ExtHi(SlotAt(st, l)) != ExtHiOf(c.hash(key)) || ExtFp(SlotAt(st, l)) != ExtFpOf(c.hash(key)))
            ==> !Matches(st, c, l, key)
  {
    hide Mode, InlineKey, ExtHi, ExtFp, ExtHiOf, ExtFpOf, SlabIdx;
  }

  /** Scanning one slot leaves the thread with what the next point relies on. */
  lemma ScanSlotOk(env: Env, s: Sys, t: nat, i: nat)
    requires Inv(env, s) && Th(s, t).pc == Scan(i) && i < 4
    ensures Shape(s.st) && InRange(s.st, Loc(Th(s, t).b, i))
    ensures ThreadOk(s.st, s.dirty, s.layout, env.c, Th(s, t).(pc := ScanSlot(s.st, env.c, Th(s, t), i)))
  {
    hide RecAt, KvAt, Good, Matches, H2Of, Holding, NoneBelow, IndexOf, Mode, InlineKey, ExtHi, ExtFp, ExtHiOf, ExtFpOf,
         LockOk, DirtyOk, CountOk, AllThreadsOk;
    InvParts(env, s, t);
    var th := Th(s, t);
    var l, key := Loc(th.b, i), KeyOf(th.op);
    OwnBucketClean(env, s, t, l);
    InlineMatch(s.st, env.c, l, key);
    if IsFull(s.st, l) && RecOfLoc(s.st, l).h2 == H2Of(env.c.hash(key)) && Matches(s.st, env.c, l, key) {
      HeldHere(s.st, env.c, s.dirty, l, key);
    } else {
      NotHeldHere(s.st, env.c, s.dirty, l, key);
      NoneMore(s.st, s.dirty, th.b, i, key);
    }
  }

  /** Steps outside the bucket section that only wait, read or move on. */
  predicate PlainOutside(pc: Pc) {
    pc.Idle? || pc.AutoRead? || pc.AutoCheck? || pc.GrowWait? || pc.Advance? || pc.DrainLock? || pc.Unread?
  }

  /** Steps of the bucket section that only take or give back a lock. */
  predicate PlainInside(pc: Pc) {
    || pc.WantScan? || pc.WantTtl? || pc.ReadTtl? || pc.WantValue? || pc.WantFree? || pc.WantAlloc?
    || pc.LoadEpoch? || pc.WantStamp? || pc.CountUp? || pc.CountDown? || pc.Unlock?
  }

  lemma PlainOutsideStep(env: Env, s: Sys, t: nat, lossy: bool)
    requires Inv(env, s) && PlainOutside(Th(s, t).pc)
    requires ThreadOk(s.st, s.dirty, s.layout, env.c, Th(s, t))
    requires CanTake(s, HoldsOf(Th(s, t)), HoldsOf(Next(env, s, t, lossy).1))
    ensures Inv(env, Relock(Next(env, s, t, lossy).0, t, Next(env, s, t, lossy).1))
  {
    hide Good, Holding, NoneBelow, LockOk, DirtyOk, CountOk, AllThreadsOk, CanTake, HoldsOf, QueueOk, LogOk, Live, IndexOf,
         RecAt, KvAt, Mode, H2Of, CeilBits, Pow2, Wrap64, Relock, StoringOk, FreeingOk, StampOk, EvOk;
    InvParts(env, s, t);
    var (s1, th') := Next(env, s, t, lossy);
    QuietStep(env, s, s1, t, th');
  }

  /** What a thread relies on depends on its operation and bucket, not on where it stands. */
  lemma SameNeeds(st: Store, dirty: set<Loc>, c: Config, th: Thread, pc: Pc, i: nat, kind: Kind)
    requires Shape(st)
    ensures StoringOk(st, dirty, c, th.(pc := pc), i, kind) == StoringOk(st, dirty, c, th, i, kind)
    ensures FreeingOk(st, dirty, th.(pc := pc), i, kind) == FreeingOk(st, dirty, th, i, kind)
    ensures StampOk(st, th.(pc := pc), i) == StampOk(st, th, i)
  {
    hide NoneBelow, Holding, Live, Mode, RecAt, H2Of;
  }

  lemma PlainInsideThread(env: Env, s: Sys, t: nat, lossy: bool)
    requires Good(s.st, env.c, s.dirty) && PlainInside(Th(s, t).pc) && ThreadOk(s.st, s.dirty, s.layout, env.c, Th(s, t))
    ensures Shape(s.st) && ThreadOk(s.st, s.dirty, s.layout, env.c, Next(env, s, t, lossy).1)
  {
    hide Good, Holding, NoneBelow, Live, IndexOf, RecAt, KvAt, Mode, H2Of, CeilBits, Pow2, StoringOk, FreeingOk, StampOk, EvOk;
    GoodShape(s.st, env.c, s.dirty);
    var th' := Next(env, s, t, lossy).1;
    if Th(s, t).pc.WantFree? || Th(s, t).pc.WantAlloc? || Th(s, t).pc.LoadEpoch? || Th(s, t).pc.WantStamp? {
      SameNeeds(s.st, s.dirty, env.c, Th(s, t), th'.pc, th'.pc.i, th'.pc.kind);
    }
  }

  lemma PlainInsideStep(env: Env, s: Sys, t: nat, lossy: bool)
    requires Inv(env, s) && PlainInside(Th(s, t).pc)
    requires ThreadOk(s.st, s.dirty, s.layout, env.c, Th(s, t))
    requires CanTake(s, HoldsOf(Th(s, t)), HoldsOf(Next(env, s, t, lossy).1))
    ensures Inv(env, Relock(Next(env, s, t, lossy).0, t, Next(env, s, t, lossy).1))
  {
    hide Good, LockOk, DirtyOk, CountOk, AllThreadsOk, ThreadOk, CanTake, HoldsOf, QueueOk, LogOk, RecAt, KvAt, Mode, Relock;
    GoodShape(s.st, env.c, s.dirty);
    var (s1, th') := Next(env, s, t, lossy);
    RewritingDirty(s.st, s.dirty, s.layout, env.c, Th(s, t));
    PlainInsideThread(env, s, t, lossy);
    QuietStep(env, s, s1, t, th');
  }

  lemma RewritingDirty(st: Store, dirty: set<Loc>, layout: nat, c: Config, th: Thread)
    requires Shape(st) && ThreadOk(st, dirty, layout, c, th)
    ensures RewritingSet(th) <= dirty
  {
    hide Holding, NoneBelow, IndexOf, RecAt, Mode, H2Of, Live;
  }

  /** Scan steps below the end of the bucket. */
  lemma ScanStep(env: Env, s: Sys, t: nat, lossy: bool)
    requires Inv(env, s) && Th(s, t).pc.Scan? && Th(s, t).pc.i < 4
    requires ThreadOk(s.st, s.dirty, s.layout, env.c, Th(s, t))
    requires CanTake(s, HoldsOf(Th(s, t)), HoldsOf(Next(env, s, t, lossy).1))
    ensures Inv(env, Relock(Next(env, s, t, lossy).0, t, Next(env, s, t, lossy).1))
  {
    hide Good, Holding, NoneBelow, LockOk, DirtyOk, CountOk, AllThreadsOk, CanTake, HoldsOf, QueueOk, LogOk, Live, IndexOf,
         RecAt, KvAt, Mode, H2Of, Relock, InlineKey, ExtHi, ExtFp, ThreadOk;
    InvParts(env, s, t);
    ScanSlotOk(env, s, t, Th(s, t).pc.i);
    var (s1, th') := Next(env, s, t, lossy);
    QuietStep(env, s, s1, t, th');
  }

  lemma NoneBelowZero(st: Store, dirty: set<Loc>, b: nat, key: Bytes)
    requires Shape(st)
    ensures NoneBelow(st, dirty, b, 0, key)
  {}

  /** Entering the read-locked part, and the bucket section. */
  lemma EnterStep(env: Env, s: Sys, t: nat, lossy: bool)
    requires Inv(env, s) && (Th(s, t).pc.WantRead? || Th(s, t).pc.WantLock?)
    requires ThreadOk(s.st, s.dirty, s.layout, env.c, Th(s, t))
    requires CanTake(s, HoldsOf(Th(s, t)), HoldsOf(Next(env, s, t, lossy).1))
    ensures Inv(env, Relock(Next(env, s, t, lossy).0, t, Next(env, s, t, lossy).1))
  {
    hide Good, Holding, NoneBelow, LockOk, DirtyOk, CountOk, AllThreadsOk, CanTake, HoldsOf, QueueOk, LogOk, Live, IndexOf,
         RecAt, KvAt, Mode, H2Of, CeilBits, Pow2, Wrap64, Relock, StoringOk, FreeingOk, StampOk, EvOk;
    InvParts(env, s, t);
    var (s1, th') := Next(env, s, t, lossy);
    NoneBelowZero(s.st, s.dirty, th'.b, KeyOf(th'.op));
    QuietStep(env, s, s1, t, th');
  }

  /** Steps that change the queue or the log, but not the table. */
  lemma NoteStep(env: Env, s: Sys, s1: Sys, t: nat, th': Thread)
    requires Inv(env, s) && SameFrame(s, s1) && s1.layout == s.layout && CanTake(s, HoldsOf(Th(s, t)), HoldsOf(th'))
    requires s1.st == s.st && s1.dirty == s.dirty && s1.count == s.count
    requires QueueOk(s.st, s.layout, s1.queue) && Shape(s.st) && Current(s.st, s.dirty, s1.log) && HitsOk(s1.log)
    requires ThreadOk(s.st, s.dirty, s.layout, env.c, th') && Rewriting(th') == Rewriting(Th(s, t)) == None
    requires AddPending(th') == AddPending(Th(s, t)) && SubPending(th') == SubPending(Th(s, t))
    ensures Inv(env, Relock(s1, t, th'))
  {
    hide LockOk, Good, AllThreadsOk, ThreadOk, KeptMem, QueueOk, CountOk, DirtyOk, View, N.Occupied,
         AddPending, SubPending, HoldsOf, CanTake, Current, HitsOk, Rewriting;
    GoodShape(s.st, env.c, s.dirty);
    KeptSame(s.st, s.dirty, 0);
    Assemble(env, s, s1, t, th', 0);
  }

  /** A drained event is in range and of the current layout. */
  lemma PopStep(env: Env, s: Sys, t: nat, lossy: bool)
    requires Inv(env, s) && Th(s, t).pc.Draining?
    requires ThreadOk(s.st, s.dirty, s.layout, env.c, Th(s, t))
    requires CanTake(s, HoldsOf(Th(s, t)), HoldsOf(Next(env, s, t, lossy).1))
    ensures Inv(env, Relock(Next(env, s, t, lossy).0, t, Next(env, s, t, lossy).1))
  {
    hide Good, Holding, NoneBelow, LockOk, DirtyOk, CountOk, AllThreadsOk, CanTake, HoldsOf, Live, IndexOf, Current, HitsOk,
         RecAt, KvAt, Mode, H2Of, CeilBits, Pow2, Relock, EvOk;
    InvParts(env, s, t);
    var (s1, th') := Next(env, s, t, lossy);
    NoteStep(env, s, s1, t, th');
  }

  /** Live slots that keep their pair keep its value current. */
  lemma CurrentKept(st: Store, dirty: set<Loc>, st': Store, dirty': set<Loc>, log: seq<Logged>)
    requires Shape(st) && Shape(st') && Current(st, dirty, log)
    requires forall m :: Live(st', dirty', m) ==> Live(st, dirty, m) && KvAt(st', m) == KvAt(st, m)
    ensures Current(st', dirty', log)
  {
    hide Live, KvAt, Latest;
  }

  lemma TouchOne(st: Store, c: Config, dirty: set<Loc>, l: Loc)
    requires Good(st, c, dirty) && InRange(st, l)
    ensures var st' := TouchStore(st, l);
            && Good(st', c, dirty) && KeptMem(st, dirty, st', dirty, l.b) && |st'.buckets| == |st.buckets| && st'.bits == st.bits
            && (forall m :: Live(st', dirty, m) <==> Live(st, dirty, m))
            && (forall m :: InRange(st, m) ==> KvAt(st', m) == KvAt(st, m) && TtlAt(st', m) == TtlAt(st, m) && SlotAt(st', m) == SlotAt(st, m))
            && (forall m :: InRange(st, m) ==> RecOfLoc(st', m).state == RecOfLoc(st, m).state && RecOfLoc(st', m).h2 == RecOfLoc(st, m).h2)
            && FullBut(st, st', l) && IsFull(st', l) == IsFull(st, l)
  {
    hide RecAt, OnAccess, KvAt, PoolGood, SlotGood, Slots.Mode;
    var w := OnAccess(st.buckets[l.b].meta, l.i);
    OnAccessSameBut(st.buckets[l.b].meta, l.i);
    TouchGood(st, c, dirty, l.b, w);
    var st' := TouchStore(st, l);
    forall m | InRange(st, m)
      ensures RecOfLoc(st', m).state == RecOfLoc(st, m).state && RecOfLoc(st', m).h2 == RecOfLoc(st, m).h2
    {}
  }

  /** Applying a deferred access. */
  lemma ApplyStep(env: Env, s: Sys, t: nat, lossy: bool)
    requires Inv(env, s) && Th(s, t).pc.DrainApply?
    requires ThreadOk(s.st, s.dirty, s.layout, env.c, Th(s, t))
    requires CanTake(s, HoldsOf(Th(s, t)), HoldsOf(Next(env, s, t, lossy).1))
    ensures Inv(env, Relock(Next(env, s, t, lossy).0, t, Next(env, s, t, lossy).1))
  {
    hide Good, Holding, NoneBelow, LockOk, DirtyOk, CountOk, AllThreadsOk, CanTake, Live, IndexOf, Current, HitsOk, KeptMem, FullBut,
         RecAt, KvAt, Mode, H2Of, CeilBits, Pow2, Relock, TouchStore, View, N.Occupied, IsFull;
    InvParts(env, s, t);
    var (s1, th') := Next(env, s, t, lossy);
    var l := Th(s, t).pc.ev.loc;
    TouchOne(s.st, env.c, s.dirty, l);
    GoodShape(s1.st, env.c, s.dirty);
    LiveRange(s.st, s.dirty);
    CurrentKept(s.st, s.dirty, s1.st, s.dirty, s.log);
    FullCount(s.st, s1.st, l);
    Assemble(env, s, s1, t, th', l.b);
  }
}

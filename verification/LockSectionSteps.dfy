/** Every step keeps the account of bucket sections and stamps (`History`). */
module LockSectionSteps {
  import opened Base
  import opened MetaWord
  import opened Slots
  import opened Hashing
  import opened Stores
  import opened Views
  import opened LockSys
  import opened LockSteps
  import opened LockSafety
  import opened LockCases
  import opened LockWrites
  import opened LockEffects
  import opened LockSections
  import Cells

  /** A step of `t` that is not blocked, from a state of the invariant to a state of the invariant. */
  ghost predicate Fires(env: Env, s: Sys, t: nat, lossy: bool) {
    && Inv(env, s) && History(s)
    && Good(s.st, env.c, s.dirty) && ThreadOk(s.st, s.dirty, s.layout, env.c, Th(s, t))
    && CanTake(s, HoldsOf(Th(s, t)), HoldsOf(Next(env, s, t, lossy).1))
    && Inv(env, Relock(Next(env, s, t, lossy).0, t, Next(env, s, t, lossy).1))
  }

  ghost predicate Carried(env: Env, s: Sys, t: nat, lossy: bool)
    requires Fires(env, s, t, lossy)
  {
    History(Relock(Next(env, s, t, lossy).0, t, Next(env, s, t, lossy).1))
  }

  /** Steps that end outside a bucket section. */
  predicate LeavesOut(pc: Pc) {
    || pc.Idle? || pc.AutoRead? || pc.AutoCheck? || pc.GrowWait? || pc.Advance? || pc.WantRead? || pc.Draining? || pc.DrainLock?
    || pc.Unlock? || pc.Unread?
  }

  lemma OutStep(env: Env, s: Sys, t: nat, lossy: bool)
    requires Fires(env, s, t, lossy) && LeavesOut(Th(s, t).pc)
    ensures Carried(env, s, t, lossy)
  {
    hide Inv, ThreadOk, Good, CanTake, HoldsOf, Relock, IndexOf, CeilBits, Pow2, PointOk, AllSections, StampedOk, StampsOk;
    GoodShape(s.st, env.c, s.dirty);
    var (s1, th') := Next(env, s, t, lossy);
    WrapNext(s.advances);
    CarryQuiet(env, s, s1, t, th');
  }

  lemma WrapNext(n: nat)
    ensures Wrap64(Wrap64(n) + 1) == Wrap64(n + 1)
  {}

  /** Taking the bucket lock: the thread sees the bucket, and nobody is writing there. */
  lemma LockStep(env: Env, s: Sys, t: nat, lossy: bool)
    requires Fires(env, s, t, lossy) && Th(s, t).pc.WantLock?
    ensures Carried(env, s, t, lossy)
  {
    hide Good, AllThreadsOk, QueueOk, LogOk, CountOk, RwOk, MutexesOk, Relock, AllSections, StampedOk, StampsOk, PcOk, CellAt, Wrap64, IndexOf;
    GoodShape(s.st, env.c, s.dirty);
    var (s1, th') := Next(env, s, t, lossy);
    assert th'.b !in s.locks;
    forall j: nat | j < 4 ensures CellSeen(s.st, s.dirty, Loc(th'.b, j), th'.seen[j]) {
      assert Loc(th'.b, j) !in s.dirty;
    }
    CarryQuiet(env, s, s1, t, th') by { hide Inv, ThreadOk, CanTake; }
  }

  lemma SeenBucket(st: Store, dirty: set<Loc>, b: nat, seen: Cells.Bucket)
    requires Shape(st) && b < |st.buckets| && BucketSeen(st, dirty, b, seen, 4)
    ensures BucketAt(st, b) == seen
    ensures forall j: nat :: j < 4 ==> Loc(b, j) !in dirty
  {
    hide CellAt;
    forall j: nat | j < 4 ensures CellAt(st, Loc(b, j)) == seen[j] && Loc(b, j) !in dirty {
      assert CellSeen(st, dirty, Loc(b, j), seen[j]);
    }
  }

  /** A settled cell holds the key exactly when the live slot does. */
  lemma HoldingSeen(st: Store, dirty: set<Loc>, b: nat, seen: Cells.Bucket, j: nat, key: Bytes)
    requires Shape(st) && b < |st.buckets| && BucketSeen(st, dirty, b, seen, 4) && j < 4
    ensures Holding(st, dirty, Loc(b, j), key) <==> Cells.Holds(seen[j], key)
  {
    hide KvAt, RecAt, TtlAt;
    assert CellSeen(st, dirty, Loc(b, j), seen[j]);
  }

  lemma MissSeen(st: Store, dirty: set<Loc>, b: nat, seen: Cells.Bucket, key: Bytes)
    requires Shape(st) && b < |st.buckets| && BucketSeen(st, dirty, b, seen, 4) && NoneBelow(st, dirty, b, 4, key)
    ensures Cells.Find(seen, key) == None
  {
    hide BucketSeen, Holding;
    forall j: nat | j < 4 ensures !Cells.Holds(seen[j], key) {
      assert !Holding(st, dirty, Loc(b, j), key);
      HoldingSeen(st, dirty, b, seen, j, key);
    }
  }

  lemma MatchSeen(st: Store, dirty: set<Loc>, b: nat, seen: Cells.Bucket, i: nat, key: Bytes)
    requires Shape(st) && b < |st.buckets| && BucketSeen(st, dirty, b, seen, 4) && i < 4
    requires NoneBelow(st, dirty, b, i, key) && Holding(st, dirty, Loc(b, i), key)
    ensures Cells.Find(seen, key) == Some(i)
  {
    hide BucketSeen, Holding;
    forall j: nat | j < 4 ensures Cells.Holds(seen[j], key) <==> Holding(st, dirty, Loc(b, j), key) {
      HoldingSeen(st, dirty, b, seen, j, key);
    }
    assert forall j: nat :: j < i ==> !Holding(st, dirty, Loc(b, j), key);
  }

  /** Points of a section before it has chosen anything. */
  predicate Looking(pc: Pc) {
    pc.Scan? || pc.WantScan? || pc.Scanning? || pc.WantTtl? || pc.ReadTtl? || pc.WantValue? || pc.ReadValue?
  }

  lemma LookingOk(st: Store, dirty: set<Loc>, log: seq<Logged>, advances: nat, th: Thread)
    requires Shape(st) && th.b < |st.buckets| && BucketSeen(st, dirty, th.b, th.seen, 4) && Looking(th.pc)
    ensures SectionOk(st, dirty, log, advances, th)
  {
    hide BucketSeen;
  }

  lemma LookingSeen(s: Sys, t: nat)
    requires Shape(s.st) && AllSections(s) && (Looking(Th(s, t).pc) || Th(s, t).pc.Judge? || Th(s, t).pc.WantFree? || Th(s, t).pc.Freeing?)
    ensures Th(s, t).b < |s.st.buckets| && BucketSeen(s.st, s.dirty, Th(s, t).b, Th(s, t).seen, 4)
  {
    hide BucketSeen;
    assert SectionOk(s.st, s.dirty, s.log, s.advances, Th(s, t));
  }

  /** A lookup leaves its bucket as it found it. */
  lemma ReadEnded(st: Store, dirty: set<Loc>, log: seq<Logged>, advances: nat, th: Thread)
    requires Shape(st) && th.b < |st.buckets| && BucketSeen(st, dirty, th.b, th.seen, 4) && (th.op.Get? || th.op.Peek?)
    requires th.pc.Unlock?
    ensures SectionOk(st, dirty, log, advances, th)
  {
    SeenBucket(st, dirty, th.b, th.seen);
    hide BucketSeen, CellAt;
  }

  /** A remove that found nothing leaves its bucket too. */
  lemma MissEnded(st: Store, dirty: set<Loc>, log: seq<Logged>, advances: nat, th: Thread)
    requires Shape(st) && th.b < |st.buckets| && BucketSeen(st, dirty, th.b, th.seen, 4) && th.op.Remove?
    requires NoneBelow(st, dirty, th.b, 4, KeyOf(th.op)) && th.pc.Unlock?
    ensures SectionOk(st, dirty, log, advances, th)
  {
    SeenBucket(st, dirty, th.b, th.seen);
    MissSeen(st, dirty, th.b, th.seen, KeyOf(th.op));
    hide BucketSeen, CellAt;
  }

  // ---------------------------------------------------------------------
  // Looking
  // ---------------------------------------------------------------------

  lemma LookStep(env: Env, s: Sys, t: nat, lossy: bool)
    requires Fires(env, s, t, lossy) && Looking(Th(s, t).pc) && Looking(Next(env, s, t, lossy).1.pc)
    ensures Carried(env, s, t, lossy)
  {
    hide Inv, ThreadOk, Good, CanTake, HoldsOf, Relock, IndexOf, AllSections, StampedOk, StampsOk, SectionOk, BucketSeen, Matches, Mode,
         AfterMiss, ScanSlot;
    GoodShape(s.st, env.c, s.dirty);
    var (s1, th') := Next(env, s, t, lossy);
    LookingSeen(s, t);
    LookingOk(s.st, s.dirty, s.log, s.advances, th');
    CarryQuiet(env, s, s1, t, th');
  }

  lemma ReadTtlStep(env: Env, s: Sys, t: nat, lossy: bool)
    requires Fires(env, s, t, lossy) && Th(s, t).pc.ReadTtl?
    ensures Carried(env, s, t, lossy)
  {
    hide Inv, Good, CanTake, HoldsOf, Relock, IndexOf, AllSections, StampedOk, StampsOk, BucketSeen, Holding, TtlAt;
    GoodShape(s.st, env.c, s.dirty);
    var (s1, th') := Next(env, s, t, lossy);
    LookingSeen(s, t);
    CarryQuiet(env, s, s1, t, th') by { hide ThreadOk; }
  }

  /** A log entry that changes no live slot's latest insert. */
  lemma LogStep(env: Env, s: Sys, s1: Sys, t: nat, th': Thread, e: Logged)
    requires Inv(env, s) && Inv(env, Relock(s1, t, th')) && History(s) && SameFrame(s, s1)
    requires CanTake(s, HoldsOf(Th(s, t)), HoldsOf(th'))
    requires s1.st == s.st && s1.dirty == s.dirty && s1.log == s.log + [e] && s1.advances == s.advances && s1.epoch == s.epoch
    requires InBucket(Th(s, t).pc) && e.key == KeyOf(Th(s, t).op) && StampDue(Th(s, t)) == None == StampDue(th')
    requires Shape(s.st) && SectionOk(s.st, s.dirty, s1.log, s.advances, th')
    requires e.Hit? || (e.Removed? && forall m :: Live(s.st, s.dirty, m) ==> KvAt(s.st, m).key != e.key)
    ensures History(Relock(s1, t, th'))
  {
    hide Good, AllThreadsOk, DirtyOk, QueueOk, LogOk, CountOk, RwOk, MutexesOk, HoldsOf, StampDue, SectionOk, CanTake, StampsOk,
         Wrap64, Relock, SameFrame, KeptMem, LogKept, AllSections, Latest, RecAt, KvAt, TtlAt, IndexOf, Due;
    assert BucketsOk(s) by { LocksSplit(s); }
    SectionHolds(env, s, t);
    var b := Th(s, t).b;
    KeptSame(s.st, s.dirty, b);
    LogOne(env.c, s.st.bits, s.log, e, b);
    StampsAppend(s.log, e);
    forall l | Live(s.st, s.dirty, l) && l.b == b ensures SlotStamped(s.st, s1.log, s.advances, l) {
      NotDue(s, t, l);
      LatestAppend(s.log, e, KvAt(s.st, l).key);
    }
    Carry(env, s, s1, t, th', b);
  }

  /** The end of the expiry check: hidden, or answered at once, or the value is in the slab. */
  lemma JudgedStep(env: Env, s: Sys, t: nat, lossy: bool)
    requires Fires(env, s, t, lossy) && Th(s, t).pc.Judge?
    ensures Carried(env, s, t, lossy)
  {
    hide Inv, ThreadOk, Good, CanTake, HoldsOf, Relock, IndexOf, AllSections, StampedOk, StampsOk, SectionOk, BucketSeen, Cells.Expired, Mode,
         Pushed, KvAt;
    GoodShape(s.st, env.c, s.dirty);
    var th := Th(s, t);
    JudgeThread(s.st, s.dirty, s.layout, env.c, th);
    var (s1, th') := Next(env, s, t, lossy);
    LookingSeen(s, t);
    if th'.pc.WantValue? {
      LookingOk(s.st, s.dirty, s.log, s.advances, th');
      CarryQuiet(env, s, s1, t, th');
    } else {
      ReadEnded(s.st, s.dirty, s1.log, s.advances, th');
      if s1.log == s.log {
        CarryQuiet(env, s, s1, t, th');
      } else {
        LogStep(env, s, s1, t, th', Hit(KeyOf(th.op), KvAt(s.st, Loc(th.b, th.pc.i)).value));
      }
    }
  }

  lemma ReadOp(st: Store, dirty: set<Loc>, layout: nat, c: Config, th: Thread)
    requires Shape(st) && ThreadOk(st, dirty, layout, c, th) && th.pc.ReadValue?
    ensures th.op.Get? && th.pc.i < 4 && InRange(st, Loc(th.b, th.pc.i))
  {
    hide IndexOf, RecAt, KvAt;
  }

  lemma AnswerStep(env: Env, s: Sys, t: nat, lossy: bool)
    requires Fires(env, s, t, lossy) && Th(s, t).pc.ReadValue?
    ensures Carried(env, s, t, lossy)
  {
    hide Inv, ThreadOk, Good, CanTake, HoldsOf, Relock, IndexOf, AllSections, StampedOk, StampsOk, SectionOk, BucketSeen, KvAt;
    GoodShape(s.st, env.c, s.dirty);
    var th := Th(s, t);
    ReadOp(s.st, s.dirty, s.layout, env.c, th);
    var (s1, th') := Next(env, s, t, lossy);
    LookingSeen(s, t);
    ReadEnded(s.st, s.dirty, s1.log, s.advances, th');
    LogStep(env, s, s1, t, th', Hit(KeyOf(th.op), KvAt(s.st, Loc(th.b, th.pc.i)).value));
  }

  /** The end of a scan. */
  lemma ScanEnd(st: Store, dirty: set<Loc>, layout: nat, c: Config, th: Thread)
    requires Good(st, c, dirty) && ThreadOk(st, dirty, layout, c, th) && th.pc.Scan? && th.pc.i >= 4
    ensures Shape(st) && NoneBelow(st, dirty, th.b, 4, KeyOf(th.op)) && !th.op.Resize?
    ensures th.b == IndexOf(c, KeyOf(th.op), st.bits) && th.b < |st.buckets|
  {
    hide NoneBelow, IndexOf, Good;
    GoodShape(st, c, dirty);
  }

  lemma NotFoundStep(env: Env, s: Sys, t: nat, lossy: bool)
    requires Fires(env, s, t, lossy) && Th(s, t).pc.Scan? && Th(s, t).pc.i >= 4 && !Th(s, t).op.Insert?
    ensures Carried(env, s, t, lossy)
  {
    hide Inv, ThreadOk, Good, CanTake, HoldsOf, Relock, IndexOf, AllSections, StampedOk, StampsOk, SectionOk, BucketSeen, KvAt, NoneBelow, Live,
         ScanSlot, AfterMiss;
    GoodShape(s.st, env.c, s.dirty);
    var th := Th(s, t);
    ScanEnd(s.st, s.dirty, s.layout, env.c, th);
    var (s1, th') := Next(env, s, t, lossy);
    LookingSeen(s, t);
    if th.op.Remove? {
      MissEnded(s.st, s.dirty, s1.log, s.advances, th');
      NowhereLive(s.st, env.c, s.dirty, th.b, KeyOf(th.op));
      LogStep(env, s, s1, t, th', Removed(KeyOf(th.op)));
    } else {
      ReadEnded(s.st, s.dirty, s1.log, s.advances, th');
      CarryQuiet(env, s, s1, t, th');
    }
  }

  // ---------------------------------------------------------------------
  // Waiting for the slab
  // ---------------------------------------------------------------------

  /** A scan that found nothing names the slot the specification names. */
  lemma MissChosen(st: Store, dirty: set<Loc>, th: Thread)
    requires Shape(st) && th.b < |st.buckets| && BucketSeen(st, dirty, th.b, th.seen, 4) && th.op.Insert?
    requires NoneBelow(st, dirty, th.b, 4, KeyOf(th.op))
    ensures var i := Cells.SyncTarget(BucketAt(st, th.b));
            && Chosen(th.seen, th.op, i, if IsFull(st, Loc(th.b, i)) then Evict else Fresh)
            && InRange(st, Loc(th.b, i)) && Loc(th.b, i) !in dirty
  {
    hide NoneBelow, Cells.SyncTarget, Cells.Find, RecAt, KvAt, TtlAt;
    SeenBucket(st, dirty, th.b, th.seen);
    MissSeen(st, dirty, th.b, th.seen, KeyOf(th.op));
    var i := Cells.SyncTarget(th.seen);
    assert CellSeen(st, dirty, Loc(th.b, i), th.seen[i]);
  }

  /** So does a scan that found the key. */
  lemma MatchChosen(st: Store, dirty: set<Loc>, th: Thread, i: nat)
    requires Shape(st) && th.b < |st.buckets| && BucketSeen(st, dirty, th.b, th.seen, 4) && i < 4
    requires NoneBelow(st, dirty, th.b, i, KeyOf(th.op)) && Holding(st, dirty, Loc(th.b, i), KeyOf(th.op))
    ensures th.op.Insert? ==> Chosen(th.seen, th.op, i, Update)
    ensures th.op.Remove? ==> Chosen(th.seen, th.op, i, Drop)
  {
    hide NoneBelow, Holding, Cells.Find, BucketSeen;
    MatchSeen(st, dirty, th.b, th.seen, i, KeyOf(th.op));
  }

  lemma WaitOk(st: Store, dirty: set<Loc>, log: seq<Logged>, advances: nat, th: Thread)
    requires Shape(st) && th.b < |st.buckets| && BucketSeen(st, dirty, th.b, th.seen, 4)
    requires th.pc.WantFree? && Chosen(th.seen, th.op, th.pc.i, th.pc.kind)
    ensures SectionOk(st, dirty, log, advances, th)
  {
    hide BucketSeen, Chosen;
  }

  lemma MissWaitStep(env: Env, s: Sys, t: nat, lossy: bool)
    requires Fires(env, s, t, lossy) && Th(s, t).pc.Scan? && Th(s, t).pc.i >= 4 && Th(s, t).op.Insert?
    requires Next(env, s, t, lossy).1.pc.WantFree?
    ensures Carried(env, s, t, lossy)
  {
    hide Inv, ThreadOk, Good, CanTake, HoldsOf, Relock, IndexOf, AllSections, StampedOk, StampsOk, SectionOk, BucketSeen, KvAt, NoneBelow, Live,
         ScanSlot, Chosen, Mode, BucketAt, Cells.SyncTarget, IsFull, SlotAt;
    GoodShape(s.st, env.c, s.dirty);
    var th := Th(s, t);
    ScanEnd(s.st, s.dirty, s.layout, env.c, th);
    var (s1, th') := Next(env, s, t, lossy);
    LookingSeen(s, t);
    MissChosen(s.st, s.dirty, th);
    WaitOk(s.st, s.dirty, s.log, s.advances, th');
    CarryQuiet(env, s, s1, t, th');
  }

  /** What a thread comparing keys relies on. */
  lemma ScanningThread(st: Store, dirty: set<Loc>, layout: nat, c: Config, th: Thread)
    requires Good(st, c, dirty) && ThreadOk(st, dirty, layout, c, th) && th.pc.Scanning?
    ensures Shape(st) && th.pc.i < 4 && th.b < |st.buckets| && NoneBelow(st, dirty, th.b, th.pc.i, KeyOf(th.op))
    ensures Live(st, dirty, Loc(th.b, th.pc.i)) && !th.op.Resize? && th.b == IndexOf(c, KeyOf(th.op), st.bits)
    ensures Matches(st, c, Loc(th.b, th.pc.i), KeyOf(th.op)) ==> Holding(st, dirty, Loc(th.b, th.pc.i), KeyOf(th.op))
  {
    hide NoneBelow, IndexOf, Good, Holding, Matches, RecAt;
    GoodShape(st, c, dirty);
    if Matches(st, c, Loc(th.b, th.pc.i), KeyOf(th.op)) { HeldHere(st, c, dirty, Loc(th.b, th.pc.i), KeyOf(th.op)); }
  }

  lemma MatchWaitOn(env: Env, s: Sys, t: nat, lossy: bool)
    requires Fires(env, s, t, lossy) && Th(s, t).pc.Scanning? && Next(env, s, t, lossy).1.pc.WantFree?
    ensures Carried(env, s, t, lossy)
  {
    hide Inv, ThreadOk, Good, CanTake, HoldsOf, Relock, IndexOf, AllSections, StampedOk, StampsOk, SectionOk, BucketSeen, KvAt, NoneBelow, Live,
         Chosen, Mode, Matches, Holding, SlotAt;
    GoodShape(s.st, env.c, s.dirty);
    var th := Th(s, t);
    ScanningThread(s.st, s.dirty, s.layout, env.c, th);
    var (s1, th') := Next(env, s, t, lossy);
    LookingSeen(s, t);
    MatchChosen(s.st, s.dirty, th, th.pc.i);
    WaitOk(s.st, s.dirty, s.log, s.advances, th');
    CarryQuiet(env, s, s1, t, th');
  }

  /** Points that take a lock, count or load the epoch without touching the table. */
  predicate Waiting(pc: Pc) {
    pc.WantFree? || pc.WantAlloc? || pc.Storing? || pc.LoadEpoch? || pc.WantStamp? || pc.CountUp? || pc.CountDown?
  }

  lemma WaitingSection(env: Env, s: Sys, t: nat, lossy: bool)
    requires Good(s.st, env.c, s.dirty) && ThreadOk(s.st, s.dirty, s.layout, env.c, Th(s, t)) && History(s) && Waiting(Th(s, t).pc)
    requires Next(env, s, t, lossy).0.st == s.st && !Next(env, s, t, lossy).1.pc.LoadEpoch?
    ensures SectionOk(s.st, s.dirty, s.log, s.advances, Next(env, s, t, lossy).1)
    ensures StampDue(Next(env, s, t, lossy).1) == StampDue(Th(s, t))
  {
    hide ThreadOk, Good, AllSections, StampedOk, StampsOk, BucketSeen, Chosen, Written, Finished, WordSeen, Latest, TtlAt, PutStep, FitsInline,
         Wrap64, BucketAt;
    GoodShape(s.st, env.c, s.dirty);
    assert SectionOk(s.st, s.dirty, s.log, s.advances, Th(s, t)) by { assert AllSections(s); AllOf(s, t); }
    PutMovesOn(env, s, t);
  }

  lemma AllOf(s: Sys, t: nat)
    requires Shape(s.st) && AllSections(s)
    ensures SectionOk(s.st, s.dirty, s.log, s.advances, Th(s, t))
  {
    hide SectionOk;
  }

  lemma PutMovesOn(env: Env, s: Sys, t: nat)
    requires Good(s.st, env.c, s.dirty) && ThreadOk(s.st, s.dirty, s.layout, env.c, Th(s, t))
    ensures Th(s, t).pc.Storing? || Th(s, t).pc.Allocating? ==>
              && InRange(s.st, Loc(Th(s, t).b, Th(s, t).pc.i)) && Th(s, t).op.Insert?
              && PutStep(env, s, Th(s, t), Th(s, t).pc.i, Th(s, t).pc.kind).1 == Th(s, t).(pc := LoadEpoch(Th(s, t).pc.i, Th(s, t).pc.kind))
  {
    hide Good, ThreadOk, PutStep;
    GoodShape(s.st, env.c, s.dirty);
    var th := Th(s, t);
    if th.pc.Storing? || th.pc.Allocating? {
      StoringThread(s.st, s.dirty, s.layout, env.c, th);
      PutMoves(env, s, th, th.pc.i, th.pc.kind);
    }
  }

  lemma WaitStep(env: Env, s: Sys, t: nat, lossy: bool)
    requires Fires(env, s, t, lossy) && Waiting(Th(s, t).pc) && !Next(env, s, t, lossy).1.pc.LoadEpoch?
    ensures Carried(env, s, t, lossy)
  {
    hide Inv, ThreadOk, Good, CanTake, HoldsOf, Relock, AllSections, StampedOk, StampsOk, SectionOk, PutStep, FitsInline, StampDue, Wrap64;
    GoodShape(s.st, env.c, s.dirty);
    PutMovesOn(env, s, t);
    var (s1, th') := Next(env, s, t, lossy);
    WaitingSection(env, s, t, lossy);
    CarryQuiet(env, s, s1, t, th');
  }
}

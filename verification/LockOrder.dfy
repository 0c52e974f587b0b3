/** Lock order and progress: the lock-granularity system never deadlocks. */
module LockOrder {
  import opened Base
  import opened MetaWord
  import opened Slots
  import opened Hashing
  import opened Stores
  import opened Views
  import opened LockSys
  import opened LockSteps
  import opened LockCases
  import opened LockSections
  import opened LockRuns
  import S = SyncSpec
  import Cells

  /** Held locks lie below newly taken ones: RwLock, then one bucket, then slab, then epochs. */
  predicate Ordered(h: Holds, h': Holds) {
    && ((h'.read && !h.read) || (h'.write && !h.write) ==> !h.read && !h.write && h.bucket.None? && !h.slab && !h.epochs)
    && (h'.bucket.Some? && h'.bucket != h.bucket ==> h.bucket.None? && h.read && !h.slab && !h.epochs)
    && (h'.slab && !h.slab ==> h.bucket.Some? && !h.epochs)
    && (h'.epochs && !h.epochs ==> h.bucket.Some?)
  }

  /** At most one lock is newly taken. */
  function Taken(h: Holds, h': Holds): nat {
    (if h'.read && !h.read then 1 else 0) + (if h'.write && !h.write then 1 else 0)
    + (if h'.bucket.Some? && h'.bucket != h.bucket then 1 else 0)
    + (if h'.slab && !h.slab then 1 else 0) + (if h'.epochs && !h.epochs then 1 else 0)
  }

  lemma LocksInside(env: Env, s: Sys, t: nat, lossy: bool)
    requires Good(s.st, env.c, s.dirty) && ThreadOk(s.st, s.dirty, s.layout, env.c, Th(s, t)) && InBucket(Th(s, t).pc)
    ensures var h, h' := HoldsOf(Th(s, t)), HoldsOf(Next(env, s, t, lossy).1);
            Ordered(h, h') && Taken(h, h') <= 1
  {
    hide Good, NoneBelow, Holding, Live, IndexOf, Mode, KvAt, RecAt, H2Of, Cells.SyncTarget, Cells.Expired, BucketAt,
         ExtHi, ExtFp, InlineKey, Matches, Wrap64, Pushed, Release, ClearStore, PutStore, TouchStore, SetTtl,
         GrowStep, EvOk, CeilBits, Pow2, FitsInline, StoringOk, FreeingOk, StampOk;
    GoodShape(s.st, env.c, s.dirty);
  }

  lemma LocksOutside(env: Env, s: Sys, t: nat, lossy: bool)
    requires Good(s.st, env.c, s.dirty) && ThreadOk(s.st, s.dirty, s.layout, env.c, Th(s, t)) && !InBucket(Th(s, t).pc)
    ensures var h, h' := HoldsOf(Th(s, t)), HoldsOf(Next(env, s, t, lossy).1);
            Ordered(h, h') && Taken(h, h') <= 1
  {
    hide Good, NoneBelow, Holding, Live, IndexOf, Mode, KvAt, RecAt, H2Of, Cells.SyncTarget, Cells.Expired, BucketAt,
         ExtHi, ExtFp, InlineKey, Matches, Wrap64, Pushed, Release, ClearStore, PutStore, TouchStore, SetTtl,
         GrowStep, EvOk, CeilBits, Pow2, FitsInline, StoringOk, FreeingOk, StampOk;
    GoodShape(s.st, env.c, s.dirty);
  }

  /** Every step respects the lock order; in particular the drain callback never nests bucket locks. */
  lemma LocksInOrder(env: Env, s: Sys, t: nat, lossy: bool)
    requires Good(s.st, env.c, s.dirty) && ThreadOk(s.st, s.dirty, s.layout, env.c, Th(s, t))
    ensures var h, h' := HoldsOf(Th(s, t)), HoldsOf(Next(env, s, t, lossy).1);
            Ordered(h, h') && Taken(h, h') <= 1
  {
    hide Good, ThreadOk, Next, HoldsOf, Ordered, Taken;
    if InBucket(Th(s, t).pc) { LocksInside(env, s, t, lossy); } else { LocksOutside(env, s, t, lossy); }
  }

  // ---------------------------------------------------------------------
  // Progress
  // ---------------------------------------------------------------------

  /** A writer is queued; a fair RwLock may then turn new readers away. */
  ghost predicate WriterQueued(s: Sys) { exists t: nat :: Th(s, t).pc.GrowWait? }

  /** The step of `t` is not blocked, even if queued writers go before new readers. */
  ghost predicate Ready(env: Env, s: Sys, t: nat, lossy: bool)
    requires Good(s.st, env.c, s.dirty) && ThreadOk(s.st, s.dirty, s.layout, env.c, Th(s, t))
  {
    var h, h' := HoldsOf(Th(s, t)), HoldsOf(Next(env, s, t, lossy).1);
    CanTake(s, h, h') && (h'.read && !h.read ==> !WriterQueued(s))
  }

  ghost predicate Blocked(env: Env, s: Sys, t: nat, lossy: bool)
    requires Inv(env, s)
  {
    InvParts(env, s, t);
    InvGood(env, s);
    !Ready(env, s, t, lossy)
  }

  /** The holder of a bucket lock needs at most the slab or the epochs lock next. */
  lemma SectionNeeds(env: Env, s: Sys, t: nat, lossy: bool)
    requires Good(s.st, env.c, s.dirty) && ThreadOk(s.st, s.dirty, s.layout, env.c, Th(s, t))
    ensures var h, h' := HoldsOf(Th(s, t)), HoldsOf(Next(env, s, t, lossy).1);
            && (h.epochs ==> !h'.write && (h'.slab ==> h.slab) && (h'.bucket.Some? ==> h'.bucket == h.bucket) && !h'.epochs)
            && (h.slab && !h.epochs ==> !h'.write && (h'.bucket.Some? ==> h'.bucket == h.bucket))
            && (h.bucket.Some? ==> !h'.write && (h'.bucket.Some? ==> h'.bucket == h.bucket))
            && (h.read ==> !h'.write) && (h.write ==> !h'.read && !h'.write && h'.bucket.None? && !h'.slab && !h'.epochs)
            && (h.slab || h.epochs ==> h.bucket.Some?) && (h.bucket.Some? ==> h.read)
  {
    hide Good, NoneBelow, Holding, Live, IndexOf, Mode, KvAt, RecAt, H2Of, Cells.SyncTarget, Cells.Expired, BucketAt,
         ExtHi, ExtFp, InlineKey, Matches, Wrap64, Pushed, Release, ClearStore, PutStore, TouchStore, SetTtl,
         GrowStep, EvOk, CeilBits, Pow2, FitsInline, StoringOk, FreeingOk, StampOk;
    GoodShape(s.st, env.c, s.dirty);
  }

  /** Nobody holds a lock that `t` needs when everything it does not hold itself is free. */
  lemma FreeEnough(env: Env, s: Sys, t: nat, lossy: bool)
    requires Inv(env, s)
    requires HoldsOf(Th(s, t)).epochs || s.epochs.None?
    requires HoldsOf(Th(s, t)).epochs || HoldsOf(Th(s, t)).slab || s.slab.None?
    requires HoldsOf(Th(s, t)).bucket.Some? || s.locks == map[]
    requires HoldsOf(Th(s, t)).read || HoldsOf(Th(s, t)).write
    ensures !Blocked(env, s, t, lossy)
  {
    hide Good, LockOk, AllThreadsOk, DirtyOk, QueueOk, LogOk, CountOk, ThreadOk, HoldsOf, Next;
    InvParts(env, s, t);
    SectionNeeds(env, s, t, lossy);
  }

  lemma HolderBusy(s: Sys, t: nat)
    requires var h := HoldsOf(Th(s, t)); h.read || h.write || h.bucket.Some? || h.slab || h.epochs
    ensures !Th(s, t).pc.Idle?
  {}

  lemma WaiterReady(env: Env, s: Sys, t: nat, lossy: bool)
    requires Inv(env, s) && s.writer.None? && s.readers == {} && s.locks == map[] && s.slab.None? && s.epochs.None?
    requires Th(s, t).pc.GrowWait? || !WriterQueued(s)
    ensures !Blocked(env, s, t, lossy)
  {
    hide Good, LockOk, AllThreadsOk, DirtyOk, QueueOk, LogOk, CountOk, ThreadOk, WriterQueued;
    InvParts(env, s, t);
    GoodShape(s.st, env.c, s.dirty);
    if Th(s, t).pc.GrowWait? {
      assert !HoldsOf(Next(env, s, t, lossy).1).read by { hide CeilBits, Pow2; }
    } else {
      hide Next, HoldsOf;
    }
  }

  /** Some holder of the innermost lock in use, or somebody waiting when none is, can move. */
  lemma Progress(env: Env, s: Sys, u: nat, lossy: bool) returns (t: nat)
    requires Inv(env, s) && !Th(s, u).pc.Idle?
    ensures !Th(s, t).pc.Idle? && !Blocked(env, s, t, lossy)
  {
    hide Good, AllThreadsOk, DirtyOk, QueueOk, LogOk, CountOk, HoldsOf, Blocked;
    if s.epochs.Some? {
      t := s.epochs.value;
      HoldersNest(env, s, t);
      FreeEnough(env, s, t, lossy);
      HolderBusy(s, t);
    } else if s.slab.Some? {
      t := s.slab.value;
      HoldersNest(env, s, t);
      FreeEnough(env, s, t, lossy);
      HolderBusy(s, t);
    } else if s.locks != map[] {
      var b :| b in s.locks;
      t := s.locks[b];
      assert HoldsOf(Th(s, t)).bucket == Some(b);
      HoldersNest(env, s, t);
      FreeEnough(env, s, t, lossy);
      HolderBusy(s, t);
    } else if s.readers != {} {
      t :| t in s.readers;
      FreeEnough(env, s, t, lossy);
      HolderBusy(s, t);
    } else if s.writer.Some? {
      t := s.writer.value;
      FreeEnough(env, s, t, lossy);
      HolderBusy(s, t);
    } else if WriterQueued(s) {
      t :| Th(s, t).pc.GrowWait?;
      WaiterReady(env, s, t, lossy);
    } else {
      t := u;
      WaiterReady(env, s, t, lossy);
    }
  }

  lemma HoldersNest(env: Env, s: Sys, t: nat)
    requires Inv(env, s)
    ensures var h := HoldsOf(Th(s, t));
            (h.slab || h.epochs ==> h.bucket.Some?) && (h.bucket.Some? ==> h.read)
  {
    hide Inv, Good, ThreadOk, Next, HoldsOf;
    InvParts(env, s, t);
    InvGood(env, s);
    SectionNeeds(env, s, t, false);
  }

  /** In every reachable state with an unfinished operation, some unfinished operation can step. */
  lemma NoDeadlock(env: Env, bits: nat, acts: seq<Action>, lossy: bool)
    requires Pow2(bits) <= MAX_BUCKETS
    ensures var s := Run(env, bits, acts);
            (exists u: nat :: !Th(s, u).pc.Idle?) ==> exists t: nat :: !Th(s, t).pc.Idle? && !Blocked(env, s, t, lossy)
  {
    hide Run, Inv, Blocked, Pow2;
    var s := Run(env, bits, acts);
    if u: nat :| !Th(s, u).pc.Idle? {
      var t := Progress(env, s, u, lossy);
    }
  }

  // ---------------------------------------------------------------------
  // Operations finish
  // ---------------------------------------------------------------------

  function Left(i: nat, n: nat): nat { if i < n then n - i else 0 }

  /** An upper bound on the steps an operation still has to take. */
  function StepsLeft(pc: Pc): nat {
    match pc
    case Idle => 0
    case Unread => 1
    case Unlock => 2
    case CountDown => 40
    case Clearing(_) => 41
    case CountUp(_) => 42
    case Stamping(_, _, _, _) => 43
    case WantStamp(_, _, _, _) => 44
    case LoadEpoch(_, _) => 45
    case Allocating(_, _) => 46
    case WantAlloc(_, _) => 47
    case Storing(_, _) => 48
    case Freeing(_, _) => 49
    case WantFree(_, _) => 50
    case ReadValue(_) => 56
    case WantValue(_) => 57
    case Judge(_, _) => 58
    case ReadTtl(_) => 59
    case WantTtl(_) => 60
    case Scan(i) => 100 + 3 * Left(i, 4)
    case Scanning(i) => 101 + 3 * Left(i, 3)
    case WantScan(i) => 102 + 3 * Left(i, 3)
    case WantLock => 150
    case Draining(j) => 200 + 3 * Left(j, S.DRAIN_BATCH)
    case DrainApply(j, _) => 201 + 3 * Left(j + 1, S.DRAIN_BATCH)
    case DrainLock(j, _) => 202 + 3 * Left(j + 1, S.DRAIN_BATCH)
    case WantRead => 1000
    case Advance => 1001
    case GrowWork(_) => 1002
    case GrowWait(_) => 1003
    case AutoCheck => 1004
    case AutoRead => 1005
  }

  /** Which program point may come after which. */
  predicate Follows(pc: Pc, pc': Pc) {
    match pc
    case Idle => pc'.Idle?
    case AutoRead => pc'.AutoCheck?
    case AutoCheck => pc'.GrowWait? || pc'.Advance?
    case GrowWait(_) => pc'.GrowWork?
    case GrowWork(_) => pc'.Advance? || pc'.Idle?
    case Advance => pc'.WantRead?
    case WantRead => pc' == Draining(0) || pc'.WantLock?
    case Draining(j) => pc'.WantLock? || (j < S.DRAIN_BATCH && pc'.DrainLock? && pc'.j == j)
    case DrainLock(j, ev) => pc' == DrainApply(j, ev)
    case DrainApply(j, _) => pc' == Draining(j + 1)
    case WantLock => pc' == Scan(0)
    case Scan(i) =>
      if i < 4 then pc' == Scan(i + 1) || pc' == WantScan(i) || pc' == WantTtl(i)
      else pc'.Unlock? || pc'.Storing? || pc'.WantFree?
    case WantScan(i) => pc' == Scanning(i)
    case Scanning(i) => i < 4 && (pc' == Scan(i + 1) || pc' == WantTtl(i) || pc'.WantFree? || pc'.Storing? || pc'.Clearing?)
    case WantTtl(_) => pc'.ReadTtl?
    case ReadTtl(_) => pc'.Judge?
    case Judge(_, _) => pc'.Unlock? || pc'.WantValue?
    case WantValue(_) => pc'.ReadValue?
    case ReadValue(_) => pc'.Unlock?
    case WantFree(_, _) => pc'.Freeing?
    case Freeing(_, _) => pc'.Clearing? || pc'.Storing?
    case Storing(_, _) => pc'.WantAlloc? || pc'.LoadEpoch?
    case WantAlloc(_, _) => pc'.Allocating?
    case Allocating(_, _) => pc'.LoadEpoch?
    case LoadEpoch(_, _) => pc'.WantStamp?
    case WantStamp(_, _, _, _) => pc'.Stamping?
    case Stamping(_, _, _, _) => pc'.CountUp? || pc'.Unlock?
    case CountUp(_) => pc'.Unlock?
    case Clearing(_) => pc'.CountDown?
    case CountDown => pc'.Unlock?
    case Unlock => pc'.Unread?
    case Unread => pc'.Idle?
  }

  lemma NextFollows(env: Env, s: Sys, t: nat, lossy: bool)
    requires Good(s.st, env.c, s.dirty) && ThreadOk(s.st, s.dirty, s.layout, env.c, Th(s, t))
    ensures Follows(Th(s, t).pc, Next(env, s, t, lossy).1.pc)
  {
    hide Good, NoneBelow, Holding, Live, IndexOf, Mode, KvAt, RecAt, H2Of, Cells.SyncTarget, Cells.Expired, BucketAt,
         ExtHi, ExtFp, InlineKey, Matches, Wrap64, Pushed, Release, ClearStore, PutStore, TouchStore, SetTtl,
         GrowStep, EvOk, CeilBits, Pow2, FitsInline, StoringOk, FreeingOk, StampOk;
    GoodShape(s.st, env.c, s.dirty);
  }

  lemma EntryDown(pc: Pc, pc': Pc)
    requires Follows(pc, pc') && !pc.Idle? && (Outside(pc) || Before(pc))
    ensures StepsLeft(pc') < StepsLeft(pc) <= 1005
  {}

  lemma SectionDown(pc: Pc, pc': Pc)
    requires Follows(pc, pc') && InBucket(pc)
    ensures StepsLeft(pc') < StepsLeft(pc) <= 1005
  {}

  /** Every unblocked step brings its operation nearer to its end. */
  lemma StepsShrink(env: Env, s: Sys, t: nat, lossy: bool)
    requires Good(s.st, env.c, s.dirty) && ThreadOk(s.st, s.dirty, s.layout, env.c, Th(s, t)) && !Th(s, t).pc.Idle?
    ensures StepsLeft(Next(env, s, t, lossy).1.pc) < StepsLeft(Th(s, t).pc) <= 1005
  {
    hide Good, ThreadOk, Next, Follows, StepsLeft;
    NextFollows(env, s, t, lossy);
    if InBucket(Th(s, t).pc) { SectionDown(Th(s, t).pc, Next(env, s, t, lossy).1.pc); }
    else { EntryDown(Th(s, t).pc, Next(env, s, t, lossy).1.pc); }
  }

  /** Unblocked steps that `t` takes inside operations, from action `n` of the run on. */
  ghost function OwnSteps(env: Env, bits: nat, acts: seq<Action>, n: nat, t: nat): nat
    requires Pow2(bits) <= MAX_BUCKETS && n <= |acts|
    decreases |acts|
  {
    hide Inv, History, Pow2;
    if |acts| == n then 0
    else
      var s := Run(env, bits, acts[..|acts| - 1]);
      OwnSteps(env, bits, acts[..|acts| - 1], n, t) + if Moves(env, s, acts[|acts| - 1], t) && !Th(s, t).pc.Idle? then 1 else 0
  }

  lemma FewLeft(pc: Pc)
    ensures StepsLeft(pc) <= 1005 && (StepsLeft(pc) == 0 <==> pc.Idle?)
  {}

  /**
   However the threads are scheduled, an operation takes at most 1005 unblocked steps of its
   own: those taken and a bound on those to come never exceed it, until the thread begins
   another operation; and the bound is 0 only for a finished one.
   */
  lemma {:induction false} OperationsFinish(env: Env, bits: nat, acts: seq<Action>, n: nat, t: nat)
    requires Pow2(bits) <= MAX_BUCKETS && n <= |acts|
    requires forall k :: n <= k < |acts| ==> !(acts[k].Begin? && acts[k].t == t)
    ensures OwnSteps(env, bits, acts, n, t) + StepsLeft(Th(Run(env, bits, acts), t).pc) <= StepsLeft(Th(Run(env, bits, acts[..n]), t).pc) <= 1005
    ensures !Th(Run(env, bits, acts), t).pc.Idle? ==> OwnSteps(env, bits, acts, n, t) < 1005
    decreases |acts|
  {
    hide Inv, History, Step, Pow2, StepsLeft, Good, ThreadOk, Next, Moves;
    FewLeft(Th(Run(env, bits, acts), t).pc);
    if |acts| == n {
      assert acts[..n] == acts;
    } else {
      var m := |acts| - 1;
      var s, a := Run(env, bits, acts[..m]), acts[m];
      OperationsFinish(env, bits, acts[..m], n, t);
      assert acts[..m][..n] == acts[..n];
      ThreadAfter(env, s, a, t);
      if Moves(env, s, a, t) { MovedOn(env, s, a, t); }
    }
  }

  lemma MovedOn(env: Env, s: Sys, a: Action, t: nat)
    requires Inv(env, s) && Moves(env, s, a, t)
    ensures if Th(s, t).pc.Idle? then Th(Step(env, s, a), t).pc.Idle? else StepsLeft(Th(Step(env, s, a), t).pc) < StepsLeft(Th(s, t).pc)
  {
    hide Inv, Good, ThreadOk, Next, CanTake, HoldsOf, StepsLeft, Step;
    InvGood(env, s);
    InvParts(env, s, t);
    ThreadAfter(env, s, a, t);
    NextFollows(env, s, t, a.lossy);
    if !Th(s, t).pc.Idle? { StepsShrink(env, s, t, a.lossy); }
  }
}

/** Every run of the lock-granularity system, and what holds in every state it reaches. */
module LockRuns {
  import opened Base
  import opened MetaWord
  import opened Slots
  import opened Hashing
  import opened Stores
  import opened Views
  import opened LockSys
  import opened LockSteps
  import opened LockSafety
  import opened LockCases
  import opened LockWrites
  import opened LockEffects
  import opened LockGrow
  import opened LockSections
  import opened LockSectionSteps
  import opened LockSectionWrites
  import opened LockSectionEffects
  import N = RawRuns

  /** Every kind of step keeps the invariant. */
  lemma GoKeeps(env: Env, s: Sys, t: nat, lossy: bool)
    requires Inv(env, s)
    requires ThreadOk(s.st, s.dirty, s.layout, env.c, Th(s, t))
    requires CanTake(s, HoldsOf(Th(s, t)), HoldsOf(Next(env, s, t, lossy).1))
    ensures Inv(env, Relock(Next(env, s, t, lossy).0, t, Next(env, s, t, lossy).1))
  {
    hide Inv, ThreadOk, CanTake, HoldsOf, Next, Relock, Matches, AfterMatch;
    assert Good(s.st, env.c, s.dirty) by { InvGood(env, s); }
    GoodShape(s.st, env.c, s.dirty);
    var th := Th(s, t);
    match th.pc
    case Idle => PlainOutsideStep(env, s, t, lossy);
    case AutoRead => PlainOutsideStep(env, s, t, lossy);
    case AutoCheck => PlainOutsideStep(env, s, t, lossy);
    case GrowWait(_) => PlainOutsideStep(env, s, t, lossy);
    case GrowWork(_) => GrowWorkStep(env, s, t, lossy);
    case Advance => PlainOutsideStep(env, s, t, lossy);
    case WantRead => EnterStep(env, s, t, lossy);
    case Draining(_) => PopStep(env, s, t, lossy);
    case DrainLock(_, _) => PlainOutsideStep(env, s, t, lossy);
    case DrainApply(_, _) => ApplyStep(env, s, t, lossy);
    case WantLock => EnterStep(env, s, t, lossy);
    case Scan(i) =>
      ScanOp(s.st, s.dirty, s.layout, env.c, th);
      if i < 4 { ScanStep(env, s, t, lossy); }
      else if th.op.Insert? { MissInsertStep(env, s, t, lossy); }
      else if th.op.Remove? { MissRemoveStep(env, s, t, lossy); }
      else { MissReadStep(env, s, t, lossy); }
    case Scanning(i) =>
      ScanningRange(s.st, s.dirty, s.layout, env.c, th);
      if !Matches(s.st, env.c, Loc(th.b, i), KeyOf(th.op)) { MismatchStep(env, s, t, lossy); }
      else if AfterMatch(s.st, th, i).1 { MatchClaimStep(env, s, t, lossy); }
      else { MatchWaitStep(env, s, t, lossy); }
    case Judge(_, _) => JudgeStep(env, s, t, lossy);
    case ReadValue(_) => ReadValueStep(env, s, t, lossy);
    case Freeing(_, _) => FreeStep(env, s, t, lossy);
    case Storing(_, _) => StoreStep(env, s, t, lossy);
    case Allocating(_, _) => StoreStep(env, s, t, lossy);
    case Stamping(_, _, _, _) => StampStep(env, s, t, lossy);
    case Clearing(_) => ClearStep(env, s, t, lossy);
    case Unread => PlainOutsideStep(env, s, t, lossy);
    case _ => PlainInsideStep(env, s, t, lossy);
  }

  lemma InvGood(env: Env, s: Sys)
    requires Inv(env, s)
    ensures Good(s.st, env.c, s.dirty)
  {
    hide Good, LockOk, AllThreadsOk, QueueOk, CountOk, DirtyOk, LogOk;
  }

  lemma ScanOp(st: Store, dirty: set<Loc>, layout: nat, c: Config, th: Thread)
    requires Shape(st) && ThreadOk(st, dirty, layout, c, th) && th.pc.Scan?
    ensures !th.op.Resize?
  {
    hide NoneBelow, IndexOf;
  }

  lemma ScanningRange(st: Store, dirty: set<Loc>, layout: nat, c: Config, th: Thread)
    requires Shape(st) && ThreadOk(st, dirty, layout, c, th) && th.pc.Scanning?
    ensures th.pc.i < 4 && InRange(st, Loc(th.b, th.pc.i))
  {
    hide NoneBelow, IndexOf;
  }

  /** Every kind of step keeps the account of sections and stamps. */
  lemma GoRemembers(env: Env, s: Sys, t: nat, lossy: bool)
    requires Fires(env, s, t, lossy)
    ensures Carried(env, s, t, lossy)
  {
    hide Inv, ThreadOk, CanTake, HoldsOf, Relock, Matches, Carried, Fires, Next;
    FiresOk(env, s, t, lossy);
    var pc, next := Th(s, t).pc, Next(env, s, t, lossy).1.pc;
    NextPc(env, s, t, lossy);
    match pc
    case WantLock => LockStep(env, s, t, lossy);
    case ReadTtl(_) => ReadTtlStep(env, s, t, lossy);
    case Judge(_, _) => JudgedStep(env, s, t, lossy);
    case ReadValue(_) => AnswerStep(env, s, t, lossy);
    case Scan(i) =>
      ScanOp(s.st, s.dirty, s.layout, env.c, Th(s, t));
      if i < 4 { LookStep(env, s, t, lossy); }
      else if !Th(s, t).op.Insert? { NotFoundStep(env, s, t, lossy); }
      else if next.WantFree? { MissWaitStep(env, s, t, lossy); }
      else { MissClaimOn(env, s, t, lossy); }
    case Scanning(_) =>
      if next.WantFree? { MatchWaitOn(env, s, t, lossy); }
      else if Looking(next) { LookStep(env, s, t, lossy); }
      else { MatchClaimOn(env, s, t, lossy); }
    case WantScan(_) => LookStep(env, s, t, lossy);
    case WantTtl(_) => LookStep(env, s, t, lossy);
    case WantValue(_) => LookStep(env, s, t, lossy);
    case Freeing(_, _) => FreeOn(env, s, t, lossy);
    case Storing(_, _) => if next.LoadEpoch? { PutOn(env, s, t, lossy); } else { WaitStep(env, s, t, lossy); }
    case Allocating(_, _) => PutOn(env, s, t, lossy);
    case Stamping(_, _, _, _) => StampOn(env, s, t, lossy);
    case Clearing(_) => ClearOn(env, s, t, lossy);
    case DrainApply(_, _) => DrainOn(env, s, t, lossy);
    case GrowWork(_) => GrowOn(env, s, t, lossy);
    case WantFree(_, _) => WaitStep(env, s, t, lossy);
    case WantAlloc(_, _) => WaitStep(env, s, t, lossy);
    case LoadEpoch(_, _) => WaitStep(env, s, t, lossy);
    case WantStamp(_, _, _, _) => WaitStep(env, s, t, lossy);
    case CountUp(_) => WaitStep(env, s, t, lossy);
    case CountDown => WaitStep(env, s, t, lossy);
    case _ => OutStep(env, s, t, lossy);
  }

  lemma FiresOk(env: Env, s: Sys, t: nat, lossy: bool)
    requires Fires(env, s, t, lossy)
    ensures Good(s.st, env.c, s.dirty) && Shape(s.st) && ThreadOk(s.st, s.dirty, s.layout, env.c, Th(s, t))
  {
    hide Inv, ThreadOk, CanTake, HoldsOf, Relock, Good, Next;
    GoodShape(s.st, env.c, s.dirty);
  }

  /** Where the branching points of a section lead. */
  lemma NextPc(env: Env, s: Sys, t: nat, lossy: bool)
    requires Good(s.st, env.c, s.dirty) && ThreadOk(s.st, s.dirty, s.layout, env.c, Th(s, t))
    ensures var pc, next := Th(s, t).pc, Next(env, s, t, lossy).1.pc;
            && (pc.Scan? && pc.i < 4 ==> Looking(next))
            && (pc.Scan? && pc.i >= 4 && Th(s, t).op.Insert? ==> next.WantFree? || next.Storing?)
            && (pc.Scanning? ==> next.WantFree? || Looking(next) || next.Storing? || next.Clearing?)
            && (pc.WantScan? || pc.WantTtl? || pc.WantValue? ==> Looking(next))
            && (pc.Allocating? ==> next.LoadEpoch?)
            && (pc.WantFree? || pc.WantAlloc? || pc.LoadEpoch? || pc.WantStamp? || pc.CountUp? || pc.CountDown? ==> !next.LoadEpoch?)
  {
    hide Good, NoneBelow, Holding, Live, IndexOf, Mode, KvAt, RecAt, H2Of, Cells.SyncTarget, Cells.Expired, BucketAt,
         ExtHi, ExtFp, InlineKey, Matches, Wrap64, Pushed, Release, ClearStore, PutStore, TouchStore, SetTtl,
         GrowStep, EvOk, CeilBits, Pow2, FitsInline, StoringOk, FreeingOk, StampOk;
    GoodShape(s.st, env.c, s.dirty);
  }

  lemma BeginKeeps(env: Env, s: Sys, t: nat, op: Op)
    requires Inv(env, s) && Th(s, t).pc.Idle? && (op.Resize? ==> Pow2(CeilBits(op.n)) <= MAX_BUCKETS)
    ensures Inv(env, Relock(s, t, Thread(op, 0, Entry(env, op), NOBODY.seen)))
  {
    hide Good, LockOk, DirtyOk, CountOk, AllThreadsOk, QueueOk, LogOk, CeilBits, Pow2, Relock, IndexOf;
    GoodShape(s.st, env.c, s.dirty);
    QuietStep(env, s, s, t, Thread(op, 0, Entry(env, op), NOBODY.seen));
  }

  lemma BeginRemembers(env: Env, s: Sys, t: nat, op: Op)
    requires Inv(env, s) && History(s) && Th(s, t).pc.Idle? && (op.Resize? ==> Pow2(CeilBits(op.n)) <= MAX_BUCKETS)
    requires Inv(env, Relock(s, t, Thread(op, 0, Entry(env, op), NOBODY.seen)))
    ensures History(Relock(s, t, Thread(op, 0, Entry(env, op), NOBODY.seen)))
  {
    hide Inv, CeilBits, Pow2, Relock, AllSections, StampedOk, StampsOk, Wrap64;
    var th' := Thread(op, 0, Entry(env, op), NOBODY.seen);
    OutsideSection(s.st, s.dirty, s.log, s.advances, th');
    CarryQuiet(env, s, s, t, th');
  }

  lemma SetDefaultRemembers(s: Sys, d: nat)
    requires History(s)
    ensures History(s.(dflt := d))
  {
    hide SectionOk, StampsOk, SlotStamped, Wrap64;
    var s' := s.(dflt := d);
    assert forall t: nat :: Th(s', t) == Th(s, t);
    forall t: nat ensures SectionOk(s'.st, s'.dirty, s'.log, s'.advances, Th(s', t)) { AllOf(s, t); }
    assert forall l :: Due(s', l) == Due(s, l);
    assert StampedOk(s');
  }

  lemma SetDefaultKeeps(env: Env, s: Sys, d: nat)
    requires Inv(env, s)
    ensures Inv(env, s.(dflt := d))
  {
    hide Good, LockOk, ThreadOk, QueueOk, LogOk, HoldsOf, Rewriting, View, N.Occupied, Adds, Subs, Current, HitsOk;
    var s' := s.(dflt := d);
    GoodShape(s.st, env.c, s.dirty);
    FrameLocks(s, s');
    assert AllThreadsOk(env, s') by {
      forall t: nat ensures ThreadOk(s'.st, s'.dirty, s'.layout, env.c, Th(s', t)) {
        assert ThreadOk(s.st, s.dirty, s.layout, env.c, Th(s, t));
      }
    }
    assert LogOk(s') by { assert Current(s.st, s.dirty, s.log) && HitsOk(s.log) by { LogParts(s); } LogWhole(s'); }
  }

  lemma LogParts(s: Sys)
    requires Shape(s.st) && LogOk(s)
    ensures Current(s.st, s.dirty, s.log) && HitsOk(s.log)
  {
    hide Current, HitsOk;
  }

  lemma LogWhole(s: Sys)
    requires Shape(s.st) && Current(s.st, s.dirty, s.log) && HitsOk(s.log)
    ensures LogOk(s)
  {
    hide Current, HitsOk;
  }

  /** One action of any kind keeps the invariant. */
  lemma StepKeeps(env: Env, s: Sys, a: Action)
    requires Inv(env, s) && History(s)
    ensures Inv(env, Step(env, s, a)) && History(Step(env, s, a))
  {
    hide Inv, CanTake, HoldsOf, Next, Relock, ThreadOk, CeilBits, Pow2, Entry, History;
    match a
    case Begin(t, op) =>
      if Th(s, t).pc.Idle? && (op.Resize? ==> Pow2(CeilBits(op.n)) <= MAX_BUCKETS) {
        BeginKeeps(env, s, t, op);
        BeginRemembers(env, s, t, op);
      }
    case Go(t, lossy) =>
      InvParts(env, s, t);
      InvGood(env, s);
      var (s1, th') := Next(env, s, t, lossy);
      if CanTake(s, HoldsOf(Th(s, t)), HoldsOf(th')) {
        GoKeeps(env, s, t, lossy);
        GoRemembers(env, s, t, lossy);
      }
    case SetDefault(d) =>
      SetDefaultKeeps(env, s, d);
      SetDefaultRemembers(s, d);
  }

  /** A new map of 2^bits buckets, nobody using it. */
  function Start(bits: nat): Sys
    requires Pow2(bits) <= MAX_BUCKETS
  {
    Sys(EmptyStore(bits), {}, None, map[], None, None, 0, 0, 0, 0, 0, [], 0, {}, [], map[])
  }

  lemma StartInv(env: Env, bits: nat)
    requires Pow2(bits) <= MAX_BUCKETS
    ensures Inv(env, Start(bits))
  {
    hide Good, View, EmptyStore, RecAt, KvAt, Pow2, IndexOf, N.Occupied;
    EmptyStoreGood(env.c, bits);
    EmptyView(env.c, bits);
    N.OccupiedNone(Pow2(bits));
    var s := Start(bits);
    assert forall t: nat :: Th(s, t) == NOBODY;
    assert LockOk(s) && DirtyOk(s);
    assert AllThreadsOk(env, s);
    assert LogOk(s) && CountOk(s);
  }

  lemma StartHistory(env: Env, bits: nat)
    requires Pow2(bits) <= MAX_BUCKETS
    ensures History(Start(bits))
  {
    hide Good, View, EmptyStore, RecAt, KvAt, Pow2, IndexOf, PointOk, SlotStamped;
    EmptyStoreGood(env.c, bits);
    var s := Start(bits);
    assert forall t: nat :: Th(s, t) == NOBODY;
  }

  /** The state after a run of actions, from a new map. */
  ghost function Run(env: Env, bits: nat, acts: seq<Action>): (s: Sys)
    requires Pow2(bits) <= MAX_BUCKETS
    ensures Inv(env, s) && History(s)
    decreases |acts|
  {
    hide Inv, Step, Pow2, History;
    if acts == [] then StartInv(env, bits); StartHistory(env, bits); Start(bits)
    else
      var s := Run(env, bits, acts[..|acts| - 1]);
      StepKeeps(env, s, acts[|acts| - 1]);
      Step(env, s, acts[|acts| - 1])
  }

  /** Does this action move thread `u` on? */
  ghost predicate Moves(env: Env, s: Sys, a: Action, u: nat)
    requires Inv(env, s)
  {
    InvGood(env, s);
    InvParts(env, s, u);
    a.Go? && a.t == u && CanTake(s, HoldsOf(Th(s, u)), HoldsOf(Next(env, s, u, a.lossy).1))
  }

  predicate Begins(s: Sys, a: Action, u: nat) {
    a.Begin? && a.t == u && Th(s, u).pc.Idle?
  }

  /** A thread changes only by its own steps and by beginning an operation. */
  lemma ThreadAfter(env: Env, s: Sys, a: Action, u: nat)
    requires Inv(env, s)
    ensures Good(s.st, env.c, s.dirty) && ThreadOk(s.st, s.dirty, s.layout, env.c, Th(s, u))
    ensures Moves(env, s, a, u) ==> Th(Step(env, s, a), u) == Next(env, s, u, a.lossy).1
    ensures !Moves(env, s, a, u) && !Begins(s, a, u) ==> Th(Step(env, s, a), u) == Th(s, u)
    ensures Begins(s, a, u) ==> Th(Step(env, s, a), u) == Th(s, u) || Outside(Th(Step(env, s, a), u).pc)
    ensures a.Go? && !Moves(env, s, a, a.t) ==> Step(env, s, a) == s
  {
    hide Good, LockOk, AllThreadsOk, DirtyOk, QueueOk, LogOk, CountOk, ThreadOk, Next, CanTake, HoldsOf, Relock, CeilBits, Pow2;
    InvGood(env, s);
    InvParts(env, s, u);
    match a
    case Begin(t, op) => RelockTh(s, t, Thread(op, 0, Entry(env, op), NOBODY.seen));
    case Go(t, lossy) =>
      InvParts(env, s, t);
      var (s1, th') := Next(env, s, t, lossy);
      NextThreads(env, s, t, lossy);
      RelockTh(s1, t, th');
    case SetDefault(d) =>
  }

  /** The work of a step moves nobody; locks and threads follow in Relock. */
  lemma NextThreads(env: Env, s: Sys, t: nat, lossy: bool)
    requires Good(s.st, env.c, s.dirty) && ThreadOk(s.st, s.dirty, s.layout, env.c, Th(s, t))
    ensures SameFrame(s, Next(env, s, t, lossy).0)
    ensures forall u: nat :: Th(Next(env, s, t, lossy).0, u) == Th(s, u)
  {
    hide Good, NoneBelow, Holding, Live, IndexOf, Mode, KvAt, RecAt, H2Of, Cells.SyncTarget, Cells.Expired, BucketAt,
         ExtHi, ExtFp, InlineKey, Matches, Wrap64, Pushed, Release, ClearStore, PutStore, TouchStore, SetTtl,
         EvOk, CeilBits, Pow2, FitsInline, StoringOk, FreeingOk, StampOk, ScanSlot, AfterMiss, AfterMatch, G.Fill, H.Items;
    GoodShape(s.st, env.c, s.dirty);
    var th := Th(s, t);
    if th.pc.Storing? || th.pc.Allocating? { StoringThread(s.st, s.dirty, s.layout, env.c, th); }
  }
}

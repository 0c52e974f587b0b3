/** `History` is kept by the steps that rewrite slots, and by `resize`. */
module LockSectionWrites {
  import opened Base
  import opened MetaWord
  import opened Slots
  import opened Hashing
  import opened Stores
  import opened Views
  import opened LockSys
  import opened LockSteps
  import opened LockSafety
  import opened LockCases
  import opened LockWrites
  import opened LockEffects
  import opened LockSections
  import opened LockSectionSteps
  import Cells

  // ---------------------------------------------------------------------
  // Claiming a slot
  // ---------------------------------------------------------------------

  lemma CellSame(st: Store, st': Store, m: Loc)
    requires Shape(st) && Shape(st') && st'.buckets == st.buckets && st'.ttls == st.ttls && st'.entries == st.entries && InRange(st, m)
    ensures CellAt(st', m) == CellAt(st, m) && RecOfLoc(st', m) == RecOfLoc(st, m) && TtlAt(st', m) == TtlAt(st, m)
  {
    hide RecAt, Mode, SlabIdx, InlineKey, InlineValue;
  }

  lemma ClaimSeen(st: Store, dirty: set<Loc>, th: Thread, l: Loc, kind: Kind)
    requires Shape(st) && InRange(st, l) && l.b == th.b && BucketSeen(st, dirty, th.b, th.seen, 4) && Chosen(th.seen, th.op, l.i, kind)
    ensures MidWrite(Reclaim(st, l), dirty + {l}, th, l.i, kind)
  {
    hide RecAt, KvAt, TtlAt, Reclaim, Chosen;
    ReclaimFrame(st, l);
    forall j: nat | j < 4 && j != l.i ensures CellSeen(Reclaim(st, l), dirty + {l}, Loc(th.b, j), th.seen[j]) {
      assert CellSeen(st, dirty, Loc(th.b, j), th.seen[j]);
      CellSame(st, Reclaim(st, l), Loc(th.b, j));
    }
    assert CellSeen(st, dirty, Loc(th.b, l.i), th.seen[l.i]);
    CellSame(st, Reclaim(st, l), l);
  }

  lemma ClaimHistory(env: Env, s: Sys, s1: Sys, t: nat, th': Thread, l: Loc)
    requires Inv(env, s) && Inv(env, Relock(s1, t, th')) && History(s) && SameFrame(s, s1)
    requires CanTake(s, HoldsOf(Th(s, t)), HoldsOf(th'))
    requires InRange(s.st, l) && l !in s.dirty && HoldsOf(Th(s, t)).bucket == Some(l.b)
    requires s1.st == Reclaim(s.st, l) && s1.dirty == s.dirty + {l} && s1.log == s.log && s1.advances == s.advances && s1.epoch == s.epoch
    requires StampDue(th') == None == StampDue(Th(s, t))
    requires SectionOk(s1.st, s1.dirty, s.log, s.advances, th')
    ensures History(Relock(s1, t, th'))
  {
    hide AllThreadsOk, DirtyOk, QueueOk, LogOk, CountOk, RwOk, MutexesOk, HoldsOf, StampDue, SectionOk, CanTake, StampsOk,
         Wrap64, Relock, SameFrame, KeptMem, LogKept, AllSections, Latest, RecAt, KvAt, TtlAt, Due, Reclaim, Good, FullBut;
    assert BucketsOk(s) by { LocksSplit(s); }
    ClaimFacts(s.st, env.c, s.dirty, l);
    ReclaimFrame(s.st, l);
    LogSame(env.c, s.st.bits, s.log, l.b);
    forall m | Live(s1.st, s1.dirty, m) && m.b == l.b ensures SlotStamped(s1.st, s.log, s.advances, m) {
      assert Live(s.st, s.dirty, m) && KvAt(s1.st, m) == KvAt(s.st, m);
      NotDue(s, t, m);
      CellSame(s.st, s1.st, m);
    }
    Carry(env, s, s1, t, th', l.b);
  }

  /** A thread that has claimed its slot goes on to store or to clear. */
  lemma ClaimedSection(st: Store, dirty: set<Loc>, log: seq<Logged>, advances: nat, th: Thread, l: Loc, kind: Kind, pc: Pc)
    requires Shape(st) && InRange(st, l) && l.b == th.b && BucketSeen(st, dirty, th.b, th.seen, 4) && Chosen(th.seen, th.op, l.i, kind)
    requires pc == if kind == Drop then Clearing(l.i) else Storing(l.i, kind)
    ensures SectionOk(Reclaim(st, l), dirty + {l}, log, advances, th.(pc := pc))
  {
    hide MidWrite, Reclaim, BucketSeen, Chosen;
    ClaimSeen(st, dirty, th, l, kind);
    ReclaimFrame(st, l);
    RewritingMoves(Reclaim(st, l), dirty + {l}, th, pc, l.i, kind);
  }

  lemma RewritingMoves(st: Store, dirty: set<Loc>, th: Thread, pc: Pc, i: nat, kind: Kind)
    requires Shape(st) && th.b < |st.buckets| && MidWrite(st, dirty, th, i, kind)
    ensures MidWrite(st, dirty, th.(pc := pc), i, kind)
  {
    hide BucketSeen, WordSeen, Chosen;
    assert Chosen(th.seen, th.(pc := pc).op, i, kind);
  }

  lemma MissClaimOn(env: Env, s: Sys, t: nat, lossy: bool)
    requires Fires(env, s, t, lossy) && Th(s, t).pc.Scan? && Th(s, t).pc.i >= 4 && Th(s, t).op.Insert?
    requires Next(env, s, t, lossy).1.pc.Storing?
    ensures Carried(env, s, t, lossy)
  {
    hide Inv, ThreadOk, Good, CanTake, HoldsOf, Relock, IndexOf, AllSections, StampedOk, StampsOk, SectionOk, BucketSeen, KvAt, NoneBelow, Live,
         ScanSlot, Chosen, Mode, BucketAt, Cells.SyncTarget, IsFull, SlotAt, Reclaim, KeptMem, Fewer, FullBut;
    GoodShape(s.st, env.c, s.dirty);
    var th := Th(s, t);
    ScanEnd(s.st, s.dirty, s.layout, env.c, th);
    var (s1, th') := Next(env, s, t, lossy);
    LookingSeen(s, t);
    MissChosen(s.st, s.dirty, th);
    var l := Loc(th.b, th'.pc.i);
    ClaimFacts(s.st, env.c, s.dirty, l);
    SectionBucket(th);
    ClaimedSection(s.st, s.dirty, s.log, s.advances, th, l, th'.pc.kind, th'.pc);
    ClaimHistory(env, s, s1, t, th', l);
  }

  lemma MatchClaimOn(env: Env, s: Sys, t: nat, lossy: bool)
    requires Fires(env, s, t, lossy) && Th(s, t).pc.Scanning?
    requires Next(env, s, t, lossy).1.pc.Storing? || Next(env, s, t, lossy).1.pc.Clearing?
    ensures Carried(env, s, t, lossy)
  {
    hide Inv, ThreadOk, Good, CanTake, HoldsOf, Relock, IndexOf, AllSections, StampedOk, StampsOk, SectionOk, BucketSeen, KvAt, NoneBelow, RecAt,
         Chosen, Mode, SlotAt, Reclaim, KeptMem, Fewer, FullBut, Matches, Holding;
    GoodShape(s.st, env.c, s.dirty);
    var th := Th(s, t);
    ScanningThread(s.st, s.dirty, s.layout, env.c, th);
    var (s1, th') := Next(env, s, t, lossy);
    LookingSeen(s, t);
    var l := Loc(th.b, th.pc.i);
    MatchChosen(s.st, s.dirty, th, th.pc.i);
    ClaimFacts(s.st, env.c, s.dirty, l);
    SectionBucket(th);
    ClaimedSection(s.st, s.dirty, s.log, s.advances, th, l, if th'.pc.Storing? then Update else Drop, th'.pc);
    ClaimHistory(env, s, s1, t, th', l);
  }

  lemma FreeingThread(st: Store, dirty: set<Loc>, layout: nat, c: Config, log: seq<Logged>, advances: nat, th: Thread)
    requires Good(st, c, dirty) && ThreadOk(st, dirty, layout, c, th) && th.pc.Freeing? && SectionOk(st, dirty, log, advances, th)
    ensures Shape(st) && th.b < |st.buckets| && Live(st, dirty, Loc(th.b, th.pc.i)) && th.pc.i < 4
    ensures Chosen(th.seen, th.op, th.pc.i, th.pc.kind) && BucketSeen(st, dirty, th.b, th.seen, 4)
  {
    hide NoneBelow, IndexOf, Good, Holding, Mode, Chosen, BucketSeen, Live;
    GoodShape(st, c, dirty);
  }

  lemma FreeOn(env: Env, s: Sys, t: nat, lossy: bool)
    requires Fires(env, s, t, lossy) && Th(s, t).pc.Freeing?
    ensures Carried(env, s, t, lossy)
  {
    hide Inv, ThreadOk, Good, CanTake, HoldsOf, Relock, IndexOf, AllSections, StampedOk, StampsOk, SectionOk, BucketSeen, KvAt, NoneBelow, RecAt,
         Chosen, Mode, SlotAt, Release, KeptMem, Fewer, FullBut, Holding;
    GoodShape(s.st, env.c, s.dirty);
    var th := Th(s, t);
    AllOf(s, t);
    FreeingThread(s.st, s.dirty, s.layout, env.c, s.log, s.advances, th);
    var (s1, th') := Next(env, s, t, lossy);
    var l := Loc(th.b, th.pc.i);
    ClaimFacts(s.st, env.c, s.dirty, l);
    SectionBucket(th);
    ClaimedSection(s.st, s.dirty, s.log, s.advances, th, l, th.pc.kind, th'.pc);
    ClaimHistory(env, s, s1, t, th', l);
  }
}

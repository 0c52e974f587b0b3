/** Preservation of the lock-protocol invariant by the steps that rewrite slots. */
module LockWrites {
  import opened Base
  import opened MetaWord
  import opened Slots
  import opened Hashing
  import opened Stores
  import opened Views
  import opened LockSys
  import opened LockSteps
  import opened LockSafety
  import opened LockCases
  import Cells
  import N = RawRuns

  // ---------------------------------------------------------------------
  // Claiming a slot
  // ---------------------------------------------------------------------

  /** Live slots have only become fewer; those left keep their pair. */
  ghost predicate Fewer(st: Store, dirty: set<Loc>, st': Store, dirty': set<Loc>)
    requires Shape(st) && Shape(st')
  {
    forall m :: Live(st', dirty', m) ==> Live(st, dirty, m) && KvAt(st', m) == KvAt(st, m)
  }

  lemma NoneFewer(st: Store, dirty: set<Loc>, st': Store, dirty': set<Loc>, b: nat, n: nat, key: Bytes)
    requires Shape(st) && Shape(st') && Fewer(st, dirty, st', dirty') && NoneBelow(st, dirty, b, n, key)
    ensures NoneBelow(st', dirty', b, n, key)
  {
    hide Live, KvAt;
    forall j: nat | j < n ensures !Holding(st', dirty', Loc(b, j), key) { assert !Holding(st, dirty, Loc(b, j), key); }
  }

  /** Keys are unique, so claiming the slot of a key leaves no live slot with it. */
  lemma NoneOther(st: Store, c: Config, dirty: set<Loc>, st': Store, dirty': set<Loc>, l: Loc, key: Bytes)
    requires Good(st, c, dirty) && Shape(st') && Fewer(st, dirty, st', dirty') && Holding(st, dirty, l, key) && !Live(st', dirty', l)
    ensures NoneBelow(st', dirty', l.b, 4, key)
  {
    hide Live, KvAt, PoolGood, SlotGood;
  }

  lemma ClaimFacts(st: Store, c: Config, dirty: set<Loc>, l: Loc)
    requires Good(st, c, dirty) && InRange(st, l) && l !in dirty
    ensures var st' := Reclaim(st, l);
            && Good(st', c, dirty + {l}) && st'.buckets == st.buckets && st'.bits == st.bits
            && KeptMem(st, dirty, st', dirty + {l}, l.b) && Fewer(st, dirty, st', dirty + {l}) && !Live(st', dirty + {l}, l)
            && FullBut(st, st', l) && IsFull(st', l) == IsFull(st, l)
            && (!IsFull(st, l) || Mode(SlotAt(st, l)) == 0 ==> st' == st)
  {
    hide RecAt, KvAt, PoolGood, SlotGood, Mode, SlabIdx;
    if IsFull(st, l) {
      ReleaseGood(st, c, dirty, l);
    } else {
      VacantGood(st, c, dirty, l);
    }
    ReclaimFrame(st, l);
    assert forall m :: InRange(st, m) ==> KvAt(Reclaim(st, l), m) == KvAt(st, m);
  }

  lemma ClaimStep(env: Env, s: Sys, s1: Sys, t: nat, th': Thread, l: Loc)
    requires Inv(env, s) && SameFrame(s, s1) && s1.layout == s.layout && CanTake(s, HoldsOf(Th(s, t)), HoldsOf(th'))
    requires Shape(s.st) && InRange(s.st, l) && l !in s.dirty && HoldsOf(Th(s, t)).bucket == Some(l.b)
    requires s1.st == Reclaim(s.st, l) && s1.dirty == s.dirty + {l}
    requires s1.log == s.log && s1.queue == s.queue && s1.count == s.count
    requires Rewriting(Th(s, t)) == None && Rewriting(th') == Some(l)
    requires !AddPending(th') && !AddPending(Th(s, t)) && !SubPending(th') && !SubPending(Th(s, t))
    requires ThreadOk(s1.st, s1.dirty, s1.layout, env.c, th')
    ensures Inv(env, Relock(s1, t, th'))
  {
    hide LockOk, Good, AllThreadsOk, ThreadOk, KeptMem, CountOk, DirtyOk, View, N.Occupied, Reclaim, FullBut, IsFull, Live,
         AddPending, SubPending, HoldsOf, CanTake, Current, HitsOk, Rewriting, KvAt;
    ClaimFacts(s.st, env.c, s.dirty, l);
    GoodShape(s1.st, env.c, s1.dirty);
    CurrentKept(s.st, s.dirty, s1.st, s1.dirty, s.log);
    FullCount(s.st, s1.st, l);
    Assemble(env, s, s1, t, th', l.b);
  }

  /** A step that claims a slot moves on to storing or clearing it. */
  lemma ClaimedOk(st: Store, c: Config, dirty: set<Loc>, layout: nat, th: Thread, l: Loc, kind: Kind)
    requires Good(st, c, dirty) && InRange(st, l) && l !in dirty
    requires l.b == th.b == IndexOf(c, KeyOf(th.op), st.bits)
    requires if kind == Drop then th.op.Remove? else th.op.Insert?
    requires if kind == Update || kind == Drop then Holding(st, dirty, l, KeyOf(th.op)) else NoneBelow(st, dirty, th.b, 4, KeyOf(th.op))
    requires kind == Fresh <==> !IsFull(st, l)
    ensures ThreadOk(Reclaim(st, l), dirty + {l}, layout, c, th.(pc := if kind == Drop then Clearing(l.i) else Storing(l.i, kind)))
  {
    hide RecAt, KvAt, PoolGood, Mode, SlabIdx, IndexOf, H2Of, NoneBelow, Reclaim, Fewer, KeptMem, FullBut, ExtHi, ExtFp, ExtHiOf, ExtFpOf;
    var st', dirty', key := Reclaim(st, l), dirty + {l}, KeyOf(th.op);
    ClaimFacts(st, c, dirty, l);
    assert l == Loc(th.b, l.i);
    if kind == Update || kind == Drop {
      assert SlotGood(st, c, l);
      NoneOther(st, c, dirty, st', dirty', l, key);
    } else {
      NoneFewer(st, dirty, st', dirty', th.b, 4, key);
    }
  }

  lemma SectionBucket(th: Thread)
    requires InBucket(th.pc)
    ensures HoldsOf(th).bucket == Some(th.b)
  {}

  /** A slot about to be freed: its holder needs the slab lock first. */
  lemma FreeWaits(st: Store, dirty: set<Loc>, layout: nat, c: Config, th: Thread, i: nat, kind: Kind)
    requires Shape(st) && ThreadOk(st, dirty, layout, c, th) && Placed(th.pc) && FreeingOk(st, dirty, th, i, kind)
    ensures ThreadOk(st, dirty, layout, c, th.(pc := WantFree(i, kind)))
  {
    hide Live, KvAt, NoneBelow, Mode, IndexOf, Holding;
  }

  /** An insert that did not find its key. */
  lemma MissInsertStep(env: Env, s: Sys, t: nat, lossy: bool)
    requires Inv(env, s) && Th(s, t).pc.Scan? && Th(s, t).pc.i >= 4 && Th(s, t).op.Insert?
    requires ThreadOk(s.st, s.dirty, s.layout, env.c, Th(s, t))
    requires CanTake(s, HoldsOf(Th(s, t)), HoldsOf(Next(env, s, t, lossy).1))
    ensures Inv(env, Relock(Next(env, s, t, lossy).0, t, Next(env, s, t, lossy).1))
  {
    hide Good, Holding, NoneBelow, LockOk, DirtyOk, CountOk, AllThreadsOk, CanTake, HoldsOf, QueueOk, LogOk, IndexOf, Cells.SyncTarget,
         BucketAt, RecAt, KvAt, Mode, H2Of, Relock, Reclaim, KeptMem, Fewer, FullBut, SlotAt, ScanSlot;
    InvParts(env, s, t);
    var th := Th(s, t);
    var i := Cells.SyncTarget(BucketAt(s.st, th.b));
    var l := Loc(th.b, i);
    OwnBucketClean(env, s, t, l);
    SectionBucket(th);
    ClaimFacts(s.st, env.c, s.dirty, l);
    var (s1, th') := Next(env, s, t, lossy);
    if th'.pc.Storing? {
      ClaimedOk(s.st, env.c, s.dirty, s.layout, th, l, th'.pc.kind);
      ClaimStep(env, s, s1, t, th', l);
    } else {
      FreeWaits(s.st, s.dirty, s.layout, env.c, th, i, Evict);
      NoteStep(env, s, s1, t, th');
    }
  }

  /** A lookup that found nothing. */
  lemma MissReadStep(env: Env, s: Sys, t: nat, lossy: bool)
    requires Inv(env, s) && Th(s, t).pc.Scan? && Th(s, t).pc.i >= 4 && (Th(s, t).op.Get? || Th(s, t).op.Peek?)
    requires ThreadOk(s.st, s.dirty, s.layout, env.c, Th(s, t))
    requires CanTake(s, HoldsOf(Th(s, t)), HoldsOf(Next(env, s, t, lossy).1))
    ensures Inv(env, Relock(Next(env, s, t, lossy).0, t, Next(env, s, t, lossy).1))
  {
    hide Good, Holding, NoneBelow, LockOk, DirtyOk, CountOk, AllThreadsOk, CanTake, HoldsOf, QueueOk, LogOk, IndexOf,
         RecAt, KvAt, Mode, H2Of, Relock, ScanSlot, AfterMiss;
    InvParts(env, s, t);
    var (s1, th') := Next(env, s, t, lossy);
    QuietStep(env, s, s1, t, th');
  }

  /** After a scan that found nothing, the key is in no live slot of the table. */
  lemma NowhereLive(st: Store, c: Config, dirty: set<Loc>, b: nat, key: Bytes)
    requires Good(st, c, dirty) && b == IndexOf(c, key, st.bits) && NoneBelow(st, dirty, b, 4, key)
    ensures forall m :: Live(st, dirty, m) ==> KvAt(st, m).key != key
  {
    hide RecAt, KvAt, PoolGood, IndexOf, H2Of, Mode, ExtHi, ExtFp;
    forall m | Live(st, dirty, m) ensures KvAt(st, m).key != key {
      assert SlotGood(st, c, m);
      assert !Holding(st, dirty, Loc(b, m.i), key);
    }
  }

  /** Logging an operation on a key no live slot holds. */
  lemma CurrentElse(st: Store, dirty: set<Loc>, log: seq<Logged>, e: Logged)
    requires Shape(st) && Current(st, dirty, log)
    requires forall m :: Live(st, dirty, m) ==> KvAt(st, m).key != e.key
    ensures Current(st, dirty, log + [e])
  {
    hide RecAt, KvAt, Latest;
    forall m | Live(st, dirty, m) ensures Gave(Latest(log + [e], KvAt(st, m).key), KvAt(st, m).value) {
      LatestAppend(log, e, KvAt(st, m).key);
    }
  }

  /** A remove that found nothing. */
  lemma MissRemoveStep(env: Env, s: Sys, t: nat, lossy: bool)
    requires Inv(env, s) && Th(s, t).pc.Scan? && Th(s, t).pc.i >= 4 && Th(s, t).op.Remove?
    requires ThreadOk(s.st, s.dirty, s.layout, env.c, Th(s, t))
    requires CanTake(s, HoldsOf(Th(s, t)), HoldsOf(Next(env, s, t, lossy).1))
    ensures Inv(env, Relock(Next(env, s, t, lossy).0, t, Next(env, s, t, lossy).1))
  {
    hide Good, Holding, NoneBelow, LockOk, DirtyOk, CountOk, AllThreadsOk, CanTake, HoldsOf, QueueOk, IndexOf, Current, HitsOk, Live,
         RecAt, KvAt, Mode, H2Of, Relock, ScanSlot, AfterMiss;
    InvParts(env, s, t);
    var (s1, th') := Next(env, s, t, lossy);
    NowhereLive(s.st, env.c, s.dirty, Th(s, t).b, KeyOf(Th(s, t).op));
    CurrentElse(s.st, s.dirty, s.log, Removed(KeyOf(Th(s, t).op)));
    HitsAppend(s.log, Removed(KeyOf(Th(s, t).op)));
    NoteStep(env, s, s1, t, th');
  }

  /** Comparing the key under the slab lock: another key. */
  lemma MismatchStep(env: Env, s: Sys, t: nat, lossy: bool)
    requires Inv(env, s) && Th(s, t).pc.Scanning?
    requires ThreadOk(s.st, s.dirty, s.layout, env.c, Th(s, t))
    requires CanTake(s, HoldsOf(Th(s, t)), HoldsOf(Next(env, s, t, lossy).1))
    ensures Inv(env, Relock(Next(env, s, t, lossy).0, t, Next(env, s, t, lossy).1))
    requires Shape(s.st) && !Matches(s.st, env.c, Loc(Th(s, t).b, Th(s, t).pc.i), KeyOf(Th(s, t).op))
  {
    hide Good, Holding, NoneBelow, LockOk, DirtyOk, CountOk, AllThreadsOk, CanTake, HoldsOf, QueueOk, LogOk, IndexOf, Matches,
         RecAt, KvAt, Mode, H2Of, Relock, Reclaim, KeptMem, Fewer, FullBut, SlotAt, AfterMatch;
    InvParts(env, s, t);
    var th := Th(s, t);
    NotHeldHere(s.st, env.c, s.dirty, Loc(th.b, th.pc.i), KeyOf(th.op));
    NoneMore(s.st, s.dirty, th.b, th.pc.i, KeyOf(th.op));
    var (s1, th') := Next(env, s, t, lossy);
    QuietStep(env, s, s1, t, th');
  }

  /** The key was found in a slot that can be rewritten at once. */
  lemma MatchClaimStep(env: Env, s: Sys, t: nat, lossy: bool)
    requires Inv(env, s) && Th(s, t).pc.Scanning?
    requires ThreadOk(s.st, s.dirty, s.layout, env.c, Th(s, t))
    requires CanTake(s, HoldsOf(Th(s, t)), HoldsOf(Next(env, s, t, lossy).1))
    ensures Inv(env, Relock(Next(env, s, t, lossy).0, t, Next(env, s, t, lossy).1))
    requires Shape(s.st) && Matches(s.st, env.c, Loc(Th(s, t).b, Th(s, t).pc.i), KeyOf(Th(s, t).op))
    requires AfterMatch(s.st, Th(s, t), Th(s, t).pc.i).1
  {
    hide Good, Holding, NoneBelow, LockOk, DirtyOk, CountOk, AllThreadsOk, CanTake, HoldsOf, QueueOk, LogOk, IndexOf, Matches,
         RecAt, KvAt, Mode, H2Of, Relock, Reclaim, KeptMem, Fewer, FullBut, SlotAt;
    InvParts(env, s, t);
    var th := Th(s, t);
    var l := Loc(th.b, th.pc.i);
    SectionBucket(th);
    HeldHere(s.st, env.c, s.dirty, l, KeyOf(th.op));
    ClaimFacts(s.st, env.c, s.dirty, l);
    var (s1, th') := Next(env, s, t, lossy);
    ClaimedOk(s.st, env.c, s.dirty, s.layout, th, l, if th'.pc.Storing? then Update else Drop);
    ClaimStep(env, s, s1, t, th', l);
  }

  /** The key was found: a reader goes on, a writer waits to free the slab entry. */
  lemma MatchWaitStep(env: Env, s: Sys, t: nat, lossy: bool)
    requires Inv(env, s) && Th(s, t).pc.Scanning?
    requires ThreadOk(s.st, s.dirty, s.layout, env.c, Th(s, t))
    requires CanTake(s, HoldsOf(Th(s, t)), HoldsOf(Next(env, s, t, lossy).1))
    ensures Inv(env, Relock(Next(env, s, t, lossy).0, t, Next(env, s, t, lossy).1))
    requires Shape(s.st) && Matches(s.st, env.c, Loc(Th(s, t).b, Th(s, t).pc.i), KeyOf(Th(s, t).op))
    requires !AfterMatch(s.st, Th(s, t), Th(s, t).pc.i).1
  {
    hide Good, Holding, NoneBelow, LockOk, DirtyOk, CountOk, AllThreadsOk, CanTake, HoldsOf, QueueOk, LogOk, IndexOf, Matches,
         RecAt, KvAt, Mode, H2Of, Relock, Reclaim, KeptMem, Fewer, FullBut, SlotAt;
    InvParts(env, s, t);
    var th := Th(s, t);
    HeldHere(s.st, env.c, s.dirty, Loc(th.b, th.pc.i), KeyOf(th.op));
    var (s1, th') := Next(env, s, t, lossy);
    if th'.pc.WantFree? { FreeWaits(s.st, s.dirty, s.layout, env.c, th, th.pc.i, th'.pc.kind); }
    QuietStep(env, s, s1, t, th');
  }

  /** Giving a slab entry back under the slab lock. */
  lemma FreeStep(env: Env, s: Sys, t: nat, lossy: bool)
    requires Inv(env, s) && Th(s, t).pc.Freeing?
    requires ThreadOk(s.st, s.dirty, s.layout, env.c, Th(s, t))
    requires CanTake(s, HoldsOf(Th(s, t)), HoldsOf(Next(env, s, t, lossy).1))
    ensures Inv(env, Relock(Next(env, s, t, lossy).0, t, Next(env, s, t, lossy).1))
  {
    hide Good, Holding, NoneBelow, LockOk, DirtyOk, CountOk, AllThreadsOk, CanTake, HoldsOf, QueueOk, LogOk, IndexOf,
         RecAt, KvAt, Mode, H2Of, Relock, KeptMem, Fewer, FullBut, SlotAt, Release;
    InvParts(env, s, t);
    var th := Th(s, t);
    var l := Loc(th.b, th.pc.i);
    SectionBucket(th);
    var (s1, th') := Next(env, s, t, lossy);
    ClaimedOk(s.st, env.c, s.dirty, s.layout, th, l, th.pc.kind);
    ClaimStep(env, s, s1, t, th', l);
  }
}

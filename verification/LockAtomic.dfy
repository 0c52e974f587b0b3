/**
 Bucket sections are atomic in every interleaving: from taking a bucket's lock to freeing it
 the bucket changes by exactly one whole operation, and nobody else touches it.
 */
module LockAtomic {
  import opened Base
  import opened MetaWord
  import opened Slots
  import opened Hashing
  import opened Stores
  import opened Views
  import opened LockSys
  import opened LockSteps
  import opened LockSafety
  import opened LockCases
  import opened LockWrites
  import opened LockEffects
  import opened LockSections
  import opened LockSectionSteps
  import opened LockSectionEffects
  import opened LockRuns
  import Cells

  // ---------------------------------------------------------------------
  // One operation per section
  // ---------------------------------------------------------------------

  /**
   At action `n` thread `t` took the lock of its key's bucket, for the operation it is at now,
   and has held it since; `seen` is the bucket as it was then.
   */
  ghost predicate TookAt(env: Env, bits: nat, acts: seq<Action>, t: nat, n: nat)
    requires Pow2(bits) <= MAX_BUCKETS && n < |acts|
  {
    var s, q := Run(env, bits, acts), Run(env, bits, acts[..n]);
    && Th(q, t).pc.WantLock? && Th(q, t).op == Th(s, t).op && Th(q, t).b == Th(s, t).b
    && Th(s, t).b == IndexOf(env.c, KeyOf(Th(s, t).op), q.st.bits) && Th(s, t).b < |q.st.buckets|
    && Th(s, t).b !in q.locks
    && Th(s, t).seen == BucketAt(q.st, Th(s, t).b)
    && (forall k :: n < k <= |acts| ==> HeldIn(env, bits, acts, t, k))
  }

  ghost predicate HeldIn(env: Env, bits: nat, acts: seq<Action>, t: nat, k: nat)
    requires Pow2(bits) <= MAX_BUCKETS && k <= |acts|
  {
    InBucket(Th(Run(env, bits, acts[..k]), t).pc)
  }

  /** A section is entered by taking the lock, and inside it only the program counter moves. */
  lemma NextEnters(env: Env, s: Sys, t: nat, lossy: bool)
    requires Good(s.st, env.c, s.dirty) && ThreadOk(s.st, s.dirty, s.layout, env.c, Th(s, t))
    ensures var th, th' := Th(s, t), Next(env, s, t, lossy).1;
            && (InBucket(th.pc) && InBucket(th'.pc) ==> th'.op == th.op && th'.b == th.b && th'.seen == th.seen)
            && (!InBucket(th.pc) && InBucket(th'.pc) ==>
                  && th.pc.WantLock? && th'.op == th.op && th'.b == th.b && th.b < |s.st.buckets|
                  && th.b == IndexOf(env.c, KeyOf(th.op), s.st.bits) && Shape(s.st) && th'.seen == BucketAt(s.st, th.b))
  {
    hide Good, NoneBelow, Holding, Live, IndexOf, Mode, KvAt, RecAt, H2Of, Cells.SyncTarget, Cells.Expired, BucketAt,
         ExtHi, ExtFp, InlineKey, Matches, Wrap64, Pushed, Release, ClearStore, PutStore, TouchStore, SetTtl,
         EvOk, CeilBits, Pow2, FitsInline, StoringOk, FreeingOk, StampOk, GrowStep;
    GoodShape(s.st, env.c, s.dirty);
    var th := Th(s, t);
    if th.pc.Storing? || th.pc.Allocating? {
      StoringThread(s.st, s.dirty, s.layout, env.c, th);
      PutMoves(env, s, th, th.pc.i, th.pc.kind);
    }
  }

  lemma LockWasFree(env: Env, s: Sys, t: nat, lossy: bool)
    requires Good(s.st, env.c, s.dirty) && ThreadOk(s.st, s.dirty, s.layout, env.c, Th(s, t)) && Th(s, t).pc.WantLock?
    requires CanTake(s, HoldsOf(Th(s, t)), HoldsOf(Next(env, s, t, lossy).1))
    ensures Th(s, t).b !in s.locks
  {
    hide Good, BucketAt, CellAt, IndexOf;
    GoodShape(s.st, env.c, s.dirty);
  }

  /** Every thread in a section took its lock at some earlier action and has held it since. */
  lemma {:induction false} InSectionTook(env: Env, bits: nat, acts: seq<Action>, t: nat)
    requires Pow2(bits) <= MAX_BUCKETS && InBucket(Th(Run(env, bits, acts), t).pc)
    ensures exists n :: 0 <= n < |acts| && TookAt(env, bits, acts, t, n)
    decreases |acts|
  {
    hide Inv, History, Step, Pow2, InBucket, BucketAt, IndexOf, Good, ThreadOk, Next;
    if acts == [] {
      StartOutside(bits, t);
    } else {
      var m := |acts| - 1;
      var init, a := acts[..m], acts[m];
      var s := Run(env, bits, init);
      ThreadAfter(env, s, a, t);
      assert acts[..|acts|] == acts;
      if InBucket(Th(s, t).pc) {
        InSectionTook(env, bits, init, t);
        var n :| 0 <= n < m && TookAt(env, bits, init, t, n);
        SameThread(env, bits, acts, t);
        TookOn(env, bits, acts, t, n);
      } else {
        EntersNow(env, bits, acts, t);
      }
    }
  }

  lemma StartOutside(bits: nat, t: nat)
    requires Pow2(bits) <= MAX_BUCKETS
    ensures !InBucket(Th(Start(bits), t).pc)
  {}

  lemma SameThread(env: Env, bits: nat, acts: seq<Action>, t: nat)
    requires Pow2(bits) <= MAX_BUCKETS && |acts| > 0
    requires InBucket(Th(Run(env, bits, acts[..|acts| - 1]), t).pc) && InBucket(Th(Run(env, bits, acts), t).pc)
    ensures var th, th' := Th(Run(env, bits, acts[..|acts| - 1]), t), Th(Run(env, bits, acts), t);
            th'.op == th.op && th'.b == th.b && th'.seen == th.seen
  {
    hide Inv, History, Step, Pow2, Good, ThreadOk, Next, Moves;
    var s, a := Run(env, bits, acts[..|acts| - 1]), acts[|acts| - 1];
    ThreadAfter(env, s, a, t);
    if Moves(env, s, a, t) { MovesGo(env, s, a, t); NextEnters(env, s, t, a.lossy); }
  }

  lemma MovesGo(env: Env, s: Sys, a: Action, t: nat)
    requires Inv(env, s) && Moves(env, s, a, t)
    ensures a.Go? && a.t == t
    ensures Good(s.st, env.c, s.dirty) && ThreadOk(s.st, s.dirty, s.layout, env.c, Th(s, t))
    ensures CanTake(s, HoldsOf(Th(s, t)), HoldsOf(Next(env, s, t, a.lossy).1))
  {
    hide Inv, Good, ThreadOk, Next, CanTake, HoldsOf;
    InvGood(env, s);
    InvParts(env, s, t);
  }

  lemma TookOn(env: Env, bits: nat, acts: seq<Action>, t: nat, n: nat)
    requires Pow2(bits) <= MAX_BUCKETS && n < |acts| - 1 && TookAt(env, bits, acts[..|acts| - 1], t, n)
    requires InBucket(Th(Run(env, bits, acts), t).pc)
    requires var th, th' := Th(Run(env, bits, acts[..|acts| - 1]), t), Th(Run(env, bits, acts), t);
             th'.op == th.op && th'.b == th.b && th'.seen == th.seen
    ensures TookAt(env, bits, acts, t, n)
  {
    hide Run, Inv, History, Pow2, InBucket, BucketAt, IndexOf;
    var init := acts[..|acts| - 1];
    assert init[..n] == acts[..n];
    forall k | n < k <= |acts| ensures HeldIn(env, bits, acts, t, k) {
      if k < |acts| {
        assert HeldIn(env, bits, init, t, k);
        assert init[..k] == acts[..k];
      } else {
        assert acts[..k] == acts;
      }
    }
  }

  lemma EntersNow(env: Env, bits: nat, acts: seq<Action>, t: nat)
    requires Pow2(bits) <= MAX_BUCKETS && |acts| > 0
    requires !InBucket(Th(Run(env, bits, acts[..|acts| - 1]), t).pc) && InBucket(Th(Run(env, bits, acts), t).pc)
    ensures TookAt(env, bits, acts, t, |acts| - 1)
  {
    hide Inv, History, Step, Pow2, Good, ThreadOk, Next, Moves, BucketAt, IndexOf, CanTake, HoldsOf;
    var n := |acts| - 1;
    var s, a := Run(env, bits, acts[..n]), acts[n];
    ThreadAfter(env, s, a, t);
    assert acts[..|acts|] == acts;
    OutsideNotIn(Th(Run(env, bits, acts), t).pc);
    MovesGo(env, s, a, t);
    NextEnters(env, s, t, a.lossy);
    LockWasFree(env, s, t, a.lossy);
  }

  lemma OutsideNotIn(pc: Pc)
    ensures Outside(pc) ==> !InBucket(pc)
  {}

  /** The whole section, from the bucket when its lock was taken to the bucket now. */
  ghost predicate OneOperation(env: Env, bits: nat, acts: seq<Action>, t: nat, n: nat)
    requires Pow2(bits) <= MAX_BUCKETS && n < |acts|
  {
    var s, q := Run(env, bits, acts), Run(env, bits, acts[..n]);
    var th := Th(s, t);
    && TookAt(env, bits, acts, t, n)
    && Shape(s.st) && th.b < |s.st.buckets|
    && Finished(BucketAt(q.st, th.b), BucketAt(s.st, th.b), th.op)
  }

  /**
   When an operation is about to free its bucket lock, the bucket is the result of that one
   operation on the bucket as it was when the lock was taken: an update in place, a fresh
   entry in the first vacant slot or in place of the least-priority entry, a removal, or
   nothing.  Whatever other threads did in between does not show.
   */
  lemma SectionIsAtomic(env: Env, bits: nat, acts: seq<Action>, t: nat)
    requires Pow2(bits) <= MAX_BUCKETS
    ensures Th(Run(env, bits, acts), t).pc.Unlock? ==> exists n :: 0 <= n < |acts| && OneOperation(env, bits, acts, t, n)
  {
    hide Run, Inv, Pow2, Finished, BucketAt, AllSections, TimeOk, BucketSeen;
    var s := Run(env, bits, acts);
    if Th(s, t).pc.Unlock? {
      InSectionTook(env, bits, acts, t);
      var n :| 0 <= n < |acts| && TookAt(env, bits, acts, t, n);
      AllOf(s, t);
      assert OneOperation(env, bits, acts, t, n);
    }
  }

  /** An entry leaves its bucket only by a remove of its key, or as the least-priority victim of a full bucket. */
  lemma OnlyVictimsLeave(seen: Cells.Bucket, now: Cells.Bucket, op: Op, j: nat)
    requires Finished(seen, now, op) && j < 4 && seen[j].Held?
    requires forall i: nat :: i < 4 ==> !Cells.Holds(now[i], seen[j].e.key)
    ensures (op.Remove? && op.key == seen[j].e.key) ||
            (op.Insert? && Cells.Find(seen, op.kv.key) == None && Cells.AllHeld(seen) && Cells.IsVictim(seen, j))
  {
    hide Cells.TouchCell;
    assert !Cells.Holds(now[j], seen[j].e.key);
    match op
    case Insert(kv, ttl) =>
      var epoch: nat :| now == Cells.SyncStored(seen, kv, Ttl(epoch, ttl));
      UpdateKeepsKeys(seen, kv, Ttl(epoch, ttl));
    case Remove(key) => Cells.FindHolds(seen, key);
    case _ =>
  }

  /**
   The bucket an insert leaves, cell by cell.  A resident key is updated in place.  An absent
   one fills the first vacant cell, or, when none is vacant, the cell of the least-priority
   entry; every other cell is as it was.
   */
  lemma InsertFinishes(seen: Cells.Bucket, now: Cells.Bucket, kv: KV, ttl: nat)
    requires Finished(seen, now, Insert(kv, ttl))
    ensures exists i, epoch: nat :: 0 <= i < 4 &&
              if exists j :: 0 <= j < 4 && Cells.Holds(seen[j], kv.key) then Cells.UpdatedIn(seen, now, i, kv, Ttl(epoch, ttl))
              else Cells.FilledIn(seen, now, i, Cells.Entry(kv.key, kv.value, 0, 1, epoch, ttl)) &&
                   if exists j :: 0 <= j < 4 && seen[j].Vacant? then seen[i].Vacant? && forall j :: 0 <= j < i ==> seen[j].Held?
                   else Cells.IsVictim(seen, i)
  {
    hide Cells.UpdatedIn, Cells.FilledIn, Cells.UpdateAt, Cells.FreshAt, Cells.IsVictim;
    var epoch: nat :| now == Cells.SyncStored(seen, kv, Ttl(epoch, ttl));
    var f, i0 := Cells.Find(seen, kv.key), Cells.SyncTarget(seen);
    Cells.FindHolds(seen, kv.key);
    Cells.SyncTargetIs(seen);
    if f.Some? {
      Cells.UpdateUpdates(seen, f.value, kv, Ttl(epoch, ttl));
      assert Cells.UpdatedIn(seen, now, f.value, kv, Ttl(epoch, ttl));
    } else {
      Cells.FreshFills(seen, i0, kv, Ttl(epoch, ttl));
      assert Cells.FilledIn(seen, now, i0, Cells.Entry(kv.key, kv.value, 0, 1, epoch, ttl));
    }
  }

  lemma UpdateKeepsKeys(seen: Cells.Bucket, kv: KV, t: Ttl)
    ensures var f := Cells.Find(seen, kv.key);
            f.Some? ==> f.value < 4 && forall j :: 0 <= j < 4 && seen[j].Held? ==>
              Cells.UpdateAt(seen, f.value, kv, t)[j].Held? && Cells.UpdateAt(seen, f.value, kv, t)[j].e.key == seen[j].e.key
  {
    Cells.FindHolds(seen, kv.key);
  }

  // ---------------------------------------------------------------------
  // Nobody else
  // ---------------------------------------------------------------------

  /** Points whose step writes the table. */
  predicate Writes(pc: Pc) {
    pc.DrainApply? || pc.Freeing? || pc.Storing? || pc.Allocating? || pc.Stamping? || pc.Clearing? || pc.GrowWork?
  }

  lemma NoWrite(env: Env, s: Sys, t: nat, lossy: bool)
    requires Good(s.st, env.c, s.dirty) && ThreadOk(s.st, s.dirty, s.layout, env.c, Th(s, t)) && !Writes(Th(s, t).pc)
    ensures Next(env, s, t, lossy).0.st == s.st
  {
    hide Good, NoneBelow, Holding, Live, IndexOf, Mode, KvAt, RecAt, H2Of, Cells.SyncTarget, Cells.Expired, BucketAt,
         ExtHi, ExtFp, InlineKey, Matches, Wrap64, Pushed, EvOk, CeilBits, Pow2, StoringOk, FreeingOk, StampOk, ScanSlot, AfterMiss, AfterMatch;
    GoodShape(s.st, env.c, s.dirty);
  }

  /** A write in bucket `b`, which the thread holds, leaves every other bucket alone. */
  ghost predicate WritesOnly(s: Sys, s1: Sys, b: nat)
    requires Shape(s.st) && Shape(s1.st)
  {
    |s1.st.buckets| == |s.st.buckets| && KeptMem(s.st, s.dirty, s1.st, s1.dirty, b)
  }

  lemma PutFrame(env: Env, s: Sys, t: nat, i: nat, kind: Kind)
    requires Inv(env, s) && History(s) && (Th(s, t).pc == Storing(i, kind) || Th(s, t).pc == Allocating(i, kind))
    requires Good(s.st, env.c, s.dirty) && InRange(s.st, Loc(Th(s, t).b, i)) && Th(s, t).op.Insert?
    ensures Shape(s.st) && Shape(PutStep(env, s, Th(s, t), i, kind).0.st)
    ensures WritesOnly(s, PutStep(env, s, Th(s, t), i, kind).0, Th(s, t).b)
  {
    hide Inv, Good, HoldsOf, AllSections, TimeOk, MidWrite, Chosen, RecAt, KvAt, TtlAt, PutWord, Place, SetMeta, KeptMem, FullBut, MayPlace,
         SameBut, Live, IsFull, NoneBelow, IndexOf, H2Of;
    StoringNow(env, s, t);
    var th := Th(s, t);
    var l, kv := Loc(th.b, i), th.op.kv;
    PutMayPlace(s.st, env.c, s.dirty, th, i, kind);
    PutFacts(s.st, env.c, s.dirty, l, kv, PutWord(s.st, env.c, l, kv.key, kind));
  }

  lemma DrainFrame(env: Env, s: Sys, t: nat, lossy: bool)
    requires Th(s, t).pc.DrainApply?
    requires Good(s.st, env.c, s.dirty) && ThreadOk(s.st, s.dirty, s.layout, env.c, Th(s, t))
    ensures var s1 := Next(env, s, t, lossy).0;
            && Shape(s.st) && Shape(s1.st) && HoldsOf(Th(s, t)).bucket.Some?
            && WritesOnly(s, s1, HoldsOf(Th(s, t)).bucket.value)
  {
    hide Good, ThreadOk, HoldsOf, KeptMem, FullBut, TouchStore, Live, IsFull, KvAt, TtlAt;
    GoodShape(s.st, env.c, s.dirty);
    DrainRange(s.st, s.dirty, s.layout, env.c, Th(s, t));
    DrainHolds(Th(s, t));
    TouchOne(s.st, env.c, s.dirty, Th(s, t).pc.ev.loc);
  }

  lemma FreeFrame(env: Env, s: Sys, t: nat, lossy: bool)
    requires Th(s, t).pc.Freeing?
    requires Good(s.st, env.c, s.dirty) && ThreadOk(s.st, s.dirty, s.layout, env.c, Th(s, t))
    ensures var s1 := Next(env, s, t, lossy).0;
            && Shape(s.st) && Shape(s1.st) && HoldsOf(Th(s, t)).bucket.Some?
            && WritesOnly(s, s1, HoldsOf(Th(s, t)).bucket.value)
  {
    hide Good, ThreadOk, HoldsOf, KeptMem, FullBut, Fewer, Release, RecAt, KvAt, TtlAt, Mode;
    GoodShape(s.st, env.c, s.dirty);
    FreeingRange(s.st, s.dirty, s.layout, env.c, Th(s, t));
    SectionBucket(Th(s, t));
    ClaimFacts(s.st, env.c, s.dirty, Loc(Th(s, t).b, Th(s, t).pc.i));
  }

  lemma StampFrame(env: Env, s: Sys, t: nat, lossy: bool)
    requires Th(s, t).pc.Stamping?
    requires Good(s.st, env.c, s.dirty) && ThreadOk(s.st, s.dirty, s.layout, env.c, Th(s, t))
    ensures var s1 := Next(env, s, t, lossy).0;
            && Shape(s.st) && Shape(s1.st) && HoldsOf(Th(s, t)).bucket.Some?
            && WritesOnly(s, s1, HoldsOf(Th(s, t)).bucket.value)
  {
    hide Good, ThreadOk, HoldsOf, KeptMem, FullBut, SetTtl, Live, IsFull, KvAt, TtlAt;
    GoodShape(s.st, env.c, s.dirty);
    var th := Th(s, t);
    StampThread(s.st, s.dirty, s.layout, env.c, th);
    SectionBucket(th);
    StampFacts(s.st, env.c, s.dirty, Loc(th.b, th.pc.i), Ttl(th.pc.e, th.op.ttl));
  }

  lemma ClearFrame(env: Env, s: Sys, t: nat, lossy: bool)
    requires Th(s, t).pc.Clearing?
    requires Good(s.st, env.c, s.dirty) && ThreadOk(s.st, s.dirty, s.layout, env.c, Th(s, t))
    ensures var s1 := Next(env, s, t, lossy).0;
            && Shape(s.st) && Shape(s1.st) && HoldsOf(Th(s, t)).bucket.Some?
            && WritesOnly(s, s1, HoldsOf(Th(s, t)).bucket.value)
  {
    hide Good, ThreadOk, HoldsOf, KeptMem, FullBut, ClearStore, Live, IsFull, KvAt, TtlAt, NoneBelow, IndexOf;
    GoodShape(s.st, env.c, s.dirty);
    var th := Th(s, t);
    ClearThread(s.st, s.dirty, s.layout, env.c, th, s.st, s.dirty);
    SectionBucket(th);
    ClearFacts(s.st, env.c, s.dirty, Loc(th.b, th.pc.i));
  }

  /** A write happens in the bucket its thread holds. */
  lemma WriteFrame(env: Env, s: Sys, t: nat, lossy: bool)
    requires Inv(env, s) && History(s) && Writes(Th(s, t).pc) && !Th(s, t).pc.GrowWork?
    requires Good(s.st, env.c, s.dirty) && ThreadOk(s.st, s.dirty, s.layout, env.c, Th(s, t))
    ensures var s1 := Next(env, s, t, lossy).0;
            && Shape(s.st) && Shape(s1.st)
            && (s1.st == s.st || (HoldsOf(Th(s, t)).bucket.Some? && WritesOnly(s, s1, HoldsOf(Th(s, t)).bucket.value)))
  {
    hide Inv, Good, History, ThreadOk, HoldsOf, WritesOnly, PutStep, FitsInline;
    GoodShape(s.st, env.c, s.dirty);
    var th := Th(s, t);
    if th.pc.DrainApply? { DrainFrame(env, s, t, lossy); }
    else if th.pc.Freeing? { FreeFrame(env, s, t, lossy); }
    else if th.pc.Stamping? { StampFrame(env, s, t, lossy); }
    else if th.pc.Clearing? { ClearFrame(env, s, t, lossy); }
    else {
      StoringThread(s.st, s.dirty, s.layout, env.c, th);
      SectionBucket(th);
      PutFrame(env, s, t, th.pc.i, th.pc.kind);
    }
  }

  lemma DrainRange(st: Store, dirty: set<Loc>, layout: nat, c: Config, th: Thread)
    requires Shape(st) && ThreadOk(st, dirty, layout, c, th) && th.pc.DrainApply?
    ensures InRange(st, th.pc.ev.loc)
  {
    hide IndexOf;
  }

  lemma FreeingRange(st: Store, dirty: set<Loc>, layout: nat, c: Config, th: Thread)
    requires Shape(st) && ThreadOk(st, dirty, layout, c, th) && th.pc.Freeing?
    ensures var l := Loc(th.b, th.pc.i); InRange(st, l) && IsFull(st, l) && l !in dirty
  {
    hide IndexOf, RecAt, NoneBelow, Mode, Holding;
  }

  /** Settled cells of buckets a step does not hold: `resize` excepted, it leaves them as they are. */
  ghost predicate Untouched(s: Sys, s': Sys, held: Option<nat>)
    requires Shape(s.st) && Shape(s'.st)
  {
    |s'.st.buckets| == |s.st.buckets| &&
    forall m :: InRange(s.st, m) && m !in s.dirty && held != Some(m.b) ==> CellAt(s'.st, m) == CellAt(s.st, m)
  }

  lemma WritesUntouched(s: Sys, s': Sys, b: nat)
    requires Shape(s.st) && Shape(s'.st) && WritesOnly(s, s', b)
    ensures Untouched(s, s', Some(b))
  {
    hide CellAt, KeptMem;
    forall m | InRange(s.st, m) && m !in s.dirty && m.b != b ensures CellAt(s'.st, m) == CellAt(s.st, m) {
      CellKept(s.st, s.dirty, s'.st, s'.dirty, b, m);
    }
  }

  /** In every interleaving a step changes no settled cell of a bucket its thread does not hold. */
  lemma OthersUntouched(env: Env, bits: nat, acts: seq<Action>, a: Action)
    requires Pow2(bits) <= MAX_BUCKETS
    ensures var s := Run(env, bits, acts);
            var s' := Step(env, s, a);
            && Shape(s.st) && Shape(s'.st)
            && (!(a.Go? && Th(s, a.t).pc.GrowWork?) ==> Untouched(s, s', if a.Go? then HoldsOf(Th(s, a.t)).bucket else None))
  {
    hide Run, Inv, History, Pow2, Good, ThreadOk, Next, CanTake, HoldsOf, WritesOnly, Writes, CeilBits, Relock, CellAt;
    var s := Run(env, bits, acts);
    StepKeeps(env, s, a);
    InvShape(env, s);
    InvShape(env, Step(env, s, a));
    match a
    case Begin(t, op) => RelockRest(s, t, Thread(op, 0, Entry(env, op), NOBODY.seen));
    case SetDefault(_) =>
    case Go(t, lossy) =>
      InvGood(env, s);
      InvParts(env, s, t);
      var (s1, th') := Next(env, s, t, lossy);
      RelockRest(s1, t, th');
      if !Writes(Th(s, t).pc) {
        NoWrite(env, s, t, lossy);
      } else if !Th(s, t).pc.GrowWork? {
        WriteFrame(env, s, t, lossy);
        if s1.st != s.st { WritesUntouched(s, s1, HoldsOf(Th(s, t)).bucket.value); }
      }
  }

  lemma InvShape(env: Env, s: Sys)
    requires Inv(env, s)
    ensures Shape(s.st)
  {
    hide Inv, Good;
    InvGood(env, s);
    GoodShape(s.st, env.c, s.dirty);
  }

  /** A drained event is one access of its bucket and nothing else, in every interleaving. */
  lemma DrainIsTouch(env: Env, bits: nat, acts: seq<Action>, t: nat, lossy: bool)
    requires Pow2(bits) <= MAX_BUCKETS
    ensures var s := Run(env, bits, acts);
            var th := Th(s, t);
            && Good(s.st, env.c, s.dirty) && ThreadOk(s.st, s.dirty, s.layout, env.c, th) && Shape(s.st)
            && (th.pc.DrainApply? ==>
                  var l, s1 := th.pc.ev.loc, Next(env, s, t, lossy).0;
                  && InRange(s.st, l) && Shape(s1.st) && |s1.st.buckets| == |s.st.buckets|
                  && BucketAt(s1.st, l.b) == Cells.Touch(BucketAt(s.st, l.b), l.i))
  {
    hide Run, Inv, History, Pow2, Good, ThreadOk, TouchStore, BucketAt, Cells.Touch, KeptMem, FullBut, IsFull, KvAt, TtlAt, Live;
    var s := Run(env, bits, acts);
    InvShape(env, s);
    InvGood(env, s);
    InvParts(env, s, t);
    if Th(s, t).pc.DrainApply? {
      DrainRange(s.st, s.dirty, s.layout, env.c, Th(s, t));
      TouchBucket(s.st, Th(s, t).pc.ev.loc);
      TouchOne(s.st, env.c, s.dirty, Th(s, t).pc.ev.loc);
    }
  }
}

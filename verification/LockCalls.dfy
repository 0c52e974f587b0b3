/**
 Each call from its begin to its end, in every interleaving: an insert advances the epoch once
 and drains before it looks at its bucket, a lookup answers for the bucket it locked, and a
 resize leaves a table of at least the size asked for.
 */
module LockCalls {
  import opened Base
  import opened MetaWord
  import opened Slots
  import opened Hashing
  import opened Stores
  import opened Views
  import opened LockSys
  import opened LockSteps
  import opened LockSafety
  import opened LockCases
  import opened LockSections
  import opened LockSectionSteps
  import opened LockRuns
  import E = LockEffects
  import T = LockTime
  import Q = LockQueue
  import A = LockGrowth
  import Cells
  import G = StoreGrow
  import H = Rehash

  // ---------------------------------------------------------------------
  // What an insert does before it takes its bucket lock
  // ---------------------------------------------------------------------

  /** Epoch advances by the call thread `t` is in. */
  ghost function Advances(env: Env, bits: nat, acts: seq<Action>, t: nat): nat
    requires Pow2(bits) <= MAX_BUCKETS
    decreases |acts|
  {
    hide Inv, History, Pow2, Moves;
    if acts == [] then 0
    else
      var s, a := Run(env, bits, acts[..|acts| - 1]), acts[|acts| - 1];
      if Begins(s, a, t) then 0
      else Advances(env, bits, acts[..|acts| - 1], t) + if Moves(env, s, a, t) && Th(s, t).pc.Advance? then 1 else 0
  }

  /** Events applied by the call thread `t` is in. */
  ghost function Applied(env: Env, bits: nat, acts: seq<Action>, t: nat): nat
    requires Pow2(bits) <= MAX_BUCKETS
    decreases |acts|
  {
    hide Inv, History, Pow2, Moves;
    if acts == [] then 0
    else
      var s, a := Run(env, bits, acts[..|acts| - 1]), acts[|acts| - 1];
      if Begins(s, a, t) then 0
      else Applied(env, bits, acts[..|acts| - 1], t) + if Moves(env, s, a, t) && Th(s, t).pc.DrainApply? then 1 else 0
  }

  /** The points of an insert up to its epoch advance. */
  predicate Early(pc: Pc) { pc.AutoRead? || pc.AutoCheck? || pc.GrowWait? || pc.GrowWork? || pc.Advance? }

  predicate Draws(pc: Pc) { pc.Draining? || pc.DrainLock? || pc.DrainApply? }

  /** The points of an insert from its bucket lock on. */
  predicate Late(pc: Pc) { pc.WantLock? || InBucket(pc) || pc.Unread? }

  /** The points of a resize. */
  predicate Alone(pc: Pc) { pc.Idle? || pc.GrowWait? || pc.GrowWork? }

  lemma NextCalls(env: Env, s: Sys, t: nat, lossy: bool)
    requires Good(s.st, env.c, s.dirty) && ThreadOk(s.st, s.dirty, s.layout, env.c, Th(s, t))
    ensures var th, th' := Th(s, t), Next(env, s, t, lossy).1;
            && th'.op == th.op
            && (Early(th'.pc) ==> Early(th.pc) && !th.pc.Advance?)
            && (th'.pc.WantRead? ==> th.pc.Advance?)
            && (th'.pc.Draining? ==> (th.pc.WantRead? && th'.pc.j == 0) || (th.pc.DrainApply? && th'.pc.j == th.pc.j + 1))
            && (th'.pc.DrainLock? || th'.pc.DrainApply? ==> (th.pc.Draining? || th.pc.DrainLock?) && th'.pc.j == th.pc.j)
            && (Draws(th'.pc) ==> th.op.Insert?)
            && (th'.pc.WantLock? && th.op.Insert? ==> th.pc.Draining? && (th.pc.j >= 64 || s.queue == [] || lossy))
            && (Late(th'.pc) && !th'.pc.WantLock? ==> Late(th.pc))
            && (th.op.Resize? && Alone(th.pc) ==> Alone(th'.pc))
            && (th.pc.GrowWait? ==> th'.pc.GrowWork?)
            && (th'.pc.CountDown? ==> th.op.Remove?)
            && (th.pc.Idle? ==> th'.pc.Idle?)
            && (th.pc.Advance? ==> th'.pc.WantRead?)
            && (Early(th.pc) && th.op.Insert? && !th.pc.Advance? ==> Early(th'.pc))
  {
    hide Good, NoneBelow, Holding, Live, IndexOf, Mode, KvAt, RecAt, H2Of, Cells.SyncTarget, Cells.Expired, BucketAt,
         ExtHi, ExtFp, InlineKey, Matches, Wrap64, Pushed, Release, ClearStore, PutStore, TouchStore, SetTtl,
         EvOk, CeilBits, Pow2, FitsInline, StoringOk, FreeingOk, StampOk, GrowStep;
    GoodShape(s.st, env.c, s.dirty);
    var th := Th(s, t);
    if th.pc.Storing? || th.pc.Allocating? {
      E.StoringThread(s.st, s.dirty, s.layout, env.c, th);
      E.PutMoves(env, s, th, th.pc.i, th.pc.kind);
    }
  }

  lemma BeginCalls(env: Env, s: Sys, a: Action, t: nat)
    requires Inv(env, s) && Begins(s, a, t)
    ensures var th' := Th(Step(env, s, a), t);
            th' == Th(s, t) || (if th'.op.Insert? then Early(th'.pc) else if th'.op.Resize? then th'.pc == GrowWait(th'.op.n) else th'.pc.WantRead?)
  {
    hide Inv, CeilBits, Pow2;
    RelockTh(s, t, Thread(a.op, 0, Entry(env, a.op), NOBODY.seen));
  }

  /** An insert has advanced the epoch once by the time it wants the table, and has applied as many events as its drain has counted, at most 64. */
  ghost predicate CallCounts(env: Env, bits: nat, acts: seq<Action>, t: nat)
    requires Pow2(bits) <= MAX_BUCKETS
  {
    var th := Th(Run(env, bits, acts), t);
    && (th.op.Insert? && !th.pc.Idle? ==> Advances(env, bits, acts, t) == if Early(th.pc) then 0 else 1)
    && (th.op.Insert? && (Early(th.pc) || th.pc.WantRead?) ==> Applied(env, bits, acts, t) == 0)
    && (Draws(th.pc) ==> Applied(env, bits, acts, t) == th.pc.j <= 64)
    && (th.op.Insert? ==> Applied(env, bits, acts, t) <= 64 || th.pc.Idle?)
  }

  lemma {:induction false} CallsCount(env: Env, bits: nat, acts: seq<Action>, t: nat)
    requires Pow2(bits) <= MAX_BUCKETS
    ensures CallCounts(env, bits, acts, t)
    decreases |acts|
  {
    hide Inv, History, Step, Pow2, Good, ThreadOk, Next, Moves, InBucket;
    if acts == [] {
      Q.StartIdle(bits, t);
    } else {
      var m := |acts| - 1;
      var s, a := Run(env, bits, acts[..m]), acts[m];
      CallsCount(env, bits, acts[..m], t);
      ThreadAfter(env, s, a, t);
      if Begins(s, a, t) { BeginCalls(env, s, a, t); }
      if Moves(env, s, a, t) {
        T.MovesIs(env, s, a, t);
        NextCalls(env, s, t, a.lossy);
        Q.DrainBounded(env, bits, acts[..m], t);
      }
    }
  }

  /** At action `m` the insert's drain ended: the queue was empty, a pop failed, or it had applied 64 events. */
  ghost predicate DrainEnded(env: Env, bits: nat, acts: seq<Action>, t: nat, m: nat)
    requires Pow2(bits) <= MAX_BUCKETS && m < |acts|
  {
    var q, a := Run(env, bits, acts[..m]), acts[m];
    && a.Go? && a.t == t && Th(q, t).pc.Draining? && Th(q, t).op == Th(Run(env, bits, acts), t).op
    && (q.queue == [] || a.lossy || Applied(env, bits, acts[..m], t) == 64)
  }

  /**
   In every interleaving an insert that has come to its bucket lock has advanced the epoch
   exactly once and has drained: until the queue was empty, a pop failed, or 64 events were
   applied, never more.
   */
  lemma {:induction false} DrainsFirst(env: Env, bits: nat, acts: seq<Action>, t: nat)
    requires Pow2(bits) <= MAX_BUCKETS
    requires Th(Run(env, bits, acts), t).op.Insert? && Late(Th(Run(env, bits, acts), t).pc)
    ensures Advances(env, bits, acts, t) == 1 && Applied(env, bits, acts, t) <= 64
    ensures exists m :: 0 <= m < |acts| && DrainEnded(env, bits, acts, t, m)
    decreases |acts|
  {
    hide Inv, History, Step, Pow2, Good, ThreadOk, Next, Moves, InBucket, Advances, Applied;
    CallsCount(env, bits, acts, t);
    LateIs(Th(Run(env, bits, acts), t).pc);
    if acts == [] {
      Q.StartIdle(bits, t);
    } else {
      var m := |acts| - 1;
      var s, a := Run(env, bits, acts[..m]), acts[m];
      ThreadAfter(env, s, a, t);
      if Begins(s, a, t) { BeginCalls(env, s, a, t); }
      if Moves(env, s, a, t) {
        T.MovesIs(env, s, a, t);
        NextCalls(env, s, t, a.lossy);
      }
      LateIs(Th(s, t).pc);
      if Late(Th(s, t).pc) {
        DrainsFirst(env, bits, acts[..m], t);
        var k :| 0 <= k < m && DrainEnded(env, bits, acts[..m], t, k);
        assert acts[..m][..k] == acts[..k];
        assert DrainEnded(env, bits, acts, t, k);
      } else {
        CallsCount(env, bits, acts[..m], t);
        assert DrainEnded(env, bits, acts, t, m);
      }
    }
  }

  lemma LateIs(pc: Pc)
    ensures Late(pc) ==> !pc.Idle? && !Early(pc) && !Draws(pc) && !pc.WantRead?
  {}

  // ---------------------------------------------------------------------
  // What a resize leaves
  // ---------------------------------------------------------------------

  /** In every interleaving, once a `resize` call has returned the table has at least the buckets asked for, rounded up to a power of two. */
  lemma {:induction false} ResizeTakesEffect(env: Env, bits: nat, acts: seq<Action>, t: nat)
    requires Pow2(bits) <= MAX_BUCKETS && Th(Run(env, bits, acts), t).op.Resize?
    ensures var s := Run(env, bits, acts);
            Alone(Th(s, t).pc) && (Th(s, t).pc.Idle? ==> |s.st.buckets| >= Pow2(CeilBits(Th(s, t).op.n)))
    decreases |acts|
  {
    hide Inv, History, Step, Pow2, Good, ThreadOk, Next, Moves, CeilBits;
    if acts == [] {
      StartSize(bits, t);
    } else {
      var m := |acts| - 1;
      var s, a := Run(env, bits, acts[..m]), acts[m];
      A.NeverSmaller(env, bits, acts[..m], a);
      ThreadAfter(env, s, a, t);
      if Begins(s, a, t) { BeginCalls(env, s, a, t); }
      if Moves(env, s, a, t) {
        T.MovesIs(env, s, a, t);
        NextCalls(env, s, t, a.lossy);
        ResizeTakesEffect(env, bits, acts[..m], t);
        if Th(s, t).pc.GrowWork? {
          A.GrowthIsAsked(env, bits, acts[..m], t);
          A.GrowWorkSize(env, s, a);
          A.WorkLeaves(env, s, t, a.lossy);
        }
      } else if Th(Run(env, bits, acts), t) == Th(s, t) {
        ResizeTakesEffect(env, bits, acts[..m], t);
      }
    }
  }

  lemma StartSize(bits: nat, t: nat)
    requires Pow2(bits) <= MAX_BUCKETS
    ensures Th(Start(bits), t) == NOBODY && |Start(bits).st.buckets| >= 1 == Pow2(CeilBits(0))
  {}

  // ---------------------------------------------------------------------
  // What a lookup answers
  // ---------------------------------------------------------------------

  predicate Looks(op: Op) { op.Get? || op.Peek? }

  lemma LookingAt(st: Store, dirty: set<Loc>, layout: nat, c: Config, th: Thread)
    requires Shape(st) && ThreadOk(st, dirty, layout, c, th) && (th.pc.Judge? || th.pc.ReadValue?)
    ensures th.pc.i < 4 && Holding(st, dirty, Loc(th.b, th.pc.i), KeyOf(th.op)) && InRange(st, Loc(th.b, th.pc.i))
  {
    hide IndexOf, IsFull, KvAt;
  }

  /** The three ways a lookup ends its section. */
  lemma NextEnds(env: Env, s: Sys, t: nat, lossy: bool)
    requires Good(s.st, env.c, s.dirty) && ThreadOk(s.st, s.dirty, s.layout, env.c, Th(s, t)) && Looks(Th(s, t).op)
    requires Next(env, s, t, lossy).1.pc.Unlock? && !Th(s, t).pc.CountDown?
    ensures var th := Th(s, t);
            var l := Loc(th.b, if th.pc.Judge? || th.pc.ReadValue? then th.pc.i else 0);
            var log := Next(env, s, t, lossy).0.log;
            || (th.pc == Scan(4) && log == s.log)
            || (th.pc.Judge? && log == s.log)
            || ((th.pc.Judge? || th.pc.ReadValue?) && Shape(s.st) && InRange(s.st, l) && log == s.log + [Hit(KeyOf(th.op), KvAt(s.st, l).value)])
  {
    hide Good, NoneBelow, Live, IndexOf, Mode, KvAt, RecAt, H2Of, Cells.SyncTarget, Cells.Expired, BucketAt,
         ExtHi, ExtFp, InlineKey, Matches, Wrap64, Pushed, Release, ClearStore, PutStore, TouchStore, SetTtl,
         EvOk, CeilBits, Pow2, FitsInline, StoringOk, FreeingOk, GrowStep;
    GoodShape(s.st, env.c, s.dirty);
    var th := Th(s, t);
    if th.pc.Storing? || th.pc.Allocating? { E.StoringThread(s.st, s.dirty, s.layout, env.c, th); }
    if th.pc.Judge? || th.pc.ReadValue? { LookingAt(s.st, s.dirty, s.layout, env.c, th); }
  }

  /** Action `m` ended the lookup: without a hit if the bucket it had locked held no entry of the key, or one too old; else with that entry's value. */
  ghost predicate EndsAt(env: Env, bits: nat, acts: seq<Action>, t: nat, m: nat)
    requires Pow2(bits) <= MAX_BUCKETS && m < |acts|
  {
    var q, q', th := Run(env, bits, acts[..m]), Run(env, bits, acts[..m + 1]), Th(Run(env, bits, acts), t);
    var key := KeyOf(th.op);
    && acts[m].Go? && acts[m].t == t && Th(q, t).op == th.op && Th(q, t).seen == th.seen && Th(q', t).pc.Unlock?
    && if forall j :: 0 <= j < 4 ==> !Cells.Holds(th.seen[j], key) then q'.log == q.log
       else if q'.log == q.log then T.Aged(q, key) && (T.Age(q, key) < U64 ==> T.TooOld(q, key, T.LastDefault(acts[..m])))
       else exists i :: 0 <= i < 4 && Cells.Holds(th.seen[i], key) && q'.log == q.log + [Hit(key, th.seen[i].e.value)]
  }

  /** A slot holding the key, in a bucket that is as it was seen. */
  lemma HoldingSeen(st: Store, dirty: set<Loc>, b: nat, seen: Cells.Bucket, i: nat, key: Bytes)
    requires Shape(st) && b < |st.buckets| && i < 4 && BucketSeen(st, dirty, b, seen, 4)
    ensures Holding(st, dirty, Loc(b, i), key) <==> Cells.Holds(seen[i], key)
    ensures Holding(st, dirty, Loc(b, i), key) ==> KvAt(st, Loc(b, i)).value == seen[i].e.value
  {
    hide KvAt, TtlAt, RecAt;
    assert CellSeen(st, dirty, Loc(b, i), seen[i]);
  }

  /** The bucket of a thread that has not started to write is as it saw it. */
  lemma StillSeen(env: Env, s: Sys, t: nat)
    requires Inv(env, s) && History(s) && (Th(s, t).pc.Scan? || Th(s, t).pc.Judge? || Th(s, t).pc.ReadValue?)
    ensures Shape(s.st) && Th(s, t).b < |s.st.buckets| && BucketSeen(s.st, s.dirty, Th(s, t).b, Th(s, t).seen, 4)
  {
    hide Inv, AllSections, TimeOk, BucketSeen;
    AllOf(s, t);
  }

  /** Only a remove gets to the point of counting down. */
  lemma {:induction false} CountsDown(env: Env, bits: nat, acts: seq<Action>, t: nat)
    requires Pow2(bits) <= MAX_BUCKETS && Th(Run(env, bits, acts), t).pc.CountDown?
    ensures Th(Run(env, bits, acts), t).op.Remove?
    decreases |acts|
  {
    hide Inv, History, Step, Pow2, Good, ThreadOk, Next, Moves;
    if acts == [] {
      Q.StartIdle(bits, t);
    } else {
      var m := |acts| - 1;
      var s, a := Run(env, bits, acts[..m]), acts[m];
      ThreadAfter(env, s, a, t);
      if Begins(s, a, t) { BeginCalls(env, s, a, t); }
      if Moves(env, s, a, t) {
        T.MovesIs(env, s, a, t);
        NextCalls(env, s, t, a.lossy);
      } else {
        CountsDown(env, bits, acts[..m], t);
      }
    }
  }

  lemma EndsNow(env: Env, bits: nat, acts: seq<Action>, t: nat)
    requires Pow2(bits) <= MAX_BUCKETS && |acts| > 0
    requires var s := Run(env, bits, acts[..|acts| - 1]);
             Moves(env, s, acts[|acts| - 1], t) && !Th(s, t).pc.Unlock? && Looks(Th(s, t).op)
    requires Th(Run(env, bits, acts), t).pc.Unlock?
    ensures EndsAt(env, bits, acts, t, |acts| - 1)
  {
    hide Inv, History, Pow2, Good, ThreadOk, Next, CanTake, HoldsOf, BucketSeen, KvAt, Holding, T.Aged, T.TooOld, NoneBelow, T.Hides;
    var m := |acts| - 1;
    var s, a := Run(env, bits, acts[..m]), acts[m];
    assert acts[..m + 1] == acts;
    T.MovesIs(env, s, a, t);
    ThreadAfter(env, s, a, t);
    var (s1, th') := Next(env, s, t, a.lossy);
    RelockRest(s1, t, th');
    SameSeen(env, s, t, a.lossy);
    if Th(s, t).pc.CountDown? { CountsDown(env, bits, acts[..m], t); }
    NextEnds(env, s, t, a.lossy);
    StillSeen(env, s, t);
    var th := Th(s, t);
    var key := KeyOf(th.op);
    if th.pc.Scan? {
      ScanNone(s.st, s.dirty, s.layout, env.c, th);
    } else {
      LookingAt(s.st, s.dirty, s.layout, env.c, th);
      HoldingSeen(s.st, s.dirty, th.b, th.seen, th.pc.i, key);
      assert Cells.Holds(th.seen[th.pc.i], key);
      if s1.log == s.log {
        T.ExpiryIsExact(env, bits, acts[..m], t, a.lossy);
        HidesEnd(env, s, t, a.lossy);
      }
    }
  }

  lemma HidesEnd(env: Env, s: Sys, t: nat, lossy: bool)
    requires Good(s.st, env.c, s.dirty) && ThreadOk(s.st, s.dirty, s.layout, env.c, Th(s, t))
    requires Next(env, s, t, lossy).1.pc.Unlock? && Next(env, s, t, lossy).0.log == s.log
    ensures T.Hides(env, s, t, lossy)
  {
    hide Good, ThreadOk, Next;
  }

  lemma SameSeen(env: Env, s: Sys, t: nat, lossy: bool)
    requires Good(s.st, env.c, s.dirty) && ThreadOk(s.st, s.dirty, s.layout, env.c, Th(s, t)) && Looks(Th(s, t).op)
    requires Next(env, s, t, lossy).1.pc.Unlock?
    ensures Next(env, s, t, lossy).1 == Th(s, t).(pc := Unlock)
  {
    hide Good, NoneBelow, Live, IndexOf, Mode, KvAt, RecAt, H2Of, Cells.SyncTarget, Cells.Expired, BucketAt,
         ExtHi, ExtFp, InlineKey, Matches, Wrap64, Pushed, Release, ClearStore, PutStore, TouchStore, SetTtl,
         EvOk, CeilBits, Pow2, FitsInline, StoringOk, FreeingOk, StampOk, GrowStep;
    GoodShape(s.st, env.c, s.dirty);
    var th := Th(s, t);
    if th.pc.Storing? || th.pc.Allocating? { E.StoringThread(s.st, s.dirty, s.layout, env.c, th); }
  }

  lemma ScanNone(st: Store, dirty: set<Loc>, layout: nat, c: Config, th: Thread)
    requires Shape(st) && ThreadOk(st, dirty, layout, c, th) && th.pc == Scan(4)
    requires th.b < |st.buckets| && BucketSeen(st, dirty, th.b, th.seen, 4)
    ensures forall j :: 0 <= j < 4 ==> !Cells.Holds(th.seen[j], KeyOf(th.op))
  {
    hide IndexOf, BucketSeen, Holding;
    forall j | 0 <= j < 4 ensures !Cells.Holds(th.seen[j], KeyOf(th.op)) {
      HoldingSeen(st, dirty, th.b, th.seen, j, KeyOf(th.op));
    }
  }

  /**
   In every interleaving a lookup answers for its bucket as it was when its lock was taken:
   it misses if and only if no cell held the key, or the key's entry was too old; otherwise
   its hit is the entry's value.
   */
  lemma {:induction false} LookupAnswers(env: Env, bits: nat, acts: seq<Action>, t: nat)
    requires Pow2(bits) <= MAX_BUCKETS
    requires Th(Run(env, bits, acts), t).pc.Unlock? && Looks(Th(Run(env, bits, acts), t).op)
    ensures exists m :: 0 <= m < |acts| && EndsAt(env, bits, acts, t, m)
    decreases |acts|
  {
    hide Inv, History, Step, Pow2, Good, ThreadOk, Next, Moves, T.Aged, T.TooOld;
    if acts == [] {
      Q.StartIdle(bits, t);
    } else {
      var n := |acts| - 1;
      var s, a := Run(env, bits, acts[..n]), acts[n];
      ThreadAfter(env, s, a, t);
      if Begins(s, a, t) { BeginCalls(env, s, a, t); }
      if Moves(env, s, a, t) {
        T.MovesIs(env, s, a, t);
        NextCalls(env, s, t, a.lossy);
        UnlockLeaves(env, s, t, a.lossy);
        EndsNow(env, bits, acts, t);
      } else {
        LookupAnswers(env, bits, acts[..n], t);
        var m :| 0 <= m < n && EndsAt(env, bits, acts[..n], t, m);
        assert acts[..n][..m] == acts[..m] && acts[..n][..m + 1] == acts[..m + 1];
        assert EndsAt(env, bits, acts, t, m);
      }
    }
  }

  lemma UnlockLeaves(env: Env, s: Sys, t: nat, lossy: bool)
    requires Good(s.st, env.c, s.dirty) && ThreadOk(s.st, s.dirty, s.layout, env.c, Th(s, t))
    ensures Th(s, t).pc.Unlock? ==> !Next(env, s, t, lossy).1.pc.Unlock?
  {
    hide Good, PutStep, GrowStep;
    GoodShape(s.st, env.c, s.dirty);
  }
}

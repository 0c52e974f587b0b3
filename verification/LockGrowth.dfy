/** Auto-growth in every interleaving: when the table doubles, and that it does so before the insert goes on. */
module LockGrowth {
  import opened Base
  import opened MetaWord
  import opened Slots
  import opened Hashing
  import opened Stores
  import opened Views
  import opened LockSys
  import opened LockSteps
  import opened LockSafety
  import opened LockCases
  import opened LockSections
  import opened LockRuns
  import E = LockEffects
  import W = LockGrow
  import A = LockAtomic
  import T = LockTime
  import Q = LockQueue
  import Cells
  import G = StoreGrow
  import H = Rehash

  /** More than three quarters of the slots were counted as occupied, and twice the buckets is a size the map can have. */
  predicate MustDouble(s: Sys) {
    4 * s.count > 12 * |s.st.buckets| && 2 * |s.st.buckets| <= MAX_BUCKETS
  }

  /** The load test of an auto-resizing map asks for exactly twice the buckets, exactly when more than three quarters are taken. */
  lemma LoadTestIsExact(env: Env, s: Sys, t: nat, lossy: bool)
    requires Inv(env, s) && Th(s, t).pc.AutoCheck?
    ensures Good(s.st, env.c, s.dirty) && ThreadOk(s.st, s.dirty, s.layout, env.c, Th(s, t))
    ensures Next(env, s, t, lossy).1.pc == if env.auto && MustDouble(s) then GrowWait(2 * |s.st.buckets|) else Advance
  {
    hide Inv, Good, ThreadOk, CeilBits, Pow2, PutStep, ScanSlot, AfterMiss, AfterMatch, GrowStep;
    InvGood(env, s);
    InvParts(env, s, t);
    TwiceIs(s.st);
  }

  lemma TwiceIs(st: Store)
    requires Shape(st)
    ensures Pow2(CeilBits(2 * |st.buckets|)) == 2 * |st.buckets|
  {
    hide CeilBits;
    CeilDouble(st.bits);
  }

  // ---------------------------------------------------------------------
  // Where growth comes from
  // ---------------------------------------------------------------------

  /** At action `k` thread `t` made the load test for the operation it is at now. */
  ghost predicate TestedAt(env: Env, bits: nat, acts: seq<Action>, t: nat, k: nat)
    requires Pow2(bits) <= MAX_BUCKETS && k < |acts|
  {
    var q := Run(env, bits, acts[..k]);
    Th(q, t).pc.AutoCheck? && Th(q, t).op == Th(Run(env, bits, acts), t).op
  }

  predicate Growing(pc: Pc) { pc.GrowWait? || pc.GrowWork? }

  /** The points of an operation after its load test and the growth it asked for. */
  predicate Past(pc: Pc) { !pc.Idle? && !pc.AutoRead? && !pc.AutoCheck? && !Growing(pc) }

  lemma NextGrows(env: Env, s: Sys, t: nat, lossy: bool)
    requires Good(s.st, env.c, s.dirty) && ThreadOk(s.st, s.dirty, s.layout, env.c, Th(s, t))
    ensures var th, th' := Th(s, t), Next(env, s, t, lossy).1;
            && th'.op == th.op
            && (th'.pc.GrowWait? ==> th.pc.AutoCheck? && th.op.Insert?)
            && (th'.pc.GrowWork? ==> th.pc == GrowWait(th'.pc.n))
            && (Past(th'.pc) ==> Past(th.pc) || th.pc.AutoCheck? || th.pc.GrowWork?)
  {
    hide Good, NoneBelow, Holding, Live, IndexOf, Mode, KvAt, RecAt, H2Of, Cells.SyncTarget, Cells.Expired, BucketAt,
         ExtHi, ExtFp, InlineKey, Matches, Wrap64, Pushed, Release, ClearStore, PutStore, TouchStore, SetTtl,
         EvOk, CeilBits, Pow2, FitsInline, StoringOk, FreeingOk, StampOk, GrowStep;
    GoodShape(s.st, env.c, s.dirty);
    var th := Th(s, t);
    if th.pc.Storing? || th.pc.Allocating? {
      E.StoringThread(s.st, s.dirty, s.layout, env.c, th);
      E.PutMoves(env, s, th, th.pc.i, th.pc.kind);
    }
  }

  /** An operation enters the system at its first point: an insert of an auto-resizing map at the load test. */
  lemma BeginGrows(env: Env, s: Sys, a: Action, t: nat)
    requires Inv(env, s) && Begins(s, a, t)
    ensures var th' := Th(Step(env, s, a), t);
            && (Growing(th'.pc) ==> th'.op == Resize(th'.pc.n))
            && (env.auto && th'.op.Insert? ==> !Past(th'.pc))
  {
    hide Inv, CeilBits, Pow2;
    RelockTh(s, t, Thread(a.op, 0, Entry(env, a.op), NOBODY.seen));
  }

  /** Moving on after action `n` keeps what was tested. */
  lemma TestedOn(env: Env, bits: nat, acts: seq<Action>, t: nat, k: nat)
    requires Pow2(bits) <= MAX_BUCKETS && k < |acts| - 1 && TestedAt(env, bits, acts[..|acts| - 1], t, k)
    requires Th(Run(env, bits, acts), t).op == Th(Run(env, bits, acts[..|acts| - 1]), t).op
    ensures TestedAt(env, bits, acts, t, k) && acts[..|acts| - 1][..k] == acts[..k]
  {
    hide Run, Inv, History, Pow2;
    assert acts[..|acts| - 1][..k] == acts[..k];
  }

  ghost predicate FullAt(env: Env, bits: nat, acts: seq<Action>, t: nat, k: nat, n: nat)
    requires Pow2(bits) <= MAX_BUCKETS && k < |acts|
  {
    var q := Run(env, bits, acts[..k]);
    env.auto && TestedAt(env, bits, acts, t, k) && MustDouble(q) && n == 2 * |q.st.buckets|
  }

  /**
   In every interleaving a growth of the table is a `resize` to the size its caller gave, or
   an insert's that found more than three quarters of an auto-resizing map taken and asks for
   twice the buckets it saw.
   */
  lemma {:induction false} GrowthIsAsked(env: Env, bits: nat, acts: seq<Action>, t: nat)
    requires Pow2(bits) <= MAX_BUCKETS && Growing(Th(Run(env, bits, acts), t).pc)
    ensures var th := Th(Run(env, bits, acts), t);
            th.op == Resize(th.pc.n) || (th.op.Insert? && exists k :: 0 <= k < |acts| && FullAt(env, bits, acts, t, k, th.pc.n))
    decreases |acts|
  {
    hide Inv, History, Step, Pow2, Good, ThreadOk, Next, Moves, MustDouble, TestedAt;
    if acts == [] {
      Q.StartIdle(bits, t);
    } else {
      var m := |acts| - 1;
      var s, a := Run(env, bits, acts[..m]), acts[m];
      var th := Th(Run(env, bits, acts), t);
      ThreadAfter(env, s, a, t);
      if Begins(s, a, t) { BeginGrows(env, s, a, t); }
      if Moves(env, s, a, t) {
        T.MovesIs(env, s, a, t);
        NextGrows(env, s, t, a.lossy);
      }
      if Moves(env, s, a, t) && Th(s, t).pc.AutoCheck? {
        LoadTestIsExact(env, s, t, a.lossy);
        assert TestedAt(env, bits, acts, t, m) by { TestedNow(env, bits, acts, t); }
        assert FullAt(env, bits, acts, t, m, th.pc.n);
      } else if !Begins(s, a, t) || Growing(Th(s, t).pc) {
        GrowthIsAsked(env, bits, acts[..m], t);
        if Th(s, t).op != Resize(th.pc.n) {
          var k :| 0 <= k < m && FullAt(env, bits, acts[..m], t, k, Th(s, t).pc.n);
          TestedOn(env, bits, acts, t, k);
          assert FullAt(env, bits, acts, t, k, th.pc.n);
        }
      }
    }
  }

  lemma TestedNow(env: Env, bits: nat, acts: seq<Action>, t: nat)
    requires Pow2(bits) <= MAX_BUCKETS && |acts| > 0
    requires Th(Run(env, bits, acts[..|acts| - 1]), t).pc.AutoCheck?
    requires Th(Run(env, bits, acts), t).op == Th(Run(env, bits, acts[..|acts| - 1]), t).op
    ensures TestedAt(env, bits, acts, t, |acts| - 1)
  {
    hide Run, Inv, History, Pow2;
  }

  // ---------------------------------------------------------------------
  // Sizes
  // ---------------------------------------------------------------------

  /** A rehash never waits: it only gives locks up. */
  lemma GrowWorkGoes(env: Env, s: Sys, t: nat, lossy: bool)
    requires Good(s.st, env.c, s.dirty) && ThreadOk(s.st, s.dirty, s.layout, env.c, Th(s, t)) && Th(s, t).pc.GrowWork?
    ensures CanTake(s, HoldsOf(Th(s, t)), HoldsOf(Next(env, s, t, lossy).1))
    ensures Pow2(CeilBits(Th(s, t).pc.n)) <= MAX_BUCKETS && Shape(s.st)
    ensures Next(env, s, t, lossy).0 == GrowStep(env, s, Th(s, t).pc.n)
  {
    hide Good, GrowStep;
    GoodShape(s.st, env.c, s.dirty);
  }

  lemma GrowWorkSize(env: Env, s: Sys, a: Action)
    requires Inv(env, s) && a.Go? && Th(s, a.t).pc.GrowWork?
    ensures var s', size := Step(env, s, a), Pow2(CeilBits(Th(s, a.t).pc.n));
            && Shape(s.st) && Shape(s'.st) && s'.count == s.count
            && |s'.st.buckets| == (if |s.st.buckets| < size then size else |s.st.buckets|)
            && (forall it :: H.Has(View(s'.st), it) <==> H.Has(View(s.st), it))
            && (if |s.st.buckets| < size then
                  && s'.queue == []
                  && forall b: nat :: b < size ==>
                       H.Packed(View(s'.st)[b], H.Wanting(env.c, CeilBits(Th(s, a.t).pc.n), H.Items(View(s.st)), b))
                else s'.st == s.st && s'.queue == s.queue)
  {
    hide Inv, Good, ThreadOk, CanTake, HoldsOf, Relocked, Mutex, CeilBits, H.Has, H.Items, H.Packed, H.Wanting, View, GrowStep, Next, Pow2;
    InvGood(env, s);
    InvParts(env, s, a.t);
    GrowWorkGoes(env, s, a.t, a.lossy);
    W.GrowStepLosesNothing(env, s, a.t);
    var n := Th(s, a.t).pc.n;
    GoodShape(GrowStep(env, s, n).st, env.c, {});
    TableSize(s.st);
    TableSize(GrowStep(env, s, n).st);
    RelockRest(GrowStep(env, s, n), a.t, Next(env, s, a.t, a.lossy).1);
  }

  lemma TableSize(st: Store)
    requires Shape(st)
    ensures |st.buckets| == Pow2(st.bits)
  {
    hide Pow2;
  }

  /**
   Wherever a rehash happens in an interleaving: the table gets exactly the power of two asked
   for, or stays as it is if it is already that large; the length counter and the set of
   (key, value, epoch, TTL) do not change; growth empties the queue and puts each new bucket's
   items in its first cells, in the order of the old slots, with frequency 0 and recency 1.
   */
  lemma ResizeLosesNothing(env: Env, bits: nat, acts: seq<Action>, t: nat, lossy: bool)
    requires Pow2(bits) <= MAX_BUCKETS && Th(Run(env, bits, acts), t).pc.GrowWork?
    ensures var s := Run(env, bits, acts);
            var s', want := Step(env, s, Go(t, lossy)), CeilBits(Th(s, t).pc.n);
            && Shape(s.st) && Shape(s'.st) && s'.count == s.count
            && |s'.st.buckets| == (if |s.st.buckets| < Pow2(want) then Pow2(want) else |s.st.buckets|)
            && (forall it :: H.Has(View(s'.st), it) <==> H.Has(View(s.st), it))
            && (if |s.st.buckets| < Pow2(want) then
                  && s'.queue == []
                  && forall b: nat :: b < Pow2(want) ==> H.Packed(View(s'.st)[b], H.Wanting(env.c, want, H.Items(View(s.st)), b))
                else s'.st == s.st && s'.queue == s.queue)
  {
    hide Run, Inv, History, Pow2, Step, CeilBits, View, H.Has, H.Packed, H.Wanting, H.Items;
    GrowWorkSize(env, Run(env, bits, acts), Go(t, lossy));
  }

  /** No action makes the table smaller. */
  lemma NeverSmaller(env: Env, bits: nat, acts: seq<Action>, a: Action)
    requires Pow2(bits) <= MAX_BUCKETS
    ensures |Step(env, Run(env, bits, acts), a).st.buckets| >= |Run(env, bits, acts).st.buckets|
  {
    hide Run, Inv, History, Pow2, Step;
    A.OthersUntouched(env, bits, acts, a);
    if a.Go? && Th(Run(env, bits, acts), a.t).pc.GrowWork? { GrowWorkSize(env, Run(env, bits, acts), a); }
  }

  /** The load test of the operation, and, if it had to double the table, that the table has doubled since. */
  ghost predicate RoomSince(env: Env, bits: nat, acts: seq<Action>, t: nat, k: nat)
    requires Pow2(bits) <= MAX_BUCKETS && k < |acts|
  {
    var q, s := Run(env, bits, acts[..k]), Run(env, bits, acts);
    TestedAt(env, bits, acts, t, k) && (MustDouble(q) ==> |s.st.buckets| >= 2 * |q.st.buckets|)
  }

  /**
   In every interleaving an insert of an auto-resizing map that is past its load test made
   one, and if it found more than three quarters taken the table has at least doubled since.
   */
  lemma {:induction false} GrowsBeforeStoring(env: Env, bits: nat, acts: seq<Action>, t: nat)
    requires Pow2(bits) <= MAX_BUCKETS && env.auto
    requires Th(Run(env, bits, acts), t).op.Insert? && Past(Th(Run(env, bits, acts), t).pc)
    ensures exists k :: 0 <= k < |acts| && RoomSince(env, bits, acts, t, k)
    decreases |acts|
  {
    hide Inv, History, Step, Pow2, Good, ThreadOk, Next, Moves, MustDouble, TestedAt;
    if acts == [] {
      Q.StartIdle(bits, t);
    } else {
      var m := |acts| - 1;
      var s, a := Run(env, bits, acts[..m]), acts[m];
      ThreadAfter(env, s, a, t);
      if Begins(s, a, t) { BeginGrows(env, s, a, t); }
      if Moves(env, s, a, t) {
        T.MovesIs(env, s, a, t);
        NextGrows(env, s, t, a.lossy);
      }
      if Moves(env, s, a, t) && Th(s, t).pc.AutoCheck? {
        LoadTestIsExact(env, s, t, a.lossy);
        TestedNow(env, bits, acts, t);
        assert RoomSince(env, bits, acts, t, m);
      } else if Moves(env, s, a, t) && Th(s, t).pc.GrowWork? {
        RoomNow(env, bits, acts, t);
      } else {
        GrowsBeforeStoring(env, bits, acts[..m], t);
        var k :| 0 <= k < m && RoomSince(env, bits, acts[..m], t, k);
        TestedOn(env, bits, acts, t, k);
        NeverSmaller(env, bits, acts[..m], a);
        assert RoomSince(env, bits, acts, t, k);
      }
    }
  }

  lemma RoomNow(env: Env, bits: nat, acts: seq<Action>, t: nat)
    requires Pow2(bits) <= MAX_BUCKETS && |acts| > 0
    requires var s, a := Run(env, bits, acts[..|acts| - 1]), acts[|acts| - 1];
             Moves(env, s, a, t) && Th(s, t).pc.GrowWork? && Th(s, t).op.Insert?
    ensures exists k :: 0 <= k < |acts| && RoomSince(env, bits, acts, t, k)
  {
    hide Inv, History, Step, Pow2, Good, ThreadOk, Next, Moves, MustDouble, TestedAt, CeilBits;
    var m := |acts| - 1;
    var s, a := Run(env, bits, acts[..m]), acts[m];
    ThreadAfter(env, s, a, t);
    T.MovesIs(env, s, a, t);
    NextGrows(env, s, t, a.lossy);
    GrowthIsAsked(env, bits, acts[..m], t);
    var n := Th(s, t).pc.n;
    var k :| 0 <= k < m && FullAt(env, bits, acts[..m], t, k, n);
    TestedOn(env, bits, acts, t, k);
    GrowWorkSize(env, s, a);
    WorkLeaves(env, s, t, a.lossy);
    var q := Run(env, bits, acts[..k]);
    InvParts(env, q, t);
    TwiceIs(q.st);
    assert RoomSince(env, bits, acts, t, k);
  }

  lemma WorkLeaves(env: Env, s: Sys, t: nat, lossy: bool)
    requires Good(s.st, env.c, s.dirty) && ThreadOk(s.st, s.dirty, s.layout, env.c, Th(s, t)) && Th(s, t).pc.GrowWork?
    ensures Next(env, s, t, lossy).1.pc != Th(s, t).pc
  {
    hide Good, GrowStep;
    GoodShape(s.st, env.c, s.dirty);
  }
}
